/**
 * main.py: the dashboard service. Each poll reads the OS once per category and turns the
 * readings into one record per category; a category whose read raises becomes an error record.
 * The network rates depend on the previous counter sample, which the service keeps in two
 * module globals, modelled here as the class `NetworkBaseline`.
 */
module Monitor {
  import opened Wrappers
  import Text
  import Disk
  import Rates
  import Lists

  // ---------------------------------------------------------------- percentages and means

  /** `used / total * 100`, or 0 when the total is not positive. */
  function UsagePercent(used: nat, total: nat): (r: real)
    ensures total > 0 ==> r * total as real == used as real * 100.0
    ensures total == 0 ==> r == 0.0
    ensures used <= total ==> 0.0 <= r <= 100.0
  {
    if total > 0 then (used as real / total as real) * 100.0 else 0.0
  }

  /** Python's `sum` over a list of readings. */
  function Sum(xs: seq<real>): real
  {
    if xs == [] then 0.0 else xs[0] + Sum(xs[1..])
  }

  /** `sum(xs) / len(xs) if xs else 0`. */
  function Mean(xs: seq<real>): (m: real)
    ensures xs == [] ==> m == 0.0
    ensures xs != [] ==> m * |xs| as real == Sum(xs)
  {
    if xs == [] then 0.0 else Sum(xs) / |xs| as real
  }

  /** A sum of readings that all lie in [lo, hi] lies between |xs|*lo and |xs|*hi. */
  lemma {:induction false} SumBounds(xs: seq<real>, lo: real, hi: real)
    requires forall i :: 0 <= i < |xs| ==> lo <= xs[i] <= hi
    ensures |xs| as real * lo <= Sum(xs) <= |xs| as real * hi
  {
    if xs != [] {
      SumBounds(xs[1..], lo, hi);
      assert |xs| as real * lo == lo + |xs[1..]| as real * lo;
      assert |xs| as real * hi == hi + |xs[1..]| as real * hi;
    }
  }

  /** The mean of per-core utilisations lies between the smallest and the largest bound that
      holds for every core, so a list of percentages in [0, 100] averages to one in [0, 100]. */
  lemma MeanWithinBounds(xs: seq<real>, lo: real, hi: real)
    requires xs != []
    requires forall i :: 0 <= i < |xs| ==> lo <= xs[i] <= hi
    ensures lo <= Mean(xs) <= hi
  {
    SumBounds(xs, lo, hi);
  }

  // ---------------------------------------------------------------- CPU

  /** What `cpu_percent` returned: one overall figure, or one figure per core. */
  datatype CpuPercent = Overall(percent: real) | PerCore(percents: seq<real>)

  /** An entry of a psutil result that is either a record with a `current` field or a bare number. */
  datatype Reading = WithCurrent(current: real) | Plain(value: real)

  /** `p.current if hasattr(p, 'current') else p`. */
  function ReadingValue(p: Reading): real
  {
    match p
    case WithCurrent(c) => c
    case Plain(v) => v
  }

  /** What `cpu_freq` returned: a list of entries, one record, or anything else (such as None). */
  datatype CpuFrequency = FrequencyList(entries: seq<Reading>) | FrequencyRecord(current: real) | NoFrequency

  /** The OS reads behind `get_cpu_info`. A `Result` read may raise; `physicalCores` is
      `cpu_count(logical=False)`, which answers None when the count is unknown. */
  datatype CpuReadings = CpuReadings(
    utilization: Result<CpuPercent>,
    frequency: Result<CpuFrequency>,
    affinity: Result<seq<nat>>,
    physicalCores: Option<nat>,
    temperatures: Result<map<string, seq<Reading>>>)

  datatype CpuInfo =
    | CpuInfo(usage: real, frequency: real, cores: nat, temperature: Option<real>)
    | CpuError(message: string)

  /** The utilisation figure: a per-core list is averaged, an empty list gives 0. */
  function CpuUsage(u: CpuPercent): (r: real)
    ensures u.Overall? ==> r == u.percent
    ensures u.PerCore? && u.percents == [] ==> r == 0.0
    ensures u.PerCore? && u.percents != [] ==> r * |u.percents| as real == Sum(u.percents)
  {
    match u
    case Overall(p) => p
    case PerCore(ps) => Mean(ps)
  }

  /** The frequency figure: the first list entry, the record's `current`, or 0. */
  function CpuFrequencyValue(f: CpuFrequency): (r: real)
    ensures f.FrequencyList? && f.entries != [] ==> r == ReadingValue(f.entries[0])
    ensures f.FrequencyRecord? ==> r == f.current
    ensures f.NoFrequency? || (f.FrequencyList? && f.entries == []) ==> r == 0.0
  {
    match f
    case FrequencyList(es) => if es != [] then ReadingValue(es[0]) else 0.0
    case FrequencyRecord(c) => c
    case NoFrequency => 0.0
  }

  /** The core count: the affinity list's length when it is non-empty, else the physical count
      when that is known and non-zero, else 1. */
  function CoreCount(affinity: seq<nat>, physicalCores: Option<nat>): (r: nat)
    ensures r >= 1
    ensures affinity != [] ==> r == |affinity|
    ensures affinity == [] && physicalCores.Some? && physicalCores.value > 0 ==> r == physicalCores.value
    ensures affinity == [] && !(physicalCores.Some? && physicalCores.value > 0) ==> r == 1
  {
    if affinity != [] then |affinity|
    else if physicalCores.Some? && physicalCores.value > 0 then physicalCores.value
    else 1
  }

  /** The temperature: the first `coretemp` entry when the sensors answer and it is non-zero.
      A zero reading is reported as absent, as the `if cpu_temp` test does. */
  function CpuTemperature(temperatures: Result<map<string, seq<Reading>>>): (r: Option<real>)
    ensures r.Some? <==> temperatures.Ok? && "coretemp" in temperatures.value
                         && temperatures.value["coretemp"] != []
                         && ReadingValue(temperatures.value["coretemp"][0]) != 0.0
    ensures r.Some? ==> r.value == ReadingValue(temperatures.value["coretemp"][0])
  {
    match temperatures
    case Err(_) => None
    case Ok(temps) =>
      if "coretemp" in temps && temps["coretemp"] != [] && ReadingValue(temps["coretemp"][0]) != 0.0
      then Some(ReadingValue(temps["coretemp"][0]))
      else None
  }

  /** `get_cpu_info`: a failing utilisation, frequency or affinity read makes the whole record an
      error carrying the first failure's message; a failing sensor read only drops the temperature. */
  function GetCpuInfo(readings: CpuReadings): (info: CpuInfo)
    ensures info.CpuError? <==> readings.utilization.Err? || readings.frequency.Err? || readings.affinity.Err?
    ensures readings.utilization.Err? ==> info == CpuError(readings.utilization.error)
    ensures readings.utilization.Ok? && readings.frequency.Err? ==> info == CpuError(readings.frequency.error)
    ensures readings.utilization.Ok? && readings.frequency.Ok? && readings.affinity.Err? ==>
              info == CpuError(readings.affinity.error)
    ensures info.CpuInfo? ==>
              && info.usage == CpuUsage(readings.utilization.value)
              && info.frequency == CpuFrequencyValue(readings.frequency.value)
              && info.cores == CoreCount(readings.affinity.value, readings.physicalCores) >= 1
              && info.temperature == CpuTemperature(readings.temperatures)
  {
    match readings.utilization
    case Err(e) => CpuError(e)
    case Ok(u) =>
      match readings.frequency
      case Err(e) => CpuError(e)
      case Ok(f) =>
        match readings.affinity
        case Err(e) => CpuError(e)
        case Ok(a) =>
          CpuInfo(CpuUsage(u), CpuFrequencyValue(f), CoreCount(a, readings.physicalCores),
                  CpuTemperature(readings.temperatures))
  }

  // ---------------------------------------------------------------- memory

  /** The part of `virtual_memory()` that `get_memory_info` reports. */
  datatype VirtualMemory = VirtualMemory(total: nat, used: nat, available: nat)

  datatype MemoryInfo =
    | MemoryInfo(usage: real, used: nat, available: nat, total: nat)
    | MemoryError(message: string)

  /** `get_memory_info`: the byte figures pass through, the usage is a percentage of the total. */
  function GetMemoryInfo(memory: Result<VirtualMemory>): (info: MemoryInfo)
    ensures memory.Err? ==> info == MemoryError(memory.error)
    ensures memory.Ok? ==>
              && info.MemoryInfo? && info.used == memory.value.used
              && info.available == memory.value.available && info.total == memory.value.total
    ensures memory.Ok? && memory.value.total > 0 ==>
              info.usage * memory.value.total as real == memory.value.used as real * 100.0
    ensures memory.Ok? && memory.value.total == 0 ==> info.usage == 0.0
  {
    match memory
    case Err(e) => MemoryError(e)
    case Ok(m) => MemoryInfo(UsagePercent(m.used, m.total), m.used, m.available, m.total)
  }

  // ---------------------------------------------------------------- disk

  /** One entry of `disk_partitions(all=False)`. */
  datatype Partition = Partition(device: string, mountpoint: string)

  datatype PartitionInfo =
    PartitionInfo(device: string, mountpoint: string, usage: real, used: nat, free: nat, total: nat)

  datatype DiskInfo = DiskInfo(partitions: seq<PartitionInfo>) | DiskError(message: string)

  /** The rewrite `get_disk_info` applies whatever the OS: a path with a drive colon and a
      backslash has its backslashes turned into slashes. */
  function QueryMountpoint(mountpoint: string): (q: string)
    ensures ':' in mountpoint && '\\' in mountpoint ==>
              '\\' !in q && q == Text.ReplaceBackslashes(mountpoint)
    ensures !(':' in mountpoint && '\\' in mountpoint) ==> q == mountpoint
    ensures ':' in mountpoint ==> q == Text.ReplaceBackslashes(mountpoint)
  {
    Text.NoBackslashAfterReplace(mountpoint);
    if ':' in mountpoint && '\\' in mountpoint then Text.ReplaceBackslashes(mountpoint)
    else if '\\' !in mountpoint then Text.ReplaceWithoutBackslash(mountpoint); mountpoint
    else mountpoint
  }

  /** The entry one partition contributes: present exactly when its usage query succeeds, and
      then reporting the partition's own device and unrewritten mount point. */
  function PartitionEntry(p: Partition, isNt: bool, diskUsage: Disk.UsageOracle): (e: Option<PartitionInfo>)
    ensures e.Some? <==> Disk.GetDiskUsage(QueryMountpoint(p.mountpoint), isNt, diskUsage).Ok?
    ensures e.Some? ==>
              var u := Disk.GetDiskUsage(QueryMountpoint(p.mountpoint), isNt, diskUsage).value;
              && e.value.device == p.device && e.value.mountpoint == p.mountpoint
              && e.value.used == u.used && e.value.free == u.free && e.value.total == u.total
              && e.value.usage == UsagePercent(u.used, u.total)
  {
    match Disk.GetDiskUsage(QueryMountpoint(p.mountpoint), isNt, diskUsage)
    case Err(_) => None
    case Ok(u) => Some(PartitionInfo(p.device, p.mountpoint, UsagePercent(u.used, u.total), u.used, u.free, u.total))
  }

  /** The per-partition step of the loop, for one OS and one state of the disks. */
  function EntryOf(isNt: bool, diskUsage: Disk.UsageOracle): Partition -> Option<PartitionInfo>
  {
    p => PartitionEntry(p, isNt, diskUsage)
  }

  /** The loop of `get_disk_info`: a partition whose query raises is skipped and the loop goes
      on; the list is the partitions' entries in input order. */
  method CollectPartitions(ps: seq<Partition>, isNt: bool, diskUsage: Disk.UsageOracle)
    returns (out: seq<PartitionInfo>)
    ensures out == Lists.FilterMap(EntryOf(isNt, diskUsage), ps)
  {
    out := [];
    var i := 0;
    while i < |ps|
      invariant 0 <= i <= |ps|
      invariant out == Lists.FilterMap(EntryOf(isNt, diskUsage), ps[..i])
    {
      var partition := ps[i];
      var mountpoint := QueryMountpoint(partition.mountpoint);
      var usage := Disk.GetDiskUsage(mountpoint, isNt, diskUsage);
      if usage.Ok? {
        var u := usage.value;
        out := out + [PartitionInfo(partition.device, partition.mountpoint, UsagePercent(u.used, u.total),
                                    u.used, u.free, u.total)];
      }
      assert ps[..i + 1][..i] == ps[..i];
      i := i + 1;
    }
    assert ps[..i] == ps;
  }

  /** `get_disk_info`: a failing partition enumeration makes the record an error. */
  method GetDiskInfo(partitions: Result<seq<Partition>>, isNt: bool, diskUsage: Disk.UsageOracle)
    returns (info: DiskInfo)
    ensures partitions.Err? ==> info == DiskError(partitions.error)
    ensures partitions.Ok? ==> info == DiskInfo(Lists.FilterMap(EntryOf(isNt, diskUsage), partitions.value))
  {
    match partitions
    case Err(e) => info := DiskError(e);
    case Ok(ps) =>
      var entries := CollectPartitions(ps, isNt, diskUsage);
      info := DiskInfo(entries);
  }

  /** Each reported partition is an input partition, in input order, whose usage query
      succeeded, reported under its own device and its original mount point. */
  lemma ReportedPartitionsFollowInput(ps: seq<Partition>, isNt: bool, diskUsage: Disk.UsageOracle)
    ensures var out, idx := Lists.FilterMap(EntryOf(isNt, diskUsage), ps), Lists.KeptIndices(EntryOf(isNt, diskUsage), ps);
            && |out| == |idx| <= |ps|
            && (forall k, l :: 0 <= k < l < |idx| ==> idx[k] < idx[l])
            && forall k :: 0 <= k < |out| ==>
                 && idx[k] < |ps|
                 && out[k].device == ps[idx[k]].device
                 && out[k].mountpoint == ps[idx[k]].mountpoint
                 && Disk.GetDiskUsage(QueryMountpoint(ps[idx[k]].mountpoint), isNt, diskUsage).Ok?
  {
  }

  /** Every partition whose usage query succeeds is reported. */
  lemma SucceedingPartitionReported(ps: seq<Partition>, i: nat, isNt: bool, diskUsage: Disk.UsageOracle)
    requires i < |ps|
    requires Disk.GetDiskUsage(QueryMountpoint(ps[i].mountpoint), isNt, diskUsage).Ok?
    ensures i in Lists.KeptIndices(EntryOf(isNt, diskUsage), ps)
    ensures Lists.FilterMap(EntryOf(isNt, diskUsage), ps)
            == Lists.FilterMap(EntryOf(isNt, diskUsage), ps[..i]) + [PartitionEntry(ps[i], isNt, diskUsage).value]
               + Lists.FilterMap(EntryOf(isNt, diskUsage), ps[i + 1..])
  {
    Lists.KeptIndicesComplete(EntryOf(isNt, diskUsage), ps, i);
    Lists.FilterMapKeeps(EntryOf(isNt, diskUsage), ps, i);
  }

  /** A partition whose usage query fails contributes nothing and does not stop the loop: the
      list is that of the partitions before it followed by that of the partitions after it. */
  lemma FailingPartitionSkipped(ps: seq<Partition>, i: nat, isNt: bool, diskUsage: Disk.UsageOracle)
    requires i < |ps|
    requires Disk.GetDiskUsage(QueryMountpoint(ps[i].mountpoint), isNt, diskUsage).Err?
    ensures Lists.FilterMap(EntryOf(isNt, diskUsage), ps)
            == Lists.FilterMap(EntryOf(isNt, diskUsage), ps[..i]) + Lists.FilterMap(EntryOf(isNt, diskUsage), ps[i + 1..])
  {
    Lists.FilterMapSkips(EntryOf(isNt, diskUsage), ps, i);
  }

  // ---------------------------------------------------------------- network

  /** The part of `net_io_counters()` that `get_network_info` reads. */
  datatype NetIo = NetIo(bytesSent: nat, bytesRecv: nat)

  datatype NetworkInfo =
    | NetworkInfo(upload: real, download: real, connections: nat)
    | NetworkError(message: string)

  /** The test `if last_net_io and last_net_time`: a stored sample and a non-zero stored time. */
  predicate HasHistory(lastNetIo: Option<NetIo>, lastNetTime: Option<real>)
  {
    lastNetIo.Some? && lastNetTime.Some? && lastNetTime.value != 0.0
  }

  /** Upload and download rates in bytes per second against the stored sample. */
  function Speeds(lastNetIo: Option<NetIo>, lastNetTime: Option<real>, current: NetIo, now: real): (r: (real, real))
    ensures !HasHistory(lastNetIo, lastNetTime) ==> r == (0.0, 0.0)
    ensures HasHistory(lastNetIo, lastNetTime) && now - lastNetTime.value <= 0.0 ==> r == (0.0, 0.0)
    ensures HasHistory(lastNetIo, lastNetTime) && now - lastNetTime.value > 0.0 ==>
              && r.0 * (now - lastNetTime.value) == (current.bytesSent as int - lastNetIo.value.bytesSent as int) as real
              && r.1 * (now - lastNetTime.value) == (current.bytesRecv as int - lastNetIo.value.bytesRecv as int) as real
  {
    if HasHistory(lastNetIo, lastNetTime) then
      var timeDiff := now - lastNetTime.value;
      if timeDiff > 0.0 then
        (Rates.PerSecond(lastNetIo.value.bytesSent, current.bytesSent, timeDiff),
         Rates.PerSecond(lastNetIo.value.bytesRecv, current.bytesRecv, timeDiff))
      else (0.0, 0.0)
    else (0.0, 0.0)
  }

  /** The globals `last_net_io` and `last_net_time`. */
  class NetworkBaseline {
    var lastNetIo: Option<NetIo>
    var lastNetTime: Option<real>

    /** Module load: both globals start as None. */
    constructor ()
      ensures lastNetIo == None && lastNetTime == None
    {
      lastNetIo := None;
      lastNetTime := None;
    }

    /** Run as a script, the service takes a first sample before it starts serving. */
    constructor Primed(io: NetIo, now: real)
      ensures lastNetIo == Some(io) && lastNetTime == Some(now)
    {
      lastNetIo := Some(io);
      lastNetTime := Some(now);
    }

    /** One counter sample: the rates against the stored sample, which the new one then replaces
        whichever rate branch was taken. */
    method Poll(sent: nat, recv: nat, now: real) returns (upload: real, download: real)
      modifies this
      ensures (upload, download) == Speeds(old(lastNetIo), old(lastNetTime), NetIo(sent, recv), now)
      ensures lastNetIo == Some(NetIo(sent, recv)) && lastNetTime == Some(now)
    {
      upload, download := 0.0, 0.0;
      if lastNetIo.Some? && lastNetTime.Some? && lastNetTime.value != 0.0 {
        var timeDiff := now - lastNetTime.value;
        if timeDiff > 0.0 {
          upload := Rates.PerSecond(lastNetIo.value.bytesSent, sent, timeDiff);
          download := Rates.PerSecond(lastNetIo.value.bytesRecv, recv, timeDiff);
        }
      }
      lastNetIo := Some(NetIo(sent, recv));
      lastNetTime := Some(now);
    }

    /** `get_network_info`: a failing counter read leaves the baseline alone and reports an
        error; once the counters are read the baseline moves on, even when the connection count
        that follows raises. */
    method GetNetworkInfo(io: Result<NetIo>, now: real, connections: Result<nat>) returns (info: NetworkInfo)
      modifies this
      ensures io.Err? ==> info == NetworkError(io.error)
                          && lastNetIo == old(lastNetIo) && lastNetTime == old(lastNetTime)
      ensures io.Ok? ==> lastNetIo == Some(io.value) && lastNetTime == Some(now)
      ensures io.Ok? && connections.Err? ==> info == NetworkError(connections.error)
      ensures io.Ok? && connections.Ok? ==>
                var r := Speeds(old(lastNetIo), old(lastNetTime), io.value, now);
                info == NetworkInfo(r.0, r.1, connections.value)
    {
      match io
      case Err(e) =>
        info := NetworkError(e);
      case Ok(current) =>
        var upload, download := Poll(current.bytesSent, current.bytesRecv, now);
        match connections
        case Err(e) => info := NetworkError(e);
        case Ok(n) => info := NetworkInfo(upload, download, n);
    }
  }

  /** Two polls 2 seconds apart in which the received bytes go from 1,000,000 to 3,048,576
      report a download rate of 1,024,288 bytes per second. */
  lemma DownloadScenario(sent: nat)
    ensures Speeds(Some(NetIo(sent, 1000000)), Some(10.0), NetIo(sent, 3048576), 12.0) == (0.0, 1024288.0)
  {
  }

  /** The same scenario run through a fresh baseline as the service does: the first poll, with
      no stored sample, reports nothing; the second reports the download rate. */
  method DownloadScenarioPolls(sent: nat) returns (first: real, second: real)
    ensures first == 0.0 && second == 1024288.0
  {
    var baseline := new NetworkBaseline();
    var upload;
    upload, first := baseline.Poll(sent, 1000000, 10.0);
    upload, second := baseline.Poll(sent, 3048576, 12.0);
  }
}
