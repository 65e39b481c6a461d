/**
 * app.py: the backend service's `get_performance_resources`. Every category read has its own
 * failure boundary and falls back to zeros; the network rates (KB/s) depend on a history record
 * the service mutates on each poll, modelled as the class `NetworkHistory`.
 */
module Backend {
  import opened Wrappers
  import Disk
  import Rates
  import Lists
  import Monitor

  /** `1024**3`, the divisor of every GB figure. */
  const GiB: real := 1073741824.0
  /** `1024 * 1024`, the divisor of the disk I/O figures. */
  const MiB: real := 1048576.0

  // ---------------------------------------------------------------- fractions

  /** `percent / 100.0 if percent else 0`: a percentage reported as a fraction. */
  function Fraction(percent: real): (r: real)
    ensures r * 100.0 == percent
    ensures 0.0 <= percent <= 100.0 ==> 0.0 <= r <= 1.0
  {
    if percent == 0.0 then 0.0 else percent / 100.0
  }

  /** The per-core list, each percentage reported as a fraction, in core order. */
  function PerCoreFractions(percents: seq<real>): (r: seq<real>)
    ensures |r| == |percents|
    ensures forall i :: 0 <= i < |r| ==> r[i] * 100.0 == percents[i]
  {
    seq(|percents|, i requires 0 <= i < |percents| => percents[i] / 100.0)
  }

  // ---------------------------------------------------------------- network

  /** The part of `net_io_counters()` the rate block reads. */
  datatype NetCounters = NetCounters(bytesRecv: nat, bytesSent: nat)

  /** Receive and transmit rates in KB/s against the stored history. A stored timestamp that is
      not positive means there is no history yet. */
  function KbRates(prevRecv: nat, prevSent: nat, prevTime: real, current: NetCounters, now: real): (r: (real, real))
    ensures prevTime <= 0.0 ==> r == (0.0, 0.0)
    ensures prevTime > 0.0 && now - prevTime <= 0.0 ==> r == (0.0, 0.0)
    ensures prevTime > 0.0 && now - prevTime > 0.0 ==>
              && r.0 * 1024.0 * (now - prevTime) == (current.bytesRecv as int - prevRecv as int) as real
              && r.1 * 1024.0 * (now - prevTime) == (current.bytesSent as int - prevSent as int) as real
  {
    if prevTime > 0.0 then
      var timeDiff := now - prevTime;
      if timeDiff > 0.0 then
        (Rates.PerSecond(prevRecv, current.bytesRecv, timeDiff) / 1024.0,
         Rates.PerSecond(prevSent, current.bytesSent, timeDiff) / 1024.0)
      else (0.0, 0.0)
    else (0.0, 0.0)
  }

  /** The module-level dict `network_history`. */
  class NetworkHistory {
    var bytesRecv: nat
    var bytesSent: nat
    var timestamp: real

    /** Service start: all three entries are 0. */
    constructor ()
      ensures bytesRecv == 0 && bytesSent == 0 && timestamp == 0.0
    {
      bytesRecv, bytesSent, timestamp := 0, 0, 0.0;
    }

    /** One counter sample: the rates against the history, which the sample then replaces
        whichever rate branch was taken. */
    method Sample(current: NetCounters, now: real) returns (rx: real, tx: real)
      modifies this
      ensures (rx, tx) == KbRates(old(bytesRecv), old(bytesSent), old(timestamp), current, now)
      ensures bytesRecv == current.bytesRecv && bytesSent == current.bytesSent && timestamp == now
    {
      if timestamp > 0.0 {
        var timeDiff := now - timestamp;
        if timeDiff > 0.0 {
          rx := Rates.PerSecond(bytesRecv, current.bytesRecv, timeDiff) / 1024.0;
          tx := Rates.PerSecond(bytesSent, current.bytesSent, timeDiff) / 1024.0;
        } else {
          rx, tx := 0.0, 0.0;
        }
      } else {
        rx, tx := 0.0, 0.0;
      }
      bytesRecv := current.bytesRecv;
      bytesSent := current.bytesSent;
      timestamp := now;
    }

    /** The network block: when the counters are unavailable (the read raises or answers None)
        both rates stay 0 and the history is left alone. */
    method ReadNetwork(network: Option<NetCounters>, now: real) returns (rx: real, tx: real)
      modifies this
      ensures network.None? ==> rx == 0.0 && tx == 0.0
                                && bytesRecv == old(bytesRecv) && bytesSent == old(bytesSent)
                                && timestamp == old(timestamp)
      ensures network.Some? ==>
                && (rx, tx) == KbRates(old(bytesRecv), old(bytesSent), old(timestamp), network.value, now)
                && bytesRecv == network.value.bytesRecv && bytesSent == network.value.bytesSent
                && timestamp == now
    {
      rx, tx := 0.0, 0.0;
      if network.Some? {
        rx, tx := Sample(network.value, now);
      }
    }
  }

  /** Given a history with a positive timestamp, both services report the same traffic: the
      backend's KB/s times 1024 is the dashboard's bytes per second, receive and transmit alike. */
  lemma KbRatesAgreeWithDashboard(prevRecv: nat, prevSent: nat, prevTime: real, current: NetCounters, now: real)
    requires prevTime > 0.0
    ensures var kb := KbRates(prevRecv, prevSent, prevTime, current, now);
            var bps := Monitor.Speeds(Some(Monitor.NetIo(prevSent, prevRecv)), Some(prevTime),
                                      Monitor.NetIo(current.bytesSent, current.bytesRecv), now);
            kb.0 * 1024.0 == bps.1 && kb.1 * 1024.0 == bps.0
  {
  }

  // ---------------------------------------------------------------- disks

  /** One entry of `disk_partitions(all=True)`. */
  datatype AppPartition = AppPartition(device: string, mountpoint: string, fstype: string)

  /** One entry of `all_disks`, sizes in GB. */
  datatype DiskEntry =
    DiskEntry(device: string, mountpoint: string, filesystem: string,
              totalGb: real, usedGb: real, freeGb: real, usagePercent: real)

  /** The summary locals `disk_usage`, `disk_used` and `disk_total`. */
  datatype DiskSummary = DiskSummary(usage: real, usedGb: real, totalGb: real)

  const NoSummary: DiskSummary := DiskSummary(0.0, 0.0, 0.0)

  /** The entry for a usage record, sizes converted to GB. */
  function UsageEntry(device: string, mountpoint: string, filesystem: string, u: Disk.Usage): (e: DiskEntry)
    ensures e.totalGb * GiB == u.total as real && e.usedGb * GiB == u.used as real
    ensures e.freeGb * GiB == u.free as real && e.usagePercent == u.percent
    ensures e.device == device && e.mountpoint == mountpoint && e.filesystem == filesystem
  {
    DiskEntry(device, mountpoint, filesystem, u.total as real / GiB, u.used as real / GiB,
              u.free as real / GiB, u.percent)
  }

  /** The summary for a usage record, sizes converted to GB. */
  function UsageSummary(u: Disk.Usage): (s: DiskSummary)
    ensures s.usage == u.percent && s.usedGb * GiB == u.used as real && s.totalGb * GiB == u.total as real
  {
    DiskSummary(u.percent, u.used as real / GiB, u.total as real / GiB)
  }

  /** The entry a partition contributes: only with a non-empty device and mount point, a
      successful usage query and a positive total. */
  function ListedEntry(p: AppPartition, diskUsage: Disk.UsageOracle): (e: Option<DiskEntry>)
    ensures e.Some? <==> p.device != "" && p.mountpoint != ""
                         && diskUsage(p.mountpoint).Ok? && diskUsage(p.mountpoint).value.total > 0
    ensures e.Some? ==> e.value == UsageEntry(p.device, p.mountpoint, p.fstype, diskUsage(p.mountpoint).value)
  {
    if p.device != "" && p.mountpoint != "" then
      match diskUsage(p.mountpoint)
      case Ok(u) => if u.total > 0 then Some(UsageEntry(p.device, p.mountpoint, p.fstype, u)) else None
      case Err(_) => None
    else None
  }

  /** The per-partition step of the loop, for one state of the disks. */
  function ListedOf(diskUsage: Disk.UsageOracle): AppPartition -> Option<DiskEntry>
  {
    p => ListedEntry(p, diskUsage)
  }

  /** The `/` fallback: one entry and its summary when `disk_usage('/')` answers with a positive
      total, and nothing otherwise. */
  function RootFallback(diskUsage: Disk.UsageOracle): (r: (seq<DiskEntry>, DiskSummary))
    ensures diskUsage("/").Ok? && diskUsage("/").value.total > 0 ==>
              r == ([UsageEntry("/", "/", "unknown", diskUsage("/").value)], UsageSummary(diskUsage("/").value))
    ensures !(diskUsage("/").Ok? && diskUsage("/").value.total > 0) ==> r == ([], NoSummary)
  {
    match diskUsage("/")
    case Ok(u) => if u.total > 0 then ([UsageEntry("/", "/", "unknown", u)], UsageSummary(u)) else ([], NoSummary)
    case Err(_) => ([], NoSummary)
  }

  /** The disk block: list the partitions in order, skipping those filtered out or failing; when
      none is listed, try `/`. The summary is assigned inside the loop only under `if not
      all_disks`, tested right after an append, so only the `/` fallback ever sets it. A failing
      partition enumeration leaves no disks and a zero summary, without trying `/`. */
  method CollectDisks(partitions: Result<seq<AppPartition>>, diskUsage: Disk.UsageOracle)
    returns (disks: seq<DiskEntry>, summary: DiskSummary)
    ensures partitions.Err? ==> disks == [] && summary == NoSummary
    ensures partitions.Ok? && Lists.FilterMap(ListedOf(diskUsage), partitions.value) != [] ==>
              disks == Lists.FilterMap(ListedOf(diskUsage), partitions.value) && summary == NoSummary
    ensures partitions.Ok? && Lists.FilterMap(ListedOf(diskUsage), partitions.value) == [] ==>
              (disks, summary) == RootFallback(diskUsage)
  {
    disks := [];
    summary := NoSummary;
    match partitions
    case Err(_) =>
      disks := [];
      summary := NoSummary;
    case Ok(ps) =>
      var i := 0;
      while i < |ps|
        invariant 0 <= i <= |ps|
        invariant disks == Lists.FilterMap(ListedOf(diskUsage), ps[..i])
        invariant summary == NoSummary
      {
        var partition := ps[i];
        if partition.device != "" && partition.mountpoint != "" {
          var usage := diskUsage(partition.mountpoint);
          if usage.Ok? && usage.value.total > 0 {
            var u := usage.value;
            disks := disks + [UsageEntry(partition.device, partition.mountpoint, partition.fstype, u)];
            if disks == [] {
              summary := UsageSummary(u);
            }
          }
        }
        assert ps[..i + 1][..i] == ps[..i];
        i := i + 1;
      }
      assert ps[..i] == ps;
      if disks == [] {
        var root := diskUsage("/");
        if root.Ok? && root.value.total > 0 {
          var u := root.value;
          disks := disks + [UsageEntry("/", "/", "unknown", u)];
          assert disks == [UsageEntry("/", "/", "unknown", u)];
          summary := UsageSummary(u);
        }
      }
  }

  /** What the comment above the inner test says was meant: the summary shows the first disk. */
  function IntendedSummary(disks: seq<DiskEntry>): (s: DiskSummary)
    ensures disks != [] ==> s.usage == disks[0].usagePercent && s.usedGb == disks[0].usedGb
                            && s.totalGb == disks[0].totalGb
    ensures disks == [] ==> s == NoSummary
  {
    if disks == [] then NoSummary else DiskSummary(disks[0].usagePercent, disks[0].usedGb, disks[0].totalGb)
  }

  /** The intended summary changes nothing where the code does set one: whenever no partition is
      listed, the `/` fallback's summary is the summary of its single entry. */
  lemma IntendedSummaryAgreesOnFallback(diskUsage: Disk.UsageOracle)
    ensures IntendedSummary(RootFallback(diskUsage).0) == RootFallback(diskUsage).1
  {
  }

  /** One partition `/dev/sda1` on `/`, 42% used: the code lists it and reports a zero summary;
      the intended summary reports its 42%. */
  method SummaryCounterexample() returns (asWritten: DiskSummary, intended: DiskSummary)
    ensures asWritten == NoSummary
    ensures intended.usage == 42.0
  {
    var usage := Disk.Usage(100, 42, 58, 42.0);
    var diskUsage: Disk.UsageOracle := path => if path == "/" then Ok(usage) else Err("not mounted");
    var ps := [AppPartition("/dev/sda1", "/", "ext4")];
    Lists.FilterMapSingleton(ListedOf(diskUsage), ps[0]);
    var disks;
    disks, asWritten := CollectDisks(Ok(ps), diskUsage);
    intended := IntendedSummary(disks);
  }

  // ---------------------------------------------------------------- the whole report

  /** `cpu_freq()`: it may raise, answer None (or a zero frequency), or give the current value. */
  datatype CpuFreqRead = FreqRaised | FreqMissing | FreqCurrent(current: real)

  datatype MemoryStat = MemoryStat(percent: real, used: nat, available: nat, free: nat)
  datatype SwapStat = SwapStat(percent: real, used: nat, total: nat)
  datatype DiskIo = DiskIo(readBytes: nat, writeBytes: nat, readCount: nat, writeCount: nat)

  /** Every OS read of one poll. `Option` reads are those the code tests for truth and also
      guards with `try` (None covers both); `now` is `time.time()` at the network read. */
  datatype Readings = Readings(
    cpuPercent: Result<real>,
    cpuFreq: CpuFreqRead,
    cpuPerCore: Result<seq<real>>,
    memory: Result<MemoryStat>,
    swap: Result<SwapStat>,
    partitions: Result<seq<AppPartition>>,
    diskUsage: Disk.UsageOracle,
    diskIo: Option<DiskIo>,
    network: Option<NetCounters>,
    now: real,
    processCount: Result<nat>)

  /** The returned fields, grouped by the `try` block that produces them. */
  datatype CpuFields = CpuFields(usage: real, freqCurrent: real, perCore: seq<real>)
  datatype MemoryFields = MemoryFields(usage: real, usedGb: real, availableGb: real, freeGb: real)
  datatype SwapFields = SwapFields(usage: real, usedGb: real, totalGb: real)
  datatype DiskIoFields = DiskIoFields(readMb: real, writeMb: real, readCount: nat, writeCount: nat)

  /** The returned dict, without its ISO timestamp and the pass-through packet and error counters. */
  datatype PerformanceReport = PerformanceReport(
    cpu: CpuFields, memory: MemoryFields, swap: SwapFields, disk: DiskSummary,
    diskIo: DiskIoFields, networkRx: real, networkTx: real, processCount: nat)

  /** The CPU fields. Usage and frequency share one `try`, so a raising `cpu_freq` zeroes the
      usage too; the per-core list fails on its own. */
  function CpuReport(cpuPercent: Result<real>, cpuFreq: CpuFreqRead, cpuPerCore: Result<seq<real>>): (c: CpuFields)
    ensures cpuPercent.Ok? && !cpuFreq.FreqRaised? ==> c.usage * 100.0 == cpuPercent.value
    ensures cpuPercent.Err? || cpuFreq.FreqRaised? ==> c.usage == 0.0 && c.freqCurrent == 0.0
    ensures c.freqCurrent == (if cpuPercent.Ok? && cpuFreq.FreqCurrent? then cpuFreq.current else 0.0)
    ensures cpuPerCore.Ok? ==> c.perCore == PerCoreFractions(cpuPerCore.value)
    ensures cpuPerCore.Err? ==> c.perCore == []
  {
    var ok := cpuPercent.Ok? && !cpuFreq.FreqRaised?;
    var usage := if ok then cpuPercent.value else 0.0;
    var freqCurrent := if ok && cpuFreq.FreqCurrent? then cpuFreq.current else 0.0;
    var perCore := if cpuPerCore.Ok? then cpuPerCore.value else [];
    CpuFields(Fraction(usage), freqCurrent, if perCore != [] then PerCoreFractions(perCore) else [])
  }

  /** The memory fields: the usage as a fraction and the sizes in GB, or zeros. */
  function MemoryReport(memory: Result<MemoryStat>): (m: MemoryFields)
    ensures memory.Ok? ==>
              && m.usage * 100.0 == memory.value.percent
              && m.usedGb * GiB == memory.value.used as real
              && m.availableGb * GiB == memory.value.available as real
              && m.freeGb * GiB == memory.value.free as real
    ensures memory.Err? ==> m == MemoryFields(0.0, 0.0, 0.0, 0.0)
  {
    match memory
    case Ok(v) => MemoryFields(Fraction(v.percent), v.used as real / GiB, v.available as real / GiB, v.free as real / GiB)
    case Err(_) => MemoryFields(Fraction(0.0), 0.0, 0.0, 0.0)
  }

  /** The swap fields: the usage as a fraction and the sizes in GB, or zeros. */
  function SwapReport(swap: Result<SwapStat>): (w: SwapFields)
    ensures swap.Ok? ==>
              && w.usage * 100.0 == swap.value.percent
              && w.usedGb * GiB == swap.value.used as real
              && w.totalGb * GiB == swap.value.total as real
    ensures swap.Err? ==> w == SwapFields(0.0, 0.0, 0.0)
  {
    match swap
    case Ok(v) => SwapFields(Fraction(v.percent), v.used as real / GiB, v.total as real / GiB)
    case Err(_) => SwapFields(Fraction(0.0), 0.0, 0.0)
  }

  /** The disk summary as returned: the usage as a fraction, the sizes as they are. */
  function DiskReport(summary: DiskSummary): (d: DiskSummary)
    ensures d.usage * 100.0 == summary.usage
    ensures d.usedGb == summary.usedGb && d.totalGb == summary.totalGb
  {
    DiskSummary(Fraction(summary.usage), summary.usedGb, summary.totalGb)
  }

  /** The disk I/O fields. Despite their names in the dict (`disk_read_rate`, `disk_write_rate`)
      they are the cumulative totals since boot in MiB, not rates. */
  function DiskIoReport(diskIo: Option<DiskIo>): (f: DiskIoFields)
    ensures diskIo.Some? ==>
              && f.readMb * MiB == diskIo.value.readBytes as real
              && f.writeMb * MiB == diskIo.value.writeBytes as real
              && f.readCount == diskIo.value.readCount && f.writeCount == diskIo.value.writeCount
    ensures diskIo.None? ==> f == DiskIoFields(0.0, 0.0, 0, 0)
  {
    match diskIo
    case Some(io) =>
      DiskIoFields(if io.readBytes != 0 then io.readBytes as real / MiB else 0.0,
                   if io.writeBytes != 0 then io.writeBytes as real / MiB else 0.0,
                   io.readCount, io.writeCount)
    case None => DiskIoFields(0.0, 0.0, 0, 0)
  }

  /** `get_performance_resources`: each category falls back to zeros on its own failure; the
      disk summary comes only from the `/` fallback; the network history moves on exactly when
      the counters are read. */
  method GetPerformanceResources(history: NetworkHistory, readings: Readings) returns (report: PerformanceReport)
    modifies history
    ensures report.cpu == CpuReport(readings.cpuPercent, readings.cpuFreq, readings.cpuPerCore)
    ensures report.memory == MemoryReport(readings.memory)
    ensures report.swap == SwapReport(readings.swap)
    ensures (readings.partitions.Err?
             || Lists.FilterMap(ListedOf(readings.diskUsage), readings.partitions.value) != []
             || !(readings.diskUsage("/").Ok? && readings.diskUsage("/").value.total > 0)) ==>
              report.disk == NoSummary
    ensures (readings.partitions.Ok?
             && Lists.FilterMap(ListedOf(readings.diskUsage), readings.partitions.value) == []
             && readings.diskUsage("/").Ok? && readings.diskUsage("/").value.total > 0) ==>
              report.disk == DiskReport(UsageSummary(readings.diskUsage("/").value))
    ensures report.diskIo == DiskIoReport(readings.diskIo)
    ensures readings.network.None? ==>
              && report.networkRx == report.networkTx == 0.0
              && history.bytesRecv == old(history.bytesRecv) && history.bytesSent == old(history.bytesSent)
              && history.timestamp == old(history.timestamp)
    ensures readings.network.Some? ==>
              && (report.networkRx, report.networkTx)
                 == KbRates(old(history.bytesRecv), old(history.bytesSent), old(history.timestamp),
                            readings.network.value, readings.now)
              && history.bytesRecv == readings.network.value.bytesRecv
              && history.bytesSent == readings.network.value.bytesSent
              && history.timestamp == readings.now
    ensures report.processCount == (if readings.processCount.Ok? then readings.processCount.value else 0)
  {
    var cpu := CpuReport(readings.cpuPercent, readings.cpuFreq, readings.cpuPerCore);
    var memory := MemoryReport(readings.memory);
    var swap := SwapReport(readings.swap);
    var disks, summary := CollectDisks(readings.partitions, readings.diskUsage);
    var diskIo := DiskIoReport(readings.diskIo);
    var networkRx, networkTx := history.ReadNetwork(readings.network, readings.now);
    var processCount := if readings.processCount.Ok? then readings.processCount.value else 0;
    report := PerformanceReport(cpu, memory, swap, DiskReport(summary), diskIo, networkRx, networkTx, processCount);
  }
}
