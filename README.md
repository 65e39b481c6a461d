# SystemInfoView telemetry core, modelled in Dafny

SystemInfoView samples operating-system metrics through `psutil` and serves them as JSON to a
browser dashboard. Two services do it: `main.py` (the dashboard service) and `app.py` (the
backend's performance endpoint). Almost all of both files is Flask and `psutil` plumbing. The
logic this project models and proves is:

- **Network rates from cumulative counters.** Each poll turns the byte counters into a rate
  against the previous sample, then stores the new sample as the baseline. `main.py` keeps the
  baseline in two module globals and reports bytes per second. `app.py` keeps it in a mutable
  dict and reports KB/s. Each is a class here: `Monitor.NetworkBaseline` and
  `Backend.NetworkHistory`. Their methods return the rates and update the fields.
- **Per-category snapshot assembly.** Memory and disk percentages are guarded against a zero
  total. A per-core CPU list is averaged, and a fallback core count is always at least 1. Both
  services build a partition list in a loop that skips partitions that fail or are filtered out.
  `app.py` falls back to `/` when that list is empty. Each category read that can fail has its
  own error record or zero fallback.
- **Windows mount-path normalisation.** `PySystemInfo/Disk.py` `GetDiskUsage` rewrites
  backslashes, completes bare drive specs such as `C:`, and retries a failed query on the drive
  root.

Modules: `Wrappers` (Option/Result), `Text` (the string operations used), `Rates` (Δbytes/Δt),
`Lists` (the filter-map shape shared by both partition loops), `Disk` (`PySystemInfo/Disk.py`),
`Monitor` (`main.py`) and `Backend` (`app.py`).

OS reads, the clock and the OS name are parameters:
- A read that may raise is a `Result`; its `Err` carries the message.
- A read that may answer None is an `Option`.
- `psutil.disk_usage` is an arrow `Disk.UsageOracle`. The disks are fixed during one poll.
- `time.time()` is a `real` parameter.
- `os.name == 'nt'` is the boolean `isNt`.

Byte counters are `nat`. Times, rates and percentages are `real`, computed exactly, without
`round`.

Some behaviour of the code, kept as it is:
- The first poll reports rates of 0, not "no rate".
- A counter that went down gives a negative rate. There is no reset rule (`Rates.PerSecond`:
  the rate is ≥ 0 exactly when the counter did not decrease).
- Timestamps come from the wall clock (`time.time()`), not a monotonic clock.
- No disk I/O counter goes through a rate tracker. `main.py` does not read disk I/O at all.
  `app.py` reports the cumulative totals since boot in MiB, under the names `disk_read_rate`
  and `disk_write_rate`.
- Percentages are not clamped.
- Nothing is locked.
- In `main.py`, a failing connection count (main.py:139, 146-148) turns the whole network
  record into an error, and the rates just computed are lost. The baseline has already moved
  on (`Monitor.NetworkBaseline.GetNetworkInfo`).

## Model

| member | source | states |
|---|---|---|
| `Text.ReplaceBackslashes` | PySystemInfo/Disk.py:15 | same length; each `\` becomes `/`, every other character is kept in place |
| `Text.BeforeFirst` | PySystemInfo/Disk.py:27 | `split(sep)[0]`: the longest sep-free prefix, followed by `sep` exactly when `sep` occurs |
| `Text.NoBackslashAfterReplace` | PySystemInfo/Disk.py:13-15 | no `\` is left, and any other character (not `/`) occurs after the replacement iff before it |
| `Text.ReplaceIdempotent` | PySystemInfo/Disk.py:15 | replacing twice is replacing once (used by `Disk.BackslashBranchIsFinal`) |
| `Text.ReplaceWithoutBackslash` | main.py:93-95 | a string without `\` is left unchanged, so for a mount point with `:` the `'\\' in mountpoint` guard does not change the outcome (used by `Monitor.QueryMountpoint`) |
| `Disk.NormalizeNtPath` | PySystemInfo/Disk.py:13-18 | `:` and `\` present: all `\` become `/`; `:`, no `\`, trailing `:`: `/` appended; otherwise unchanged; a colon is kept, and no `\` is left when there is one |
| `Disk.QueryPath` | PySystemInfo/Disk.py:11-18 | outside Windows the path is unchanged; under Windows it is the normalised path |
| `Disk.RetryPath` | PySystemInfo/Disk.py:26-29 | the colon-free text before the first `:` of the path, followed by `:\` |
| `Disk.GetDiskUsage` | PySystemInfo/Disk.py:8-32 | a successful first query is the answer; under Windows with a `:`, a failure is retried on the drive root; if that fails too, or on any other OS, the first error propagates |
| `Disk.NormalizeIdempotentIff` | PySystemInfo/Disk.py:13-18 | normalising twice equals normalising once iff the path does not contain both `:` and `\` while ending in `:` (`\C:` is the counterexample) |
| `Disk.BackslashBranchIsFinal` | PySystemInfo/Disk.py:13-15 | the backslash branch leaves no `\`; unless the path ends in `:`, normalising again changes nothing |
| `Disk.PosixQueriesOnce` | PySystemInfo/Disk.py:20-32 | outside Windows the outcome is exactly `disk_usage(path)`: no rewrite, no retry |
| `Disk.OutcomeSources` | PySystemInfo/Disk.py:20-32 | success iff the first query or the Windows drive-root retry succeeds; every error is the first query's error |
| `Disk.DriveRootExample` | PySystemInfo/Disk.py:13-15 | `C:\` is queried as `C:/` |
| `Disk.BareDriveExample` | PySystemInfo/Disk.py:16-29 | `C:` is queried as `C:/`; the retry for `D:/backup` is `D:\` |
| `Rates.PerSecond` | main.py:129-132 | rate × Δt = Δbytes; the rate is non-negative exactly when the counter did not decrease |
| `Rates.AccumulatedIsTotalChange` | main.py:129-136 | a fact about the rate formula alone, not about the stored baseline: over samples at increasing times, the rates times their intervals sum to the counter's total change |
| `Lists.FilterMap` | main.py:88-110 | at most as many entries as elements |
| `Lists.FilterMapAppend` | main.py:88-110 | the list for `a + b` is the list for `a` followed by the list for `b` |
| `Lists.FilterMapSkips` | app.py:149-150 | an element yielding nothing leaves the lists before and after it joined |
| `Lists.FilterMapKeeps` | app.py:133-142 | an element yielding an entry contributes exactly that entry at its place |
| `Lists.KeptIndices` | app.py:129-150 | one strictly increasing, in-range position per entry |
| `Lists.KeptIndicesMatch` | app.py:129-150 | the k-th entry is the entry of the k-th element that yields one |
| `Lists.KeptIndicesComplete` | app.py:129-150 | every element that yields an entry is listed |
| `Monitor.UsagePercent` | main.py:70 | total > 0: percent × total = used × 100; total 0: 0; used ≤ total gives a value in [0, 100] |
| `Monitor.Mean` | main.py:25 | an empty list gives 0; otherwise mean × length = sum |
| `Monitor.SumBounds` | main.py:25 | readings in [lo, hi] sum to between n·lo and n·hi |
| `Monitor.MeanWithinBounds` | main.py:24-25 | the mean of a non-empty list lies within any bounds holding for all its elements |
| `Monitor.CpuUsage` | main.py:23-25 | an overall figure is used as it is; a per-core list is averaged, an empty one gives 0 |
| `Monitor.CpuFrequencyValue` | main.py:28-34 | the first list entry (its `current` or itself), the record's `current`, else 0 |
| `Monitor.CoreCount` | main.py:37-41 | always ≥ 1: the affinity length when non-empty, else the non-zero physical count, else 1 |
| `Monitor.CpuTemperature` | main.py:44-58 | present iff the sensors answer with a non-empty `coretemp` group whose first value is non-zero; it is that value |
| `Monitor.GetCpuInfo` | main.py:19-62 | an error carrying the first failing read's message (usage, then frequency, then affinity) iff the usage, frequency or affinity read raises; otherwise the four derived fields and cores ≥ 1 |
| `Monitor.GetMemoryInfo` | main.py:64-80 | a failing read gives the error; otherwise the byte fields pass through and the usage is the guarded percentage |
| `Monitor.QueryMountpoint` | main.py:91-95 | with `:` and `\`, the backslash-free replacement; otherwise the mount point itself; whenever there is a `:`, the result equals the replacement |
| `Monitor.PartitionEntry` | main.py:89-110 | an entry iff the usage query of the rewritten path succeeds; it carries the original device and mount point and the guarded percentage |
| `Monitor.CollectPartitions` | main.py:86-110 | the loop returns the entries of the partitions in input order, skipping failures |
| `Monitor.GetDiskInfo` | main.py:82-115 | a failing enumeration gives the error; otherwise the collected list |
| `Monitor.ReportedPartitionsFollowInput` | main.py:88-110 | at most as many entries as partitions; entry k comes from an input position that increases with k, reports that partition's own device and unrewritten mount point, and its query succeeded |
| `Monitor.SucceedingPartitionReported` | main.py:97-105 | a partition whose query succeeds is listed at its place |
| `Monitor.FailingPartitionSkipped` | main.py:106-110 | a partition whose query fails is skipped and the loop goes on with the rest |
| `Monitor.Speeds` | main.py:125-132 | no stored sample or time 0: (0, 0); Δt ≤ 0: (0, 0); otherwise upload × Δt = Δsent and download × Δt = Δrecv |
| `Monitor.NetworkBaseline.constructor` | main.py:16-17 | both globals start as None |
| `Monitor.NetworkBaseline.Primed` | main.py:250-251 | run as a script, the baseline starts as the first sample |
| `Monitor.NetworkBaseline.Poll` | main.py:122-136 | the rates are `Speeds` against the old baseline; the baseline becomes the current sample and time on every branch |
| `Monitor.NetworkBaseline.GetNetworkInfo` | main.py:117-148 | a failing counter read gives the error and leaves the baseline; once read, the baseline advances even if the connection count then raises |
| `Monitor.DownloadScenario` | main.py:129-132 | 1,000,000 → 3,048,576 received bytes over 2 s is 1,024,288 bytes/s |
| `Monitor.DownloadScenarioPolls` | main.py:125-136 | a fresh baseline polled at 10 s then at 12 s, with received bytes going 1,000,000 → 3,048,576: the first poll reports 0, the second 1,024,288 bytes/s |
| `Backend.Fraction` | app.py:231 | fraction × 100 = percent (0 stays 0); a percentage in [0, 100] gives a fraction in [0, 1] |
| `Backend.PerCoreFractions` | app.py:233 | same length; each entry × 100 is the core's percentage |
| `Backend.KbRates` | app.py:197-209 | stored timestamp ≤ 0: (0, 0); Δt ≤ 0: (0, 0); otherwise rx × 1024 × Δt = Δrecv and tx × 1024 × Δt = Δsent |
| `Backend.NetworkHistory.constructor` | app.py:21-25 | the history starts at 0 bytes and timestamp 0 |
| `Backend.NetworkHistory.Sample` | app.py:193-214 | the rates are `KbRates` against the old history; the history becomes the current counters and time |
| `Backend.NetworkHistory.ReadNetwork` | app.py:188-221 | unavailable counters give (0, 0) and leave the history; otherwise as `Sample` |
| `Backend.KbRatesAgreeWithDashboard` | app.py:199-204 | with a positive stored time, KB/s × 1024 equals the dashboard's bytes/s, receive and transmit |
| `Backend.UsageEntry` | app.py:134-142 | sizes in GB (× 2^30 gives the bytes), percent, device, mount point and file system kept |
| `Backend.UsageSummary` | app.py:166-168 | the summary's percent and its used and total sizes in GB |
| `Backend.ListedEntry` | app.py:130-142 | an entry iff device and mount point are non-empty, the query succeeds and the total is positive |
| `Backend.RootFallback` | app.py:153-170 | one `/` entry plus its summary when `disk_usage('/')` succeeds with a positive total, else nothing and a zero summary |
| `Backend.CollectDisks` | app.py:122-173 | enumeration failure: no disks, zero summary; some partition listed: the list in order with a zero summary; none listed: the `/` fallback |
| `Backend.IntendedSummary` | app.py:144-148 | the summary of the first listed disk, or zero when none is listed |
| `Backend.IntendedSummaryAgreesOnFallback` | app.py:153-168 | on the `/` fallback, the intended summary equals the code's |
| `Backend.SummaryCounterexample` | app.py:144-148 | one partition at 42 %: the code's summary is zero, the intended one is 42 |
| `Backend.CpuReport` | app.py:88-101 | a raising `cpu_freq` also zeroes the usage; usage × 100 is the read percentage; per-core list as fractions or empty |
| `Backend.MemoryReport` | app.py:103-111 | usage × 100 = percent and sizes × 2^30 = bytes, or all zeros on failure |
| `Backend.SwapReport` | app.py:113-120 | usage × 100 = percent and sizes × 2^30 = bytes, or all zeros on failure |
| `Backend.DiskReport` | app.py:247-249 | the summary's usage as a fraction, its sizes unchanged |
| `Backend.DiskIoReport` | app.py:175-185 | cumulative bytes / 2^20 and the operation counts, or zeros when unavailable |
| `Backend.GetPerformanceResources` | app.py:83-270 | each category from its own block; disk summary zero unless nothing was listed and `/` answered; the history advances iff the counters are read |

## Findings

| source | as written | input that shows it | evidently intended | confidence | as-written member | corrected member |
|---|---|---|---|---|---|---|
| app.py:144-148 | `if not all_disks` is tested right after `all_disks.append(...)`, so it is never true and the summary is never taken from a listed disk | one partition `/dev/sda1` mounted on `/`, 42 % used: `disk_usage` is reported as 0 | the comment on line 144 says the first disk is the default display: the summary is the first listed disk's | high (not executed) | `Backend.CollectDisks`, `Backend.SummaryCounterexample` | `Backend.IntendedSummary` |

`Backend.GetPerformanceResources` follows the code as written. `Backend.IntendedSummary` is the
corrected definition beside it. `Backend.IntendedSummaryAgreesOnFallback` shows that the
correction changes nothing on the one path where the code does set a summary.

## Left out

- Flask routes, `jsonify`, HTTP status codes, and the index and health handlers (main.py:171-246, app.py:272-374): HTTP plumbing. `api_all_disks` (app.py:312-348) runs the same listing as `Backend.CollectDisks` without the `/` fallback, which is `Lists.FilterMap(Backend.ListedOf(...), ...)`.
- `get_system_info` in main.py:150-169: direct reads of the boot time and the process ids, with no logic beyond one subtraction and a `len`.
- `get_system_info` in app.py:27-81: a descriptive snapshot outside the monitored core. Besides platform strings it converts the memory total to GB, falls back to `[0, 0, 0]` when `getloadavg` is missing, has its own `cpu_freq` fallbacks to 0, truncates the uptime to an integer and returns None on any error. None of this is modelled.
- `round(...)`, the `float(...)` casts, ISO timestamps and the blocking `cpu_percent` interval: arithmetic stays exact in `real`.
- The error `print`s: output only. The error message of a failed read is kept as the `Err` text.
- app.py's packet and error counters (lines 216-219): `x if x else 0` on a `nat` is the identity.
- `start_system.py`, `run_server.py`, `ShowInfo.py` and `test_disk_fix.py`: launch scripts and a manual test, outside the core.
- The `psutil` wrappers in `PySystemInfo/` (CPU, Memory, Network, Sensor, `GetDiskMount`, `GetDiskIOCounters`): what they read appears only as parameters of the model.
- `PySystemInfo/SystemConst.py`: constants read from `sys`, `platform` and `os`, including a `hasattr(os, 'uname')` branch. The core does not use them.
- `PySystemInfo/GPU.py`: wraps GPUtil, not `psutil`, with per-GPU loops, ×100 scaling of the load and memory use, and a fallback to `[]` on error. No core function calls it, so its results appear nowhere in the model.
- The outer `except Exception: return None` of `get_performance_resources` (app.py:268-270): every block inside has its own `try` with a fallback, so no modelled read can reach it. `Backend.GetPerformanceResources` has no None outcome.
- `PySystemInfo/__init__.py`: the imports of the other modules, the `GetBootTime` and `GetUser` wrappers, and a warning when GPU.py cannot be loaded. The core uses none of them.
- Concurrency: the globals and the history dict are modelled as one object each. Overlapping requests are not modelled.
- Python's dynamic types, known only through `isinstance` and `hasattr`: given as explicit variants (`Monitor.CpuPercent`, `Monitor.Reading`, `Monitor.CpuFrequency`). Any other shape returned by `psutil` is not modelled.
