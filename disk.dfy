/**
 * PySystemInfo/Disk.py: `GetDiskUsage`, which rewrites a Windows mount path into a form
 * `psutil.disk_usage` accepts and, when the query fails, retries with the bare drive root.
 * The operating system is a parameter (`isNt` stands for `os.name == 'nt'`) and
 * `psutil.disk_usage` is an oracle that may raise.
 */
module Disk {
  import opened Wrappers
  import Text

  /** What `psutil.disk_usage` reports for one path. */
  datatype Usage = Usage(total: nat, used: nat, free: nat, percent: real)

  /** `psutil.disk_usage` on the machine being sampled: either a usage record or the raised error. */
  type UsageOracle = string -> Result<Usage>

  /** True when the path ends with a drive colon, as in `C:`. */
  predicate EndsWithColon(path: string)
  {
    |path| > 0 && path[|path| - 1] == ':'
  }

  /** The rewrite applied under Windows before the first query. */
  function NormalizeNtPath(path: string): (q: string)
    ensures ':' in path && '\\' in path ==> q == Text.ReplaceBackslashes(path)
    ensures ':' in path && '\\' !in path && EndsWithColon(path) ==> q == path + "/"
    ensures ':' !in path || ('\\' !in path && !EndsWithColon(path)) ==> q == path
    ensures ':' in q <==> ':' in path
    ensures ':' in path ==> '\\' !in q
  {
    Text.NoBackslashAfterReplace(path);
    if ':' in path && '\\' in path then Text.ReplaceBackslashes(path)
    else if ':' in path && EndsWithColon(path) then path + "/"
    else path
  }

  /** The path the first `psutil.disk_usage` call receives. */
  function QueryPath(path: string, isNt: bool): (q: string)
    ensures !isNt ==> q == path
    ensures isNt ==> q == NormalizeNtPath(path)
  {
    if isNt then NormalizeNtPath(path) else path
  }

  /** The drive-root path of the retry: the text before the first `:` followed by `:\`. */
  function RetryPath(path: string): (r: string)
    requires ':' in path
    ensures |r| >= 2 && r[|r| - 2..] == ":\\"
    ensures r[..|r| - 2] <= path && ':' !in r[..|r| - 2]
    ensures path[|r| - 2] == ':'
  {
    var drive := Text.BeforeFirst(path, ':');
    assert (drive + ":\\")[..|drive|] == drive;
    drive + ":\\"
  }

  /**
   * `GetDiskUsage(Path)`: query the normalised path; on failure under Windows, when the path has
   * a drive colon, query the drive root instead; if that fails too, or under any other OS, the
   * first error propagates.
   */
  function GetDiskUsage(path: string, isNt: bool, diskUsage: UsageOracle): (r: Result<Usage>)
    ensures diskUsage(QueryPath(path, isNt)).Ok? ==> r == diskUsage(QueryPath(path, isNt))
    ensures diskUsage(QueryPath(path, isNt)).Err? && isNt && ':' in path ==>
              r == (if diskUsage(RetryPath(QueryPath(path, isNt))).Ok?
                    then diskUsage(RetryPath(QueryPath(path, isNt)))
                    else diskUsage(QueryPath(path, isNt)))
    ensures diskUsage(QueryPath(path, isNt)).Err? && !(isNt && ':' in path) ==>
              r == diskUsage(QueryPath(path, isNt))
  {
    var q := QueryPath(path, isNt);
    match diskUsage(q)
    case Ok(u) => Ok(u)
    case Err(e) =>
      if isNt && ':' in q then
        match diskUsage(RetryPath(q))
        case Ok(u) => Ok(u)
        case Err(_) => Err(e)
      else Err(e)
  }

  /** Normalising an already normalised path changes it again exactly when the path held a
      backslash and ended with a drive colon (such as `\C:`): the first pass only replaced the
      slashes, the second then appends `/`. */
  lemma NormalizeIdempotentIff(path: string)
    ensures NormalizeNtPath(NormalizeNtPath(path)) == NormalizeNtPath(path)
            <==> !(':' in path && '\\' in path && EndsWithColon(path))
  {
  }

  /** The output of the backslash branch contains no backslash and, unless it ends with a colon,
      is a fixed point of the rewrite. */
  lemma BackslashBranchIsFinal(path: string)
    requires ':' in path && '\\' in path && !EndsWithColon(path)
    ensures '\\' !in NormalizeNtPath(path)
    ensures NormalizeNtPath(NormalizeNtPath(path)) == NormalizeNtPath(path)
  {
    Text.ReplaceIdempotent(path);
  }

  /** Outside Windows the query path is the mount path as given, and a failure is never retried. */
  lemma PosixQueriesOnce(path: string, diskUsage: UsageOracle)
    ensures GetDiskUsage(path, false, diskUsage) == diskUsage(path)
  {
  }

  /** A successful answer comes from the first query or, under Windows with a drive colon,
      from the drive-root retry; an error is always the first query's error. */
  lemma OutcomeSources(path: string, isNt: bool, diskUsage: UsageOracle)
    ensures var q := QueryPath(path, isNt);
            var r := GetDiskUsage(path, isNt, diskUsage);
            (r.Ok? ==> r == diskUsage(q) || (isNt && ':' in q && r == diskUsage(RetryPath(q)))) &&
            (r.Err? ==> r == diskUsage(q)) &&
            (r.Ok? <==> diskUsage(q).Ok? || (isNt && ':' in q && diskUsage(RetryPath(q)).Ok?))
  {
  }

  /** The usual Windows mount point `C:\` is queried as `C:/`. */
  lemma DriveRootExample()
    ensures NormalizeNtPath("C:\\") == "C:/"
  {
  }

  /** A bare drive spec gets its slash, and a drive-root retry drops everything after the colon. */
  lemma BareDriveExample()
    ensures NormalizeNtPath("C:") == "C:/"
    ensures RetryPath("D:/backup") == "D:\\"
  {
  }
}
