/**
 The build snapshot of the versionator crates, the predecessor of
 build-info: a smaller record set whose compiler record is called
 `CompilerVersion`, whose git record is `GitInformation` and whose commit
 date is kept as text. The SemVer, channel and calendar values are the
 ones of the build-info snapshot.
 */
module VersionatorTypes {
  import opened Wrappers
  import C = Common

  datatype CrateInfo = CrateInfo(name: string, version: C.Version, authors: seq<string>)

  datatype CompilerVersion = CompilerVersion(
    version: C.Version,
    commit_hash: Option<string>,
    commit_date: Option<string>,
    channel: C.CompilerChannel,
    host_triple: string,
    target_triple: string)

  datatype GitInformation = GitInformation(commit_hash: string, dirty: bool, name: Option<string>)

  datatype VersionControl = Git(info: GitInformation)

  datatype BuildInfo = BuildInfo(
    timestamp: C.DateTime,
    crate_info: CrateInfo,
    compiler: CompilerVersion,
    version_control: Option<VersionControl>)

  /** The marker both renderers append to a commit hash of a dirty tree. */
  function DirtyMarker(dirty: bool): string {
    if dirty then "+" else ""
  }

  /** The number of occurrences of `c` in `s`. */
  function Count(s: string, c: char): nat {
    if |s| == 0 then 0 else (if s[0] == c then 1 else 0) + Count(s[1..], c)
  }

  lemma {:induction false} CountAppend(a: string, b: string, c: char)
    ensures Count(a + b, c) == Count(a, c) + Count(b, c)
  {
    if |a| > 0 {
      assert (a + b)[1..] == a[1..] + b;
      CountAppend(a[1..], b, c);
    } else {
      assert a + b == b;
    }
  }
}
