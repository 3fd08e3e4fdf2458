/**
 The path renderer behind versionator's `format!`: a placeholder names a
 path of member names (or `?`) into the snapshot; the walker follows it and
 renders what it reaches. Records other than the git information have no
 rendering of their own, vectors and identifiers none at all, and every
 member a type does not list panics.
 */
module VersionatorStringValue {
  import opened Wrappers
  import opened Text
  import opened VersionatorTypes
  import C = Common

  datatype Panic =
    | Unimplemented
    | NotValid(member: string, typeName: string)
    | UnwrapFailed

  type Render = Result<string, Panic>

  const UNKNOWN: string := "UNKNOWN"
  const UNWRAP: string := "?"

  /** Scalars and strings render their `Display` on an empty path and reject any member. */
  function Leaf(text: string, typeName: string, path: seq<string>): (r: Render)
    ensures |path| == 0 <==> r.Ok?
    ensures r.Ok? ==> r.value == text
    ensures |path| > 0 ==> r == Err(NotValid(path[0], typeName))
  {
    if |path| == 0 then Ok(text) else Err(NotValid(path[0], typeName))
  }

  function StringAt(s: string, path: seq<string>): Render {
    Leaf(s, "String", path)
  }

  function U64At(n: nat, path: seq<string>): Render {
    Leaf(NatToString(n), "u64", path)
  }

  function BoolAt(b: bool, path: seq<string>): Render {
    Leaf(if b then "true" else "false", "bool", path)
  }

  function ChannelAt(c: C.CompilerChannel, path: seq<string>): Render {
    Leaf(C.CompilerChannelString(c), "versionator::CompilerChannel", path)
  }

  /** Vectors (of identifiers) have no rendering at all. */
  function IdentifiersAt(ids: seq<C.Identifier>, path: seq<string>): (r: Render)
    ensures r == Err(Unimplemented)
  {
    Err(Unimplemented)
  }

  /**
   An option with an empty path renders its content, or `UNKNOWN` when
   absent; `?` steps into a present value and panics on an absent one.
   */
  function OptionAt<T>(o: Option<T>, path: seq<string>, inner: (T, seq<string>) -> Render): (r: Render)
    ensures |path| == 0 && o.None? ==> r == Ok(UNKNOWN)
    ensures |path| == 0 && o.Some? ==> r == inner(o.value, path)
    ensures |path| > 0 && path[0] == UNWRAP ==> r == (if o.Some? then inner(o.value, path[1..]) else Err(UnwrapFailed))
    ensures |path| > 0 && path[0] != UNWRAP ==> r == Err(NotValid(path[0], "Option<T>"))
  {
    if |path| == 0 then
      match o
      case Some(v) => inner(v, path)
      case None => Ok(UNKNOWN)
    else if path[0] == UNWRAP then
      match o
      case Some(v) => inner(v, path[1..])
      case None => Err(UnwrapFailed)
    else Err(NotValid(path[0], "Option<T>"))
  }

  /** A version renders as SemVer text; its unknown members name the compiler record, as written. */
  function VersionAt(v: C.Version, path: seq<string>): Render {
    if |path| == 0 then Ok(C.VersionString(v))
    else if path[0] == "major" then U64At(v.major, path[1..])
    else if path[0] == "minor" then U64At(v.minor, path[1..])
    else if path[0] == "patch" then U64At(v.patch, path[1..])
    else if path[0] == "pre" then IdentifiersAt(v.pre, path[1..])
    else if path[0] == "build" then IdentifiersAt(v.build, path[1..])
    else Err(NotValid(path[0], "versionator::CompilerVersion"))
  }

  function CompilerAt(c: CompilerVersion, path: seq<string>): Render {
    if |path| == 0 then Err(Unimplemented)
    else if path[0] == "version" then VersionAt(c.version, path[1..])
    else if path[0] == "commit_hash" then OptionAt(c.commit_hash, path[1..], StringAt)
    else if path[0] == "commit_date" then OptionAt(c.commit_date, path[1..], StringAt)
    else if path[0] == "channel" then ChannelAt(c.channel, path[1..])
    else if path[0] == "host_triple" then StringAt(c.host_triple, path[1..])
    else if path[0] == "target_triple" then StringAt(c.target_triple, path[1..])
    else Err(NotValid(path[0], "versionator::CompilerVersion"))
  }

  /** `<name><+> (<hash><+>)` with a branch name, `<hash><+>` without. */
  function GitText(g: GitInformation): string {
    var dirty := DirtyMarker(g.dirty);
    match g.name
    case Some(name) => name + dirty + " (" + g.commit_hash + dirty + ")"
    case None => g.commit_hash + dirty
  }

  function GitAt(g: GitInformation, path: seq<string>): Render {
    if |path| == 0 then Ok(GitText(g))
    else if path[0] == "commit_hash" then StringAt(g.commit_hash, path[1..])
    else if path[0] == "dirty" then BoolAt(g.dirty, path[1..])
    else if path[0] == "name" then OptionAt(g.name, path[1..], StringAt)
    else Err(NotValid(path[0], "versionator::GitInformation"))
  }

  /** Version control is transparent: it renders as the git information it holds. */
  function VersionControlAt(vc: VersionControl, path: seq<string>): Render {
    match vc
    case Git(g) => GitAt(g, path)
  }

  /** The walk a placeholder starts at the snapshot root: only the compiler and version control are reachable. */
  function BuildInfoAt(b: BuildInfo, path: seq<string>): Render {
    if |path| == 0 then Err(Unimplemented)
    else if path[0] == "compiler" then CompilerAt(b.compiler, path[1..])
    else if path[0] == "version_control" then OptionAt(b.version_control, path[1..], VersionControlAt)
    else Err(NotValid(path[0], "versionator::BuildInfo"))
  }

  // ---------------------------------------------------------------------------
  // Laws

  /** Neither the snapshot nor the compiler record renders as a whole; git information and versions do. */
  lemma EmptyPaths(b: BuildInfo, g: GitInformation, v: C.Version)
    ensures BuildInfoAt(b, []) == Err(Unimplemented)
    ensures CompilerAt(b.compiler, []) == Err(Unimplemented)
    ensures GitAt(g, []) == Ok(GitText(g))
    ensures VersionAt(v, []) == Ok(C.VersionString(v))
  {
  }

  /** The members each record accepts; any other member panics naming the member and the record. */
  lemma AcceptedMembers(b: BuildInfo, g: GitInformation, m: string, rest: seq<string>)
    ensures BuildInfoAt(b, [m] + rest) == Err(NotValid(m, "versionator::BuildInfo"))
      <==> m != "compiler" && m != "version_control"
    ensures m !in {"version", "commit_hash", "commit_date", "channel", "host_triple", "target_triple"}
      ==> CompilerAt(b.compiler, [m] + rest) == Err(NotValid(m, "versionator::CompilerVersion"))
    ensures m in {"commit_hash", "commit_date", "channel", "host_triple", "target_triple"}
      ==> CompilerAt(b.compiler, [m] + rest) != Err(NotValid(m, "versionator::CompilerVersion"))
    ensures GitAt(g, [m] + rest) == Err(NotValid(m, "versionator::GitInformation"))
      <==> m !in {"commit_hash", "dirty", "name"}
  {
    assert ([m] + rest)[1..] == rest;
  }

  /** Paths reach the fields they name, and `?` on an absent option panics. */
  lemma PathsReachFields(b: BuildInfo)
    ensures BuildInfoAt(b, ["compiler", "host_triple"]) == Ok(b.compiler.host_triple)
    ensures BuildInfoAt(b, ["compiler", "version", "major"]) == Ok(NatToString(b.compiler.version.major))
    ensures BuildInfoAt(b, ["compiler", "commit_hash"])
      == Ok(if b.compiler.commit_hash.Some? then b.compiler.commit_hash.value else UNKNOWN)
    ensures b.version_control.Some? ==>
      BuildInfoAt(b, ["version_control", "?", "commit_hash"]) == Ok(b.version_control.value.info.commit_hash)
    ensures b.version_control.None? ==> BuildInfoAt(b, ["version_control", "?", "commit_hash"]) == Err(UnwrapFailed)
    ensures b.version_control.None? ==> BuildInfoAt(b, ["version_control"]) == Ok(UNKNOWN)
  {
    assert ["compiler", "host_triple"][1..] == ["host_triple"];
    assert ["compiler", "version", "major"][1..] == ["version", "major"];
    assert ["version", "major"][1..] == ["major"];
    assert ["compiler", "commit_hash"][1..] == ["commit_hash"];
    assert ["version_control", "?", "commit_hash"][1..] == ["?", "commit_hash"];
    assert ["?", "commit_hash"][1..] == ["commit_hash"];
  }

  /**
   The dirty marker is written once for every place the hash or the name
   appears: twice when the branch name is known, once otherwise.
   */
  lemma GitTextMarkers(g: GitInformation)
    ensures Count(GitText(g), '+') == Count(g.commit_hash, '+')
      + (if g.name.Some? then Count(g.name.value, '+') else 0)
      + (if g.dirty then (if g.name.Some? then 2 else 1) else 0)
  {
    var d := DirtyMarker(g.dirty);
    assert Count(d, '+') == if g.dirty then 1 else 0;
    assert Count(" (", '+') == 0 && Count(")", '+') == 0;
    match g.name
    case Some(name) =>
      CountAppend(name, d, '+');
      CountAppend(name + d, " (", '+');
      CountAppend(name + d + " (", g.commit_hash, '+');
      CountAppend(name + d + " (" + g.commit_hash, d, '+');
      CountAppend(name + d + " (" + g.commit_hash + d, ")", '+');
    case None =>
      CountAppend(g.commit_hash, d, '+');
  }
}
