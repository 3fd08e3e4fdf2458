/**
 The earlier path-based renderer of `build-info-proc`: a placeholder names a
 path of steps (`.field`, `.len()`, `?`) into the build snapshot, the walker
 follows it and renders whatever it reaches with `Display`. Every step a type
 does not list panics; there is no error channel.
 */
module IndexedStringValue {
  import opened Wrappers
  import opened Text
  import C = Common
  import Values

  /** One step of a path; the source's `Index` enum, restricted to the variants its walkers match on. */
  datatype Index =
    | Field(name: string)
    | Function(name: string, args: seq<string>)
    | Unwrap

  /** The panics a walk can end in; `Unimplemented` is reached only in the versionator revision. */
  datatype Panic =
    | NotValid(index: Index, typeName: string)
    | UnwrapFailed
    | DisplayPanicked
    | Unimplemented

  type Walk = Result<string, Panic>

  const UNKNOWN: string := "UNKNOWN"

  /** Scalars and strings render their `Display` on an empty path and reject any step. */
  function Leaf(text: string, typeName: string, path: seq<Index>): (r: Walk)
    ensures |path| == 0 <==> r.Ok?
    ensures r.Ok? ==> r.value == text
    ensures |path| > 0 ==> r == Err(NotValid(path[0], typeName))
  {
    if |path| == 0 then Ok(text) else Err(NotValid(path[0], typeName))
  }

  function BoolString(b: bool): string {
    if b then "true" else "false"
  }

  function StringAt(s: string, path: seq<Index>): Walk {
    Leaf(s, "String", path)
  }

  function U64At(n: nat, path: seq<Index>): Walk {
    Leaf(NatToString(n), "u64", path)
  }

  function UsizeAt(n: nat, path: seq<Index>): Walk {
    Leaf(NatToString(n), "usize", path)
  }

  function BoolAt(b: bool, path: seq<Index>): Walk {
    Leaf(BoolString(b), "bool", path)
  }

  function DateTimeAt(d: C.DateTime, path: seq<Index>): Walk {
    Leaf(C.TimestampString(d), "DateTime<Utc>", path)
  }

  function NaiveDateAt(d: C.NaiveDate, path: seq<Index>): Walk {
    Leaf(C.NaiveDateString(d), "NaiveDate", path)
  }

  function CompilerChannelAt(c: C.CompilerChannel, path: seq<Index>): Walk {
    Leaf(C.CompilerChannelString(c), "build_info::CompilerChannel", path)
  }

  /**
   An option with an empty path renders its content, or `UNKNOWN` when
   absent; `?` steps into a present value and panics on an absent one.
   */
  function OptionAt<T>(o: Option<T>, path: seq<Index>, inner: (T, seq<Index>) -> Walk): (r: Walk)
    ensures |path| == 0 && o.None? ==> r == Ok(UNKNOWN)
    ensures |path| == 0 && o.Some? ==> r == inner(o.value, path)
    ensures |path| > 0 && path[0] == Unwrap ==> r == (if o.Some? then inner(o.value, path[1..]) else Err(UnwrapFailed))
    ensures |path| > 0 && path[0] != Unwrap ==> r == Err(NotValid(path[0], "Option<T>"))
  {
    if |path| == 0 then
      match o
      case Some(v) => inner(v, path)
      case None => Ok(UNKNOWN)
    else
      match path[0]
      case Unwrap =>
        (match o
         case Some(v) => inner(v, path[1..])
         case None => Err(UnwrapFailed))
      case _ => Err(NotValid(path[0], "Option<T>"))
  }

  /**
   The rendering loop for a vector: each element's `Display`, followed by
   `", "` unless it is the last one. `FoldJoin(parts, k)` is the text after
   the first `k` elements.
   */
  function FoldJoin(parts: seq<string>, k: nat): string
    requires k <= |parts|
  {
    if k == 0 then ""
    else FoldJoin(parts, k - 1) + parts[k - 1] + (if k - 1 == |parts| - 1 then "" else ", ")
  }

  /**
   A vector with an empty path joins its elements' `Display` with `", "`;
   `len()` without arguments continues on the length as a `usize`.
   */
  function VecAt<T>(items: seq<T>, path: seq<Index>, display: T -> string): (r: Walk)
    ensures |path| == 0 ==> r == Ok(FoldJoin(Map(items, display), |items|))
    ensures |path| > 0 && path[0] == Function("len", []) ==> r == UsizeAt(|items|, path[1..])
    ensures |path| > 0 && path[0] != Function("len", []) ==> r == Err(NotValid(path[0], "Vec<T: Display>"))
  {
    if |path| == 0 then Ok(FoldJoin(Map(items, display), |items|))
    else if path[0] == Function("len", []) then UsizeAt(|items|, path[1..])
    else Err(NotValid(path[0], "Vec<T: Display>"))
  }

  function Map<T>(items: seq<T>, f: T -> string): (r: seq<string>)
    ensures |r| == |items| && forall i :: 0 <= i < |items| ==> r[i] == f(items[i])
  {
    if |items| == 0 then [] else [f(items[0])] + Map(items[1..], f)
  }

  /** An identifier is transparent: it walks as the number or the string it holds. */
  function IdentifierAt(id: C.Identifier, path: seq<Index>): Walk {
    match id
    case Numeric(n) => U64At(n, path)
    case AlphaNumeric(s) => StringAt(s, path)
  }

  function VersionAt(v: C.Version, path: seq<Index>): Walk {
    if |path| == 0 then Ok(C.VersionString(v))
    else
      match path[0]
      case Field("major") => U64At(v.major, path[1..])
      case Field("minor") => U64At(v.minor, path[1..])
      case Field("patch") => U64At(v.patch, path[1..])
      case Field("pre") => VecAt(v.pre, path[1..], C.IdentifierString)
      case Field("build") => VecAt(v.build, path[1..], C.IdentifierString)
      case _ => Err(NotValid(path[0], "build_info::CompilerInfo"))
  }

  function CrateInfoAt(c: C.CrateInfo, path: seq<Index>): Walk {
    if |path| == 0 then Ok(C.CrateInfoString(c))
    else
      match path[0]
      case Field("name") => StringAt(c.name, path[1..])
      case Field("version") => VersionAt(c.version, path[1..])
      case Field("authors") => VecAt(c.authors, path[1..], (s: string) => s)
      case _ => Err(NotValid(path[0], "build_info::CrateInfo"))
  }

  function CompilerInfoAt(c: C.CompilerInfo, path: seq<Index>): Walk {
    if |path| == 0 then
      match C.CompilerInfoString(c)
      case Some(s) => Ok(s)
      case None => Err(DisplayPanicked)
    else
      match path[0]
      case Field("version") => VersionAt(c.version, path[1..])
      case Field("commit_id") => OptionAt(c.commit_id, path[1..], StringAt)
      case Field("commit_date") => OptionAt(c.commit_date, path[1..], NaiveDateAt)
      case Field("channel") => CompilerChannelAt(c.channel, path[1..])
      case Field("host_triple") => StringAt(c.host_triple, path[1..])
      case Field("target_triple") => StringAt(c.target_triple, path[1..])
      case _ => Err(NotValid(path[0], "build_info::CompilerInfo"))
  }

  function GitInfoAt(g: C.GitInfo, path: seq<Index>): Walk {
    if |path| == 0 then Ok(C.GitInfoString(g))
    else
      match path[0]
      case Field("commit_id") => StringAt(g.commit_id, path[1..])
      case Field("commit_short_id") => StringAt(g.commit_short_id, path[1..])
      case Field("commit_timestamp") => DateTimeAt(g.commit_timestamp, path[1..])
      case Field("dirty") => BoolAt(g.dirty, path[1..])
      case Field("branch") => OptionAt(g.branch, path[1..], StringAt)
      case Field("tags") => VecAt(g.tags, path[1..], (s: string) => s)
      case _ => Err(NotValid(path[0], "build_info::GitInfo"))
  }

  /** Version control is transparent: it walks as the git information it holds. */
  function VersionControlAt(vc: C.VersionControl, path: seq<Index>): Walk {
    match vc
    case Git(g) => GitInfoAt(g, path)
  }

  /** The walk a placeholder starts at the snapshot root. */
  function BuildInfoAt(b: C.BuildInfo, path: seq<Index>): Walk {
    if |path| == 0 then Ok(C.BuildInfoString(b))
    else
      match path[0]
      case Field("timestamp") => DateTimeAt(b.timestamp, path[1..])
      case Field("profile") => StringAt(b.profile, path[1..])
      case Field("crate_info") => CrateInfoAt(b.crate_info, path[1..])
      case Field("compiler") => CompilerInfoAt(b.compiler, path[1..])
      case Field("version_control") => OptionAt(b.version_control, path[1..], VersionControlAt)
      case _ => Err(NotValid(path[0], "build_info::BuildInfo"))
  }

  // ---------------------------------------------------------------------------
  // Laws

  /** The fields each record accepts as a first step. */
  const BuildInfoFields: set<string> := {"timestamp", "profile", "crate_info", "compiler", "version_control"}
  const CrateInfoFields: set<string> := {"name", "version", "authors"}
  const CompilerInfoFields: set<string> :=
    {"version", "commit_id", "commit_date", "channel", "host_triple", "target_triple"}
  const GitInfoFields: set<string> := {"commit_id", "commit_short_id", "commit_timestamp", "dirty", "branch", "tags"}
  const VersionFields: set<string> := {"major", "minor", "patch", "pre", "build"}

  predicate Accepts(fields: set<string>, i: Index) {
    i.Field? && i.name in fields
  }

  /** An empty path on a record renders the record's `Display` string. */
  lemma EmptyPathDisplays(b: C.BuildInfo, c: C.CrateInfo, g: C.GitInfo, v: C.Version, vc: C.VersionControl)
    ensures BuildInfoAt(b, []) == Ok(C.BuildInfoString(b))
    ensures CrateInfoAt(c, []) == Ok(C.CrateInfoString(c))
    ensures GitInfoAt(g, []) == Ok(C.GitInfoString(g))
    ensures VersionAt(v, []) == Ok(C.VersionString(v))
    ensures VersionControlAt(vc, []) == Ok(C.VersionControlString(vc))
  {
  }

  /** The compiler record's rendering panics exactly when its `Display` does. */
  lemma CompilerInfoDisplay(c: C.CompilerInfo)
    ensures CompilerInfoAt(c, []).Ok? <==> C.CompilerInfoString(c).Some?
    ensures CompilerInfoAt(c, []).Ok? ==> CompilerInfoAt(c, []).value == C.CompilerInfoString(c).value
    ensures CompilerInfoAt(c, []).Err? ==> CompilerInfoAt(c, []).error == DisplayPanicked
  {
  }

  /**
   A record accepts exactly its listed fields as first step; any other step
   panics naming the record's type.
   */
  lemma UnlistedStepsPanic(b: C.BuildInfo, c: C.CrateInfo, k: C.CompilerInfo, g: C.GitInfo, v: C.Version,
                           i: Index, rest: seq<Index>)
    ensures !Accepts(BuildInfoFields, i) ==> BuildInfoAt(b, [i] + rest) == Err(NotValid(i, "build_info::BuildInfo"))
    ensures !Accepts(CrateInfoFields, i) ==> CrateInfoAt(c, [i] + rest) == Err(NotValid(i, "build_info::CrateInfo"))
    ensures !Accepts(CompilerInfoFields, i) ==>
      CompilerInfoAt(k, [i] + rest) == Err(NotValid(i, "build_info::CompilerInfo"))
    ensures !Accepts(GitInfoFields, i) ==> GitInfoAt(g, [i] + rest) == Err(NotValid(i, "build_info::GitInfo"))
    ensures !Accepts(VersionFields, i) ==> VersionAt(v, [i] + rest) == Err(NotValid(i, "build_info::CompilerInfo"))
  {
    assert ([i] + rest)[0] == i;
  }

  /** A field step continues the walk on that field, with the rest of the path. */
  lemma FieldStepsDescend(b: C.BuildInfo, rest: seq<Index>)
    ensures BuildInfoAt(b, [Field("profile")] + rest) == StringAt(b.profile, rest)
    ensures BuildInfoAt(b, [Field("crate_info")] + rest) == CrateInfoAt(b.crate_info, rest)
    ensures BuildInfoAt(b, [Field("compiler")] + rest) == CompilerInfoAt(b.compiler, rest)
    ensures BuildInfoAt(b, [Field("timestamp")] + rest) == DateTimeAt(b.timestamp, rest)
    ensures BuildInfoAt(b, [Field("version_control")] + rest) == OptionAt(b.version_control, rest, VersionControlAt)
  {
    ProfileStep(b, rest);
    CrateInfoStep(b, rest);
    CompilerStep(b, rest);
    TimestampStep(b, rest);
    VersionControlStep(b, rest);
  }

  lemma ProfileStep(b: C.BuildInfo, rest: seq<Index>)
    ensures BuildInfoAt(b, [Field("profile")] + rest) == StringAt(b.profile, rest)
  {
    StepTail(Field("profile"), rest);
  }

  lemma CrateInfoStep(b: C.BuildInfo, rest: seq<Index>)
    ensures BuildInfoAt(b, [Field("crate_info")] + rest) == CrateInfoAt(b.crate_info, rest)
  {
    StepTail(Field("crate_info"), rest);
  }

  lemma CompilerStep(b: C.BuildInfo, rest: seq<Index>)
    ensures BuildInfoAt(b, [Field("compiler")] + rest) == CompilerInfoAt(b.compiler, rest)
  {
    StepTail(Field("compiler"), rest);
  }

  lemma TimestampStep(b: C.BuildInfo, rest: seq<Index>)
    ensures BuildInfoAt(b, [Field("timestamp")] + rest) == DateTimeAt(b.timestamp, rest)
  {
    StepTail(Field("timestamp"), rest);
  }

  lemma VersionControlStep(b: C.BuildInfo, rest: seq<Index>)
    ensures BuildInfoAt(b, [Field("version_control")] + rest) == OptionAt(b.version_control, rest, VersionControlAt)
  {
    StepTail(Field("version_control"), rest);
  }

  lemma StepTail(i: Index, rest: seq<Index>)
    ensures ([i] + rest)[0] == i && ([i] + rest)[1..] == rest
  {
  }

  /**
   The version-control field of a snapshot without version control renders
   as `UNKNOWN`, and `?` on it panics; with version control, `?` reaches the
   git information.
   */
  lemma VersionControlField(b: C.BuildInfo, rest: seq<Index>)
    ensures b.version_control.None? ==> BuildInfoAt(b, [Field("version_control")]) == Ok(UNKNOWN)
    ensures b.version_control.None? ==>
      BuildInfoAt(b, [Field("version_control"), Unwrap] + rest) == Err(UnwrapFailed)
    ensures b.version_control.Some? ==>
      BuildInfoAt(b, [Field("version_control"), Unwrap] + rest) == GitInfoAt(b.version_control.value.info, rest)
    ensures b.version_control.Some? ==>
      BuildInfoAt(b, [Field("version_control")]) == Ok(C.GitInfoString(b.version_control.value.info))
  {
    var p := [Field("version_control"), Unwrap] + rest;
    assert p[0] == Field("version_control") && p[1..][0] == Unwrap && p[1..][1..] == rest;
    assert [Field("version_control")][1..] == [];
  }

  /** Identifiers walk exactly as the number or string they hold, at every path. */
  lemma IdentifierTransparent(id: C.Identifier, path: seq<Index>)
    ensures id.Numeric? ==> IdentifierAt(id, path) == Leaf(NatToString(id.n), "u64", path)
    ensures id.AlphaNumeric? ==> IdentifierAt(id, path) == Leaf(id.s, "String", path)
    ensures |path| == 0 ==> IdentifierAt(id, path) == Ok(C.IdentifierString(id))
  {
  }

  /** Part of the loop invariant of the vector rendering: what is written so far, plus the join of the rest. */
  lemma {:induction false} FoldJoinPrefix(parts: seq<string>, k: nat)
    requires k < |parts|
    ensures FoldJoin(parts, k) + Join(parts[k..], ", ") == Join(parts, ", ")
    decreases k
  {
    if k == 0 {
      assert parts[0..] == parts;
    } else {
      FoldJoinPrefix(parts, k - 1);
      var tail := parts[k - 1..];
      assert tail[1..] == parts[k..];
      assert Join(tail, ", ") == parts[k - 1] + ", " + Join(parts[k..], ", ");
      assert FoldJoin(parts, k) == FoldJoin(parts, k - 1) + parts[k - 1] + ", ";
    }
  }

  /** The vector rendering loop computes the `", "`-join of the elements, with no `and`. */
  lemma FoldJoinIsJoin(parts: seq<string>)
    ensures FoldJoin(parts, |parts|) == Join(parts, ", ")
  {
    var n := |parts|;
    if n > 0 {
      var before, last := FoldJoin(parts, n - 1), parts[n - 1];
      FoldJoinPrefix(parts, n - 1);
      JoinLast(parts);
      assert before + last == Join(parts, ", ");
      FoldJoinLast(parts);
    }
  }

  lemma JoinLast(parts: seq<string>)
    requires |parts| > 0
    ensures Join(parts[|parts| - 1..], ", ") == parts[|parts| - 1]
  {
    assert parts[|parts| - 1..] == [parts[|parts| - 1]];
  }

  /** The last element is written without a separator after it. */
  lemma FoldJoinLast(parts: seq<string>)
    requires |parts| > 0
    ensures FoldJoin(parts, |parts|) == FoldJoin(parts, |parts| - 1) + parts[|parts| - 1]
  {
    var before := FoldJoin(parts, |parts| - 1);
    assert before + parts[|parts| - 1] + "" == before + parts[|parts| - 1];
  }

  /** A vector at the empty path is its elements' renderings joined by `", "`; `len()` is its length. */
  lemma VecRendering<T>(items: seq<T>, display: T -> string)
    ensures VecAt(items, [], display) == Ok(Join(Map(items, display), ", "))
    ensures VecAt(items, [Function("len", [])], display) == Ok(NatToString(|items|))
  {
    FoldJoinIsJoin(Map(items, display));
  }

  /**
   This walker and `build_info::format!` disagree on lists of two or more
   strings: the walker writes `"a, b"`, the format macro `"a and b"`.
   */
  lemma ListRenderingsDiffer(a: string, b: string)
    ensures VecAt([a, b], [], (s: string) => s) == Ok(a + ", " + b)
    ensures Values.NaturalJoin([a, b]) == a + " and " + b
  {
    VecRendering([a, b], (s: string) => s);
    assert Map([a, b], (s: string) => s) == [a, b];
    assert [a, b][1..] == [b];
    assert Values.NaturalJoinPrefix([a, b], 1) == a;
    assert Values.ListSeparator(1, 2) == " and ";
  }
}
