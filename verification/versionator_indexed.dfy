/**
 versionator's path renderer over `Index` steps (`.field`, `.len()`, `?`).
 It walks the versionator snapshot with the same leaf, option and vector
 rules as the build-info renderer of the same shape, but the records other
 than the git information have no rendering of their own, timestamps keep
 their fractional seconds, and a branch name is written after the hash.
 */
module VersionatorIndexed {
  import opened Wrappers
  import opened Text
  import opened VersionatorTypes
  import C = Common
  import I = IndexedStringValue
  import SV = VersionatorStringValue

  /**
   chrono's `%.f`: nothing for a whole second, otherwise a dot and the
   sub-second part in 3, 6 or 9 digits, whichever is the shortest exact one.
   */
  function Fraction(nanosecond: nat): string {
    var nano := nanosecond % C.NANOS_PER_SECOND;
    if nano == 0 then ""
    else if nano % 1_000_000 == 0 then "." + PadZeros(nano / 1_000_000, 3)
    else if nano % 1_000 == 0 then "." + PadZeros(nano / 1_000, 6)
    else "." + PadZeros(nano, 9)
  }

  /** `%Y-%m-%d %H:%M:%S%.fZ`. */
  function TimestampText(d: C.DateTime): string {
    C.DateString(d.year, d.month, d.day) + " " + C.TwoDigits(d.hour) + ":" + C.TwoDigits(d.minute) + ":"
    + C.TwoDigits(C.DisplayedSecond(d)) + Fraction(d.nanosecond) + "Z"
  }

  /** The record at the root of a path, as its panics name it. */
  const BUILD_INFO: string := "versionator::BuildInfo"

  function DateTimeAt(d: C.DateTime, path: seq<I.Index>): I.Walk {
    I.Leaf(TimestampText(d), "DateTime<Utc>", path)
  }

  function ChannelAt(c: C.CompilerChannel, path: seq<I.Index>): I.Walk {
    I.Leaf(C.CompilerChannelString(c), "versionator::CompilerChannel", path)
  }

  /** A version renders as SemVer text; its unknown steps name the compiler record, as written. */
  function VersionAt(v: C.Version, path: seq<I.Index>): (r: I.Walk)
    ensures r.Err? && r.error.NotValid? ==> r.error.typeName != BUILD_INFO
  {
    if |path| == 0 then Ok(C.VersionString(v))
    else if path[0] == I.Field("major") then I.U64At(v.major, path[1..])
    else if path[0] == I.Field("minor") then I.U64At(v.minor, path[1..])
    else if path[0] == I.Field("patch") then I.U64At(v.patch, path[1..])
    else if path[0] == I.Field("pre") then I.VecAt(v.pre, path[1..], C.IdentifierString)
    else if path[0] == I.Field("build") then I.VecAt(v.build, path[1..], C.IdentifierString)
    else Err(I.NotValid(path[0], "versionator::CompilerVersion"))
  }

  function CrateInfoAt(c: CrateInfo, path: seq<I.Index>): (r: I.Walk)
    ensures r.Err? && r.error.NotValid? ==> r.error.typeName != BUILD_INFO
  {
    if |path| == 0 then Err(I.Unimplemented)
    else if path[0] == I.Field("name") then I.StringAt(c.name, path[1..])
    else if path[0] == I.Field("version") then VersionAt(c.version, path[1..])
    else if path[0] == I.Field("authors") then I.VecAt(c.authors, path[1..], (s: string) => s)
    else Err(I.NotValid(path[0], "versionator::CrateInfo"))
  }

  function CompilerAt(c: CompilerVersion, path: seq<I.Index>): (r: I.Walk)
    ensures r.Err? && r.error.NotValid? ==> r.error.typeName != BUILD_INFO
  {
    if |path| == 0 then Err(I.Unimplemented)
    else if path[0] == I.Field("version") then VersionAt(c.version, path[1..])
    else if path[0] == I.Field("commit_hash") then I.OptionAt(c.commit_hash, path[1..], I.StringAt)
    else if path[0] == I.Field("commit_date") then I.OptionAt(c.commit_date, path[1..], I.StringAt)
    else if path[0] == I.Field("channel") then ChannelAt(c.channel, path[1..])
    else if path[0] == I.Field("host_triple") then I.StringAt(c.host_triple, path[1..])
    else if path[0] == I.Field("target_triple") then I.StringAt(c.target_triple, path[1..])
    else Err(I.NotValid(path[0], "versionator::CompilerVersion"))
  }

  /** `<hash><+> (<name>)` with a branch name, `<hash><+>` without. */
  function GitText(g: GitInformation): string {
    var dirty := DirtyMarker(g.dirty);
    match g.name
    case Some(name) => g.commit_hash + dirty + " (" + name + ")"
    case None => g.commit_hash + dirty
  }

  function GitAt(g: GitInformation, path: seq<I.Index>): (r: I.Walk)
    ensures r.Err? && r.error.NotValid? ==> r.error.typeName != BUILD_INFO
  {
    if |path| == 0 then Ok(GitText(g))
    else if path[0] == I.Field("commit_hash") then I.StringAt(g.commit_hash, path[1..])
    else if path[0] == I.Field("dirty") then I.BoolAt(g.dirty, path[1..])
    else if path[0] == I.Field("name") then I.OptionAt(g.name, path[1..], I.StringAt)
    else Err(I.NotValid(path[0], "versionator::GitInformation"))
  }

  function VersionControlAt(vc: VersionControl, path: seq<I.Index>): (r: I.Walk)
    ensures r.Err? && r.error.NotValid? ==> r.error.typeName != BUILD_INFO
  {
    match vc
    case Git(g) => GitAt(g, path)
  }

  function BuildInfoAt(b: BuildInfo, path: seq<I.Index>): I.Walk {
    if |path| == 0 then Err(I.Unimplemented)
    else if path[0] == I.Field("timestamp") then DateTimeAt(b.timestamp, path[1..])
    else if path[0] == I.Field("crate_info") then CrateInfoAt(b.crate_info, path[1..])
    else if path[0] == I.Field("compiler") then CompilerAt(b.compiler, path[1..])
    else if path[0] == I.Field("version_control") then I.OptionAt(b.version_control, path[1..], VersionControlAt)
    else Err(I.NotValid(path[0], BUILD_INFO))
  }

  // ---------------------------------------------------------------------------
  // Laws

  lemma PadZerosWidth(n: nat, width: nat)
    requires 1 <= width && n < Pow10(width)
    ensures |PadZeros(n, width)| == width
  {
    NatToStringLength(n, width);
  }

  /**
   The fraction is exact: it is empty for a whole second, and otherwise its
   digits, scaled to nanoseconds, give back the sub-second part.
   */
  lemma FractionExact(nanosecond: nat)
    ensures var f := Fraction(nanosecond);
      (f == "" <==> nanosecond % C.NANOS_PER_SECOND == 0)
      && (f != "" ==> (|f| == 4 || |f| == 7 || |f| == 10) && f[0] == '.' && AllDigits(f[1..])
                      && DecimalValue(f[1..]) * Pow10(10 - |f|) == nanosecond % C.NANOS_PER_SECOND)
  {
    var nano := nanosecond % C.NANOS_PER_SECOND;
    var f := Fraction(nanosecond);
    assert Pow10(3) == 1000 && Pow10(6) == 1_000_000 && Pow10(9) == C.NANOS_PER_SECOND by {
      assert Pow10(1) == 10 && Pow10(2) == 100 && Pow10(4) == 10_000 && Pow10(5) == 100_000;
      assert Pow10(7) == 10_000_000 && Pow10(8) == 100_000_000;
    }
    if nano != 0 {
      var digits := f[1..];
      if nano % 1_000_000 == 0 {
        PadZerosWidth(nano / 1_000_000, 3);
        assert digits == PadZeros(nano / 1_000_000, 3);
      } else if nano % 1_000 == 0 {
        PadZerosWidth(nano / 1_000, 6);
        assert digits == PadZeros(nano / 1_000, 6);
      } else {
        PadZerosWidth(nano, 9);
        assert digits == PadZeros(nano, 9);
        assert Pow10(0) == 1;
      }
    }
  }

  /** Only git information (and what it is made of) renders as a whole. */
  lemma EmptyPaths(b: BuildInfo, g: GitInformation, v: C.Version, d: C.DateTime)
    ensures BuildInfoAt(b, []) == Err(I.Unimplemented)
    ensures CrateInfoAt(b.crate_info, []) == Err(I.Unimplemented)
    ensures CompilerAt(b.compiler, []) == Err(I.Unimplemented)
    ensures GitAt(g, []) == Ok(GitText(g))
    ensures VersionAt(v, []) == Ok(C.VersionString(v))
    ensures DateTimeAt(d, []) == Ok(TimestampText(d))
  {
  }

  /** A step a record does not list panics, naming the step and the record. */
  lemma UnlistedStepsPanic(b: BuildInfo, step: I.Index, rest: seq<I.Index>)
    ensures BuildInfoAt(b, [step] + rest) == Err(I.NotValid(step, "versionator::BuildInfo"))
      <==> step !in {I.Field("timestamp"), I.Field("crate_info"), I.Field("compiler"), I.Field("version_control")}
  {
    assert ([step] + rest)[1..] == rest;
  }

  /** Git information lists its hash, dirty flag and branch name, and nothing else. */
  lemma UnlistedGitStepsPanic(g: GitInformation, step: I.Index, rest: seq<I.Index>)
    ensures GitAt(g, [step] + rest) == Err(I.NotValid(step, "versionator::GitInformation"))
      <==> step !in {I.Field("commit_hash"), I.Field("dirty"), I.Field("name")}
  {
    assert ([step] + rest)[1..] == rest;
  }

  /** The crate and compiler records panic on a step they do not list. */
  lemma UnlistedRecordStepsPanic(b: BuildInfo, step: I.Index, rest: seq<I.Index>)
    ensures step !in {I.Field("name"), I.Field("version"), I.Field("authors")}
      ==> CrateInfoAt(b.crate_info, [step] + rest) == Err(I.NotValid(step, "versionator::CrateInfo"))
    ensures step !in {I.Field("version"), I.Field("commit_hash"), I.Field("commit_date"), I.Field("channel"),
                      I.Field("host_triple"), I.Field("target_triple")}
      ==> CompilerAt(b.compiler, [step] + rest) == Err(I.NotValid(step, "versionator::CompilerVersion"))
  {
    assert ([step] + rest)[1..] == rest;
  }

  /** Paths reach the fields they name. */
  lemma PathsReachFields(b: BuildInfo)
    ensures BuildInfoAt(b, [I.Field("timestamp")]) == Ok(TimestampText(b.timestamp))
    ensures BuildInfoAt(b, [I.Field("crate_info"), I.Field("name")]) == Ok(b.crate_info.name)
  {
    assert [I.Field("crate_info"), I.Field("name")][1..] == [I.Field("name")];
  }

  /** `?` on absent version control panics. */
  lemma AbsentVersionControl(b: BuildInfo)
    requires b.version_control.None?
    ensures BuildInfoAt(b, [I.Field("version_control"), I.Unwrap]) == Err(I.UnwrapFailed)
  {
    var path := [I.Field("version_control"), I.Unwrap];
    assert path[1..] == [I.Unwrap];
    assert BuildInfoAt(b, path) == I.OptionAt(b.version_control, [I.Unwrap], VersionControlAt);
  }

  /** The author list joins with `", "` and counts with `len()`. */
  lemma AuthorsRendering(b: BuildInfo)
    ensures BuildInfoAt(b, [I.Field("crate_info"), I.Field("authors")]) == Ok(Join(b.crate_info.authors, ", "))
    ensures BuildInfoAt(b, [I.Field("crate_info"), I.Field("authors"), I.Function("len", [])])
      == Ok(NatToString(|b.crate_info.authors|))
  {
    var authors := b.crate_info.authors;
    I.VecRendering(authors, (s: string) => s);
    assert I.Map(authors, (s: string) => s) == authors;
    assert [I.Field("crate_info"), I.Field("authors")][1..] == [I.Field("authors")];
    assert [I.Field("crate_info"), I.Field("authors"), I.Function("len", [])][1..]
      == [I.Field("authors"), I.Function("len", [])];
    assert [I.Field("authors"), I.Function("len", [])][1..] == [I.Function("len", [])];
  }

  /** For a whole second, the timestamp reads as the `%Y-%m-%d %H:%M:%SZ` form of the other renderers. */
  lemma WholeSecondTimestamp(d: C.DateTime)
    requires d.nanosecond % C.NANOS_PER_SECOND == 0
    ensures TimestampText(d) == C.TimestampString(d)
  {
  }

  /**
   The two versionator renderers agree on unnamed git information and
   disagree on named git information: the string renderer writes the name
   first and marks the hash dirty twice, this one writes the hash first and
   marks it once.
   */
  lemma GitRenderingsDiffer(g: GitInformation)
    ensures g.name.None? ==> GitText(g) == SV.GitText(g)
    ensures g.name.Some? && g.dirty ==> GitText(g) != SV.GitText(g)
  {
    if g.name.Some? && g.dirty {
      var name, h, d := g.name.value, g.commit_hash, DirtyMarker(g.dirty);
      assert Count(d, '+') == 1;
      assert Count(" (", '+') == 0 && Count(")", '+') == 0;
      CountAppend(h, d, '+');
      CountAppend(h + d, " (", '+');
      CountAppend(h + d + " (", name, '+');
      CountAppend(h + d + " (" + name, ")", '+');
      SV.GitTextMarkers(g);
    }
  }
}
