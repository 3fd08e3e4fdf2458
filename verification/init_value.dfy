/**
 The serialiser that writes a build snapshot as Rust constructor code: every
 record becomes a struct literal under the defining crate's path, with one
 `name: value,` per field in declaration order, and every leaf a literal or
 a call that rebuilds it. The defining crate's name and chrono's nanosecond
 count of an instant are parameters.
 */
module InitValue {
  import opened Wrappers
  import opened Tokens
  import opened InitShapes
  import C = Common

  /** What the generator takes from its surroundings. */
  datatype Context = Context(crate: string, nanos: C.DateTime -> int)

  function LevelVariant(o: C.OptimizationLevel): string {
    match o
    case O0 => "O0"
    case O1 => "O1"
    case O2 => "O2"
    case O3 => "O3"
    case Os => "Os"
    case Oz => "Oz"
  }

  /** `crate::OptimizationLevel::<variant>`. */
  function LevelTokens(ctx: Context, o: C.OptimizationLevel): (ts: seq<Token>)
    ensures |ts| >= 1 && NoComma(ts)
  {
    PathTokens([ctx.crate, "OptimizationLevel", LevelVariant(o)])
  }

  /** `crate::CompilerChannel::<variant>`; the variant name is the channel's display. */
  function ChannelTokens(ctx: Context, c: C.CompilerChannel): (ts: seq<Token>)
    ensures |ts| >= 1 && NoComma(ts)
  {
    PathTokens([ctx.crate, "CompilerChannel", C.CompilerChannelString(c)])
  }

  /** `crate::semver::Version::parse("<version>").unwrap()`. */
  function VersionTokens(ctx: Context, v: C.Version): (ts: seq<Token>)
    ensures |ts| >= 1 && NoComma(ts)
  {
    UnwrapCall([ctx.crate, "semver", "Version", "parse"], StrTokens(C.VersionString(v)))
  }

  /** `crate::chrono::TimeZone::timestamp_nanos(&crate::chrono::Utc, <nanos>i64)`. */
  function DateTimeTokens(ctx: Context, d: C.DateTime): (ts: seq<Token>)
    ensures |ts| >= 1 && NoComma(ts)
  {
    var args := [P('&')] + PathTokens([ctx.crate, "chrono", "Utc"]) + [P(',')] + IntTokens(ctx.nanos(d), "i64");
    var ts := PathTokens([ctx.crate, "chrono", "TimeZone", "timestamp_nanos"]) + [G(Parenthesis, args)];
    assert NoComma(ts) by {
      assert forall i :: 0 <= i < |ts| - 1 ==> ts[i] == PathTokens([ctx.crate, "chrono", "TimeZone", "timestamp_nanos"])[i];
    }
    ts
  }

  /** `crate::chrono::NaiveDate::from_ymd_opt(<y>i32, <m>u32, <d>u32).unwrap()`. */
  function NaiveDateTokens(ctx: Context, d: C.NaiveDate): (ts: seq<Token>)
    ensures |ts| >= 1 && NoComma(ts)
  {
    UnwrapCall([ctx.crate, "chrono", "NaiveDate", "from_ymd_opt"], DateArgs(d))
  }

  function DateArgs(d: C.NaiveDate): seq<Token> {
    CommaSeparated([IntTokens(d.year, "i32"), IntTokens(d.month, "u32"), IntTokens(d.day, "u32")])
  }

  function OptionalStringTokens(o: Option<string>): (ts: seq<Token>)
    ensures |ts| >= 1 && NoComma(ts)
  {
    OptionTokens(if o.Some? then Some(StringTokens(o.value)) else None)
  }

  function StringsTokens(ss: seq<string>): (ts: seq<Token>)
    ensures |ts| >= 1 && NoComma(ts)
  {
    VecTokens(StringElements(ss))
  }

  const CRATE_INFO_FIELDS: seq<string> :=
    ["name", "version", "authors", "license", "enabled_features", "available_features", "dependencies"]

  function CrateInfoTokens(ctx: Context, c: C.CrateInfo): (ts: seq<Token>)
    ensures |ts| >= 1 && NoComma(ts)
    decreases c
  {
    StructTokens([ctx.crate, "CrateInfo"], CrateInfoFields(ctx, c))
  }

  function CrateInfoFields(ctx: Context, c: C.CrateInfo): (fields: seq<(string, seq<Token>)>)
    ensures forall i :: 0 <= i < |fields| ==> NoComma(fields[i].1)
    decreases c, 0
  {
    var deps := c.dependencies;
    [("name", StringTokens(c.name)),
     ("version", VersionTokens(ctx, c.version)),
     ("authors", StringsTokens(c.authors)),
     ("license", OptionalStringTokens(c.license)),
     ("enabled_features", StringsTokens(c.enabled_features)),
     ("available_features", StringsTokens(c.available_features)),
     ("dependencies", VecTokens(seq(|deps|, i requires 0 <= i < |deps| => CrateInfoTokens(ctx, deps[i]))))]
  }

  const COMPILER_INFO_FIELDS: seq<string> := ["version", "commit_id", "commit_date", "channel", "host_triple", "target_triple"]

  function CompilerInfoFields(ctx: Context, ci: C.CompilerInfo): (fields: seq<(string, seq<Token>)>)
    ensures forall i :: 0 <= i < |fields| ==> NoComma(fields[i].1)
  {
    [("version", VersionTokens(ctx, ci.version)),
     ("commit_id", OptionalStringTokens(ci.commit_id)),
     ("commit_date", OptionTokens(if ci.commit_date.Some? then Some(NaiveDateTokens(ctx, ci.commit_date.value)) else None)),
     ("channel", ChannelTokens(ctx, ci.channel)),
     ("host_triple", StringTokens(ci.host_triple)),
     ("target_triple", StringTokens(ci.target_triple))]
  }

  function CompilerInfoTokens(ctx: Context, ci: C.CompilerInfo): (ts: seq<Token>)
    ensures |ts| >= 1 && NoComma(ts)
  {
    StructTokens([ctx.crate, "CompilerInfo"], CompilerInfoFields(ctx, ci))
  }

  const GIT_INFO_FIELDS: seq<string> := ["commit_id", "commit_short_id", "commit_timestamp", "dirty", "branch", "tags"]

  function GitInfoFields(ctx: Context, g: C.GitInfo): (fields: seq<(string, seq<Token>)>)
    ensures forall i :: 0 <= i < |fields| ==> NoComma(fields[i].1)
  {
    [("commit_id", StringTokens(g.commit_id)),
     ("commit_short_id", StringTokens(g.commit_short_id)),
     ("commit_timestamp", DateTimeTokens(ctx, g.commit_timestamp)),
     ("dirty", BoolTokens(g.dirty)),
     ("branch", OptionalStringTokens(g.branch)),
     ("tags", StringsTokens(g.tags))]
  }

  function GitInfoTokens(ctx: Context, g: C.GitInfo): (ts: seq<Token>)
    ensures |ts| >= 1 && NoComma(ts)
  {
    StructTokens([ctx.crate, "GitInfo"], GitInfoFields(ctx, g))
  }

  /** `crate::VersionControl::Git(<git info>)`. */
  function VersionControlTokens(ctx: Context, vc: C.VersionControl): (ts: seq<Token>)
    ensures |ts| >= 1 && NoComma(ts)
  {
    var ts := PathTokens([ctx.crate, "VersionControl", "Git"]) + [G(Parenthesis, GitInfoTokens(ctx, vc.info))];
    assert NoComma(ts) by {
      assert forall i :: 0 <= i < |ts| - 1 ==> ts[i] == PathTokens([ctx.crate, "VersionControl", "Git"])[i];
    }
    ts
  }

  const BUILD_INFO_FIELDS: seq<string> :=
    ["timestamp", "profile", "optimization_level", "crate_info", "compiler", "version_control"]

  function BuildInfoFields(ctx: Context, b: C.BuildInfo): (fields: seq<(string, seq<Token>)>)
    ensures forall i :: 0 <= i < |fields| ==> NoComma(fields[i].1)
  {
    var vc := b.version_control;
    [("timestamp", DateTimeTokens(ctx, b.timestamp)),
     ("profile", StringTokens(b.profile)),
     ("optimization_level", LevelTokens(ctx, b.optimization_level)),
     ("crate_info", CrateInfoTokens(ctx, b.crate_info)),
     ("compiler", CompilerInfoTokens(ctx, b.compiler)),
     ("version_control", OptionTokens(if vc.Some? then Some(VersionControlTokens(ctx, vc.value)) else None))]
  }

  /** The constructor code of a whole snapshot. */
  function BuildInfoTokens(ctx: Context, b: C.BuildInfo): (ts: seq<Token>)
    ensures |ts| >= 1 && NoComma(ts)
  {
    StructTokens([ctx.crate, "BuildInfo"], BuildInfoFields(ctx, b))
  }

  // ---------------------------------------------------------------------------
  // Readers

  function LevelNamed(name: string): Option<C.OptimizationLevel> {
    if name == "O0" then Some(C.O0) else if name == "O1" then Some(C.O1)
    else if name == "O2" then Some(C.O2) else if name == "O3" then Some(C.O3)
    else if name == "Os" then Some(C.Os) else if name == "Oz" then Some(C.Oz)
    else None
  }

  function ChannelNamed(name: string): Option<C.CompilerChannel> {
    if name == "Dev" then Some(C.Dev) else if name == "Nightly" then Some(C.Nightly)
    else if name == "Beta" then Some(C.Beta) else if name == "Stable" then Some(C.Stable)
    else None
  }

  function ReadLevel(ts: seq<Token>, crate: string): Option<C.OptimizationLevel> {
    var name :- ReadVariant(ts, [crate, "OptimizationLevel"]);
    LevelNamed(name)
  }

  function ReadChannel(ts: seq<Token>, crate: string): Option<C.CompilerChannel> {
    var name :- ReadVariant(ts, [crate, "CompilerChannel"]);
    ChannelNamed(name)
  }

  /** The version text handed to `Version::parse`. */
  function ReadVersionText(ts: seq<Token>, crate: string): Option<string> {
    var args :- ReadUnwrapCall(ts, [crate, "semver", "Version", "parse"]);
    if |args| == 1 && args[0].Lit? && args[0].lit.StrLit? then Some(args[0].lit.text) else None
  }

  /** The nanosecond count handed to `timestamp_nanos`. */
  function ReadNanos(ts: seq<Token>, crate: string): Option<int> {
    var path := PathTokens([crate, "chrono", "TimeZone", "timestamp_nanos"]);
    var n := |path|;
    if |ts| != n + 1 || ts[..n] != path || !ts[n].Group? || ts[n].delimiter != Parenthesis then None
    else
      var args := ts[n].stream;
      var utc := PathTokens([crate, "chrono", "Utc"]);
      var m := |utc|;
      if |args| != m + 3 || args[..m + 1] != [P('&')] + utc || args[m + 1] != P(',') then None
      else ReadInt(args[m + 2..], "i64")
  }

  function ReadDate(ts: seq<Token>, crate: string): Option<(int, int, int)> {
    var args :- ReadUnwrapCall(ts, [crate, "chrono", "NaiveDate", "from_ymd_opt"]);
    var parts := SplitAtCommas(args);
    if |parts| != 3 then None
    else
      var y :- ReadInt(parts[0], "i32");
      var m :- ReadInt(parts[1], "u32");
      var d :- ReadInt(parts[2], "u32");
      Some((y, m, d))
  }

  /** A `vec![...]` of `"..".to_string()` elements. */
  function ReadStrings(ts: seq<Token>): Option<seq<string>> {
    var elems :- ReadVec(ts);
    ReadEach(elems)
  }

  function ReadEach(elems: seq<seq<Token>>): Option<seq<string>> {
    if |elems| == 0 then Some([])
    else
      var s :- ReadString(elems[0]);
      var rest :- ReadEach(elems[1..]);
      Some([s] + rest)
  }

  function ReadOptionalString(ts: seq<Token>): Option<Option<string>> {
    var o :- ReadOption(ts);
    match o
    case None => Some(None)
    case Some(inner) =>
      var s :- ReadString(inner);
      Some(Some(s))
  }

  // ---------------------------------------------------------------------------
  // Laws

  lemma LevelRoundTrip(ctx: Context, o: C.OptimizationLevel)
    ensures ReadLevel(LevelTokens(ctx, o), ctx.crate) == Some(o)
  {
    VariantRoundTrip([ctx.crate, "OptimizationLevel"], LevelVariant(o));
    assert [ctx.crate, "OptimizationLevel"] + [LevelVariant(o)] == [ctx.crate, "OptimizationLevel", LevelVariant(o)];
  }

  lemma ChannelRoundTrip(ctx: Context, c: C.CompilerChannel)
    ensures ReadChannel(ChannelTokens(ctx, c), ctx.crate) == Some(c)
  {
    VariantRoundTrip([ctx.crate, "CompilerChannel"], C.CompilerChannelString(c));
    assert [ctx.crate, "CompilerChannel"] + [C.CompilerChannelString(c)]
      == [ctx.crate, "CompilerChannel", C.CompilerChannelString(c)];
  }

  lemma VersionTextRoundTrip(ctx: Context, v: C.Version)
    ensures ReadVersionText(VersionTokens(ctx, v), ctx.crate) == Some(C.VersionString(v))
  {
    UnwrapCallRoundTrip([ctx.crate, "semver", "Version", "parse"], StrTokens(C.VersionString(v)));
  }

  lemma NanosRoundTrip(ctx: Context, d: C.DateTime)
    ensures ReadNanos(DateTimeTokens(ctx, d), ctx.crate) == Some(ctx.nanos(d))
  {
    var path := PathTokens([ctx.crate, "chrono", "TimeZone", "timestamp_nanos"]);
    var utc := PathTokens([ctx.crate, "chrono", "Utc"]);
    var args := [P('&')] + utc + [P(',')] + IntTokens(ctx.nanos(d), "i64");
    var ts := DateTimeTokens(ctx, d);
    assert ts == path + [G(Parenthesis, args)];
    assert ts[..|path|] == path;
    assert args[..|utc| + 1] == [P('&')] + utc;
    assert args[|utc| + 2..] == IntTokens(ctx.nanos(d), "i64");
  }

  lemma DateRoundTrip(ctx: Context, date: C.NaiveDate)
    ensures ReadDate(NaiveDateTokens(ctx, date), ctx.crate) == Some((date.year, date.month as int, date.day as int))
  {
    var parts := [IntTokens(date.year, "i32"), IntTokens(date.month, "u32"), IntTokens(date.day, "u32")];
    var args := DateArgs(date);
    UnwrapCallRoundTrip([ctx.crate, "chrono", "NaiveDate", "from_ymd_opt"], args);
    SplitCommaSeparated(parts);
    assert SplitAtCommas(args) == parts;
    LiteralRoundTrips(false, date.year, "i32");
    LiteralRoundTrips(false, date.month, "u32");
    LiteralRoundTrips(false, date.day, "u32");
  }

  lemma OptionalStringRoundTrip(s: Option<string>)
    ensures ReadOptionalString(OptionalStringTokens(s)) == Some(s)
  {
    if s.Some? {
      OptionRoundTrip(Some(StringTokens(s.value)));
      StringRoundTrip(s.value);
    }
  }

  function StringElements(ss: seq<string>): (elems: seq<seq<Token>>)
    ensures |elems| == |ss|
  {
    seq(|ss|, i requires 0 <= i < |ss| => StringTokens(ss[i]))
  }

  lemma {:induction false} EachRoundTrip(ss: seq<string>)
    ensures ReadEach(StringElements(ss)) == Some(ss)
  {
    if |ss| > 0 {
      var elems := StringElements(ss);
      StringRoundTrip(ss[0]);
      assert elems[1..] == StringElements(ss[1..]);
      EachRoundTrip(ss[1..]);
      assert ss == [ss[0]] + ss[1..];
    }
  }

  /** A list of strings reads back element by element. */
  lemma StringsRoundTrip(ss: seq<string>)
    ensures ReadStrings(StringsTokens(ss)) == Some(ss)
  {
    var elems := StringElements(ss);
    assert StringsTokens(ss) == VecTokens(elems);
    VecRoundTrip(elems);
    EachRoundTrip(ss);
  }

  /**
   A crate record is written as a `CrateInfo` struct literal with its seven
   fields in declaration order, each of which reads back as the field's value;
   each dependency is the dependency's own struct literal.
   */
  lemma CrateInfoRoundTrip(ctx: Context, c: C.CrateInfo)
    ensures var fields := ReadStruct(CrateInfoTokens(ctx, c), [ctx.crate, "CrateInfo"]);
      fields.Some? && Names(fields.value) == CRATE_INFO_FIELDS
      && ReadString(fields.value[0].1) == Some(c.name)
      && ReadVersionText(fields.value[1].1, ctx.crate) == Some(C.VersionString(c.version))
      && ReadStrings(fields.value[2].1) == Some(c.authors)
      && ReadOptionalString(fields.value[3].1) == Some(c.license)
      && ReadStrings(fields.value[4].1) == Some(c.enabled_features)
      && ReadStrings(fields.value[5].1) == Some(c.available_features)
      && ReadVec(fields.value[6].1).Some? && |ReadVec(fields.value[6].1).value| == |c.dependencies|
      && forall i :: 0 <= i < |c.dependencies| ==>
           ReadVec(fields.value[6].1).value[i] == CrateInfoTokens(ctx, c.dependencies[i])
  {
    var fields := CrateInfoFields(ctx, c);
    StructRoundTrip([ctx.crate, "CrateInfo"], fields);
    CrateInfoNames(ctx, c);
    assert ReadStruct(CrateInfoTokens(ctx, c), [ctx.crate, "CrateInfo"]) == Some(fields);
    StringRoundTrip(c.name);
    VersionTextRoundTrip(ctx, c.version);
    StringsRoundTrip(c.authors);
    OptionalStringRoundTrip(c.license);
    StringsRoundTrip(c.enabled_features);
    StringsRoundTrip(c.available_features);
    var deps := c.dependencies;
    var elems := seq(|deps|, i requires 0 <= i < |deps| => CrateInfoTokens(ctx, deps[i]));
    assert fields[6].1 == VecTokens(elems);
    VecRoundTrip(elems);
  }

  /** A compiler record is written with its six fields in order, each reading back as the field's value. */
  lemma CompilerInfoRoundTrip(ctx: Context, ci: C.CompilerInfo)
    ensures var fields := ReadStruct(CompilerInfoTokens(ctx, ci), [ctx.crate, "CompilerInfo"]);
      fields.Some? && Names(fields.value) == COMPILER_INFO_FIELDS
      && ReadVersionText(fields.value[0].1, ctx.crate) == Some(C.VersionString(ci.version))
      && ReadOptionalString(fields.value[1].1) == Some(ci.commit_id)
      && ReadOption(fields.value[2].1).Some?
      && (ci.commit_date.None? <==> ReadOption(fields.value[2].1).value.None?)
      && (ci.commit_date.Some? ==>
            var d := ci.commit_date.value;
            ReadDate(ReadOption(fields.value[2].1).value.value, ctx.crate) == Some((d.year, d.month as int, d.day as int)))
      && ReadChannel(fields.value[3].1, ctx.crate) == Some(ci.channel)
      && ReadString(fields.value[4].1) == Some(ci.host_triple)
      && ReadString(fields.value[5].1) == Some(ci.target_triple)
  {
    var fields := CompilerInfoFields(ctx, ci);
    StructRoundTrip([ctx.crate, "CompilerInfo"], fields);
    CompilerInfoNames(ctx, ci);
    VersionTextRoundTrip(ctx, ci.version);
    OptionalStringRoundTrip(ci.commit_id);
    if ci.commit_date.Some? {
      OptionRoundTrip(Some(NaiveDateTokens(ctx, ci.commit_date.value)));
      DateRoundTrip(ctx, ci.commit_date.value);
    } else {
      OptionRoundTrip(None);
    }
    ChannelRoundTrip(ctx, ci.channel);
    StringRoundTrip(ci.host_triple);
    StringRoundTrip(ci.target_triple);
  }

  /** A git record is written with its six fields in order, each reading back as the field's value. */
  lemma GitInfoRoundTrip(ctx: Context, g: C.GitInfo)
    ensures var fields := ReadStruct(GitInfoTokens(ctx, g), [ctx.crate, "GitInfo"]);
      fields.Some? && Names(fields.value) == GIT_INFO_FIELDS
      && ReadString(fields.value[0].1) == Some(g.commit_id)
      && ReadString(fields.value[1].1) == Some(g.commit_short_id)
      && ReadNanos(fields.value[2].1, ctx.crate) == Some(ctx.nanos(g.commit_timestamp))
      && ReadBool(fields.value[3].1) == Some(g.dirty)
      && ReadOptionalString(fields.value[4].1) == Some(g.branch)
      && ReadStrings(fields.value[5].1) == Some(g.tags)
  {
    var fields := GitInfoFields(ctx, g);
    StructRoundTrip([ctx.crate, "GitInfo"], fields);
    GitInfoNames(ctx, g);
    assert ReadStruct(GitInfoTokens(ctx, g), [ctx.crate, "GitInfo"]) == Some(fields);
    StringRoundTrip(g.commit_id);
    StringRoundTrip(g.commit_short_id);
    NanosRoundTrip(ctx, g.commit_timestamp);
    LiteralRoundTrips(g.dirty, 0, "");
    OptionalStringRoundTrip(g.branch);
    StringsRoundTrip(g.tags);
  }

  /**
   A snapshot is written as a `BuildInfo` struct literal with its six fields
   in declaration order: the leaves read back as their values, the nested
   records are their own struct literals, and version control is `Some` of
   `VersionControl::Git(..)` exactly when it is present.
   */
  lemma BuildInfoRoundTrip(ctx: Context, b: C.BuildInfo)
    ensures var fields := ReadStruct(BuildInfoTokens(ctx, b), [ctx.crate, "BuildInfo"]);
      fields.Some? && Names(fields.value) == BUILD_INFO_FIELDS
      && ReadNanos(fields.value[0].1, ctx.crate) == Some(ctx.nanos(b.timestamp))
      && ReadString(fields.value[1].1) == Some(b.profile)
      && ReadLevel(fields.value[2].1, ctx.crate) == Some(b.optimization_level)
      && fields.value[3].1 == CrateInfoTokens(ctx, b.crate_info)
      && fields.value[4].1 == CompilerInfoTokens(ctx, b.compiler)
      && ReadOption(fields.value[5].1).Some?
      && (b.version_control.None? <==> ReadOption(fields.value[5].1).value.None?)
      && (b.version_control.Some? ==>
            ReadOption(fields.value[5].1).value.value == VersionControlTokens(ctx, b.version_control.value))
  {
    var fields := BuildInfoFields(ctx, b);
    StructRoundTrip([ctx.crate, "BuildInfo"], fields);
    BuildInfoNames(ctx, b);
    assert ReadStruct(BuildInfoTokens(ctx, b), [ctx.crate, "BuildInfo"]) == Some(fields);
    NanosRoundTrip(ctx, b.timestamp);
    StringRoundTrip(b.profile);
    LevelRoundTrip(ctx, b.optimization_level);
    var vc := b.version_control;
    OptionRoundTrip(if vc.Some? then Some(VersionControlTokens(ctx, vc.value)) else None);
  }

  lemma GitInfoNames(ctx: Context, g: C.GitInfo)
    ensures Names(GitInfoFields(ctx, g)) == GIT_INFO_FIELDS
  {
    var names := Names(GitInfoFields(ctx, g));
    assert |names| == |GIT_INFO_FIELDS|;
    assert forall i :: 0 <= i < |names| ==> names[i] == GIT_INFO_FIELDS[i];
  }

  lemma BuildInfoNames(ctx: Context, b: C.BuildInfo)
    ensures Names(BuildInfoFields(ctx, b)) == BUILD_INFO_FIELDS
  {
    var names := Names(BuildInfoFields(ctx, b));
    assert |names| == |BUILD_INFO_FIELDS|;
    assert forall i :: 0 <= i < |names| ==> names[i] == BUILD_INFO_FIELDS[i];
  }

  lemma CompilerInfoNames(ctx: Context, ci: C.CompilerInfo)
    ensures Names(CompilerInfoFields(ctx, ci)) == COMPILER_INFO_FIELDS
  {
    var names := Names(CompilerInfoFields(ctx, ci));
    assert |names| == |COMPILER_INFO_FIELDS|;
    assert forall i :: 0 <= i < |names| ==> names[i] == COMPILER_INFO_FIELDS[i];
  }

  lemma CrateInfoNames(ctx: Context, c: C.CrateInfo)
    ensures Names(CrateInfoFields(ctx, c)) == CRATE_INFO_FIELDS
  {
    var names := Names(CrateInfoFields(ctx, c));
    assert |names| == |CRATE_INFO_FIELDS|;
    assert forall i :: 0 <= i < |names| ==> names[i] == CRATE_INFO_FIELDS[i];
  }
}
