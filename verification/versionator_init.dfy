/**
 versionator's serialiser of its snapshot as Rust constructor code, and the
 `ToTokensExt` writers its common crate shares for options, strings and
 versions. The shapes are the build-info ones; the records are versionator's,
 the crate path is the ident under which `versionator` is a dependency, and
 timestamps are rebuilt by `nanos_to_utc`.
 */
module VersionatorInit {
  import opened Wrappers
  import opened Tokens
  import opened InitShapes
  import opened VersionatorTypes
  import C = Common
  import IV = InitValue

  type Context = IV.Context

  /** `crate::Version::parse("<version>").unwrap()`. */
  function VersionTokens(ctx: Context, v: C.Version): (ts: seq<Token>)
    ensures |ts| >= 1 && NoComma(ts)
  {
    UnwrapCall([ctx.crate, "Version", "parse"], StrTokens(C.VersionString(v)))
  }

  /** `crate::nanos_to_utc(<nanos>i64)`. */
  function DateTimeTokens(ctx: Context, d: C.DateTime): (ts: seq<Token>)
    ensures |ts| >= 1 && NoComma(ts)
  {
    var path := PathTokens([ctx.crate, "nanos_to_utc"]);
    var ts := path + [G(Parenthesis, IntTokens(ctx.nanos(d), "i64"))];
    assert forall i :: 0 <= i < |ts| - 1 ==> ts[i] == path[i];
    ts
  }

  const CRATE_INFO_FIELDS: seq<string> := ["name", "version"]

  /** Only the name and the version are written; the author list is not. */
  function CrateInfoFields(ctx: Context, c: CrateInfo): (fields: seq<(string, seq<Token>)>)
    ensures forall i :: 0 <= i < |fields| ==> NoComma(fields[i].1)
  {
    [("name", StringTokens(c.name)), ("version", VersionTokens(ctx, c.version))]
  }

  function CrateInfoTokens(ctx: Context, c: CrateInfo): (ts: seq<Token>)
    ensures |ts| >= 1 && NoComma(ts)
  {
    StructTokens([ctx.crate, "CrateInfo"], CrateInfoFields(ctx, c))
  }

  const COMPILER_FIELDS: seq<string> := ["version", "commit_hash", "commit_date", "channel", "host_triple", "target_triple"]

  function CompilerFields(ctx: Context, c: CompilerVersion): (fields: seq<(string, seq<Token>)>)
    ensures forall i :: 0 <= i < |fields| ==> NoComma(fields[i].1)
  {
    [("version", VersionTokens(ctx, c.version)),
     ("commit_hash", IV.OptionalStringTokens(c.commit_hash)),
     ("commit_date", IV.OptionalStringTokens(c.commit_date)),
     ("channel", IV.ChannelTokens(ctx, c.channel)),
     ("host_triple", StringTokens(c.host_triple)),
     ("target_triple", StringTokens(c.target_triple))]
  }

  function CompilerTokens(ctx: Context, c: CompilerVersion): (ts: seq<Token>)
    ensures |ts| >= 1 && NoComma(ts)
  {
    StructTokens([ctx.crate, "CompilerVersion"], CompilerFields(ctx, c))
  }

  const GIT_FIELDS: seq<string> := ["commit_hash", "dirty", "name"]

  function GitFields(g: GitInformation): (fields: seq<(string, seq<Token>)>)
    ensures forall i :: 0 <= i < |fields| ==> NoComma(fields[i].1)
  {
    [("commit_hash", StringTokens(g.commit_hash)),
     ("dirty", BoolTokens(g.dirty)),
     ("name", IV.OptionalStringTokens(g.name))]
  }

  function GitTokens(ctx: Context, g: GitInformation): (ts: seq<Token>)
    ensures |ts| >= 1 && NoComma(ts)
  {
    StructTokens([ctx.crate, "GitInformation"], GitFields(g))
  }

  /** `crate::VersionControl::Git(<git information>)`. */
  function VersionControlTokens(ctx: Context, vc: VersionControl): (ts: seq<Token>)
    ensures |ts| >= 1 && NoComma(ts)
  {
    var path := PathTokens([ctx.crate, "VersionControl", "Git"]);
    var ts := path + [G(Parenthesis, GitTokens(ctx, vc.info))];
    assert forall i :: 0 <= i < |ts| - 1 ==> ts[i] == path[i];
    ts
  }

  function OptionalVersionControlTokens(ctx: Context, o: Option<VersionControl>): (ts: seq<Token>)
    ensures |ts| >= 1 && NoComma(ts)
  {
    OptionTokens(if o.Some? then Some(VersionControlTokens(ctx, o.value)) else None)
  }

  const BUILD_INFO_FIELDS: seq<string> := ["timestamp", "crate_info", "compiler", "version_control"]

  function BuildInfoFields(ctx: Context, b: BuildInfo): (fields: seq<(string, seq<Token>)>)
    ensures forall i :: 0 <= i < |fields| ==> NoComma(fields[i].1)
  {
    [("timestamp", DateTimeTokens(ctx, b.timestamp)),
     ("crate_info", CrateInfoTokens(ctx, b.crate_info)),
     ("compiler", CompilerTokens(ctx, b.compiler)),
     ("version_control", OptionalVersionControlTokens(ctx, b.version_control))]
  }

  /** The constructor code of a whole snapshot. */
  function BuildInfoTokens(ctx: Context, b: BuildInfo): (ts: seq<Token>)
    ensures |ts| >= 1 && NoComma(ts)
  {
    StructTokens([ctx.crate, "BuildInfo"], BuildInfoFields(ctx, b))
  }

  // ---------------------------------------------------------------------------
  // Readers

  /** The arguments of a call `path(args)`. */
  function ReadCall(ts: seq<Token>, path: seq<string>): Option<seq<Token>>
    requires |path| >= 1
  {
    var n := |PathTokens(path)|;
    if |ts| == n + 1 && ts[..n] == PathTokens(path) && ts[n].Group? && ts[n].delimiter == Parenthesis
    then Some(ts[n].stream)
    else None
  }

  function ReadVersionText(ts: seq<Token>, crate: string): Option<string> {
    var args :- ReadUnwrapCall(ts, [crate, "Version", "parse"]);
    if |args| == 1 && args[0].Lit? && args[0].lit.StrLit? then Some(args[0].lit.text) else None
  }

  function ReadNanos(ts: seq<Token>, crate: string): Option<int> {
    var args :- ReadCall(ts, [crate, "nanos_to_utc"]);
    ReadInt(args, "i64")
  }

  // ---------------------------------------------------------------------------
  // Laws

  /** A version is rebuilt by parsing its own SemVer text. */
  lemma VersionRoundTrip(ctx: Context, v: C.Version)
    ensures ReadVersionText(VersionTokens(ctx, v), ctx.crate) == Some(C.VersionString(v))
  {
    UnwrapCallRoundTrip([ctx.crate, "Version", "parse"], StrTokens(C.VersionString(v)));
  }

  /** A timestamp is rebuilt from its nanosecond count. */
  lemma NanosRoundTrip(ctx: Context, d: C.DateTime)
    ensures ReadNanos(DateTimeTokens(ctx, d), ctx.crate) == Some(ctx.nanos(d))
  {
    var path := PathTokens([ctx.crate, "nanos_to_utc"]);
    var ts := DateTimeTokens(ctx, d);
    assert ts == path + [G(Parenthesis, IntTokens(ctx.nanos(d), "i64"))];
    assert ts[..|path|] == path;
  }

  /** The crate record is a `CrateInfo` literal with exactly a name and a version, in that order. */
  lemma CrateInfoRoundTrip(ctx: Context, c: CrateInfo)
    ensures var fields := ReadStruct(CrateInfoTokens(ctx, c), [ctx.crate, "CrateInfo"]);
      fields.Some? && Names(fields.value) == CRATE_INFO_FIELDS
      && ReadString(fields.value[0].1) == Some(c.name)
      && ReadVersionText(fields.value[1].1, ctx.crate) == Some(C.VersionString(c.version))
  {
    var fields := CrateInfoFields(ctx, c);
    StructRoundTrip([ctx.crate, "CrateInfo"], fields);
    CrateInfoNames(ctx, c);
    StringRoundTrip(c.name);
    VersionRoundTrip(ctx, c.version);
  }

  /** The compiler record is a `CompilerVersion` literal with its six fields in order. */
  lemma CompilerRoundTrip(ctx: Context, c: CompilerVersion)
    ensures var fields := ReadStruct(CompilerTokens(ctx, c), [ctx.crate, "CompilerVersion"]);
      fields.Some? && Names(fields.value) == COMPILER_FIELDS
      && ReadVersionText(fields.value[0].1, ctx.crate) == Some(C.VersionString(c.version))
      && IV.ReadOptionalString(fields.value[1].1) == Some(c.commit_hash)
      && IV.ReadOptionalString(fields.value[2].1) == Some(c.commit_date)
      && IV.ReadChannel(fields.value[3].1, ctx.crate) == Some(c.channel)
      && ReadString(fields.value[4].1) == Some(c.host_triple)
      && ReadString(fields.value[5].1) == Some(c.target_triple)
  {
    var fields := CompilerFields(ctx, c);
    StructRoundTrip([ctx.crate, "CompilerVersion"], fields);
    CompilerNames(ctx, c);
    VersionRoundTrip(ctx, c.version);
    IV.OptionalStringRoundTrip(c.commit_hash);
    IV.OptionalStringRoundTrip(c.commit_date);
    IV.ChannelRoundTrip(ctx, c.channel);
    StringRoundTrip(c.host_triple);
    StringRoundTrip(c.target_triple);
  }

  /** The git record is a `GitInformation` literal with its three fields in order. */
  lemma GitRoundTrip(ctx: Context, g: GitInformation)
    ensures var fields := ReadStruct(GitTokens(ctx, g), [ctx.crate, "GitInformation"]);
      fields.Some? && Names(fields.value) == GIT_FIELDS
      && ReadString(fields.value[0].1) == Some(g.commit_hash)
      && ReadBool(fields.value[1].1) == Some(g.dirty)
      && IV.ReadOptionalString(fields.value[2].1) == Some(g.name)
  {
    var fields := GitFields(g);
    StructRoundTrip([ctx.crate, "GitInformation"], fields);
    GitNames(g);
    StringRoundTrip(g.commit_hash);
    LiteralRoundTrips(g.dirty, 0, "");
    IV.OptionalStringRoundTrip(g.name);
  }

  /** Version control is `VersionControl::Git` applied to the git record. */
  lemma VersionControlRoundTrip(ctx: Context, o: Option<VersionControl>)
    ensures var opt := ReadOption(OptionalVersionControlTokens(ctx, o));
      opt.Some? && (o.None? <==> opt.value.None?)
      && (o.Some? ==> ReadCall(opt.value.value, [ctx.crate, "VersionControl", "Git"]) == Some(GitTokens(ctx, o.value.info)))
  {
    OptionRoundTrip(if o.Some? then Some(VersionControlTokens(ctx, o.value)) else None);
    if o.Some? {
      var path := PathTokens([ctx.crate, "VersionControl", "Git"]);
      var ts := VersionControlTokens(ctx, o.value);
      assert ts == path + [G(Parenthesis, GitTokens(ctx, o.value.info))];
      assert ts[..|path|] == path;
    }
  }

  /**
   The snapshot is a `BuildInfo` literal with its four fields in order: the
   timestamp reads back as its nanosecond count and the records are their
   own literals.
   */
  lemma BuildInfoRoundTrip(ctx: Context, b: BuildInfo)
    ensures var fields := ReadStruct(BuildInfoTokens(ctx, b), [ctx.crate, "BuildInfo"]);
      fields.Some? && Names(fields.value) == BUILD_INFO_FIELDS
      && ReadNanos(fields.value[0].1, ctx.crate) == Some(ctx.nanos(b.timestamp))
      && fields.value[1].1 == CrateInfoTokens(ctx, b.crate_info)
      && fields.value[2].1 == CompilerTokens(ctx, b.compiler)
      && fields.value[3].1 == OptionalVersionControlTokens(ctx, b.version_control)
  {
    var fields := BuildInfoFields(ctx, b);
    StructRoundTrip([ctx.crate, "BuildInfo"], fields);
    BuildInfoNames(ctx, b);
    NanosRoundTrip(ctx, b.timestamp);
  }

  lemma CrateInfoNames(ctx: Context, c: CrateInfo)
    ensures Names(CrateInfoFields(ctx, c)) == CRATE_INFO_FIELDS
  {
    var names := Names(CrateInfoFields(ctx, c));
    assert |names| == |CRATE_INFO_FIELDS|;
    assert forall i :: 0 <= i < |names| ==> names[i] == CRATE_INFO_FIELDS[i];
  }

  lemma CompilerNames(ctx: Context, c: CompilerVersion)
    ensures Names(CompilerFields(ctx, c)) == COMPILER_FIELDS
  {
    var names := Names(CompilerFields(ctx, c));
    assert |names| == |COMPILER_FIELDS|;
    assert forall i :: 0 <= i < |names| ==> names[i] == COMPILER_FIELDS[i];
  }

  lemma GitNames(g: GitInformation)
    ensures Names(GitFields(g)) == GIT_FIELDS
  {
    var names := Names(GitFields(g));
    assert |names| == |GIT_FIELDS|;
    assert forall i :: 0 <= i < |names| ==> names[i] == GIT_FIELDS[i];
  }

  lemma BuildInfoNames(ctx: Context, b: BuildInfo)
    ensures Names(BuildInfoFields(ctx, b)) == BUILD_INFO_FIELDS
  {
    var names := Names(BuildInfoFields(ctx, b));
    assert |names| == |BUILD_INFO_FIELDS|;
    assert forall i :: 0 <= i < |names| ==> names[i] == BUILD_INFO_FIELDS[i];
  }
}
