/**
 The two path selections behind versionator's `version!` macros. Each
 follows a parsed trace into the snapshot and yields code for what it
 reaches. The older one (the proc crate's root) quotes records with their
 own `ToTokens` and hard-codes the `versionator` path; the newer one (the
 expression module) writes every value with the constructor-code
 serialiser.
 */
module VersionatorSelect {
  import opened Wrappers
  import opened Tokens
  import opened InitShapes
  import opened VersionatorTypes
  import C = Common
  import IV = InitValue
  import VI = VersionatorInit

  datatype Panic =
    | NotValid(member: string, typeName: string)
    | UnwrapFailed
    | PathNotEmpty
    | Unimplemented

  type Code = Result<seq<Token>, Panic>

  const TO_STRING: string := "to_string()"
  const OPTION_TYPE: string := "Option<versionator::VersionControl>"

  // ---------------------------------------------------------------------------
  // Leaves shared by both selections

  /** A leaf emits its literal and panics when the path goes on. */
  function LeafSel(ids: seq<string>, literal: seq<Token>): (r: Code)
    ensures r.Ok? <==> |ids| == 0
    ensures r.Ok? ==> r.value == literal
    ensures r.Err? ==> r.error == PathNotEmpty
  {
    if |ids| == 0 then Ok(literal) else Err(PathNotEmpty)
  }

  /** A list of identifiers: only an empty list has code, `(&[] as &[crate::Identifier])`. */
  function IdentifiersSel(crate: string, ids: seq<string>, list: seq<C.Identifier>): (r: Code)
    ensures |ids| > 0 ==> r == Err(PathNotEmpty)
    ensures |ids| == 0 && |list| > 0 ==> r == Err(Unimplemented)
    ensures r.Ok? ==> |ids| == 0 && |list| == 0 && |r.value| == 1 && r.value[0].Group?
  {
    if |ids| > 0 then Err(PathNotEmpty)
    else if |list| > 0 then Err(Unimplemented)
    else Ok([G(Parenthesis, [P('&'), G(Bracket, []), Id("as"), P('&'), G(Bracket, PathTokens([crate, "Identifier"]))])])
  }

  // ---------------------------------------------------------------------------
  // The older selection: `buildinfo_value` and its helpers

  /** A record quoted through its own `ToTokens`, which is not part of this model. */
  datatype Quoted =
    | QuotedBuildInfo(b: BuildInfo)
    | QuotedCompiler(c: CompilerVersion)
    | QuotedVersionControl(vc: VersionControl)
    | QuotedGit(g: GitInformation)

  datatype Selected = Code(tokens: seq<Token>) | Record(value: Quoted)

  type Selection = Result<Selected, Panic>

  const VERSIONATOR: string := "versionator"

  function Raw(ids: seq<string>, literal: seq<Token>): Selection {
    match LeafSel(ids, literal)
    case Ok(ts) => Ok(Code(ts))
    case Err(e) => Err(e)
  }

  /** `quote!(#value)` of an `Option<String>` writes the bare literal, or nothing. */
  function OptionStringSel(ids: seq<string>, o: Option<string>): Selection {
    if |ids| == 0 then Ok(Code(if o.Some? then StrTokens(o.value) else []))
    else if ids[0] == "?" then
      if o.Some? then Raw(ids[1..], StrTokens(o.value)) else Err(UnwrapFailed)
    else Err(NotValid(ids[0], OPTION_TYPE))
  }

  function VersionSel(ids: seq<string>, v: C.Version): Selection {
    if |ids| == 0 then Ok(Code(UnwrapCall([VERSIONATOR, "Version", "parse"], StrTokens(C.VersionString(v)))))
    else if ids[0] == "major" then Raw(ids[1..], IntTokens(v.major, "u64"))
    else if ids[0] == "minor" then Raw(ids[1..], IntTokens(v.minor, "u64"))
    else if ids[0] == "patch" then Raw(ids[1..], IntTokens(v.patch, "u64"))
    else if ids[0] == "pre" || ids[0] == "build" then
      match IdentifiersSel(VERSIONATOR, ids[1..], if ids[0] == "pre" then v.pre else v.build)
      case Ok(ts) => Ok(Code(ts))
      case Err(e) => Err(e)
    else if ids[0] == TO_STRING then Raw(ids[1..], StrTokens(C.VersionString(v)))
    else Err(NotValid(ids[0], "versionator::Version"))
  }

  function ChannelSel(ids: seq<string>, c: C.CompilerChannel): Selection {
    if |ids| == 0 then Ok(Code(PathTokens([VERSIONATOR, "CompilerChannel", C.CompilerChannelString(c)])))
    else if ids[0] == TO_STRING then Raw(ids[1..], StrTokens(C.CompilerChannelString(c)))
    else Err(NotValid(ids[0], "versionator::CompilerChannel"))
  }

  function CompilerSel(ids: seq<string>, c: CompilerVersion): Selection {
    if |ids| == 0 then Ok(Record(QuotedCompiler(c)))
    else if ids[0] == "version" then VersionSel(ids[1..], c.version)
    else if ids[0] == "commit_hash" then OptionStringSel(ids[1..], c.commit_hash)
    else if ids[0] == "commit_date" then OptionStringSel(ids[1..], c.commit_date)
    else if ids[0] == "channel" then ChannelSel(ids[1..], c.channel)
    else if ids[0] == "host_triple" then Raw(ids[1..], StrTokens(c.host_triple))
    else if ids[0] == "target_triple" then Raw(ids[1..], StrTokens(c.target_triple))
    else Err(NotValid(ids[0], "versionator::CompilerVersion"))
  }

  function GitSel(ids: seq<string>, g: GitInformation): Selection {
    if |ids| == 0 then Ok(Record(QuotedGit(g)))
    else if ids[0] == "commit_hash" then Raw(ids[1..], StrTokens(g.commit_hash))
    else if ids[0] == "dirty" then Raw(ids[1..], BoolTokens(g.dirty))
    else if ids[0] == "name" then OptionStringSel(ids[1..], g.name)
    else Err(NotValid(ids[0], "versionator::GitInformation"))
  }

  /** `quote!(#value)` of an absent option writes nothing. */
  function OptionVersionControlSel(ids: seq<string>, o: Option<VersionControl>): Selection {
    if |ids| == 0 then
      if o.Some? then Ok(Record(QuotedVersionControl(o.value))) else Ok(Code([]))
    else if ids[0] == "?" then
      if o.Some? then GitSel(ids[1..], o.value.info) else Err(UnwrapFailed)
    else Err(NotValid(ids[0], OPTION_TYPE))
  }

  /** `buildinfo_value`: the root accepts only the compiler and version control. */
  function Select(b: BuildInfo, ids: seq<string>): Selection {
    if |ids| == 0 then Ok(Record(QuotedBuildInfo(b)))
    else if ids[0] == "compiler" then CompilerSel(ids[1..], b.compiler)
    else if ids[0] == "version_control" then OptionVersionControlSel(ids[1..], b.version_control)
    else Err(NotValid(ids[0], "versionator::BuildInfo"))
  }

  // ---------------------------------------------------------------------------
  // The newer selection: `IndexedInitValue`

  /** An option with an empty path is written whole; `?` steps into a present value. */
  function OptionInit<T>(o: Option<T>, ids: seq<string>, init: T -> seq<Token>, sel: (T, seq<string>) -> Code): (r: Code)
    ensures |ids| == 0 ==> r == Ok(OptionTokens(if o.Some? then Some(init(o.value)) else None))
    ensures |ids| > 0 && ids[0] == "?" ==> r == (if o.Some? then sel(o.value, ids[1..]) else Err(UnwrapFailed))
    ensures |ids| > 0 && ids[0] != "?" ==> r == Err(NotValid(ids[0], OPTION_TYPE))
  {
    if |ids| == 0 then Ok(OptionTokens(if o.Some? then Some(init(o.value)) else None))
    else if ids[0] == "?" then
      match o
      case Some(v) => sel(v, ids[1..])
      case None => Err(UnwrapFailed)
    else Err(NotValid(ids[0], OPTION_TYPE))
  }

  /** Strings are written as bare literals here, not as `.to_string()` calls. */
  function StringInit(s: string, ids: seq<string>): Code {
    LeafSel(ids, StrTokens(s))
  }

  function VersionInit(ctx: VI.Context, v: C.Version, ids: seq<string>): Code {
    if |ids| == 0 then Ok(VI.VersionTokens(ctx, v))
    else if ids[0] == "major" then LeafSel(ids[1..], IntTokens(v.major, "u64"))
    else if ids[0] == "minor" then LeafSel(ids[1..], IntTokens(v.minor, "u64"))
    else if ids[0] == "patch" then LeafSel(ids[1..], IntTokens(v.patch, "u64"))
    else if ids[0] == "pre" then IdentifiersSel(ctx.crate, ids[1..], v.pre)
    else if ids[0] == "build" then IdentifiersSel(ctx.crate, ids[1..], v.build)
    else if ids[0] == TO_STRING then StringInit(C.VersionString(v), ids[1..])
    else Err(NotValid(ids[0], "versionator::Version"))
  }

  function ChannelInit(ctx: VI.Context, c: C.CompilerChannel, ids: seq<string>): Code {
    if |ids| == 0 then Ok(IV.ChannelTokens(ctx, c))
    else if ids[0] == TO_STRING then StringInit(C.CompilerChannelString(c), ids[1..])
    else Err(NotValid(ids[0], "versionator::CompilerChannel"))
  }

  function CompilerInit(ctx: VI.Context, c: CompilerVersion, ids: seq<string>): Code {
    if |ids| == 0 then Ok(VI.CompilerTokens(ctx, c))
    else if ids[0] == "version" then VersionInit(ctx, c.version, ids[1..])
    else if ids[0] == "commit_hash" then OptionInit(c.commit_hash, ids[1..], StringTokens, StringInit)
    else if ids[0] == "commit_date" then OptionInit(c.commit_date, ids[1..], StringTokens, StringInit)
    else if ids[0] == "channel" then ChannelInit(ctx, c.channel, ids[1..])
    else if ids[0] == "host_triple" then StringInit(c.host_triple, ids[1..])
    else if ids[0] == "target_triple" then StringInit(c.target_triple, ids[1..])
    else Err(NotValid(ids[0], "versionator::CompilerVersion"))
  }

  function CrateInfoInit(ctx: VI.Context, c: CrateInfo, ids: seq<string>): Code {
    if |ids| == 0 then Ok(VI.CrateInfoTokens(ctx, c))
    else if ids[0] == "name" then StringInit(c.name, ids[1..])
    else if ids[0] == "version" then VersionInit(ctx, c.version, ids[1..])
    else Err(NotValid(ids[0], "versionator::CrateInfo"))
  }

  function GitInit(ctx: VI.Context, g: GitInformation, ids: seq<string>): Code {
    if |ids| == 0 then Ok(VI.GitTokens(ctx, g))
    else if ids[0] == "commit_hash" then StringInit(g.commit_hash, ids[1..])
    else if ids[0] == "dirty" then LeafSel(ids[1..], BoolTokens(g.dirty))
    else if ids[0] == "name" then OptionInit(g.name, ids[1..], StringTokens, StringInit)
    else Err(NotValid(ids[0], "versionator::GitInformation"))
  }

  /** Timestamps have code only as a whole. */
  function DateTimeInit(ctx: VI.Context, d: C.DateTime, ids: seq<string>): Code {
    if |ids| == 0 then Ok(VI.DateTimeTokens(ctx, d)) else Err(Unimplemented)
  }

  function BuildInfoInit(ctx: VI.Context, b: BuildInfo, ids: seq<string>): Code {
    if |ids| == 0 then Ok(VI.BuildInfoTokens(ctx, b))
    else if ids[0] == "timestamp" then DateTimeInit(ctx, b.timestamp, ids[1..])
    else if ids[0] == "crate_info" then CrateInfoInit(ctx, b.crate_info, ids[1..])
    else if ids[0] == "compiler" then CompilerInit(ctx, b.compiler, ids[1..])
    else if ids[0] == "version_control" then
      OptionInit(b.version_control, ids[1..],
                 (vc: VersionControl) => VI.VersionControlTokens(ctx, vc),
                 (vc: VersionControl, rest: seq<string>) => GitInit(ctx, vc.info, rest))
    else Err(NotValid(ids[0], "versionator::BuildInfo"))
  }

  // ---------------------------------------------------------------------------
  // Laws of the older selection

  /** The root accepts exactly the compiler and version control, and an empty trace selects the whole snapshot. */
  lemma SelectRoot(b: BuildInfo, m: string, rest: seq<string>)
    ensures Select(b, []) == Ok(Record(QuotedBuildInfo(b)))
    ensures Select(b, [m] + rest) == Err(NotValid(m, "versionator::BuildInfo")) <==> m != "compiler" && m != "version_control"
  {
    assert ([m] + rest)[1..] == rest;
  }

  /** Leaves need the trace to end there; `to_string()` selects the rendered text. */
  lemma SelectLeaves(b: BuildInfo, rest: seq<string>)
    ensures Select(b, ["compiler", "host_triple"] + rest)
      == if |rest| == 0 then Ok(Code(StrTokens(b.compiler.host_triple))) else Err(PathNotEmpty)
    ensures Select(b, ["compiler", "version", "major"] + rest)
      == if |rest| == 0 then Ok(Code(IntTokens(b.compiler.version.major, "u64"))) else Err(PathNotEmpty)
    ensures Select(b, ["compiler", "version", TO_STRING])
      == Ok(Code(StrTokens(C.VersionString(b.compiler.version))))
    ensures Select(b, ["compiler", "channel", TO_STRING])
      == Ok(Code(StrTokens(C.CompilerChannelString(b.compiler.channel))))
  {
    assert (["compiler", "host_triple"] + rest)[1..] == ["host_triple"] + rest;
    assert (["host_triple"] + rest)[1..] == rest;
    assert (["compiler", "version", "major"] + rest)[1..] == ["version", "major"] + rest;
    assert (["version", "major"] + rest)[1..] == ["major"] + rest;
    assert (["major"] + rest)[1..] == rest;
    assert ["compiler", "version", TO_STRING][1..] == ["version", TO_STRING];
    assert ["version", TO_STRING][1..] == [TO_STRING];
    assert ["compiler", "channel", TO_STRING][1..] == ["channel", TO_STRING];
    assert ["channel", TO_STRING][1..] == [TO_STRING];
  }

  /** `?` on an absent option panics; a present one is stepped into. */
  lemma SelectUnwrap(b: BuildInfo, rest: seq<string>)
    ensures b.version_control.None? ==> Select(b, ["version_control", "?"] + rest) == Err(UnwrapFailed)
    ensures b.version_control.Some? ==> Select(b, ["version_control", "?"] + rest) == GitSel(rest, b.version_control.value.info)
    ensures b.compiler.commit_hash.None? ==> Select(b, ["compiler", "commit_hash", "?"] + rest) == Err(UnwrapFailed)
    ensures b.version_control.None? ==> Select(b, ["version_control"]) == Ok(Code([]))
  {
    assert (["version_control", "?"] + rest)[1..] == ["?"] + rest;
    assert (["?"] + rest)[1..] == rest;
    assert (["compiler", "commit_hash", "?"] + rest)[1..] == ["commit_hash", "?"] + rest;
    assert (["commit_hash", "?"] + rest)[1..] == ["?"] + rest;
    assert ["version_control"][1..] == [];
  }

  /** Identifier lists have code only when empty. */
  lemma SelectIdentifiers(b: BuildInfo)
    ensures |b.compiler.version.pre| > 0 ==> Select(b, ["compiler", "version", "pre"]) == Err(Unimplemented)
    ensures |b.compiler.version.pre| == 0 ==> Select(b, ["compiler", "version", "pre"]).Ok?
  {
    assert ["compiler", "version", "pre"][1..] == ["version", "pre"];
    assert ["version", "pre"][1..] == ["pre"];
  }

  // ---------------------------------------------------------------------------
  // Laws of the newer selection

  /** An empty trace writes the full constructor code of whatever it stands on. */
  lemma InitEmptyPaths(ctx: VI.Context, b: BuildInfo)
    ensures BuildInfoInit(ctx, b, []) == Ok(VI.BuildInfoTokens(ctx, b))
    ensures BuildInfoInit(ctx, b, ["crate_info"]) == Ok(VI.CrateInfoTokens(ctx, b.crate_info))
    ensures BuildInfoInit(ctx, b, ["compiler"]) == Ok(VI.CompilerTokens(ctx, b.compiler))
    ensures BuildInfoInit(ctx, b, ["timestamp"]) == Ok(VI.DateTimeTokens(ctx, b.timestamp))
    ensures BuildInfoInit(ctx, b, ["version_control"]) == Ok(VI.OptionalVersionControlTokens(ctx, b.version_control))
  {
    assert ["crate_info"][1..] == [] && ["compiler"][1..] == [] && ["timestamp"][1..] == [];
    assert ["version_control"][1..] == [];
  }

  /** The crate record offers only its name and version; the author list panics. */
  lemma InitCrateMembers(ctx: VI.Context, b: BuildInfo, m: string, rest: seq<string>)
    ensures BuildInfoInit(ctx, b, ["crate_info", m] + rest) == Err(NotValid(m, "versionator::CrateInfo"))
      <==> m != "name" && m != "version"
    ensures BuildInfoInit(ctx, b, ["crate_info", "authors"]) == Err(NotValid("authors", "versionator::CrateInfo"))
  {
    assert (["crate_info", m] + rest)[1..] == [m] + rest;
    assert ([m] + rest)[1..] == rest;
    assert ["crate_info", "authors"][1..] == ["authors"];
  }

  /** `?` steps into a present option and panics on an absent one. */
  lemma InitUnwrap(ctx: VI.Context, b: BuildInfo, rest: seq<string>)
    ensures b.version_control.None? ==> BuildInfoInit(ctx, b, ["version_control", "?"] + rest) == Err(UnwrapFailed)
    ensures b.version_control.Some? ==>
      BuildInfoInit(ctx, b, ["version_control", "?"] + rest) == GitInit(ctx, b.version_control.value.info, rest)
  {
    assert (["version_control", "?"] + rest)[1..] == ["?"] + rest;
  }

  /** `to_string()` continues on the rendered text, which is a leaf. */
  lemma InitToString(ctx: VI.Context, b: BuildInfo, rest: seq<string>)
    ensures BuildInfoInit(ctx, b, ["compiler", "version", TO_STRING] + rest)
      == if |rest| == 0 then Ok(StrTokens(C.VersionString(b.compiler.version))) else Err(PathNotEmpty)
  {
    assert (["compiler", "version", TO_STRING] + rest)[1..] == ["version", TO_STRING] + rest;
    assert (["version", TO_STRING] + rest)[1..] == [TO_STRING] + rest;
    assert ([TO_STRING] + rest)[1..] == rest;
  }

  lemma InitChannelToString(ctx: VI.Context, b: BuildInfo, rest: seq<string>)
    ensures BuildInfoInit(ctx, b, ["compiler", "channel", TO_STRING] + rest)
      == if |rest| == 0 then Ok(StrTokens(C.CompilerChannelString(b.compiler.channel))) else Err(PathNotEmpty)
  {
    assert (["compiler", "channel", TO_STRING] + rest)[1..] == ["channel", TO_STRING] + rest;
    assert (["channel", TO_STRING] + rest)[1..] == [TO_STRING] + rest;
    assert ([TO_STRING] + rest)[1..] == rest;
  }

  /** Timestamps have no members to select. */
  lemma InitTimestampMembers(ctx: VI.Context, b: BuildInfo, m: string, rest: seq<string>)
    ensures BuildInfoInit(ctx, b, ["timestamp", m] + rest) == Err(Unimplemented)
  {
    assert (["timestamp", m] + rest)[1..] == [m] + rest;
  }

  // ---------------------------------------------------------------------------
  // The two selections side by side

  /**
   When the dependency is named `versionator`, both selections write the
   same code for a version, for a channel, and for every scalar and string
   member of the compiler record.
   */
  lemma SelectionsAgreeOnCompilerLeaves(ctx: VI.Context, b: BuildInfo, m: string)
    requires ctx.crate == VERSIONATOR
    requires m in {"version", "channel", "host_triple", "target_triple"}
    ensures Select(b, ["compiler", m]).Ok? && Select(b, ["compiler", m]).value.Code?
    ensures BuildInfoInit(ctx, b, ["compiler", m]) == Ok(Select(b, ["compiler", m]).value.tokens)
  {
    assert ["compiler", m][1..] == [m];
    assert [m][1..] == [];
  }

  /** The selections part ways on an absent option: the older writes nothing, the newer writes `None`. */
  lemma SelectionsDifferOnAbsentOption(ctx: VI.Context, b: BuildInfo)
    requires b.compiler.commit_hash.None?
    ensures Select(b, ["compiler", "commit_hash"]) == Ok(Code([]))
    ensures BuildInfoInit(ctx, b, ["compiler", "commit_hash"]) == Ok([Id("None")])
  {
    assert ["compiler", "commit_hash"][1..] == ["commit_hash"];
    assert ["commit_hash"][1..] == [];
  }
}
