/**
 The closed value model of the format macro: every kind of value an
 expression can produce, the operations it answers (`call`), its type tag and
 its rendering in the three format modes.
 */
module Values {
  import opened Wrappers
  import opened Text
  import Types
  import C = Common

  /** One constructor per value kind. */
  datatype Value =
    | Bool(b: bool)
    | Char(c: char)
    | Integer(i: int)
    | Str(s: string)
    | Opt(opt: Option<Value>)
    | List(items: seq<Value>)
    | BuildInfo(build: C.BuildInfo)
    | CrateInfo(crate: C.CrateInfo)
    | CompilerInfo(compiler: C.CompilerInfo)
    | CompilerChannel(channel: C.CompilerChannel)
    | OptimizationLevel(level: C.OptimizationLevel)
    | VersionControl(vcs: C.VersionControl)
    | GitInfo(git: C.GitInfo)
    | CpuInfo(cpu: C.CpuInfo)
    | TargetInfo(target: C.TargetInfo)
    | Endianness(endian: C.Endianness)
    | Version(version: C.Version)
    | DateTime(timestamp: C.DateTime)
    | NaiveDate(date: C.NaiveDate)

  /** `FormatSpecifier`: `{}`, `{:?}` and `{:#?}`. */
  datatype Spec = Default | Debug | DebugAlt

  /** The `anyhow` errors an operation can return. */
  datatype ErrorKind =
    | NoSuchField(field: string, ty: Types.Type)
    | NotTupleIndexable(ty: Types.Type)
    | NotIndexable(ty: Types.Type)
    | NotCallable(func: string, args: seq<Value>, ty: Types.Type)
    | WrongArgumentCount(count: nat)
    | NamedArgument
    | WrongArgumentType(typeName: string)
    | UnwrapNone

  /**
   How an operation ends when it does not produce a value: an `anyhow` error
   the macro reports, a Rust panic, or a `proc_macro_error` abort with the
   diagnostics it emitted.
   */
  datatype Failure =
    | Error(kind: ErrorKind)
    | Panic(reason: string)
    | Abort(diagnostics: seq<string>)

  /**
   What the model takes from libraries it does not describe: the derived
   `Debug` layouts (`true` selects `{:#?}`), `char::escape_debug` beyond
   ASCII, Unicode case mapping, chrono's strftime, the `Display` of the
   target records and Unicode's alphabetic property; and whether the macro
   was compiled with debug assertions.
   */
  datatype Host = Host(
    debug: (Value, bool) -> string,
    charEscape: char -> string,
    lowercase: string -> string,
    uppercase: string -> string,
    dateTimeFormat: (C.DateTime, string) -> string,
    dateFormat: (C.NaiveDate, string) -> string,
    cpuInfoString: C.CpuInfo -> string,
    targetInfoString: C.TargetInfo -> string,
    endiannessString: C.Endianness -> string,
    isAlphabetic: char -> bool,
    debugAssertions: bool)

  const OP_FIELD_ACCESS: string := "!field"
  const OP_TUPLE_INDEX: string := "!tuple_index"
  const OP_ARRAY_INDEX: string := "!array_index"

  /** `std::any::type_name::<String>()`, named in argument-type errors. */
  const STRING_TYPE_NAME: string := "alloc::string::String"

  /** `usize::MAX` on the 64-bit hosts the macro runs on. */
  const USIZE_MAX: int := 0xFFFF_FFFF_FFFF_FFFF

  /** The type tag of a value, as each kind's `get_type` reports it. */
  function TypeOf(v: Value): (t: Types.Type)
    ensures v.List? ==> t == Types.Type.Option
    ensures (v.CpuInfo? || v.TargetInfo?) ==> t == Types.CompilerInfo
    ensures v.NaiveDate? ==> t == Types.DateTimeUtc
  {
    match v
    case Bool(_) => Types.Bool
    case Char(_) => Types.Char
    case Integer(_) => Types.Integer
    case Str(_) => Types.String
    case Opt(_) => Types.Type.Option
    case List(_) => Types.Type.Option
    case BuildInfo(_) => Types.BuildInfo
    case CrateInfo(_) => Types.CrateInfo
    case CompilerInfo(_) => Types.CompilerInfo
    case CompilerChannel(_) => Types.CompilerChannel
    case OptimizationLevel(_) => Types.OptimizationLevel
    case VersionControl(_) => Types.VersionControl
    case GitInfo(_) => Types.GitInfo
    case CpuInfo(_) => Types.CompilerInfo
    case TargetInfo(_) => Types.CompilerInfo
    case Endianness(_) => Types.Endianness
    case Version(_) => Types.Version
    case DateTime(_) => Types.DateTimeUtc
    case NaiveDate(_) => Types.DateTimeUtc
  }

  /** The text of an error, as `anyhow` displays it. */
  function ErrorMessage(k: ErrorKind, h: Host): string {
    match k
    case NoSuchField(f, t) =>
      "The field " + f + " does not exist for objects of type " + Types.TypeName(t)
    case NotTupleIndexable(t) => "Type " + Types.TypeName(t) + " cannot be tuple-indexed"
    case NotIndexable(t) => "Type " + Types.TypeName(t) + " cannot be indexed"
    case NotCallable(f, args, t) =>
      "Function " + f + " cannot be called with arguments " + h.debug(List(args), true)
      + " on objects of type " + Types.TypeName(t)
    case WrongArgumentCount(n) => "Wrong number of arguments (should be " + NatToString(n) + ")"
    case NamedArgument => "Expected a single positional argument, found a named argument instead"
    case WrongArgumentType(name) => "Argument #1 should have type " + name
    case UnwrapNone => "Could not unwrap Option (object does not contain a value)"
  }

  // ---------------------------------------------------------------------------
  // Argument helpers

  /** The single string operand of a field access; anything else panics. */
  function AsFieldName(args: seq<Value>): (r: Result<string, Failure>)
    ensures r.Ok? <==> |args| == 1 && args[0].Str?
    ensures r.Ok? ==> r.value == args[0].s
    ensures r.Err? ==> r.error.Panic?
  {
    if |args| != 1 then Err(Panic("Accessing a field must have exactly one operand (the field name)"))
    else if !args[0].Str? then Err(Panic("The field name must be a string when accessing a field."))
    else Ok(args[0].s)
  }

  /** The single integer operand of an index, converted to `usize`; anything else panics. */
  function AsIndex(args: seq<Value>): (r: Result<nat, Failure>)
    ensures r.Ok? <==> |args| == 1 && args[0].Integer? && 0 <= args[0].i <= USIZE_MAX
    ensures r.Ok? ==> r.value == args[0].i
    ensures r.Err? ==> r.error.Panic?
  {
    if |args| != 1 then Err(Panic("Accessing a field must have exactly one operand (the field name)"))
    else if !args[0].Integer? then Err(Panic("The array index must be an integer."))
    else if !(0 <= args[0].i <= USIZE_MAX) then Err(Panic("The array index does not fit into the type usize."))
    else Ok(args[0].i as nat)
  }

  function AsArguments0(args: seq<Value>): (r: Result<(), Failure>)
    ensures r.Ok? <==> |args| == 0
    ensures r.Err? ==> r.error == Error(WrongArgumentCount(0))
  {
    if |args| == 0 then Ok(()) else Err(Error(WrongArgumentCount(0)))
  }

  /**
   `as_simple_arguments_1::<T>`: exactly one argument, which `cast` accepts;
   `typeName` is what the type error names.
   */
  function AsSimpleArguments1<T>(args: seq<Value>, cast: Value -> Option<T>, typeName: string): (r: Result<T, Failure>)
    ensures r.Ok? <==> |args| == 1 && cast(args[0]).Some?
    ensures r.Ok? ==> r.value == cast(args[0]).value
    ensures |args| != 1 ==> r == Err(Error(WrongArgumentCount(1)))
    ensures |args| == 1 && cast(args[0]).None? ==> r == Err(Error(WrongArgumentType(typeName)))
  {
    if |args| != 1 then Err(Error(WrongArgumentCount(1)))
    else match cast(args[0])
      case None => Err(Error(WrongArgumentType(typeName)))
      case Some(x) => Ok(x)
  }

  /** `as_named_arguments_1::<T>`: as above, and the argument must not be named. */
  function AsNamedArguments1<T>(args: seq<(Option<string>, Value)>, cast: Value -> Option<T>, typeName: string)
    : (r: Result<T, Failure>)
    ensures r.Ok? <==> |args| == 1 && args[0].0.None? && cast(args[0].1).Some?
    ensures r.Ok? ==> r.value == cast(args[0].1).value
    ensures |args| == 1 && args[0].0.Some? ==> r == Err(Error(NamedArgument))
  {
    if |args| != 1 then Err(Error(WrongArgumentCount(1)))
    else if args[0].0.Some? then Err(Error(NamedArgument))
    else match cast(args[0].1)
      case None => Err(Error(WrongArgumentType(typeName)))
      case Some(x) => Ok(x)
  }

  function AsString(v: Value): (r: Option<string>)
    ensures r.Some? <==> v.Str?
  {
    if v.Str? then Some(v.s) else None
  }

  /** The single string argument of `format`, `env` and `option_env`. */
  function AsStringArgument(args: seq<Value>): (r: Result<string, Failure>)
    ensures r.Ok? <==> |args| == 1 && args[0].Str?
    ensures r.Ok? ==> r.value == args[0].s
  {
    AsSimpleArguments1(args, AsString, STRING_TYPE_NAME)
  }

  // ---------------------------------------------------------------------------
  // Operations

  /** `call_base`: the answer of a kind to an operation it does not support. */
  function CallBase(v: Value, func: string, args: seq<Value>): (r: Result<Value, Failure>)
    ensures r.Err?
    ensures func == OP_FIELD_ACCESS && |args| == 1 && args[0].Str? ==>
      r.error == Error(NoSuchField(args[0].s, TypeOf(v)))
    ensures func == OP_TUPLE_INDEX ==> r.error == Error(NotTupleIndexable(TypeOf(v)))
    ensures func == OP_ARRAY_INDEX ==> r.error == Error(NotIndexable(TypeOf(v)))
    ensures func !in {OP_FIELD_ACCESS, OP_TUPLE_INDEX, OP_ARRAY_INDEX} ==>
      r.error == Error(NotCallable(func, args, TypeOf(v)))
  {
    if func == OP_FIELD_ACCESS then
      var field :- AsFieldName(args);
      Err(Error(NoSuchField(field, TypeOf(v))))
    else if func == OP_TUPLE_INDEX then Err(Error(NotTupleIndexable(TypeOf(v))))
    else if func == OP_ARRAY_INDEX then Err(Error(NotIndexable(TypeOf(v))))
    else Err(Error(NotCallable(func, args, TypeOf(v))))
  }

  /** A `to_string` with no arguments, yielding `text`. */
  function ToStringCall(args: seq<Value>, text: string): (r: Result<Value, Failure>)
    ensures r.Ok? <==> |args| == 0
    ensures r.Ok? ==> r.value == Str(text)
  {
    var _ :- AsArguments0(args);
    Ok(Str(text))
  }

  /** A zero-argument method yielding `result`. */
  function NullaryCall(args: seq<Value>, result: Value): (r: Result<Value, Failure>)
    ensures r.Ok? <==> |args| == 0
    ensures r.Ok? ==> r.value == result
    ensures r.Err? ==> r.error == Error(WrongArgumentCount(0))
  {
    var _ :- AsArguments0(args);
    Ok(result)
  }

  function Strings(ss: seq<string>): (r: seq<Value>)
    ensures |r| == |ss| && forall i :: 0 <= i < |ss| ==> r[i] == Str(ss[i])
  {
    if |ss| == 0 then [] else [Str(ss[0])] + Strings(ss[1..])
  }

  function Crates(cs: seq<C.CrateInfo>): (r: seq<Value>)
    ensures |r| == |cs| && forall i :: 0 <= i < |cs| ==> r[i] == CrateInfo(cs[i])
  {
    if |cs| == 0 then [] else [CrateInfo(cs[0])] + Crates(cs[1..])
  }

  function OptString(o: Option<string>): Value {
    match o
    case None => Opt(None)
    case Some(s) => Opt(Some(Str(s)))
  }

  /**
   The `Display` string of a compiler record; its only failure is std's
   slicing panic for `&commit_id[0..9]`.
   */
  function CompilerInfoDisplay(c: C.CompilerInfo): (r: Result<string, Failure>)
    ensures r.Ok? <==> C.CompilerInfoString(c).Some?
    ensures r.Ok? ==> r.value == C.CompilerInfoString(c).value
    ensures r.Err? ==>
      c.commit_id.Some? && BytePrefix(c.commit_id.value, 9).None?
      && r.error == Panic(SlicePanic(c.commit_id.value, 9))
  {
    match C.CompilerInfoString(c)
    case Some(s) => Ok(s)
    case None => Err(Panic(SlicePanic(c.commit_id.value, 9)))
  }

  /** The fields each record kind exposes through `!field`. */
  function FieldNames(v: Value): set<string> {
    match v
    case BuildInfo(_) =>
      {"timestamp", "profile", "optimization_level", "crate_info", "compiler", "version_control"}
    case CrateInfo(_) =>
      {"name", "version", "authors", "license", "enabled_features", "available_features", "dependencies"}
    case CompilerInfo(_) => {"version", "commit_id", "commit_date", "channel", "host_triple"}
    case GitInfo(_) => {"commit_id", "commit_short_id", "commit_timestamp", "dirty", "branch", "tags"}
    case CpuInfo(_) => {"arch", "pointer_width", "endianness", "features"}
    case TargetInfo(_) => {"triple", "family", "os", "cpu"}
    case Version(_) => {"major", "minor", "patch", "pre", "build"}
    case _ => {}
  }

  /** The field table of a record kind; `None` for a name it does not expose. */
  function Field(v: Value, name: string): (r: Option<Value>)
    ensures r.Some? <==> name in FieldNames(v)
  {
    match v
    case BuildInfo(b) => BuildInfoField(b, name)
    case CrateInfo(c) => CrateInfoField(c, name)
    case CompilerInfo(c) => CompilerInfoField(c, name)
    case GitInfo(g) => GitInfoField(g, name)
    case CpuInfo(c) => CpuInfoField(c, name)
    case TargetInfo(t) => TargetInfoField(t, name)
    case Version(ver) => VersionField(ver, name)
    case _ => None
  }

  function BuildInfoField(b: C.BuildInfo, name: string): (r: Option<Value>)
    ensures r.Some? <==> name in FieldNames(BuildInfo(b))
  {
    if name == "timestamp" then Some(DateTime(b.timestamp))
    else if name == "profile" then Some(Str(b.profile))
    else if name == "optimization_level" then Some(OptimizationLevel(b.optimization_level))
    else if name == "crate_info" then Some(CrateInfo(b.crate_info))
    else if name == "compiler" then Some(CompilerInfo(b.compiler))
    else if name == "version_control" then
      Some(Opt(if b.version_control.Some? then Some(VersionControl(b.version_control.value)) else None))
    else None
  }

  function CrateInfoField(c: C.CrateInfo, name: string): (r: Option<Value>)
    ensures r.Some? <==> name in FieldNames(CrateInfo(c))
  {
    if name == "name" then Some(Str(c.name))
    else if name == "version" then Some(Version(c.version))
    else if name == "authors" then Some(List(Strings(c.authors)))
    else if name == "license" then Some(OptString(c.license))
    else if name == "enabled_features" then Some(List(Strings(c.enabled_features)))
    else if name == "available_features" then Some(List(Strings(c.available_features)))
    else if name == "dependencies" then Some(List(Crates(c.dependencies)))
    else None
  }

  function CompilerInfoField(c: C.CompilerInfo, name: string): (r: Option<Value>)
    ensures r.Some? <==> name in FieldNames(CompilerInfo(c))
  {
    if name == "version" then Some(Version(c.version))
    else if name == "commit_id" then Some(OptString(c.commit_id))
    else if name == "commit_date" then
      Some(Opt(if c.commit_date.Some? then Some(NaiveDate(c.commit_date.value)) else None))
    else if name == "channel" then Some(CompilerChannel(c.channel))
    else if name == "host_triple" then Some(Str(c.host_triple))
    else None
  }

  function GitInfoField(g: C.GitInfo, name: string): (r: Option<Value>)
    ensures r.Some? <==> name in FieldNames(GitInfo(g))
  {
    if name == "commit_id" then Some(Str(g.commit_id))
    else if name == "commit_short_id" then Some(Str(g.commit_short_id))
    else if name == "commit_timestamp" then Some(DateTime(g.commit_timestamp))
    else if name == "dirty" then Some(Bool(g.dirty))
    else if name == "branch" then Some(OptString(g.branch))
    else if name == "tags" then Some(List(Strings(g.tags)))
    else None
  }

  function CpuInfoField(c: C.CpuInfo, name: string): (r: Option<Value>)
    ensures r.Some? <==> name in FieldNames(CpuInfo(c))
  {
    if name == "arch" then Some(Str(c.arch))
    else if name == "pointer_width" then Some(Integer(c.pointer_width))
    else if name == "endianness" then Some(Endianness(c.endianness))
    else if name == "features" then Some(List(Strings(c.features)))
    else None
  }

  function TargetInfoField(t: C.TargetInfo, name: string): (r: Option<Value>)
    ensures r.Some? <==> name in FieldNames(TargetInfo(t))
  {
    if name == "triple" then Some(Str(t.triple))
    else if name == "family" then Some(Str(t.family))
    else if name == "os" then Some(Str(t.os))
    else if name == "cpu" then Some(CpuInfo(t.cpu))
    else None
  }

  function VersionField(ver: C.Version, name: string): (r: Option<Value>)
    ensures r.Some? <==> name in FieldNames(Version(ver))
  {
    if name == "major" then Some(Integer(ver.major))
    else if name == "minor" then Some(Integer(ver.minor))
    else if name == "patch" then Some(Integer(ver.patch))
    else if name == "pre" then Some(Str(C.IdentifiersString(ver.pre)))
    else if name == "build" then Some(Str(C.IdentifiersString(ver.build)))
    else None
  }

  /** `!field` on a record kind: the field table, or `call_base` for an unknown name. */
  function FieldCall(v: Value, args: seq<Value>): Result<Value, Failure> {
    var name :- AsFieldName(args);
    match Field(v, name)
    case Some(x) => Ok(x)
    case None => CallBase(v, OP_FIELD_ACCESS, args)
  }

  /** The methods of `String`, each taking no argument. */
  function StringCall(s: string, func: string, args: seq<Value>, h: Host): Result<Value, Failure> {
    if func == "is_empty" then NullaryCall(args, Bool(|s| == 0))
    else if func == "len" then NullaryCall(args, Integer(Utf8Length(s)))
    else if func == "to_lowercase" then NullaryCall(args, Str(h.lowercase(s)))
    else if func == "to_string" then NullaryCall(args, Str(s))
    else if func == "to_uppercase" then NullaryCall(args, Str(h.uppercase(s)))
    else if func == "trim" then NullaryCall(args, Str(Trim(s)))
    else if func == "trim_end" then NullaryCall(args, Str(TrimEnd(s)))
    else if func == "trim_start" then NullaryCall(args, Str(TrimStart(s)))
    else CallBase(Str(s), func, args)
  }

  /** `Vec`: `!array_index` (panicking out of range) and `len`. */
  function ListCall(items: seq<Value>, func: string, args: seq<Value>): Result<Value, Failure> {
    if func == OP_ARRAY_INDEX then
      var i :- AsIndex(args);
      if i < |items| then Ok(items[i])
      else Err(Panic(IndexOutOfBounds(|items|, i)))
    else if func == "len" then NullaryCall(args, Integer(|items|))
    else CallBase(List(items), func, args)
  }

  /** `Value::call`: each kind's own vocabulary, then `call_base`. */
  function Call(v: Value, func: string, args: seq<Value>, h: Host): Result<Value, Failure> {
    match v
    case Bool(b) =>
      if func == "to_string" then ToStringCall(args, BoolString(b)) else CallBase(v, func, args)
    case Char(c) =>
      if func == "to_string" then ToStringCall(args, [c]) else CallBase(v, func, args)
    case Integer(_) => CallBase(v, func, args)
    case Str(s) => StringCall(s, func, args, h)
    case Opt(o) =>
      if func == "?" then
        (match o
         case Some(x) => Ok(x)
         case None => Err(Error(UnwrapNone)))
      else CallBase(v, func, args)
    case List(items) => ListCall(items, func, args)
    case BuildInfo(b) =>
      if func == OP_FIELD_ACCESS then FieldCall(v, args)
      else if func == "to_string" then ToStringCall(args, C.BuildInfoString(b))
      else CallBase(v, func, args)
    case CrateInfo(c) =>
      if func == OP_FIELD_ACCESS then FieldCall(v, args)
      else if func == "to_string" then ToStringCall(args, C.CrateInfoString(c))
      else CallBase(v, func, args)
    case CompilerInfo(c) =>
      if func == OP_FIELD_ACCESS then FieldCall(v, args)
      else if func == "to_string" then
        var _ :- AsArguments0(args);
        var text :- CompilerInfoDisplay(c);
        Ok(Str(text))
      else CallBase(v, func, args)
    case CompilerChannel(c) =>
      if func == "to_string" then ToStringCall(args, C.CompilerChannelString(c)) else CallBase(v, func, args)
    case OptimizationLevel(o) =>
      if func == "to_string" then ToStringCall(args, C.OptimizationLevelString(o)) else CallBase(v, func, args)
    case VersionControl(vc) =>
      if func == "git" then NullaryCall(args, Opt(Some(GitInfo(C.GitOf(vc).value))))
      else if func == "to_string" then ToStringCall(args, C.VersionControlString(vc))
      else CallBase(v, func, args)
    case GitInfo(g) =>
      if func == OP_FIELD_ACCESS then FieldCall(v, args)
      else if func == "to_string" then ToStringCall(args, C.GitInfoString(g))
      else CallBase(v, func, args)
    case CpuInfo(c) =>
      if func == OP_FIELD_ACCESS then FieldCall(v, args)
      else if func == "to_string" then ToStringCall(args, h.cpuInfoString(c))
      else CallBase(v, func, args)
    case TargetInfo(t) =>
      if func == OP_FIELD_ACCESS then FieldCall(v, args)
      else if func == "to_string" then ToStringCall(args, h.targetInfoString(t))
      else CallBase(v, func, args)
    case Endianness(_) => CallBase(v, func, args)
    case Version(ver) =>
      if func == OP_FIELD_ACCESS then FieldCall(v, args)
      else if func == "to_string" then ToStringCall(args, C.VersionString(ver))
      else CallBase(v, func, args)
    case DateTime(d) =>
      if func == "format" then
        var pattern :- AsStringArgument(args);
        Ok(Str(h.dateTimeFormat(d, pattern)))
      else if func == "to_string" then ToStringCall(args, C.TimestampString(d))
      else CallBase(v, func, args)
    case NaiveDate(d) =>
      if func == "format" then
        var pattern :- AsStringArgument(args);
        Ok(Str(h.dateFormat(d, pattern)))
      else if func == "to_string" then ToStringCall(args, C.NaiveDateString(d))
      else CallBase(v, func, args)
  }

  // ---------------------------------------------------------------------------
  // Rendering

  function BoolString(b: bool): string {
    if b then "true" else "false"
  }

  /** `char::escape_debug`: the named escapes, ASCII graphic characters as themselves, the rest from the host. */
  function CharEscape(c: char, h: Host): string {
    if c == '\0' then "\\0"
    else if c == '\t' then "\\t"
    else if c == '\r' then "\\r"
    else if c == '\n' then "\\n"
    else if c == '\'' then "\\'"
    else if c == '\\' then "\\\\"
    else if ' ' <= c <= '~' then [c]
    else h.charEscape(c)
  }

  /** The separator `Vec`'s Default rendering writes before element `i` of `n`. */
  function ListSeparator(i: nat, n: nat): string {
    if i == 0 then "" else if i < n - 1 then ", " else " and "
  }

  /** The rendered elements joined as the rendering loop writes them: each preceded by its separator. */
  function NaturalJoin(parts: seq<string>): string {
    NaturalJoinPrefix(parts, |parts|)
  }

  function NaturalJoinPrefix(parts: seq<string>, k: nat): string
    requires k <= |parts|
  {
    if k == 0 then "" else NaturalJoinPrefix(parts, k - 1) + ListSeparator(k - 1, |parts|) + parts[k - 1]
  }

  /** Renders a value in one of the three modes; only the commit-id cut can fail. */
  function Format(v: Value, spec: Spec, h: Host): (r: Result<string, Failure>)
    ensures r.Err? ==> r.error.Panic?
    decreases v, 1
  {
    match spec
    case Default => FormatDefault(v, h)
    case Debug => FormatDebug(v, false, h)
    case DebugAlt => FormatDebug(v, true, h)
  }

  function FormatDebug(v: Value, alternate: bool, h: Host): (r: Result<string, Failure>)
    ensures r.Ok?
    decreases v, 0
  {
    match v
    case Bool(b) => Ok(BoolString(b))
    case Char(c) => Ok("'" + CharEscape(c, h) + "'")
    case Integer(i) => Ok(IntToString(i))
    case _ => Ok(h.debug(v, alternate))
  }

  function FormatDefault(v: Value, h: Host): (r: Result<string, Failure>)
    ensures r.Err? ==> r.error.Panic?
    decreases v, 0
  {
    match v
    case Bool(b) => Ok(BoolString(b))
    case Char(c) => Ok([c])
    case Integer(i) => Ok(IntToString(i))
    case Str(s) => Ok(s)
    case Opt(o) =>
      (match o
       case Some(x) => Format(x, Default, h)
       case None => Ok("None"))
    case List(items) =>
      var parts :- FormatAll(items, h);
      Ok(NaturalJoin(parts))
    case BuildInfo(b) => Ok(C.BuildInfoString(b))
    case CrateInfo(c) => Ok(C.CrateInfoString(c))
    case CompilerInfo(c) => CompilerInfoDisplay(c)
    case CompilerChannel(c) => Ok(C.CompilerChannelString(c))
    case OptimizationLevel(o) => Ok(C.OptimizationLevelString(o))
    case VersionControl(vc) => Ok(C.VersionControlString(vc))
    case GitInfo(g) => Ok(C.GitInfoString(g))
    case CpuInfo(c) => Ok(h.cpuInfoString(c))
    case TargetInfo(t) => Ok(h.targetInfoString(t))
    case Endianness(e) => Ok(h.endiannessString(e))
    case Version(ver) => Ok(C.VersionString(ver))
    case DateTime(d) => Ok(C.TimestampString(d))
    case NaiveDate(d) => Ok(C.NaiveDateString(d))
  }

  /** Every element in Default mode, stopping at the first failure. */
  function FormatAll(items: seq<Value>, h: Host): (r: Result<seq<string>, Failure>)
    ensures r.Ok? ==> |r.value| == |items|
    ensures r.Err? ==> r.error.Panic?
    decreases items, 2
  {
    if |items| == 0 then Ok([])
    else
      var first :- Format(items[0], Default, h);
      var rest :- FormatAll(items[1..], h);
      Ok([first] + rest)
  }
}
