/**
 The earlier, single-file revision of the value model. It differs from the
 current one in which kinds exist (semantic-version identifiers, no
 characters, no optimisation levels or target records), in what the records
 expose, and in the name of the index operator, which here is the one the
 evaluator sends.
 */
module LegacyValues {
  import opened Wrappers
  import opened Text
  import Types
  import C = Common
  import Values

  datatype Value =
    | Bool(b: bool)
    | Integer(i: int)
    | Str(s: string)
    | Opt(opt: Option<Value>)
    | List(items: seq<Value>)
    | BuildInfo(build: C.BuildInfo)
    | CrateInfo(crate: C.CrateInfo)
    | CompilerInfo(compiler: C.CompilerInfo)
    | CompilerChannel(channel: C.CompilerChannel)
    | VersionControl(vcs: C.VersionControl)
    | GitInfo(git: C.GitInfo)
    | DateTime(timestamp: C.DateTime)
    | NaiveDate(date: C.NaiveDate)
    | Version(version: C.Version)
    | Identifier(id: C.Identifier)

  datatype Spec = Default | Debug | DebugAlt

  datatype ErrorKind =
    | NoSuchField(field: string, ty: Types.Type)
    | NotTupleIndexable(ty: Types.Type)
    | NotIndexable(ty: Types.Type)
    | NotCallable(func: string, args: seq<Value>, ty: Types.Type)
    | WrongArgumentCount(count: nat)
    | WrongArgumentType(position: nat, typeName: string)
    | UnwrapNone

  datatype Failure = Error(kind: ErrorKind) | Panic(reason: string)

  /** The derived `Debug` layouts (`true` selects `{:#?}`), which the model does not describe. */
  type DebugLayout = (Value, bool) -> string

  const OP_FIELD_ACCESS: string := "!field"
  const OP_TUPLE_INDEX: string := "!tuple_index"
  const OP_INDEX: string := "::std::ops::Index::index"
  const USIZE_MAX: int := 0xFFFF_FFFF_FFFF_FFFF

  function TypeOf(v: Value): (t: Types.Type)
    ensures v.List? ==> t == Types.Type.Option
    ensures (v.Identifier? || v.Version?) ==> t == Types.Version
    ensures (v.DateTime? || v.NaiveDate?) ==> t == Types.DateTimeUtc
  {
    match v
    case Bool(_) => Types.Bool
    case Integer(_) => Types.Integer
    case Str(_) => Types.String
    case Opt(_) => Types.Type.Option
    case List(_) => Types.Type.Option
    case BuildInfo(_) => Types.BuildInfo
    case CrateInfo(_) => Types.CrateInfo
    case CompilerInfo(_) => Types.CompilerInfo
    case CompilerChannel(_) => Types.CompilerChannel
    case VersionControl(_) => Types.VersionControl
    case GitInfo(_) => Types.GitInfo
    case DateTime(_) => Types.DateTimeUtc
    case NaiveDate(_) => Types.DateTimeUtc
    case Version(_) => Types.Version
    case Identifier(_) => Types.Version
  }

  // ---------------------------------------------------------------------------
  // Argument helpers

  function AsFieldName(args: seq<Value>): (r: Result<string, Failure>)
    ensures r.Ok? <==> |args| == 1 && args[0].Str?
    ensures r.Ok? ==> r.value == args[0].s
    ensures r.Err? ==> r.error.Panic?
  {
    if |args| != 1 then Err(Panic("Accessing a field must have exactly one operand (the field name)"))
    else if !args[0].Str? then Err(Panic("The field name must be a string when accessing a field."))
    else Ok(args[0].s)
  }

  function AsIndex(args: seq<Value>): (r: Result<nat, Failure>)
    ensures r.Ok? <==> |args| == 1 && args[0].Integer? && 0 <= args[0].i <= USIZE_MAX
    ensures r.Ok? ==> r.value == args[0].i
    ensures r.Err? ==> r.error.Panic?
  {
    if |args| != 1 then Err(Panic("Accessing a field must have exactly one operand (the field name)"))
    else if !args[0].Integer? then Err(Panic("The array index must be an integer."))
    else if !(0 <= args[0].i <= USIZE_MAX) then Err(Panic("The array index does not fit into the type usize."))
    else Ok(args[0].i as nat)
  }

  function AsArguments0(args: seq<Value>): (r: Result<(), Failure>)
    ensures r.Ok? <==> |args| == 0
    ensures r.Err? ==> r.error == Error(WrongArgumentCount(0))
  {
    if |args| == 0 then Ok(()) else Err(Error(WrongArgumentCount(0)))
  }

  /** `as_arguments_1::<T>`: exactly one argument that `cast` accepts. */
  function AsArguments1<T>(args: seq<Value>, cast: Value -> Option<T>, typeName: string): (r: Result<T, Failure>)
    ensures r.Ok? <==> |args| == 1 && cast(args[0]).Some?
    ensures r.Ok? ==> r.value == cast(args[0]).value
    ensures |args| != 1 ==> r == Err(Error(WrongArgumentCount(1)))
  {
    if |args| != 1 then Err(Error(WrongArgumentCount(1)))
    else match cast(args[0])
      case None => Err(Error(WrongArgumentType(1, typeName)))
      case Some(x) => Ok(x)
  }

  /**
   `as_arguments_2::<T1, T2>` as written: the count error claims one argument
   is expected, and the type error for the second argument names the first
   argument's type.
   */
  function AsArguments2AsWritten<T1, T2>(args: seq<Value>, cast1: Value -> Option<T1>, name1: string,
                                         cast2: Value -> Option<T2>, name2: string)
    : (r: Result<(T1, T2), Failure>)
    ensures r.Ok? <==> |args| == 2 && cast1(args[0]).Some? && cast2(args[1]).Some?
    ensures r.Ok? ==> r.value == (cast1(args[0]).value, cast2(args[1]).value)
  {
    if |args| != 2 then Err(Error(WrongArgumentCount(1)))
    else
      var a :- match cast1(args[0])
        case None => Err(Error(WrongArgumentType(1, name1)))
        case Some(x) => Ok(x);
      var b :- match cast2(args[1])
        case None => Err(Error(WrongArgumentType(2, name1)))
        case Some(x) => Ok(x);
      Ok((a, b))
  }

  /** `as_arguments_2` with the messages it evidently means: two arguments, and the second's own type. */
  function AsArguments2<T1, T2>(args: seq<Value>, cast1: Value -> Option<T1>, name1: string,
                                cast2: Value -> Option<T2>, name2: string)
    : (r: Result<(T1, T2), Failure>)
    ensures r.Ok? <==> |args| == 2 && cast1(args[0]).Some? && cast2(args[1]).Some?
    ensures r.Ok? ==> r.value == (cast1(args[0]).value, cast2(args[1]).value)
    ensures |args| != 2 ==> r == Err(Error(WrongArgumentCount(2)))
    ensures |args| == 2 && cast1(args[0]).None? ==> r == Err(Error(WrongArgumentType(1, name1)))
    ensures |args| == 2 && cast1(args[0]).Some? && cast2(args[1]).None? ==>
      r == Err(Error(WrongArgumentType(2, name2)))
  {
    if |args| != 2 then Err(Error(WrongArgumentCount(2)))
    else
      var a :- match cast1(args[0])
        case None => Err(Error(WrongArgumentType(1, name1)))
        case Some(x) => Ok(x);
      var b :- match cast2(args[1])
        case None => Err(Error(WrongArgumentType(2, name2)))
        case Some(x) => Ok(x);
      Ok((a, b))
  }

  /** The count error of the written helper on three arguments says one is expected. */
  lemma AsArguments2CountMessage<T1, T2>(args: seq<Value>, cast1: Value -> Option<T1>, name1: string,
                                         cast2: Value -> Option<T2>, name2: string)
    requires |args| != 2
    ensures AsArguments2AsWritten(args, cast1, name1, cast2, name2) == Err(Error(WrongArgumentCount(1)))
    ensures AsArguments2(args, cast1, name1, cast2, name2) == Err(Error(WrongArgumentCount(2)))
  {
  }

  /** A second argument of the wrong type is reported under the first argument's type name. */
  lemma AsArguments2TypeMessage<T1, T2>(args: seq<Value>, cast1: Value -> Option<T1>, name1: string,
                                        cast2: Value -> Option<T2>, name2: string)
    requires |args| == 2 && cast1(args[0]).Some? && cast2(args[1]).None?
    ensures AsArguments2AsWritten(args, cast1, name1, cast2, name2) == Err(Error(WrongArgumentType(2, name1)))
    ensures AsArguments2(args, cast1, name1, cast2, name2) == Err(Error(WrongArgumentType(2, name2)))
  {
  }

  // ---------------------------------------------------------------------------
  // Operations

  function CallBase(v: Value, func: string, args: seq<Value>): (r: Result<Value, Failure>)
    ensures r.Err?
    ensures func == OP_FIELD_ACCESS && |args| == 1 && args[0].Str? ==>
      r.error == Error(NoSuchField(args[0].s, TypeOf(v)))
    ensures func == OP_TUPLE_INDEX ==> r.error == Error(NotTupleIndexable(TypeOf(v)))
    ensures func == OP_INDEX ==> r.error == Error(NotIndexable(TypeOf(v)))
    ensures func !in {OP_FIELD_ACCESS, OP_TUPLE_INDEX, OP_INDEX} ==>
      r.error == Error(NotCallable(func, args, TypeOf(v)))
  {
    if func == OP_FIELD_ACCESS then
      var field :- AsFieldName(args);
      Err(Error(NoSuchField(field, TypeOf(v))))
    else if func == OP_TUPLE_INDEX then Err(Error(NotTupleIndexable(TypeOf(v))))
    else if func == OP_INDEX then Err(Error(NotIndexable(TypeOf(v))))
    else Err(Error(NotCallable(func, args, TypeOf(v))))
  }

  function Strings(ss: seq<string>): (r: seq<Value>)
    ensures |r| == |ss| && forall i :: 0 <= i < |ss| ==> r[i] == Str(ss[i])
  {
    if |ss| == 0 then [] else [Str(ss[0])] + Strings(ss[1..])
  }

  function Identifiers(ids: seq<C.Identifier>): (r: seq<Value>)
    ensures |r| == |ids| && forall i :: 0 <= i < |ids| ==> r[i] == Identifier(ids[i])
  {
    if |ids| == 0 then [] else [Identifier(ids[0])] + Identifiers(ids[1..])
  }

  function OptString(o: Option<string>): Value {
    match o
    case None => Opt(None)
    case Some(s) => Opt(Some(Str(s)))
  }

  function FieldNames(v: Value): set<string> {
    match v
    case BuildInfo(_) => {"timestamp", "profile", "crate_info", "compiler", "version_control"}
    case CrateInfo(_) => {"name", "version", "authors"}
    case CompilerInfo(_) => {"version", "commit_id", "commit_date", "channel", "host_triple", "target_triple"}
    case GitInfo(_) => {"commit_id", "commit_short_id", "commit_timestamp", "dirty", "branch", "tags"}
    case Version(_) => {"major", "minor", "patch", "pre", "build"}
    case _ => {}
  }

  function Field(v: Value, name: string): (r: Option<Value>)
    ensures r.Some? <==> name in FieldNames(v)
  {
    match v
    case BuildInfo(b) =>
      if name == "timestamp" then Some(DateTime(b.timestamp))
      else if name == "profile" then Some(Str(b.profile))
      else if name == "crate_info" then Some(CrateInfo(b.crate_info))
      else if name == "compiler" then Some(CompilerInfo(b.compiler))
      else if name == "version_control" then
        Some(Opt(if b.version_control.Some? then Some(VersionControl(b.version_control.value)) else None))
      else None
    case CrateInfo(c) =>
      if name == "name" then Some(Str(c.name))
      else if name == "version" then Some(Version(c.version))
      else if name == "authors" then Some(List(Strings(c.authors)))
      else None
    case CompilerInfo(c) =>
      if name == "version" then Some(Version(c.version))
      else if name == "commit_id" then Some(OptString(c.commit_id))
      else if name == "commit_date" then
        Some(Opt(if c.commit_date.Some? then Some(NaiveDate(c.commit_date.value)) else None))
      else if name == "channel" then Some(CompilerChannel(c.channel))
      else if name == "host_triple" then Some(Str(c.host_triple))
      else if name == "target_triple" then Some(Str(c.target_triple))
      else None
    case GitInfo(g) =>
      if name == "commit_id" then Some(Str(g.commit_id))
      else if name == "commit_short_id" then Some(Str(g.commit_short_id))
      else if name == "commit_timestamp" then Some(DateTime(g.commit_timestamp))
      else if name == "dirty" then Some(Bool(g.dirty))
      else if name == "branch" then Some(OptString(g.branch))
      else if name == "tags" then Some(List(Strings(g.tags)))
      else None
    case Version(ver) =>
      if name == "major" then Some(Integer(ver.major))
      else if name == "minor" then Some(Integer(ver.minor))
      else if name == "patch" then Some(Integer(ver.patch))
      else if name == "pre" then Some(List(Identifiers(ver.pre)))
      else if name == "build" then Some(List(Identifiers(ver.build)))
      else None
    case _ => None
  }

  function FieldCall(v: Value, args: seq<Value>): Result<Value, Failure> {
    var name :- AsFieldName(args);
    match Field(v, name)
    case Some(x) => Ok(x)
    case None => CallBase(v, OP_FIELD_ACCESS, args)
  }

  function ToStringCall(args: seq<Value>, text: string): (r: Result<Value, Failure>)
    ensures r.Ok? <==> |args| == 0
    ensures r.Ok? ==> r.value == Str(text)
  {
    var _ :- AsArguments0(args);
    Ok(Str(text))
  }

  function CompilerInfoDisplay(c: C.CompilerInfo): (r: Result<string, Failure>)
    ensures r.Ok? <==> C.CompilerInfoString(c).Some?
    ensures r.Ok? ==> r.value == C.CompilerInfoString(c).value
    ensures r.Err? ==>
      c.commit_id.Some? && BytePrefix(c.commit_id.value, 9).None?
      && r.error == Panic(SlicePanic(c.commit_id.value, 9))
  {
    match C.CompilerInfoString(c)
    case Some(s) => Ok(s)
    case None => Err(Panic(SlicePanic(c.commit_id.value, 9)))
  }

  /** The display text behind each kind's `to_string`; `None` for the kinds without one. */
  function ToStringText(v: Value): Option<Result<string, Failure>> {
    match v
    case Bool(b) => Some(Ok(if b then "true" else "false"))
    case Integer(i) => Some(Ok(IntToString(i)))
    case Str(s) => Some(Ok(s))
    case BuildInfo(b) => Some(Ok(C.BuildInfoString(b)))
    case CrateInfo(c) => Some(Ok(C.CrateInfoString(c)))
    case CompilerInfo(c) => Some(CompilerInfoDisplay(c))
    case CompilerChannel(c) => Some(Ok(C.CompilerChannelString(c)))
    case VersionControl(vc) => Some(Ok(C.VersionControlString(vc)))
    case GitInfo(g) => Some(Ok(C.GitInfoString(g)))
    case NaiveDate(d) => Some(Ok(C.NaiveDateString(d)))
    case Version(ver) => Some(Ok(C.VersionString(ver)))
    case Identifier(id) => Some(Ok(C.IdentifierString(id)))
    case _ => None
  }

  function Call(v: Value, func: string, args: seq<Value>): (r: Result<Value, Failure>)
    ensures v.DateTime? ==> r == CallBase(v, func, args)
  {
    match v
    case Opt(o) =>
      if func == "?" then
        (match o
         case Some(x) => Ok(x)
         case None => Err(Error(UnwrapNone)))
      else CallBase(v, func, args)
    case List(items) =>
      if func == OP_INDEX then
        var i :- AsIndex(args);
        if i < |items| then Ok(items[i]) else Err(Panic(IndexOutOfBounds(|items|, i)))
      else if func == "len" then
        var _ :- AsArguments0(args);
        Ok(Integer(|items|))
      else CallBase(v, func, args)
    case VersionControl(vc) =>
      if func == "git" then
        var _ :- AsArguments0(args);
        Ok(Opt(Some(GitInfo(C.GitOf(vc).value))))
      else if func == "to_string" then ToStringCall(args, C.VersionControlString(vc))
      else CallBase(v, func, args)
    case DateTime(_) => CallBase(v, func, args)
    case _ =>
      if func == OP_FIELD_ACCESS && FieldNames(v) != {} then FieldCall(v, args)
      else if func == "to_string" && ToStringText(v).Some? then
        var _ :- AsArguments0(args);
        var text :- ToStringText(v).value;
        Ok(Str(text))
      else CallBase(v, func, args)
  }

  // ---------------------------------------------------------------------------
  // Rendering

  function Format(v: Value, spec: Spec, debug: DebugLayout): (r: Result<string, Failure>)
    ensures r.Err? ==> r.error.Panic?
    ensures spec != Default ==> r == Ok(debug(v, spec == DebugAlt))
    decreases v, 2
  {
    match spec
    case Debug => Ok(debug(v, false))
    case DebugAlt => Ok(debug(v, true))
    case Default =>
      match v
      case Opt(o) =>
        (match o
         case Some(x) => Format(x, Default, debug)
         case None => Ok("None"))
      case List(items) => FormatList(items, 0, debug)
      case DateTime(d) => Ok(C.TimestampString(d))
      case _ => ToStringText(v).value
  }

  /** The elements from `i` on, each after its separator, as the rendering loop writes them. */
  function FormatList(items: seq<Value>, i: nat, debug: DebugLayout): (r: Result<string, Failure>)
    requires i <= |items|
    ensures r.Err? ==> r.error.Panic?
    decreases items, 1, |items| - i
  {
    if i == |items| then Ok("")
    else
      var first :- Format(items[i], Default, debug);
      var rest :- FormatList(items, i + 1, debug);
      Ok(Values.ListSeparator(i, |items|) + first + rest)
  }
}
