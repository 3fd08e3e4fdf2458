/**
 What the value kinds promise about their operations: the vocabulary each
 kind answers, the agreement of `to_string` with the Default rendering, the
 record field tables, and the natural-language rendering of vectors.
 */
module ValueLaws {
  import opened Wrappers
  import opened Text
  import Types
  import C = Common
  import opened Values

  /** The operation names a kind handles itself; every other name goes to `call_base`. */
  function Vocabulary(v: Value): set<string> {
    match v
    case Bool(_) => {"to_string"}
    case Char(_) => {"to_string"}
    case Integer(_) => {}
    case Str(_) => {"is_empty", "len", "to_lowercase", "to_string", "to_uppercase", "trim", "trim_end", "trim_start"}
    case Opt(_) => {"?"}
    case List(_) => {OP_ARRAY_INDEX, "len"}
    case CompilerChannel(_) => {"to_string"}
    case OptimizationLevel(_) => {"to_string"}
    case VersionControl(_) => {"git", "to_string"}
    case Endianness(_) => {}
    case DateTime(_) => {"format", "to_string"}
    case NaiveDate(_) => {"format", "to_string"}
    case _ => {OP_FIELD_ACCESS, "to_string"}
  }

  /** The kinds whose `to_string` is their Default rendering. */
  predicate HasToString(v: Value) {
    !(v.Integer? || v.Opt? || v.List? || v.Endianness?)
  }

  /** A name outside a kind's vocabulary is answered by `call_base`, so it always fails. */
  lemma CallFallsThrough(v: Value, func: string, args: seq<Value>, h: Host)
    requires func !in Vocabulary(v)
    ensures Call(v, func, args, h) == CallBase(v, func, args)
    ensures Call(v, func, args, h).Err?
  {
  }

  /** `to_string` with no argument yields exactly the Default rendering, panic included. */
  lemma ToStringIsDefault(v: Value, h: Host)
    requires HasToString(v)
    ensures var f := Format(v, Default, h);
      Call(v, "to_string", [], h) == if f.Ok? then Ok(Str(f.value)) else Err(f.error)
  {
  }

  /** `to_string` with any argument fails with the zero-arity error. */
  lemma ToStringTakesNoArguments(v: Value, args: seq<Value>, h: Host)
    requires HasToString(v) && |args| > 0
    ensures Call(v, "to_string", args, h) == Err(Error(WrongArgumentCount(0)))
  {
  }

  /** A record kind answers `!field` for exactly the names of its field table. */
  lemma FieldAccess(v: Value, name: string, h: Host)
    requires FieldNames(v) != {}
    ensures Call(v, OP_FIELD_ACCESS, [Str(name)], h).Ok? <==> name in FieldNames(v)
    ensures name !in FieldNames(v) ==>
      Call(v, OP_FIELD_ACCESS, [Str(name)], h) == Err(Error(NoSuchField(name, TypeOf(v))))
  {
  }

  /**
   A compiler record whose ASCII commit id is shorter than nine bytes panics
   with std's out-of-bounds slicing message, quoting the whole id.
   */
  lemma ShortCommitPanics(c: C.CompilerInfo, id: string)
    requires c.commit_id == Some(id) && IsAscii(id) && |id| < 9
    ensures CompilerInfoDisplay(c) == Err(Panic("byte index 9 is out of bounds of `" + id + "`"))
  {
    AsciiUtf8Length(id);
    SlicePanicOutOfBounds(id, 9);
    NineOutOfBounds(id);
    var r := CompilerInfoDisplay(c);
    assert r.Err?;
  }

  lemma NineOutOfBounds(id: string)
    ensures "byte index " + NatToString(9) + " is out of bounds of `" + id + "`"
      == "byte index 9 is out of bounds of `" + id + "`"
  {
    assert NatToString(9) == "9";
  }

  /** The compiler record keeps its target triple to itself. */
  lemma TargetTripleHidden(c: C.CompilerInfo, h: Host)
    ensures Call(CompilerInfo(c), OP_FIELD_ACCESS, [Str("target_triple")], h)
      == Err(Error(NoSuchField("target_triple", Types.CompilerInfo)))
  {
    FieldAccess(CompilerInfo(c), "target_triple", h);
  }

  /** On a record kind, `!field` is the field-table lookup. */
  lemma FieldDispatch(v: Value, args: seq<Value>, h: Host)
    requires FieldNames(v) != {}
    ensures Call(v, OP_FIELD_ACCESS, args, h) == FieldCall(v, args)
  {
  }

  /** Fields of a record carry the record's own data. */
  lemma BuildInfoFields(b: C.BuildInfo, h: Host)
    ensures Call(BuildInfo(b), OP_FIELD_ACCESS, [Str("profile")], h) == Ok(Str(b.profile))
    ensures Call(BuildInfo(b), OP_FIELD_ACCESS, [Str("crate_info")], h) == Ok(CrateInfo(b.crate_info))
    ensures Call(BuildInfo(b), OP_FIELD_ACCESS, [Str("optimization_level")], h)
      == Ok(OptimizationLevel(b.optimization_level))
  {
    FieldDispatch(BuildInfo(b), [Str("profile")], h);
    FieldDispatch(BuildInfo(b), [Str("crate_info")], h);
    FieldDispatch(BuildInfo(b), [Str("optimization_level")], h);
  }

  lemma GitInfoFields(g: C.GitInfo, h: Host)
    ensures Call(GitInfo(g), OP_FIELD_ACCESS, [Str("dirty")], h) == Ok(Bool(g.dirty))
    ensures Call(GitInfo(g), OP_FIELD_ACCESS, [Str("branch")], h) == Ok(OptString(g.branch))
    ensures Call(GitInfo(g), OP_FIELD_ACCESS, [Str("tags")], h) == Ok(List(Strings(g.tags)))
  {
    FieldDispatch(GitInfo(g), [Str("dirty")], h);
    FieldDispatch(GitInfo(g), [Str("branch")], h);
    FieldDispatch(GitInfo(g), [Str("tags")], h);
  }

  lemma VersionFields(ver: C.Version, h: Host)
    ensures Call(Version(ver), OP_FIELD_ACCESS, [Str("major")], h) == Ok(Integer(ver.major))
    ensures Call(Version(ver), OP_FIELD_ACCESS, [Str("minor")], h) == Ok(Integer(ver.minor))
    ensures Call(Version(ver), OP_FIELD_ACCESS, [Str("patch")], h) == Ok(Integer(ver.patch))
    ensures Call(Version(ver), OP_FIELD_ACCESS, [Str("pre")], h) == Ok(Str(C.IdentifiersString(ver.pre)))
    ensures Call(Version(ver), OP_FIELD_ACCESS, [Str("build")], h) == Ok(Str(C.IdentifiersString(ver.build)))
  {
    FieldDispatch(Version(ver), [Str("major")], h);
    FieldDispatch(Version(ver), [Str("minor")], h);
    FieldDispatch(Version(ver), [Str("patch")], h);
    FieldDispatch(Version(ver), [Str("pre")], h);
    FieldDispatch(Version(ver), [Str("build")], h);
  }

  lemma CpuInfoFields(cpu: C.CpuInfo, h: Host)
    ensures Call(CpuInfo(cpu), OP_FIELD_ACCESS, [Str("pointer_width")], h) == Ok(Integer(cpu.pointer_width))
    ensures Call(CpuInfo(cpu), OP_FIELD_ACCESS, [Str("endianness")], h) == Ok(Endianness(cpu.endianness))
  {
    FieldDispatch(CpuInfo(cpu), [Str("pointer_width")], h);
    FieldDispatch(CpuInfo(cpu), [Str("endianness")], h);
  }

  /** A field access whose operand is not a single string panics before any table lookup. */
  lemma FieldOperandPanics(v: Value, args: seq<Value>, h: Host)
    requires FieldNames(v) != {} && !(|args| == 1 && args[0].Str?)
    ensures Call(v, OP_FIELD_ACCESS, args, h).Err? && Call(v, OP_FIELD_ACCESS, args, h).error.Panic?
  {
    FieldDispatch(v, args, h);
  }

  /** `bool` renders the same in all three modes, and `to_string` agrees. */
  lemma BoolRendering(b: bool, h: Host)
    ensures Format(Bool(b), Default, h) == Ok(if b then "true" else "false")
    ensures Format(Bool(b), Debug, h) == Format(Bool(b), Default, h)
    ensures Format(Bool(b), DebugAlt, h) == Format(Bool(b), Default, h)
    ensures Call(Bool(b), "to_string", [], h) == Ok(Str(if b then "true" else "false"))
    ensures TypeOf(Bool(b)) == Types.Bool
  {
  }

  /** A `char` renders as itself by default and quoted in both Debug modes. */
  lemma CharRendering(c: char, h: Host)
    requires ' ' <= c <= '~' && c != '\'' && c != '\\'
    ensures Format(Char(c), Default, h) == Ok([c])
    ensures Format(Char(c), Debug, h) == Ok(['\'', c, '\''])
    ensures Format(Char(c), DebugAlt, h) == Ok(['\'', c, '\''])
    ensures Call(Char(c), "to_string", [], h) == Ok(Str([c]))
  {
    assert CharEscape(c, h) == [c];
    assert "'" + [c] + "'" == ['\'', c, '\''];
  }

  lemma CharExample(h: Host)
    ensures Format(Char('a'), Debug, h) == Ok("'a'")
    ensures Format(Char('a'), Default, h) == Ok("a")
  {
    CharRendering('a', h);
  }

  /** The string methods: emptiness, UTF-8 length, identity, and trimming. */
  lemma StringMethods(s: string, h: Host)
    ensures Call(Str(s), "is_empty", [], h) == Ok(Bool(|s| == 0))
    ensures Call(Str(s), "len", [], h) == Ok(Integer(Utf8Length(s)))
    ensures IsAscii(s) ==> Call(Str(s), "len", [], h) == Ok(Integer(|s|))
    ensures Call(Str(s), "to_string", [], h) == Ok(Str(s))
    ensures Format(Str(s), Default, h) == Ok(s)
    ensures Call(Str(s), "trim", [], h) == Ok(Str(TrimStart(TrimEnd(s))))
  {
    StringCallFacts(s, h);
    StringTrim(s, h);
    StringFormatDefault(s, h);
    if IsAscii(s) {
      AsciiUtf8Length(s);
    }
  }

  lemma StringFormatDefault(s: string, h: Host)
    ensures Format(Str(s), Default, h) == Ok(s)
  {
    assert Format(Str(s), Default, h) == FormatDefault(Str(s), h);
  }

  /** Trimming through the method vocabulary leaves no edge whitespace and is idempotent. */
  lemma StringTrimIdempotent(s: string, h: Host)
    ensures var t := Call(Str(s), "trim", [], h);
      t.Ok? && t.value.Str?
      && (|t.value.s| == 0 || (!IsWhitespace(t.value.s[0]) && !IsWhitespace(t.value.s[|t.value.s| - 1])))
      && Call(t.value, "trim", [], h) == t
  {
    TrimProperties(s);
    StringTrim(s, h);
    StringTrim(Trim(s), h);
  }

  lemma StringTrim(s: string, h: Host)
    ensures Call(Str(s), "trim", [], h) == Ok(Str(Trim(s)))
  {
    StringCallTrim(s, h);
    CallOnString(s, "trim", [], h);
  }

  lemma CallOnString(s: string, func: string, args: seq<Value>, h: Host)
    ensures Call(Str(s), func, args, h) == StringCall(s, func, args, h)
  {
  }

  lemma StringCallFacts(s: string, h: Host)
    ensures Call(Str(s), "is_empty", [], h) == Ok(Bool(|s| == 0))
    ensures Call(Str(s), "len", [], h) == Ok(Integer(Utf8Length(s)))
    ensures Call(Str(s), "to_string", [], h) == Ok(Str(s))
  {
    CallOnString(s, "is_empty", [], h);
    CallOnString(s, "len", [], h);
    CallOnString(s, "to_string", [], h);
    StringCallBasics(s, h);
  }

  lemma StringCallBasics(s: string, h: Host)
    ensures StringCall(s, "is_empty", [], h) == Ok(Bool(|s| == 0))
    ensures StringCall(s, "len", [], h) == Ok(Integer(Utf8Length(s)))
    ensures StringCall(s, "to_string", [], h) == Ok(Str(s))
  {
    StringCallIsEmpty(s, h);
    StringCallLen(s, h);
    StringCallToString(s, h);
  }

  lemma StringCallIsEmpty(s: string, h: Host)
    ensures StringCall(s, "is_empty", [], h) == Ok(Bool(|s| == 0))
  {
    var e := "is_empty";
    assert StringCall(s, e, [], h) == NullaryCall([], Bool(|s| == 0));
  }

  lemma StringCallLen(s: string, h: Host)
    ensures StringCall(s, "len", [], h) == Ok(Integer(Utf8Length(s)))
  {
    var l := "len";
    assert l != "is_empty";
    assert StringCall(s, l, [], h) == NullaryCall([], Integer(Utf8Length(s)));
  }

  lemma StringCallToString(s: string, h: Host)
    ensures StringCall(s, "to_string", [], h) == Ok(Str(s))
  {
    var t := "to_string";
    assert t != "is_empty" && t != "len" && t != "to_lowercase";
  }

  lemma StringCallTrim(s: string, h: Host)
    ensures StringCall(s, "trim", [], h) == Ok(Str(Trim(s)))
  {
    var f := "trim";
    assert |f| == 4 && f != "is_empty" && f != "len" && f != "to_lowercase" && f != "to_string" && f != "to_uppercase";
    assert StringCall(s, f, [], h) == NullaryCall([], Str(Trim(s)));
  }

  /** Every string method refuses arguments. */
  lemma StringMethodsTakeNoArguments(s: string, func: string, args: seq<Value>, h: Host)
    requires func in Vocabulary(Str(s)) && |args| > 0
    ensures Call(Str(s), func, args, h) == Err(Error(WrongArgumentCount(0)))
  {
    CallOnString(s, func, args, h);
  }

  /** `?` on an option: the content, or the unwrap error. */
  lemma OptionUnwrap(o: Option<Value>, args: seq<Value>, h: Host)
    ensures o.Some? ==> Call(Opt(o), "?", args, h) == Ok(o.value)
    ensures o.None? ==> Call(Opt(o), "?", args, h) == Err(Error(UnwrapNone))
    ensures Format(Opt(None), Default, h) == Ok("None")
    ensures o.Some? ==> Format(Opt(o), Default, h) == Format(o.value, Default, h)
  {
  }

  /** A vector indexes, counts, and reports the `Option` tag; no vector holds more than `usize::MAX` elements. */
  lemma ListOperations(items: seq<Value>, i: int, h: Host)
    requires |items| <= USIZE_MAX
    ensures Call(List(items), "len", [], h) == Ok(Integer(|items|))
    ensures 0 <= i < |items| ==> Call(List(items), OP_ARRAY_INDEX, [Integer(i)], h) == Ok(items[i])
    ensures !(0 <= i < |items|) ==>
      Call(List(items), OP_ARRAY_INDEX, [Integer(i)], h).Err?
      && Call(List(items), OP_ARRAY_INDEX, [Integer(i)], h).error.Panic?
    ensures |items| <= i <= USIZE_MAX ==>
      Call(List(items), OP_ARRAY_INDEX, [Integer(i)], h) == Err(Panic(IndexOutOfBounds(|items|, i)))
    ensures TypeOf(List(items)) == Types.Type.Option
  {
  }

  /** An index that is not an integer panics instead of returning an error. */
  lemma ListIndexNotInteger(items: seq<Value>, index: Value, h: Host)
    requires !index.Integer?
    ensures Call(List(items), OP_ARRAY_INDEX, [index], h) == Err(Panic("The array index must be an integer."))
  {
  }

  // ---------------------------------------------------------------------------
  // The natural-language list

  lemma {:induction false} JoinSnoc(xs: seq<string>, x: string, sep: string)
    requires |xs| >= 1
    ensures Join(xs + [x], sep) == Join(xs, sep) + sep + x
  {
    if |xs| == 1 {
      assert (xs + [x])[1..] == [x];
    } else {
      assert (xs + [x])[1..] == xs[1..] + [x];
      JoinSnoc(xs[1..], x, sep);
    }
  }

  /** Before the last element every separator is `", "`, so the prefix is a plain join. */
  lemma {:induction false} NaturalJoinPrefixIsJoin(parts: seq<string>, k: nat)
    requires 1 <= k < |parts|
    ensures NaturalJoinPrefix(parts, k) == Join(parts[..k], ", ")
  {
    if k == 1 {
      assert NaturalJoinPrefix(parts, 0) == "";
      assert "" + "" + parts[0] == parts[0];
    } else {
      NaturalJoinPrefixIsJoin(parts, k - 1);
      assert parts[..k] == parts[..k - 1] + [parts[k - 1]];
      JoinSnoc(parts[..k - 1], parts[k - 1], ", ");
    }
  }

  /**
   The rendering of `n` elements: nothing, the element, or the first `n - 1`
   joined by `", "` followed by `" and "` and the last one.
   */
  lemma NaturalJoinShape(parts: seq<string>)
    ensures |parts| == 0 ==> NaturalJoin(parts) == ""
    ensures |parts| == 1 ==> NaturalJoin(parts) == parts[0]
    ensures |parts| >= 2 ==>
      NaturalJoin(parts) == Join(parts[..|parts| - 1], ", ") + " and " + parts[|parts| - 1]
  {
    var n := |parts|;
    if n == 1 {
      assert NaturalJoinPrefix(parts, 0) == "";
      assert "" + "" + parts[0] == parts[0];
    } else if n >= 2 {
      NaturalJoinPrefixIsJoin(parts, n - 1);
    }
  }

  lemma NaturalJoinExamples()
    ensures NaturalJoin([]) == ""
    ensures NaturalJoin(["a"]) == "a"
    ensures NaturalJoin(["a", "b"]) == "a and b"
    ensures NaturalJoin(["a", "b", "c"]) == "a, b and c"
  {
    NaturalJoinShape([]);
    NaturalJoinShape(["a"]);
    NaturalJoinShape(["a", "b"]);
    assert ["a", "b"][..1] == ["a"];
    NaturalJoinShape(["a", "b", "c"]);
    assert ["a", "b", "c"][..2] == ["a", "b"];
    assert ["a", "b"][1..] == ["b"];
  }

  /** Rendering every element succeeds exactly when each element renders, and keeps the order. */
  lemma {:induction false} FormatAllElementwise(items: seq<Value>, h: Host)
    ensures FormatAll(items, h).Ok? <==> forall i :: 0 <= i < |items| ==> Format(items[i], Default, h).Ok?
    ensures FormatAll(items, h).Ok? ==>
      forall i :: 0 <= i < |items| ==> FormatAll(items, h).value[i] == Format(items[i], Default, h).value
  {
    if |items| > 0 {
      FormatAllElementwise(items[1..], h);
      assert forall i :: 1 <= i < |items| ==> items[i] == items[1..][i - 1];
    }
  }

  /** The Default rendering of a vector of strings lists them in natural language. */
  lemma ListOfStrings(ss: seq<string>, h: Host)
    ensures Format(List(Strings(ss)), Default, h) == Ok(NaturalJoin(ss))
  {
    var items := Strings(ss);
    FormatAllElementwise(items, h);
    assert forall i :: 0 <= i < |items| ==> Format(items[i], Default, h) == Ok(ss[i]);
    assert FormatAll(items, h).value == ss;
  }

  /**
   Version control answers `git()` with its Git record, wrapped in `Some`,
   renders exactly as that record, and has no fields.
   */
  lemma VersionControlBehaviour(vc: C.VersionControl, args: seq<Value>, h: Host)
    ensures |args| == 0 ==> Call(VersionControl(vc), "git", args, h) == Ok(Opt(Some(GitInfo(vc.info))))
    ensures |args| > 0 ==> Call(VersionControl(vc), "git", args, h) == Err(Error(WrongArgumentCount(0)))
    ensures Format(VersionControl(vc), Default, h) == Format(GitInfo(vc.info), Default, h)
    ensures Call(VersionControl(vc), "to_string", [], h) == Call(GitInfo(vc.info), "to_string", [], h)
    ensures Call(VersionControl(vc), OP_FIELD_ACCESS, args, h).Err?
  {
  }
}
