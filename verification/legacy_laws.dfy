/**
 What the earlier value model promises, and how it lines up with the
 evaluator and with the current value model.
 */
module LegacyLaws {
  import opened Wrappers
  import opened Text
  import opened LegacyValues
  import Values
  import Eval
  import ValueLaws
  import C = Common

  /** Every kind with a display text answers `to_string` with it, and only without arguments. */
  lemma ToStringTakesNoArguments(v: Value, args: seq<Value>)
    requires ToStringText(v).Some? && ToStringText(v).value.Ok?
    ensures |args| == 0 ==> Call(v, "to_string", args) == Ok(Str(ToStringText(v).value.value))
    ensures |args| > 0 ==> Call(v, "to_string", args) == Err(Error(WrongArgumentCount(0)))
  {
  }

  /** `?` unwraps a present value and fails on an absent one, which renders as `None`. */
  lemma OptionBehaviour(o: Option<Value>, debug: DebugLayout)
    ensures o.Some? ==> Call(Opt(o), "?", []) == Ok(o.value)
    ensures o.None? ==> Call(Opt(o), "?", []) == Err(Error(UnwrapNone))
    ensures o.None? ==> Format(Opt(o), Default, debug) == Ok("None")
    ensures o.Some? ==> Format(Opt(o), Default, debug) == Format(o.value, Default, debug)
  {
  }

  /**
   The index operator is the very name the evaluator sends: an index in
   range yields the element, one beyond the end panics, and `len` counts.
   */
  lemma ListOperations(items: seq<Value>, i: nat)
    requires |items| <= USIZE_MAX
    ensures OP_INDEX == Eval.INDEX_AS_WRITTEN
    ensures i < |items| ==> Call(List(items), OP_INDEX, [Integer(i)]) == Ok(items[i])
    ensures i >= |items| && i <= USIZE_MAX ==>
      Call(List(items), OP_INDEX, [Integer(i)]) == Err(Panic(IndexOutOfBounds(|items|, i)))
    ensures Call(List(items), "len", []) == Ok(Integer(|items|))
  {
  }

  /** In this revision the crate record exposes its name, version and authors, and nothing else. */
  lemma CrateFields(c: C.CrateInfo, name: string)
    ensures Call(CrateInfo(c), OP_FIELD_ACCESS, [Str(name)]).Ok? <==> name in {"name", "version", "authors"}
    ensures name == "authors" ==> Call(CrateInfo(c), OP_FIELD_ACCESS, [Str(name)]) == Ok(List(Strings(c.authors)))
    ensures name !in {"name", "version", "authors"} ==>
      Call(CrateInfo(c), OP_FIELD_ACCESS, [Str(name)]) == Err(Error(NoSuchField(name, TypeOf(CrateInfo(c)))))
  {
    var v := CrateInfo(c);
    assert Call(v, OP_FIELD_ACCESS, [Str(name)]) == FieldCall(v, [Str(name)]);
  }

  /** Timestamps answer no operation at all; their Default rendering is `%Y-%m-%d %H:%M:%SZ`. */
  lemma DateTimeBehaviour(d: C.DateTime, func: string, args: seq<Value>, debug: DebugLayout)
    ensures Call(DateTime(d), func, args).Err?
    ensures Format(DateTime(d), Default, debug) == Ok(C.TimestampString(d))
  {
    DateTimeCalls(d, func, args);
    DateTimeFormat(d, debug);
  }

  lemma DateTimeCalls(d: C.DateTime, func: string, args: seq<Value>)
    ensures Call(DateTime(d), func, args).Err?
  {
    assert Call(DateTime(d), func, args) == CallBase(DateTime(d), func, args);
  }

  lemma DateTimeFormat(d: C.DateTime, debug: DebugLayout)
    ensures Format(DateTime(d), Default, debug) == Ok(C.TimestampString(d))
  {
  }

  lemma StringRendersItself(s: string, debug: DebugLayout)
    ensures Format(Str(s), Default, debug) == Ok(s)
  {
  }

  lemma FormatListStep(items: seq<Value>, i: nat, text: string, debug: DebugLayout)
    requires i < |items| && Format(items[i], Default, debug) == Ok(text)
    requires FormatList(items, i + 1, debug).Ok?
    ensures FormatList(items, i, debug)
      == Ok(Values.ListSeparator(i, |items|) + text + FormatList(items, i + 1, debug).value)
  {
  }

  lemma {:induction false} FormatListStrings(ss: seq<string>, i: nat, debug: DebugLayout)
    requires i <= |ss|
    ensures FormatList(Strings(ss), i, debug).Ok?
    ensures Values.NaturalJoinPrefix(ss, i) + FormatList(Strings(ss), i, debug).value == Values.NaturalJoin(ss)
    decreases |ss| - i
  {
    var items := Strings(ss);
    if i == |ss| {
      assert Values.NaturalJoinPrefix(ss, i) + "" == Values.NaturalJoin(ss);
    } else {
      FormatListStrings(ss, i + 1, debug);
      assert items[i] == Str(ss[i]) && |items| == |ss|;
      StringRendersItself(ss[i], debug);
      FormatListStep(items, i, ss[i], debug);
      JoinStep(ss, i, FormatList(items, i + 1, debug).value);
    }
  }

  lemma JoinStep(ss: seq<string>, i: nat, rest: string)
    requires i < |ss| && Values.NaturalJoinPrefix(ss, i + 1) + rest == Values.NaturalJoin(ss)
    ensures Values.NaturalJoinPrefix(ss, i) + (Values.ListSeparator(i, |ss|) + ss[i] + rest) == Values.NaturalJoin(ss)
  {
    var sep := Values.ListSeparator(i, |ss|);
    var before := Values.NaturalJoinPrefix(ss, i);
    assert Values.NaturalJoinPrefix(ss, i + 1) == before + sep + ss[i];
    assert before + sep + ss[i] + rest == before + (sep + ss[i] + rest);
  }

  /**
   Both revisions render a list of strings the same way: `", "` between the
   leading elements and `" and "` before the last.
   */
  lemma ListRenderingAgrees(ss: seq<string>, debug: DebugLayout, h: Values.Host)
    ensures Format(List(Strings(ss)), Default, debug) == Ok(Values.NaturalJoin(ss))
    ensures Values.Format(Values.List(Values.Strings(ss)), Values.Default, h) == Ok(Values.NaturalJoin(ss))
  {
    FormatListStrings(ss, 0, debug);
    assert Values.NaturalJoinPrefix(ss, 0) == "";
    assert "" + FormatList(Strings(ss), 0, debug).value == FormatList(Strings(ss), 0, debug).value;
    assert Format(List(Strings(ss)), Default, debug) == FormatList(Strings(ss), 0, debug);
    ValueLaws.ListOfStrings(ss, h);
  }
}
