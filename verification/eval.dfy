/**
 Evaluation of parsed expressions: the atom first, then each suffix on the
 previous result, stopping at the first failure. The operator name used for
 `[index]` is a parameter, because the evaluator as written sends a name the
 vector kind does not answer (see `EvalAsWritten`).
 */
module Eval {
  import opened Wrappers
  import S = Syntax
  import opened Values
  import C = Common
  import Types

  /** The operator name the evaluator sends for `[index]`. */
  const INDEX_AS_WRITTEN: string := "::std::ops::Index::index"

  function EvalAtom(a: S.AtomicExpr, b: C.BuildInfo, indexOp: string, h: Host): (r: Result<Value, Failure>)
    decreases a, 1
  {
    match a
    case LitInt(v, _) => Ok(Integer(v))
    case LitStr(s, _) => Ok(Str(s))
    case BuildInfo(_) => Ok(BuildInfo(b))
    case Parenthesized(e, _) => EvalExpr(e, b, indexOp, h)
  }

  function EvalExpr(e: S.Expr, b: C.BuildInfo, indexOp: string, h: Host): (r: Result<Value, Failure>)
    decreases e, 2
  {
    var v :- EvalAtom(e.atom, b, indexOp, h);
    ApplySuffixes(v, e.suffixes, b, indexOp, h)
  }

  /** The suffixes in order, each applied to the result of the previous one. */
  function ApplySuffixes(v: Value, ss: seq<S.Suffix>, b: C.BuildInfo, indexOp: string, h: Host)
    : (r: Result<Value, Failure>)
    decreases ss, 1
  {
    if |ss| == 0 then Ok(v)
    else
      var w :- ApplySuffix(v, ss[0], b, indexOp, h);
      ApplySuffixes(w, ss[1..], b, indexOp, h)
  }

  /** One suffix as an operator call; index and call arguments are evaluated first. */
  function ApplySuffix(v: Value, s: S.Suffix, b: C.BuildInfo, indexOp: string, h: Host)
    : (r: Result<Value, Failure>)
    decreases s, 0
  {
    match s
    case Unwrap => Call(v, "?", [], h)
    case Field(name) => Call(v, OP_FIELD_ACCESS, [Str(name)], h)
    case TupleIndex(i) => Call(v, OP_TUPLE_INDEX, [Integer(i)], h)
    case ArrayIndex(e) =>
      var index :- EvalExpr(e, b, indexOp, h);
      Call(v, indexOp, [index], h)
    case FunctionCall(name, args) =>
      var values :- EvalArgs(args, b, indexOp, h);
      Call(v, name, values, h)
  }

  /** All arguments, left to right; the first failure is the result. */
  function EvalArgs(args: seq<S.Expr>, b: C.BuildInfo, indexOp: string, h: Host)
    : (r: Result<seq<Value>, Failure>)
    ensures r.Ok? ==> |r.value| == |args|
    decreases args, 0
  {
    if |args| == 0 then Ok([])
    else
      var first :- EvalExpr(args[0], b, indexOp, h);
      var rest :- EvalArgs(args[1..], b, indexOp, h);
      Ok([first] + rest)
  }

  /**
   The evaluator as written: `[index]` sends `::std::ops::Index::index`.
   Only `[index]` reads the operator name, so without one it is the corrected evaluator.
   */
  function EvalAsWritten(e: S.Expr, b: C.BuildInfo, h: Host): (r: Result<Value, Failure>)
    ensures IndexFree(e) ==> r == EvalExpr(e, b, OP_ARRAY_INDEX, h)
  {
    IndexOperatorUnused(e, b, INDEX_AS_WRITTEN, OP_ARRAY_INDEX, h);
    EvalExpr(e, b, INDEX_AS_WRITTEN, h)
  }

  /**
   The evaluator the rest of the model uses: `[index]` sends the vector's `!array_index`.
   It differs from the evaluator as written only through an `[index]` suffix.
   */
  function Evaluate(e: S.Expr, b: C.BuildInfo, h: Host): (r: Result<Value, Failure>)
    ensures IndexFree(e) ==> r == EvalExpr(e, b, INDEX_AS_WRITTEN, h)
  {
    IndexOperatorUnused(e, b, OP_ARRAY_INDEX, INDEX_AS_WRITTEN, h);
    EvalExpr(e, b, OP_ARRAY_INDEX, h)
  }

  // ---------------------------------------------------------------------------
  // Expressions without `[index]`

  /** No `[index]` suffix occurs anywhere in the expression, nested arguments included. */
  predicate IndexFree(e: S.Expr)
    decreases e, 2
  {
    AtomIndexFree(e.atom) && forall k :: 0 <= k < |e.suffixes| ==> SuffixIndexFree(e.suffixes[k])
  }

  predicate AtomIndexFree(a: S.AtomicExpr)
    decreases a, 1
  {
    match a
    case Parenthesized(e, _) => IndexFree(e)
    case _ => true
  }

  predicate SuffixIndexFree(s: S.Suffix)
    decreases s, 0
  {
    match s
    case ArrayIndex(_) => false
    case FunctionCall(_, args) => forall k :: 0 <= k < |args| ==> IndexFree(args[k])
    case _ => true
  }

  /** The operator name for `[index]` does not change the value of an expression without one. */
  lemma {:induction false} IndexOperatorUnused(e: S.Expr, b: C.BuildInfo, op1: string, op2: string, h: Host)
    ensures IndexFree(e) ==> EvalExpr(e, b, op1, h) == EvalExpr(e, b, op2, h)
    decreases e, 2
  {
    if IndexFree(e) {
      AtomOperatorUnused(e.atom, b, op1, op2, h);
      var a := EvalAtom(e.atom, b, op1, h);
      if a.Ok? {
        SuffixesOperatorUnused(a.value, e.suffixes, b, op1, op2, h);
      }
    }
  }

  lemma {:induction false} AtomOperatorUnused(a: S.AtomicExpr, b: C.BuildInfo, op1: string, op2: string, h: Host)
    ensures AtomIndexFree(a) ==> EvalAtom(a, b, op1, h) == EvalAtom(a, b, op2, h)
    decreases a, 1
  {
    if a.Parenthesized? {
      IndexOperatorUnused(a.inner, b, op1, op2, h);
    }
  }

  lemma {:induction false} SuffixesOperatorUnused(v: Value, ss: seq<S.Suffix>, b: C.BuildInfo,
                                                  op1: string, op2: string, h: Host)
    ensures (forall k :: 0 <= k < |ss| ==> SuffixIndexFree(ss[k])) ==>
      ApplySuffixes(v, ss, b, op1, h) == ApplySuffixes(v, ss, b, op2, h)
    decreases ss, 1
  {
    if |ss| > 0 && forall k :: 0 <= k < |ss| ==> SuffixIndexFree(ss[k]) {
      assert SuffixIndexFree(ss[0]);
      SuffixOperatorUnused(v, ss[0], b, op1, op2, h);
      var w := ApplySuffix(v, ss[0], b, op1, h);
      if w.Ok? {
        assert forall k :: 0 <= k < |ss[1..]| ==> ss[1..][k] == ss[k + 1];
        SuffixesOperatorUnused(w.value, ss[1..], b, op1, op2, h);
      }
    }
  }

  lemma {:induction false} SuffixOperatorUnused(v: Value, s: S.Suffix, b: C.BuildInfo, op1: string, op2: string, h: Host)
    ensures SuffixIndexFree(s) ==> ApplySuffix(v, s, b, op1, h) == ApplySuffix(v, s, b, op2, h)
    decreases s, 0
  {
    if s.FunctionCall? {
      ArgsOperatorUnused(s.args, b, op1, op2, h);
    }
  }

  lemma {:induction false} ArgsOperatorUnused(args: seq<S.Expr>, b: C.BuildInfo, op1: string, op2: string, h: Host)
    ensures (forall k :: 0 <= k < |args| ==> IndexFree(args[k])) ==>
      EvalArgs(args, b, op1, h) == EvalArgs(args, b, op2, h)
    decreases args, 0
  {
    if |args| > 0 && forall k :: 0 <= k < |args| ==> IndexFree(args[k]) {
      IndexOperatorUnused(args[0], b, op1, op2, h);
      assert forall k :: 0 <= k < |args[1..]| ==> args[1..][k] == args[k + 1];
      ArgsOperatorUnused(args[1..], b, op1, op2, h);
    }
  }

  // ---------------------------------------------------------------------------
  // Laws

  /** Literals evaluate to themselves, `$` to the snapshot, parentheses to their content. */
  lemma AtomMeaning(a: S.AtomicExpr, b: C.BuildInfo, h: Host)
    ensures a.LitInt? ==> Evaluate(S.Expr(a, []), b, h) == Ok(Integer(a.value))
    ensures a.LitStr? ==> Evaluate(S.Expr(a, []), b, h) == Ok(Str(a.text))
    ensures a.BuildInfo? ==> Evaluate(S.Expr(a, []), b, h) == Ok(BuildInfo(b))
    ensures a.Parenthesized? ==> Evaluate(S.Expr(a, []), b, h) == Evaluate(a.inner, b, h)
  {
    var r := EvalAtom(a, b, OP_ARRAY_INDEX, h);
    if r.Ok? {
      assert ApplySuffixes(r.value, [], b, OP_ARRAY_INDEX, h) == r;
    }
  }

  /**
   Suffix chains compose: applying `xs + ys` is applying `xs`, then `ys` to
   its result; when `xs` fails, `ys` is never reached and the failure stands.
   */
  lemma {:induction false} ApplySuffixesAppend(v: Value, xs: seq<S.Suffix>, ys: seq<S.Suffix>,
                                                b: C.BuildInfo, indexOp: string, h: Host)
    ensures var first := ApplySuffixes(v, xs, b, indexOp, h);
      ApplySuffixes(v, xs + ys, b, indexOp, h)
        == if first.Ok? then ApplySuffixes(first.value, ys, b, indexOp, h) else first
    decreases |xs|
  {
    if |xs| == 0 {
      assert xs + ys == ys;
    } else {
      assert (xs + ys)[0] == xs[0];
      assert (xs + ys)[1..] == xs[1..] + ys;
      var w := ApplySuffix(v, xs[0], b, indexOp, h);
      if w.Ok? {
        ApplySuffixesAppend(w.value, xs[1..], ys, b, indexOp, h);
      }
    }
  }

  /** An expression with one more suffix is the shorter expression's value with that suffix applied. */
  lemma SuffixOnResult(e: S.Expr, s: S.Suffix, b: C.BuildInfo, indexOp: string, h: Host)
    ensures var prev := EvalExpr(e, b, indexOp, h);
      EvalExpr(S.Expr(e.atom, e.suffixes + [s]), b, indexOp, h)
        == if prev.Ok? then ApplySuffix(prev.value, s, b, indexOp, h) else prev
  {
    var a := EvalAtom(e.atom, b, indexOp, h);
    if a.Ok? {
      ApplySuffixesAppend(a.value, e.suffixes, [s], b, indexOp, h);
      var prev := ApplySuffixes(a.value, e.suffixes, b, indexOp, h);
      if prev.Ok? {
        var w := ApplySuffix(prev.value, s, b, indexOp, h);
        if w.Ok? {
          assert ApplySuffixes(w.value, [], b, indexOp, h) == w;
        }
      }
    }
  }

  /** The operator each simple suffix sends. */
  lemma SuffixOperators(v: Value, name: string, i: nat, b: C.BuildInfo, indexOp: string, h: Host)
    ensures ApplySuffix(v, S.Unwrap, b, indexOp, h) == Call(v, "?", [], h)
    ensures ApplySuffix(v, S.Field(name), b, indexOp, h) == Call(v, OP_FIELD_ACCESS, [Str(name)], h)
    ensures ApplySuffix(v, S.TupleIndex(i), b, indexOp, h) == Call(v, OP_TUPLE_INDEX, [Integer(i)], h)
  {
  }

  /**
   Arguments are evaluated before the call: it succeeds only when all of
   them do, and otherwise the first failing argument's failure is the result.
   */
  lemma {:induction false} EvalArgsFirstFailure(args: seq<S.Expr>, b: C.BuildInfo, indexOp: string, h: Host)
    ensures EvalArgs(args, b, indexOp, h).Ok? <==>
      forall k :: 0 <= k < |args| ==> EvalExpr(args[k], b, indexOp, h).Ok?
    ensures EvalArgs(args, b, indexOp, h).Ok? ==>
      forall k :: 0 <= k < |args| ==> EvalArgs(args, b, indexOp, h).value[k] == EvalExpr(args[k], b, indexOp, h).value
    ensures EvalArgs(args, b, indexOp, h).Err? ==>
      exists k :: 0 <= k < |args|
        && (forall j :: 0 <= j < k ==> EvalExpr(args[j], b, indexOp, h).Ok?)
        && EvalExpr(args[k], b, indexOp, h) == Err(EvalArgs(args, b, indexOp, h).error)
  {
    if |args| > 0 {
      EvalArgsFirstFailure(args[1..], b, indexOp, h);
      assert forall k :: 1 <= k < |args| ==> args[k] == args[1..][k - 1];
      var first := EvalExpr(args[0], b, indexOp, h);
      var rest := EvalArgs(args[1..], b, indexOp, h);
      if first.Ok? && rest.Err? {
        var k :| 0 <= k < |args[1..]|
          && (forall j :: 0 <= j < k ==> EvalExpr(args[1..][j], b, indexOp, h).Ok?)
          && EvalExpr(args[1..][k], b, indexOp, h) == Err(rest.error);
        assert forall j :: 1 <= j < k + 1 ==> EvalExpr(args[j], b, indexOp, h).Ok?;
        assert EvalExpr(args[k + 1], b, indexOp, h) == Err(rest.error);
      }
    }
  }

  /** The call of a method sees exactly the evaluated arguments, in order. */
  lemma MethodCallArguments(v: Value, name: string, args: seq<S.Expr>, b: C.BuildInfo, indexOp: string, h: Host)
    requires forall k :: 0 <= k < |args| ==> EvalExpr(args[k], b, indexOp, h).Ok?
    ensures EvalArgs(args, b, indexOp, h).Ok?
    ensures ApplySuffix(v, S.FunctionCall(name, args), b, indexOp, h)
      == Call(v, name, EvalArgs(args, b, indexOp, h).value, h)
  {
    EvalArgsFirstFailure(args, b, indexOp, h);
  }

  // ---------------------------------------------------------------------------
  // The index operator

  /** As written, indexing a vector reaches `call_base` and fails naming the `Option` tag. */
  lemma IndexAsWrittenFails(items: seq<Value>, index: Value, h: Host)
    ensures Call(List(items), INDEX_AS_WRITTEN, [index], h)
      == Err(Error(NotCallable(INDEX_AS_WRITTEN, [index], Types.Type.Option)))
  {
  }

  /** With the vector's own operator name, indexing yields the element. */
  lemma IndexCorrected(items: seq<Value>, i: nat, h: Host)
    requires i < |items| <= USIZE_MAX
    ensures Call(List(items), OP_ARRAY_INDEX, [Integer(i)], h) == Ok(items[i])
  {
  }

  /** `$.crate_info.authors[i]` */
  function AuthorExpr(i: nat): S.Expr {
    S.Expr(S.BuildInfo(S.Meta),
           [S.Field("crate_info"), S.Field("authors"), S.ArrayIndex(S.Expr(S.LitInt(i, S.Meta), []))])
  }

  lemma AuthorsOf(b: C.BuildInfo, indexOp: string, h: Host)
    ensures ApplySuffixes(BuildInfo(b), AuthorExpr(0).suffixes[..2], b, indexOp, h)
      == Ok(List(Strings(b.crate_info.authors)))
  {
    var ss := AuthorExpr(0).suffixes[..2];
    assert ss[1..][1..] == [];
    assert FieldNames(BuildInfo(b)) != {};
    assert Call(BuildInfo(b), OP_FIELD_ACCESS, [Str("crate_info")], h) == Ok(CrateInfo(b.crate_info));
    assert Call(CrateInfo(b.crate_info), OP_FIELD_ACCESS, [Str("authors")], h)
      == Ok(List(Strings(b.crate_info.authors)));
  }

  /**
   `$.crate_info.authors[i]` for an author that exists: the corrected
   evaluator yields the author, the evaluator as written fails.
   */
  lemma AuthorIndexing(b: C.BuildInfo, i: nat, h: Host)
    requires i < |b.crate_info.authors| <= USIZE_MAX
    ensures Evaluate(AuthorExpr(i), b, h) == Ok(Str(b.crate_info.authors[i]))
    ensures EvalAsWritten(AuthorExpr(i), b, h).Err?
  {
    var e := AuthorExpr(i);
    var authors := List(Strings(b.crate_info.authors));
    assert e.suffixes == e.suffixes[..2] + [e.suffixes[2]];
    assert AuthorExpr(0).suffixes[..2] == e.suffixes[..2];
    AuthorsOf(b, OP_ARRAY_INDEX, h);
    AuthorsOf(b, INDEX_AS_WRITTEN, h);
    var index := S.Expr(S.LitInt(i, S.Meta), []);
    assert EvalExpr(index, b, OP_ARRAY_INDEX, h) == Ok(Integer(i));
    assert EvalExpr(index, b, INDEX_AS_WRITTEN, h) == Ok(Integer(i));
    SuffixOnResult(S.Expr(e.atom, e.suffixes[..2]), e.suffixes[2], b, OP_ARRAY_INDEX, h);
    SuffixOnResult(S.Expr(e.atom, e.suffixes[..2]), e.suffixes[2], b, INDEX_AS_WRITTEN, h);
    IndexCorrected(Strings(b.crate_info.authors), i, h);
    IndexAsWrittenFails(Strings(b.crate_info.authors), Integer(i), h);
  }
}
