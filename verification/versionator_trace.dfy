/**
 The argument syntax of versionator's `version!` macros (`TraceSyntax`):
 a sequence of steps `.ident`, `.ident()`, `.N` and `?`, each recorded as
 the text the selections match on. Both macro crates parse it the same way.
 */
module VersionatorTrace {
  import opened Wrappers
  import opened Tokens
  import opened InitShapes

  datatype Failure =
    | Unexpected(rest: seq<Token>)
    | ArgumentsUnsupported

  predicate IsPunct(t: Token, c: char) {
    t.Punct? && t.ch == c
  }

  predicate IsEmptyParens(t: Token) {
    t.Group? && t.delimiter == Parenthesis
  }

  /** `TraceSyntax::parse`: the steps of the macro input, in source order. */
  function ParseTrace(ts: seq<Token>): (r: Result<seq<string>, Failure>)
    decreases |ts|
  {
    if |ts| == 0 then Ok([])
    else if IsPunct(ts[0], '.') then
      if |ts| >= 2 && ts[1].Ident? then
        if |ts| >= 3 && IsEmptyParens(ts[2]) then
          if |ts[2].stream| > 0 then Err(ArgumentsUnsupported)
          else
            var rest :- ParseTrace(ts[3..]);
            Ok([ts[1].name + "()"] + rest)
        else
          var rest :- ParseTrace(ts[2..]);
          Ok([ts[1].name] + rest)
      else if |ts| >= 2 && ts[1].Lit? && ts[1].lit.IntLit? && ts[1].lit.number >= 0 then
        var rest :- ParseTrace(ts[2..]);
        Ok([IntLiteralText(ts[1].lit.number, ts[1].lit.suffix)] + rest)
      else Err(Unexpected(ts[1..]))
    else if IsPunct(ts[0], '?') then
      var rest :- ParseTrace(ts[1..]);
      Ok(["?"] + rest)
    else Err(Unexpected(ts))
  }

  // ---------------------------------------------------------------------------
  // Steps written out

  datatype Step =
    | Member(name: string)
    | Call(name: string)
    | Position(n: nat, suffix: string)
    | Try

  /** The text a step is recorded as. */
  function StepText(s: Step): string {
    match s
    case Member(name) => name
    case Call(name) => name + "()"
    case Position(n, suffix) => IntLiteralText(n, suffix)
    case Try => "?"
  }

  /** The tokens of one step as a macro user writes it. */
  function StepTokens(s: Step): (ts: seq<Token>)
    ensures |ts| > 0 && (IsPunct(ts[0], '.') || IsPunct(ts[0], '?'))
  {
    match s
    case Member(name) => [P('.'), Id(name)]
    case Call(name) => [P('.'), Id(name), G(Parenthesis, [])]
    case Position(n, suffix) => [P('.'), Lit(IntLit(n, suffix), CallSite)]
    case Try => [P('?')]
  }

  function TraceTokens(steps: seq<Step>): seq<Token> {
    if |steps| == 0 then [] else StepTokens(steps[0]) + TraceTokens(steps[1..])
  }

  function StepTexts(steps: seq<Step>): (r: seq<string>)
    ensures |r| == |steps| && forall i :: 0 <= i < |steps| ==> r[i] == StepText(steps[i])
  {
    seq(|steps|, i requires 0 <= i < |steps| => StepText(steps[i]))
  }

  // ---------------------------------------------------------------------------
  // Laws

  /** `step` in front of a successful parse. */
  function Cons(step: string, r: Result<seq<string>, Failure>): Result<seq<string>, Failure> {
    match r
    case Ok(rest) => Ok([step] + rest)
    case Err(e) => Err(e)
  }

  lemma ParseMember(name: string, rest: seq<Token>)
    requires |rest| == 0 || IsPunct(rest[0], '.') || IsPunct(rest[0], '?')
    ensures ParseTrace([P('.'), Id(name)] + rest) == Cons(name, ParseTrace(rest))
  {
    var ts := [P('.'), Id(name)] + rest;
    assert ts[2..] == rest;
    assert !(|ts| >= 3 && IsEmptyParens(ts[2]));
  }

  lemma ParseCall(name: string, rest: seq<Token>)
    ensures ParseTrace([P('.'), Id(name), G(Parenthesis, [])] + rest) == Cons(name + "()", ParseTrace(rest))
  {
    var ts := [P('.'), Id(name), G(Parenthesis, [])] + rest;
    assert ts[3..] == rest;
  }

  lemma ParsePosition(n: nat, suffix: string, rest: seq<Token>)
    ensures ParseTrace([P('.'), Lit(IntLit(n, suffix), CallSite)] + rest) == Cons(IntLiteralText(n, suffix), ParseTrace(rest))
  {
    var ts := [P('.'), Lit(IntLit(n, suffix), CallSite)] + rest;
    assert ts[2..] == rest;
  }

  lemma ParseTry(rest: seq<Token>)
    ensures ParseTrace([P('?')] + rest) == Cons("?", ParseTrace(rest))
  {
    var ts := [P('?')] + rest;
    assert ts[1..] == rest;
  }

  lemma ParseStep(s: Step, rest: seq<Token>)
    requires |rest| == 0 || IsPunct(rest[0], '.') || IsPunct(rest[0], '?')
    ensures ParseTrace(StepTokens(s) + rest) == Cons(StepText(s), ParseTrace(rest))
  {
    match s
    case Member(name) => ParseMember(name, rest);
    case Call(name) => ParseCall(name, rest);
    case Position(n, suffix) => ParsePosition(n, suffix, rest);
    case Try => ParseTry(rest);
  }

  /** Written-out steps parse back to their texts, in source order. */
  lemma {:induction false} TraceRoundTrip(steps: seq<Step>)
    ensures ParseTrace(TraceTokens(steps)) == Ok(StepTexts(steps))
  {
    if |steps| > 0 {
      var rest := TraceTokens(steps[1..]);
      TraceRoundTrip(steps[1..]);
      assert |rest| == 0 || IsPunct(rest[0], '.') || IsPunct(rest[0], '?') by {
        if |steps[1..]| > 0 {
          assert rest[0] == StepTokens(steps[1..][0])[0];
        }
      }
      ParseStep(steps[0], rest);
      assert [StepText(steps[0])] + StepTexts(steps[1..]) == StepTexts(steps);
    }
  }

  /** A call with arguments is refused, and so is anything that does not start a step. */
  lemma Rejections(name: string, args: seq<Token>, rest: seq<Token>, t: Token)
    requires |args| > 0
    requires !IsPunct(t, '.') && !IsPunct(t, '?')
    ensures ParseTrace([P('.'), Id(name), G(Parenthesis, args)] + rest) == Err(ArgumentsUnsupported)
    ensures ParseTrace([t] + rest) == Err(Unexpected([t] + rest))
    ensures ParseTrace([P('.'), P('?')] + rest).Err?
  {
    var ts := [P('.'), Id(name), G(Parenthesis, args)] + rest;
    assert ts[2] == G(Parenthesis, args);
    var us := [P('.'), P('?')] + rest;
    assert us[1] == P('?');
  }
}
