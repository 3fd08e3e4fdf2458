/**
 `build_info::format!` as a whole: parse the arguments, evaluate them all
 against the build snapshot, then either print the snapshot (no arguments)
 or use the first argument as the template for the others. An evaluation
 error aborts the expansion with its message; unused arguments do not stop
 the expansion but each leaves a diagnostic.
 */
module FormatMacro {
  import opened Wrappers
  import S = Syntax
  import Tokens
  import C = Common
  import opened Values
  import opened Scanner
  import Eval
  import ScannerLaws
  import ValueLaws

  const NOT_A_STRING: string := "Could not interpret first argument as a string"

  /** The string literal the macro expands to, and the non-fatal diagnostics emitted on the way. */
  datatype Expansion = Expansion(text: string, errors: seq<string>)

  datatype MacroError =
    | ParseFailed(error: S.ParseError)
    | Failed(failure: Failure)

  /** An error from evaluation becomes a fatal diagnostic carrying its message. */
  function AbortOnError(f: Failure, h: Host): (r: Failure)
    ensures !r.Error?
    ensures !f.Error? ==> r == f
  {
    match f
    case Error(k) => Abort([ErrorMessage(k, h)])
    case _ => f
  }

  /** The expansion for already evaluated arguments. */
  function Expand(values: seq<Value>, b: C.BuildInfo, h: Host): (r: Result<Expansion, Failure>)
    ensures |values| == 0 ==> r == Ok(Expansion(C.BuildInfoString(b), []))
    ensures |values| > 0 && !values[0].Str? ==> r == Err(Abort([NOT_A_STRING]))
  {
    if |values| == 0 then Ok(Expansion(C.BuildInfoString(b), []))
    else if !values[0].Str? then Err(Abort([NOT_A_STRING]))
    else
      var (text, unused) :- Interpolate(values[0].s, values[1..], h);
      Ok(Expansion(text, UnusedMessages(unused)))
  }

  function FormatMacro(ts: seq<Tokens.Token>, b: C.BuildInfo, h: Host): (r: Result<Expansion, MacroError>)
    ensures r.Err? && r.error.Failed? ==> !r.error.failure.Error?
  {
    match S.ParseSyntax(ts)
    case Err(e) => Err(ParseFailed(e))
    case Ok(syntax) =>
      match Eval.EvalArgs(syntax.args, b, OP_ARRAY_INDEX, h)
      case Err(f) => Err(Failed(AbortOnError(f, h)))
      case Ok(values) =>
        match Expand(values, b, h)
        case Err(f) => Err(Failed(f))
        case Ok(x) => Ok(x)
  }

  // ---------------------------------------------------------------------------
  // Laws

  /** With no arguments at all, the macro prints the snapshot's Display string and reports nothing. */
  lemma NoArgumentsPrintSnapshot(b: C.BuildInfo, h: Host)
    ensures FormatMacro([], b, h) == Ok(Expansion(C.BuildInfoString(b), []))
  {
    assert S.ParseSyntax([]) == Ok(S.Syntax([]));
  }

  /**
   The arguments are evaluated left to right; the first one that fails
   decides the outcome, with an error turned into an abort carrying its
   message.
   */
  lemma EvaluationFailureAborts(syntax: S.Syntax, ts: seq<Tokens.Token>, b: C.BuildInfo, h: Host)
    requires S.ParseSyntax(ts) == Ok(syntax)
    requires Eval.EvalArgs(syntax.args, b, OP_ARRAY_INDEX, h).Err?
    ensures var f := Eval.EvalArgs(syntax.args, b, OP_ARRAY_INDEX, h).error;
      FormatMacro(ts, b, h) == Err(Failed(if f.Error? then Abort([ErrorMessage(f.kind, h)]) else f))
  {
  }

  /**
   Once the arguments are evaluated, the first must be a string; it is then
   the template for the remaining ones, and every remaining argument the
   template never refers to yields one diagnostic, in increasing order.
   */
  lemma TemplateIsFirstArgument(values: seq<Value>, b: C.BuildInfo, h: Host)
    requires |values| > 0
    ensures !values[0].Str? ==> Expand(values, b, h) == Err(Abort([NOT_A_STRING]))
    ensures values[0].Str? ==>
      var i := Interpolate(values[0].s, values[1..], h);
      var r := Expand(values, b, h);
      (i.Err? <==> r.Err?)
      && (i.Err? ==> r.error == i.error)
      && (i.Ok? ==> r.value.text == i.value.0
                    && |r.value.errors| == |i.value.1|
                    && forall k :: 0 <= k < |i.value.1| ==> r.value.errors[k] == UnusedMessage(i.value.1[k]))
  {
  }

  /** `"{}", $.profile` prints the build profile and leaves no argument unused. */
  lemma ProfileExample(b: C.BuildInfo, h: Host)
    requires ScannerLaws.PunctuationNotAlphabetic(h)
    ensures FormatMacro(ProfileTokens, b, h) == Ok(Expansion(b.profile, []))
  {
    ProfileParsed();
    ProfileEvaluated(b, h);
    var values := [Str("{}"), Str(b.profile)];
    assert values[1..] == [Str(b.profile)];
    SingleHole(b.profile, h);
    assert Expand(values, b, h) == Ok(Expansion(b.profile, UnusedMessages([])));
  }

  lemma SingleHole(text: string, h: Host)
    requires ScannerLaws.PunctuationNotAlphabetic(h)
    ensures Interpolate("{}", [Str(text)], h) == Ok((text, []))
  {
    var st := ScannerLaws.Rendered(Start, text, 0, 1);
    SingleHoleScan(text, h);
    assert st.used == {0};
    ScannerLaws.UnusedFromAllUsed(0, 1, st.used);
    assert st.out == text;
  }

  /** The one placeholder of `"{}"` renders the one argument and marks it used. */
  lemma SingleHoleScan(text: string, h: Host)
    requires ScannerLaws.PunctuationNotAlphabetic(h)
    ensures Scan("{}", [Str(text)], h, Start) == Ok(ScannerLaws.Rendered(Start, text, 0, 1))
  {
    var args := [Str(text)];
    ScannerLaws.ImplicitPlaceholder(Default, "", args, h, Start);
    assert "{" + (ScannerLaws.SpecText(Default) + "}" + "") == "{}";
    assert Format(args[0], Default, h) == Ok(text);
  }

  const ProfileTokens: seq<Tokens.Token> := [
    Tokens.Lit(Tokens.StrLit("{}"), 0), Tokens.Punct(',', 0),
    Tokens.Punct('$', 0), Tokens.Punct('.', 0), Tokens.Ident("profile", 0)]

  const ProfileArgs: seq<S.Expr> := [
    S.Expr(S.LitStr("{}", S.Meta), []),
    S.Expr(S.BuildInfo(S.Meta), [S.Field("profile")])]

  lemma ProfileParsed()
    ensures S.ParseSyntax(ProfileTokens) == Ok(S.Syntax(ProfileArgs))
  {
    var args := ProfileArgs;
    var ss := args[1].suffixes;
    assert S.WellFormedSuffixes(ss[1..]);
    assert S.WellFormedArgs(args[2..]);
    assert args[1..][1..] == args[2..];
    assert S.PrintSuffixes(ss[1..]) == [];
    assert S.PrintSuffixes(ss) == [Tokens.Punct('.', 0), Tokens.Ident("profile", 0)];
    assert S.PrintSuffixes(args[0].suffixes) == [];
    assert S.PrintExpr(args[0]) == [Tokens.Lit(Tokens.StrLit("{}"), 0)];
    assert S.PrintExpr(args[1]) == [Tokens.Punct('$', 0), Tokens.Punct('.', 0), Tokens.Ident("profile", 0)];
    assert S.PrintTrailing(args[2..]) == [];
    assert S.PrintTrailing(args[1..]) == [Tokens.Punct(',', 0)] + S.PrintExpr(args[1]);
    assert S.PrintArgs(args) == ProfileTokens;
    S.SyntaxRoundTrip(S.Syntax(args));
  }

  lemma ProfileEvaluated(b: C.BuildInfo, h: Host)
    ensures Eval.EvalArgs(ProfileArgs, b, OP_ARRAY_INDEX, h) == Ok([Str("{}"), Str(b.profile)])
  {
    var args := ProfileArgs;
    ValueLaws.BuildInfoFields(b, h);
    assert Eval.EvalExpr(args[0], b, OP_ARRAY_INDEX, h) == Ok(Str("{}"));
    var ss := args[1].suffixes;
    assert Eval.ApplySuffix(BuildInfo(b), ss[0], b, OP_ARRAY_INDEX, h) == Ok(Str(b.profile));
    assert Eval.ApplySuffixes(Str(b.profile), ss[1..], b, OP_ARRAY_INDEX, h) == Ok(Str(b.profile));
    assert Eval.EvalExpr(args[1], b, OP_ARRAY_INDEX, h) == Ok(Str(b.profile));
    assert Eval.EvalArgs(args[2..], b, OP_ARRAY_INDEX, h) == Ok([]);
    assert args[1..][1..] == args[2..];
    assert args[1..][0] == args[1];
    assert [Str(b.profile)] + [] == [Str(b.profile)];
    assert Eval.EvalArgs(args[1..], b, OP_ARRAY_INDEX, h) == Ok([Str(b.profile)] + []);
    assert [Str("{}")] + [Str(b.profile)] == [Str("{}"), Str(b.profile)];
  }
}
