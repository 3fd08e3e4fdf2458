/**
 The argument syntax of `build_info::format!`: comma-separated expressions,
 each an atom (`$`, an integer or string literal, or a parenthesised
 expression) followed by a chain of suffixes (`?`, `.field`, `.N`, `[index]`,
 `.method(args)`), parsed from a token stream with one token of lookahead.
 */
module Syntax {
  import opened Wrappers
  import opened Tokens

  /**
   The node metadata. The system's metadata holds the node's span, but its
   equality, ordering and hashing ignore the span; the model keeps no span
   at all, so that two trees are equal exactly when the system says so.
   */
  datatype Meta = Meta

  datatype Syntax = Syntax(args: seq<Expr>)

  datatype Expr = Expr(atom: AtomicExpr, suffixes: seq<Suffix>)

  datatype AtomicExpr =
    | BuildInfo(meta: Meta)
    | LitInt(value: int, meta: Meta)
    | LitStr(text: string, meta: Meta)
    | Parenthesized(inner: Expr, meta: Meta)

  datatype Suffix =
    | Unwrap
    | Field(name: string)
    | TupleIndex(index: nat)
    | ArrayIndex(indexExpr: Expr)
    | FunctionCall(callee: string, args: seq<Expr>)

  /** The ways a parse fails; `Expected` lists what the lookahead would have accepted. */
  datatype ParseError =
    | Expected(alternatives: seq<string>)
    | IntegerSuffixUnsupported
    | TupleIndexOutOfRange
    | UnexpectedToken

  const AtomStart: seq<string> := ["`$`", "parentheses", "integer literal", "string literal"]
  const SuffixStart: seq<string> := ["`,`", "`?`", "`.`", "square brackets"]
  const AfterDot: seq<string> := ["identifier", "integer literal"]
  const U32_MAX: int := 0xFFFF_FFFF

  // ---------------------------------------------------------------------------
  // Parsing. Each expression parser returns what it built and how many tokens
  // of the stream it consumed.

  /** One atom from a single token. */
  function ParseAtom(t: Token): (r: Result<AtomicExpr, ParseError>)
    decreases TokenSize(t), 1
  {
    match t
    case Punct(c, _) =>
      if c == '$' then Ok(BuildInfo(Meta)) else Err(Expected(AtomStart))
    case Group(delimiter, inner, _) =>
      if delimiter != Parenthesis then Err(Expected(AtomStart))
      else
        var e :- ParseGroupExpr(inner);
        Ok(Parenthesized(e, Meta))
    case Lit(IntLit(v, suffix), _) =>
      if suffix != "" then Err(IntegerSuffixUnsupported) else Ok(LitInt(v, Meta))
    case Lit(StrLit(s), _) => Ok(LitStr(s, Meta))
    case Ident(_, _) => Err(Expected(AtomStart))
  }

  /** The contents of a group must be exactly one expression; leftover tokens are an error. */
  function ParseGroupExpr(ts: seq<Token>): (r: Result<Expr, ParseError>)
    decreases StreamSize(ts), 3
  {
    var p :- ParseExpr(ts);
    if p.1 < |ts| then Err(UnexpectedToken) else Ok(p.0)
  }

  /**
   An atom and its suffixes. The expression ends at the end of the stream or
   before a top-level comma, and never consumes a comma itself.
   */
  function ParseExpr(ts: seq<Token>): (r: Result<(Expr, nat), ParseError>)
    ensures r.Ok? ==> 1 <= r.value.1 <= |ts| && (r.value.1 == |ts| || IsComma(ts[r.value.1]))
    ensures r.Ok? ==> forall i :: 0 <= i < r.value.1 ==> !IsComma(ts[i])
    decreases StreamSize(ts), 2
  {
    if |ts| == 0 then Err(Expected(AtomStart))
    else
      var atom :- ParseAtom(ts[0]);
      var p :- ParseSuffixes(ts[1..]);
      Ok((Expr(atom, p.0), p.1 + 1))
  }

  /** `k` tokens without a comma, then a comma-free run of `n` ending the stream or at a comma. */
  lemma CommaFreePrefix(ts: seq<Token>, k: nat, n: nat)
    requires k + n <= |ts|
    requires forall i :: 0 <= i < k ==> !IsComma(ts[i])
    requires forall i :: 0 <= i < n ==> !IsComma(ts[k..][i])
    requires n == |ts[k..]| || IsComma(ts[k..][n])
    ensures forall i :: 0 <= i < n + k ==> !IsComma(ts[i])
    ensures n + k == |ts| || IsComma(ts[n + k])
  {
    assert forall i :: k <= i < |ts| ==> ts[i] == ts[k..][i - k];
  }

  /**
   One suffix at the head of the stream and how many tokens it takes: `?` and
   `[index]` take one, the suffixes that start with `.` two or three. None of
   them contains a top-level comma.
   */
  function ParseSuffix(ts: seq<Token>): (r: Result<(Suffix, nat), ParseError>)
    ensures r.Ok? ==> 1 <= r.value.1 <= |ts|
    ensures r.Ok? ==> forall i :: 0 <= i < r.value.1 ==> !IsComma(ts[i])
    decreases StreamSize(ts), 1
  {
    if |ts| == 0 then Err(Expected(SuffixStart))
    else
      match ts[0]
      case Punct(c, _) =>
        if c == '?' then Ok((Unwrap, 1))
        else if c == '.' then ParseMember(ts)
        else Err(Expected(SuffixStart))
      case Group(delimiter, inner, _) =>
        if delimiter != Bracket then Err(Expected(SuffixStart))
        else
          GroupSmaller(ts, 0);
          match ParseGroupExpr(inner) {
            case Err(e) => Err(e)
            case Ok(e) => Ok((ArrayIndex(e), 1))
          }
      case _ => Err(Expected(SuffixStart))
  }

  /** What follows a `.`: `.field` and `.N` take two tokens, `.method(args)` three. */
  function ParseMember(ts: seq<Token>): (r: Result<(Suffix, nat), ParseError>)
    requires |ts| > 0 && ts[0].Punct? && ts[0].ch == '.'
    ensures r.Ok? ==> 2 <= r.value.1 <= |ts|
    ensures r.Ok? ==> forall i :: 0 <= i < r.value.1 ==> !IsComma(ts[i])
    decreases StreamSize(ts), 0
  {
    if |ts| < 2 then Err(Expected(AfterDot))
    else
      match ts[1]
      case Ident(id, _) =>
        if |ts| >= 3 && ts[2].Group? && ts[2].delimiter == Parenthesis then
          GroupSmaller(ts, 2);
          match ParseArguments(ts[2].stream) {
            case Err(e) => Err(e)
            case Ok(args) => Ok((FunctionCall(id, args), 3))
          }
        else Ok((Field(id), 2))
      case Lit(IntLit(v, _), _) =>
        if v < 0 || v > U32_MAX then Err(TupleIndexOutOfRange) else Ok((TupleIndex(v), 2))
      case _ => Err(Expected(AfterDot))
  }

  /** The suffix chain, in source order, up to the end of the stream or a top-level comma. */
  function ParseSuffixes(ts: seq<Token>): (r: Result<(seq<Suffix>, nat), ParseError>)
    ensures r.Ok? ==> r.value.1 <= |ts| && (r.value.1 == |ts| || IsComma(ts[r.value.1]))
    ensures r.Ok? ==> forall i :: 0 <= i < r.value.1 ==> !IsComma(ts[i])
    decreases StreamSize(ts), 2
  {
    if |ts| == 0 || IsComma(ts[0]) then Ok(([], 0))
    else
      match ParseSuffix(ts)
      case Err(e) => Err(e)
      case Ok(s) =>
        StreamSizeDrop(ts, s.1);
        match ParseSuffixes(ts[s.1..])
        case Err(e) => Err(e)
        case Ok(p) =>
          CommaFreePrefix(ts, s.1, p.1);
          Ok(([s.0] + p.0, p.1 + s.1))
  }

  /**
   A whole stream of comma-separated expressions: nothing for an empty stream,
   otherwise one more expression than there are top-level commas. A stream
   ending in a comma is rejected.
   */
  function ParseArguments(ts: seq<Token>): (r: Result<seq<Expr>, ParseError>)
    ensures |ts| == 0 ==> r == Ok([])
    ensures r.Ok? && |ts| > 0 ==> |r.value| == CommaCount(ts) + 1
    ensures |ts| > 0 && IsComma(ts[|ts| - 1]) ==> r.Err?
    decreases StreamSize(ts), 4
  {
    if |ts| == 0 then Ok([])
    else
      var p :- ParseExpr(ts);
      StreamSizeDrop(ts, p.1);
      var rest :- ParseTrailing(ts[p.1..]);
      CommaCountSplit(ts, p.1);
      CommaCountNone(ts[..p.1]);
      Ok([p.0] + rest)
  }

  /** The `, expr` pairs after the first argument, up to the end of the stream. */
  function ParseTrailing(ts: seq<Token>): (r: Result<seq<Expr>, ParseError>)
    ensures r.Ok? ==> |r.value| == CommaCount(ts)
    ensures |ts| > 0 && IsComma(ts[|ts| - 1]) ==> r.Err?
    decreases StreamSize(ts), 3
  {
    if |ts| == 0 then Ok([])
    else if !IsComma(ts[0]) then Err(Expected([","]))
    else
      var p :- ParseExpr(ts[1..]);
      StreamSizeDrop(ts, 1 + p.1);
      var rest :- ParseTrailing(ts[1 + p.1..]);
      CommaCountSplit(ts[1..], p.1);
      CommaCountNone(ts[1..][..p.1]);
      assert ts[1..][p.1..] == ts[1 + p.1..];
      Ok([p.0] + rest)
  }

  function ParseSyntax(ts: seq<Token>): Result<Syntax, ParseError> {
    var args :- ParseArguments(ts);
    Ok(Syntax(args))
  }

  // ---------------------------------------------------------------------------
  // Printing: the canonical token stream of a tree, used to state what the
  // parser recognises.

  function PrintAtom(a: AtomicExpr): seq<Token> {
    match a
    case BuildInfo(m) => [Punct('$', CallSite)]
    case LitInt(v, m) => [Lit(IntLit(v, ""), CallSite)]
    case LitStr(s, m) => [Lit(StrLit(s), CallSite)]
    case Parenthesized(e, m) => [Group(Parenthesis, PrintExpr(e), CallSite)]
  }

  function PrintExpr(e: Expr): seq<Token> {
    PrintAtom(e.atom) + PrintSuffixes(e.suffixes)
  }

  function PrintSuffixes(ss: seq<Suffix>): seq<Token> {
    if |ss| == 0 then [] else PrintSuffix(ss[0]) + PrintSuffixes(ss[1..])
  }

  function PrintSuffix(s: Suffix): seq<Token> {
    match s
    case Unwrap => [Punct('?', CallSite)]
    case Field(name) => [Punct('.', CallSite), Ident(name, CallSite)]
    case TupleIndex(i) => [Punct('.', CallSite), Lit(IntLit(i, ""), CallSite)]
    case ArrayIndex(e) => [Group(Bracket, PrintExpr(e), CallSite)]
    case FunctionCall(name, args) =>
      [Punct('.', CallSite), Ident(name, CallSite), Group(Parenthesis, PrintArgs(args), CallSite)]
  }

  function PrintArgs(args: seq<Expr>): seq<Token> {
    if |args| == 0 then [] else PrintExpr(args[0]) + PrintTrailing(args[1..])
  }

  function PrintTrailing(args: seq<Expr>): seq<Token> {
    if |args| == 0 then [] else [Punct(',', CallSite)] + PrintExpr(args[0]) + PrintTrailing(args[1..])
  }

  /** Tuple indices fit the `u32` the parser reads them into. */
  predicate WellFormedExpr(e: Expr) {
    WellFormedAtom(e.atom) && WellFormedSuffixes(e.suffixes)
  }

  predicate WellFormedAtom(a: AtomicExpr) {
    a.Parenthesized? ==> WellFormedExpr(a.inner)
  }

  predicate WellFormedSuffixes(ss: seq<Suffix>) {
    |ss| > 0 ==> WellFormedSuffix(ss[0]) && WellFormedSuffixes(ss[1..])
  }

  predicate WellFormedSuffix(s: Suffix) {
    match s
    case TupleIndex(i) => i <= U32_MAX
    case ArrayIndex(e) => WellFormedExpr(e)
    case FunctionCall(_, args) => WellFormedArgs(args)
    case _ => true
  }

  predicate WellFormedArgs(args: seq<Expr>) {
    |args| > 0 ==> WellFormedExpr(args[0]) && WellFormedArgs(args[1..])
  }

  predicate EndsExpr(rest: seq<Token>) {
    rest == [] || IsComma(rest[0])
  }

  // ---------------------------------------------------------------------------
  // The parser reads back exactly the tree that was printed.

  lemma {:induction false} ExprRoundTrip(e: Expr, rest: seq<Token>)
    requires WellFormedExpr(e) && EndsExpr(rest)
    ensures ParseExpr(PrintExpr(e) + rest) == Ok((e, |PrintExpr(e)|))
    decreases e, 2
  {
    var ts := PrintExpr(e) + rest;
    var atomTokens := PrintAtom(e.atom);
    assert |atomTokens| == 1;
    assert ts[0] == atomTokens[0];
    AtomRoundTrip(e.atom);
    assert ts[1..] == PrintSuffixes(e.suffixes) + rest;
    SuffixesRoundTrip(e.suffixes, rest);
  }

  lemma {:induction false} AtomRoundTrip(a: AtomicExpr)
    requires WellFormedAtom(a)
    ensures ParseAtom(PrintAtom(a)[0]) == Ok(a)
    decreases a, 1
  {
    assert a.meta == Meta;
    match a
    case BuildInfo(_) =>
    case LitInt(_, _) =>
    case LitStr(_, _) =>
    case Parenthesized(e, _) =>
      GroupRoundTrip(e);
  }

  lemma {:induction false} GroupRoundTrip(e: Expr)
    requires WellFormedExpr(e)
    ensures ParseGroupExpr(PrintExpr(e)) == Ok(e)
    decreases e, 3
  {
    ExprRoundTrip(e, []);
    assert PrintExpr(e) + [] == PrintExpr(e);
  }

  lemma {:induction false} SuffixesRoundTrip(ss: seq<Suffix>, rest: seq<Token>)
    requires WellFormedSuffixes(ss) && EndsExpr(rest)
    ensures ParseSuffixes(PrintSuffixes(ss) + rest).Ok?
    ensures ParseSuffixes(PrintSuffixes(ss) + rest).value.0 == ss
    ensures ParseSuffixes(PrintSuffixes(ss) + rest).value.1 == |PrintSuffixes(ss)|
    decreases ss, 0
  {
    if |ss| == 0 {
      assert PrintSuffixes(ss) + rest == rest;
    } else {
      var tail := PrintSuffixes(ss[1..]);
      SuffixesRoundTrip(ss[1..], rest);
      NoParenthesisAhead(ss[1..], rest);
      SuffixStep(ss[0], tail + rest, ss[1..], |tail|);
      PrintedChain(ss, rest);
    }
  }

  /** A printed chain is its first suffix's tokens in front of the rest of the chain's. */
  lemma PrintedChain(ss: seq<Suffix>, rest: seq<Token>)
    requires |ss| > 0
    ensures PrintSuffixes(ss) + rest == PrintSuffix(ss[0]) + (PrintSuffixes(ss[1..]) + rest)
    ensures [ss[0]] + ss[1..] == ss
  {
    var first, others := PrintSuffix(ss[0]), PrintSuffixes(ss[1..]);
    assert PrintSuffixes(ss) == first + others;
    Associative(first, others, rest);
  }

  lemma Associative(a: seq<Token>, b: seq<Token>, c: seq<Token>)
    ensures (a + b) + c == a + (b + c)
  {
  }

  /** One printed suffix in front of a parsable chain adds exactly that suffix. */
  lemma SuffixStep(s: Suffix, after: seq<Token>, tail: seq<Suffix>, n: nat)
    requires WellFormedSuffix(s)
    requires ParseSuffixes(after).Ok? && ParseSuffixes(after).value.0 == tail
    requires ParseSuffixes(after).value.1 == n
    requires |after| == 0 || !after[0].Group? || after[0].delimiter != Parenthesis
    ensures ParseSuffixes(PrintSuffix(s) + after).Ok?
    ensures ParseSuffixes(PrintSuffix(s) + after).value.0 == [s] + tail
    ensures ParseSuffixes(PrintSuffix(s) + after).value.1 == |PrintSuffix(s)| + n
    decreases s, 1
  {
    var ts := PrintSuffix(s) + after;
    var k := |PrintSuffix(s)|;
    SuffixParsed(s, after);
    PrintedSuffixStart(s);
    assert ts[0] == PrintSuffix(s)[0] && ts[k..] == after;
    ChainStep(ts, s, k, tail, n);
  }

  /** A printed suffix is never empty and never starts with a comma. */
  lemma PrintedSuffixStart(s: Suffix)
    ensures |PrintSuffix(s)| > 0 && !IsComma(PrintSuffix(s)[0])
  {
    match s
    case Unwrap =>
    case Field(_) =>
    case TupleIndex(_) =>
    case ArrayIndex(_) =>
    case FunctionCall(_, _) =>
  }

  /** A suffix followed by a parsable chain extends the chain. */
  lemma ChainStep(ts: seq<Token>, s: Suffix, k: nat, tail: seq<Suffix>, n: nat)
    requires |ts| > 0 && !IsComma(ts[0])
    requires ParseSuffix(ts).Ok? && ParseSuffix(ts).value.0 == s && ParseSuffix(ts).value.1 == k
    requires ParseSuffixes(ts[k..]).Ok? && ParseSuffixes(ts[k..]).value.0 == tail
    requires ParseSuffixes(ts[k..]).value.1 == n
    ensures ParseSuffixes(ts).Ok? && ParseSuffixes(ts).value.1 == n + k
    ensures ParseSuffixes(ts).value.0 == [s] + tail
  {
  }

  /** The parser reads one printed suffix back, whatever follows it, unless a parenthesis follows. */
  lemma {:induction false} SuffixParsed(s: Suffix, after: seq<Token>)
    requires WellFormedSuffix(s)
    requires |after| == 0 || !after[0].Group? || after[0].delimiter != Parenthesis
    ensures ParseSuffix(PrintSuffix(s) + after).Ok?
    ensures ParseSuffix(PrintSuffix(s) + after).value.0 == s
    ensures ParseSuffix(PrintSuffix(s) + after).value.1 == |PrintSuffix(s)|
    decreases s, 0
  {
    var ts := PrintSuffix(s) + after;
    match s
    case Unwrap =>
    case Field(name) =>
    case TupleIndex(i) =>
    case ArrayIndex(x) =>
      GroupRoundTrip(x);
    case FunctionCall(name, args) =>
      ArgsRoundTrip(args);
  }

  lemma NoParenthesisAhead(ss: seq<Suffix>, rest: seq<Token>)
    requires EndsExpr(rest)
    ensures var after := PrintSuffixes(ss) + rest;
      |after| == 0 || !after[0].Group? || after[0].delimiter != Parenthesis
  {
    var tail := PrintSuffixes(ss);
    if |tail| > 0 {
      SuffixesStart(ss);
      assert (tail + rest)[0] == tail[0];
    } else {
      assert tail + rest == rest;
    }
  }

  /** A printed suffix chain never starts with a parenthesis group. */
  lemma SuffixesStart(ss: seq<Suffix>)
    requires |PrintSuffixes(ss)| > 0
    ensures !PrintSuffixes(ss)[0].Group? || PrintSuffixes(ss)[0].delimiter == Bracket
  {
    if |PrintSuffix(ss[0])| == 0 {
      SuffixesStart(ss[1..]);
    }
  }

  lemma {:induction false} ArgsRoundTrip(args: seq<Expr>)
    requires WellFormedArgs(args)
    ensures ParseArguments(PrintArgs(args)) == Ok(args)
    decreases args, 1
  {
    if |args| > 0 {
      var first := PrintExpr(args[0]);
      var trailing := PrintTrailing(args[1..]);
      TrailingStart(args[1..]);
      ExprRoundTrip(args[0], trailing);
      assert PrintArgs(args)[|first|..] == trailing;
      TrailingRoundTrip(args[1..]);
      assert [args[0]] + args[1..] == args;
    }
  }

  lemma TrailingStart(args: seq<Expr>)
    ensures EndsExpr(PrintTrailing(args))
  {
  }

  lemma {:induction false} TrailingRoundTrip(args: seq<Expr>)
    requires WellFormedArgs(args)
    ensures ParseTrailing(PrintTrailing(args)) == Ok(args)
    decreases args, 0
  {
    if |args| > 0 {
      var ts := PrintTrailing(args);
      var first := PrintExpr(args[0]);
      var trailing := PrintTrailing(args[1..]);
      assert ts[1..] == first + trailing;
      TrailingStart(args[1..]);
      ExprRoundTrip(args[0], trailing);
      assert ts[1 + |first|..] == trailing;
      TrailingRoundTrip(args[1..]);
      assert [args[0]] + args[1..] == args;
    }
  }

  /** Printing and parsing a whole argument list gives the list back. */
  lemma SyntaxRoundTrip(s: Syntax)
    requires WellFormedArgs(s.args)
    ensures ParseSyntax(PrintArgs(s.args)) == Ok(s)
  {
    ArgsRoundTrip(s.args);
  }

  /** The tokens of `"{}", $.foo().7[0x0_C].foo` once the lexer has turned `0x0_C` into 12. */
  const SuffixExampleTokens: seq<Token> := [
    Lit(StrLit("{}"), 0), Punct(',', 0), Punct('$', 0),
    Punct('.', 0), Ident("foo", 0), Group(Parenthesis, [], 0),
    Punct('.', 0), Lit(IntLit(7, ""), 0),
    Group(Bracket, [Lit(IntLit(12, ""), 0)], 0),
    Punct('.', 0), Ident("foo", 0)]

  const SuffixExampleChain: seq<Suffix> := [
    FunctionCall("foo", []), TupleIndex(7), ArrayIndex(Expr(LitInt(12, Meta), [])), Field("foo")]

  const SuffixExampleSyntax: Syntax := Syntax([
    Expr(LitStr("{}", Meta), []),
    Expr(BuildInfo(Meta), SuffixExampleChain)])

  lemma SuffixExampleWellFormed()
    ensures WellFormedArgs(SuffixExampleSyntax.args)
  {
    var ss := SuffixExampleChain;
    assert WellFormedSuffixes(ss[4..]);
    assert ss[3..][1..] == ss[4..];
    assert WellFormedSuffixes(ss[3..]);
    assert ss[2..][1..] == ss[3..];
    assert WellFormedSuffixes(ss[2..]);
    assert ss[1..][1..] == ss[2..];
    assert WellFormedSuffixes(ss[1..]);
    var args := SuffixExampleSyntax.args;
    assert WellFormedArgs(args[2..]);
    assert args[1..][1..] == args[2..];
  }

  lemma SuffixExamplePrinted()
    ensures PrintArgs(SuffixExampleSyntax.args) == SuffixExampleTokens
  {
    var ss := SuffixExampleChain;
    assert PrintSuffixes(ss[4..]) == [];
    assert PrintSuffixes(ss[3..]) == [Punct('.', 0), Ident("foo", 0)];
    var index := Expr(LitInt(12, Meta), []);
    assert PrintSuffixes(index.suffixes) == [];
    assert PrintExpr(index) == [Lit(IntLit(12, ""), 0)];
    assert ss[2] == ArrayIndex(index);
    assert PrintSuffixes(ss[2..]) == [Group(Bracket, [Lit(IntLit(12, ""), 0)], 0)] + PrintSuffixes(ss[3..]);
    assert PrintSuffixes(ss[1..]) == [Punct('.', 0), Lit(IntLit(7, ""), 0)] + PrintSuffixes(ss[2..]);
    assert PrintSuffixes(ss) == [Punct('.', 0), Ident("foo", 0), Group(Parenthesis, [], 0)] + PrintSuffixes(ss[1..]);
    var args := SuffixExampleSyntax.args;
    var first := Expr(LitStr("{}", Meta), []);
    assert PrintSuffixes(first.suffixes) == [];
    assert PrintExpr(args[0]) == [Lit(StrLit("{}"), 0)];
    assert PrintExpr(args[1]) == [Punct('$', 0)] + PrintSuffixes(ss);
    assert PrintTrailing(args[2..]) == [];
    assert PrintTrailing(args[1..]) == [Punct(',', 0)] + PrintExpr(args[1]);
  }

  /**
   `"{}", $.foo().7[0x0_C].foo` parses into the string literal and the build
   snapshot with its four suffixes in source order.
   */
  lemma FormatSuffixesExample()
    ensures ParseSyntax(SuffixExampleTokens) == Ok(SuffixExampleSyntax)
  {
    SuffixExampleWellFormed();
    SuffixExamplePrinted();
    SyntaxRoundTrip(SuffixExampleSyntax);
  }

  /** `"{}",` is rejected: an argument list may not end in a comma. */
  lemma TrailingCommaRejected(ts: seq<Token>)
    requires |ts| > 0 && IsComma(ts[|ts| - 1])
    ensures ParseSyntax(ts).Err?
  {
  }
}
