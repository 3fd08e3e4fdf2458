/**
 The token shapes the constructor-code serialisers emit, shared by both
 revisions: paths `a::b::c`, struct literals `Path { name: value, ... }`,
 `Some(..)` and `None`, `vec![a, b]`, `"text".to_string()`, the bare literals
 of `bool` and the integer types, and `Path(args).unwrap()` calls. Each shape
 has a reader that takes it apart again; the laws below show every reader
 undoes its writer, which is what makes the emitted code mean the value it
 was generated from. All generated tokens carry the call-site span.
 */
module InitShapes {
  import opened Wrappers
  import opened Tokens

  function Id(name: string): Token {
    Ident(name, CallSite)
  }

  function P(c: char): Token {
    Punct(c, CallSite)
  }

  function G(d: Delimiter, ts: seq<Token>): Token {
    Group(d, ts, CallSite)
  }

  /** No comma at the top level of a stream; commas inside groups do not count. */
  predicate NoComma(ts: seq<Token>) {
    forall i :: 0 <= i < |ts| ==> !IsComma(ts[i])
  }

  // ---------------------------------------------------------------------------
  // Paths

  /** `a::b::c`: the segments as identifiers, separated by two colon punctuations. */
  function PathTokens(segments: seq<string>): (ts: seq<Token>)
    requires |segments| >= 1
    ensures |ts| == 3 * |segments| - 2
    ensures NoComma(ts)
  {
    [Id(segments[0])] + PathTail(segments[1..])
  }

  function PathTail(segments: seq<string>): (ts: seq<Token>)
    ensures |ts| == 3 * |segments|
    ensures NoComma(ts)
  {
    if |segments| == 0 then [] else [P(':'), P(':'), Id(segments[0])] + PathTail(segments[1..])
  }

  /** The last segment of a path `prefix::name`. */
  function ReadVariant(ts: seq<Token>, prefix: seq<string>): Option<string>
    requires |prefix| >= 1
  {
    var n := |PathTokens(prefix)|;
    if |ts| == n + 3 && ts[..n] == PathTokens(prefix) && ts[n..n + 2] == [P(':'), P(':')] && ts[n + 2].Ident?
    then Some(ts[n + 2].name)
    else None
  }

  // ---------------------------------------------------------------------------
  // Comma-separated lists

  /** The index of the first top-level comma, or the length when there is none. */
  function FirstComma(ts: seq<Token>): (k: nat)
    ensures k <= |ts|
    ensures forall i :: 0 <= i < k ==> !IsComma(ts[i])
    ensures k < |ts| ==> IsComma(ts[k])
  {
    if |ts| == 0 then 0 else if IsComma(ts[0]) then 0 else 1 + FirstComma(ts[1..])
  }

  /** The elements separated by single commas, with no comma before the first or after the last. */
  function CommaSeparated(elems: seq<seq<Token>>): (ts: seq<Token>)
    ensures CommaCount(ts) >= if |elems| == 0 then 0 else |elems| - 1
  {
    if |elems| == 0 then []
    else if |elems| == 1 then elems[0]
    else
      CommaCountAppend(elems[0] + [P(',')], CommaSeparated(elems[1..]));
      CommaCountAppend(elems[0], [P(',')]);
      elems[0] + [P(',')] + CommaSeparated(elems[1..])
  }

  /** The pieces between top-level commas, the inverse of `CommaSeparated`. */
  function SplitAtCommas(ts: seq<Token>): (parts: seq<seq<Token>>)
    ensures |parts| >= 1
    ensures forall i :: 0 <= i < |parts| ==> NoComma(parts[i])
    decreases |ts|
  {
    var k := FirstComma(ts);
    if k == |ts| then [ts] else [ts[..k]] + SplitAtCommas(ts[k + 1..])
  }

  /** The elements of a bracket group's contents; nothing at all is the empty list. */
  function ReadElements(ts: seq<Token>): seq<seq<Token>> {
    if ts == [] then [] else SplitAtCommas(ts)
  }

  // ---------------------------------------------------------------------------
  // Struct literals

  /** One field of a struct literal: `name: value,`. */
  function FieldTokens(name: string, value: seq<Token>): seq<Token> {
    [Id(name), P(':')] + value + [P(',')]
  }

  /** The body of a struct literal: each field followed by its comma, in order. */
  function Fields(fields: seq<(string, seq<Token>)>): seq<Token> {
    if |fields| == 0 then [] else FieldTokens(fields[0].0, fields[0].1) + Fields(fields[1..])
  }

  /** Reads `name: value,` fields until the body ends; `None` when a piece has another shape. */
  function ReadFields(ts: seq<Token>): (r: Option<seq<(string, seq<Token>)>>)
    decreases |ts|
  {
    if ts == [] then Some([])
    else
      var k := FirstComma(ts);
      if k == |ts| || k < 2 || !ts[0].Ident? || ts[1] != P(':') then None
      else
        var rest :- ReadFields(ts[k + 1..]);
        Some([(ts[0].name, ts[2..k])] + rest)
  }

  /** `Path { fields }`. */
  function StructTokens(path: seq<string>, fields: seq<(string, seq<Token>)>): (ts: seq<Token>)
    requires |path| >= 1
    ensures |ts| >= 1 && NoComma(ts)
  {
    PathTokens(path) + [G(Brace, Fields(fields))]
  }

  /** The fields of a struct literal of the given path. */
  function ReadStruct(ts: seq<Token>, path: seq<string>): Option<seq<(string, seq<Token>)>>
    requires |path| >= 1
  {
    var n := |PathTokens(path)|;
    if |ts| != n + 1 || ts[..n] != PathTokens(path) || !ts[n].Group? || ts[n].delimiter != Brace then None
    else ReadFields(ts[n].stream)
  }

  function Names(fields: seq<(string, seq<Token>)>): seq<string> {
    seq(|fields|, i requires 0 <= i < |fields| => fields[i].0)
  }

  // ---------------------------------------------------------------------------
  // Options, lists, strings, scalars, calls

  /** `Some(inner)` or `None`. */
  function OptionTokens(inner: Option<seq<Token>>): (ts: seq<Token>)
    ensures |ts| >= 1 && NoComma(ts)
  {
    match inner
    case Some(v) => [Id("Some"), G(Parenthesis, v)]
    case None => [Id("None")]
  }

  function ReadOption(ts: seq<Token>): Option<Option<seq<Token>>> {
    if ts == [Id("None")] then Some(None)
    else if |ts| == 2 && ts[0] == Id("Some") && ts[1].Group? && ts[1].delimiter == Parenthesis then Some(Some(ts[1].stream))
    else None
  }

  /** `vec![e1, e2, ...]`. */
  function VecTokens(elems: seq<seq<Token>>): (ts: seq<Token>)
    ensures |ts| >= 1 && NoComma(ts)
  {
    [Id("vec"), P('!'), G(Bracket, CommaSeparated(elems))]
  }

  function ReadVec(ts: seq<Token>): Option<seq<seq<Token>>> {
    if |ts| == 3 && ts[..2] == [Id("vec"), P('!')] && ts[2].Group? && ts[2].delimiter == Bracket
    then Some(ReadElements(ts[2].stream))
    else None
  }

  /** The bare string literal, as `str` emits it. */
  function StrTokens(s: string): (ts: seq<Token>)
    ensures |ts| >= 1 && NoComma(ts)
  {
    [Lit(StrLit(s), CallSite)]
  }

  /** `"text".to_string()`, as `String` emits it. */
  function StringTokens(s: string): (ts: seq<Token>)
    ensures |ts| >= 1 && NoComma(ts)
  {
    StrTokens(s) + [P('.'), Id("to_string"), G(Parenthesis, [])]
  }

  function ReadString(ts: seq<Token>): Option<string> {
    if |ts| == 4 && ts[0].Lit? && ts[0].lit.StrLit? && ts[1..] == [P('.'), Id("to_string"), G(Parenthesis, [])]
    then Some(ts[0].lit.text)
    else None
  }

  /** `true` or `false`, as `bool` emits itself. */
  function BoolTokens(b: bool): (ts: seq<Token>)
    ensures |ts| >= 1 && NoComma(ts)
  {
    [Id(if b then "true" else "false")]
  }

  function ReadBool(ts: seq<Token>): Option<bool> {
    if ts == [Id("true")] then Some(true) else if ts == [Id("false")] then Some(false) else None
  }

  /** A suffixed integer literal, as the integer types emit themselves (`7u64`). */
  function IntTokens(n: int, suffix: string): (ts: seq<Token>)
    ensures |ts| >= 1 && NoComma(ts)
  {
    [Lit(IntLit(n, suffix), CallSite)]
  }

  function ReadInt(ts: seq<Token>, suffix: string): Option<int> {
    if |ts| == 1 && ts[0].Lit? && ts[0].lit.IntLit? && ts[0].lit.suffix == suffix then Some(ts[0].lit.number) else None
  }

  /** `Path(args).unwrap()`. */
  function UnwrapCall(path: seq<string>, args: seq<Token>): (ts: seq<Token>)
    requires |path| >= 1
    ensures |ts| >= 1 && NoComma(ts)
  {
    PathTokens(path) + [G(Parenthesis, args), P('.'), Id("unwrap"), G(Parenthesis, [])]
  }

  function ReadUnwrapCall(ts: seq<Token>, path: seq<string>): Option<seq<Token>>
    requires |path| >= 1
  {
    var n := |PathTokens(path)|;
    if |ts| == n + 4 && ts[..n] == PathTokens(path) && ts[n].Group? && ts[n].delimiter == Parenthesis
       && ts[n + 1..] == [P('.'), Id("unwrap"), G(Parenthesis, [])]
    then Some(ts[n].stream)
    else None
  }

  // ---------------------------------------------------------------------------
  // Laws

  lemma {:induction false} PathTailSnoc(segments: seq<string>, name: string)
    ensures PathTail(segments + [name]) == PathTail(segments) + [P(':'), P(':'), Id(name)]
  {
    if |segments| > 0 {
      assert (segments + [name])[1..] == segments[1..] + [name];
      PathTailSnoc(segments[1..], name);
    }
  }

  /** A path extended by one segment reads back as its prefix and that segment. */
  lemma VariantRoundTrip(prefix: seq<string>, name: string)
    requires |prefix| >= 1
    ensures PathTokens(prefix + [name]) == PathTokens(prefix) + [P(':'), P(':'), Id(name)]
    ensures ReadVariant(PathTokens(prefix + [name]), prefix) == Some(name)
  {
    assert (prefix + [name])[1..] == prefix[1..] + [name];
    PathTailSnoc(prefix[1..], name);
    var ts := PathTokens(prefix + [name]);
    var n := |PathTokens(prefix)|;
    assert ts[..n] == PathTokens(prefix);
    assert ts[n..n + 2] == [P(':'), P(':')];
  }

  lemma {:induction false} FirstCommaAfter(a: seq<Token>, b: seq<Token>)
    requires NoComma(a)
    ensures FirstComma(a + [P(',')] + b) == |a|
    ensures FirstComma(a) == |a|
  {
    if |a| > 0 {
      assert (a + [P(',')] + b)[1..] == a[1..] + [P(',')] + b;
      FirstCommaAfter(a[1..], b);
    }
  }

  /** Splitting at the commas gives back the comma-free elements that were separated. */
  lemma {:induction false} SplitCommaSeparated(elems: seq<seq<Token>>)
    requires |elems| >= 1
    requires forall i :: 0 <= i < |elems| ==> NoComma(elems[i])
    ensures SplitAtCommas(CommaSeparated(elems)) == elems
  {
    if |elems| == 1 {
      FirstCommaAfter(elems[0], []);
    } else {
      var rest := CommaSeparated(elems[1..]);
      var ts := elems[0] + [P(',')] + rest;
      FirstCommaAfter(elems[0], rest);
      assert ts[..|elems[0]|] == elems[0];
      assert ts[|elems[0]| + 1..] == rest;
      SplitCommaSeparated(elems[1..]);
      assert elems == [elems[0]] + elems[1..];
    }
  }

  /**
   A list of non-empty comma-free elements reads back element by element,
   the empty list included.
   */
  lemma ElementsRoundTrip(elems: seq<seq<Token>>)
    requires forall i :: 0 <= i < |elems| ==> |elems[i]| >= 1 && NoComma(elems[i])
    ensures ReadElements(CommaSeparated(elems)) == elems
  {
    if |elems| >= 1 {
      assert |CommaSeparated(elems)| >= |elems[0]| >= 1;
      SplitCommaSeparated(elems);
    }
  }

  lemma FieldsStep(name: string, value: seq<Token>, rest: seq<(string, seq<Token>)>)
    requires NoComma(value)
    ensures var ts := Fields([(name, value)] + rest);
      var k := |value| + 2;
      FirstComma(ts) == k && ts[..2] == [Id(name), P(':')] && ts[2..k] == value && ts[k + 1..] == Fields(rest)
  {
    var fs := [(name, value)] + rest;
    assert fs[1..] == rest;
    var ts := Fields(fs);
    var head := [Id(name), P(':')] + value;
    assert ts == head + [P(',')] + Fields(rest);
    assert NoComma(head) by {
      forall i | 0 <= i < |head|
        ensures !IsComma(head[i])
      {
        if i >= 2 {
          assert head[i] == value[i - 2];
        }
      }
    }
    FirstCommaAfter(head, Fields(rest));
  }

  /** The fields of a struct body read back in order, names and values alike. */
  lemma {:induction false} FieldsRoundTrip(fields: seq<(string, seq<Token>)>)
    requires forall i :: 0 <= i < |fields| ==> NoComma(fields[i].1)
    ensures ReadFields(Fields(fields)) == Some(fields)
  {
    if |fields| > 0 {
      var ts := Fields(fields);
      assert fields == [fields[0]] + fields[1..];
      FieldsStep(fields[0].0, fields[0].1, fields[1..]);
      FieldsRoundTrip(fields[1..]);
    }
  }

  /** A struct literal reads back as its path and its fields, in declaration order. */
  lemma StructRoundTrip(path: seq<string>, fields: seq<(string, seq<Token>)>)
    requires |path| >= 1
    requires forall i :: 0 <= i < |fields| ==> NoComma(fields[i].1)
    ensures ReadStruct(StructTokens(path, fields), path) == Some(fields)
  {
    var ts := StructTokens(path, fields);
    assert ts[..|PathTokens(path)|] == PathTokens(path);
    FieldsRoundTrip(fields);
  }

  /** `Some(..)` and `None` read back as the option they were written from. */
  lemma OptionRoundTrip(inner: Option<seq<Token>>)
    ensures ReadOption(OptionTokens(inner)) == Some(inner)
  {
  }

  /** `vec![..]` reads back element by element. */
  lemma VecRoundTrip(elems: seq<seq<Token>>)
    requires forall i :: 0 <= i < |elems| ==> |elems[i]| >= 1 && NoComma(elems[i])
    ensures ReadVec(VecTokens(elems)) == Some(elems)
  {
    ElementsRoundTrip(elems);
    assert VecTokens(elems)[..2] == [Id("vec"), P('!')];
  }

  /** `"text".to_string()` reads back as its text. */
  lemma StringRoundTrip(s: string)
    ensures ReadString(StringTokens(s)) == Some(s)
  {
    assert StringTokens(s)[1..] == [P('.'), Id("to_string"), G(Parenthesis, [])];
  }

  /** The literals of `bool` and the integer types read back as their values. */
  lemma LiteralRoundTrips(b: bool, n: int, suffix: string)
    ensures ReadBool(BoolTokens(b)) == Some(b)
    ensures ReadInt(IntTokens(n, suffix), suffix) == Some(n)
  {
  }

  lemma UnwrapCallRoundTrip(path: seq<string>, args: seq<Token>)
    requires |path| >= 1
    ensures ReadUnwrapCall(UnwrapCall(path, args), path) == Some(args)
  {
    var ts := UnwrapCall(path, args);
    var n := |PathTokens(path)|;
    assert ts[..n] == PathTokens(path);
    assert ts[n + 1..] == [P('.'), Id("unwrap"), G(Parenthesis, [])];
  }

  /**
   The `first`-flag loop of the `Vec` serialiser: a comma before every element
   but the first. It writes exactly the comma-separated list.
   */
  method WriteElements(elems: seq<seq<Token>>) returns (ts: seq<Token>)
    ensures ts == CommaSeparated(elems)
  {
    ts := [];
    var first := true;
    var i := 0;
    while i < |elems|
      invariant i <= |elems|
      invariant first <==> i == 0
      invariant ts == CommaSeparated(elems[..i])
    {
      if first {
        first := false;
      } else {
        ts := ts + [P(',')];
      }
      ts := ts + elems[i];
      assert elems[..i + 1] == elems[..i] + [elems[i]];
      if i > 0 {
        SeparatedSnoc(elems[..i], elems[i]);
      }
      i := i + 1;
    }
    assert elems[..i] == elems;
  }

  lemma {:induction false} SeparatedSnoc(a: seq<seq<Token>>, x: seq<Token>)
    requires |a| >= 1
    ensures CommaSeparated(a + [x]) == CommaSeparated(a) + [P(',')] + x
  {
    assert (a + [x])[1..] == a[1..] + [x];
    if |a| > 1 {
      SeparatedSnoc(a[1..], x);
    }
  }
}
