/**
 Token trees as procedural macros see them: identifiers, single punctuation
 characters, literals and delimited groups, each with the span it came from.
 Both the argument parser and the constructor-code serialisers work on them.
 */
module Tokens {
  import opened Wrappers
  import opened Text

  datatype Delimiter = Parenthesis | Bracket | Brace

  /** An integer literal keeps its value and its type suffix (`7u8` has suffix `"u8"`). */
  datatype Literal = IntLit(number: int, suffix: string) | StrLit(text: string)

  /** A source position. Spans never influence parsing or evaluation. */
  type Span = nat

  datatype Token =
    | Ident(name: string, span: Span)
    | Punct(ch: char, span: Span)
    | Lit(lit: Literal, span: Span)
    | Group(delimiter: Delimiter, stream: seq<Token>, span: Span)

  /** The span every generated token carries. */
  const CallSite: Span := 0

  function TokenSize(t: Token): nat {
    match t
    case Group(_, stream, _) => 1 + StreamSize(stream)
    case _ => 1
  }

  /** The number of tokens in a stream, counting the contents of groups. */
  function StreamSize(ts: seq<Token>): nat {
    if |ts| == 0 then 0 else TokenSize(ts[0]) + StreamSize(ts[1..])
  }

  lemma {:induction false} StreamSizeAppend(a: seq<Token>, b: seq<Token>)
    ensures StreamSize(a + b) == StreamSize(a) + StreamSize(b)
  {
    if |a| > 0 {
      assert (a + b)[1..] == a[1..] + b;
      StreamSizeAppend(a[1..], b);
    } else {
      assert a + b == b;
    }
  }

  /** Dropping a non-empty prefix makes a stream strictly smaller. */
  lemma StreamSizeDrop(ts: seq<Token>, n: nat)
    requires n <= |ts|
    ensures StreamSize(ts[n..]) <= StreamSize(ts)
    ensures n > 0 ==> StreamSize(ts[n..]) < StreamSize(ts)
  {
    assert ts == ts[..n] + ts[n..];
    StreamSizeAppend(ts[..n], ts[n..]);
  }

  /** The contents of a group inside a stream are smaller than the stream. */
  lemma GroupSmaller(ts: seq<Token>, i: nat)
    requires i < |ts| && ts[i].Group?
    ensures StreamSize(ts[i].stream) < StreamSize(ts)
  {
    assert ts == ts[..i] + ([ts[i]] + ts[i + 1..]);
    StreamSizeAppend(ts[..i], [ts[i]] + ts[i + 1..]);
    StreamSizeAppend([ts[i]], ts[i + 1..]);
  }

  /** A top-level comma, the separator of macro arguments. */
  predicate IsComma(t: Token) {
    t.Punct? && t.ch == ','
  }

  /** The number of top-level commas of a stream. */
  function CommaCount(ts: seq<Token>): nat {
    if |ts| == 0 then 0 else (if IsComma(ts[0]) then 1 else 0) + CommaCount(ts[1..])
  }

  lemma {:induction false} CommaCountAppend(a: seq<Token>, b: seq<Token>)
    ensures CommaCount(a + b) == CommaCount(a) + CommaCount(b)
  {
    if |a| > 0 {
      assert (a + b)[1..] == a[1..] + b;
      CommaCountAppend(a[1..], b);
    } else {
      assert a + b == b;
    }
  }

  lemma CommaCountNone(ts: seq<Token>)
    requires forall i :: 0 <= i < |ts| ==> !IsComma(ts[i])
    ensures CommaCount(ts) == 0
  {
    if |ts| > 0 {
      CommaCountNone(ts[1..]);
    }
  }

  /** The comma count of a stream split at `n`. */
  lemma CommaCountSplit(ts: seq<Token>, n: nat)
    requires n <= |ts|
    ensures CommaCount(ts) == CommaCount(ts[..n]) + CommaCount(ts[n..])
  {
    assert ts == ts[..n] + ts[n..];
    CommaCountAppend(ts[..n], ts[n..]);
  }

  // ---------------------------------------------------------------------------
  // Integer literal lexing

  /** The radix and the length of the prefix (`0x`, `0o`, `0b`) of an integer literal. */
  function Radix(text: string): (r: (nat, nat))
    ensures r.1 <= |text| && 2 <= r.0 <= 16
  {
    if |text| >= 2 && text[0] == '0' && text[1] == 'x' then (16, 2)
    else if |text| >= 2 && text[0] == '0' && text[1] == 'o' then (8, 2)
    else if |text| >= 2 && text[0] == '0' && text[1] == 'b' then (2, 2)
    else (10, 0)
  }

  /** The value of `c` as a digit of the given radix, if it is one. */
  function DigitIn(c: char, radix: nat): (r: Option<nat>)
    ensures r.Some? ==> r.value < radix
  {
    var v := if '0' <= c <= '9' then c as int - '0' as int
             else if 'a' <= c <= 'f' then c as int - 'a' as int + 10
             else if 'A' <= c <= 'F' then c as int - 'A' as int + 10
             else 16;
    if v < radix then Some(v) else None
  }

  /** The length of the leading run of digits and underscores. */
  function DigitRun(s: string, radix: nat): (k: nat)
    ensures k <= |s|
    ensures forall i :: 0 <= i < k ==> s[i] == '_' || DigitIn(s[i], radix).Some?
  {
    if |s| > 0 && (s[0] == '_' || DigitIn(s[0], radix).Some?) then 1 + DigitRun(s[1..], radix) else 0
  }

  /** The value of a run of digits and underscores, most significant digit first; underscores are skipped. */
  function RunValue(s: string, radix: nat): nat
    requires forall i :: 0 <= i < |s| ==> s[i] == '_' || DigitIn(s[i], radix).Some?
  {
    if |s| == 0 then 0
    else if s[|s| - 1] == '_' then RunValue(s[..|s| - 1], radix)
    else RunValue(s[..|s| - 1], radix) * radix + DigitIn(s[|s| - 1], radix).value
  }

  predicate HasDigit(s: string, radix: nat) {
    exists i :: 0 <= i < |s| && DigitIn(s[i], radix).Some?
  }

  /**
   Splits the text of an integer literal into its value and its type suffix,
   as the Rust lexer does: an optional radix prefix, digits with `_`
   separators, then the suffix. `None` when there is no digit at all.
   */
  function LexIntLiteral(text: string): (r: Option<(nat, string)>)
    ensures r.Some? ==> |r.value.1| < |text|
  {
    var (radix, start) := Radix(text);
    var body := text[start..];
    var k := DigitRun(body, radix);
    if !HasDigit(body[..k], radix) then None
    else Some((RunValue(body[..k], radix), body[k..]))
  }

  /** The decimal text of an integer literal with a type suffix such as `u8` or `i64`. */
  function IntLiteralText(value: nat, suffix: string): string {
    NatToString(value) + suffix
  }

  predicate IsTypeSuffix(suffix: string) {
    suffix == [] || suffix[0] == 'u' || suffix[0] == 'i'
  }

  lemma {:induction false} DigitRunDecimal(d: string, suffix: string)
    requires AllDigits(d) && IsTypeSuffix(suffix)
    ensures DigitRun(d + suffix, 10) == |d|
  {
    if |d| > 0 {
      assert (d + suffix)[1..] == d[1..] + suffix;
      DigitRunDecimal(d[1..], suffix);
    } else {
      assert d + suffix == suffix;
    }
  }

  lemma {:induction false} RunValueDecimal(d: string)
    requires AllDigits(d)
    ensures forall i :: 0 <= i < |d| ==> DigitIn(d[i], 10).Some?
    ensures RunValue(d, 10) == DecimalValue(d)
  {
    if |d| > 0 {
      RunValueDecimal(d[..|d| - 1]);
    }
  }

  /** Lexing the decimal text of a suffixed literal gives back its value and suffix. */
  lemma LexIntLiteralRoundTrip(value: nat, suffix: string)
    requires IsTypeSuffix(suffix)
    ensures LexIntLiteral(IntLiteralText(value, suffix)) == Some((value, suffix))
  {
    var d := NatToString(value);
    var text := d + suffix;
    assert Radix(text) == (10, 0) by {
      if |d| == 1 && |text| >= 2 {
        assert text[1] == suffix[0];
      } else if |text| >= 2 {
        assert text[1] == d[1];
      }
    }
    assert text[0..] == text;
    DigitRunDecimal(d, suffix);
    assert text[..|d|] == d && text[|d|..] == suffix;
    RunValueDecimal(d);
    DecimalRoundTrip(value);
    assert DigitIn(d[0], 10).Some?;
  }

  /** `0x0_C` is the hexadecimal literal 12 with no suffix. */
  lemma HexLiteralExample()
    ensures LexIntLiteral("0x0_C") == Some((12, ""))
  {
    var body := "0x0_C"[2..];
    assert body == "0_C";
    assert DigitRun(body, 16) == 3;
    assert body[..3] == body;
    assert DigitIn('C', 16) == Some(12);
    assert body[..2] == "0_";
    assert RunValue("0_", 16) == 0 by {
      assert "0_"[..1] == "0";
      assert "0"[..0] == "";
    }
    assert HasDigit(body, 16) by {
      assert DigitIn(body[0], 16).Some?;
    }
  }
}
