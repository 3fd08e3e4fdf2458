/**
 Plain-text helpers used by every renderer of the model: decimal rendering and
 parsing (Rust's `Display` for integers and `str::parse`), zero padding, joining
 and splitting, UTF-8 byte lengths, byte-prefix slicing and Unicode whitespace
 trimming. Strings are `seq<char>`, each `char` a Unicode scalar value.
 */
module Text {
  import opened Wrappers

  // ---------------------------------------------------------------------------
  // Character classes

  predicate IsAsciiDigit(c: char) {
    '0' <= c <= '9'
  }

  /** `char::is_ascii_whitespace`: space, tab, line feed, form feed and carriage return. */
  predicate IsAsciiWhitespace(c: char) {
    c == ' ' || c == '\t' || c == '\n' || c == '\U{000C}' || c == '\r'
  }

  /** `char::is_whitespace`: the code points carrying the Unicode White_Space property. */
  predicate IsWhitespace(c: char) {
    ('\U{0009}' <= c <= '\U{000D}') || c == ' ' || c == '\U{0085}' || c == '\U{00A0}'
    || c == '\U{1680}' || ('\U{2000}' <= c <= '\U{200A}') || c == '\U{2028}' || c == '\U{2029}'
    || c == '\U{202F}' || c == '\U{205F}' || c == '\U{3000}'
  }

  predicate AllDigits(s: string) {
    forall i :: 0 <= i < |s| ==> IsAsciiDigit(s[i])
  }

  predicate IsAscii(s: string) {
    forall i :: 0 <= i < |s| ==> s[i] as int < 0x80
  }

  // ---------------------------------------------------------------------------
  // Decimal numbers

  function DigitChar(d: nat): (c: char)
    requires d < 10
    ensures IsAsciiDigit(c)
  {
    ('0' as int + d) as char
  }

  function DigitValue(c: char): nat
    requires IsAsciiDigit(c)
  {
    c as int - '0' as int
  }

  /** The value of a string of decimal digits, most significant first. */
  function DecimalValue(s: string): nat
    requires AllDigits(s)
  {
    if |s| == 0 then 0 else DecimalValue(s[..|s| - 1]) * 10 + DigitValue(s[|s| - 1])
  }

  /** `Display` of an unsigned integer: shortest decimal form, no sign, no leading zero. */
  function NatToString(n: nat): (s: string)
    ensures |s| >= 1 && AllDigits(s)
    ensures |s| > 1 ==> s[0] != '0'
  {
    if n < 10 then [DigitChar(n)] else NatToString(n / 10) + [DigitChar(n % 10)]
  }

  /** `Display` of a signed integer. */
  function IntToString(i: int): (s: string)
    ensures |s| >= 1
    ensures i < 0 <==> s[0] == '-'
  {
    if i < 0 then "-" + NatToString(-i) else NatToString(i)
  }

  /** Decimal rendering is read back exactly by `DecimalValue`. */
  lemma {:induction false} DecimalRoundTrip(n: nat)
    ensures DecimalValue(NatToString(n)) == n
  {
    if n >= 10 {
      var s := NatToString(n);
      assert s[..|s| - 1] == NatToString(n / 10);
      DecimalRoundTrip(n / 10);
    }
  }

  /** Distinct numbers render to distinct strings. */
  lemma NatToStringInjective(m: nat, n: nat)
    requires NatToString(m) == NatToString(n)
    ensures m == n
  {
    DecimalRoundTrip(m);
    DecimalRoundTrip(n);
  }

  function Pow10(k: nat): (p: nat)
    ensures p >= 1
  {
    if k == 0 then 1 else 10 * Pow10(k - 1)
  }

  /** A number below `10^k` renders in at most `k` digits. */
  lemma {:induction false} NatToStringLength(n: nat, k: nat)
    requires 1 <= k && n < Pow10(k)
    ensures |NatToString(n)| <= k
  {
    if n >= 10 {
      NatToStringLength(n / 10, k - 1);
    }
  }

  function Repeat(c: char, n: nat): (s: string)
    ensures |s| == n
    ensures forall i :: 0 <= i < n ==> s[i] == c
  {
    if n == 0 then "" else [c] + Repeat(c, n - 1)
  }

  lemma {:induction false} LeadingZeroValue(s: string)
    requires AllDigits(s)
    ensures AllDigits("0" + s) && DecimalValue("0" + s) == DecimalValue(s)
  {
    if |s| > 0 {
      var t := "0" + s;
      assert t[..|t| - 1] == "0" + s[..|s| - 1];
      LeadingZeroValue(s[..|s| - 1]);
    }
  }

  lemma {:induction false} LeadingZerosValue(k: nat, s: string)
    requires AllDigits(s)
    ensures AllDigits(Repeat('0', k) + s) && DecimalValue(Repeat('0', k) + s) == DecimalValue(s)
  {
    if k > 0 {
      var u := Repeat('0', k - 1) + s;
      LeadingZerosValue(k - 1, s);
      assert Repeat('0', k) + s == "0" + u;
      LeadingZeroValue(u);
      assert DecimalValue("0" + u) == DecimalValue(u) == DecimalValue(s);
    } else {
      assert Repeat('0', k) + s == s;
    }
  }

  /** `{:0width}`: the decimal form left-padded with zeros to at least `width` digits. */
  function PadZeros(n: nat, width: nat): (s: string)
    ensures AllDigits(s)
    ensures |s| == if |NatToString(n)| < width then width else |NatToString(n)|
    ensures DecimalValue(s) == n
  {
    var d := NatToString(n);
    var pad := if |d| < width then width - |d| else 0;
    LeadingZerosValue(pad, d);
    DecimalRoundTrip(n);
    Repeat('0', pad) + d
  }

  /**
   `str::parse` for a primitive integer type whose range is `min..=max`: an optional
   `+` (and, for signed types, `-`) followed by at least one ASCII digit.
   */
  function ParseInteger(s: string, signed: bool, min: int, max: int): (r: Option<int>)
    ensures r.Some? ==> min <= r.value <= max
    ensures |s| == 0 ==> r.None?
  {
    if |s| == 0 then None
    else
      var negative := signed && s[0] == '-';
      var digits := if negative || s[0] == '+' then s[1..] else s;
      if |digits| == 0 || !AllDigits(digits) then None
      else
        var v := if negative then -(DecimalValue(digits) as int) else DecimalValue(digits);
        if min <= v <= max then Some(v) else None
  }

  const I64_MIN: int := -0x8000_0000_0000_0000
  const I64_MAX: int := 0x7FFF_FFFF_FFFF_FFFF
  const U64_MAX: int := 0xFFFF_FFFF_FFFF_FFFF

  /** Rendering an in-range integer and parsing it back yields the integer again. */
  lemma ParseIntToString(i: int, signed: bool, min: int, max: int)
    requires min <= i <= max
    requires signed || i >= 0
    ensures ParseInteger(IntToString(i), signed, min, max) == Some(i)
  {
    var s := IntToString(i);
    if i < 0 {
      assert s[1..] == NatToString(-i);
      DecimalRoundTrip(-i);
    } else {
      DecimalRoundTrip(i);
    }
  }

  // ---------------------------------------------------------------------------
  // Joining and splitting

  /** `[T]::join`: the parts with `sep` between neighbours. */
  function Join(parts: seq<string>, sep: string): string {
    if |parts| == 0 then ""
    else if |parts| == 1 then parts[0]
    else parts[0] + sep + Join(parts[1..], sep)
  }

  function IndexOf(s: string, c: char): (k: nat)
    ensures k <= |s|
    ensures k < |s| ==> s[k] == c
    ensures forall i :: 0 <= i < k ==> s[i] != c
  {
    if |s| == 0 then 0 else if s[0] == c then 0 else 1 + IndexOf(s[1..], c)
  }

  /** `str::split(c)` collected: never empty; the empty string splits into one empty part. */
  function Split(s: string, c: char): (parts: seq<string>)
    ensures |parts| >= 1
    ensures forall i :: 0 <= i < |parts| ==> c !in parts[i]
    ensures Join(parts, [c]) == s
    decreases |s|
  {
    var k := IndexOf(s, c);
    if k == |s| then
      [s]
    else
      var rest := Split(s[k + 1..], c);
      var parts := [s[..k]] + rest;
      assert parts[1..] == rest;
      assert s == s[..k] + [c] + s[k + 1..];
      parts
  }

  // ---------------------------------------------------------------------------
  // UTF-8

  /** Number of bytes of the UTF-8 encoding of one scalar value. */
  function Utf8Width(c: char): nat {
    if c as int < 0x80 then 1 else if c as int < 0x800 then 2 else if c as int < 0x10000 then 3 else 4
  }

  /** `str::len`: the length of the UTF-8 encoding in bytes. */
  function Utf8Length(s: string): nat {
    if |s| == 0 then 0 else Utf8Width(s[0]) + Utf8Length(s[1..])
  }

  lemma {:induction false} Utf8LengthAtLeastChars(s: string)
    ensures Utf8Length(s) >= |s|
  {
    if |s| > 0 {
      Utf8LengthAtLeastChars(s[1..]);
    }
  }

  /** For ASCII text the byte length is the character count. */
  lemma {:induction false} AsciiUtf8Length(s: string)
    requires IsAscii(s)
    ensures Utf8Length(s) == |s|
  {
    if |s| > 0 {
      AsciiUtf8Length(s[1..]);
    }
  }

  lemma {:induction false} Utf8LengthPrefixStep(s: string, k: nat)
    requires 0 < |s| && k < |s|
    ensures Utf8Length(s[..k + 1]) == Utf8Width(s[0]) + Utf8Length(s[1..][..k])
  {
    assert s[..k + 1][1..] == s[1..][..k];
  }

  /**
   `&s[0..n]`: the prefix whose UTF-8 encoding is exactly `n` bytes long. `None`
   stands for Rust's panic when `n` exceeds the length or falls inside a character.
   */
  function BytePrefix(s: string, n: nat): (r: Option<string>)
    ensures r.Some? ==> |r.value| <= |s| && r.value == s[..|r.value|] && Utf8Length(r.value) == n
    ensures r.None? <==> forall k :: 0 <= k <= |s| ==> Utf8Length(s[..k]) != n
  {
    if n == 0 then
      assert Utf8Length(s[..0]) == 0;
      Some("")
    else if |s| == 0 then
      None
    else if Utf8Width(s[0]) > n then
      assert forall k :: 0 <= k <= |s| ==> Utf8Length(s[..k]) != n by {
        forall k | 0 <= k <= |s|
          ensures Utf8Length(s[..k]) != n
        {
          if k > 0 {
            Utf8LengthPrefixStep(s, k - 1);
          }
        }
      }
      None
    else
      var tail := BytePrefix(s[1..], n - Utf8Width(s[0]));
      if tail.None? then
        assert forall k :: 0 <= k <= |s| ==> Utf8Length(s[..k]) != n by {
          forall k | 0 <= k <= |s|
            ensures Utf8Length(s[..k]) != n
          {
            if k > 0 {
              Utf8LengthPrefixStep(s, k - 1);
            }
          }
        }
        None
      else
        var p := [s[0]] + tail.value;
        assert p[1..] == tail.value;
        Some(p)
  }

  /** On ASCII text the byte prefix of `n <= |s|` bytes is the first `n` characters. */
  lemma AsciiBytePrefix(s: string, n: nat)
    requires IsAscii(s) && n <= |s|
    ensures BytePrefix(s, n) == Some(s[..n])
  {
    AsciiUtf8Length(s[..n]);
    var r := BytePrefix(s, n);
    assert r.Some?;
    AsciiUtf8Length(r.value);
  }

  // ---------------------------------------------------------------------------
  // Panic messages of std's indexing

  /** `v[i]` on a slice or vector with `i >= len`. */
  function IndexOutOfBounds(len: nat, index: nat): string {
    "index out of bounds: the len is " + NatToString(len) + " but the index is " + NatToString(index)
  }

  /** The most bytes of a string that a slicing panic quotes. */
  const MAX_DISPLAY_LENGTH: nat := 256

  /** `&s[..s.floor_char_boundary(n)]`: the longest prefix of at most `n` UTF-8 bytes. */
  function FloorPrefix(s: string, n: nat): (p: string)
    ensures |p| <= |s| && p == s[..|p|] && Utf8Length(p) <= n
    ensures |p| < |s| ==> Utf8Length(p) + Utf8Width(s[|p|]) > n
  {
    if |s| == 0 || Utf8Width(s[0]) > n then ""
    else
      var rest := FloorPrefix(s[1..], n - Utf8Width(s[0]));
      var p := [s[0]] + rest;
      assert p[1..] == rest;
      assert s[..|p|] == [s[0]] + s[1..][..|rest|];
      p
  }

  /** `{:?}` of a character that Debug does not escape: the character in single quotes. */
  function CharDebug(c: char): string {
    "'" + [c] + "'"
  }

  /**
   The message of std's panic for `&s[0..end]` when that slice does not exist:
   out of bounds when `end` lies past the last byte, otherwise the character
   byte `end` falls inside, with its byte range. Either way the string is
   quoted up to its first 256 bytes, and `[...]` marks a cut.
   */
  function SlicePanic(s: string, end: nat): string
    requires BytePrefix(s, end).None?
  {
    var quoted := FloorPrefix(s, MAX_DISPLAY_LENGTH);
    var ellipsis := if |quoted| < |s| then "[...]" else "";
    if Utf8Length(s) < end then
      "byte index " + NatToString(end) + " is out of bounds of `" + quoted + "`" + ellipsis
    else
      assert Utf8Length(s[..|s|]) != end;
      assert s[..|s|] == s;
      var before := FloorPrefix(s, end);
      var ch := s[|before|];
      var start := Utf8Length(before);
      "byte index " + NatToString(end) + " is not a char boundary; it is inside " + CharDebug(ch)
        + " (bytes " + NatToString(start) + ".." + NatToString(start + Utf8Width(ch)) + ") of `"
        + quoted + "`" + ellipsis
  }

  /** A string of at most `n` bytes is its own floor prefix. */
  lemma {:induction false} FloorPrefixWhole(s: string, n: nat)
    requires Utf8Length(s) <= n
    ensures FloorPrefix(s, n) == s
  {
    if |s| > 0 {
      FloorPrefixWhole(s[1..], n - Utf8Width(s[0]));
      assert [s[0]] + s[1..] == s;
    }
  }

  /** Where a byte prefix of exactly `n` bytes exists, it is the floor prefix at `n`. */
  lemma FloorPrefixIsBytePrefix(s: string, n: nat)
    requires BytePrefix(s, n).Some?
    ensures FloorPrefix(s, n) == BytePrefix(s, n).value
  {
    var b := BytePrefix(s, n).value;
    var p := FloorPrefix(s, n);
    FloorPrefixMaximal(s, n, |b|);
    PrefixGrows(s, |b|, |p|);
  }

  /** Every prefix within `n` bytes is at most as long as the floor prefix. */
  lemma {:induction false} FloorPrefixMaximal(s: string, n: nat, k: nat)
    requires k <= |s| && Utf8Length(s[..k]) <= n
    ensures k <= |FloorPrefix(s, n)|
  {
    if k > 0 {
      Utf8LengthPrefixStep(s, k - 1);
      FloorPrefixMaximal(s[1..], n - Utf8Width(s[0]), k - 1);
    }
  }

  /** A longer prefix has at least the next character's width more bytes. */
  lemma PrefixGrows(s: string, j: nat, k: nat)
    requires k <= |s|
    ensures j < k ==> Utf8Length(s[..k]) >= Utf8Length(s[..j]) + Utf8Width(s[j])
  {
    if j < k {
      Utf8LengthSplit(s[..k], j);
      assert s[..k][..j] == s[..j];
      assert s[..k][j..][0] == s[j];
    }
  }

  /** The byte length of a string is that of any split of it. */
  lemma {:induction false} Utf8LengthSplit(s: string, k: nat)
    requires k <= |s|
    ensures Utf8Length(s) == Utf8Length(s[..k]) + Utf8Length(s[k..])
  {
    if k > 0 {
      Utf8LengthSplit(s[1..], k - 1);
      assert s[1..][..k - 1] == s[..k][1..];
      assert s[1..][k - 1..] == s[k..];
    }
  }

  /** A short string is out of bounds at a later byte, and is quoted whole. */
  lemma SlicePanicOutOfBounds(s: string, end: nat)
    requires Utf8Length(s) < end && Utf8Length(s) <= MAX_DISPLAY_LENGTH
    ensures BytePrefix(s, end).None?
    ensures SlicePanic(s, end) == "byte index " + NatToString(end) + " is out of bounds of `" + s + "`"
  {
    assert forall k :: 0 <= k <= |s| ==> Utf8Length(s[..k]) != end by {
      forall k | 0 <= k <= |s|
        ensures Utf8Length(s[..k]) != end
      {
        Utf8LengthSplit(s, k);
      }
    }
    FloorPrefixWhole(s, MAX_DISPLAY_LENGTH);
  }

  /**
   Byte `end` falling inside the first non-ASCII character, after an ASCII
   start, names that character and its byte range, and quotes a short string whole.
   */
  lemma SlicePanicInsideChar(a: string, c: char, t: string, end: nat)
    requires IsAscii(a) && |a| < end < |a| + Utf8Width(c)
    requires Utf8Length(a + [c] + t) <= MAX_DISPLAY_LENGTH
    ensures BytePrefix(a + [c] + t, end).None?
    ensures var s := a + [c] + t;
      SlicePanic(s, end)
        == "byte index " + NatToString(end) + " is not a char boundary; it is inside " + CharDebug(c)
           + " (bytes " + NatToString(|a|) + ".." + NatToString(|a| + Utf8Width(c)) + ") of `" + s + "`"
  {
    InsideCharPrefixes(a, c, t, end);
  }

  lemma InsideCharPrefixes(a: string, c: char, t: string, end: nat)
    requires IsAscii(a) && |a| < end < |a| + Utf8Width(c)
    requires Utf8Length(a + [c] + t) <= MAX_DISPLAY_LENGTH
    ensures var s := a + [c] + t;
      BytePrefix(s, end).None? && end <= Utf8Length(s) && s[|a|] == c && Utf8Length(a) == |a|
      && FloorPrefix(s, end) == a && FloorPrefix(s, MAX_DISPLAY_LENGTH) == s
  {
    var s := a + [c] + t;
    AsciiUtf8Length(a);
    assert s[..|a|] == a;
    InsideCharNoBoundary(a, c, t, end);
    var p := FloorPrefix(s, end);
    FloorPrefixMaximal(s, end, |a|);
    PrefixGrows(s, |a|, |p|);
    FloorPrefixWhole(s, MAX_DISPLAY_LENGTH);
    PrefixGrows(s, |a|, |s|);
    assert s[..|s|] == s;
  }

  lemma InsideCharNoBoundary(a: string, c: char, t: string, end: nat)
    requires IsAscii(a) && |a| < end < |a| + Utf8Width(c)
    ensures BytePrefix(a + [c] + t, end).None?
  {
    var s := a + [c] + t;
    assert s[..|a|] == a;
    assert s[|a|] == c;
    AsciiUtf8Length(a);
    forall k | 0 <= k <= |s|
      ensures Utf8Length(s[..k]) != end
    {
      if k <= |a| {
        assert s[..k] == a[..k];
        AsciiUtf8Length(a[..k]);
      } else {
        PrefixGrows(s, |a|, k);
      }
    }
  }

  // ---------------------------------------------------------------------------
  // Trimming

  /** `str::trim_start`: drops the leading whitespace. */
  function TrimStart(s: string): (r: string)
    ensures |r| <= |s| && r == s[|s| - |r|..]
    ensures |r| == 0 || !IsWhitespace(r[0])
    ensures forall i :: 0 <= i < |s| - |r| ==> IsWhitespace(s[i])
  {
    if |s| > 0 && IsWhitespace(s[0]) then TrimStart(s[1..]) else s
  }

  /** `str::trim_end`: drops the trailing whitespace. */
  function TrimEnd(s: string): (r: string)
    ensures |r| <= |s| && r == s[..|r|]
    ensures |r| == 0 || !IsWhitespace(r[|r| - 1])
    ensures forall i :: |r| <= i < |s| ==> IsWhitespace(s[i])
  {
    if |s| > 0 && IsWhitespace(s[|s| - 1]) then TrimEnd(s[..|s| - 1]) else s
  }

  /** `str::trim`: drops whitespace at both ends. */
  function Trim(s: string): string {
    TrimStart(TrimEnd(s))
  }

  /** A string with no whitespace at either end is its own trimmed form. */
  lemma TrimmedFixpoint(s: string)
    requires |s| == 0 || (!IsWhitespace(s[0]) && !IsWhitespace(s[|s| - 1]))
    ensures TrimStart(s) == s && TrimEnd(s) == s && Trim(s) == s
  {
  }

  /** The result of `trim` has no whitespace at either end, and trimming it again changes nothing. */
  lemma TrimProperties(s: string)
    ensures var r := Trim(s);
      (|r| == 0 || (!IsWhitespace(r[0]) && !IsWhitespace(r[|r| - 1]))) && Trim(r) == r
  {
    var e := TrimEnd(s);
    var r := TrimStart(e);
    if |r| > 0 {
      assert r[|r| - 1] == e[|e| - 1];
    }
    TrimmedFixpoint(r);
  }

  lemma {:induction false} TrimStartAt(s: string, lo: nat)
    requires lo <= |s|
    requires forall i :: 0 <= i < lo ==> IsWhitespace(s[i])
    requires lo == |s| || !IsWhitespace(s[lo])
    ensures TrimStart(s) == s[lo..]
  {
    if lo > 0 {
      TrimStartAt(s[1..], lo - 1);
      assert s[1..][lo - 1..] == s[lo..];
    }
  }

  lemma {:induction false} TrimEndAt(s: string, hi: nat)
    requires hi <= |s|
    requires forall i :: hi <= i < |s| ==> IsWhitespace(s[i])
    requires hi == 0 || !IsWhitespace(s[hi - 1])
    ensures TrimEnd(s) == s[..hi]
  {
    if hi < |s| {
      TrimEndAt(s[..|s| - 1], hi);
      assert s[..|s| - 1][..hi] == s[..hi];
    }
  }

  /** The characters before `TrimStart`'s result and after `TrimEnd`'s result are exactly the edge whitespace. */
  lemma TrimBounds(s: string)
    ensures |s| - |TrimStart(s)| <= |TrimEnd(s)| || |TrimEnd(s)| == 0
    ensures |TrimEnd(s)| == 0 ==> |TrimStart(s)| == 0
  {
    var t := TrimStart(s);
    var e := TrimEnd(s);
    var lo := |s| - |t|;
  }

  /** Trimming the end first or the start first gives the same string. */
  lemma TrimStartCore(s: string, lo: nat, hi: nat)
    requires lo < hi <= |s|
    requires forall i :: 0 <= i < lo ==> IsWhitespace(s[i])
    requires !IsWhitespace(s[lo])
    ensures TrimStart(s[..hi]) == s[lo..hi]
  {
    var u := s[..hi];
    assert forall i :: 0 <= i < lo ==> u[i] == s[i];
    TrimStartAt(u, lo);
  }

  lemma TrimEndCore(s: string, lo: nat, hi: nat)
    requires lo < hi <= |s|
    requires forall i :: hi <= i < |s| ==> IsWhitespace(s[i])
    requires !IsWhitespace(s[hi - 1])
    ensures TrimEnd(s[lo..]) == s[lo..hi]
  {
    var t := s[lo..];
    forall i | hi - lo <= i < |t|
      ensures IsWhitespace(t[i])
    {
      assert t[i] == s[lo + i];
    }
    TrimEndAt(t, hi - lo);
  }

  lemma TrimOrderIrrelevant(s: string)
    ensures TrimStart(TrimEnd(s)) == TrimEnd(TrimStart(s))
  {
    TrimBounds(s);
    var t := TrimStart(s);
    var e := TrimEnd(s);
    var lo := |s| - |t|;
    var hi := |e|;
    if hi > 0 {
      assert t[0] == s[lo];
      assert e[hi - 1] == s[hi - 1];
      TrimStartCore(s, lo, hi);
      TrimEndCore(s, lo, hi);
    } else {
      assert e == [] && t == [];
    }
  }
}
