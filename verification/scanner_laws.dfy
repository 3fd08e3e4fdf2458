/**
 What the template scanner promises: escaped text comes out verbatim,
 stray braces abort, each placeholder form selects and renders the argument
 it names and updates the implicit counter as stated, and the unused
 arguments are reported once each, in increasing order.
 */
module ScannerLaws {
  import opened Wrappers
  import opened Text
  import opened Values
  import opened Scanner

  /** The template that prints `s`: every brace doubled. */
  function Escape(s: string): string {
    if |s| == 0 then ""
    else (if s[0] == '{' then "{{" else if s[0] == '}' then "}}" else [s[0]]) + Escape(s[1..])
  }

  predicate NoBraces(s: string) {
    forall i :: 0 <= i < |s| ==> s[i] != '{' && s[i] != '}'
  }

  /** The specification text of a mode inside a placeholder. */
  function SpecText(m: Spec): string {
    match m
    case Default => ""
    case Debug => ":?"
    case DebugAlt => ":#?"
  }

  /** Neither `:` nor `}` counts as alphabetic, as for every Unicode table. */
  predicate PunctuationNotAlphabetic(h: Host) {
    !h.isAlphabetic(':') && !h.isAlphabetic('}')
  }

  /** The state after rendering argument `index` into `text`. */
  function Rendered(st: State, text: string, index: nat, implicit: nat): State {
    State(st.out + text, implicit, st.used + {index})
  }

  // ---------------------------------------------------------------------------
  // Literal text

  /** Scanning an escaped text appends the text itself and touches nothing else. */
  lemma {:induction false} ScanEscaped(s: string, args: seq<Value>, h: Host, st: State)
    ensures Scan(Escape(s), args, h, st) == Ok(st.(out := st.out + s))
  {
    if |s| == 0 {
      assert st.out + s == st.out;
    } else {
      var e := Escape(s);
      var tail := Escape(s[1..]);
      assert s == [s[0]] + s[1..];
      if s[0] == '{' || s[0] == '}' {
        assert e == [s[0], s[0]] + tail;
        assert e[2..] == tail;
        ScanEscaped(s[1..], args, h, st.(out := st.out + [s[0]]));
        assert st.out + [s[0]] + s[1..] == st.out + s;
      } else {
        assert e == [s[0]] + tail;
        assert e[1..] == tail;
        ScanEscaped(s[1..], args, h, st.(out := st.out + [s[0]]));
        assert st.out + [s[0]] + s[1..] == st.out + s;
      }
    }
  }

  lemma {:induction false} UnusedFromNothing(i: nat, n: nat)
    requires i <= n
    ensures |UnusedFrom(i, n, {})| == n - i
    ensures forall k :: 0 <= k < n - i ==> UnusedFrom(i, n, {})[k] == i + k
    decreases n - i
  {
    if i < n {
      UnusedFromNothing(i + 1, n);
    }
  }

  /**
   An escaped template prints exactly the text it escapes, and since it has
   no placeholder, every argument is reported as unused.
   */
  lemma EscapeRoundTrip(s: string, args: seq<Value>, h: Host)
    ensures var r := Interpolate(Escape(s), args, h);
      r.Ok? && r.value.0 == s
      && |r.value.1| == |args| && forall k :: 0 <= k < |args| ==> r.value.1[k] == k
  {
    ScanEscaped(s, args, h, Start);
    assert "" + s == s;
    UnusedFromNothing(0, |args|);
  }

  lemma {:induction false} EscapeNoBraces(s: string)
    requires NoBraces(s)
    ensures Escape(s) == s
  {
    if |s| > 0 {
      EscapeNoBraces(s[1..]);
      assert s == [s[0]] + s[1..];
    }
  }

  /** Text without braces is copied unchanged and in order. */
  lemma PlainTextCopied(s: string, args: seq<Value>, h: Host, st: State)
    requires NoBraces(s)
    ensures Scan(s, args, h, st) == Ok(st.(out := st.out + s))
  {
    EscapeNoBraces(s);
    ScanEscaped(s, args, h, st);
  }

  // ---------------------------------------------------------------------------
  // Stray braces

  /** A `}` that is not followed by another `}` aborts. */
  lemma UnmatchedCloseAborts(rest: string, args: seq<Value>, h: Host, st: State)
    requires |rest| == 0 || rest[0] != '}'
    ensures Scan("}" + rest, args, h, st) == Err(Abort([UNMATCHED_CLOSE]))
  {
    var f := "}" + rest;
    assert f[0] == '}';
    assert |f| >= 2 ==> f[1] == rest[0];
  }

  /** A `{` at the end of the template aborts. */
  lemma OpenAtEndAborts(prefix: string, args: seq<Value>, h: Host)
    requires NoBraces(prefix)
    ensures Interpolate(prefix + "{", args, h) == Err(Abort([UNMATCHED_OPEN]))
  {
    ScanPrefix(prefix, "{", args, h, Start);
  }

  /** Brace-free text before `rest` only extends the output. */
  lemma {:induction false} ScanPrefix(prefix: string, rest: string, args: seq<Value>, h: Host, st: State)
    requires NoBraces(prefix)
    ensures Scan(prefix + rest, args, h, st) == Scan(rest, args, h, st.(out := st.out + prefix))
  {
    if |prefix| == 0 {
      assert prefix + rest == rest;
      assert st.out + prefix == st.out;
    } else {
      var f := prefix + rest;
      assert f[0] == prefix[0];
      assert f[1..] == prefix[1..] + rest;
      ScanPrefix(prefix[1..], rest, args, h, st.(out := st.out + [prefix[0]]));
      assert st.out + [prefix[0]] + prefix[1..] == st.out + prefix;
    }
  }

  /** A placeholder opening with an alphabetic character is a named argument, which aborts. */
  lemma NamedArgumentAborts(c: char, rest: string, args: seq<Value>, h: Host, st: State)
    requires h.isAlphabetic(c) && !IsAsciiDigit(c) && c != '{'
    ensures Scan("{" + [c] + rest, args, h, st) == Err(Abort([KEYWORD_ARGUMENT]))
  {
    var f := "{" + [c] + rest;
    assert f[1] == c && f[1..][0] == c;
  }

  // ---------------------------------------------------------------------------
  // Placeholders

  lemma {:induction false} DigitPrefixOf(d: string, tail: string)
    requires AllDigits(d) && |tail| > 0 && !IsAsciiDigit(tail[0])
    ensures DigitPrefix(d + tail) == |d|
  {
    if |d| > 0 {
      assert (d + tail)[1..] == d[1..] + tail;
      DigitPrefixOf(d[1..], tail);
    } else {
      assert d + tail == tail;
    }
  }

  lemma SpecOf(m: Spec, rest: string)
    ensures var q := SpecText(m) + "}" + rest;
      ParseSpec(q) == Ok((m != Default, m == DebugAlt, |SpecText(m)|))
      && q[|SpecText(m)|] == '}' && q[|SpecText(m)| + 1..] == rest
  {
    var q := SpecText(m) + "}" + rest;
    assert q[|SpecText(m)|] == '}';
    assert q[|SpecText(m)| + 1..] == rest;
    match m
    case Default =>
    case Debug => assert q[0] == ':' && q[1] == '?';
    case DebugAlt => assert q[0] == ':' && q[1] == '#' && q[2] == '?';
  }

  /** The mode `Resolve` picks for the specification of `m`. */
  lemma ResolveMode(m: Spec, position: Option<nat>, rest: string, args: seq<Value>, h: Host, st: State)
    ensures var index := if position.Some? then position.value else st.implicit;
      var next := if position.Some? then st.implicit else st.implicit + 1;
      var r := Resolve(position, SpecText(m) + "}" + rest, args, h, st);
      if index >= |args| then
        r == Err(Abort([if position.Some? then InvalidReference(index, |args|)
                        else InvalidImplicitReference(index, |args|)]))
      else
        var text := Format(args[index], m, h);
        r == if text.Ok? then Ok((Rendered(st, text.value, index, next), rest)) else Err(text.error)
  {
    SpecOf(m, rest);
  }

  /** One placeholder: `{` followed by anything but `{` is resolved, then scanning resumes after it. */
  lemma PlaceholderStep(p: string, args: seq<Value>, h: Host, st: State)
    requires |p| >= 1 && p[0] != '{'
    ensures var r := Placeholder(p, args, h, st);
      Scan("{" + p, args, h, st) == if r.Err? then Err(r.error) else Scan(r.value.1, args, h, r.value.0)
  {
    var f := "{" + p;
    assert f[0] == '{' && f[1] == p[0] && f[1..] == p;
  }

  /**
   `{N}`, `{N:?}` and `{N:#?}` render argument `N` in their mode, mark it used
   and leave the implicit counter alone; an `N` beyond the arguments aborts.
   */
  lemma ExplicitPlaceholder(n: nat, m: Spec, rest: string, args: seq<Value>, h: Host, st: State)
    ensures var r := Scan("{" + NatToString(n) + SpecText(m) + "}" + rest, args, h, st);
      var text := if n < |args| then Format(args[n], m, h) else Ok("");
      if n >= |args| then r == Err(Abort([InvalidReference(n, |args|)]))
      else if text.Err? then r == Err(text.error)
      else r == Scan(rest, args, h, Rendered(st, text.value, n, st.implicit))
  {
    var d := NatToString(n);
    var q := SpecText(m) + "}" + rest;
    assert "{" + d + SpecText(m) + "}" + rest == "{" + (d + q);
    assert q[0] == ':' || q[0] == '}';
    ExplicitStep(n, q, args, h, st);
    ResolveMode(m, Some(n), rest, args, h, st);
  }

  /** A placeholder opening with a written-out position is resolved against that position. */
  lemma ExplicitStep(n: nat, q: string, args: seq<Value>, h: Host, st: State)
    requires |q| >= 1 && !IsAsciiDigit(q[0])
    ensures var r := Resolve(Some(n), q, args, h, st);
      Scan("{" + (NatToString(n) + q), args, h, st) == if r.Err? then Err(r.error) else Scan(r.value.1, args, h, r.value.0)
  {
    var d := NatToString(n);
    assert (d + q)[0] == d[0] && IsAsciiDigit(d[0]);
    PlaceholderStep(d + q, args, h, st);
    DigitPrefixOf(d, q);
    assert (d + q)[..|d|] == d && (d + q)[|d|..] == q;
    DecimalRoundTrip(n);
    assert Placeholder(d + q, args, h, st) == Resolve(Some(n), q, args, h, st);
  }

  /**
   `{}`, `{:?}` and `{:#?}` render the argument at the implicit counter in
   their mode, mark it used and advance the counter by exactly one; a counter
   beyond the arguments aborts.
   */
  lemma ImplicitPlaceholder(m: Spec, rest: string, args: seq<Value>, h: Host, st: State)
    requires PunctuationNotAlphabetic(h)
    ensures var r := Scan("{" + (SpecText(m) + "}" + rest), args, h, st);
      var text := if st.implicit < |args| then Format(args[st.implicit], m, h) else Ok("");
      if st.implicit >= |args| then r == Err(Abort([InvalidImplicitReference(st.implicit, |args|)]))
      else if text.Err? then r == Err(text.error)
      else r == Scan(rest, args, h, Rendered(st, text.value, st.implicit, st.implicit + 1))
  {
    var q := SpecText(m) + "}" + rest;
    assert q[0] == ':' || q[0] == '}';
    ImplicitStep(q, args, h, st);
    ResolveImplicit(m, rest, args, h, st);
  }

  /** `ResolveMode` without a written-out position. */
  lemma ResolveImplicit(m: Spec, rest: string, args: seq<Value>, h: Host, st: State)
    ensures var r := Resolve(None, SpecText(m) + "}" + rest, args, h, st);
      var text := if st.implicit < |args| then Format(args[st.implicit], m, h) else Ok("");
      if st.implicit >= |args| then r == Err(Abort([InvalidImplicitReference(st.implicit, |args|)]))
      else if text.Err? then r == Err(text.error)
      else r == Ok((Rendered(st, text.value, st.implicit, st.implicit + 1), rest))
  {
    ResolveMode(m, None, rest, args, h, st);
  }

  /** A placeholder without a position is resolved against the implicit counter. */
  lemma ImplicitStep(q: string, args: seq<Value>, h: Host, st: State)
    requires |q| >= 1 && (q[0] == ':' || q[0] == '}') && PunctuationNotAlphabetic(h)
    ensures var r := Resolve(None, q, args, h, st);
      Scan("{" + q, args, h, st) == if r.Err? then Err(r.error) else Scan(r.value.1, args, h, r.value.0)
  {
    PlaceholderStep(q, args, h, st);
    assert Placeholder(q, args, h, st) == Resolve(None, q, args, h, st);
  }

  lemma ResolveAlternate(q: string, args: seq<Value>, h: Host, st: State)
    requires st.implicit < |args|
    requires |q| >= 3 && q[0] == ':' && q[1] == '#' && q[2] == '}'
    ensures h.debugAssertions ==> Resolve(None, q, args, h, st) == Err(Panic(ALTERNATE_WITHOUT_DEBUG))
    ensures !h.debugAssertions ==> Resolve(None, q, args, h, st) == Resolve(None, "}" + q[3..], args, h, st)
  {
    assert ParseSpec(q) == Ok((false, true, 2));
    var q' := "}" + q[3..];
    assert q'[0] == '}' && q'[1..] == q[3..];
  }

  /**
   `{:#}` trips the debug assertion when assertions are compiled in;
   otherwise it means the same as `{}`.
   */
  lemma AlternateWithoutDebug(rest: string, args: seq<Value>, h: Host, st: State)
    requires PunctuationNotAlphabetic(h) && st.implicit < |args|
    ensures h.debugAssertions ==> Scan("{" + (":#}" + rest), args, h, st) == Err(Panic(ALTERNATE_WITHOUT_DEBUG))
    ensures !h.debugAssertions ==> Scan("{" + (":#}" + rest), args, h, st) == Scan("{" + ("}" + rest), args, h, st)
  {
    var q := ":#}" + rest;
    assert q[0] == ':' && q[1] == '#' && q[2] == '}';
    assert q[3..] == rest;
    PlaceholderStep(q, args, h, st);
    assert Placeholder(q, args, h, st) == Resolve(None, q, args, h, st);
    PlaceholderStep("}" + rest, args, h, st);
    assert Placeholder("}" + rest, args, h, st) == Resolve(None, "}" + rest, args, h, st);
    ResolveAlternate(q, args, h, st);
  }

  /** Any other character where the specification or the closing `}` belongs aborts. */
  lemma UnexpectedCharacterAborts(c: char, rest: string, args: seq<Value>, h: Host, st: State)
    requires !IsAsciiDigit(c) && !h.isAlphabetic(c) && c !in {'{', '}', ':'}
    requires st.implicit < |args|
    ensures Scan("{" + [c] + rest, args, h, st) == Err(Abort([UnexpectedCharacter(c, h)]))
  {
    var q := [c] + rest;
    assert "{" + [c] + rest == "{" + q;
    PlaceholderStep(q, args, h, st);
    assert Placeholder(q, args, h, st) == Resolve(None, q, args, h, st);
    UnexpectedCharacterResolves(q, args, h, st);
  }

  lemma UnexpectedCharacterResolves(q: string, args: seq<Value>, h: Host, st: State)
    requires |q| >= 1 && q[0] !in {'}', ':'} && st.implicit < |args|
    ensures Resolve(None, q, args, h, st) == Err(Abort([UnexpectedCharacter(q[0], h)]))
  {
    assert ParseSpec(q) == Ok((false, false, 0));
  }

  // ---------------------------------------------------------------------------
  // Whole templates

  /** The indices from `lo` below `hi`. */
  function Indices(lo: nat, hi: nat): set<nat>
    decreases hi - lo
  {
    if lo >= hi then {} else {lo} + Indices(lo + 1, hi)
  }

  lemma {:induction false} IndicesMembers(lo: nat, hi: nat)
    ensures forall i :: i in Indices(lo, hi) <==> lo <= i < hi
    decreases hi - lo
  {
    if lo < hi {
      IndicesMembers(lo + 1, hi);
    }
  }

  /** `{}` repeated `k` times. */
  function Holes(k: nat): string {
    if k == 0 then "" else "{" + ("}" + Holes(k - 1))
  }

  /** The Default renderings of `items`, concatenated; the first failure stops it. */
  function RenderAll(items: seq<Value>, h: Host): Result<string, Failure> {
    if |items| == 0 then Ok("")
    else
      var first :- Format(items[0], Default, h);
      var rest :- RenderAll(items[1..], h);
      Ok(first + rest)
  }

  /** Rendering one argument and then a run of `k` more is rendering the run of `k + 1`. */
  lemma RenderedThenRun(st: State, first: string, rest: string, k: nat)
    ensures var st1 := Rendered(st, first, st.implicit, st.implicit + 1);
      State(st1.out + rest, st1.implicit + k, st1.used + Indices(st1.implicit, st1.implicit + k))
        == State(st.out + (first + rest), st.implicit + (k + 1), st.used + Indices(st.implicit, st.implicit + (k + 1)))
  {
    var st1 := Rendered(st, first, st.implicit, st.implicit + 1);
    assert st1.out + rest == st.out + (first + rest);
    assert st1.used + Indices(st1.implicit, st1.implicit + k) == st.used + Indices(st.implicit, st.implicit + (k + 1));
  }

  lemma HoleStep(k: nat, args: seq<Value>, h: Host, st: State)
    requires PunctuationNotAlphabetic(h) && 0 < k && st.implicit < |args|
    ensures var first := Format(args[st.implicit], Default, h);
      Scan(Holes(k), args, h, st)
        == if first.Err? then Err(first.error)
           else Scan(Holes(k - 1), args, h, Rendered(st, first.value, st.implicit, st.implicit + 1))
  {
    ImplicitPlaceholder(Default, Holes(k - 1), args, h, st);
    assert SpecText(Default) + "}" + Holes(k - 1) == "}" + Holes(k - 1);
  }

  /**
   What a run of `k` implicit placeholders does from `st`: renders the next
   `k` arguments in order, advances the counter by `k` and marks those
   arguments used; the first failing rendering stops it.
   */
  function HolesOutcome(k: nat, args: seq<Value>, h: Host, st: State): Result<State, Failure>
    requires st.implicit + k <= |args|
  {
    var all := RenderAll(args[st.implicit..st.implicit + k], h);
    if all.Err? then Err(all.error)
    else Ok(State(st.out + all.value, st.implicit + k, st.used + Indices(st.implicit, st.implicit + k)))
  }

  /** The step of `ScanHoles`: the first hole rendered, the rest of the run continues from there. */
  lemma HolesAfterFirst(k: nat, args: seq<Value>, h: Host, st: State, first: string)
    requires 0 < k && st.implicit + k <= |args|
    requires Format(args[st.implicit], Default, h) == Ok(first)
    ensures HolesOutcome(k - 1, args, h, Rendered(st, first, st.implicit, st.implicit + 1)) == HolesOutcome(k, args, h, st)
  {
    var items := args[st.implicit..st.implicit + k];
    var tail := args[st.implicit + 1..st.implicit + k];
    var st1 := Rendered(st, first, st.implicit, st.implicit + 1);
    assert items[0] == args[st.implicit];
    assert items[1..] == tail;
    assert args[st1.implicit..st1.implicit + (k - 1)] == tail;
    RenderAllFirst(items, h, first);
    var rest := RenderAll(tail, h);
    if rest.Ok? {
      RenderedThenRun(st, first, rest.value, k - 1);
      assert HolesOutcome(k - 1, args, h, st1)
        == Ok(State(st1.out + rest.value, st1.implicit + (k - 1), st1.used + Indices(st1.implicit, st1.implicit + (k - 1))));
    } else {
      assert HolesOutcome(k - 1, args, h, st1) == Err(rest.error);
    }
  }

  /** A run whose first rendering succeeds renders as that text followed by the rest of the run. */
  lemma RenderAllFirst(items: seq<Value>, h: Host, first: string)
    requires |items| > 0 && Format(items[0], Default, h) == Ok(first)
    ensures var rest := RenderAll(items[1..], h);
      RenderAll(items, h) == if rest.Ok? then Ok(first + rest.value) else Err(rest.error)
  {
  }

  lemma HolesFirstFails(k: nat, args: seq<Value>, h: Host, st: State)
    requires 0 < k && st.implicit + k <= |args|
    requires Format(args[st.implicit], Default, h).Err?
    ensures HolesOutcome(k, args, h, st) == Err(Format(args[st.implicit], Default, h).error)
  {
    var items := args[st.implicit..st.implicit + k];
    assert items[0] == args[st.implicit];
  }

  lemma HolesNone(args: seq<Value>, h: Host, st: State)
    requires st.implicit <= |args|
    ensures Scan(Holes(0), args, h, st) == HolesOutcome(0, args, h, st)
  {
    assert args[st.implicit..st.implicit] == [];
    assert st.out + "" == st.out;
    assert st.used + Indices(st.implicit, st.implicit) == st.used;
  }

  /**
   `k` implicit placeholders take the next `k` arguments in order, render
   them one after the other and advance the counter by `k`.
   */
  lemma {:induction false} ScanHoles(k: nat, args: seq<Value>, h: Host, st: State)
    requires PunctuationNotAlphabetic(h) && st.implicit + k <= |args|
    ensures Scan(Holes(k), args, h, st) == HolesOutcome(k, args, h, st)
  {
    if k == 0 {
      HolesNone(args, h, st);
    } else {
      HoleStep(k, args, h, st);
      var first := Format(args[st.implicit], Default, h);
      if first.Ok? {
        var st1 := Rendered(st, first.value, st.implicit, st.implicit + 1);
        ScanHoles(k - 1, args, h, st1);
        HolesAfterFirst(k, args, h, st, first.value);
      } else {
        HolesFirstFails(k, args, h, st);
      }
    }
  }

  lemma {:induction false} UnusedFromAllUsed(i: nat, n: nat, used: set<nat>)
    requires forall j :: i <= j < n ==> j in used
    ensures UnusedFrom(i, n, used) == []
    decreases n - i
  {
    if i < n {
      UnusedFromAllUsed(i + 1, n, used);
    }
  }

  /** A template of one `{}` per argument renders all of them in order and leaves none unused. */
  lemma AllArgumentsUsed(args: seq<Value>, h: Host)
    requires PunctuationNotAlphabetic(h)
    ensures var all := RenderAll(args, h);
      var r := Interpolate(Holes(|args|), args, h);
      (all.Err? ==> r == Err(all.error))
      && (all.Ok? ==> r == Ok((all.value, [])))
  {
    ScanHoles(|args|, args, h, Start);
    assert args[0..|args|] == args;
    var all := RenderAll(args, h);
    var scanned := Scan(Holes(|args|), args, h, Start);
    if all.Ok? {
      var st := scanned.value;
      assert st.out == all.value;
      IndicesMembers(0, |args|);
      UnusedFromAllUsed(0, |args|, st.used);
      assert Interpolate(Holes(|args|), args, h) == Ok((st.out, UnusedFrom(0, |args|, st.used)));
    } else {
      assert scanned == Err(all.error);
    }
  }

  /** Unused arguments are reported once each, in increasing order, and only those. */
  lemma UnusedReported(f: string, args: seq<Value>, h: Host, i: nat)
    requires Interpolate(f, args, h).Ok?
    ensures var r := Interpolate(f, args, h);
      var st := Scan(f, args, h, Start).value;
      (i in r.value.1 <==> i < |args| && i !in st.used)
      && (forall a, b :: 0 <= a < b < |r.value.1| ==> r.value.1[a] < r.value.1[b])
  {
  }
}
