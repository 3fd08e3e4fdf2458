/**
 versionator's `format!`: the format string is copied character by
 character; `{{` writes one `{`, and every other `{` opens a placeholder
 of `.member` and `?` steps, closed by `}`, whose path is rendered against
 the snapshot. The scanner works on the remaining text: each function
 receives the suffix whose first character is the one just read.
 */
module VersionatorFormat {
  import opened Wrappers
  import opened Text
  import opened VersionatorTypes
  import SV = VersionatorStringValue

  datatype Panic =
    | Unmatched
    | UnexpectedIdentChar(c: char)
    | UnexpectedChar(c: char)
    | Render(cause: SV.Panic)

  /** The host's Unicode `char::is_alphabetic` and `char::is_alphanumeric`. */
  datatype CharClasses = CharClasses(isAlphabetic: char -> bool, isAlphanumeric: char -> bool)

  /**
   What the Unicode tables say about the characters the laws below rely on:
   ASCII whitespace is not alphabetic, and none of `?`, `.`, `}` and the
   space is alphanumeric.
   */
  predicate StandardClasses(u: CharClasses) {
    !u.isAlphabetic(' ') && !u.isAlphabetic('\t') && !u.isAlphabetic('\n')
    && !u.isAlphabetic('\U{000C}') && !u.isAlphabetic('\r')
    && !u.isAlphanumeric('?') && !u.isAlphanumeric('.') && !u.isAlphanumeric('}') && !u.isAlphanumeric(' ')
  }

  /** Identifiers start with a (Unicode) letter or `_`. */
  predicate IsIdentStart(u: CharClasses, c: char) {
    u.isAlphabetic(c) || c == '_'
  }

  /** Later identifier characters are (Unicode) letters, digits or `_`. */
  predicate IsIdentChar(u: CharClasses, c: char) {
    u.isAlphanumeric(c) || c == '_'
  }

  /** `skip_ws`: the text from the first non-whitespace character on, if any. */
  function SkipWs(t: string): (r: Option<string>)
    ensures r.Some? ==> |r.value| > 0 && !IsAsciiWhitespace(r.value[0])
    ensures r.Some? ==> |r.value| <= |t| && t[|t| - |r.value|..] == r.value
    ensures r.None? <==> forall k :: 0 <= k < |t| ==> IsAsciiWhitespace(t[k])
  {
    if |t| == 0 then None
    else if IsAsciiWhitespace(t[0]) then
      var r := SkipWs(t[1..]);
      assert forall k :: 1 <= k < |t| ==> t[k] == t[1..][k - 1];
      r
    else Some(t)
  }

  /** The number of identifier characters `t` starts with. */
  function IdentSpan(u: CharClasses, t: string): (n: nat)
    ensures n <= |t|
    ensures forall k :: 0 <= k < n ==> IsIdentChar(u, t[k])
    ensures n < |t| ==> !IsIdentChar(u, t[n])
  {
    if |t| == 0 || !IsIdentChar(u, t[0]) then 0 else 1 + IdentSpan(u, t[1..])
  }

  /** The identifier the scanner cuts from `v` is a valid step. */
  lemma IdentifierStep(u: CharClasses, v: string)
    requires |v| > 0 && IsIdentStart(u, v[0])
    ensures ValidStep(u, v[..1 + IdentSpan(u, v[1..])])
  {
    var n := 1 + IdentSpan(u, v[1..]);
    var step := v[..n];
    assert forall k :: 1 <= k < n ==> step[k] == v[1..][k - 1];
  }

  /**
   One pass of the loop in `interpolate_once`, on text `t` that does not
   start with the closing `}`: skips whitespace and reads `?` or `.ident`.
   It returns the step and the text from the character after it on; that
   character is read before it is tested, so some text must remain.
   */
  function NextStep(u: CharClasses, t: string): (r: Result<(string, string), Panic>)
    requires |t| > 0
    ensures r.Ok? ==> ValidStep(u, r.value.0) && 0 < |r.value.1| < |t|
  {
    match SkipWs(t)
    case None => Err(Unmatched)
    case Some(w) =>
      if w[0] == '?' then
        if |w| < 2 then Err(Unmatched) else Ok(("?", w[1..]))
      else if w[0] == '.' then
        if |w| < 2 then Err(Unmatched)
        else
          match SkipWs(w[1..])
          case None => Err(Unmatched)
          case Some(v) =>
            if !IsIdentStart(u, v[0]) then Err(UnexpectedIdentChar(v[0]))
            else
              var n := 1 + IdentSpan(u, v[1..]);
              if n == |v| then Err(Unmatched)
              else
                IdentifierStep(u, v);
                Ok((v[..n], v[n..]))
      else Err(UnexpectedChar(w[0]))
  }

  /**
   `interpolate_once`: reads the steps of a placeholder from `t`, whose first
   character is the one after `{` (or after the previous step), up to the
   closing `}`. Whitespace may precede a step but not the `}`: the loop only
   tests for `}` on the character a step left behind.
   */
  function ReadTrace(u: CharClasses, t: string, trace: seq<string>): (r: Result<(seq<string>, string), Panic>)
    requires |t| > 0
    ensures r.Ok? ==> |r.value.1| < |t|
    decreases |t|
  {
    if t[0] == '}' then Ok((trace, t[1..]))
    else
      match NextStep(u, t)
      case Err(e) => Err(e)
      case Ok((step, rest)) => ReadTrace(u, rest, trace + [step])
  }

  /** `text` in front of a successful result. */
  function Prepend(text: string, r: Result<string, Panic>): (r': Result<string, Panic>)
    ensures r'.Ok? <==> r.Ok?
    ensures r.Ok? ==> r'.value == text + r.value
    ensures r.Err? ==> r'.error == r.error
  {
    match r
    case Ok(rest) => Ok(text + rest)
    case Err(e) => Err(e)
  }

  /** `interpolate`: the expansion of format string `s` against snapshot `b`. */
  function Interpolate(u: CharClasses, b: BuildInfo, s: string): (r: Result<string, Panic>)
    decreases |s|
  {
    if |s| == 0 then Ok("")
    else if s[0] == '{' then
      if |s| < 2 then Err(Unmatched)
      else if s[1] == '{' then Prepend("{", Interpolate(u, b, s[2..]))
      else
        match ReadTrace(u, s[1..], [])
        case Err(e) => Err(e)
        case Ok((trace, rest)) =>
          match SV.BuildInfoAt(b, trace)
          case Err(e) => Err(Render(e))
          case Ok(text) => Prepend(text, Interpolate(u, b, rest))
    else Prepend([s[0]], Interpolate(u, b, s[1..]))
  }

  // ---------------------------------------------------------------------------
  // Placeholders written out

  /** A step the scanner can read back: `?`, or an identifier. */
  predicate ValidStep(u: CharClasses, step: string) {
    step == "?" || (|step| > 0 && IsIdentStart(u, step[0]) && forall k :: 1 <= k < |step| ==> IsIdentChar(u, step[k]))
  }

  function StepText(step: string): string {
    if step == "?" then "?" else "." + step
  }

  /** The placeholder body that names `trace`. */
  function PathText(trace: seq<string>): string {
    if |trace| == 0 then "" else StepText(trace[0]) + PathText(trace[1..])
  }

  // ---------------------------------------------------------------------------
  // Laws

  lemma {:induction false} IdentSpanOf(u: CharClasses, id: string, x: string)
    requires forall k :: 0 <= k < |id| ==> IsIdentChar(u, id[k])
    requires |x| > 0 && !IsIdentChar(u, x[0])
    ensures IdentSpan(u, id + x) == |id|
  {
    if |id| == 0 {
      assert id + x == x;
    } else {
      assert (id + x)[0] == id[0];
      assert (id + x)[1..] == id[1..] + x;
      IdentSpanOf(u, id[1..], x);
    }
  }

  /** `out` is `trace` followed by valid steps only. */
  predicate ExtendsWithSteps(u: CharClasses, out: seq<string>, trace: seq<string>) {
    |out| >= |trace| && out[..|trace|] == trace && forall i :: |trace| <= i < |out| ==> ValidStep(u, out[i])
  }

  /**
   Every step the scanner reads is `?` or an identifier: a letter or `_`,
   then letters, digits or `_`. The steps read earlier are kept in front.
   */
  lemma {:induction false} ReadTraceSteps(u: CharClasses, t: string, trace: seq<string>)
    requires |t| > 0
    ensures ReadTrace(u, t, trace).Ok? ==> ExtendsWithSteps(u, ReadTrace(u, t, trace).value.0, trace)
    decreases |t|
  {
    if t[0] == '}' {
      assert trace[..|trace|] == trace;
    } else if NextStep(u, t).Ok? {
      var (step, rest) := NextStep(u, t).value;
      ReadTraceSteps(u, rest, trace + [step]);
      KeptSteps(u, trace, step, ReadTrace(u, rest, trace + [step]));
    }
  }

  /** A valid step in front of valid steps keeps the earlier ones and stays valid. */
  lemma KeptSteps(u: CharClasses, trace: seq<string>, step: string, r: Result<(seq<string>, string), Panic>)
    requires ValidStep(u, step)
    requires r.Ok? ==> ExtendsWithSteps(u, r.value.0, trace + [step])
    ensures r.Ok? ==> ExtendsWithSteps(u, r.value.0, trace)
  {
    if r.Ok? {
      var out := r.value.0;
      assert out[..|trace|] == out[..|trace| + 1][..|trace|];
      assert out[|trace|] == out[..|trace| + 1][|trace|];
    }
  }

  /** What follows a written-out path: the text after it, unless a step comes first. */
  lemma PathTextStart(u: CharClasses, trace: seq<string>, x: string)
    requires StandardClasses(u)
    requires |x| > 0 && !IsIdentChar(u, x[0])
    ensures |PathText(trace) + x| > 0 && !IsIdentChar(u, (PathText(trace) + x)[0])
  {
    if |trace| > 0 {
      assert (PathText(trace) + x)[0] == StepText(trace[0])[0];
    }
  }

  lemma UnwrapStep(u: CharClasses, after: string, acc: seq<string>)
    requires |after| > 0
    ensures ReadTrace(u, "?" + after, acc) == ReadTrace(u, after, acc + ["?"])
  {
    var t := "?" + after;
    assert SkipWs(t) == Some(t);
    assert t[1..] == after;
    assert NextStep(u, t) == Ok(("?", after));
  }

  lemma MemberStep(u: CharClasses, step: string, after: string, acc: seq<string>)
    requires StandardClasses(u) && ValidStep(u, step) && step != "?"
    requires |after| > 0 && !IsIdentChar(u, after[0])
    ensures ReadTrace(u, "." + step + after, acc) == ReadTrace(u, after, acc + [step])
  {
    var v := step + after;
    var t := "." + v;
    assert t == "." + step + after;
    assert t[0] == '.' && !IsAsciiWhitespace(t[0]);
    assert SkipWs(t) == Some(t);
    assert t[1..] == v;
    assert v[0] == step[0] && IsIdentStart(u, v[0]) && !IsAsciiWhitespace(v[0]);
    assert SkipWs(v) == Some(v);
    IdentSpanOf(u, step[1..], after);
    assert v[1..] == step[1..] + after;
    var n := 1 + IdentSpan(u, v[1..]);
    assert n == |step| && n < |v|;
    assert v[..n] == step && v[n..] == after;
    assert NextStep(u, t) == Ok((step, after));
  }

  /**
   Reading a written-out path: the scanner collects exactly its steps and
   continues with whatever follows, provided that does not extend the last
   identifier.
   */
  lemma {:induction false} ReadPath(u: CharClasses, trace: seq<string>, acc: seq<string>, x: string)
    requires StandardClasses(u)
    requires forall i :: 0 <= i < |trace| ==> ValidStep(u, trace[i])
    requires |x| > 0 && !IsIdentChar(u, x[0])
    ensures ReadTrace(u, PathText(trace) + x, acc) == ReadTrace(u, x, acc + trace)
    decreases |trace|
  {
    if |trace| == 0 {
      assert acc + trace == acc;
      assert PathText(trace) + x == x;
    } else {
      var step, tail := trace[0], trace[1..];
      assert ReadTrace(u, PathText(trace) + x, acc) == ReadTrace(u, PathText(tail) + x, acc + [step]) by {
        PathHead(u, trace, acc, x);
      }
      assert ReadTrace(u, PathText(tail) + x, acc + [step]) == ReadTrace(u, x, acc + [step] + tail) by {
        assert forall i :: 0 <= i < |tail| ==> tail[i] == trace[i + 1];
        ReadPath(u, tail, acc + [step], x);
      }
      AppendHead(acc, trace);
    }
  }

  lemma AppendHead(acc: seq<string>, trace: seq<string>)
    requires |trace| > 0
    ensures acc + [trace[0]] + trace[1..] == acc + trace
  {
    assert [trace[0]] + trace[1..] == trace;
  }

  /** The first step of a written-out path is read back as itself. */
  lemma PathHead(u: CharClasses, trace: seq<string>, acc: seq<string>, x: string)
    requires StandardClasses(u) && |trace| > 0 && ValidStep(u, trace[0])
    requires |x| > 0 && !IsIdentChar(u, x[0])
    ensures ReadTrace(u, PathText(trace) + x, acc) == ReadTrace(u, PathText(trace[1..]) + x, acc + [trace[0]])
  {
    var step, after := trace[0], PathText(trace[1..]) + x;
    PathTextStart(u, trace[1..], x);
    assert PathText(trace) + x == StepText(step) + after;
    if step == "?" {
      UnwrapStep(u, after, acc);
    } else {
      MemberStep(u, step, after, acc);
    }
  }

  /** A literal text without `{` is copied unchanged. */
  lemma {:induction false} LiteralUnchanged(u: CharClasses, b: BuildInfo, s: string)
    requires '{' !in s
    ensures Interpolate(u, b, s) == Ok(s)
    decreases |s|
  {
    if |s| > 0 {
      assert s[0] != '{';
      LiteralUnchanged(u, b, s[1..]);
      assert [s[0]] + s[1..] == s;
    }
  }

  /** `{{` writes one `{`; a lone `}` is ordinary text. */
  lemma Escapes(u: CharClasses, b: BuildInfo, rest: string)
    ensures Interpolate(u, b, "{{" + rest) == Prepend("{", Interpolate(u, b, rest))
    ensures Interpolate(u, b, "}" + rest) == Prepend("}", Interpolate(u, b, rest))
  {
    assert ("{{" + rest)[2..] == rest;
    assert ("}" + rest)[1..] == rest;
  }

  /** An opening brace not followed by another one starts a placeholder. */
  lemma OpenPlaceholder(u: CharClasses, b: BuildInfo, body: string)
    requires |body| > 0 && body[0] != '{'
    ensures ReadTrace(u, body, []).Err? ==> Interpolate(u, b, "{" + body) == Err(ReadTrace(u, body, []).error)
    ensures ReadTrace(u, body, []).Ok? ==>
              var (trace, rest) := ReadTrace(u, body, []).value;
              Interpolate(u, b, "{" + body)
              == if SV.BuildInfoAt(b, trace).Ok? then Prepend(SV.BuildInfoAt(b, trace).value, Interpolate(u, b, rest))
                 else Err(Render(SV.BuildInfoAt(b, trace).error))
  {
    var s := "{" + body;
    assert s[0] == '{' && s[1] == body[0] && s[1..] == body;
  }

  /**
   A placeholder naming `trace` expands to the rendering of that path, after
   which scanning goes on with the text behind the `}`.
   */
  lemma PlaceholderRoundTrip(u: CharClasses, b: BuildInfo, trace: seq<string>, rest: string)
    requires StandardClasses(u)
    requires forall i :: 0 <= i < |trace| ==> ValidStep(u, trace[i])
    ensures SV.BuildInfoAt(b, trace).Ok? ==>
              Interpolate(u, b, "{" + PathText(trace) + "}" + rest)
              == Prepend(SV.BuildInfoAt(b, trace).value, Interpolate(u, b, rest))
    ensures SV.BuildInfoAt(b, trace).Err? ==>
              Interpolate(u, b, "{" + PathText(trace) + "}" + rest) == Err(Render(SV.BuildInfoAt(b, trace).error))
  {
    var x := "}" + rest;
    var body := PathText(trace) + x;
    assert "{" + PathText(trace) + "}" + rest == "{" + body;
    assert x[0] == '}' && !IsIdentChar(u, x[0]);
    ReadPath(u, trace, [], x);
    assert [] + trace == trace;
    assert x[1..] == rest;
    PathTextStart(u, trace, x);
    OpenPlaceholder(u, b, body);
  }

  /** Whitespace before the closing brace is an unexpected `}`, whatever the path. */
  lemma SpaceBeforeCloseIsRejected(u: CharClasses, b: BuildInfo, trace: seq<string>, rest: string)
    requires StandardClasses(u)
    requires forall i :: 0 <= i < |trace| ==> ValidStep(u, trace[i])
    ensures Interpolate(u, b, "{" + PathText(trace) + " }" + rest) == Err(UnexpectedChar('}'))
  {
    var x := " }" + rest;
    var body := PathText(trace) + x;
    assert "{" + PathText(trace) + " }" + rest == "{" + body;
    ReadPath(u, trace, [], x);
    assert [] + trace == trace;
    PathTextStart(u, trace, x);
    SpaceThenClose(u, rest, trace);
    OpenPlaceholder(u, b, body);
  }

  lemma SpaceThenClose(u: CharClasses, rest: string, acc: seq<string>)
    ensures ReadTrace(u, " }" + rest, acc) == Err(UnexpectedChar('}'))
  {
    var x := " }" + rest;
    assert x[1..] == "}" + rest;
    assert SkipWs(x[1..]) == Some(x[1..]);
    assert NextStep(u, x) == Err(UnexpectedChar('}'));
  }

  /** An opening brace at the very end never finds its partner. */
  lemma {:induction false} TrailingOpenBrace(u: CharClasses, b: BuildInfo, s: string)
    requires '{' !in s
    ensures Interpolate(u, b, s + "{") == Err(Unmatched)
    decreases |s|
  {
    if |s| > 0 {
      TrailingOpenBrace(u, b, s[1..]);
      assert (s + "{")[1..] == s[1..] + "{";
      assert (s + "{")[0] == s[0];
    } else {
      assert s + "{" == "{";
    }
  }
}
