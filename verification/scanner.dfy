/**
 The template scanner of `build_info::format!`: copies the template,
 collapses `{{` and `}}`, and replaces each placeholder `{}`, `{N}`, `{:?}`,
 `{N:#?}` … by the rendering of the argument it selects. Malformed templates
 abort; arguments no placeholder refers to are reported afterwards, one
 diagnostic each.
 */
module Scanner {
  import opened Wrappers
  import opened Text
  import opened Values

  /** What the scan has produced so far: the output, the implicit counter and the arguments used. */
  datatype State = State(out: string, implicit: nat, used: set<nat>)

  const Start: State := State("", 0, {})

  const UNMATCHED_OPEN: string := "Invalid format string: unmatched `{` found"
  const UNMATCHED_CLOSE: string := "Invalid format string: unmatched `}` found"
  const KEYWORD_ARGUMENT: string := "Keyword arguments are currently not supported in build_info::format"
  const ALTERNATE_WITHOUT_DEBUG: string := "assertion failed: !alternate"

  function InvalidReference(pos: nat, count: nat): string {
    "Invalid reference to positional argument " + NatToString(pos)
    + " (" + NatToString(count) + " arguments were given)"
  }

  function InvalidImplicitReference(pos: nat, count: nat): string {
    "Invalid implicit reference to positional argument " + NatToString(pos)
    + " (" + NatToString(count) + " arguments were given)"
  }

  function UnexpectedCharacter(c: char, h: Host): string {
    "Unexpected character '" + CharEscape(c, h) + "' in format specifier."
  }

  function UnusedMessage(i: nat): string {
    "Parameter " + NatToString(i) + " is not used in format string."
  }

  /** The length of the leading run of ASCII digits. */
  function DigitPrefix(s: string): (k: nat)
    ensures k <= |s|
    ensures forall i :: 0 <= i < k ==> IsAsciiDigit(s[i])
    ensures k < |s| ==> !IsAsciiDigit(s[k])
  {
    if |s| > 0 && IsAsciiDigit(s[0]) then 1 + DigitPrefix(s[1..]) else 0
  }

  /**
   The format specification after the position: `:`, an optional `#`, an
   optional `?`. Returns the debug and alternate flags and the index of the
   character that must close the placeholder.
   */
  function ParseSpec(q: string): (r: Result<(bool, bool, nat), Failure>)
    requires |q| >= 1
    ensures r.Ok? ==> r.value.2 < |q|
    ensures r.Err? ==> r.error == Abort([UNMATCHED_OPEN])
    ensures q[0] != ':' ==> r == Ok((false, false, 0))
  {
    if q[0] != ':' then Ok((false, false, 0))
    else if |q| == 1 then Err(Abort([UNMATCHED_OPEN]))
    else
      var alternate := q[1] == '#';
      var i := if alternate then 2 else 1;
      if |q| <= i then Err(Abort([UNMATCHED_OPEN]))
      else
        var debug := q[i] == '?';
        var j := if debug then i + 1 else i;
        if |q| <= j then Err(Abort([UNMATCHED_OPEN])) else Ok((debug, alternate, j))
  }

  /**
   Selects the argument at `position` (the implicit counter when `None`),
   marks it used, reads the format specification from `q` and renders the
   argument. Returns the new state and the template after the closing `}`.
   */
  function Resolve(position: Option<nat>, q: string, args: seq<Value>, h: Host, st: State)
    : (r: Result<(State, string), Failure>)
    requires |q| >= 1
    ensures r.Ok? ==> |r.value.1| < |q|
    ensures r.Err? ==> !r.error.Error?
  {
    var (index, next) :-
      match position
      case Some(pos) =>
        if pos < |args| then Ok((pos, st.implicit))
        else Err(Abort([InvalidReference(pos, |args|)]))
      case None =>
        if st.implicit < |args| then Ok((st.implicit, st.implicit + 1))
        else Err(Abort([InvalidImplicitReference(st.implicit, |args|)]));
    var spec :- ParseSpec(q);
    var (debug, alternate, j) := spec;
    if q[j] != '}' then Err(Abort([UnexpectedCharacter(q[j], h)]))
    else if !debug && alternate && h.debugAssertions then Err(Panic(ALTERNATE_WITHOUT_DEBUG))
    else
      var mode := if !debug then Default else if alternate then DebugAlt else Debug;
      var text :- Format(args[index], mode, h);
      Ok((State(st.out + text, next, st.used + {index}), q[j + 1..]))
  }

  /** A placeholder, given the template right after its `{` (which is not another `{`). */
  function Placeholder(p: string, args: seq<Value>, h: Host, st: State): (r: Result<(State, string), Failure>)
    requires |p| >= 1
    ensures r.Ok? ==> |r.value.1| < |p|
    ensures r.Err? ==> !r.error.Error?
  {
    if IsAsciiDigit(p[0]) then
      var k := DigitPrefix(p);
      if k == |p| then Err(Abort([UNMATCHED_OPEN]))
      else Resolve(Some(DecimalValue(p[..k])), p[k..], args, h, st)
    else if h.isAlphabetic(p[0]) then Err(Abort([KEYWORD_ARGUMENT]))
    else Resolve(None, p, args, h, st)
  }

  /** The scanning loop over the rest of the template. */
  function Scan(f: string, args: seq<Value>, h: Host, st: State): (r: Result<State, Failure>)
    ensures r.Err? ==> !r.error.Error?
    decreases |f|
  {
    if |f| == 0 then Ok(st)
    else if f[0] == '{' then
      if |f| == 1 then Err(Abort([UNMATCHED_OPEN]))
      else if f[1] == '{' then Scan(f[2..], args, h, st.(out := st.out + "{"))
      else
        var p :- Placeholder(f[1..], args, h, st);
        Scan(p.1, args, h, p.0)
    else if f[0] == '}' then
      if |f| >= 2 && f[1] == '}' then Scan(f[2..], args, h, st.(out := st.out + "}"))
      else Err(Abort([UNMATCHED_CLOSE]))
    else Scan(f[1..], args, h, st.(out := st.out + [f[0]]))
  }

  /** The indices from `i` below `n` that are not in `used`, in increasing order. */
  function UnusedFrom(i: nat, n: nat, used: set<nat>): (r: seq<nat>)
    ensures forall k :: 0 <= k < |r| ==> i <= r[k] < n && r[k] !in used
    ensures forall j :: i <= j < n && j !in used ==> j in r
    ensures forall a, b :: 0 <= a < b < |r| ==> r[a] < r[b]
    decreases n - i
  {
    if i >= n then []
    else if i in used then UnusedFrom(i + 1, n, used)
    else [i] + UnusedFrom(i + 1, n, used)
  }

  /**
   `interpolate`: the rendered template and the indices of the arguments it
   never referred to, each of which gets one diagnostic.
   */
  function Interpolate(f: string, args: seq<Value>, h: Host): (r: Result<(string, seq<nat>), Failure>)
    ensures r.Ok? ==> forall k :: 0 <= k < |r.value.1| ==> r.value.1[k] < |args|
    ensures r.Ok? ==> forall a, b :: 0 <= a < b < |r.value.1| ==> r.value.1[a] < r.value.1[b]
    ensures r.Err? ==> !r.error.Error?
  {
    var st :- Scan(f, args, h, Start);
    Ok((st.out, UnusedFrom(0, |args|, st.used)))
  }

  function UnusedMessages(unused: seq<nat>): (r: seq<string>)
    ensures |r| == |unused| && forall k :: 0 <= k < |r| ==> r[k] == UnusedMessage(unused[k])
  {
    if |unused| == 0 then [] else [UnusedMessage(unused[0])] + UnusedMessages(unused[1..])
  }
}
