/**
 The macros and functions an expression may call: `concat!`, `env!` and
 `option_env!` are evaluated at expansion time, every other macro and every
 function aborts. The process environment is a map parameter.
 */
module Macros {
  import opened Wrappers
  import opened Text
  import opened Values

  type Environment = map<string, string>

  /** Everything joined in order, the reference meaning of `concat!`. */
  function Flatten(ss: seq<string>): string {
    if |ss| == 0 then "" else ss[0] + Flatten(ss[1..])
  }

  predicate StrictlyIncreasing(xs: seq<nat>) {
    forall a, b :: 0 <= a < b < |xs| ==> xs[a] < xs[b]
  }

  /**
   The loop of `concat!` from argument `i` on: the concatenated strings and
   the positions of the arguments that are not strings, in increasing order.
   */
  function ConcatFrom(args: seq<Value>, i: nat): (r: (string, seq<nat>))
    requires i <= |args|
    ensures forall k :: 0 <= k < |r.1| ==> i <= r.1[k] < |args| && !args[r.1[k]].Str?
    ensures forall j :: i <= j < |args| && !args[j].Str? ==> j in r.1
    ensures StrictlyIncreasing(r.1)
    decreases |args| - i
  {
    if i == |args| then ("", [])
    else
      var rest := ConcatFrom(args, i + 1);
      if args[i].Str? then (args[i].s + rest.0, rest.1)
      else (rest.0, [i] + rest.1)
  }

  function ConcatMessage(i: nat): string {
    "Argument " + NatToString(i) + " to `concat!` is no string."
  }

  function ConcatMessages(bad: seq<nat>): (r: seq<string>)
    ensures |r| == |bad| && forall k :: 0 <= k < |bad| ==> r[k] == ConcatMessage(bad[k])
  {
    if |bad| == 0 then [] else [ConcatMessage(bad[0])] + ConcatMessages(bad[1..])
  }

  function UndefinedMessage(name: string): string {
    "Environment variable `" + name + "` not defined."
  }

  function UnknownMacroMessage(name: string): string {
    "Macro `" + name + "!` cannot be called inside `build_info::format!`"
  }

  /** `call_macro`: the three supported macros over the environment `env`. */
  function CallMacro(name: string, args: seq<Value>, env: Environment): (r: Result<Value, Failure>)
    ensures name !in {"concat", "env", "option_env"} ==> r == Err(Abort([UnknownMacroMessage(name)]))
  {
    if name == "concat" then
      var (text, bad) := ConcatFrom(args, 0);
      if |bad| > 0 then Err(Abort(ConcatMessages(bad))) else Ok(Str(text))
    else if name == "env" then
      var variable :- AsStringArgument(args);
      if variable in env then Ok(Str(env[variable])) else Err(Abort([UndefinedMessage(variable)]))
    else if name == "option_env" then
      var variable :- AsStringArgument(args);
      Ok(Opt(if variable in env then Some(Str(env[variable])) else None))
    else
      Err(Abort([UnknownMacroMessage(name)]))
  }

  /** `call_function`: no function is callable, whatever its arguments. */
  function CallFunction(name: string, args: seq<Value>): (r: Result<Value, Failure>)
    ensures r.Err? && r.error.Abort? && |r.error.diagnostics| == 1
  {
    Err(Abort(["Function `" + name + "` cannot be called inside `build_info::format!`"]))
  }

  /**
   `call_macro` of the older evaluator: no macro is implemented there, so
   every call aborts with the message naming the macro, whatever its
   arguments. The `nested` feature changes only the attached notes.
   */
  function CallMacroOlder<A>(name: string, args: seq<A>): (r: Result<Value, Failure>)
    ensures r.Err? && r.error.Abort? && |r.error.diagnostics| == 1
    ensures r.error.diagnostics[0] == UnknownMacroMessage(name)
  {
    Err(Abort([UnknownMacroMessage(name)]))
  }

  /**
   The older `call_macro` agrees with the newer one on every macro the newer
   one does not implement, and it rejects `concat!` of strings, which the
   newer one evaluates.
   */
  lemma OlderMacrosAbort(name: string, args: seq<Value>, env: Environment, ss: seq<string>)
    ensures name !in {"concat", "env", "option_env"} ==> CallMacroOlder(name, args) == CallMacro(name, args, env)
    ensures CallMacroOlder("concat", Strings(ss)).Err? && CallMacro("concat", Strings(ss), env).Ok?
  {
    ConcatOfStrings(ss, env);
  }

  lemma {:induction false} ConcatFromStrings(ss: seq<string>, i: nat)
    requires i <= |ss|
    ensures ConcatFrom(Strings(ss), i) == (Flatten(ss[i..]), [])
    decreases |ss| - i
  {
    if i < |ss| {
      ConcatFromStrings(ss, i + 1);
      assert ss[i..][1..] == ss[i + 1..];
    } else {
      assert ss[i..] == [];
    }
  }

  /** `concat!` of strings is their concatenation in order. */
  lemma ConcatOfStrings(ss: seq<string>, env: Environment)
    ensures CallMacro("concat", Strings(ss), env) == Ok(Str(Flatten(ss)))
  {
    ConcatFromStrings(ss, 0);
    assert ss[0..] == ss;
  }

  /**
   `concat!` with non-string arguments aborts, reporting each of them once,
   by position and in increasing order.
   */
  lemma ConcatReportsNonStrings(args: seq<Value>, env: Environment, j: nat)
    requires j < |args| && !args[j].Str?
    ensures var r := CallMacro("concat", args, env);
      r.Err? && r.error.Abort?
      && ConcatMessage(j) in r.error.diagnostics
      && r.error.diagnostics == ConcatMessages(ConcatFrom(args, 0).1)
  {
    var bad := ConcatFrom(args, 0).1;
    assert j in bad;
    var k :| 0 <= k < |bad| && bad[k] == j;
    assert ConcatMessages(bad)[k] == ConcatMessage(j);
  }

  /** `env!` reads a defined variable and aborts on an undefined one. */
  lemma EnvLookup(variable: string, env: Environment)
    ensures variable in env ==> CallMacro("env", [Str(variable)], env) == Ok(Str(env[variable]))
    ensures variable !in env ==> CallMacro("env", [Str(variable)], env) == Err(Abort([UndefinedMessage(variable)]))
  {
  }

  /** `option_env!` never aborts: a missing variable is `None`. */
  lemma OptionEnvLookup(variable: string, env: Environment)
    ensures variable in env ==> CallMacro("option_env", [Str(variable)], env) == Ok(Opt(Some(Str(env[variable]))))
    ensures variable !in env ==> CallMacro("option_env", [Str(variable)], env) == Ok(Opt(None))
  {
  }

  /** Both environment macros want exactly one string argument. */
  lemma EnvArguments(name: string, args: seq<Value>, env: Environment)
    requires name == "env" || name == "option_env"
    requires !(|args| == 1 && args[0].Str?)
    ensures CallMacro(name, args, env).Err? && CallMacro(name, args, env).error.Error?
  {
  }
}
