/**
 The build script's options object and its once-only guards. Creating the
 options claims a process-wide flag, so a second creation panics; the
 options generate the build snapshot exactly once, either through `build`
 or, when they are dropped unused, through their destructor. The world
 record stands for that process-wide flag and counts the generated
 snapshots; the environment is a map and the current time a parameter.
 */
module BuildScriptOptions {
  import opened Wrappers
  import C = Common
  import T = Timestamp
  import Text

  datatype Options = Options(consumed: bool, timestamp: Option<T.Instant>, collect_dependencies: bool)

  /** The process state the options touch: the "build script ran" flag, and how many snapshots were generated. */
  datatype World = World(ran: bool, generated: nat)

  /** The parts of the snapshot this step decides; compiler, crate and version-control data come from collectors. */
  datatype Generated = Generated(profile: string, optimization_level: C.OptimizationLevel, timestamp: T.Instant)

  datatype Panic =
    | RanTwice
    | AlreadyConsumed
    | OptLevelMissing
    | OptLevelNotANumber(text: string)
    | Timestamp(cause: T.Panic)

  const UNKNOWN: string := "UNKNOWN"

  /** `BuildScriptOptions::default`: claims the once-per-process flag. */
  function Default(w: World): (r: Result<(World, Options), Panic>)
    ensures r.Ok? <==> !w.ran
    ensures r.Ok? ==> r.value.0 == World(true, w.generated)
    ensures r.Ok? ==> r.value.1 == Options(false, None, false)
    ensures r.Err? ==> r.error == RanTwice
  {
    if w.ran then Err(RanTwice)
    else Ok((w.(ran := true), Options(consumed := false, timestamp := None, collect_dependencies := false)))
  }

  /** `build_timestamp`: overrides the timestamp and changes nothing else. */
  function WithTimestamp(o: Options, t: T.Instant): (r: Options)
    ensures r.timestamp == Some(t)
    ensures r.consumed == o.consumed && r.collect_dependencies == o.collect_dependencies
  {
    o.(timestamp := Some(t))
  }

  /** `build_timestamp_as_nanos`: the same override, given as an `i64` nanosecond count. */
  function WithTimestampNanos(o: Options, nanos: int): (r: Options)
    requires Text.I64_MIN <= nanos <= Text.I64_MAX
    ensures r.timestamp.Some? && T.ToNanos(r.timestamp.value) == nanos && T.Valid(r.timestamp.value)
    ensures r.consumed == o.consumed && r.collect_dependencies == o.collect_dependencies
  {
    WithTimestamp(o, T.FromNanos(nanos))
  }

  /** The cargo-set `PROFILE`, or `UNKNOWN`. */
  function Profile(env: map<string, string>): (p: string)
    ensures "PROFILE" in env ==> p == env["PROFILE"]
    ensures "PROFILE" !in env ==> p == UNKNOWN
  {
    if "PROFILE" in env then env["PROFILE"] else UNKNOWN
  }

  /** The cargo-set `OPT_LEVEL`, which must be present and name a level. */
  function OptLevel(env: map<string, string>): (r: Result<C.OptimizationLevel, Panic>)
    ensures "OPT_LEVEL" !in env ==> r == Err(OptLevelMissing)
    ensures "OPT_LEVEL" in env ==> (r.Ok? <==> C.ParseOptimizationLevel(env["OPT_LEVEL"]).Some?)
    ensures r.Ok? ==> env["OPT_LEVEL"] == C.OptimizationLevelString(r.value)
  {
    if "OPT_LEVEL" !in env then Err(OptLevelMissing)
    else
      match C.ParseOptimizationLevel(env["OPT_LEVEL"])
      case None => Err(OptLevelNotANumber(env["OPT_LEVEL"]))
      case Some(o) =>
        C.OptimizationLevelRoundTrip(o, env["OPT_LEVEL"]);
        Ok(o)
  }

  /**
   `drop_to_build_info`: asserts the options are not consumed yet, marks them
   consumed, then gathers profile, optimisation level and timestamp (the
   override when set) and generates one snapshot.
   */
  function DropToBuildInfo(w: World, o: Options, env: map<string, string>, now: T.Instant)
    : (r: Result<(World, Options, Generated), Panic>)
    ensures o.consumed ==> r == Err(AlreadyConsumed)
    ensures r.Ok? ==> r.value.0 == w.(generated := w.generated + 1)
    ensures r.Ok? ==> r.value.1 == o.(consumed := true)
    ensures r.Ok? ==> r.value.2.profile == Profile(env)
    ensures r.Ok? && o.timestamp.Some? ==> r.value.2.timestamp == o.timestamp.value
    ensures r.Ok? && o.timestamp.None? ==> T.BuildTimestamp(env, now) == Ok(r.value.2.timestamp)
    ensures r.Ok? ==> OptLevel(env) == Ok(r.value.2.optimization_level)
    ensures !o.consumed && o.timestamp.Some? ==> (r.Ok? <==> OptLevel(env).Ok?)
    ensures !o.consumed && o.timestamp.None? ==> (r.Ok? <==> OptLevel(env).Ok? && T.BuildTimestamp(env, now).Ok?)
    ensures !o.consumed && OptLevel(env).Err? ==> r == Err(OptLevel(env).error)
    ensures !o.consumed && OptLevel(env).Ok? && o.timestamp.None? && T.BuildTimestamp(env, now).Err? ==>
      r == Err(Timestamp(T.BuildTimestamp(env, now).error))
  {
    if o.consumed then Err(AlreadyConsumed)
    else
      var profile := Profile(env);
      var level :- OptLevel(env);
      var timestamp :- match o.timestamp
        case Some(t) => Ok(t)
        case None =>
          (match T.BuildTimestamp(env, now)
           case Ok(t) => Ok(t)
           case Err(e) => Err(Timestamp(e)));
      Ok((w.(generated := w.generated + 1), o.(consumed := true), Generated(profile, level, timestamp)))
  }

  /** The destructor: generates the snapshot unless that already happened. */
  function Drop(w: World, o: Options, env: map<string, string>, now: T.Instant): (r: Result<World, Panic>)
    ensures o.consumed ==> r == Ok(w)
    ensures !o.consumed ==> (r.Ok? <==> DropToBuildInfo(w, o, env, now).Ok?)
    ensures !o.consumed && r.Ok? ==> r.value == w.(generated := w.generated + 1)
  {
    if o.consumed then Ok(w)
    else
      var (w', _, _) :- DropToBuildInfo(w, o, env, now);
      Ok(w')
  }

  /** `build`: generates the snapshot, after which the consumed options are dropped. */
  function Build(w: World, o: Options, env: map<string, string>, now: T.Instant): (r: Result<(World, Generated), Panic>)
    ensures r.Ok? <==> DropToBuildInfo(w, o, env, now).Ok?
    ensures r.Ok? ==> r.value.0 == w.(generated := w.generated + 1)
  {
    var (w', o', g) :- DropToBuildInfo(w, o, env, now);
    var dropped := Drop(w', o', env, now);
    Ok((dropped.value, g))
  }

  // ---------------------------------------------------------------------------
  // Laws

  /** Only the first options object of a process can be created. */
  lemma DefaultOnlyOnce(w: World)
    requires Default(w).Ok?
    ensures Default(Default(w).value.0) == Err(RanTwice)
  {
  }

  /**
   However a fresh options object ends its life (built, or dropped unused,
   with a timestamp override or not), exactly one snapshot is generated,
   unless the environment makes generation panic.
   */
  lemma GeneratesExactlyOnce(w: World, env: map<string, string>, now: T.Instant, t: Option<T.Instant>)
    requires !w.ran
    ensures var (w1, o) := Default(w).value;
      var o1 := if t.Some? then WithTimestamp(o, t.value) else o;
      var built := Build(w1, o1, env, now);
      var dropped := Drop(w1, o1, env, now);
      (built.Ok? <==> dropped.Ok?)
      && (built.Ok? ==> built.value.0.generated == w.generated + 1)
      && (dropped.Ok? ==> dropped.value.generated == w.generated + 1)
  {
  }

  /** Building a second time from the already consumed options is refused. */
  lemma ConsumedOptionsRefuse(w: World, o: Options, env: map<string, string>, now: T.Instant)
    requires DropToBuildInfo(w, o, env, now).Ok?
    ensures var (w', o', _) := DropToBuildInfo(w, o, env, now).value;
      DropToBuildInfo(w', o', env, now) == Err(AlreadyConsumed)
      && Drop(w', o', env, now) == Ok(w')
  {
  }

  /**
   A timestamp override wins over `SOURCE_DATE_EPOCH`: even a malformed epoch
   does not matter then.
   */
  lemma OverrideIgnoresEpoch(w: World, o: Options, t: T.Instant, env: map<string, string>, now: T.Instant)
    requires !o.consumed && OptLevel(env).Ok?
    ensures DropToBuildInfo(w, WithTimestamp(o, t), env, now).Ok?
    ensures DropToBuildInfo(w, WithTimestamp(o, t), env, now).value.2.timestamp == t
  {
  }
}
