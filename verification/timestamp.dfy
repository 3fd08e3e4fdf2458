/**
 The build timestamp as the build script chooses it: a hand-set instant,
 otherwise the `SOURCE_DATE_EPOCH` of the Reproducible Builds specification
 when the variable is set, otherwise the current time. Instants are kept as
 whole seconds since the UNIX epoch plus a nanosecond remainder, which is how
 the timestamps are constructed here; the current time is a parameter.
 */
module Timestamp {
  import opened Wrappers
  import opened Text

  const NANOS_PER_SECOND: nat := 1_000_000_000

  /** A UTC instant: seconds since the epoch and the nanoseconds past that second. */
  datatype Instant = Instant(secs: int, nanos: nat)

  predicate Valid(t: Instant) {
    t.nanos < NANOS_PER_SECOND
  }

  function ToNanos(t: Instant): int {
    t.secs * NANOS_PER_SECOND + t.nanos
  }

  /** `TimeZone::timestamp_nanos`: the instant `n` nanoseconds after the epoch, flooring towards the past. */
  function FromNanos(n: int): (t: Instant)
    ensures Valid(t)
    ensures ToNanos(t) == n
  {
    Instant(n / NANOS_PER_SECOND, n % NANOS_PER_SECOND)
  }

  /** `TimeZone::timestamp(secs, 0)`: a whole second. */
  function FromEpoch(secs: int): (t: Instant)
    ensures Valid(t) && t.nanos == 0
    ensures ToNanos(t) == secs * NANOS_PER_SECOND
  {
    Instant(secs, 0)
  }

  datatype Panic = EpochNotAnInteger(text: string)

  /**
   The timestamp for an optional `SOURCE_DATE_EPOCH` value: an `i64` count of
   seconds when present (anything else panics), the current time when absent.
   */
  function TimestampFor(epoch: Option<string>, now: Instant): (r: Result<Instant, Panic>)
    ensures epoch.None? ==> r == Ok(now)
    ensures epoch.Some? ==> (r.Ok? <==> ParseInteger(epoch.value, true, I64_MIN, I64_MAX).Some?)
    ensures epoch.Some? && r.Ok? ==>
      r.value.nanos == 0 && Valid(r.value) && r.value.secs == ParseInteger(epoch.value, true, I64_MIN, I64_MAX).value
    ensures epoch.Some? && r.Err? ==> r.error == EpochNotAnInteger(epoch.value)
  {
    match epoch
    case None => Ok(now)
    case Some(text) =>
      match ParseInteger(text, true, I64_MIN, I64_MAX)
      case None => Err(EpochNotAnInteger(text))
      case Some(secs) => Ok(FromEpoch(secs))
  }

  const SOURCE_DATE_EPOCH: string := "SOURCE_DATE_EPOCH"

  /** `get_timestamp`: reads `SOURCE_DATE_EPOCH` from the environment. */
  function BuildTimestamp(env: map<string, string>, now: Instant): (r: Result<Instant, Panic>)
    ensures SOURCE_DATE_EPOCH !in env ==> r == Ok(now)
    ensures SOURCE_DATE_EPOCH in env ==> r == TimestampFor(Some(env[SOURCE_DATE_EPOCH]), now)
  {
    TimestampFor(if SOURCE_DATE_EPOCH in env then Some(env[SOURCE_DATE_EPOCH]) else None, now)
  }

  // ---------------------------------------------------------------------------
  // Laws

  /** Nanosecond counts and instants are interchangeable. */
  lemma NanosRoundTrip(t: Instant, n: int)
    requires Valid(t)
    ensures FromNanos(ToNanos(t)) == t
    ensures ToNanos(FromNanos(n)) == n
  {
    var k := ToNanos(t);
    assert k == t.secs * NANOS_PER_SECOND + t.nanos;
    DivModUnique(k, t.secs, t.nanos);
  }

  lemma DivModUnique(k: int, q: int, r: nat)
    requires r < NANOS_PER_SECOND && k == q * NANOS_PER_SECOND + r
    ensures k / NANOS_PER_SECOND == q && k % NANOS_PER_SECOND == r
  {
    var q' := k / NANOS_PER_SECOND;
    var r' := k % NANOS_PER_SECOND;
    assert k == q' * NANOS_PER_SECOND + r';
    assert (q' - q) * NANOS_PER_SECOND == r - r';
  }

  /** A whole epoch second is the same instant whichever setter produced it. */
  lemma EpochIsWholeNanos(secs: int)
    ensures FromEpoch(secs) == FromNanos(secs * NANOS_PER_SECOND)
  {
    NanosRoundTrip(FromEpoch(secs), secs * NANOS_PER_SECOND);
  }

  /** A `SOURCE_DATE_EPOCH` written as a decimal count of seconds yields exactly that second. */
  lemma RenderedEpochRoundTrip(secs: int, now: Instant)
    requires I64_MIN <= secs <= I64_MAX
    ensures TimestampFor(Some(IntToString(secs)), now) == Ok(Instant(secs, 0))
  {
    ParseIntToString(secs, true, I64_MIN, I64_MAX);
  }
}
