// Retry backoff of the resource registry (internal/agent/resource/failure.go)
// and the duration bounds it relies on (options.go).

module Backoff {
  // time.Duration is a 64-bit signed count of nanoseconds.
  const MAX_INT64: nat := 0x7FFF_FFFF_FFFF_FFFF
  const MAX_UINT32: nat := 0xFFFF_FFFF

  const SECOND: nat := 1_000_000_000
  const DEFAULT_IDLE: nat := 300 * SECOND
  const DEFAULT_START: nat := 120 * SECOND
  const DEFAULT_STOP_GRACE: nat := 5 * SECOND
  const DEFAULT_KILL_GRACE: nat := 2 * SECOND
  const DEFAULT_BACKOFF_INITIAL: nat := SECOND
  const DEFAULT_BACKOFF_MAXIMUM: nat := 60 * SECOND
  const DEFAULT_RETENTION: nat := 300 * SECOND
  const DEFAULT_STABLE: nat := 30 * SECOND

  datatype Options = Options(
    idleTimeout: int,
    startTimeout: int,
    stopGrace: int,
    killGrace: int,
    backoffInitial: int,
    backoffMaximum: int,
    failureRetention: int,
    stableReady: int)

  datatype Normalized = Accepted(options: Options) | Rejected

  // Every duration fits the 64-bit type it has in the program.
  predicate Representable(o: Options)
  {
    && -0x8000_0000_0000_0000 <= o.idleTimeout <= MAX_INT64
    && -0x8000_0000_0000_0000 <= o.startTimeout <= MAX_INT64
    && -0x8000_0000_0000_0000 <= o.stopGrace <= MAX_INT64
    && -0x8000_0000_0000_0000 <= o.killGrace <= MAX_INT64
    && -0x8000_0000_0000_0000 <= o.backoffInitial <= MAX_INT64
    && -0x8000_0000_0000_0000 <= o.backoffMaximum <= MAX_INT64
    && -0x8000_0000_0000_0000 <= o.failureRetention <= MAX_INT64
    && -0x8000_0000_0000_0000 <= o.stableReady <= MAX_INT64
  }

  function OrDefault(value: int, fallback: int): int
  {
    if value == 0 then fallback else value
  }

  // The bounds every later computation relies on.
  predicate Usable(o: Options)
  {
    && 0 < o.idleTimeout
    && 0 < o.startTimeout
    && 0 < o.stopGrace
    && 0 < o.killGrace
    && 0 < o.backoffInitial <= o.backoffMaximum <= MAX_INT64
    && 0 < o.failureRetention
    && 0 < o.stableReady
  }

  predicate Negative(o: Options)
  {
    o.idleTimeout < 0 || o.startTimeout < 0 || o.stopGrace < 0 || o.killGrace < 0 || o.backoffInitial < 0 ||
    o.backoffMaximum < 0 || o.failureRetention < 0 || o.stableReady < 0
  }

  // Every duration the caller set is the one in force.
  predicate Keeps(o: Options, t: Options)
  {
    && (o.idleTimeout != 0 ==> t.idleTimeout == o.idleTimeout)
    && (o.startTimeout != 0 ==> t.startTimeout == o.startTimeout)
    && (o.stopGrace != 0 ==> t.stopGrace == o.stopGrace)
    && (o.killGrace != 0 ==> t.killGrace == o.killGrace)
    && (o.backoffInitial != 0 ==> t.backoffInitial == o.backoffInitial)
    && (o.backoffMaximum != 0 ==> t.backoffMaximum == o.backoffMaximum)
    && (o.failureRetention != 0 ==> t.failureRetention == o.failureRetention)
    && (o.stableReady != 0 ==> t.stableReady == o.stableReady)
  }

  // Every duration the caller left at zero has its default, in nanoseconds: five
  // minutes idle, two minutes to start, five seconds to stop and two more to be
  // killed, a backoff from one second to a minute, five minutes of retention and
  // half a minute to be stable.
  predicate Defaulted(o: Options, t: Options)
  {
    && (o.idleTimeout == 0 ==> t.idleTimeout == 300_000_000_000)
    && (o.startTimeout == 0 ==> t.startTimeout == 120_000_000_000)
    && (o.stopGrace == 0 ==> t.stopGrace == 5_000_000_000)
    && (o.killGrace == 0 ==> t.killGrace == 2_000_000_000)
    && (o.backoffInitial == 0 ==> t.backoffInitial == 1_000_000_000)
    && (o.backoffMaximum == 0 ==> t.backoffMaximum == 60_000_000_000)
    && (o.failureRetention == 0 ==> t.failureRetention == 300_000_000_000)
    && (o.stableReady == 0 ==> t.stableReady == 30_000_000_000)
  }

  // Fills the defaults. The result is rejected exactly when a duration is
  // negative or the effective maximum is below the effective initial delay, and
  // an accepted result keeps every duration the caller set and has the defaults for
  // the others.
  function Normalize(o: Options): (r: Normalized)
    requires Representable(o)
    ensures r.Accepted? <==>
              && !Negative(o)
              && OrDefault(o.backoffInitial, DEFAULT_BACKOFF_INITIAL) <=
                 OrDefault(o.backoffMaximum, DEFAULT_BACKOFF_MAXIMUM)
    ensures r.Accepted? ==> Usable(r.options)
    ensures r.Accepted? ==> Keeps(o, r.options) && Defaulted(o, r.options)
  {
    if Negative(o) then
      Rejected
    else
      var filled := Options(
                      OrDefault(o.idleTimeout, DEFAULT_IDLE),
                      OrDefault(o.startTimeout, DEFAULT_START),
                      OrDefault(o.stopGrace, DEFAULT_STOP_GRACE),
                      OrDefault(o.killGrace, DEFAULT_KILL_GRACE),
                      OrDefault(o.backoffInitial, DEFAULT_BACKOFF_INITIAL),
                      OrDefault(o.backoffMaximum, DEFAULT_BACKOFF_MAXIMUM),
                      OrDefault(o.failureRetention, DEFAULT_RETENTION),
                      OrDefault(o.stableReady, DEFAULT_STABLE));
      if filled.backoffMaximum < filled.backoffInitial then Rejected else Accepted(filled)
  }

  function Min(a: int, b: int): int
  {
    if a <= b then a else b
  }

  // A delay doubled n times.
  function Doubled(delay: nat, n: nat): nat
    decreases n
  {
    if n == 0 then delay else Doubled(2 * delay, n - 1)
  }

  function Pow2(n: nat): nat
  {
    if n == 0 then 1 else 2 * Pow2(n - 1)
  }

  function Doublings(failures: nat): nat
  {
    if failures == 0 then 0 else failures - 1
  }

  // The delay the doubling loop stands for: the initial delay doubled once per
  // failure after the first, capped at the maximum.
  function IdealBase(o: Options, failures: nat): int
    requires Usable(o)
  {
    Min(Doubled(o.backoffInitial, Doublings(failures)), o.backoffMaximum)
  }

  lemma {:induction false} DoubledIsPower(delay: nat, n: nat)
    ensures Doubled(delay, n) == delay * Pow2(n)
    decreases n
  {
    if n > 0 {
      DoubledIsPower(2 * delay, n - 1);
      MoveFactor(delay, Pow2(n - 1));
    }
  }

  lemma MoveFactor(a: nat, b: nat)
    ensures (2 * a) * b == a * (2 * b)
  {
  }

  lemma {:induction false} DoubledGrows(delay: nat, n: nat)
    ensures delay <= Doubled(delay, n)
    decreases n
  {
    if n > 0 {
      DoubledGrows(2 * delay, n - 1);
    }
  }

  // The doubling loop of failLocked. No intermediate value exceeds the maximum,
  // so no doubling can overflow a 64-bit duration.
  method BackoffBase(o: Options, failures: nat) returns (base: int)
    requires Usable(o)
    ensures base == IdealBase(o, failures)
    ensures o.backoffInitial <= base <= o.backoffMaximum
  {
    base := o.backoffInitial;
    var remaining := failures;
    while remaining > 1 && base < o.backoffMaximum
      invariant 0 <= remaining <= failures
      invariant o.backoffInitial <= base <= o.backoffMaximum
      invariant Doubled(o.backoffInitial, Doublings(failures)) == Doubled(base, Doublings(remaining))
    {
      if base > o.backoffMaximum / 2 {
        DoubledGrows(2 * base, remaining - 2);
        base := o.backoffMaximum;
        return;
      }
      base := base * 2;
      remaining := remaining - 1;
    }
    DoubledGrows(base, Doublings(remaining));
  }

  // The clamp around the jitter callback's answer.
  function ClampDelay(o: Options, base: int, jittered: int): (delay: int)
    requires Usable(o) && 0 < base <= o.backoffMaximum
    ensures 0 < delay <= o.backoffMaximum
    ensures base / 2 <= delay
    ensures base / 2 <= jittered <= o.backoffMaximum && 0 < jittered ==> delay == jittered
  {
    var minimum := if base / 2 <= 0 then 1 else base / 2;
    var raised := if jittered < minimum then minimum else jittered;
    if raised > o.backoffMaximum then o.backoffMaximum else raised
  }

  function RetryDelay(o: Options, failures: nat, jittered: int): (delay: int)
    requires Usable(o)
    ensures 0 < delay <= o.backoffMaximum
    ensures IdealBase(o, failures) / 2 <= delay
  {
    DoubledGrows(o.backoffInitial, Doublings(failures));
    ClampDelay(o, IdealBase(o, failures), jittered)
  }

  lemma {:induction false} DoubledMonotone(delay: nat, few: nat, many: nat)
    requires few <= many
    ensures Doubled(delay, few) <= Doubled(delay, many)
    decreases few
  {
    if few == 0 {
      DoubledGrows(delay, many);
    } else {
      DoubledMonotone(2 * delay, few - 1, many - 1);
    }
  }

  // More failures never shorten the delay before jitter.
  lemma BaseMonotone(o: Options, few: nat, many: nat)
    requires Usable(o) && few <= many
    ensures IdealBase(o, few) <= IdealBase(o, many)
  {
    DoubledMonotone(o.backoffInitial, Doublings(few), Doublings(many));
  }
}
