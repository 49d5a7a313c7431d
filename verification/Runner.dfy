/** The background job loop of internal/jobs/runner.go: error backoff in wrapping 64-bit arithmetic and a circuit
    breaker, against closed forms. Durations are counted in nanoseconds. */
module Runner {
  import opened Int64
  import opened Wrappers

  const DEFAULT_INTERVAL: int64 := 5_000_000_000
  const DEFAULT_ERROR_BACKOFF_MAX: int64 := 60_000_000_000
  const ERROR_BACKOFF_FACTOR := 2

  datatype Config = Config(interval: int64, errorBackoffInitial: int64, errorBackoffMax: int64,
                           circuitBreakerFailures: int64, circuitBreakerCooldown: int64)

  datatype ErrorBackoff = ErrorBackoff(initial: int64, max: int64)

  datatype CircuitBreaker = CircuitBreaker(failures: int64, cooldown: int64) {
    predicate Opens(consecutive: int64) {
      failures > 0 && consecutive >= failures
    }
  }

  datatype Settings = Settings(interval: int64, backoff: ErrorBackoff, breaker: CircuitBreaker) {
    predicate Valid() {
      interval > 0 && 0 < backoff.initial <= backoff.max && breaker.cooldown > 0
    }
  }

  function NewErrorBackoff(interval: int64, initial: int64, maxDelay: int64): ErrorBackoff {
    var first := if initial <= 0 then interval else initial;
    var limit := if maxDelay <= 0 then DEFAULT_ERROR_BACKOFF_MAX else maxDelay;
    ErrorBackoff(first, if limit < first then first else limit)
  }

  function NewCircuitBreaker(failures: int64, cooldown: int64, fallbackCooldown: int64): CircuitBreaker {
    CircuitBreaker(failures, if cooldown <= 0 then fallbackCooldown else cooldown)
  }

  /** `New`: whatever the configuration, every delay is positive and the backoff has room to start. */
  function New(config: Config): (s: Settings)
    ensures s.Valid()
    ensures s.interval == if config.interval > 0 then config.interval else 5_000_000_000
    ensures s.backoff.initial == if config.errorBackoffInitial > 0 then config.errorBackoffInitial else s.interval
    ensures config.errorBackoffMax >= s.backoff.initial ==> s.backoff.max == config.errorBackoffMax
    ensures 0 < config.errorBackoffMax < s.backoff.initial ==> s.backoff.max == s.backoff.initial
    ensures config.errorBackoffMax <= 0 ==>
      s.backoff.max == if s.backoff.initial > 60_000_000_000 then s.backoff.initial else 60_000_000_000
    ensures s.breaker.failures == config.circuitBreakerFailures
    ensures s.breaker.cooldown == if config.circuitBreakerCooldown > 0 then config.circuitBreakerCooldown else s.backoff.max
  {
    var interval := if config.interval <= 0 then DEFAULT_INTERVAL else config.interval;
    var backoff := NewErrorBackoff(interval, config.errorBackoffInitial, config.errorBackoffMax);
    Settings(interval, backoff,
             NewCircuitBreaker(config.circuitBreakerFailures, config.circuitBreakerCooldown, backoff.max))
  }

  /** The doubling step, as the 64-bit product comes out. */
  function NextBackoff(current: int64, maxDelay: int64): int64 {
    var next := Wrap(current * ERROR_BACKOFF_FACTOR);
    if next < current || next > maxDelay then maxDelay else next
  }

  // ---------------------------------------------------------------- closed forms

  function Pow2(n: nat): nat {
    if n == 0 then 1 else 2 * Pow2(n - 1)
  }

  /** The backoff after `n` doublings. */
  function Backoff(b: ErrorBackoff, n: nat): int {
    if b.initial * Pow2(n) < b.max then b.initial * Pow2(n) else b.max
  }

  /** The delay after the `j`-th failure in a row. */
  function Delay(s: Settings, j: nat): int
    requires j > 0
  {
    var n := s.breaker.failures;
    if n > 0 && j % n == 0 then s.breaker.cooldown
    else Backoff(s.backoff, if n > 0 then (j - 1) % n else j - 1)
  }

  /** What one attempt of the handler reports. */
  datatype Attempt = Failed | Worked | NothingToDo

  /** Failures in a row at the end of the list. */
  function Streak(attempts: seq<Attempt>): nat {
    if attempts != [] && attempts[|attempts| - 1] == Failed then Streak(attempts[..|attempts| - 1]) + 1 else 0
  }

  /** The sleep that follows the last attempt of a list, if there is one. */
  function SleepAfter(s: Settings, attempts: seq<Attempt>): Option<int>
    requires attempts != []
  {
    match attempts[|attempts| - 1]
    case Failed => Some(Delay(s, Streak(attempts)))
    case Worked => None
    case NothingToDo => Some(s.interval)
  }

  /** The failures at which the breaker opens: every one whose streak is a multiple of the threshold. */
  function Openings(s: Settings, attempts: seq<Attempt>): nat {
    var n := s.breaker.failures;
    if attempts == [] then 0
    else
      Openings(s, attempts[..|attempts| - 1])
      + (if n > 0 && attempts[|attempts| - 1] == Failed && Streak(attempts) % n == 0 then 1 else 0)
  }

  // ---------------------------------------------------------------- the same, step by step

  /** Failures since the breaker last opened, after `k` failures in a row. */
  function SinceOpening(n: int, k: nat): (r: nat)
    requires n > 0
    ensures r < n
  {
    if k == 0 || SinceOpening(n, k - 1) + 1 == n then 0 else SinceOpening(n, k - 1) + 1
  }

  function Doubled(b: ErrorBackoff, n: nat): int64 {
    if n == 0 then b.initial else NextBackoff(Doubled(b, n - 1), b.max)
  }

  function StepDelay(s: Settings, j: nat): int
    requires j > 0
  {
    var n := s.breaker.failures;
    if n > 0 && SinceOpening(n, j) == 0 then s.breaker.cooldown
    else Doubled(s.backoff, if n > 0 then SinceOpening(n, j - 1) else j - 1)
  }

  function StepSleep(s: Settings, attempts: seq<Attempt>): Option<int>
    requires attempts != []
  {
    match attempts[|attempts| - 1]
    case Failed => Some(StepDelay(s, Streak(attempts)))
    case Worked => None
    case NothingToDo => Some(s.interval)
  }

  function StepOpenings(s: Settings, attempts: seq<Attempt>): nat {
    if attempts == [] then 0
    else
      StepOpenings(s, attempts[..|attempts| - 1])
      + (if s.breaker.failures > 0 && attempts[|attempts| - 1] == Failed
            && SinceOpening(s.breaker.failures, Streak(attempts)) == 0
         then 1 else 0)
  }

  lemma {:induction false} Pow2Positive(n: nat)
    ensures Pow2(n) >= 1
  {
    if n > 0 {
      Pow2Positive(n - 1);
    }
  }

  lemma BackoffInRange(b: ErrorBackoff, n: nat)
    requires 0 < b.initial <= b.max
    ensures b.initial <= Backoff(b, n) <= b.max
  {
    Pow2Positive(n);
    MulBounds(Pow2(n), b.initial);
    assert b.initial * Pow2(n) == Pow2(n) * b.initial;
  }

  /** The wrapping step computes the next closed form, also where the product overflows. */
  lemma NextBackoffIsDoubling(b: ErrorBackoff, n: nat)
    requires 0 < b.initial <= b.max
    ensures b.initial <= Backoff(b, n) <= b.max
    ensures NextBackoff(Backoff(b, n), b.max) == Backoff(b, n + 1)
  {
    BackoffInRange(b, n);
    var current := Backoff(b, n);
    assert b.initial * Pow2(n + 1) == 2 * (b.initial * Pow2(n));
    if 2 * current > MAX_INT64 {
      assert Wrap(2 * current) == 2 * current - 0x1_0000_0000_0000_0000;
    }
  }

  lemma MulBounds(d: int, n: int)
    requires n > 0
    ensures d >= 1 ==> d * n >= n
    ensures d >= 2 ==> d * n >= 2 * n
    ensures d <= -1 ==> d * n <= -n
  {
  }

  lemma ModUnique(x: int, n: int, q: int, r: int)
    requires n > 0 && 0 <= r < n && x == q * n + r
    ensures x % n == r && x / n == q
  {
    var d := x / n - q;
    assert x == (x / n) * n + x % n;
    assert d * n == r - x % n;
    MulBounds(d, n);
  }

  lemma ModStep(k: nat, n: int)
    requires n > 0
    ensures (k + 1) % n == if k % n + 1 == n then 0 else k % n + 1
    ensures (k + 1) / n == k / n + if (k + 1) % n == 0 then 1 else 0
  {
    var q := k / n;
    assert k == q * n + k % n;
    if k % n + 1 == n {
      assert k + 1 == (q + 1) * n + 0;
      ModUnique(k + 1, n, q + 1, 0);
    } else {
      ModUnique(k + 1, n, q, k % n + 1);
    }
  }

  lemma {:induction false} SinceOpeningIsRemainder(n: int, k: nat)
    requires n > 0
    ensures SinceOpening(n, k) == k % n
  {
    if k > 0 {
      SinceOpeningIsRemainder(n, k - 1);
      ModStep(k - 1, n);
    }
  }

  lemma {:induction false} DoubledIsBackoff(b: ErrorBackoff, n: nat)
    requires 0 < b.initial <= b.max
    ensures Doubled(b, n) == Backoff(b, n)
  {
    if n > 0 {
      DoubledIsBackoff(b, n - 1);
      NextBackoffIsDoubling(b, n - 1);
    }
  }

  /** What the loop sleeps after its `j`-th failure in a row, in closed form: the cooldown at every multiple of the
      threshold, otherwise the capped power of two; wrapping arithmetic never shows. */
  lemma DelayInClosedForm(s: Settings, j: nat)
    requires s.Valid() && j > 0
    ensures StepDelay(s, j) == Delay(s, j)
  {
    var n := s.breaker.failures;
    if n > 0 {
      SinceOpeningIsRemainder(n, j);
      SinceOpeningIsRemainder(n, j - 1);
      DoubledIsBackoff(s.backoff, (j - 1) % n);
    } else {
      DoubledIsBackoff(s.backoff, j - 1);
    }
  }

  /** The variables of the loop after `k` failures in a row: the failures since the breaker last opened, and the
      delay the next failure would sleep if it does not open the breaker. */
  predicate LoopState(s: Settings, k: nat, failures: int64, errorDelay: int64) {
    var n := s.breaker.failures;
    if n > 0 then failures == SinceOpening(n, k) && errorDelay == Doubled(s.backoff, SinceOpening(n, k))
    else errorDelay == Doubled(s.backoff, k)
  }

  lemma StreakStep(attempts: seq<Attempt>, i: nat)
    requires i < |attempts|
    ensures Streak(attempts[..i + 1]) == if attempts[i] == Failed then Streak(attempts[..i]) + 1 else 0
  {
    assert attempts[..i + 1][..i] == attempts[..i];
  }

  /** After each attempt the loop slept what the closed form says. */
  predicate SleepsMatch(s: Settings, attempts: seq<Attempt>, sleeps: seq<Option<int>>) {
    |sleeps| <= |attempts| && forall i | 0 <= i < |sleeps| :: sleeps[i] == SleepAfter(s, attempts[..i + 1])
  }

  predicate StepSleepsMatch(s: Settings, attempts: seq<Attempt>, sleeps: seq<Option<int>>) {
    |sleeps| <= |attempts| && forall i | 0 <= i < |sleeps| :: sleeps[i] == StepSleep(s, attempts[..i + 1])
  }

  lemma SleepsExtend(s: Settings, attempts: seq<Attempt>, sleeps: seq<Option<int>>, sleep: Option<int>)
    requires StepSleepsMatch(s, attempts, sleeps) && |sleeps| < |attempts|
    requires sleep == StepSleep(s, attempts[..|sleeps| + 1])
    ensures StepSleepsMatch(s, attempts, sleeps + [sleep])
  {
  }

  lemma SleepsInClosedForm(s: Settings, attempts: seq<Attempt>, sleeps: seq<Option<int>>)
    requires s.Valid() && StepSleepsMatch(s, attempts, sleeps)
    ensures SleepsMatch(s, attempts, sleeps)
  {
    forall i | 0 <= i < |sleeps| ensures sleeps[i] == SleepAfter(s, attempts[..i + 1]) {
      if attempts[i] == Failed {
        DelayInClosedForm(s, Streak(attempts[..i + 1]));
      }
    }
  }

  lemma {:induction false} OpeningsInClosedForm(s: Settings, attempts: seq<Attempt>)
    ensures StepOpenings(s, attempts) == Openings(s, attempts)
  {
    if attempts != [] {
      OpeningsInClosedForm(s, attempts[..|attempts| - 1]);
      if s.breaker.failures > 0 {
        SinceOpeningIsRemainder(s.breaker.failures, Streak(attempts));
      }
    }
  }

  /** `Run` over the attempts it gets to make before it is cancelled: after each one it sleeps what the closed form
      says. */
  method Run(s: Settings, attempts: seq<Attempt>) returns (sleeps: seq<Option<int>>, openings: nat)
    requires s.Valid()
    ensures |sleeps| == |attempts| && SleepsMatch(s, attempts, sleeps)
    ensures openings == Openings(s, attempts)
  {
    var failures: int64 := 0;
    var errorDelay := s.backoff.initial;
    sleeps, openings := [], 0;
    for i := 0 to |attempts|
      invariant |sleeps| == i && StepSleepsMatch(s, attempts, sleeps)
      invariant LoopState(s, Streak(attempts[..i]), failures, errorDelay)
      invariant openings == StepOpenings(s, attempts[..i])
    {
      StreakStep(attempts, i);
      assert attempts[..i + 1][..i] == attempts[..i];
      if attempts[i] == Failed {
        failures := Wrap(failures + 1);
        var delay := errorDelay;
        errorDelay := NextBackoff(errorDelay, s.backoff.max);
        if s.breaker.Opens(failures) {
          delay := s.breaker.cooldown;
          errorDelay := s.backoff.initial;
          openings := openings + 1;
          failures := 0;
        }
        SleepsExtend(s, attempts, sleeps, Some(delay));
        sleeps := sleeps + [Some(delay)];
        continue;
      }
      failures := 0;
      errorDelay := s.backoff.initial;
      var pause := if attempts[i] == Worked then None else Some(s.interval);
      SleepsExtend(s, attempts, sleeps, pause);
      sleeps := sleeps + [pause];
    }
    assert attempts[..|attempts|] == attempts;
    SleepsInClosedForm(s, attempts, sleeps);
    OpeningsInClosedForm(s, attempts);
  }

  // ---------------------------------------------------------------- consequences

  function Failures(m: nat): (f: seq<Attempt>)
    ensures |f| == m
  {
    seq(m, _ => Failed)
  }

  lemma OneMoreFailure(before: seq<Attempt>, m: nat)
    requires m > 0
    ensures var all := before + Failures(m);
      all[|all| - 1] == Failed && all[..|all| - 1] == before + Failures(m - 1)
  {
  }

  lemma {:induction false} StreakOfFailures(before: seq<Attempt>, m: nat)
    requires before == [] || before[|before| - 1] != Failed
    ensures Streak(before + Failures(m)) == m
  {
    if m > 0 {
      OneMoreFailure(before, m);
      StreakOfFailures(before, m - 1);
    } else {
      assert before + Failures(0) == before;
    }
  }

  /** A run of `m` failures, from the start or after any attempt that did not fail, opens the breaker once for every
      full threshold. */
  lemma {:induction false} OneOpeningPerThreshold(s: Settings, before: seq<Attempt>, m: nat)
    requires before == [] || before[|before| - 1] != Failed
    ensures Openings(s, before + Failures(m))
         == Openings(s, before) + if s.breaker.failures > 0 then m / s.breaker.failures else 0
  {
    if m > 0 {
      OneMoreFailure(before, m);
      OneOpeningPerThreshold(s, before, m - 1);
      StreakOfFailures(before, m);
      if s.breaker.failures > 0 {
        ModStep(m - 1, s.breaker.failures);
      }
    } else {
      assert before + Failures(0) == before;
    }
  }

  /** A success restarts the count: what follows it is as if the loop had just begun. */
  lemma {:induction false} SuccessRestarts(before: seq<Attempt>, after: seq<Attempt>)
    requires before != [] && before[|before| - 1] != Failed
    ensures Streak(before + after) == Streak(after)
  {
    var all := before + after;
    if after == [] {
      assert all == before;
    } else if after[|after| - 1] == Failed {
      assert all[..|all| - 1] == before + after[..|after| - 1];
      SuccessRestarts(before, after[..|after| - 1]);
    }
  }

  /** No delay after a failure leaves the bounds, and without a cooldown it never shrinks along a streak. */
  lemma DelaysStayInBounds(s: Settings, j: nat)
    requires s.Valid() && j > 0
    ensures Delay(s, j) == s.breaker.cooldown || s.backoff.initial <= Delay(s, j) <= s.backoff.max
    ensures s.breaker.failures <= 0 ==> s.backoff.initial <= Delay(s, j) <= Delay(s, j + 1) <= s.backoff.max
  {
    BackoffInRange(s.backoff, if s.breaker.failures > 0 then (j - 1) % s.breaker.failures else j - 1);
    if s.breaker.failures <= 0 {
      BackoffInRange(s.backoff, j);
      assert s.backoff.initial * Pow2(j) == 2 * (s.backoff.initial * Pow2(j - 1));
    }
  }
}
