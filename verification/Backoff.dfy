/** Retry back-off: base * multiplier^(attempt - 1), capped, rounded up. */
module Backoff {
  import opened Schema

  function Power(m: real, n: nat): real {
    if n == 0 then 1.0 else m * Power(m, n - 1)
  }

  // Rounding a non-negative amount away from zero.
  function RoundUp(x: real): int {
    -((-x).Floor)
  }

  /** `attempt` is absent when the attempt was never counted, the type when it is unknown. */
  function RetryDelay(tt: Option<TaskType>, attempt: Option<nat>, fallback: int): int {
    if tt.None? || attempt.None? || tt.value.retryDelay <= 0 then fallback
    else
      var exponent := if attempt.value > 0 then attempt.value - 1 else 0;
      RoundUp(Capped(Uncapped(tt.value, exponent), tt.value.maxRetryDelay))
  }

  function Uncapped(tt: TaskType, exponent: nat): real {
    tt.retryDelay as real * Power(tt.retryMultiplier, exponent)
  }

  function Capped(x: real, cap: int): real {
    if cap > 0 && cap as real < x then cap as real else x
  }

  predicate Growing(tt: TaskType) {
    tt.retryDelay > 0 && tt.retryMultiplier >= 1.0
  }

  lemma RoundUpIsMonotone(x: real, y: real)
    requires x <= y
    ensures RoundUp(x) <= RoundUp(y)
    ensures x <= RoundUp(x) as real < x + 1.0
  {
  }

  lemma {:induction false} PowerGrows(m: real, i: nat, j: nat)
    requires m >= 1.0 && i <= j
    ensures 1.0 <= Power(m, i) <= Power(m, j)
    decreases j
  {
    if j > 0 {
      PowerGrows(m, 0, j - 1);
      assert m * Power(m, j - 1) >= Power(m, j - 1) by {
        assert (m - 1.0) * Power(m, j - 1) >= 0.0;
      }
      if i < j {
        PowerGrows(m, i, j - 1);
      }
    }
  }

  lemma ScaleUp(base: real, x: real, y: real)
    requires base >= 0.0 && x <= y
    ensures base * x <= base * y
  {
  }

  /** Later attempts never wait less; no wait exceeds a positive cap; and every wait is at
      least the base delay when the cap allows it. */
  lemma {:induction false} DelayGrowsToItsCap(tt: TaskType, early: nat, late: nat, fallback: int)
    requires Growing(tt) && early <= late
    ensures RetryDelay(Some(tt), Some(early), fallback) <= RetryDelay(Some(tt), Some(late), fallback)
    ensures tt.maxRetryDelay > 0 ==> RetryDelay(Some(tt), Some(late), fallback) <= tt.maxRetryDelay
    ensures tt.maxRetryDelay <= 0 || tt.maxRetryDelay >= tt.retryDelay ==>
      RetryDelay(Some(tt), Some(early), fallback) >= tt.retryDelay
  {
    var i := if early > 0 then early - 1 else 0;
    var j := if late > 0 then late - 1 else 0;
    UncappedGrows(tt, i, j);
    var x, y := Uncapped(tt, i), Uncapped(tt, j);
    CappedKeepsOrder(tt.retryDelay as real, x, y, tt.maxRetryDelay);
    RoundUpIsMonotone(Capped(x, tt.maxRetryDelay), Capped(y, tt.maxRetryDelay));
    RoundUpIsMonotone(Capped(y, tt.maxRetryDelay), Capped(y, tt.maxRetryDelay));
  }

  lemma {:induction false} UncappedGrows(tt: TaskType, i: nat, j: nat)
    requires Growing(tt) && i <= j
    ensures tt.retryDelay as real <= Uncapped(tt, i) <= Uncapped(tt, j)
  {
    var base, m := tt.retryDelay as real, tt.retryMultiplier;
    PowerGrows(m, i, j);
    ScaleUp(base, 1.0, Power(m, i));
    ScaleUp(base, Power(m, i), Power(m, j));
  }

  lemma CappedKeepsOrder(base: real, x: real, y: real, cap: int)
    requires base <= x <= y
    ensures Capped(x, cap) <= Capped(y, cap)
    ensures cap > 0 ==> Capped(y, cap) <= cap as real
    ensures cap <= 0 || cap as real >= base ==> Capped(x, cap) >= base
  {
  }

  lemma OneMoreFactor(p: real, e: real, k: real)
    requires e >= 0.0 && p >= 1.0 && p >= 1.0 + k * e
    ensures (1.0 + e) * p >= 1.0 + (k + 1.0) * e
  {
    assert e * (p - 1.0) >= 0.0;
    assert (1.0 + e) * p == p + e * (p - 1.0) + e;
  }

  lemma {:induction false} PowerAboveLine(m: real, n: nat)
    requires m >= 1.0
    ensures Power(m, n) >= 1.0 + n as real * (m - 1.0)
  {
    if n > 0 {
      PowerAboveLine(m, n - 1);
      PowerGrows(m, 0, n - 1);
      OneMoreFactor(Power(m, n - 1), m - 1.0, (n - 1) as real);
    }
  }

  /** With a multiplier above one the cap is reached, and from then on the delay is the cap. */
  lemma {:induction false} CapIsReached(tt: TaskType, attempt: nat, fallback: int)
    requires Growing(tt) && tt.maxRetryDelay > 0
    requires tt.maxRetryDelay as real
          <= tt.retryDelay as real * (1.0 + (attempt as real - 1.0) * (tt.retryMultiplier - 1.0))
    requires attempt > 0
    ensures RetryDelay(Some(tt), Some(attempt), fallback) == tt.maxRetryDelay
  {
    PowerAboveLine(tt.retryMultiplier, attempt - 1);
    ScaleUp(tt.retryDelay as real, 1.0 + (attempt - 1) as real * (tt.retryMultiplier - 1.0),
            Power(tt.retryMultiplier, attempt - 1));
  }

  lemma FirstDelay(tt: TaskType, attempt: nat, fallback: int)
    requires Growing(tt) && attempt <= 1
    ensures RetryDelay(Some(tt), Some(attempt), fallback)
         == if 0 < tt.maxRetryDelay < tt.retryDelay then tt.maxRetryDelay else tt.retryDelay
  {
    assert Power(tt.retryMultiplier, 0) == 1.0;
  }

  lemma FurtherDelay(tt: TaskType, attempt: nat, fallback: int)
    requires Growing(tt) && attempt >= 1
    ensures var m, now := tt.retryMultiplier, RetryDelay(Some(tt), Some(attempt), fallback);
      var next := RetryDelay(Some(tt), Some(attempt + 1), fallback);
      || (tt.maxRetryDelay > 0 && next == tt.maxRetryDelay)
      || m * (now as real - 1.0) < next as real < m * now as real + 1.0
  {
    OneFactorMore(tt, attempt - 1);
    UncappedGrows(tt, attempt - 1, attempt);
    DelayMultiplies(tt.retryMultiplier, Uncapped(tt, attempt - 1), Uncapped(tt, attempt), tt.maxRetryDelay);
  }

  /** The first retry waits for the base delay, cut to the cap; each further one waits for the
      cap, or for the multiple of the wait before, up to rounding to whole seconds. A type
      without a base delay always waits for the fallback. */
  lemma DelayByAttempt(tt: TaskType, attempt: nat, fallback: int)
    ensures tt.retryDelay <= 0 ==> RetryDelay(Some(tt), Some(attempt), fallback) == fallback
    ensures Growing(tt) && attempt <= 1 ==>
      RetryDelay(Some(tt), Some(attempt), fallback)
      == if 0 < tt.maxRetryDelay < tt.retryDelay then tt.maxRetryDelay else tt.retryDelay
    ensures Growing(tt) && attempt >= 1 ==>
      var m, now := tt.retryMultiplier, RetryDelay(Some(tt), Some(attempt), fallback);
      var next := RetryDelay(Some(tt), Some(attempt + 1), fallback);
      || (tt.maxRetryDelay > 0 && next == tt.maxRetryDelay)
      || m * (now as real - 1.0) < next as real < m * now as real + 1.0
  {
    if Growing(tt) {
      if attempt <= 1 { FirstDelay(tt, attempt, fallback); }
      if attempt >= 1 { FurtherDelay(tt, attempt, fallback); }
    }
  }

  lemma DelayMultiplies(m: real, u: real, v: real, cap: int)
    requires m >= 1.0 && u <= v && v == m * u
    ensures var now, next := RoundUp(Capped(u, cap)), RoundUp(Capped(v, cap));
      (cap > 0 && next == cap) || m * (now as real - 1.0) < next as real < m * now as real + 1.0
  {
    if cap <= 0 || v <= cap as real {
      assert Capped(u, cap) == u && Capped(v, cap) == v;
      RoundedMultiplies(m, u, v);
    } else {
      assert RoundUp(cap as real) == cap;
    }
  }

  lemma RoundedMultiplies(m: real, u: real, v: real)
    requires m >= 1.0 && v == m * u
    ensures m * (RoundUp(u) as real - 1.0) < RoundUp(v) as real < m * RoundUp(u) as real + 1.0
  {
    RoundUpIsMonotone(u, u);
    RoundUpIsMonotone(v, v);
    NearMultiples(m, u, RoundUp(u) as real, RoundUp(v) as real);
  }

  lemma NearMultiples(m: real, u: real, r: real, w: real)
    requires m >= 1.0 && u <= r < u + 1.0 && m * u <= w < m * u + 1.0
    ensures m * (r - 1.0) < w < m * r + 1.0
  {
    var q := r - 1.0;
    Bracketed(m, q, u, r, m * q, m * u, m * r, w);
  }

  lemma Bracketed(m: real, q: real, u: real, r: real, low: real, mid: real, high: real, w: real)
    requires m >= 1.0 && q < u <= r && low == m * q && mid == m * u && high == m * r && mid <= w < mid + 1.0
    ensures low < w < high + 1.0
  {
    StrictScale(m, q, u);
    ScaleUp(m, u, r);
    Chain(low, mid, high, w);
  }

  lemma Chain(low: real, mid: real, high: real, w: real)
    requires low < mid <= w < mid + 1.0 && mid <= high
    ensures low < w < high + 1.0
  {
  }

  lemma OneFactorMore(tt: TaskType, exponent: nat)
    ensures Uncapped(tt, exponent + 1) == tt.retryMultiplier * Uncapped(tt, exponent)
  {
    var base, m, p := tt.retryDelay as real, tt.retryMultiplier, Power(tt.retryMultiplier, exponent);
    assert base * (m * p) == m * (base * p);
  }

  lemma StrictScale(m: real, x: real, y: real)
    requires m > 0.0 && x < y
    ensures m * x < m * y
  {
    assert m * (y - x) > 0.0;
  }
}
