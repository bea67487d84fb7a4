/**
 * The polling helpers of common/waiters.kt: `wait` evaluates a condition up
 * to `(0..times).count()` times, where `times` is `(timeout / period).toInt()`,
 * delaying one period after every false evaluation, and throws
 * TimeoutException when none was true; `waitUntil` does the same with a
 * receiver and hands the receiver back.
 *
 * Durations are whole milliseconds. The condition is a closure that may give
 * a different answer each time, so it is modelled as the answer of its k-th
 * evaluation, `cond(k)`; `delay` is modelled by counting the delays.
 */
module Waiters {
  import opened Errors

  /** The default period, one second. */
  const DefaultPeriod: int := 1000
  /** The default timeout, one minute. */
  const DefaultTimeout: int := 60000

  function Abs(a: int): (m: nat)
    ensures m == a || m == -a
  {
    if a < 0 then -a else a
  }

  /**
   * `Double.toInt()` of the quotient `a / b` for a non-zero b: truncation
   * toward zero, so the magnitude is the whole number of |b| in |a| and the
   * sign is the quotient's.
   */
  function TruncDiv(a: int, b: int): (q: int)
    requires b != 0
    ensures Abs(q) * Abs(b) <= Abs(a) < Abs(q) * Abs(b) + Abs(b)
    ensures q > 0 ==> (a > 0) == (b > 0)
    ensures q < 0 ==> (a > 0) != (b > 0) && a != 0
  {
    var m := Abs(a) / Abs(b);
    var q := if (a >= 0) == (b > 0) then m else -m;
    TruncBounds(a, b, m, q);
    q
  }

  lemma TruncBounds(a: int, b: int, m: int, q: int)
    requires b != 0 && m == Abs(a) / Abs(b)
    requires q == if (a >= 0) == (b > 0) then m else -m
    ensures Abs(q) * Abs(b) <= Abs(a) < Abs(q) * Abs(b) + Abs(b)
    ensures q > 0 ==> (a > 0) == (b > 0)
    ensures q < 0 ==> (a > 0) != (b > 0) && a != 0
  {
    var x, y := Abs(a), Abs(b);
    DivBounds(x, y);
    assert Abs(q) == m;
    if a == 0 {
      assert m == 0;
    }
  }

  lemma DivBounds(x: nat, y: nat)
    requires y > 0
    ensures (x / y) * y <= x < (x / y) * y + y
    ensures x / y >= 0
    ensures x == 0 ==> x / y == 0
  {
    assert x == (x / y) * y + x % y;
  }

  /** `IntRange.count()` of `lo..hi`: the number of integers from lo to hi inclusive. */
  function RangeCount(lo: int, hi: int): (n: nat)
    ensures n == 0 <==> hi < lo
    ensures n > 0 ==> lo + n - 1 == hi
  {
    if hi < lo then 0 else hi - lo + 1
  }

  /** How many times `wait` may evaluate its condition. */
  function Attempts(period: int, timeout: int): nat
    requires period != 0
  {
    RangeCount(0, TruncDiv(timeout, period))
  }

  /**
   * What `wait` does with the evaluations from the k-th on when n are allowed:
   * an evaluation that throws ends it with that exception, a true one returns,
   * a false one moves on to the next, and running out of evaluations throws
   * TimeoutException.
   */
  function WaitOutcome(cond: nat -> Outcome<bool>, n: nat, k: nat): (r: Outcome<()>)
    decreases n - k
  {
    if n <= k then Thrown(Timeout)
    else match cond(k)
      case Thrown(f) => Thrown(f)
      case Ok(b) => if b then Ok(()) else WaitOutcome(cond, n, k + 1)
  }

  /**
   * `wait(period, timeout, condition)`. The condition's k-th evaluation is
   * `cond(k)`, which may throw; nothing in `wait` catches it. Besides the
   * outcome it reports how many times the condition was evaluated and how
   * many delays were made.
   */
  method Wait(period: int, timeout: int, cond: nat -> Outcome<bool>) returns (r: Outcome<()>, checks: nat, delays: nat)
    requires period != 0
    ensures r == WaitOutcome(cond, Attempts(period, timeout), 0)
    ensures checks <= Attempts(period, timeout)
    ensures forall k :: 0 <= k < checks - 1 ==> cond(k) == Ok(false)
    ensures r.Ok? ==> checks >= 1 && cond(checks - 1) == Ok(true) && delays == checks - 1
    ensures delays == checks ==> r == Thrown(Timeout) && checks == Attempts(period, timeout) && forall k :: 0 <= k < checks ==> cond(k) == Ok(false)
    ensures delays != checks ==> checks >= 1 && delays == checks - 1 && cond(checks - 1) != Ok(false)
    ensures r.Thrown? && delays != checks ==> cond(checks - 1) == Thrown(r.failure)
  {
    var times := TruncDiv(timeout, period);
    var n := RangeCount(0, times);
    checks, delays := 0, 0;
    while checks < n
      invariant checks <= n
      invariant delays == checks
      invariant forall k :: 0 <= k < checks ==> cond(k) == Ok(false)
      invariant WaitOutcome(cond, n, checks) == WaitOutcome(cond, n, 0)
    {
      checks := checks + 1;
      var c := cond(checks - 1);
      if c.Thrown? {
        r := Thrown(c.failure);
        return;
      }
      if c.value {
        r := Ok(());
        return;
      }
      delays := delays + 1;
    }
    r := Thrown(Timeout);
  }

  /** `receiver.waitUntil(period, timeout, condition)`: waits on the condition applied to the receiver, then returns the receiver. */
  method WaitUntil<T>(receiver: T, period: int, timeout: int, cond: (T, nat) -> Outcome<bool>) returns (r: Outcome<T>, checks: nat)
    requires period != 0
    ensures checks <= Attempts(period, timeout)
    ensures forall k :: 0 <= k < checks - 1 ==> cond(receiver, k) == Ok(false)
    ensures r.Ok? ==> r.value == receiver && checks >= 1 && cond(receiver, checks - 1) == Ok(true)
    ensures r.Thrown? ==>
      || (r.failure == Timeout && checks == Attempts(period, timeout) && forall k :: 0 <= k < checks ==> cond(receiver, k) == Ok(false))
      || (checks >= 1 && cond(receiver, checks - 1) == Thrown(r.failure))
  {
    var onReceiver := (k: nat) => cond(receiver, k);
    assert forall k: nat :: onReceiver(k) == cond(receiver, k);
    var w, delays;
    w, checks, delays := Wait(period, timeout, onReceiver);
    if w.Thrown? {
      r := Thrown(w.failure);
    } else {
      r := Ok(receiver);
    }
  }

  /** From the k-th evaluation on, false answers up to the j-th are skipped. */
  lemma {:induction false} WaitSkipsFalse(cond: nat -> Outcome<bool>, n: nat, k: nat, j: nat)
    requires k <= j <= n
    requires forall i :: k <= i < j ==> cond(i) == Ok(false)
    ensures WaitOutcome(cond, n, k) == WaitOutcome(cond, n, j)
    decreases j - k
  {
    if k < j {
      WaitSkipsFalse(cond, n, k + 1, j);
    }
  }

  /**
   * An evaluation that throws, after only false ones, ends the wait with its
   * exception, whatever the later evaluations would have given.
   */
  lemma ThrowingConditionPropagates(cond: nat -> Outcome<bool>, n: nat, k: nat)
    requires k < n && cond(k).Thrown?
    requires forall i :: 0 <= i < k ==> cond(i) == Ok(false)
    ensures WaitOutcome(cond, n, 0) == Thrown(cond(k).failure)
  {
    WaitSkipsFalse(cond, n, 0, k);
  }

  /**
   * For a condition that never throws, `wait` returns exactly when one of the
   * n allowed evaluations is true, and otherwise throws TimeoutException.
   */
  lemma {:induction false} NonThrowingCondition(cond: nat -> Outcome<bool>, n: nat, k: nat)
    requires k <= n
    requires forall i :: k <= i < n ==> cond(i).Ok?
    ensures WaitOutcome(cond, n, k) == Ok(()) <==> exists i :: k <= i < n && cond(i) == Ok(true)
    ensures WaitOutcome(cond, n, k) != Ok(()) ==> WaitOutcome(cond, n, k) == Thrown(Timeout)
    decreases n - k
  {
    if k < n {
      NonThrowingCondition(cond, n, k + 1);
      assert k < n;
      assert cond(k) == Ok(cond(k).value);
      if cond(k) != Ok(true) {
        assert forall i :: k <= i < n && cond(i) == Ok(true) ==> k + 1 <= i;
      }
    }
  }

  /** For a non-negative timeout the last evaluation falls within the timeout and one more would not. */
  lemma AttemptsCoverTimeout(period: int, timeout: int)
    requires period > 0 && timeout >= 0
    ensures Attempts(period, timeout) >= 1
    ensures (Attempts(period, timeout) - 1) * period <= timeout < Attempts(period, timeout) * period
  {
    var q := TruncDiv(timeout, period);
    assert Attempts(period, timeout) == q + 1;
    assert (q + 1) * period == q * period + period;
  }

  /** A timeout of at most minus one period never evaluates the condition. */
  lemma NegativeTimeoutNeverChecks(period: int, timeout: int)
    requires period > 0 && timeout <= -period
    ensures Attempts(period, timeout) == 0
  {
    var q := TruncDiv(timeout, period);
    assert q * period < 0;
  }

  /** A negative timeout shorter than one period truncates to zero, so the condition is still evaluated once. */
  lemma ShortNegativeTimeoutChecksOnce(period: int, timeout: int)
    requires period > 0 && -period < timeout < 0
    ensures Attempts(period, timeout) == 1
  {
    assert (-timeout) / period == 0;
  }

  /**
   * Only the sign of the quotient matters: negating both durations changes
   * nothing, and a negative period with a timeout behaves as the positive
   * period with the negated timeout.
   */
  lemma NegatedDurations(period: int, timeout: int)
    requires period != 0
    ensures Attempts(-period, -timeout) == Attempts(period, timeout)
    ensures Attempts(-period, timeout) == Attempts(period, -timeout)
  {
  }

  /** A negative period with a positive timeout of at least one period never evaluates the condition. */
  lemma NegativePeriodNeverChecks(period: int, timeout: int)
    requires period < 0 && timeout >= -period
    ensures Attempts(period, timeout) == 0
  {
    NegatedDurations(-period, timeout);
    NegativeTimeoutNeverChecks(-period, -timeout);
  }

  /** A negative period with a non-positive timeout evaluates as often as the positive period with the negated timeout. */
  lemma NegativePeriodNegativeTimeout(period: int, timeout: int)
    requires period < 0 && timeout <= 0
    ensures Attempts(period, timeout) >= 1
    ensures (Attempts(period, timeout) - 1) * -period <= -timeout < Attempts(period, timeout) * -period
  {
    NegatedDurations(-period, -timeout);
    AttemptsCoverTimeout(-period, -timeout);
  }

  /** With the defaults (one second, one minute) the condition is evaluated at most 61 times. */
  lemma DefaultAttempts()
    ensures Attempts(DefaultPeriod, DefaultTimeout) == 61
  {
    assert TruncDiv(DefaultTimeout, DefaultPeriod) == 60;
  }

  /** A one-second timeout with a one-second period evaluates twice and delays twice before it throws. */
  lemma OneSecondNeverTrue()
    ensures Attempts(1000, 1000) == 2
  {
    assert TruncDiv(1000, 1000) == 1;
  }
}
