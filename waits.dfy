/**
 * What the driver's polling loops observe, stated over the environment's
 * reading sequences: `clock(k)` is the k-th millis() reading and `aux(i)`
 * the i-th AUX reading (true = HIGH).
 */
module Waits {
  import opened Types
  import opened Timing
  import opened Status

  /**
   * The deadline test of each driver generation: the current driver ends a
   * wait once `timeout` ms have elapsed (`>=`), the E34 driver only once
   * more than `timeout` ms have (`>`).
   */
  function Expired(strict: bool, t: uint32, tPrev: uint32, timeout: uint32): (r: bool)
    ensures r <==> if strict then Elapsed(t, tPrev) > timeout else Elapsed(t, tPrev) >= timeout
  {
    if strict then ElapsedExceeds(t, tPrev, timeout) else IsTimeout(t, tPrev, timeout)
  }

  /**
   * A polling delay whose start reading is reading `p` ends at reading `e`:
   * the first later reading at which the deadline has expired.
   */
  ghost predicate DelayEnds(clock: nat -> uint32, strict: bool, p: nat, e: nat, timeout: uint32)
  {
    p < e && Expired(strict, clock(e), clock(p), timeout) &&
    forall k: nat :: p < k < e ==> !Expired(strict, clock(k), clock(p), timeout)
  }

  /** The end of a delay is determined by the clock: a delay cannot end at two readings. */
  lemma {:induction false} DelayEndUnique(clock: nat -> uint32, strict: bool, p: nat, e1: nat, e2: nat, timeout: uint32)
    requires DelayEnds(clock, strict, p, e1, timeout)
    requires DelayEnds(clock, strict, p, e2, timeout)
    ensures e1 == e2
  {
    assert !(e1 < e2) by {
      assert Expired(strict, clock(e1), clock(p), timeout);
    }
    assert !(e2 < e1) by {
      assert Expired(strict, clock(e2), clock(p), timeout);
    }
  }

  /** Some reading after `p` has the deadline expired. */
  ghost predicate CanExpire(clock: nat -> uint32, strict: bool, p: nat, timeout: uint32)
  {
    exists q: nat :: p < q && Expired(strict, clock(q), clock(p), timeout)
  }

  /**
   * On a live clock every wait can end, except a strict wait for the largest
   * timeout: no 32-bit difference exceeds ULONG_MAX.
   */
  lemma {:induction false} LiveCanExpire(clock: nat -> uint32, strict: bool, p: nat, timeout: uint32)
    requires Live(clock)
    requires strict ==> timeout < ULONG_MAX
    ensures CanExpire(clock, strict, p, timeout)
  {
    if strict {
      LiveReachesStrict(clock, p, timeout);
      var q: nat :| p < q && ElapsedExceeds(clock(q), clock(p), timeout);
      assert Expired(strict, clock(q), clock(p), timeout);
    } else {
      assert Reaches(clock, p, timeout);
      var q: nat :| p < q && IsTimeout(clock(q), clock(p), timeout);
      assert Expired(strict, clock(q), clock(p), timeout);
    }
  }

  /** A clock reading after `p` at which the deadline has expired. */
  lemma {:induction false} ExpiryReading(clock: nat -> uint32, strict: bool, p: nat, timeout: uint32) returns (q: nat)
    requires Live(clock)
    requires strict ==> timeout < ULONG_MAX
    ensures p < q && Expired(strict, clock(q), clock(p), timeout)
  {
    LiveCanExpire(clock, strict, p, timeout);
    q :| p < q && Expired(strict, clock(q), clock(p), timeout);
  }

  /** The strict wait for ULONG_MAX ms can never end, whatever the clock does. */
  lemma StrictMaxNeverExpires(t: uint32, tPrev: uint32)
    ensures !Expired(true, t, tPrev, ULONG_MAX)
  {
  }

  /**
   * Waiting for AUX HIGH (`auxReady`, and the AUX branch of the E34
   * `waitCompleteResponse`): the start time is clock reading `p`; the i-th
   * AUX reading `aux(a0 + i)` is followed, when LOW, by clock reading
   * `p + 1 + i`. The wait made `n` AUX readings and ended with `st`:
   * success on a HIGH reading, timeout on a LOW reading whose following
   * clock reading had the deadline expired.
   */
  ghost predicate AuxOutcome(aux: nat -> bool, clock: nat -> uint32, strict: bool,
                             a0: nat, p: nat, timeout: uint32, n: nat, st: Status)
  {
    1 <= n && WaitedLow(aux, clock, strict, a0, p, timeout, n - 1) &&
    ((st == Success && aux(a0 + n - 1)) ||
     (st == ErrTimeout && !aux(a0 + n - 1) && Expired(strict, clock(p + n), clock(p), timeout)))
  }

  /** The i-th AUX reading was LOW and the clock reading after it had not expired. */
  ghost predicate StillWaiting(aux: nat -> bool, clock: nat -> uint32, strict: bool,
                               a0: nat, p: nat, timeout: uint32, i: nat)
  {
    !aux(a0 + i) && !Expired(strict, clock(p + 1 + i), clock(p), timeout)
  }

  /** The first `n` AUX readings were all LOW, each followed by an unexpired clock reading. */
  ghost predicate WaitedLow(aux: nat -> bool, clock: nat -> uint32, strict: bool,
                            a0: nat, p: nat, timeout: uint32, n: nat)
  {
    forall i: nat :: i < n ==> StillWaiting(aux, clock, strict, a0, p, timeout, i)
  }

  /** The readings decide the outcome: how many AUX readings were made, and the status. */
  lemma {:induction false} AuxOutcomeUnique(aux: nat -> bool, clock: nat -> uint32, strict: bool,
                                            a0: nat, p: nat, timeout: uint32,
                                            n1: nat, st1: Status, n2: nat, st2: Status)
    requires AuxOutcome(aux, clock, strict, a0, p, timeout, n1, st1)
    requires AuxOutcome(aux, clock, strict, a0, p, timeout, n2, st2)
    ensures n1 == n2 && st1 == st2
  {
    assert n1 < n2 ==> StillWaiting(aux, clock, strict, a0, p, timeout, n1 - 1);
    assert n2 < n1 ==> StillWaiting(aux, clock, strict, a0, p, timeout, n2 - 1);
  }

  /** When AUX already reads HIGH, the wait succeeds on its first reading, at once. */
  lemma {:induction false} AuxHighAtOnce(aux: nat -> bool, clock: nat -> uint32, strict: bool,
                                         a0: nat, p: nat, timeout: uint32, n: nat, st: Status)
    requires aux(a0)
    requires AuxOutcome(aux, clock, strict, a0, p, timeout, n, st)
    ensures n == 1 && st == Success
  {
    assert AuxOutcome(aux, clock, strict, a0, p, timeout, 1, Success);
    AuxOutcomeUnique(aux, clock, strict, a0, p, timeout, n, st, 1, Success);
  }

  /**
   * What a caller of the AUX wait can see without the clock: all AUX readings
   * but the last were LOW, and the last was HIGH exactly on success.
   */
  ghost predicate AuxReadings(aux: nat -> bool, a0: nat, a1: nat, st: Status)
  {
    a0 < a1 && (st == Success || st == ErrTimeout) &&
    (forall i: nat :: a0 <= i < a1 - 1 ==> !aux(i)) &&
    (st == Success <==> aux(a1 - 1))
  }

  lemma {:induction false} AuxOutcomeReadings(aux: nat -> bool, clock: nat -> uint32, strict: bool,
                                              a0: nat, p: nat, timeout: uint32, n: nat, st: Status)
    requires AuxOutcome(aux, clock, strict, a0, p, timeout, n, st)
    ensures AuxReadings(aux, a0, a0 + n, st)
  {
    forall i: nat | a0 <= i < a0 + n - 1
      ensures !aux(i)
    {
      assert StillWaiting(aux, clock, strict, a0, p, timeout, i - a0);
    }
  }

  /**
   * One more LOW reading before the deadline: the wait goes on, and the
   * reading at which the deadline expires is still ahead.
   */
  lemma {:induction false} AuxWaitStep(aux: nat -> bool, clock: nat -> uint32, strict: bool,
                                       a0: nat, p: nat, timeout: uint32, n: nat, q: nat)
    requires 1 <= n && p + n <= q && Expired(strict, clock(q), clock(p), timeout)
    requires WaitedLow(aux, clock, strict, a0, p, timeout, n - 1)
    requires !aux(a0 + n - 1) && !Expired(strict, clock(p + n), clock(p), timeout)
    ensures p + n < q
    ensures WaitedLow(aux, clock, strict, a0, p, timeout, n)
  {
    assert StillWaiting(aux, clock, strict, a0, p, timeout, n - 1);
  }
}
