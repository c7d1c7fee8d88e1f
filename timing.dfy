/**
 * The millisecond tick counter of the node is a 32-bit `unsigned long` that
 * wraps about every 50 days. The driver measures every wait with an elapsed
 * test that stays correct across the wrap.
 */
module Timing {
  import opened Types

  const TWO_POW_32: int := 0x1_0000_0000

  /** `(unsigned long)(0-1)`: the largest tick value. */
  const ULONG_MAX: uint32 := 0xFFFF_FFFF

  /** C subtraction and addition on `unsigned long` (32 bits): they wrap. */
  function Sub32(a: uint32, b: uint32): uint32
  {
    (a - b) % TWO_POW_32
  }

  function Add32(a: uint32, b: uint32): uint32
  {
    (a + b) % TWO_POW_32
  }

  /**
   * Reference definition: the number of milliseconds `d` in [0, 2^32) such
   * that counting `d` ticks up from `tPrev` lands on `t`.
   */
  function Elapsed(t: uint32, tPrev: uint32): (d: uint32)
    ensures (tPrev + d) % TWO_POW_32 == t
  {
    if t >= tPrev then t - tPrev else t + TWO_POW_32 - tPrev
  }

  /**
   * `is_timeout` of the current driver, written with the source's two branches
   * and C's wrapping operators: it holds exactly when at least `timeout`
   * milliseconds have elapsed modulo 2^32.
   */
  function IsTimeout(t: uint32, tPrev: uint32, timeout: uint32): (r: bool)
    ensures r <==> Elapsed(t, tPrev) >= timeout
  {
    (t >= tPrev && Sub32(t, tPrev) >= timeout) ||
    (t < tPrev && Add32(Sub32(ULONG_MAX, Sub32(tPrev, t)), 1) >= timeout)
  }

  /** The overflow branch computes exactly the wrapped difference, without wrapping itself. */
  lemma OverflowBranchIsElapsed(t: uint32, tPrev: uint32)
    requires t < tPrev
    ensures Sub32(tPrev, t) == tPrev - t
    ensures Sub32(ULONG_MAX, Sub32(tPrev, t)) == ULONG_MAX - (tPrev - t)
    ensures Add32(Sub32(ULONG_MAX, Sub32(tPrev, t)), 1) == Elapsed(t, tPrev)
  {
  }

  /**
   * The elapsed test of the older E34 driver: the same two branches, but with
   * a strict comparison, so a wait ends only after MORE than `timeout` ms.
   */
  function ElapsedExceeds(t: uint32, tPrev: uint32, timeout: uint32): (r: bool)
    ensures r <==> Elapsed(t, tPrev) > timeout
  {
    (t >= tPrev && Sub32(t, tPrev) > timeout) ||
    (t < tPrev && Add32(Sub32(ULONG_MAX, Sub32(tPrev, t)), 1) > timeout)
  }

  /** The strict test is the non-strict one shifted by one millisecond. */
  lemma ExceedsIsTimeoutPlusOne(t: uint32, tPrev: uint32, timeout: uint32)
    requires timeout < ULONG_MAX
    ensures ElapsedExceeds(t, tPrev, timeout) <==> IsTimeout(t, tPrev, timeout + 1)
  {
  }

  /** With no time elapsed, the strict test never fires. */
  lemma NoTimeNeverExceeds(t: uint32, timeout: uint32)
    ensures !ElapsedExceeds(t, t, timeout)
  {
  }

  // ---------------------------------------------------------------------
  // The clock as an environment: `clock(k)` is the value the k-th call of
  // millis() returns.
  // ---------------------------------------------------------------------

  /** Some reading after position `p` is at least `d` ms after reading `p`. */
  ghost predicate Reaches(clock: nat -> uint32, p: nat, d: uint32)
  {
    exists q: nat :: p < q && IsTimeout(clock(q), clock(p), d)
  }

  /** Liveness of the clock: every deadline is eventually reached. */
  ghost predicate Live(clock: nat -> uint32)
  {
    forall p: nat, d: uint32 :: Reaches(clock, p, d)
  }

  /** On a live clock the strict deadline of the E34 driver is also reached. */
  lemma LiveReachesStrict(clock: nat -> uint32, p: nat, d: uint32)
    requires Live(clock)
    requires d < ULONG_MAX
    ensures exists q: nat :: p < q && ElapsedExceeds(clock(q), clock(p), d)
  {
    assert Reaches(clock, p, d + 1);
    var q: nat :| p < q && IsTimeout(clock(q), clock(p), d + 1);
    ExceedsIsTimeoutPlusOne(clock(q), clock(p), d);
  }

  /** A counter that advances one millisecond per reading. */
  function CountingClock(k: nat): uint32
  {
    k % TWO_POW_32
  }

  lemma CountingClockElapsed(p: nat, d: uint32)
    ensures Elapsed(CountingClock(p + d), CountingClock(p)) == d
  {
    var a := CountingClock(p);
    var b := CountingClock(p + d);
    assert (a + Elapsed(b, a)) % TWO_POW_32 == b;
    assert (a + d) % TWO_POW_32 == b;
  }

  /** Liveness is satisfiable: the counting clock is live. */
  lemma CountingClockIsLive()
    ensures Live(CountingClock)
  {
    forall p: nat, d: uint32 ensures Reaches(CountingClock, p, d) {
      var q := p + (if d == 0 then 1 else d);
      if d != 0 {
        CountingClockElapsed(p, d);
      }
      assert IsTimeout(CountingClock(q), CountingClock(p), d);
    }
  }
}
