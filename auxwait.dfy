/**
 * The AUX polling loop both drivers share (`auxReady`, and the AUX branch of
 * the E34 `waitCompleteResponse`): read AUX until it is HIGH, and between
 * readings give up once the deadline has expired. The two drivers differ
 * only in the deadline test, `strict`.
 */
module AuxWait {
  import opened Types
  import opened Timing
  import opened Status
  import opened Waits
  import opened Hardware

  /**
   * Polls AUX on `hw`, the start time `tPrev` being clock reading `p`, the
   * reading just taken. Ends with success at the first HIGH reading, or
   * with a timeout at the first expired clock reading after a LOW one.
   */
  method PollAux(hw: Board, strict: bool, timeout: uint32, tPrev: uint32, ghost p: nat) returns (st: Status)
    requires hw.ClockLive() && hw.ticks == p + 1 && tPrev == hw.clockAt(p)
    requires strict ==> timeout < ULONG_MAX
    modifies hw`ticks, hw`auxReads
    ensures old(hw.auxReads) < hw.auxReads
    ensures AuxOutcome(hw.auxAt, hw.clockAt, strict, old(hw.auxReads), p, timeout,
                       hw.auxReads - old(hw.auxReads), st)
    ensures hw.ticks == p + (hw.auxReads - old(hw.auxReads)) + (if st == ErrTimeout then 1 else 0)
  {
    ghost var a0 := hw.auxReads;
    ghost var q := ExpiryReading(hw.clockAt, strict, p, timeout);
    var high := hw.DigitalRead();
    ghost var n: nat := 1;
    while !high
      invariant 1 <= n && hw.auxReads == a0 + n && hw.ticks == p + n && p + n <= q
      invariant high == hw.auxAt(a0 + n - 1)
      invariant WaitedLow(hw.auxAt, hw.clockAt, strict, a0, p, timeout, n - 1)
      decreases q - n
    {
      var t := hw.Millis();
      if Expired(strict, t, tPrev, timeout) {
        assert AuxOutcome(hw.auxAt, hw.clockAt, strict, a0, p, timeout, n, ErrTimeout);
        return ErrTimeout;
      }
      AuxWaitStep(hw.auxAt, hw.clockAt, strict, a0, p, timeout, n, q);
      high := hw.DigitalRead();
      n := n + 1;
    }
    assert AuxOutcome(hw.auxAt, hw.clockAt, strict, a0, p, timeout, n, Success);
    return Success;
  }
}
