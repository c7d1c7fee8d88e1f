/**
 * The node the driver runs on, as an environment: the millisecond clock,
 * the AUX input, the output pins and the UART. What the world does is fixed
 * in advance by the `...At` oracles, indexed by how many times the driver
 * has asked; the driver's effects are the fields it changes.
 */
module Hardware {
  import opened Types
  import opened Timing

  /** Position of the first `x` in `s`, or `|s|` when there is none. */
  function IndexOf(s: seq<uint8>, x: uint8): (i: nat)
    ensures i <= |s| && x !in s[..i]
    ensures i < |s| ==> s[i] == x
  {
    if |s| == 0 then 0
    else if s[0] == x then 0
    else
      var j := IndexOf(s[1..], x);
      assert s[..j + 1] == [s[0]] + s[1..][..j];
      1 + j
  }

  class Board {
    /** `millis()`: the k-th reading is `clockAt(k)`; `ticks` readings have been taken. */
    const clockAt: nat -> uint32
    var ticks: nat

    /** `digitalRead(auxPin)`: the i-th reading is `auxAt(i)` (true = HIGH). */
    const auxAt: nat -> bool
    var auxReads: nat

    /** `digitalWrite`: the level last written to each pin. */
    var pins: map<int, bool>

    /**
     * UART output: `sent` logs every buffer handed to `write`, `tx` the bytes
     * the port accepted; the i-th write accepts at most `acceptAt(i)` bytes.
     */
    const acceptAt: nat -> nat
    var sent: seq<seq<uint8>>
    var tx: seq<uint8>

    /**
     * UART input: `rx` is the receive buffer; while the n-th blocking read
     * waits for its timeout, `arrivalAt(n)` arrives.
     */
    const arrivalAt: nat -> seq<uint8>
    var rx: seq<uint8>
    var readCount: nat

    ghost predicate ClockLive()
    {
      Live(clockAt)
    }

    constructor (clockAt: nat -> uint32, auxAt: nat -> bool, acceptAt: nat -> nat,
                 arrivalAt: nat -> seq<uint8>, pins: map<int, bool>, rx: seq<uint8>)
      requires Live(clockAt)
      ensures this.clockAt == clockAt && this.auxAt == auxAt
      ensures this.acceptAt == acceptAt && this.arrivalAt == arrivalAt
      ensures this.pins == pins && this.rx == rx
      ensures ticks == 0 && auxReads == 0 && readCount == 0 && sent == [] && tx == []
      ensures ClockLive()
    {
      this.clockAt := clockAt;
      this.auxAt := auxAt;
      this.acceptAt := acceptAt;
      this.arrivalAt := arrivalAt;
      this.pins := pins;
      this.rx := rx;
      ticks, auxReads, readCount := 0, 0, 0;
      sent, tx := [], [];
    }

    method Millis() returns (t: uint32)
      modifies this`ticks
      ensures t == clockAt(old(ticks)) && ticks == old(ticks) + 1
    {
      t := clockAt(ticks);
      ticks := ticks + 1;
    }

    method DigitalRead() returns (high: bool)
      modifies this`auxReads
      ensures high == auxAt(old(auxReads)) && auxReads == old(auxReads) + 1
    {
      high := auxAt(auxReads);
      auxReads := auxReads + 1;
    }

    method DigitalWrite(pin: int, high: bool)
      modifies this`pins
      ensures pins == old(pins)[pin := high]
    {
      pins := pins[pin := high];
    }

    /** The bytes the next write would accept out of `buf`. */
    function Accepted(buf: seq<uint8>): (n: nat)
      reads this`sent
      ensures n <= |buf|
    {
      Min(|buf|, acceptAt(|sent|))
    }

    /** `write(buf, size)`: returns how many bytes went out, never more than asked. */
    method Write(buf: seq<uint8>) returns (n: nat)
      modifies this`sent, this`tx
      ensures n == old(Accepted(buf)) && n <= |buf|
      ensures sent == old(sent) + [buf] && tx == old(tx) + buf[..n]
    {
      n := Accepted(buf);
      sent := sent + [buf];
      tx := tx + buf[..n];
    }

    function Available(): nat
      reads this`rx
    {
      |rx|
    }

    method Read() returns (b: uint8)
      requires |rx| > 0
      modifies this`rx
      ensures b == old(rx)[0] && rx == old(rx)[1..]
    {
      b := rx[0];
      rx := rx[1..];
    }

    /** Everything a blocking read can see: the buffer, then what arrives while it waits. */
    function Incoming(): seq<uint8>
      reads this`rx, this`readCount
    {
      rx + arrivalAt(readCount)
    }

    /** `readBytes(buf, n)`: the first bytes up to `n`, fewer when the wait times out. */
    method ReadBytes(n: nat) returns (data: seq<uint8>)
      modifies this`rx, this`readCount
      ensures |data| == Min(n, |old(Incoming())|)
      ensures data + rx == old(Incoming())
      ensures readCount == old(readCount) + 1
    {
      var avail := Incoming();
      var k := Min(n, |avail|);
      data := avail[..k];
      rx := avail[k..];
      readCount := readCount + 1;
    }

    /** `readString()`: everything until the read times out. */
    method ReadString() returns (s: seq<uint8>)
      modifies this`rx, this`readCount
      ensures s == old(Incoming()) && rx == []
      ensures readCount == old(readCount) + 1
    {
      s := Incoming();
      rx := [];
      readCount := readCount + 1;
    }

    /**
     * `readStringUntil(delim)`: the bytes before the first `delim`; the
     * delimiter is consumed and what follows stays buffered.
     */
    method ReadStringUntil(delim: uint8) returns (s: seq<uint8>)
      modifies this`rx, this`readCount
      ensures delim !in s
      ensures (s == old(Incoming()) && rx == []) || s + [delim] + rx == old(Incoming())
      ensures readCount == old(readCount) + 1
    {
      var avail := Incoming();
      var i := IndexOf(avail, delim);
      if i == |avail| {
        s, rx := avail, [];
        assert avail[..i] == avail;
      } else {
        s, rx := avail[..i], avail[i + 1..];
        assert avail == avail[..i] + [delim] + avail[i + 1..];
      }
      readCount := readCount + 1;
    }
  }
}
