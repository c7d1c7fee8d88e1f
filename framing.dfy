/**
 * How payloads become frames on the UART: the size limit of one frame, the
 * fixed-transmission header, the split of a long payload into frames, and
 * the classification of a short transfer.
 */
module Framing {
  import opened Types
  import opened Status

  /** Largest frame the module takes in one transmission (`EBYTE_MODULE_BUFFER_SIZE`). */
  const MODULE_BUFFER_SIZE: nat := 250

  /** Settle wait after a mode change or a command (`EBYTE_EXTRA_WAIT`), ms. */
  const EXTRA_WAIT: uint32 := 40
  /** Wait used instead of the AUX handshake when no AUX pin is wired, ms. */
  const NO_AUX_WAIT: uint32 := 100
  /** Default time allowed for the AUX handshake, ms. */
  const RESPONSE_TMO: uint32 := 1000

  /** Address byte that makes a fixed-transmission frame a broadcast. */
  const BROADCAST_ADDR: uint8 := 0xFF

  // ---------------------------------------------------------------------
  // Fixed-transmission frames: ADDH, ADDL, CHAN, then the payload
  // ---------------------------------------------------------------------

  const FIXED_HEADER_SIZE: nat := 3

  function FixedFrame(addh: uint8, addl: uint8, chan: uint8, payload: seq<uint8>): (frame: seq<uint8>)
    ensures |frame| == FIXED_HEADER_SIZE + |payload|
    ensures frame[0] == addh && frame[1] == addl && frame[2] == chan
    ensures frame[FIXED_HEADER_SIZE..] == payload
  {
    [addh, addl, chan] + payload
  }

  datatype Header = Header(addh: uint8, addl: uint8, chan: uint8)

  /** What the receiving side of a fixed transmission reads back. */
  function ParseFixedFrame(frame: seq<uint8>): Option<(Header, seq<uint8>)>
  {
    if |frame| < FIXED_HEADER_SIZE then None
    else Some((Header(frame[0], frame[1], frame[2]), frame[FIXED_HEADER_SIZE..]))
  }

  lemma FixedFrameRoundTrip(addh: uint8, addl: uint8, chan: uint8, payload: seq<uint8>)
    ensures ParseFixedFrame(FixedFrame(addh, addl, chan, payload)) == Some((Header(addh, addl, chan), payload))
  {
  }

  /** A frame is at most one transmission only when its payload is 247 bytes or fewer. */
  lemma FixedFrameFits(payload: seq<uint8>, addh: uint8, addl: uint8, chan: uint8)
    ensures |FixedFrame(addh, addl, chan, payload)| <= MODULE_BUFFER_SIZE <==> |payload| <= MODULE_BUFFER_SIZE - FIXED_HEADER_SIZE
  {
  }

  function BroadcastFrame(chan: uint8, payload: seq<uint8>): (frame: seq<uint8>)
    ensures frame == FixedFrame(BROADCAST_ADDR, BROADCAST_ADDR, chan, payload)
    ensures frame[0] == 0xFF && frame[1] == 0xFF
  {
    FixedFrame(BROADCAST_ADDR, BROADCAST_ADDR, chan, payload)
  }

  // ---------------------------------------------------------------------
  // Short transfers
  // ---------------------------------------------------------------------

  /**
   * The verdict on a transfer of `moved` bytes out of `requested`: none when
   * everything moved (the caller goes on to the handshake), no response when
   * nothing moved, size mismatch otherwise.
   */
  function ShortTransfer(requested: nat, moved: nat): (r: Option<Status>)
    ensures r == None <==> moved == requested
    ensures r == Some(ErrNoResponseFromDevice) <==> moved != requested && moved == 0
    ensures r == Some(ErrDataSizeNotMatch) <==> moved != requested && moved != 0
  {
    if moved == requested then None
    else if moved == 0 then Some(ErrNoResponseFromDevice)
    else Some(ErrDataSizeNotMatch)
  }

  // ---------------------------------------------------------------------
  // Program-mode sessions
  // ---------------------------------------------------------------------

  /**
   * The steps of a program-mode session as a caller can reconstruct them:
   * the status of entering mode 3, of the session's own transfer or
   * handshake, and of restoring the previous mode, with the number of AUX
   * readings taken when the second and the third step began.
   */
  datatype SessionSteps = SessionSteps(enter: Status, step: Status, restore: Status,
                                       stepFrom: nat, restoreFrom: nat)

  // ---------------------------------------------------------------------
  // Splitting a payload into frames (`fragmentMessageQueueTx`)
  // ---------------------------------------------------------------------

  /** The frames of `m`: consecutive slices of MODULE_BUFFER_SIZE bytes, the last one shorter. */
  function Fragments(m: seq<uint8>): seq<seq<uint8>>
    decreases |m|
  {
    if |m| == 0 then []
    else
      var len := Min(|m|, MODULE_BUFFER_SIZE);
      [m[..len]] + Fragments(m[len..])
  }

  function Concat(chunks: seq<seq<uint8>>): seq<uint8>
  {
    if |chunks| == 0 then [] else chunks[0] + Concat(chunks[1..])
  }

  /** Number of frames: the payload size divided by 250, rounded up. */
  function FrameCount(size: nat): nat
  {
    (size + MODULE_BUFFER_SIZE - 1) / MODULE_BUFFER_SIZE
  }

  /** Joining the frames in order gives back the payload. */
  lemma {:induction false} FragmentsConcat(m: seq<uint8>)
    ensures Concat(Fragments(m)) == m
    decreases |m|
  {
    if |m| > 0 {
      var len := Min(|m|, MODULE_BUFFER_SIZE);
      FragmentsConcat(m[len..]);
      assert m == m[..len] + m[len..];
    }
  }

  /**
   * There are ceil(|m| / 250) frames; frame k is the slice starting at
   * 250 * k, so every frame but the last is full and none is empty.
   */
  lemma {:induction false} FragmentsShape(m: seq<uint8>)
    ensures |Fragments(m)| == FrameCount(|m|)
    ensures forall k :: 0 <= k < |Fragments(m)| ==>
      MODULE_BUFFER_SIZE * k < |m| &&
      Fragments(m)[k] == m[MODULE_BUFFER_SIZE * k .. Min(|m|, MODULE_BUFFER_SIZE * k + MODULE_BUFFER_SIZE)]
    decreases |m|
  {
    if |m| > 0 {
      var len := Min(|m|, MODULE_BUFFER_SIZE);
      var rest := m[len..];
      FragmentsShape(rest);
      var f := Fragments(m);
      assert f == [m[..len]] + Fragments(rest);
      if |m| <= MODULE_BUFFER_SIZE {
        assert rest == [];
      } else {
        forall k | 1 <= k < |f|
          ensures MODULE_BUFFER_SIZE * k < |m|
          ensures f[k] == m[MODULE_BUFFER_SIZE * k .. Min(|m|, MODULE_BUFFER_SIZE * k + MODULE_BUFFER_SIZE)]
        {
          var j := k - 1;
          assert f[k] == Fragments(rest)[j];
          assert MODULE_BUFFER_SIZE * k == MODULE_BUFFER_SIZE * j + MODULE_BUFFER_SIZE;
        }
      }
    }
  }

  /** Frame k exists exactly when 250 * k bytes do not yet cover the payload. */
  lemma {:induction false} FrameCountStep(size: nat, k: nat)
    ensures MODULE_BUFFER_SIZE * k < size <==> k < FrameCount(size)
  {
    var q := FrameCount(size);
    var r := (size + MODULE_BUFFER_SIZE - 1) % MODULE_BUFFER_SIZE;
    assert size + MODULE_BUFFER_SIZE - 1 == MODULE_BUFFER_SIZE * q + r;
  }

  /**
   * The step `fragmentMessageQueueTx` takes: when 250 * k bytes do not cover
   * the payload, frame k is the next slice of up to 250 bytes, and another
   * frame follows exactly when bytes remain after it.
   */
  lemma {:induction false} FragmentAt(m: seq<uint8>, k: nat)
    requires MODULE_BUFFER_SIZE * k < |m|
    ensures k < |Fragments(m)|
    ensures Fragments(m)[k] == m[MODULE_BUFFER_SIZE * k .. Min(|m|, MODULE_BUFFER_SIZE * k + MODULE_BUFFER_SIZE)]
    ensures MODULE_BUFFER_SIZE * k + MODULE_BUFFER_SIZE < |m| <==> k + 1 < |Fragments(m)|
  {
    FragmentsShape(m);
    FrameCountStep(|m|, k);
    FrameCountStep(|m|, k + 1);
  }

  /** Every frame holds between 1 and 250 bytes. */
  lemma {:induction false} FragmentsBounded(m: seq<uint8>)
    ensures forall k :: 0 <= k < |Fragments(m)| ==> 1 <= |Fragments(m)[k]| <= MODULE_BUFFER_SIZE
  {
    FragmentsShape(m);
  }

  /** Every chunk of a transmit queue is one frame: between 1 and 250 bytes. */
  ghost predicate FramesBounded(items: seq<seq<uint8>>)
  {
    forall k :: 0 <= k < |items| ==> 1 <= |items[k]| <= MODULE_BUFFER_SIZE
  }

  /** Queueing some of a payload's frames, in order, keeps every chunk a frame. */
  lemma {:induction false} QueuedFramesBounded(items: seq<seq<uint8>>, m: seq<uint8>, n: nat)
    requires FramesBounded(items) && n <= |Fragments(m)|
    ensures FramesBounded(items + Fragments(m)[..n])
  {
    FragmentsBounded(m);
    var r := items + Fragments(m)[..n];
    forall j | 0 <= j < |r|
      ensures 1 <= |r[j]| <= MODULE_BUFFER_SIZE
    {
      if j >= |items| {
        assert r[j] == Fragments(m)[j - |items|];
      }
    }
  }

  /** An empty payload has no frames; one of at most 250 bytes is a single frame. */
  lemma FragmentsSmall(m: seq<uint8>)
    requires |m| <= MODULE_BUFFER_SIZE
    ensures Fragments(m) == if |m| == 0 then [] else [m]
  {
    if |m| > 0 {
      assert m[..|m|] == m;
      assert Fragments(m[|m|..]) == [];
    }
  }

  // ---------------------------------------------------------------------
  // C strings
  // ---------------------------------------------------------------------

  /** The text a NUL-terminated buffer holds: the bytes before the first 0. */
  function CString(buf: seq<uint8>): (s: seq<uint8>)
    ensures 0 !in s
    ensures s == buf || (s + [0] <= buf)
  {
    if |buf| == 0 then []
    else if buf[0] == 0 then []
    else [buf[0]] + CString(buf[1..])
  }
}
