/**
 * The current, generic driver (`EbyteModule`): mode selection with the AUX
 * handshake, the program-mode sessions that read and write the module's
 * configuration, struct and message transfer, and the outbound queue that
 * splits long payloads into frames.
 */
module Driver {
  import opened Types
  import opened Timing
  import opened Status
  import opened Waits
  import opened Codec
  import opened Framing
  import opened Modes
  import opened Hardware
  import opened AuxWait
  import Q = Queue

  /** `int8_t` pin fields store a `byte` argument: 255 becomes -1, "not wired". */
  function PinOf(b: uint8): (p: int)
    ensures -128 <= p <= 127
    ensures p == -1 <==> b == 255
    ensures 0 <= b < 128 ==> p == b
  {
    if b >= 128 then b - 256 else b
  }

  const NOT_WIRED: int := -1

  class EbyteModule {
    const hw: Board
    const queueTx: Q.Queue
    const auxPin: int
    const mPins: seq<uint8>
    const rxPin: int
    const txPin: int
    var bpsRate: uint32
    var mode: int

    /**
     * The clock keeps running, both mode pins exist, the committed mode is a
     * pin mode, and every queued chunk is one frame of 1..250 bytes.
     */
    ghost predicate Valid()
      reads this`mode, queueTx`items
    {
      hw.ClockLive() && |mPins| >= 2 && IsPinMode(mode) && FramesBounded(queueTx.items)
    }

    constructor (hw: Board, auxPin: uint8, mPins: seq<uint8>, allocOk: nat -> bool,
                 rxPin: uint8 := 255, txPin: uint8 := 255)
      requires hw.ClockLive() && |mPins| >= 2
      ensures Valid() && fresh(queueTx) && queueTx.items == []
      ensures this.hw == hw && this.mPins == mPins && queueTx.allocOk == allocOk
      ensures this.auxPin == PinOf(auxPin) && this.rxPin == PinOf(rxPin) && this.txPin == PinOf(txPin)
      ensures bpsRate == CONFIG_BAUD && mode == MODE_0_FIXED as int
    {
      this.hw := hw;
      this.auxPin := PinOf(auxPin);
      this.mPins := mPins;
      this.rxPin := PinOf(rxPin);
      this.txPin := PinOf(txPin);
      bpsRate := CONFIG_BAUD;
      mode := MODE_0_FIXED as int;
      queueTx := new Q.Queue(allocOk);
    }

    // -------------------------------------------------------------------
    // Mode pins
    // -------------------------------------------------------------------

    /** The pin map after this driver's `setMode(code)`. */
    function ModePins(p: map<int, bool>, code: int): map<int, bool>
      requires |mPins| >= 2 && IsPinMode(code)
    {
      DrivePins(p, mPins[0] as int, mPins[1] as int, code)
    }

    // -------------------------------------------------------------------
    // Waiting
    // -------------------------------------------------------------------

    /** `managedDelay`: polls the clock until `timeout` ms have elapsed since the first reading. */
    method ManagedDelay(timeout: uint32)
      requires hw.ClockLive()
      modifies hw`ticks
      ensures old(hw.ticks) < hw.ticks
      ensures DelayEnds(hw.clockAt, false, old(hw.ticks), hw.ticks - 1, timeout)
    {
      ghost var p := hw.ticks;
      var tPrev := hw.Millis();
      ghost var q := ExpiryReading(hw.clockAt, false, p, timeout);
      while true
        invariant p < hw.ticks <= q
        invariant forall k: nat :: p < k < hw.ticks ==> !Expired(false, hw.clockAt(k), tPrev, timeout)
        decreases q - hw.ticks
      {
        var t := hw.Millis();
        if IsTimeout(t, tPrev, timeout) {
          break;
        }
      }
    }

    /**
     * `auxReady`: without an AUX pin, not implemented; otherwise polls AUX
     * until it reads HIGH, giving up once `timeout` ms have elapsed.
     */
    method AuxReady(timeout: uint32) returns (st: Status)
      requires hw.ClockLive()
      modifies hw`ticks, hw`auxReads
      ensures old(hw.auxReads) <= hw.auxReads
      ensures auxPin == NOT_WIRED ==>
        st == ErrNotImplement && hw.auxReads == old(hw.auxReads) && hw.ticks == old(hw.ticks) + 1
      ensures auxPin != NOT_WIRED ==>
        AuxOutcome(hw.auxAt, hw.clockAt, false, old(hw.auxReads), old(hw.ticks), timeout,
                   hw.auxReads - old(hw.auxReads), st) &&
        hw.ticks == old(hw.ticks) + (hw.auxReads - old(hw.auxReads)) + (if st == ErrTimeout then 1 else 0)
    {
      ghost var p := hw.ticks;
      var tPrev := hw.Millis();
      if auxPin == NOT_WIRED {
        return ErrNotImplement;
      }
      st := PollAux(hw, false, timeout, tPrev, p);
    }

    /**
     * What a caller observes of the handshake: without an AUX pin, not
     * implemented and no reading; otherwise AUX readings that were LOW
     * until the last, which was HIGH exactly on success.
     * `a0` is the count of AUX readings before the handshake, `a1` after it.
     */
    ghost predicate HandshakeSpan(a0: nat, a1: nat, st: Status)
    {
      if auxPin == NOT_WIRED then st == ErrNotImplement && a1 == a0
      else AuxReadings(hw.auxAt, a0, a1, st)
    }

    /**
     * A struct transfer of `size` bytes that moved `moved` and took the AUX
     * readings from `a0` up to `a1`: a short one fails as classified without
     * reading AUX, a complete one ends with the handshake.
     */
    ghost predicate TransferSpan(a0: nat, a1: nat, size: nat, moved: nat, st: Status)
    {
      match ShortTransfer(size, moved)
      case Some(e) => st == e && a1 == a0
      case None => HandshakeSpan(a0, a1, st)
    }

    /**
     * `waitCompleteResponse`: the AUX handshake, with a plain wait instead
     * when there is no AUX pin, then the settle time; the status is the
     * handshake's, unchanged.
     */
    method WaitCompleteResponse(timeout: uint32 := RESPONSE_TMO, waitNoAux: uint32 := NO_AUX_WAIT)
      returns (st: Status)
      requires hw.ClockLive()
      modifies hw`ticks, hw`auxReads
      ensures old(hw.ticks) < hw.ticks
      ensures st == Success || st == ErrTimeout || st == ErrNotImplement
      ensures HandshakeSpan(old(hw.auxReads), hw.auxReads, st)
    {
      ghost var p, a0 := hw.ticks, hw.auxReads;
      st := AuxReady(timeout);
      if auxPin != NOT_WIRED {
        AuxOutcomeReadings(hw.auxAt, hw.clockAt, false, a0, p, timeout, hw.auxReads - a0, st);
      }
      if st == ErrNotImplement {
        ManagedDelay(waitNoAux);
      }
      ManagedDelay(EXTRA_WAIT);
    }

    /** `cleanUARTBuffer`: reads and drops bytes while any are buffered. */
    method CleanUARTBuffer()
      modifies hw`rx
      ensures hw.rx == []
    {
      while hw.Available() > 0
        decreases |hw.rx|
      {
        var dropped := hw.Read();
      }
    }

    // -------------------------------------------------------------------
    // Mode selection
    // -------------------------------------------------------------------

    /**
     * `setMode`: rejects codes other than 0..3 before touching anything but
     * the clock; otherwise drives the mode pins, waits for the handshake,
     * commits the code only on success, and empties the receive buffer
     * whatever the outcome.
     */
    method SetMode(code: int) returns (st: Status)
      requires Valid()
      modifies this`mode, hw`ticks, hw`auxReads, hw`pins, hw`rx
      ensures Valid()
      ensures hw.sent == old(hw.sent) && hw.tx == old(hw.tx) && hw.readCount == old(hw.readCount)
      ensures !IsPinMode(code) ==>
        st == ErrInvalidParam && mode == old(mode) && hw.pins == old(hw.pins) &&
        hw.rx == old(hw.rx) && hw.auxReads == old(hw.auxReads)
      ensures IsPinMode(code) ==> st == Success || st == ErrTimeout || st == ErrNotImplement
      ensures IsPinMode(code) ==>
        hw.pins == ModePins(old(hw.pins), code) && hw.rx == [] &&
        HandshakeSpan(old(hw.auxReads), hw.auxReads, st) && mode == (if st == Success then code else old(mode))
    {
      ManagedDelay(EXTRA_WAIT);
      if !IsPinMode(code) {
        return ErrInvalidParam;
      }
      // The source's switch: M0 carries bit 0 of the code, M1 bit 1.
      var levels := PinLevels(code);
      hw.DigitalWrite(mPins[0] as int, levels.0);
      hw.DigitalWrite(mPins[1] as int, levels.1);
      ManagedDelay(EXTRA_WAIT);
      st := WaitCompleteResponse();
      if st == Success {
        mode := code;
      }
      CleanUARTBuffer();
    }

    /** `getMode`: the last committed mode, always one of the pin modes. */
    function GetMode(): (m: int)
      requires Valid()
      reads this`mode, queueTx`items
      ensures IsPinMode(m)
    {
      mode
    }

    /** `begin`: enters the normal mode; true only when that handshake succeeded. */
    method Begin() returns (ok: bool)
      requires Valid()
      modifies this`mode, hw`ticks, hw`auxReads, hw`pins, hw`rx
      ensures Valid()
      ensures ok <==> mode == MODE_0_FIXED as int && HandshakeSpan(old(hw.auxReads), hw.auxReads, Success)
      ensures hw.pins == ModePins(old(hw.pins), MODE_0_FIXED as int) && hw.rx == []
      ensures auxPin == NOT_WIRED ==> !ok
    {
      var st := SetMode(MODE_0_FIXED as int);
      ok := st == Success;
    }

    // -------------------------------------------------------------------
    // Program-mode sessions
    // -------------------------------------------------------------------

    /** `checkUARTConfiguration`: program mode needs the UART at 9600 bps. */
    function CheckUARTConfiguration(m: int): (st: Status)
      reads this`bpsRate
      ensures st == Success || st == ErrWrongUartConfig
      ensures st == ErrWrongUartConfig <==> m == MODE_3_PROGRAM as int && bpsRate != CONFIG_BAUD
    {
      if m == MODE_3_PROGRAM as int && bpsRate != CONFIG_BAUD then ErrWrongUartConfig else Success
    }

    /** `writeProgramCommand`: the command byte three times, then the settle time. */
    method WriteProgramCommand(cmd: uint8)
      requires hw.ClockLive()
      modifies hw`sent, hw`tx, hw`ticks
      ensures hw.sent == old(hw.sent) + [CommandFrame(cmd)]
      ensures hw.tx == old(hw.tx) + CommandFrame(cmd)[..old(hw.Accepted(CommandFrame(cmd)))]
    {
      var written := hw.Write(CommandFrame(cmd));
      ManagedDelay(EXTRA_WAIT);
    }

    /** The opening every program-mode session shares: the 9600-bps check, then mode 3. */
    method EnterProgramMode() returns (st: Status)
      requires Valid()
      modifies this`mode, hw`ticks, hw`auxReads, hw`pins, hw`rx
      ensures Valid()
      ensures hw.sent == old(hw.sent) && hw.tx == old(hw.tx) && hw.readCount == old(hw.readCount)
      ensures st == ErrWrongUartConfig <==> bpsRate != CONFIG_BAUD
      ensures bpsRate != CONFIG_BAUD ==> unchanged(hw)
      ensures bpsRate == CONFIG_BAUD ==>
        hw.pins == ModePins(old(hw.pins), MODE_3_PROGRAM as int) && hw.rx == [] &&
        (st == Success || st == ErrTimeout || st == ErrNotImplement) && HandshakeSpan(old(hw.auxReads), hw.auxReads, st)
      ensures mode == if st == Success then MODE_3_PROGRAM as int else old(mode)
    {
      st := CheckUARTConfiguration(MODE_3_PROGRAM as int);
      if st == Success {
        st := SetMode(MODE_3_PROGRAM as int);
      }
    }

    /** The closing every program-mode session shares: back to the mode it started in. */
    method RestoreMode(prevMode: int, ghost p0: map<int, bool>) returns (st: Status)
      requires Valid() && IsPinMode(prevMode) && hw.pins == ModePins(p0, MODE_3_PROGRAM as int)
      modifies this`mode, hw`ticks, hw`auxReads, hw`pins, hw`rx
      ensures Valid()
      ensures hw.sent == old(hw.sent) && hw.tx == old(hw.tx) && hw.readCount == old(hw.readCount)
      ensures hw.pins == ModePins(p0, prevMode) && hw.rx == []
      ensures st == Success || st == ErrTimeout || st == ErrNotImplement
      ensures HandshakeSpan(old(hw.auxReads), hw.auxReads, st)
      ensures mode == if st == Success then prevMode else old(mode)
    {
      st := SetMode(prevMode);
      DrivePinsOverwrite(p0, mPins[0] as int, mPins[1] as int, MODE_3_PROGRAM as int, prevMode);
    }

    /** A session that got past mode 3 left the pins as they were and the mode as it was, or in mode 3. */
    ghost predicate Restored(p0: map<int, bool>, m0: int)
      requires |mPins| >= 2 && IsPinMode(m0)
      reads this`mode, hw`pins
    {
      hw.pins == ModePins(p0, m0) && (mode == m0 || mode == MODE_3_PROGRAM as int)
    }

    /**
     * `getConfiguration`: with the UART at 9600, enters program mode, sends
     * C1 C1 C1, reads the 6-byte record, restores the previous mode and
     * only then checks that the record is tagged C0 or C2.
     */
    method GetConfiguration() returns (data: seq<uint8>, st: Status, ghost steps: SessionSteps)
      requires Valid()
      modifies this`mode, hw`ticks, hw`auxReads, hw`pins, hw`rx, hw`sent, hw`tx, hw`readCount
      ensures Valid()
      ensures st == ErrWrongUartConfig <==> bpsRate != CONFIG_BAUD
      ensures bpsRate != CONFIG_BAUD ==> unchanged(hw) && mode == old(mode)
      ensures bpsRate == CONFIG_BAUD && hw.sent == old(hw.sent) ==>
        (st == ErrTimeout || st == ErrNotImplement) && mode == old(mode) &&
        hw.pins == ModePins(old(hw.pins), MODE_3_PROGRAM as int)
      ensures hw.sent != old(hw.sent) ==>
        hw.sent == old(hw.sent) + [CommandFrame(READ_CONFIGURATION)] && Restored(old(hw.pins), old(mode))
      ensures st == Success || st == ErrHeadNotRecognized ==>
        hw.sent != old(hw.sent) && mode == old(mode) &&
        |data| == CONFIGURATION_SIZE && data <= hw.arrivalAt(old(hw.readCount)) &&
        (st == Success <==> IsSaveHead(data[0]))
      ensures auxPin == NOT_WIRED ==> st != Success && hw.sent == old(hw.sent)
      ensures bpsRate == CONFIG_BAUD ==> HandshakeSpan(old(hw.auxReads), steps.stepFrom, steps.enter)
      ensures bpsRate == CONFIG_BAUD && steps.enter == Success ==>
        |data| == Min(CONFIGURATION_SIZE, |hw.arrivalAt(old(hw.readCount))|) &&
        TransferSpan(steps.stepFrom, steps.restoreFrom, CONFIGURATION_SIZE, |data|, steps.step) &&
        HandshakeSpan(steps.restoreFrom, hw.auxReads, steps.restore)
      ensures bpsRate == CONFIG_BAUD ==>
        st == AndThen(steps.enter, AndThen(steps.step, AndThen(steps.restore,
                if |data| == CONFIGURATION_SIZE && IsSaveHead(data[0]) then Success else ErrHeadNotRecognized)))
    {
      data := [];
      var prevMode := mode;
      st := EnterProgramMode();
      steps := SessionSteps(st, st, st, hw.auxReads, hw.auxReads);
      if st != Success {
        return;
      }
      WriteProgramCommand(READ_CONFIGURATION);
      ghost var incoming := hw.Incoming();
      assert incoming == hw.arrivalAt(old(hw.readCount));
      data, st := ReceiveStruct(CONFIGURATION_SIZE);
      assert data == incoming[..|data|];
      assert TransferSpan(steps.stepFrom, hw.auxReads, CONFIGURATION_SIZE, |data|, st);
      steps := steps.(step := st, restoreFrom := hw.auxReads);
      // Whether or not the step failed, the previous mode is restored next;
      // a failed step's status is the one returned.
      var restored := RestoreMode(prevMode, old(hw.pins));
      steps := steps.(restore := restored);
      if st != Success {
        return;
      }
      st := restored;
      if st != Success {
        return;
      }
      if data[0] != WRITE_CFG_PWR_DWN_SAVE && data[0] != WRITE_CFG_PWR_DWN_LOSE {
        st := ErrHeadNotRecognized;
      }
    }

    /**
     * `setConfiguration`: like `getConfiguration`, but after the C1 triple
     * it sends the record with HEAD replaced by `saveType`; a `saveType`
     * other than C0 or C2 is reported only after the record was sent and
     * the mode restored.
     */
    method SetConfiguration(configuration: Configuration, saveType: uint8 := WRITE_CFG_PWR_DWN_LOSE)
      returns (st: Status, ghost steps: SessionSteps)
      requires Valid()
      modifies this`mode, hw`ticks, hw`auxReads, hw`pins, hw`rx, hw`sent, hw`tx
      ensures Valid()
      ensures st == ErrWrongUartConfig <==> bpsRate != CONFIG_BAUD
      ensures bpsRate != CONFIG_BAUD ==> unchanged(hw) && mode == old(mode)
      ensures bpsRate == CONFIG_BAUD && hw.sent == old(hw.sent) ==>
        (st == ErrTimeout || st == ErrNotImplement) && mode == old(mode) &&
        hw.pins == ModePins(old(hw.pins), MODE_3_PROGRAM as int)
      ensures hw.sent != old(hw.sent) ==>
        hw.sent == old(hw.sent) + [CommandFrame(READ_CONFIGURATION),
                                   EncodeConfiguration(configuration.(head := saveType))] &&
        Restored(old(hw.pins), old(mode))
      ensures st == Success || st == ErrHeadNotRecognized ==>
        hw.sent != old(hw.sent) && mode == old(mode) && (st == Success <==> IsSaveHead(saveType))
      ensures auxPin == NOT_WIRED ==> st != Success && hw.sent == old(hw.sent)
      ensures bpsRate == CONFIG_BAUD ==> HandshakeSpan(old(hw.auxReads), steps.stepFrom, steps.enter)
      ensures bpsRate == CONFIG_BAUD && steps.enter == Success ==>
        TransferSpan(steps.stepFrom, steps.restoreFrom, CONFIGURATION_SIZE,
                     Min(CONFIGURATION_SIZE, hw.acceptAt(|old(hw.sent)| + 1)), steps.step) &&
        HandshakeSpan(steps.restoreFrom, hw.auxReads, steps.restore)
      ensures bpsRate == CONFIG_BAUD ==>
        st == AndThen(steps.enter, AndThen(steps.step, AndThen(steps.restore,
                if IsSaveHead(saveType) then Success else ErrHeadNotRecognized)))
    {
      var prevMode := mode;
      st := EnterProgramMode();
      steps := SessionSteps(st, st, st, hw.auxReads, hw.auxReads);
      if st != Success {
        return;
      }
      WriteProgramCommand(READ_CONFIGURATION);
      var record := configuration.(head := saveType);
      ghost var moved := hw.Accepted(EncodeConfiguration(record));
      assert moved == Min(CONFIGURATION_SIZE, hw.acceptAt(|old(hw.sent)| + 1));
      st := SendStruct(EncodeConfiguration(record));
      assert TransferSpan(steps.stepFrom, hw.auxReads, CONFIGURATION_SIZE, moved, st);
      assert hw.sent == old(hw.sent) + [CommandFrame(READ_CONFIGURATION), EncodeConfiguration(record)];
      steps := steps.(step := st, restoreFrom := hw.auxReads);
      // Whether or not the step failed, the previous mode is restored next;
      // a failed step's status is the one returned.
      var restored := RestoreMode(prevMode, old(hw.pins));
      steps := steps.(restore := restored);
      if st != Success {
        return;
      }
      st := restored;
      if st != Success {
        return;
      }
      if record.head != WRITE_CFG_PWR_DWN_SAVE && record.head != WRITE_CFG_PWR_DWN_LOSE {
        st := ErrHeadNotRecognized;
      }
    }

    /**
     * `getModuleInformation`: the C3 triple, a 4-byte reply, the mode
     * restored, then the reply must start with C3.
     */
    method GetModuleInformation() returns (data: seq<uint8>, st: Status, ghost steps: SessionSteps)
      requires Valid()
      modifies this`mode, hw`ticks, hw`auxReads, hw`pins, hw`rx, hw`sent, hw`tx, hw`readCount
      ensures Valid()
      ensures st == ErrWrongUartConfig <==> bpsRate != CONFIG_BAUD
      ensures bpsRate != CONFIG_BAUD ==> unchanged(hw) && mode == old(mode)
      ensures bpsRate == CONFIG_BAUD && hw.sent == old(hw.sent) ==>
        (st == ErrTimeout || st == ErrNotImplement) && mode == old(mode) &&
        hw.pins == ModePins(old(hw.pins), MODE_3_PROGRAM as int)
      ensures hw.sent != old(hw.sent) ==>
        hw.sent == old(hw.sent) + [CommandFrame(READ_MODULE_VERSION)] && Restored(old(hw.pins), old(mode))
      ensures st == Success || st == ErrHeadNotRecognized ==>
        hw.sent != old(hw.sent) && mode == old(mode) &&
        |data| == MODULE_INFORMATION_SIZE && data <= hw.arrivalAt(old(hw.readCount)) &&
        (st == Success <==> data[0] == READ_MODULE_VERSION)
      ensures auxPin == NOT_WIRED ==> st != Success && hw.sent == old(hw.sent)
      ensures bpsRate == CONFIG_BAUD ==> HandshakeSpan(old(hw.auxReads), steps.stepFrom, steps.enter)
      ensures bpsRate == CONFIG_BAUD && steps.enter == Success ==>
        |data| == Min(MODULE_INFORMATION_SIZE, |hw.arrivalAt(old(hw.readCount))|) &&
        TransferSpan(steps.stepFrom, steps.restoreFrom, MODULE_INFORMATION_SIZE, |data|, steps.step) &&
        HandshakeSpan(steps.restoreFrom, hw.auxReads, steps.restore)
      ensures bpsRate == CONFIG_BAUD ==>
        st == AndThen(steps.enter, AndThen(steps.step, AndThen(steps.restore,
                if |data| == MODULE_INFORMATION_SIZE && data[0] == READ_MODULE_VERSION then Success
                else ErrHeadNotRecognized)))
    {
      data := [];
      var prevMode := mode;
      st := EnterProgramMode();
      steps := SessionSteps(st, st, st, hw.auxReads, hw.auxReads);
      if st != Success {
        return;
      }
      WriteProgramCommand(READ_MODULE_VERSION);
      ghost var incoming := hw.Incoming();
      assert incoming == hw.arrivalAt(old(hw.readCount));
      data, st := ReceiveStruct(MODULE_INFORMATION_SIZE);
      assert data == incoming[..|data|];
      assert TransferSpan(steps.stepFrom, hw.auxReads, MODULE_INFORMATION_SIZE, |data|, st);
      steps := steps.(step := st, restoreFrom := hw.auxReads);
      // Whether or not the step failed, the previous mode is restored next;
      // a failed step's status is the one returned.
      var restored := RestoreMode(prevMode, old(hw.pins));
      steps := steps.(restore := restored);
      if st != Success {
        return;
      }
      st := restored;
      if st != Success {
        return;
      }
      if data[0] != READ_MODULE_VERSION {
        st := ErrHeadNotRecognized;
      }
    }

    /** `resetModule`: the C4 triple, a handshake, then the mode restored. */
    method ResetModule() returns (st: Status, ghost steps: SessionSteps)
      requires Valid()
      modifies this`mode, hw`ticks, hw`auxReads, hw`pins, hw`rx, hw`sent, hw`tx
      ensures Valid()
      ensures st == ErrWrongUartConfig <==> bpsRate != CONFIG_BAUD
      ensures bpsRate != CONFIG_BAUD ==> unchanged(hw) && mode == old(mode)
      ensures bpsRate == CONFIG_BAUD && hw.sent == old(hw.sent) ==>
        (st == ErrTimeout || st == ErrNotImplement) && mode == old(mode) &&
        hw.pins == ModePins(old(hw.pins), MODE_3_PROGRAM as int)
      ensures hw.sent != old(hw.sent) ==>
        hw.sent == old(hw.sent) + [CommandFrame(WRITE_RESET_MODULE)] && Restored(old(hw.pins), old(mode))
      ensures st == Success ==> hw.sent != old(hw.sent) && mode == old(mode)
      ensures auxPin == NOT_WIRED ==> st != Success && hw.sent == old(hw.sent)
      ensures bpsRate == CONFIG_BAUD ==> HandshakeSpan(old(hw.auxReads), steps.stepFrom, steps.enter)
      ensures bpsRate == CONFIG_BAUD && steps.enter == Success ==>
        HandshakeSpan(steps.stepFrom, steps.restoreFrom, steps.step) &&
        HandshakeSpan(steps.restoreFrom, hw.auxReads, steps.restore)
      ensures bpsRate == CONFIG_BAUD ==> st == AndThen(steps.enter, AndThen(steps.step, steps.restore))
    {
      var prevMode := mode;
      st := EnterProgramMode();
      steps := SessionSteps(st, st, st, hw.auxReads, hw.auxReads);
      if st != Success {
        return;
      }
      WriteProgramCommand(WRITE_RESET_MODULE);
      st := WaitCompleteResponse();
      steps := steps.(step := st, restoreFrom := hw.auxReads);
      // Whether or not the step failed, the previous mode is restored next;
      // a failed step's status is the one returned.
      var restored := RestoreMode(prevMode, old(hw.pins));
      steps := steps.(restore := restored);
      if st != Success {
        return;
      }
      st := restored;
    }

    // -------------------------------------------------------------------
    // Struct and message transfer
    // -------------------------------------------------------------------

    /**
     * `sendStruct`: frames over 250 bytes are refused unsent; otherwise a
     * write that moved nothing is no response, a partial one a size
     * mismatch, and a full one ends with the handshake.
     */
    method SendStruct(data: seq<uint8>) returns (st: Status)
      requires hw.ClockLive()
      modifies hw`sent, hw`tx, hw`ticks, hw`auxReads
      ensures |data| > MODULE_BUFFER_SIZE ==>
        st == ErrPacketTooBig && hw.sent == old(hw.sent) && hw.tx == old(hw.tx) && hw.auxReads == old(hw.auxReads)
      ensures |data| <= MODULE_BUFFER_SIZE ==>
        hw.sent == old(hw.sent) + [data] && hw.tx == old(hw.tx) + data[..old(hw.Accepted(data))]
      ensures |data| <= MODULE_BUFFER_SIZE && ShortTransfer(|data|, old(hw.Accepted(data))).Some? ==>
        st == ShortTransfer(|data|, old(hw.Accepted(data))).value && hw.auxReads == old(hw.auxReads)
      ensures |data| <= MODULE_BUFFER_SIZE && ShortTransfer(|data|, old(hw.Accepted(data))) == None ==>
        HandshakeSpan(old(hw.auxReads), hw.auxReads, st)
    {
      if |data| > MODULE_BUFFER_SIZE {
        return ErrPacketTooBig;
      }
      var len := hw.Write(data);
      if len != |data| {
        return if len == 0 then ErrNoResponseFromDevice else ErrDataSizeNotMatch;
      }
      st := WaitCompleteResponse();
    }

    /**
     * `receiveStruct`: reads up to `size` bytes; a short read is classified
     * like a short write, a complete one ends with the handshake.
     */
    method ReceiveStruct(size: nat) returns (data: seq<uint8>, st: Status)
      requires hw.ClockLive()
      modifies hw`rx, hw`readCount, hw`ticks, hw`auxReads
      ensures |data| == Min(size, |old(hw.Incoming())|) && data + hw.rx == old(hw.Incoming())
      ensures hw.readCount == old(hw.readCount) + 1
      ensures ShortTransfer(size, |data|).Some? ==>
        st == ShortTransfer(size, |data|).value && hw.auxReads == old(hw.auxReads)
      ensures ShortTransfer(size, |data|) == None ==> HandshakeSpan(old(hw.auxReads), hw.auxReads, st)
    {
      data := hw.ReadBytes(size);
      if |data| != size {
        return data, if |data| == 0 then ErrNoResponseFromDevice else ErrDataSizeNotMatch;
      }
      st := WaitCompleteResponse();
    }

    /** `receiveMessage`: everything that arrives until the read times out. */
    method ReceiveMessage() returns (message: seq<uint8>, st: Status)
      modifies hw`rx, hw`readCount
      ensures st == Success && message == old(hw.Incoming()) && hw.rx == []
    {
      message := hw.ReadString();
      st := Success;
    }

    /** `receiveMessageFixedSize`: a struct read of `size` bytes. */
    method ReceiveMessageFixedSize(size: nat) returns (data: seq<uint8>, st: Status)
      requires hw.ClockLive()
      modifies hw`rx, hw`readCount, hw`ticks, hw`auxReads
      ensures |data| == Min(size, |old(hw.Incoming())|) && data + hw.rx == old(hw.Incoming())
      ensures st == Success ==> |data| == size
      ensures TransferSpan(old(hw.auxReads), hw.auxReads, size, |data|, st)
    {
      data, st := ReceiveStruct(size);
    }

    /** `receiveMessageUntil`: the text before the delimiter; the rest stays for the next call. */
    method ReceiveMessageUntil(delimiter: uint8 := 0) returns (message: seq<uint8>, st: Status)
      modifies hw`rx, hw`readCount
      ensures st == Success && delimiter !in message
      ensures (message == old(hw.Incoming()) && hw.rx == []) ||
              message + [delimiter] + hw.rx == old(hw.Incoming())
    {
      message := hw.ReadStringUntil(delimiter);
      st := Success;
    }

    /**
     * `receiveMessageString`: reads up to `size` bytes into a NUL-terminated
     * buffer; the text is what precedes the first NUL.
     */
    method ReceiveMessageString(size: nat) returns (message: seq<uint8>, st: Status)
      modifies hw`rx, hw`readCount
      ensures 0 !in message
      ensures exists data: seq<uint8> :: |data| == Min(size, |old(hw.Incoming())|) && data + hw.rx == old(hw.Incoming()) &&
                message == CString(data) &&
                st == (match ShortTransfer(size, |data|) case None => Success case Some(e) => e)
    {
      var data := hw.ReadBytes(size);
      message := CString(data);
      st := Success;
      if |data| != size {
        st := if |data| == 0 then ErrNoResponseFromDevice else ErrDataSizeNotMatch;
      }
    }

    /** `sendMessage`: a struct send of the message bytes. */
    method SendMessage(message: seq<uint8>) returns (st: Status)
      requires hw.ClockLive()
      modifies hw`sent, hw`tx, hw`ticks, hw`auxReads
      ensures |message| > MODULE_BUFFER_SIZE ==> st == ErrPacketTooBig && hw.sent == old(hw.sent)
      ensures |message| <= MODULE_BUFFER_SIZE ==> hw.sent == old(hw.sent) + [message]
      ensures st == Success ==> |message| <= MODULE_BUFFER_SIZE && hw.tx == old(hw.tx) + message
      ensures |message| <= MODULE_BUFFER_SIZE ==>
        hw.tx == old(hw.tx) + message[..old(hw.Accepted(message))] &&
        TransferSpan(old(hw.auxReads), hw.auxReads, |message|, old(hw.Accepted(message)), st)
    {
      st := SendStruct(message);
    }

    /** `sendFixedMessage`: the 3-byte address/channel header, then the payload, as one frame. */
    method SendFixedMessage(addh: uint8, addl: uint8, chan: uint8, message: seq<uint8>) returns (st: Status)
      requires hw.ClockLive()
      modifies hw`sent, hw`tx, hw`ticks, hw`auxReads
      ensures |message| > MODULE_BUFFER_SIZE - FIXED_HEADER_SIZE ==> st == ErrPacketTooBig && hw.sent == old(hw.sent)
      ensures |message| <= MODULE_BUFFER_SIZE - FIXED_HEADER_SIZE ==>
        hw.sent == old(hw.sent) + [FixedFrame(addh, addl, chan, message)]
      ensures st == Success ==> hw.tx == old(hw.tx) + FixedFrame(addh, addl, chan, message)
      ensures |message| <= MODULE_BUFFER_SIZE - FIXED_HEADER_SIZE ==>
        TransferSpan(old(hw.auxReads), hw.auxReads, FIXED_HEADER_SIZE + |message|,
                     old(hw.Accepted(FixedFrame(addh, addl, chan, message))), st)
    {
      FixedFrameFits(message, addh, addl, chan);
      st := SendMessage(FixedFrame(addh, addl, chan, message));
    }

    /** `sendBroadcastFixedMessage`: a fixed frame to address 0xFF 0xFF. */
    method SendBroadcastFixedMessage(chan: uint8, message: seq<uint8>) returns (st: Status)
      requires hw.ClockLive()
      modifies hw`sent, hw`tx, hw`ticks, hw`auxReads
      ensures |message| > MODULE_BUFFER_SIZE - FIXED_HEADER_SIZE ==> st == ErrPacketTooBig && hw.sent == old(hw.sent)
      ensures |message| <= MODULE_BUFFER_SIZE - FIXED_HEADER_SIZE ==>
        hw.sent == old(hw.sent) + [BroadcastFrame(chan, message)]
      ensures st == Success ==> hw.tx == old(hw.tx) + BroadcastFrame(chan, message)
      ensures |message| <= MODULE_BUFFER_SIZE - FIXED_HEADER_SIZE ==>
        TransferSpan(old(hw.auxReads), hw.auxReads, FIXED_HEADER_SIZE + |message|,
                     old(hw.Accepted(BroadcastFrame(chan, message))), st)
    {
      st := SendFixedMessage(BROADCAST_ADDR, BROADCAST_ADDR, chan, message);
    }

    // -------------------------------------------------------------------
    // Outbound queue
    // -------------------------------------------------------------------

    /** `lengthMessageQueueTx`: the number of frames waiting. */
    function LengthMessageQueueTx(): (n: nat)
      reads queueTx`items
      ensures n == 0 <==> queueTx.items == []
    {
      queueTx.Length()
    }

    /**
     * `fragmentMessageQueueTx`: queues the payload's frames in order; when
     * the queue cannot take one, stops with buf-too-small and keeps the
     * frames already queued.
     */
    method FragmentMessageQueueTx(message: seq<uint8>) returns (st: Status)
      requires Valid()
      modifies queueTx`items, queueTx`attempts
      ensures Valid()
      ensures st == Success || st == ErrBufTooSmall
      ensures |old(queueTx.items)| <= |queueTx.items| <= |old(queueTx.items)| + |Fragments(message)|
      ensures queueTx.items == old(queueTx.items) + Fragments(message)[..|queueTx.items| - |old(queueTx.items)|]
      ensures st == Success <==> |queueTx.items| == |old(queueTx.items)| + |Fragments(message)|
      ensures queueTx.attempts == old(queueTx.attempts) + (|queueTx.items| - |old(queueTx.items)|) +
                                  (if st == Success then 0 else 1)
      ensures st == ErrBufTooSmall ==> !queueTx.allocOk(queueTx.attempts - 1)
    {
      ghost var frames := Fragments(message);
      if |message| > 0 {
        FragmentAt(message, 0);
      }
      st := Success;
      var size := |message|;
      var p := 0;
      ghost var k := 0;
      while size > 0
        invariant st == Success
        invariant 0 <= k <= |frames| && 0 <= size && p + size == |message|
        invariant size > 0 ==> p == MODULE_BUFFER_SIZE * k && k < |frames|
        invariant size == 0 ==> k == |frames|
        invariant queueTx.items == old(queueTx.items) + frames[..k]
        invariant queueTx.attempts == old(queueTx.attempts) + k
        decreases size
      {
        var len := if size < MODULE_BUFFER_SIZE then size else MODULE_BUFFER_SIZE;
        size := size - len;
        FragmentAt(message, k);
        assert frames[k] == message[p..p + len];
        var ok := queueTx.Enqueue(message[p..p + len]);
        if !ok {
          st := ErrBufTooSmall;
          break;
        }
        p := p + len;
        k := k + 1;
        assert frames[..k] == frames[..k - 1] + [frames[k - 1]];
      }
      QueuedFramesBounded(old(queueTx.items), message, k);
    }

    /**
     * `processMessageQueueTx`: sends the oldest frame when AUX is ready
     * within 100 ms and removes it only once the send succeeded, returning
     * its length; any other case returns 0 and keeps the queue.
     */
    method ProcessMessageQueueTx() returns (sentLen: nat, ghost auxSt: Status, ghost sendSt: Status, ghost sendFrom: nat)
      requires Valid()
      modifies queueTx`items, hw`ticks, hw`auxReads, hw`sent, hw`tx
      ensures Valid()
      ensures old(queueTx.items) == [] ==> sentLen == 0 && unchanged(hw)
      ensures sentLen == 0 ==> queueTx.items == old(queueTx.items)
      ensures sentLen > 0 ==>
        old(queueTx.items) != [] && sentLen == |old(queueTx.items)[0]| &&
        queueTx.items == old(queueTx.items)[1..] &&
        hw.sent == old(hw.sent) + [old(queueTx.items)[0]] &&
        hw.tx == old(hw.tx) + old(queueTx.items)[0]
      ensures old(queueTx.items) != [] && sentLen == 0 ==>
        hw.sent == old(hw.sent) || hw.sent == old(hw.sent) + [old(queueTx.items)[0]]
      ensures auxPin == NOT_WIRED ==> sentLen == 0 && hw.sent == old(hw.sent)
      ensures old(queueTx.items) != [] && auxPin == NOT_WIRED ==> auxSt == ErrNotImplement
      ensures old(hw.auxReads) <= sendFrom
      ensures old(queueTx.items) != [] && auxPin != NOT_WIRED ==>
        AuxOutcome(hw.auxAt, hw.clockAt, false, old(hw.auxReads), old(hw.ticks), NO_AUX_WAIT,
                   sendFrom - old(hw.auxReads), auxSt)
      ensures old(queueTx.items) != [] && auxSt != Success ==>
        sentLen == 0 && hw.sent == old(hw.sent) && hw.auxReads == sendFrom
      ensures old(queueTx.items) != [] && auxSt == Success ==>
        hw.sent == old(hw.sent) + [old(queueTx.items)[0]] &&
        TransferSpan(sendFrom, hw.auxReads, |old(queueTx.items)[0]|,
                     Min(|old(queueTx.items)[0]|, hw.acceptAt(|old(hw.sent)|)), sendSt) &&
        (sentLen > 0 <==> sendSt == Success)
    {
      auxSt, sendSt, sendFrom := Success, Success, hw.auxReads;
      if LengthMessageQueueTx() > 0 {
        var st := AuxReady(NO_AUX_WAIT);
        auxSt, sendFrom := st, hw.auxReads;
        if st == Success {
          var head := queueTx.Item(0).value;
          var len := |head|;
          st := SendMessage(head);
          sendSt := st;
          if st == Success {
            queueTx.Dequeue();
            return len, auxSt, sendSt, sendFrom;
          }
        }
      }
      sentLen := 0;
    }

    /** `~EbyteModule`: dequeues until the queue is empty. */
    method Drain()
      modifies queueTx`items
      ensures queueTx.items == []
    {
      while LengthMessageQueueTx() > 0
        decreases |queueTx.items|
      {
        queueTx.Dequeue();
      }
    }
  }
}
