/**
 * The older E34 driver (`Ebyte_E34`). It shares the command set and the
 * session structure with the current driver, but differs in its details:
 * waits end only once MORE than the timeout has elapsed, a missing AUX pin
 * counts as success, the mode pins may be left unwired, `setMode` keeps the
 * receive buffer, and transfer lengths pass through 8-bit variables.
 */
module DriverE34 {
  import opened Types
  import opened Timing
  import opened Status
  import opened Waits
  import opened Codec
  import opened Framing
  import opened Modes
  import opened Hardware
  import opened AuxWait
  import Driver

  const NOT_WIRED: int := -1

  /** Time the E34 driver waits after writing a command triple, ms. */
  const COMMAND_WAIT: uint32 := 50
  /** Settle time after AUX goes HIGH, ms. */
  const AUX_SETTLE: uint32 := 2

  /** The 8-bit length the driver keeps of a transfer count (`uint8_t len`, `byte size`). */
  function Low8(n: nat): (b: uint8)
    ensures n < 256 ==> b == n
    ensures (n - b) % 256 == 0
  {
    n % 256
  }

  /** `sendMessage(String)` sends a 300-character text as 44 bytes: the length wraps at 256. */
  lemma StringLengthWraps()
    ensures Low8(300) == 44
  {
  }

  class EbyteE34 {
    const hw: Board
    const auxPin: int
    const m0Pin: int
    const m1Pin: int
    const rxPin: int
    const txPin: int
    /** `MAX_SIZE_TX_PACKET`, a build-time constant. */
    const maxSizeTxPacket: nat
    var bpsRate: uint32
    var mode: uint8

    /** Neither mode pin is wired: `setMode` leaves the pins alone. */
    predicate PinsUnwired()
    {
      m0Pin == NOT_WIRED && m1Pin == NOT_WIRED
    }

    /** The clock keeps running; with wired mode pins the committed mode is a pin mode. */
    ghost predicate Valid()
      reads this`mode
    {
      hw.ClockLive() && (!PinsUnwired() ==> IsPinMode(mode))
    }

    /**
     * The constructors of the source: each sets the serial port, the rate
     * and some of the pins; a pin it does not set stays -1, so it is passed
     * here as 255.
     */
    constructor (hw: Board, maxSizeTxPacket: nat, bpsRate: uint32,
                 auxPin: uint8 := 255, m0Pin: uint8 := 255, m1Pin: uint8 := 255,
                 txPin: uint8 := 255, rxPin: uint8 := 255)
      requires hw.ClockLive()
      ensures Valid()
      ensures this.hw == hw && this.maxSizeTxPacket == maxSizeTxPacket && this.bpsRate == bpsRate
      ensures this.auxPin == Driver.PinOf(auxPin) && this.m0Pin == Driver.PinOf(m0Pin) && this.m1Pin == Driver.PinOf(m1Pin)
      ensures this.txPin == Driver.PinOf(txPin) && this.rxPin == Driver.PinOf(rxPin)
      ensures mode == MODE_0_FIXED
    {
      this.hw := hw;
      this.maxSizeTxPacket := maxSizeTxPacket;
      this.bpsRate := bpsRate;
      this.auxPin := Driver.PinOf(auxPin);
      this.m0Pin := Driver.PinOf(m0Pin);
      this.m1Pin := Driver.PinOf(m1Pin);
      this.txPin := Driver.PinOf(txPin);
      this.rxPin := Driver.PinOf(rxPin);
      mode := MODE_0_FIXED;
    }

    /** The pin map after `setMode(code)`: unchanged when no mode pin is wired. */
    function ModePins(p: map<int, bool>, code: int): map<int, bool>
      requires PinsUnwired() || IsPinMode(code)
    {
      if PinsUnwired() then p else DrivePins(p, m0Pin, m1Pin, code)
    }

    // -------------------------------------------------------------------
    // Waiting
    // -------------------------------------------------------------------

    /**
     * `managedDelay` as the source has it: `t` is read once, before the
     * loop, and never again, so the elapsed time stays 0 and the loop never
     * exits. `fuel` bounds the iterations looked at; none of them exits.
     */
    method ManagedDelayAsWritten(timeout: uint32, fuel: nat) returns (exited: bool)
      modifies hw`ticks
      ensures !exited
      ensures hw.ticks == old(hw.ticks) + 1
    {
      var tPrev := hw.Millis();
      var t := tPrev;
      exited := false;
      var i := 0;
      while i < fuel
        invariant t == tPrev && !exited && hw.ticks == old(hw.ticks) + 1
      {
        NoTimeNeverExceeds(t, timeout);
        if ElapsedExceeds(t, tPrev, timeout) {
          exited := true;
          break;
        }
        i := i + 1;
      }
    }

    /**
     * `managedDelay` corrected: the clock is read again on every iteration,
     * and the wait ends at the first reading MORE than `timeout` ms after
     * the first one. A timeout of ULONG_MAX could never be exceeded.
     */
    method ManagedDelay(timeout: uint32)
      requires hw.ClockLive() && timeout < ULONG_MAX
      modifies hw`ticks
      ensures old(hw.ticks) < hw.ticks
      ensures DelayEnds(hw.clockAt, true, old(hw.ticks), hw.ticks - 1, timeout)
    {
      ghost var p := hw.ticks;
      var tPrev := hw.Millis();
      ghost var q := ExpiryReading(hw.clockAt, true, p, timeout);
      while true
        invariant p < hw.ticks <= q
        invariant forall k: nat :: p < k < hw.ticks ==> !Expired(true, hw.clockAt(k), tPrev, timeout)
        decreases q - hw.ticks
      {
        var t := hw.Millis();
        if ElapsedExceeds(t, tPrev, timeout) {
          break;
        }
      }
    }

    /**
     * What a caller observes of the E34 handshake: without an AUX pin,
     * success and no reading; otherwise AUX readings that were LOW until
     * the last, which was HIGH exactly on success.
     * `a0` is the count of AUX readings before the handshake, `a1` after it.
     */
    ghost predicate HandshakeSpan(a0: nat, a1: nat, st: Status)
    {
      if auxPin == NOT_WIRED then st == Success && a1 == a0
      else AuxReadings(hw.auxAt, a0, a1, st)
    }

    /**
     * A struct transfer of `size` bytes that moved `moved` and took the AUX
     * readings from `a0` up to `a1`: the count moved is kept in 8 bits; a
     * short one fails as classified without reading AUX, a complete one
     * ends with the handshake.
     */
    ghost predicate TransferSpan(a0: nat, a1: nat, size: nat, moved: nat, st: Status)
    {
      match ShortTransfer(size, Low8(moved))
      case Some(e) => st == e && a1 == a0
      case None => HandshakeSpan(a0, a1, st)
    }

    /**
     * How `sendStruct` ended: a frame over MAX_SIZE_TX_PACKET + 2 bytes is
     * refused without any AUX reading; any other is a transfer.
     */
    ghost predicate SendSpan(a0: nat, a1: nat, size: nat, moved: nat, st: Status)
    {
      if size > maxSizeTxPacket + 2 then st == ErrPacketTooBig && a1 == a0
      else TransferSpan(a0, a1, size, moved, st)
    }

    /**
     * `waitCompleteResponse`: with an AUX pin, waits for it to read HIGH and
     * gives up with a timeout (at once, without the settle time) once more
     * than `timeout` ms have elapsed; without one, waits `waitNoAux` ms and
     * reports success. Success is followed by the 2 ms settle time.
     */
    method WaitCompleteResponse(timeout: uint32 := 1000, waitNoAux: uint32 := 100) returns (st: Status)
      requires hw.ClockLive() && timeout < ULONG_MAX && waitNoAux < ULONG_MAX
      modifies hw`ticks, hw`auxReads
      ensures old(hw.auxReads) <= hw.auxReads
      ensures st == Success || st == ErrTimeout
      ensures auxPin == NOT_WIRED ==> st == Success && hw.auxReads == old(hw.auxReads)
      ensures auxPin != NOT_WIRED ==>
        AuxOutcome(hw.auxAt, hw.clockAt, true, old(hw.auxReads), old(hw.ticks), timeout,
                   hw.auxReads - old(hw.auxReads), st)
      ensures HandshakeSpan(old(hw.auxReads), hw.auxReads, st)
    {
      ghost var p := hw.ticks;
      st := Success;
      var tPrev := hw.Millis();
      if auxPin != NOT_WIRED {
        st := PollAux(hw, true, timeout, tPrev, p);
        AuxOutcomeReadings(hw.auxAt, hw.clockAt, true, old(hw.auxReads), p, timeout, hw.auxReads - old(hw.auxReads), st);
        if st == ErrTimeout {
          return;
        }
      } else {
        ManagedDelay(waitNoAux);
      }
      ManagedDelay(AUX_SETTLE);
    }

    /** `cleanUARTBuffer`: reads and drops bytes while any are buffered. */
    method CleanUARTBuffer()
      modifies hw`rx
      ensures hw.rx == []
    {
      while hw.Available() > 0
        decreases |hw.rx|
      {
        var dropped := hw.Read();
      }
    }

    // -------------------------------------------------------------------
    // Mode selection
    // -------------------------------------------------------------------

    /**
     * `setMode`: with no mode pin wired, commits any code once the
     * handshake succeeds; otherwise rejects codes other than 0..3, drives
     * the pins and commits on success. The receive buffer is kept.
     */
    method SetMode(code: uint8) returns (st: Status)
      requires Valid()
      modifies this`mode, hw`ticks, hw`auxReads, hw`pins
      ensures Valid()
      ensures hw.sent == old(hw.sent) && hw.tx == old(hw.tx) && hw.rx == old(hw.rx) && hw.readCount == old(hw.readCount)
      ensures !PinsUnwired() && !IsPinMode(code) ==>
        st == ErrInvalidParam && mode == old(mode) && hw.pins == old(hw.pins) && hw.auxReads == old(hw.auxReads)
      ensures PinsUnwired() || IsPinMode(code) ==>
        hw.pins == ModePins(old(hw.pins), code) && (st == Success || st == ErrTimeout) &&
        HandshakeSpan(old(hw.auxReads), hw.auxReads, st) && mode == (if st == Success then code else old(mode))
    {
      ManagedDelay(EXTRA_WAIT);
      if !PinsUnwired() {
        if !IsPinMode(code) {
          return ErrInvalidParam;
        }
        // The source's switch: M0 carries bit 0 of the code, M1 bit 1.
        var levels := PinLevels(code);
        hw.DigitalWrite(m0Pin, levels.0);
        hw.DigitalWrite(m1Pin, levels.1);
      }
      ManagedDelay(EXTRA_WAIT);
      st := WaitCompleteResponse(RESPONSE_TMO);
      if st == Success {
        mode := code;
      }
    }

    /** `getMode`: the last committed mode. */
    function GetMode(): (m: uint8)
      requires Valid()
      reads this`mode
      ensures !PinsUnwired() ==> IsPinMode(m)
    {
      mode
    }

    /**
     * `begin`: drives each wired mode pin HIGH, then enters the normal
     * mode; true only when that handshake succeeded.
     */
    method Begin() returns (ok: bool)
      requires Valid()
      modifies this`mode, hw`ticks, hw`auxReads, hw`pins
      ensures Valid()
      ensures ok <==> mode == MODE_0_FIXED && HandshakeSpan(old(hw.auxReads), hw.auxReads, Success)
      ensures PinsUnwired() ==> hw.pins == old(hw.pins)
      ensures !PinsUnwired() ==>
        hw.pins == DrivePins(Raised(old(hw.pins)), m0Pin, m1Pin, MODE_0_FIXED as int)
    {
      if m0Pin != NOT_WIRED {
        hw.DigitalWrite(m0Pin, true);
      }
      if m1Pin != NOT_WIRED {
        hw.DigitalWrite(m1Pin, true);
      }
      var st := SetMode(MODE_0_FIXED);
      ok := st == Success;
    }

    /** The pins after `begin` drove each wired mode pin HIGH. */
    function Raised(p: map<int, bool>): (r: map<int, bool>)
      ensures m0Pin != NOT_WIRED ==> m0Pin in r && (m0Pin != m1Pin ==> r[m0Pin])
      ensures m1Pin != NOT_WIRED ==> m1Pin in r && r[m1Pin]
      ensures forall x :: x in p && x != m0Pin && x != m1Pin ==> x in r && r[x] == p[x]
    {
      var p0 := if m0Pin != NOT_WIRED then p[m0Pin := true] else p;
      if m1Pin != NOT_WIRED then p0[m1Pin := true] else p0
    }

    // -------------------------------------------------------------------
    // Program-mode sessions
    // -------------------------------------------------------------------

    /** `checkUARTConfiguration`: program mode needs the UART at 9600 bps. */
    function CheckUARTConfiguration(m: uint8): (st: Status)
      reads this`bpsRate
      ensures st == Success || st == ErrWrongUartConfig
      ensures st == ErrWrongUartConfig <==> m == MODE_3_PROGRAM && bpsRate != CONFIG_BAUD
    {
      if m == MODE_3_PROGRAM && bpsRate != CONFIG_BAUD then ErrWrongUartConfig else Success
    }

    /** `writeProgramCommand`: the command byte three times, then 50 ms. */
    method WriteProgramCommand(cmd: uint8)
      requires hw.ClockLive()
      modifies hw`sent, hw`tx, hw`ticks
      ensures hw.sent == old(hw.sent) + [CommandFrame(cmd)]
      ensures hw.tx == old(hw.tx) + CommandFrame(cmd)[..old(hw.Accepted(CommandFrame(cmd)))]
    {
      var written := hw.Write(CommandFrame(cmd));
      ManagedDelay(COMMAND_WAIT);
    }

    /** The opening every program-mode session shares: the 9600-bps check, then mode 3. */
    method EnterProgramMode() returns (st: Status)
      requires Valid()
      modifies this`mode, hw`ticks, hw`auxReads, hw`pins
      ensures Valid()
      ensures hw.sent == old(hw.sent) && hw.tx == old(hw.tx) && hw.rx == old(hw.rx) && hw.readCount == old(hw.readCount)
      ensures st == ErrWrongUartConfig <==> bpsRate != CONFIG_BAUD
      ensures bpsRate != CONFIG_BAUD ==> unchanged(hw)
      ensures bpsRate == CONFIG_BAUD ==>
        hw.pins == ModePins(old(hw.pins), MODE_3_PROGRAM as int) && (st == Success || st == ErrTimeout) &&
        HandshakeSpan(old(hw.auxReads), hw.auxReads, st)
      ensures mode == if st == Success then MODE_3_PROGRAM else old(mode)
    {
      st := CheckUARTConfiguration(MODE_3_PROGRAM);
      if st == Success {
        st := SetMode(MODE_3_PROGRAM);
      }
    }

    /** The closing every program-mode session shares: back to the mode it started in. */
    method RestoreMode(prevMode: uint8, ghost p0: map<int, bool>) returns (st: Status)
      requires Valid() && (PinsUnwired() || IsPinMode(prevMode))
      requires hw.pins == ModePins(p0, MODE_3_PROGRAM as int)
      modifies this`mode, hw`ticks, hw`auxReads, hw`pins
      ensures Valid()
      ensures hw.sent == old(hw.sent) && hw.tx == old(hw.tx) && hw.rx == old(hw.rx) && hw.readCount == old(hw.readCount)
      ensures hw.pins == ModePins(p0, prevMode)
      ensures st == Success || st == ErrTimeout
      ensures HandshakeSpan(old(hw.auxReads), hw.auxReads, st)
      ensures mode == if st == Success then prevMode else old(mode)
    {
      st := SetMode(prevMode);
      if !PinsUnwired() {
        DrivePinsOverwrite(p0, m0Pin, m1Pin, MODE_3_PROGRAM as int, prevMode);
      }
    }

    /** A session that got past mode 3 left the pins as they were and the mode as it was, or in mode 3. */
    ghost predicate Restored(p0: map<int, bool>, m0: uint8)
      requires PinsUnwired() || IsPinMode(m0)
      reads this`mode, hw`pins
    {
      hw.pins == ModePins(p0, m0) && (mode == m0 || mode == MODE_3_PROGRAM)
    }

    /**
     * `getConfiguration`: the session of the current driver, but the mode
     * change does not empty the receive buffer, so the 6-byte record is
     * taken from whatever was already buffered, then from what arrives.
     */
    method GetConfiguration() returns (data: seq<uint8>, st: Status, ghost steps: SessionSteps)
      requires Valid()
      modifies this`mode, hw`ticks, hw`auxReads, hw`pins, hw`rx, hw`sent, hw`tx, hw`readCount
      ensures Valid()
      ensures st == ErrWrongUartConfig <==> bpsRate != CONFIG_BAUD
      ensures bpsRate != CONFIG_BAUD ==> unchanged(hw) && mode == old(mode)
      ensures bpsRate == CONFIG_BAUD && hw.sent == old(hw.sent) ==>
        st == ErrTimeout && mode == old(mode) && hw.pins == ModePins(old(hw.pins), MODE_3_PROGRAM as int)
      ensures hw.sent != old(hw.sent) ==>
        hw.sent == old(hw.sent) + [CommandFrame(READ_CONFIGURATION)] && Restored(old(hw.pins), old(mode))
      ensures st == Success || st == ErrHeadNotRecognized ==>
        hw.sent != old(hw.sent) && mode == old(mode) &&
        |data| == CONFIGURATION_SIZE && data <= old(hw.Incoming()) &&
        (st == Success <==> IsSaveHead(data[0]))
      ensures bpsRate == CONFIG_BAUD ==> HandshakeSpan(old(hw.auxReads), steps.stepFrom, steps.enter)
      ensures bpsRate == CONFIG_BAUD && steps.enter == Success ==>
        data <= old(hw.Incoming()) && |data| == Min(CONFIGURATION_SIZE, |old(hw.Incoming())|) &&
        TransferSpan(steps.stepFrom, steps.restoreFrom, CONFIGURATION_SIZE, |data|, steps.step) &&
        HandshakeSpan(steps.restoreFrom, hw.auxReads, steps.restore)
      ensures bpsRate == CONFIG_BAUD ==>
        st == AndThen(steps.enter, AndThen(steps.step, AndThen(steps.restore,
                if |data| == CONFIGURATION_SIZE && IsSaveHead(data[0]) then Success else ErrHeadNotRecognized)))
    {
      data := [];
      var prevMode := mode;
      st := EnterProgramMode();
      steps := SessionSteps(st, st, st, hw.auxReads, hw.auxReads);
      if st != Success {
        return;
      }
      WriteProgramCommand(READ_CONFIGURATION);
      ghost var incoming := hw.Incoming();
      assert incoming == old(hw.Incoming());
      data, st := ReceiveStruct(CONFIGURATION_SIZE);
      assert data == incoming[..|data|];
      assert TransferSpan(steps.stepFrom, hw.auxReads, CONFIGURATION_SIZE, |data|, st);
      steps := steps.(step := st, restoreFrom := hw.auxReads);
      // Whether or not the step failed, the previous mode is restored next;
      // a failed step's status is the one returned.
      var restored := RestoreMode(prevMode, old(hw.pins));
      steps := steps.(restore := restored);
      if st != Success {
        return;
      }
      st := restored;
      if st != Success {
        return;
      }
      if data[0] != WRITE_CFG_PWR_DWN_SAVE && data[0] != WRITE_CFG_PWR_DWN_LOSE {
        st := ErrHeadNotRecognized;
      }
    }

    /**
     * `setConfiguration`: after the C1 triple, sends the record with HEAD
     * replaced by `saveType`; a `saveType` other than C0 or C2 is reported
     * only after the record was sent and the mode restored.
     */
    method SetConfiguration(configuration: Configuration, saveType: uint8 := WRITE_CFG_PWR_DWN_LOSE)
      returns (st: Status, ghost steps: SessionSteps)
      requires Valid()
      modifies this`mode, hw`ticks, hw`auxReads, hw`pins, hw`rx, hw`sent, hw`tx
      ensures Valid()
      ensures st == ErrWrongUartConfig <==> bpsRate != CONFIG_BAUD
      ensures bpsRate != CONFIG_BAUD ==> unchanged(hw) && mode == old(mode)
      ensures bpsRate == CONFIG_BAUD && hw.sent == old(hw.sent) ==>
        st == ErrTimeout && mode == old(mode) && hw.pins == ModePins(old(hw.pins), MODE_3_PROGRAM as int)
      ensures hw.sent != old(hw.sent) ==> Restored(old(hw.pins), old(mode))
      ensures hw.sent != old(hw.sent) && CONFIGURATION_SIZE <= maxSizeTxPacket + 2 ==>
        hw.sent == old(hw.sent) + [CommandFrame(READ_CONFIGURATION), EncodeConfiguration(configuration.(head := saveType))]
      ensures hw.sent != old(hw.sent) && CONFIGURATION_SIZE > maxSizeTxPacket + 2 ==>
        hw.sent == old(hw.sent) + [CommandFrame(READ_CONFIGURATION)]
      ensures st == Success || st == ErrHeadNotRecognized ==>
        hw.sent != old(hw.sent) && mode == old(mode) && (st == Success <==> IsSaveHead(saveType))
      ensures bpsRate == CONFIG_BAUD ==> HandshakeSpan(old(hw.auxReads), steps.stepFrom, steps.enter)
      ensures bpsRate == CONFIG_BAUD && steps.enter == Success ==>
        SendSpan(steps.stepFrom, steps.restoreFrom, CONFIGURATION_SIZE,
                 Min(CONFIGURATION_SIZE, hw.acceptAt(|old(hw.sent)| + 1)), steps.step)
      ensures bpsRate == CONFIG_BAUD && steps.enter == Success ==>
        HandshakeSpan(steps.restoreFrom, hw.auxReads, steps.restore)
      ensures bpsRate == CONFIG_BAUD ==>
        st == AndThen(steps.enter, AndThen(steps.step, AndThen(steps.restore,
                if IsSaveHead(saveType) then Success else ErrHeadNotRecognized)))
    {
      var prevMode := mode;
      st := EnterProgramMode();
      steps := SessionSteps(st, st, st, hw.auxReads, hw.auxReads);
      if st != Success {
        return;
      }
      WriteProgramCommand(READ_CONFIGURATION);
      var record := configuration.(head := saveType);
      ghost var moved := hw.Accepted(EncodeConfiguration(record));
      assert moved == Min(CONFIGURATION_SIZE, hw.acceptAt(|old(hw.sent)| + 1));
      st := SendStruct(EncodeConfiguration(record));
      assert SendSpan(steps.stepFrom, hw.auxReads, CONFIGURATION_SIZE, moved, st);
      steps := steps.(step := st, restoreFrom := hw.auxReads);
      // Whether or not the step failed, the previous mode is restored next;
      // a failed step's status is the one returned.
      var restored := RestoreMode(prevMode, old(hw.pins));
      steps := steps.(restore := restored);
      if st != Success {
        return;
      }
      st := restored;
      if st != Success {
        return;
      }
      if record.head != WRITE_CFG_PWR_DWN_SAVE && record.head != WRITE_CFG_PWR_DWN_LOSE {
        st := ErrHeadNotRecognized;
      }
    }

    /** `getModuleInformation`: the C3 triple and a 4-byte reply that must start with C3. */
    method GetModuleInformation() returns (data: seq<uint8>, st: Status, ghost steps: SessionSteps)
      requires Valid()
      modifies this`mode, hw`ticks, hw`auxReads, hw`pins, hw`rx, hw`sent, hw`tx, hw`readCount
      ensures Valid()
      ensures st == ErrWrongUartConfig <==> bpsRate != CONFIG_BAUD
      ensures bpsRate != CONFIG_BAUD ==> unchanged(hw) && mode == old(mode)
      ensures bpsRate == CONFIG_BAUD && hw.sent == old(hw.sent) ==>
        st == ErrTimeout && mode == old(mode) && hw.pins == ModePins(old(hw.pins), MODE_3_PROGRAM as int)
      ensures hw.sent != old(hw.sent) ==>
        hw.sent == old(hw.sent) + [CommandFrame(READ_MODULE_VERSION)] && Restored(old(hw.pins), old(mode))
      ensures st == Success || st == ErrHeadNotRecognized ==>
        hw.sent != old(hw.sent) && mode == old(mode) &&
        |data| == MODULE_INFORMATION_SIZE && data <= old(hw.Incoming()) &&
        (st == Success <==> data[0] == READ_MODULE_VERSION)
      ensures bpsRate == CONFIG_BAUD ==> HandshakeSpan(old(hw.auxReads), steps.stepFrom, steps.enter)
      ensures bpsRate == CONFIG_BAUD && steps.enter == Success ==>
        data <= old(hw.Incoming()) && |data| == Min(MODULE_INFORMATION_SIZE, |old(hw.Incoming())|) &&
        TransferSpan(steps.stepFrom, steps.restoreFrom, MODULE_INFORMATION_SIZE, |data|, steps.step) &&
        HandshakeSpan(steps.restoreFrom, hw.auxReads, steps.restore)
      ensures bpsRate == CONFIG_BAUD ==>
        st == AndThen(steps.enter, AndThen(steps.step, AndThen(steps.restore,
                if |data| == MODULE_INFORMATION_SIZE && data[0] == READ_MODULE_VERSION then Success
                else ErrHeadNotRecognized)))
    {
      data := [];
      var prevMode := mode;
      st := EnterProgramMode();
      steps := SessionSteps(st, st, st, hw.auxReads, hw.auxReads);
      if st != Success {
        return;
      }
      WriteProgramCommand(READ_MODULE_VERSION);
      ghost var incoming := hw.Incoming();
      assert incoming == old(hw.Incoming());
      data, st := ReceiveStruct(MODULE_INFORMATION_SIZE);
      assert data == incoming[..|data|];
      assert TransferSpan(steps.stepFrom, hw.auxReads, MODULE_INFORMATION_SIZE, |data|, st);
      steps := steps.(step := st, restoreFrom := hw.auxReads);
      // Whether or not the step failed, the previous mode is restored next;
      // a failed step's status is the one returned.
      var restored := RestoreMode(prevMode, old(hw.pins));
      steps := steps.(restore := restored);
      if st != Success {
        return;
      }
      st := restored;
      if st != Success {
        return;
      }
      if data[0] != READ_MODULE_VERSION {
        st := ErrHeadNotRecognized;
      }
    }

    /** `resetModule`: the C4 triple, a handshake, then the mode restored. */
    method ResetModule() returns (st: Status, ghost steps: SessionSteps)
      requires Valid()
      modifies this`mode, hw`ticks, hw`auxReads, hw`pins, hw`sent, hw`tx
      ensures Valid()
      ensures st == ErrWrongUartConfig <==> bpsRate != CONFIG_BAUD
      ensures bpsRate != CONFIG_BAUD ==> unchanged(hw) && mode == old(mode)
      ensures bpsRate == CONFIG_BAUD && hw.sent == old(hw.sent) ==>
        st == ErrTimeout && mode == old(mode) && hw.pins == ModePins(old(hw.pins), MODE_3_PROGRAM as int)
      ensures hw.sent != old(hw.sent) ==>
        hw.sent == old(hw.sent) + [CommandFrame(WRITE_RESET_MODULE)] && Restored(old(hw.pins), old(mode))
      ensures st == Success ==> hw.sent != old(hw.sent) && mode == old(mode)
      ensures bpsRate == CONFIG_BAUD ==> HandshakeSpan(old(hw.auxReads), steps.stepFrom, steps.enter)
      ensures bpsRate == CONFIG_BAUD && steps.enter == Success ==>
        HandshakeSpan(steps.stepFrom, steps.restoreFrom, steps.step) &&
        HandshakeSpan(steps.restoreFrom, hw.auxReads, steps.restore)
      ensures bpsRate == CONFIG_BAUD ==> st == AndThen(steps.enter, AndThen(steps.step, steps.restore))
    {
      var prevMode := mode;
      st := EnterProgramMode();
      steps := SessionSteps(st, st, st, hw.auxReads, hw.auxReads);
      if st != Success {
        return;
      }
      WriteProgramCommand(WRITE_RESET_MODULE);
      st := WaitCompleteResponse(RESPONSE_TMO);
      steps := steps.(step := st, restoreFrom := hw.auxReads);
      // Whether or not the step failed, the previous mode is restored next;
      // a failed step's status is the one returned.
      var restored := RestoreMode(prevMode, old(hw.pins));
      steps := steps.(restore := restored);
      if st != Success {
        return;
      }
      st := restored;
    }

    // -------------------------------------------------------------------
    // Struct and message transfer
    // -------------------------------------------------------------------

    /**
     * `sendStruct`: frames over MAX_SIZE_TX_PACKET + 2 bytes are refused
     * unsent; the count written is kept in 8 bits and compared with the
     * 16-bit size; a full write ends with the handshake and, on success,
     * an emptied receive buffer.
     */
    method SendStruct(data: seq<uint8>) returns (st: Status)
      requires hw.ClockLive() && |data| <= 0xFFFF
      modifies hw`sent, hw`tx, hw`ticks, hw`auxReads, hw`rx
      ensures |data| > maxSizeTxPacket + 2 ==>
        st == ErrPacketTooBig && unchanged(hw)
      ensures |data| <= maxSizeTxPacket + 2 ==>
        hw.sent == old(hw.sent) + [data] && hw.tx == old(hw.tx) + data[..old(hw.Accepted(data))]
      ensures |data| <= maxSizeTxPacket + 2 ==>
        TransferSpan(old(hw.auxReads), hw.auxReads, |data|, old(hw.Accepted(data)), st) &&
        hw.rx == (if ShortTransfer(|data|, Low8(old(hw.Accepted(data)))) == None && st == Success then [] else old(hw.rx))
      ensures SendSpan(old(hw.auxReads), hw.auxReads, |data|, old(hw.Accepted(data)), st)
    {
      if |data| > maxSizeTxPacket + 2 {
        return ErrPacketTooBig;
      }
      var written := hw.Write(data);
      var len := Low8(written);
      if len != |data| {
        return if len == 0 then ErrNoResponseFromDevice else ErrDataSizeNotMatch;
      }
      st := WaitCompleteResponse(RESPONSE_TMO);
      if st != Success {
        return;
      }
      CleanUARTBuffer();
    }

    /**
     * `receiveStruct`: reads up to `size` bytes; the count read is kept in
     * 8 bits, a short read is classified like a short write, a complete one
     * ends with the handshake.
     */
    method ReceiveStruct(size: nat) returns (data: seq<uint8>, st: Status)
      requires hw.ClockLive() && size <= 0xFFFF
      modifies hw`rx, hw`readCount, hw`ticks, hw`auxReads
      ensures |data| == Min(size, |old(hw.Incoming())|) && data + hw.rx == old(hw.Incoming())
      ensures hw.readCount == old(hw.readCount) + 1
      ensures ShortTransfer(size, Low8(|data|)).Some? ==>
        st == ShortTransfer(size, Low8(|data|)).value && hw.auxReads == old(hw.auxReads)
      ensures ShortTransfer(size, Low8(|data|)) == None ==> HandshakeSpan(old(hw.auxReads), hw.auxReads, st)
    {
      data := hw.ReadBytes(size);
      var len := Low8(|data|);
      if len != size {
        return data, if len == 0 then ErrNoResponseFromDevice else ErrDataSizeNotMatch;
      }
      st := WaitCompleteResponse(RESPONSE_TMO);
    }

    /** `receiveMessage()`: everything that arrives until the read times out; the buffer ends empty. */
    method ReceiveMessage() returns (message: seq<uint8>, st: Status)
      modifies hw`rx, hw`readCount
      ensures st == Success && message == old(hw.Incoming()) && hw.rx == []
    {
      message := hw.ReadString();
      CleanUARTBuffer();
      st := Success;
    }

    /** `receiveMessageUntil`: the text before the delimiter; the rest stays buffered. */
    method ReceiveMessageUntil(delimiter: uint8 := 0) returns (message: seq<uint8>, st: Status)
      modifies hw`rx, hw`readCount
      ensures st == Success && delimiter !in message
      ensures (message == old(hw.Incoming()) && hw.rx == []) ||
              message + [delimiter] + hw.rx == old(hw.Incoming())
    {
      message := hw.ReadStringUntil(delimiter);
      st := Success;
    }

    /**
     * `receiveMessage(size)`: a struct read of `size` bytes, after which
     * whatever is still buffered is dropped, whatever the outcome.
     */
    method ReceiveMessageFixed(size: uint8) returns (data: seq<uint8>, st: Status)
      requires hw.ClockLive()
      modifies hw`rx, hw`readCount, hw`ticks, hw`auxReads
      ensures data <= old(hw.Incoming()) && |data| == Min(size, |old(hw.Incoming())|)
      ensures hw.rx == []
      ensures st == Success ==> |data| == size
      ensures TransferSpan(old(hw.auxReads), hw.auxReads, size, |data|, st)
    {
      data, st := ReceiveStruct(size);
      CleanUARTBuffer();
    }

    /**
     * `receiveInitialMessage`: reads up to `size` bytes; a short read is an
     * error with no text, a full one is returned as a C string.
     */
    method ReceiveInitialMessage(size: uint8) returns (message: seq<uint8>, st: Status)
      modifies hw`rx, hw`readCount
      ensures exists data: seq<uint8> ::
        |data| == Min(size, |old(hw.Incoming())|) && data + hw.rx == old(hw.Incoming()) &&
        (|data| == size ==> st == Success && message == CString(data)) &&
        (|data| != size ==> st == ShortTransfer(size, |data|).value && message == [])
    {
      var data := hw.ReadBytes(size);
      var len := Low8(|data|);
      if len != size {
        return [], if len == 0 then ErrNoResponseFromDevice else ErrDataSizeNotMatch;
      }
      message, st := CString(data), Success;
    }

    /** `sendMessage(message, size)`: a struct send of the message bytes. */
    method SendMessage(message: seq<uint8>) returns (st: Status)
      requires hw.ClockLive() && |message| <= 0xFF
      modifies hw`sent, hw`tx, hw`ticks, hw`auxReads, hw`rx
      ensures |message| > maxSizeTxPacket + 2 ==> st == ErrPacketTooBig && hw.sent == old(hw.sent)
      ensures |message| <= maxSizeTxPacket + 2 ==> hw.sent == old(hw.sent) + [message]
      ensures st == Success ==> hw.tx == old(hw.tx) + message && hw.rx == []
      ensures |message| <= maxSizeTxPacket + 2 ==>
        hw.tx == old(hw.tx) + message[..old(hw.Accepted(message))] &&
        TransferSpan(old(hw.auxReads), hw.auxReads, |message|, old(hw.Accepted(message)), st)
      ensures SendSpan(old(hw.auxReads), hw.auxReads, |message|, old(hw.Accepted(message)), st)
    {
      st := SendStruct(message);
    }

    /**
     * `sendMessage(String)` as the source has it: the length is stored in a
     * `byte`, so only the first `length % 256` characters are sent, and a
     * longer text can be reported as sent in full.
     */
    method SendMessageStringAsWritten(message: seq<uint8>) returns (st: Status)
      requires hw.ClockLive()
      modifies hw`sent, hw`tx, hw`ticks, hw`auxReads, hw`rx
      ensures Low8(|message|) <= maxSizeTxPacket + 2 ==> hw.sent == old(hw.sent) + [message[..Low8(|message|)]]
      ensures |message| >= 256 && Low8(|message|) <= maxSizeTxPacket + 2 ==> hw.sent[|old(hw.sent)|] != message
      ensures st == Success ==> hw.tx == old(hw.tx) + message[..Low8(|message|)]
      ensures SendSpan(old(hw.auxReads), hw.auxReads, Low8(|message|),
                       old(hw.Accepted(message[..Low8(|message|)])), st)
    {
      var size := Low8(|message|);
      st := SendStruct(message[..size]);
    }

    /** `sendMessage(String)` corrected: the whole text is sent, or refused as too big. */
    method SendMessageString(message: seq<uint8>) returns (st: Status)
      requires hw.ClockLive()
      modifies hw`sent, hw`tx, hw`ticks, hw`auxReads, hw`rx
      ensures |message| > 0xFFFF || |message| > maxSizeTxPacket + 2 ==>
        st == ErrPacketTooBig && hw.sent == old(hw.sent)
      ensures |message| <= 0xFFFF && |message| <= maxSizeTxPacket + 2 ==> hw.sent == old(hw.sent) + [message]
      ensures st == Success ==> hw.tx == old(hw.tx) + message
      ensures |message| <= 0xFFFF ==>
        SendSpan(old(hw.auxReads), hw.auxReads, |message|, old(hw.Accepted(message)), st)
    {
      if |message| > 0xFFFF {
        return ErrPacketTooBig;
      }
      st := SendStruct(message);
    }

    /** `sendFixedMessage(..., message, size)`: the 3-byte header and the payload, as one frame. */
    method SendFixedMessage(addh: uint8, addl: uint8, chan: uint8, message: seq<uint8>) returns (st: Status)
      requires hw.ClockLive() && |message| <= 0xFF
      modifies hw`sent, hw`tx, hw`ticks, hw`auxReads, hw`rx
      ensures |message| + FIXED_HEADER_SIZE > maxSizeTxPacket + 2 ==> st == ErrPacketTooBig && hw.sent == old(hw.sent)
      ensures |message| + FIXED_HEADER_SIZE <= maxSizeTxPacket + 2 ==>
        hw.sent == old(hw.sent) + [FixedFrame(addh, addl, chan, message)]
      ensures st == Success ==> hw.tx == old(hw.tx) + FixedFrame(addh, addl, chan, message)
      ensures |message| + FIXED_HEADER_SIZE <= maxSizeTxPacket + 2 ==>
        TransferSpan(old(hw.auxReads), hw.auxReads, FIXED_HEADER_SIZE + |message|,
                     old(hw.Accepted(FixedFrame(addh, addl, chan, message))), st)
      ensures SendSpan(old(hw.auxReads), hw.auxReads, FIXED_HEADER_SIZE + |message|,
                       old(hw.Accepted(FixedFrame(addh, addl, chan, message))), st)
    {
      st := SendStruct(FixedFrame(addh, addl, chan, message));
    }

    /** `sendBroadcastFixedMessage(..., message, size)`: a fixed frame to address 0xFF 0xFF. */
    method SendBroadcastFixedMessage(chan: uint8, message: seq<uint8>) returns (st: Status)
      requires hw.ClockLive() && |message| <= 0xFF
      modifies hw`sent, hw`tx, hw`ticks, hw`auxReads, hw`rx
      ensures |message| + FIXED_HEADER_SIZE > maxSizeTxPacket + 2 ==> st == ErrPacketTooBig && hw.sent == old(hw.sent)
      ensures |message| + FIXED_HEADER_SIZE <= maxSizeTxPacket + 2 ==>
        hw.sent == old(hw.sent) + [BroadcastFrame(chan, message)]
      ensures st == Success ==> hw.tx == old(hw.tx) + BroadcastFrame(chan, message)
      ensures SendSpan(old(hw.auxReads), hw.auxReads, FIXED_HEADER_SIZE + |message|,
                       old(hw.Accepted(BroadcastFrame(chan, message))), st)
    {
      st := SendFixedMessage(BROADCAST_ADDR, BROADCAST_ADDR, chan, message);
    }

    /**
     * `sendFixedMessage(..., String)` as the source has it: the length is
     * stored in a `byte`, so the frame carries only the first
     * `length % 256` characters.
     */
    method SendFixedMessageStringAsWritten(addh: uint8, addl: uint8, chan: uint8, message: seq<uint8>)
      returns (st: Status)
      requires hw.ClockLive()
      modifies hw`sent, hw`tx, hw`ticks, hw`auxReads, hw`rx
      ensures Low8(|message|) + FIXED_HEADER_SIZE <= maxSizeTxPacket + 2 ==>
        hw.sent == old(hw.sent) + [FixedFrame(addh, addl, chan, message[..Low8(|message|)])]
      ensures |message| >= 256 && Low8(|message|) + FIXED_HEADER_SIZE <= maxSizeTxPacket + 2 ==>
        hw.sent[|old(hw.sent)|] != FixedFrame(addh, addl, chan, message)
      ensures st == Success ==> hw.tx == old(hw.tx) + FixedFrame(addh, addl, chan, message[..Low8(|message|)])
      ensures SendSpan(old(hw.auxReads), hw.auxReads, FIXED_HEADER_SIZE + Low8(|message|),
                       old(hw.Accepted(FixedFrame(addh, addl, chan, message[..Low8(|message|)]))), st)
    {
      var size := Low8(|message|);
      st := SendFixedMessage(addh, addl, chan, message[..size]);
    }

    /**
     * `sendFixedMessage(..., String)` with the text sent whole: a text the
     * 8-bit size cannot describe is refused.
     */
    method SendFixedMessageString(addh: uint8, addl: uint8, chan: uint8, message: seq<uint8>) returns (st: Status)
      requires hw.ClockLive()
      modifies hw`sent, hw`tx, hw`ticks, hw`auxReads, hw`rx
      ensures |message| > 0xFF ==> st == ErrPacketTooBig && unchanged(hw)
      ensures |message| <= 0xFF && |message| + FIXED_HEADER_SIZE <= maxSizeTxPacket + 2 ==>
        hw.sent == old(hw.sent) + [FixedFrame(addh, addl, chan, message)]
      ensures |message| <= 0xFF && |message| + FIXED_HEADER_SIZE > maxSizeTxPacket + 2 ==>
        st == ErrPacketTooBig && hw.sent == old(hw.sent)
      ensures st == Success ==> hw.tx == old(hw.tx) + FixedFrame(addh, addl, chan, message)
      ensures |message| <= 0xFF ==>
        SendSpan(old(hw.auxReads), hw.auxReads, FIXED_HEADER_SIZE + |message|,
                 old(hw.Accepted(FixedFrame(addh, addl, chan, message))), st)
    {
      if |message| > 0xFF {
        return ErrPacketTooBig;
      }
      st := SendFixedMessage(addh, addl, chan, message);
    }

    /** `sendBroadcastFixedMessage(CHAN, String)`: the text to address 0xFF 0xFF. */
    method SendBroadcastFixedMessageString(chan: uint8, message: seq<uint8>) returns (st: Status)
      requires hw.ClockLive()
      modifies hw`sent, hw`tx, hw`ticks, hw`auxReads, hw`rx
      ensures |message| > 0xFF ==> st == ErrPacketTooBig && unchanged(hw)
      ensures |message| <= 0xFF && |message| + FIXED_HEADER_SIZE <= maxSizeTxPacket + 2 ==>
        hw.sent == old(hw.sent) + [BroadcastFrame(chan, message)]
      ensures |message| <= 0xFF && |message| + FIXED_HEADER_SIZE > maxSizeTxPacket + 2 ==>
        st == ErrPacketTooBig && hw.sent == old(hw.sent)
      ensures st == Success ==> hw.tx == old(hw.tx) + BroadcastFrame(chan, message)
      ensures |message| <= 0xFF ==>
        SendSpan(old(hw.auxReads), hw.auxReads, FIXED_HEADER_SIZE + |message|,
                 old(hw.Accepted(BroadcastFrame(chan, message))), st)
    {
      st := SendFixedMessageString(BROADCAST_ADDR, BROADCAST_ADDR, chan, message);
    }
  }
}
