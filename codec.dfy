/**
 * The byte-exact records of the configuration protocol: program commands,
 * the packed `Speed` and `Option` bytes in the two bit layouts (E34 and E28),
 * the 6-byte `Configuration`, the 4-byte identification record, and the
 * lookup tables that give each bit-field value its meaning.
 *
 * Bit fields are allocated least-significant bit first, as the "bit 0-2"
 * comments of the packed structs fix.
 */
module Codec {
  import opened Types

  // ---------------------------------------------------------------------
  // Program commands (`EBYTE_COMMAND_T`, `PROGRAM_COMMAND`)
  // ---------------------------------------------------------------------

  const WRITE_CFG_PWR_DWN_SAVE: uint8 := 0xC0
  const READ_CONFIGURATION: uint8 := 0xC1
  const WRITE_CFG_PWR_DWN_LOSE: uint8 := 0xC2
  const READ_MODULE_VERSION: uint8 := 0xC3
  const WRITE_RESET_MODULE: uint8 := 0xC4

  datatype Command = WriteCfgPwrDwnSave | ReadConfiguration | WriteCfgPwrDwnLose | ReadModuleVersion | WriteResetModule

  function CommandByte(c: Command): (b: uint8)
    ensures 0xC0 <= b <= 0xC4
  {
    match c
    case WriteCfgPwrDwnSave => WRITE_CFG_PWR_DWN_SAVE
    case ReadConfiguration => READ_CONFIGURATION
    case WriteCfgPwrDwnLose => WRITE_CFG_PWR_DWN_LOSE
    case ReadModuleVersion => READ_MODULE_VERSION
    case WriteResetModule => WRITE_RESET_MODULE
  }

  function CommandOfByte(b: uint8): (r: Option<Command>)
    ensures r.Some? <==> 0xC0 <= b <= 0xC4
    ensures r.Some? ==> CommandByte(r.value) == b
  {
    if b == 0xC0 then Some(WriteCfgPwrDwnSave)
    else if b == 0xC1 then Some(ReadConfiguration)
    else if b == 0xC2 then Some(WriteCfgPwrDwnLose)
    else if b == 0xC3 then Some(ReadModuleVersion)
    else if b == 0xC4 then Some(WriteResetModule)
    else None
  }

  /** Every command has its own byte. */
  lemma CommandByteRoundTrip(c: Command)
    ensures CommandOfByte(CommandByte(c)) == Some(c)
  {
  }

  /** The two tags a configuration record may carry: save on power-down, or volatile. */
  predicate IsSaveHead(b: uint8)
  {
    b == WRITE_CFG_PWR_DWN_SAVE || b == WRITE_CFG_PWR_DWN_LOSE
  }

  /** A program command frame: the command byte three times. */
  function CommandFrame(cmd: uint8): (f: seq<uint8>)
    ensures |f| == 3 && forall i :: 0 <= i < 3 ==> f[i] == cmd
  {
    [cmd, cmd, cmd]
  }

  // ---------------------------------------------------------------------
  // The Speed byte: air data rate bits 0-2, UART baud bits 3-5, parity bits 6-7
  // ---------------------------------------------------------------------

  datatype Speed = Speed(airDataRate: bits3, uartBaudRate: bits3, uartParity: bits2)

  function EncodeSpeed(s: Speed): uint8
  {
    s.airDataRate + 8 * (s.uartBaudRate + 8 * s.uartParity)
  }

  function DecodeSpeed(b: uint8): Speed
  {
    var r := b / 8;
    Speed(b % 8, r % 8, r / 8)
  }

  lemma {:induction false} SpeedRoundTrip(s: Speed)
    ensures DecodeSpeed(EncodeSpeed(s)) == s
  {
    DivModPacked(s.airDataRate, s.uartBaudRate + 8 * s.uartParity, 8);
    DivModPacked(s.uartBaudRate, s.uartParity, 8);
  }

  lemma SpeedByteRoundTrip(b: uint8)
    ensures EncodeSpeed(DecodeSpeed(b)) == b
  {
  }

  // ---------------------------------------------------------------------
  // The Option byte, in the two layouts
  //   E34: power bits 0-1, FEC bit 2, wake-up time bits 3-5, IO drive bit 6, fixed bit 7
  //   E28: power bits 0-1, IO drive bit 2, LBT bit 3, reserved bits 4-6, fixed bit 7
  // ---------------------------------------------------------------------

  datatype Layout = LayoutE34 | LayoutE28

  datatype OptionByte =
    | OptionE34(transmissionPower: bits2, fec: bits1, wirelessWakeupTime: bits3,
                ioDriveMode: bits1, fixedTransmission: bits1)
    | OptionE28(transmissionPower: bits2, ioDriveMode: bits1, switchLBT: bits1,
                reserved: bits3, fixedTransmission: bits1)

  function LayoutOf(o: OptionByte): Layout
  {
    if o.OptionE34? then LayoutE34 else LayoutE28
  }

  function EncodeOption(o: OptionByte): uint8
  {
    match o
    case OptionE34(pow, fec, wake, io, fixed) => pow + 4 * (fec + 2 * (wake + 8 * (io + 2 * fixed)))
    case OptionE28(pow, io, lbt, res, fixed) => pow + 4 * (io + 2 * (lbt + 2 * (res + 8 * fixed)))
  }

  function DecodeOption(layout: Layout, b: uint8): (o: OptionByte)
    ensures LayoutOf(o) == layout
  {
    var r1 := b / 4;
    var r2 := r1 / 2;
    match layout
    case LayoutE34 =>
      var r3 := r2 / 8;
      OptionE34(b % 4, r1 % 2, r2 % 8, r3 % 2, r3 / 2)
    case LayoutE28 =>
      var r3 := r2 / 2;
      OptionE28(b % 4, r1 % 2, r2 % 2, r3 % 8, r3 / 8)
  }

  lemma {:induction false} OptionRoundTrip(o: OptionByte)
    ensures DecodeOption(LayoutOf(o), EncodeOption(o)) == o
  {
    match o
    case OptionE34(pow, fec, wake, io, fixed) =>
      DivModPacked(pow, fec + 2 * (wake + 8 * (io + 2 * fixed)), 4);
      DivModPacked(fec, wake + 8 * (io + 2 * fixed), 2);
      DivModPacked(wake, io + 2 * fixed, 8);
      DivModPacked(io, fixed, 2);
    case OptionE28(pow, io, lbt, res, fixed) =>
      DivModPacked(pow, io + 2 * (lbt + 2 * (res + 8 * fixed)), 4);
      DivModPacked(io, lbt + 2 * (res + 8 * fixed), 2);
      DivModPacked(lbt, res + 8 * fixed, 2);
      DivModPacked(res, fixed, 8);
  }

  /** In both layouts the fields cover all 8 bits: no byte value is lost. */
  lemma OptionByteRoundTrip(layout: Layout, b: uint8)
    ensures EncodeOption(DecodeOption(layout, b)) == b
  {
  }

  // ---------------------------------------------------------------------
  // The 6-byte Configuration record: HEAD, ADDH, ADDL, SPED, CHAN, OPTION
  // ---------------------------------------------------------------------

  const CONFIGURATION_SIZE: nat := 6

  datatype Configuration = Configuration(
    head: uint8, addh: uint8, addl: uint8, sped: Speed, chan: uint8, option: OptionByte)

  function EncodeConfiguration(c: Configuration): (bytes: seq<uint8>)
    ensures |bytes| == CONFIGURATION_SIZE
    ensures bytes[0] == c.head && bytes[1] == c.addh && bytes[2] == c.addl && bytes[4] == c.chan
  {
    [c.head, c.addh, c.addl, EncodeSpeed(c.sped), c.chan, EncodeOption(c.option)]
  }

  function DecodeConfiguration(layout: Layout, bytes: seq<uint8>): (c: Configuration)
    requires |bytes| == CONFIGURATION_SIZE
    ensures LayoutOf(c.option) == layout
  {
    Configuration(bytes[0], bytes[1], bytes[2], DecodeSpeed(bytes[3]), bytes[4],
                  DecodeOption(layout, bytes[5]))
  }

  /** Decoding an encoded record gives back every field. */
  lemma {:induction false} ConfigurationRoundTrip(c: Configuration)
    ensures DecodeConfiguration(LayoutOf(c.option), EncodeConfiguration(c)) == c
  {
    SpeedRoundTrip(c.sped);
    OptionRoundTrip(c.option);
  }

  /** Encoding a decoded record gives back every byte, in either layout. */
  lemma {:induction false} ConfigurationBytesRoundTrip(layout: Layout, bytes: seq<uint8>)
    requires |bytes| == CONFIGURATION_SIZE
    ensures EncodeConfiguration(DecodeConfiguration(layout, bytes)) == bytes
  {
    SpeedByteRoundTrip(bytes[3]);
    OptionByteRoundTrip(layout, bytes[5]);
  }

  // ---------------------------------------------------------------------
  // The meaning of each field value (the `*_desc()` tables)
  // ---------------------------------------------------------------------

  datatype Parity = Parity8N1 | Parity8O1 | Parity8E1

  /** Both layouts: 0 and 3 are 8N1, 1 is 8O1, 2 is 8E1. */
  function ParityOf(code: bits2): (p: Parity)
    ensures p == Parity8N1 <==> code == 0 || code == 3
  {
    if code == 1 then Parity8O1 else if code == 2 then Parity8E1 else Parity8N1
  }

  /** UART baud rate in bits per second for each 3-bit code. */
  function BaudRate(layout: Layout, code: bits3): nat
  {
    match layout
    case LayoutE34 => [1200, 2400, 4800, 9600, 19200, 38400, 57600, 115200][code]
    case LayoutE28 => [1200, 4800, 9600, 19200, 57600, 115200, 460800, 921600][code]
  }

  /** The baud the module must be talked to at while it is being configured. */
  const CONFIG_BAUD: nat := 9600

  /** The baud code that means 9600: 0b011 on the E34, 0b010 on the E28. */
  function ConfigBaudCode(layout: Layout): (code: bits3)
    ensures BaudRate(layout, code) == CONFIG_BAUD
  {
    if layout == LayoutE34 then 3 else 2
  }

  /** Higher codes mean faster UARTs, in both tables. */
  lemma BaudRateIncreasing(layout: Layout, a: bits3, b: bits3)
    requires a < b
    ensures BaudRate(layout, a) < BaudRate(layout, b)
  {
  }

  /** 9600 has exactly one code per layout, and the layouts disagree on it. */
  lemma {:induction false} ConfigBaudCodeUnique(layout: Layout, code: bits3)
    ensures BaudRate(layout, code) == CONFIG_BAUD <==> code == ConfigBaudCode(layout)
  {
    var c := ConfigBaudCode(layout);
    if code < c {
      BaudRateIncreasing(layout, code, c);
    } else if code > c {
      BaudRateIncreasing(layout, c, code);
    }
  }

  datatype AirRate = AirAuto | AirKbps(kbps: nat) | AirNotAvailable

  /** Air data rate: E34 0 = 250k, 1 = 1M, 2 and 3 = 2M, 4..7 unused; E28 auto, 1k .. 2M. */
  function AirRateOf(layout: Layout, code: bits3): (r: AirRate)
    ensures layout == LayoutE34 ==> (r == AirNotAvailable <==> code >= 4)
    ensures layout == LayoutE28 ==> (r == AirAuto <==> code == 0) && r != AirNotAvailable
  {
    match layout
    case LayoutE34 =>
      if code == 0 then AirKbps(250)
      else if code == 1 then AirKbps(1000)
      else if code <= 3 then AirKbps(2000)
      else AirNotAvailable
    case LayoutE28 =>
      if code == 0 then AirAuto
      else AirKbps([1, 5, 10, 50, 100, 1000, 2000][code - 1])
  }

  /** E28 air-rate codes name distinct rates; on the E34 only 2 and 3 coincide. */
  lemma AirRateDistinct(layout: Layout, a: bits3, b: bits3)
    requires a != b
    requires AirRateOf(layout, a) == AirRateOf(layout, b)
    ensures layout == LayoutE34
    ensures (a == 2 && b == 3) || (a == 3 && b == 2) || (a >= 4 && b >= 4)
  {
  }

  /** Transmit power in dBm: E34 20/14/8/2, E28 12/10/7/4. */
  function PowerDbm(layout: Layout, code: bits2): nat
  {
    match layout
    case LayoutE34 => [20, 14, 8, 2][code]
    case LayoutE28 => [12, 10, 7, 4][code]
  }

  /** Higher power codes mean less power, in both tables. */
  lemma PowerDecreasing(layout: Layout, a: bits2, b: bits2)
    requires a < b
    ensures PowerDbm(layout, a) > PowerDbm(layout, b)
  {
  }

  datatype IoDrive = OpenCollector | PushPull
  datatype TransmissionMode = Transparent | Fixed

  function IoDriveOf(bit: bits1): IoDrive
  {
    if bit == 0 then OpenCollector else PushPull
  }

  function TransmissionModeOf(bit: bits1): TransmissionMode
  {
    if bit == 0 then Transparent else Fixed
  }

  /** The meaning of the option bits does not depend on where the layout keeps them. */
  lemma {:induction false} OptionMeaningAcrossLayouts(b: uint8)
    ensures var e34 := DecodeOption(LayoutE34, b);
            var e28 := DecodeOption(LayoutE28, b);
            e34.transmissionPower == e28.transmissionPower &&
            e34.fixedTransmission == e28.fixedTransmission &&
            e34.fec == e28.ioDriveMode
  {
  }

  // ---------------------------------------------------------------------
  // The identification record (`ModuleInformation`, E28 `Version`): 4 bytes
  // ---------------------------------------------------------------------

  const MODULE_INFORMATION_SIZE: nat := 4

  datatype ModuleInformation = ModuleInformation(head: uint8, frequency: uint8, version: uint8, features: uint8)

  function EncodeModuleInformation(m: ModuleInformation): (bytes: seq<uint8>)
    ensures |bytes| == MODULE_INFORMATION_SIZE && bytes[0] == m.head
  {
    [m.head, m.frequency, m.version, m.features]
  }

  function DecodeModuleInformation(bytes: seq<uint8>): (m: ModuleInformation)
    requires |bytes| == MODULE_INFORMATION_SIZE
    ensures EncodeModuleInformation(m) == bytes
  {
    ModuleInformation(bytes[0], bytes[1], bytes[2], bytes[3])
  }

  lemma ModuleInformationRoundTrip(m: ModuleInformation)
    ensures DecodeModuleInformation(EncodeModuleInformation(m)) == m
  {
  }

  // ---------------------------------------------------------------------
  // `EbyteVersionE28::getInfo`: "series(%02X) ver(%02X) feat(%02X)"
  // ---------------------------------------------------------------------

  const HEX_DIGITS: string := "0123456789ABCDEF"

  /** Two upper-case hexadecimal digits, as `%02X` prints a byte. */
  function Hex2(b: uint8): (s: string)
    ensures |s| == 2
  {
    [HEX_DIGITS[b / 16], HEX_DIGITS[b % 16]]
  }

  function HexDigitValue(c: char): Option<nat>
  {
    if '0' <= c <= '9' then Some(c as int - '0' as int)
    else if 'A' <= c <= 'F' then Some(c as int - 'A' as int + 10)
    else None
  }

  function ParseHex2(s: string): Option<uint8>
  {
    if |s| != 2 then None
    else match (HexDigitValue(s[0]), HexDigitValue(s[1]))
      case (Some(hi), Some(lo)) => if hi < 16 && lo < 16 then Some(16 * hi + lo) else None
      case _ => None
  }

  lemma HexDigitRoundTrip(n: nat)
    requires n < 16
    ensures HexDigitValue(HEX_DIGITS[n]) == Some(n)
  {
  }

  /** `%02X` loses nothing: the two digits parse back to the byte. */
  lemma {:induction false} Hex2RoundTrip(b: uint8)
    ensures ParseHex2(Hex2(b)) == Some(b)
  {
    HexDigitRoundTrip(b / 16);
    HexDigitRoundTrip(b % 16);
  }

  function VersionInfo(series: uint8, version: uint8, features: uint8): string
  {
    "series(" + Hex2(series) + ") ver(" + Hex2(version) + ") feat(" + Hex2(features) + ")"
  }

  /**
   * The formatted text always has 27 characters, so it fits the 30-byte
   * buffer it is printed into (with its terminator) and is never cut short;
   * the three bytes sit at fixed positions and can be read back.
   */
  lemma {:induction false} VersionInfoLayout(series: uint8, version: uint8, features: uint8)
    ensures var s := VersionInfo(series, version, features);
            |s| == 27 && |s| + 1 <= 30 &&
            ParseHex2(s[7..9]) == Some(series) &&
            ParseHex2(s[15..17]) == Some(version) &&
            ParseHex2(s[24..26]) == Some(features)
  {
    var s := VersionInfo(series, version, features);
    assert s[7..9] == Hex2(series);
    assert s[15..17] == Hex2(version);
    assert s[24..26] == Hex2(features);
    Hex2RoundTrip(series);
    Hex2RoundTrip(version);
    Hex2RoundTrip(features);
  }

  /**
   * `EbyteVersion`: a heap buffer of `maxlen` bytes that the identification
   * reply is read into.
   */
  class EbyteVersion {
    const maxlen: uint8
    const data: array<uint8>

    constructor (maxlen: uint8)
      ensures this.maxlen == maxlen && data.Length == maxlen && fresh(data)
    {
      this.maxlen := maxlen;
      data := new uint8[maxlen];
    }

    /** `EbyteVersionE28()`: the E28 reply is 4 bytes. */
    constructor E28()
      ensures maxlen == MODULE_INFORMATION_SIZE && data.Length == maxlen && fresh(data)
    {
      maxlen := MODULE_INFORMATION_SIZE;
      data := new uint8[MODULE_INFORMATION_SIZE];
    }

    /** The length reported is the size of the buffer allocated for the reply. */
    function GetLength(): (n: uint8)
      requires data.Length == maxlen
      ensures n == data.Length
    {
      maxlen
    }

    /** A reply is valid when it starts with the read-version command byte. */
    function IsValid(): (r: bool)
      reads data
      requires data.Length > 0
      ensures r <==> data[0] == CommandByte(ReadModuleVersion)
    {
      data[0] == READ_MODULE_VERSION
    }

    /** `EbyteVersionE28::getInfo`: series, version and features as hex. */
    function GetInfo(): (s: string)
      reads data
      requires data.Length >= MODULE_INFORMATION_SIZE
      ensures |s| == 27
      ensures ParseHex2(s[7..9]) == Some(data[1])
      ensures ParseHex2(s[15..17]) == Some(data[2])
      ensures ParseHex2(s[24..26]) == Some(data[3])
    {
      VersionInfoLayout(data[1], data[2], data[3]);
      VersionInfo(data[1], data[2], data[3])
    }
  }
}
