/**
 * The closed set of response statuses shared by both driver generations
 * (`ResponseStatus::Status` of the current driver, `RESPONSE_STATUS` of the
 * E34 driver), numbered consecutively from 1.
 */
module Status {
  import opened Types

  datatype Status =
    | Success
    | ErrUnknown
    | ErrNotSupport
    | ErrNotImplement
    | ErrNotInitial
    | ErrInvalidParam
    | ErrDataSizeNotMatch
    | ErrBufTooSmall
    | ErrTimeout
    | ErrHardware
    | ErrHeadNotRecognized
    | ErrNoResponseFromDevice
    | ErrWrongUartConfig
    | ErrPacketTooBig

  /** Which driver's `desc()` table to use: the two differ in two messages. */
  datatype Generation = Current | E34

  /** The enumerator value of a status: SUCCESS = 1, then one more per entry. */
  function Code(s: Status): (c: int)
    ensures 1 <= c <= 14
  {
    match s
    case Success => 1
    case ErrUnknown => 2
    case ErrNotSupport => 3
    case ErrNotImplement => 4
    case ErrNotInitial => 5
    case ErrInvalidParam => 6
    case ErrDataSizeNotMatch => 7
    case ErrBufTooSmall => 8
    case ErrTimeout => 9
    case ErrHardware => 10
    case ErrHeadNotRecognized => 11
    case ErrNoResponseFromDevice => 12
    case ErrWrongUartConfig => 13
    case ErrPacketTooBig => 14
  }

  /** The status an enumerator value names, if any. */
  function FromCode(c: int): (r: Option<Status>)
    ensures r.Some? <==> 1 <= c <= 14
    ensures r.Some? ==> Code(r.value) == c
  {
    if c == 1 then Some(Success)
    else if c == 2 then Some(ErrUnknown)
    else if c == 3 then Some(ErrNotSupport)
    else if c == 4 then Some(ErrNotImplement)
    else if c == 5 then Some(ErrNotInitial)
    else if c == 6 then Some(ErrInvalidParam)
    else if c == 7 then Some(ErrDataSizeNotMatch)
    else if c == 8 then Some(ErrBufTooSmall)
    else if c == 9 then Some(ErrTimeout)
    else if c == 10 then Some(ErrHardware)
    else if c == 11 then Some(ErrHeadNotRecognized)
    else if c == 12 then Some(ErrNoResponseFromDevice)
    else if c == 13 then Some(ErrWrongUartConfig)
    else if c == 14 then Some(ErrPacketTooBig)
    else None
  }

  /** Codes are consecutive and distinct: encoding then decoding is the identity. */
  lemma CodeRoundTrip(s: Status)
    ensures FromCode(Code(s)) == Some(s)
  {
  }

  lemma CodeInjective(s: Status, t: Status)
    requires Code(s) == Code(t)
    ensures s == t
  {
    CodeRoundTrip(s);
    CodeRoundTrip(t);
  }

  const InvalidStatusText: string := "Invalid status!"

  /** The message each generation's `desc()` gives for a status. */
  function DescOf(g: Generation, s: Status): string
  {
    if s == ErrWrongUartConfig then WrongUartText(g)
    else if s == ErrPacketTooBig then PacketTooBigText(g)
    else SharedText(s)
  }

  /** The messages both generations share. */
  function SharedText(s: Status): string
    requires s != ErrWrongUartConfig && s != ErrPacketTooBig
  {
    match s
    case Success => "Success"
    case ErrUnknown => "Unknown"
    case ErrNotSupport => "Not support!"
    case ErrNotImplement => "Not implement"
    case ErrNotInitial => "Not initial!"
    case ErrInvalidParam => "Invalid param!"
    case ErrDataSizeNotMatch => "Data size not match!"
    case ErrBufTooSmall => "Buff too small!"
    case ErrTimeout => "Timeout!!"
    case ErrHardware => "Hardware error!"
    case ErrHeadNotRecognized => "Save mode returned not recognized!"
    case ErrNoResponseFromDevice => "No response from device! (Check wiring)"
  }

  // The current generation builds the next two texts with `STR(...)`, which
  // stringifies the macro's name, not its value.

  function WrongUartText(g: Generation): string
  {
    if g == Current then "Wrong UART configuration! (BPS must be EBYTE_CONFIG_BAUD for configuration)"
    else "Wrong UART configuration! (BPS must be 9600 for configuration)"
  }

  function PacketTooBigText(g: Generation): string
  {
    if g == Current then "Support only EBYTE_MODULE_BUFFER_SIZE bytes of data transmission!"
    else "The device support only 58byte of data transmission!"
  }

  /**
   * `ResponseStatus::desc()`: total over every value the code field can hold;
   * exactly the values outside the enumeration read "Invalid status!".
   */
  function Desc(g: Generation, code: int): (d: string)
    ensures d == InvalidStatusText <==> !(1 <= code <= 14)
    ensures 1 <= code <= 14 ==> d == DescOf(g, FromCode(code).value)
  {
    match FromCode(code)
    case Some(s) => DescOf(g, s)
    case None => InvalidStatusText
  }

  /** The two generations differ only in the wrong-UART and packet-too-big messages. */
  lemma DescGenerationsAgree(s: Status)
    ensures DescOf(Current, s) == DescOf(E34, s) <==> s != ErrPacketTooBig && s != ErrWrongUartConfig
  {
    if s == ErrWrongUartConfig {
      WrongUartTextsDiffer();
    } else if s == ErrPacketTooBig {
      PacketTooBigTextsDiffer();
    }
  }

  lemma WrongUartTextsDiffer()
    ensures WrongUartText(Current) != WrongUartText(E34)
  {
    assert |WrongUartText(Current)| != |WrongUartText(E34)|;
  }

  lemma PacketTooBigTextsDiffer()
    ensures PacketTooBigText(Current) != PacketTooBigText(E34)
  {
    assert |PacketTooBigText(Current)| != |PacketTooBigText(E34)|;
  }

  /**
   * The source's chaining of steps, `if (status != SUCCESS) return status;`:
   * the first step's failure, else what the next step returns.
   */
  function AndThen(first: Status, next: Status): (st: Status)
    ensures st == Success <==> first == Success && next == Success
  {
    if first != Success then first else next
  }
}
