/**
 * Operating modes. The E34 and the current driver select a mode with two
 * pins M0/M1 (codes 0..3); the E28 has a third pin and numbers its modes
 * 0 and 4..7.
 */
module Modes {
  import opened Types

  const MODE_0_FIXED: uint8 := 0
  const MODE_1_HOPPING: uint8 := 1
  const MODE_2_RESERVED: uint8 := 2
  const MODE_3_SLEEP: uint8 := 3
  /** Sleep and program share code 3: the module is configured while asleep. */
  const MODE_3_PROGRAM: uint8 := 3
  const MODE_INIT: uint8 := 0xFF

  /** The codes `setMode` can drive onto the two mode pins. */
  predicate IsPinMode(code: int)
  {
    0 <= code <= 3
  }

  /** Pin levels of a mode code: M0 carries bit 0, M1 bit 1. */
  function PinLevels(code: int): (levels: (bool, bool))
    requires IsPinMode(code)
    ensures (if levels.0 then 1 else 0) + (if levels.1 then 2 else 0) == code
  {
    (code % 2 == 1, code / 2 == 1)
  }

  /** Two codes with the same pin levels are the same code. */
  lemma {:induction false} PinLevelsInjective(a: int, b: int)
    requires IsPinMode(a) && IsPinMode(b)
    requires PinLevels(a) == PinLevels(b)
    ensures a == b
  {
    var la, lb := PinLevels(a), PinLevels(b);
    assert (if la.0 then 1 else 0) + (if la.1 then 2 else 0) == a;
    assert (if lb.0 then 1 else 0) + (if lb.1 then 2 else 0) == b;
  }

  /**
   * The pin map after `setMode(code)` drives M0 to bit 0 and then M1 to
   * bit 1 of the code; when both are one pin, the M1 level is what remains.
   */
  function DrivePins(p: map<int, bool>, m0: int, m1: int, code: int): (r: map<int, bool>)
    requires IsPinMode(code)
    ensures r.Keys == p.Keys + {m0, m1}
    ensures r[m1] == PinLevels(code).1
    ensures m0 != m1 ==> r[m0] == PinLevels(code).0
    ensures forall x :: x in p && x != m0 && x != m1 ==> r[x] == p[x]
  {
    p[m0 := PinLevels(code).0][m1 := PinLevels(code).1]
  }

  /** The mode two pins select, read back from their levels. */
  function PinsMode(p: map<int, bool>, m0: int, m1: int): int
    requires m0 in p && m1 in p
  {
    (if p[m0] then 1 else 0) + (if p[m1] then 2 else 0)
  }

  /** With two distinct mode pins, the levels driven encode exactly the mode. */
  lemma {:induction false} DrivePinsSelectsMode(p: map<int, bool>, m0: int, m1: int, code: int)
    requires IsPinMode(code) && m0 != m1
    ensures PinsMode(DrivePins(p, m0, m1, code), m0, m1) == code
  {
    var r := DrivePins(p, m0, m1, code);
    assert r[m0] == PinLevels(code).0;
    assert r[m1] == PinLevels(code).1;
  }

  /** Driving a mode over another leaves the same pins as driving it alone: restoring works. */
  lemma {:induction false} DrivePinsOverwrite(p: map<int, bool>, m0: int, m1: int, a: int, b: int)
    requires IsPinMode(a) && IsPinMode(b)
    ensures DrivePins(DrivePins(p, m0, m1, a), m0, m1, b) == DrivePins(p, m0, m1, b)
  {
    var l, r := DrivePins(DrivePins(p, m0, m1, a), m0, m1, b), DrivePins(p, m0, m1, b);
    assert l.Keys == r.Keys;
    forall x | x in l.Keys
      ensures l[x] == r[x]
    {
      if x != m0 && x != m1 {
        assert l[x] == DrivePins(p, m0, m1, a)[x] == p[x];
      }
    }
  }

  lemma ModeTableNamesTheCodes()
    ensures MODE_3_SLEEP == MODE_3_PROGRAM
    ensures forall c :: IsPinMode(c) <==> c in {MODE_0_FIXED as int, MODE_1_HOPPING as int, MODE_2_RESERVED as int, MODE_3_SLEEP as int}
    ensures !IsPinMode(MODE_INIT)
  {
  }

  // ---------------------------------------------------------------------
  // E28 modes (`EbyteModeE28`)
  // ---------------------------------------------------------------------

  const E28_MODE_DEFAULT: uint8 := 0 + 4
  const E28_MODE_CONFIG: uint8 := 3 + 4

  const E28_INVALID_MODE_TEXT: string := "Invalid mode!"

  function E28Description(code: uint8): (d: string)
    ensures d == E28_INVALID_MODE_TEXT <==> !(code == 0 || 4 <= code <= 7)
  {
    if code == 4 then "Transmission mode"
    else if code == 5 then "RSSI mode"
    else if code == 6 then "Reservation mode"
    else if code == 7 then "Sleep/Setting mode"
    else if code == 0 then "Low-power mode"
    else E28_INVALID_MODE_TEXT
  }

  /** The mode object of the E28: a code that starts at 0 (`EbyteMode(uint8_t code = 0)`). */
  class EbyteModeE28 {
    var code: uint8

    constructor (code: uint8 := 0)
      ensures this.code == code
    {
      this.code := code;
    }

    function GetMode(): uint8
      reads this
    {
      code
    }

    method SetMode(code: uint8)
      modifies this
      ensures GetMode() == code
    {
      this.code := code;
    }

    method SetModeDefault()
      modifies this
      ensures GetMode() == E28_MODE_DEFAULT && IsModeCorrect() && !IsModeConfig()
    {
      code := E28_MODE_DEFAULT;
    }

    method SetModeConfig()
      modifies this
      ensures GetMode() == E28_MODE_CONFIG && IsModeConfig()
    {
      code := E28_MODE_CONFIG;
    }

    predicate IsModeConfig()
      reads this
    {
      code == E28_MODE_CONFIG
    }

    /** Accepts every code up to 7, including 1..3, which the description calls invalid. */
    predicate IsModeCorrect()
      reads this
    {
      code <= E28_MODE_CONFIG
    }

    function Description(): (d: string)
      reads this
      ensures d == E28Description(code)
    {
      E28Description(code)
    }
  }

  /** The configuration mode is a correct mode. */
  lemma ConfigIsCorrect(code: uint8)
    requires code == E28_MODE_CONFIG
    ensures code <= E28_MODE_CONFIG && E28Description(code) != E28_INVALID_MODE_TEXT
  {
  }

  /**
   * `isModeCorrect` and `description` disagree exactly on codes 1..3: they
   * pass the check but are described as invalid.
   */
  lemma {:induction false} CorrectButDescribedInvalid(code: uint8)
    ensures (code <= E28_MODE_CONFIG && E28Description(code) == E28_INVALID_MODE_TEXT) <==> 1 <= code <= 3
  {
  }
}
