/**
 * String validation used when parsing console commands: `is_numeric` and
 * `extract_int`. `String::toInt` is the Arduino conversion; it is taken as
 * a parameter, about which only what the code relies on is assumed.
 */
module Helper {

  predicate IsDigit(c: char)
  {
    '0' <= c <= '9'
  }

  /**
   * What `is_numeric` accepts: a non-empty string of digits with at most
   * one '.'; no digit is required, and nothing else (sign, space, letter)
   * is allowed.
   */
  predicate Numeric(s: string)
  {
    |s| > 0 &&
    (forall i :: 0 <= i < |s| ==> IsDigit(s[i]) || s[i] == '.') &&
    (forall i, j :: 0 <= i < j < |s| && s[i] == '.' ==> s[j] != '.')
  }

  /** `is_numeric`: one pass over the characters, remembering whether a '.' was seen. */
  method IsNumeric(s: string) returns (r: bool)
    ensures r == Numeric(s)
  {
    if |s| == 0 {
      return false;
    }
    var seenDecimal := false;
    var i := 0;
    while i < |s|
      invariant 0 <= i <= |s|
      invariant forall k :: 0 <= k < i ==> IsDigit(s[k]) || s[k] == '.'
      invariant forall k, l :: 0 <= k < l < i && s[k] == '.' ==> s[l] != '.'
      invariant seenDecimal <==> exists k :: 0 <= k < i && s[k] == '.'
    {
      if IsDigit(s[i]) {
        i := i + 1;
        continue;
      }
      if s[i] == '.' {
        if seenDecimal {
          return false;
        }
        seenDecimal := true;
        i := i + 1;
        continue;
      }
      return false;
    }
    return true;
  }

  /** A second '.' anywhere makes the string non-numeric. */
  lemma TwoDotsNotNumeric(s: string, i: nat, j: nat)
    requires i < j < |s| && s[i] == '.' && s[j] == '.'
    ensures !Numeric(s)
  {
  }

  /** Any character that is neither a digit nor '.' makes the string non-numeric. */
  lemma ForeignCharNotNumeric(s: string, i: nat)
    requires i < |s| && !IsDigit(s[i]) && s[i] != '.'
    ensures !Numeric(s)
  {
  }

  /** Examples: the empty string is not numeric, "." and "5." are, "-5" and "1.2.3" are not. */
  lemma NumericExamples()
    ensures !Numeric("") && Numeric(".") && Numeric("5.") && Numeric("0")
    ensures !Numeric("-5") && !Numeric("1.2.3")
  {
    ForeignCharNotNumeric("-5", 0);
    TwoDotsNotNumeric("1.2.3", 1, 3);
  }

  /**
   * `extract_int` as written: it converts with `toInt`; a zero result is
   * accepted (and stored through `ret`) only when the string is numeric,
   * and a non-zero result is accepted WITHOUT being stored, so `ret` keeps
   * whatever it held.
   */
  method ExtractIntAsWritten(str: string, toInt: string -> int, ret: int) returns (ok: bool, retOut: int)
    ensures toInt(str) == 0 ==> ok == Numeric(str) && retOut == (if ok then 0 else ret)
    ensures toInt(str) != 0 ==> ok && retOut == ret
  {
    var id := toInt(str);
    retOut := ret;
    if id == 0 {
      var numeric := IsNumeric(str);
      if numeric {
        retOut := id;
        return true, retOut;
      }
      return false, retOut;
    }
    return true, retOut;
  }

  /** "42" converts to 42, is reported as extracted, and the caller's variable still holds 0. */
  method ExtractIntLosesValue() returns (ok: bool, retOut: int)
    ensures ok && retOut == 0 && retOut != 42
  {
    ok, retOut := ExtractIntAsWritten("42", s => if s == "42" then 42 else 0, 0);
  }

  /**
   * `extract_int` as intended: on success the caller's variable holds the
   * converted number; on failure it is left alone.
   */
  method ExtractInt(str: string, toInt: string -> int, ret: int) returns (ok: bool, retOut: int)
    ensures ok <==> toInt(str) != 0 || Numeric(str)
    ensures retOut == if ok then toInt(str) else ret
  {
    var id := toInt(str);
    retOut := ret;
    if id == 0 {
      var numeric := IsNumeric(str);
      if numeric {
        retOut := id;
        return true, retOut;
      }
      return false, retOut;
    }
    return true, id;
  }
}
