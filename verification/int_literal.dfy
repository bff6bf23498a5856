/** Python's `int(...)` on a string, the conversion the label pipeline applies
    to a raw label such as `'10'`, and its inverse `str(...)`. */
module IntLiteral {
  import opened Results

  predicate IsDigit(c: char) {
    '0' <= c <= '9'
  }

  predicate AllDigits(s: string) {
    forall i | 0 <= i < |s| :: IsDigit(s[i])
  }

  function DigitValue(c: char): (d: nat)
    requires IsDigit(c)
    ensures d < 10
  {
    (c as int) - ('0' as int)
  }

  function DigitChar(d: nat): (c: char)
    requires d < 10
    ensures IsDigit(c) && DigitValue(c) == d
  {
    (('0' as int) + d) as char
  }

  /** The value of a run of decimal digits, most significant digit first. */
  function DigitsValue(s: string): nat
    requires AllDigits(s)
  {
    if |s| == 0 then 0 else DigitsValue(s[..|s| - 1]) * 10 + DigitValue(s[|s| - 1])
  }

  /** `int(s)`: an optional sign followed by one or more decimal digits;
      anything else raises ValueError. */
  function ParseInt(s: string): Result<int> {
    if |s| > 0 && (s[0] == '+' || s[0] == '-') then
      var digits := s[1..];
      if |digits| > 0 && AllDigits(digits) then
        var magnitude: int := DigitsValue(digits);
        Success(if s[0] == '-' then -magnitude else magnitude)
      else
        Failure(ValueError(s))
    else if |s| > 0 && AllDigits(s) then
      Success(DigitsValue(s))
    else
      Failure(ValueError(s))
  }

  /** `str(n)` for a non-negative integer: shortest decimal rendering. */
  function ShowNat(n: nat): (s: string)
    ensures |s| > 0 && AllDigits(s)
    ensures DigitsValue(s) == n
    ensures |s| == 1 || s[0] != '0'
  {
    if n < 10 then
      var s := [DigitChar(n)];
      assert s[..0] == [];
      s
    else
      var p := ShowNat(n / 10);
      var s := p + [DigitChar(n % 10)];
      assert s[..|s| - 1] == p;
      assert p[..0] == [];
      s
  }

  /** `str(n)`: a minus sign in front of negative values. */
  function ShowInt(n: int): string {
    if n < 0 then "-" + ShowNat(-n) else ShowNat(n)
  }

  /** `int(str(n)) == n`: the two conversions form a round trip. */
  lemma ParseShowRoundTrip(n: int)
    ensures ParseInt(ShowInt(n)) == Success(n)
  {
    if n < 0 {
      var s := ShowInt(n);
      assert s[1..] == ShowNat(-n);
    } else {
      var s := ShowNat(n);
      assert IsDigit(s[0]);
    }
  }

  /** A string with no digit at all, the empty string among them, is rejected. */
  lemma ParseRejectsDigitless(s: string)
    requires forall i | 0 <= i < |s| :: !IsDigit(s[i])
    ensures ParseInt(s) == Failure(ValueError(s))
  {
    if |s| > 0 && (s[0] == '+' || s[0] == '-') && |s[1..]| > 0 {
      assert !IsDigit(s[1..][0]);
    } else if |s| > 0 {
      assert !IsDigit(s[0]);
    }
  }
}
