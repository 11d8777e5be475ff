/**
 * Java's boxed integer types as the entities' ids use them: their ranges,
 * Long.parseLong / Integer.parseInt / Short.parseShort, and the decimal text
 * that String.valueOf (and StringBuilder.append) produces for them.
 */
module JavaNumbers {
  import opened Wrappers

  const LONG_MIN: int := -0x8000_0000_0000_0000
  const LONG_MAX: int := 0x7FFF_FFFF_FFFF_FFFF
  const INT_MIN: int := -0x8000_0000
  const INT_MAX: int := 0x7FFF_FFFF
  const SHORT_MIN: int := -0x8000
  const SHORT_MAX: int := 0x7FFF

  type Long = x: int | LONG_MIN <= x <= LONG_MAX
  type Int = x: int | INT_MIN <= x <= INT_MAX
  type Short = x: int | SHORT_MIN <= x <= SHORT_MAX

  predicate IsDigit(c: char) {
    '0' <= c <= '9'
  }

  predicate AllDigits(s: string) {
    forall i :: 0 <= i < |s| ==> IsDigit(s[i])
  }

  function DigitChar(d: nat): char
    requires d < 10
  {
    ('0' as int + d) as char
  }

  /** The value of a run of decimal digits, most significant first. */
  function DigitsValue(s: string): nat
    requires AllDigits(s)
    decreases |s|
  {
    if s == [] then 0 else DigitsValue(s[..|s| - 1]) * 10 + (s[|s| - 1] as int - '0' as int)
  }

  /** The text a parse accepts: an optional sign, then one or more decimal digits. */
  predicate WellFormed(s: string) {
    var digits := if |s| > 0 && (s[0] == '-' || s[0] == '+') then s[1..] else s;
    |digits| > 0 && AllDigits(digits)
  }

  /**
   * The common grammar of Long.parseLong, Integer.parseInt and
   * Short.parseShort: an optional '-' or '+', then one or more decimal
   * digits, whose value must lie in [lo, hi]; None stands for the
   * NumberFormatException thrown otherwise.
   */
  function ParseDecimal(s: string, lo: int, hi: int): (r: Option<int>)
    ensures r.Some? <==> WellFormed(s) && lo <= SignedValue(s) <= hi
    ensures r.Some? ==> lo <= r.value <= hi && r.value == SignedValue(s)
  {
    if |s| == 0 then None
    else
      var signed := s[0] == '-' || s[0] == '+';
      var digits := if signed then s[1..] else s;
      if |digits| == 0 || !AllDigits(digits) then None
      else
        var v := if s[0] == '-' then 0 - DigitsValue(digits) as int else DigitsValue(digits) as int;
        if lo <= v <= hi then Some(v) else None
  }

  /** The value a well-formed text denotes, before the range check. */
  function SignedValue(s: string): int {
    if !WellFormed(s) then 0
    else if s[0] == '-' then 0 - DigitsValue(s[1..]) as int
    else if s[0] == '+' then DigitsValue(s[1..])
    else DigitsValue(s)
  }

  function ParseLong(s: string): Option<Long> {
    match ParseDecimal(s, LONG_MIN, LONG_MAX)
    case None => None
    case Some(v) => Some(v)
  }

  function ParseInt(s: string): Option<Int> {
    match ParseDecimal(s, INT_MIN, INT_MAX)
    case None => None
    case Some(v) => Some(v)
  }

  function ParseShort(s: string): Option<Short> {
    match ParseDecimal(s, SHORT_MIN, SHORT_MAX)
    case None => None
    case Some(v) => Some(v)
  }

  /** The decimal digits of a natural number, without leading zeros. */
  function NatToDigits(n: nat): (r: string)
    ensures |r| > 0 && AllDigits(r)
    decreases n
  {
    if n < 10 then [DigitChar(n)] else NatToDigits(n / 10) + [DigitChar(n % 10)]
  }

  /** Long.toString and friends: a '-' for negative values, then the digits. */
  function ToDecimal(v: int): string {
    if v < 0 then "-" + NatToDigits(-v) else NatToDigits(v)
  }

  lemma {:induction false} DigitsRoundTrip(n: nat)
    ensures DigitsValue(NatToDigits(n)) == n
    decreases n
  {
    var s := NatToDigits(n);
    if n >= 10 {
      DigitsRoundTrip(n / 10);
      assert s[..|s| - 1] == NatToDigits(n / 10);
    }
  }

  /** Every value in range survives printing and parsing back. */
  lemma ParseToDecimal(v: int, lo: int, hi: int)
    requires lo <= v <= hi
    ensures ParseDecimal(ToDecimal(v), lo, hi) == Some(v)
  {
    var s := ToDecimal(v);
    if v < 0 {
      DigitsRoundTrip(-v);
      assert s[1..] == NatToDigits(-v);
    } else {
      DigitsRoundTrip(v);
    }
  }

  /** The printed form is itself well formed and never "null" or empty. */
  lemma ToDecimalShape(v: int)
    ensures WellFormed(ToDecimal(v)) && ToDecimal(v) != "" && ToDecimal(v) != "null"
  {
    var s := ToDecimal(v);
    if v < 0 {
      assert s[1..] == NatToDigits(-v);
    }
    assert IsDigit(s[0]) || s[0] == '-';
  }

  /** A text with no digit, such as "null", "" or a lone sign, never parses. */
  lemma RejectsWithoutDigits(s: string, lo: int, hi: int)
    requires forall i :: 0 <= i < |s| ==> !IsDigit(s[i])
    ensures ParseDecimal(s, lo, hi) == None
  {
    if |s| > 0 && (s[0] == '-' || s[0] == '+') && |s| > 1 {
      assert !IsDigit(s[1..][0]);
    } else if |s| > 0 {
      assert !IsDigit(s[0]);
    }
  }
}
