/**
 * Decimal numerals, as a JavaScript template literal prints a non-negative
 * integer (`${len}`): the shortest string of the digits 0-9, with no sign and
 * no leading zero. ParseDecimal reads such a numeral back; the round trip
 * shows that printing loses no information.
 */
module Decimal {
  import opened Wrappers

  predicate IsDigit(c: char) {
    '0' <= c <= '9'
  }

  /** The character of a single digit `d`. */
  function DigitChar(d: nat): (c: char)
    requires d < 10
    ensures IsDigit(c) && c as int - '0' as int == d
  {
    ('0' as int + d) as char
  }

  /** The value of a digit character, or None for any other character. */
  function DigitValue(c: char): (d: Option<nat>)
    ensures d.Some? <==> IsDigit(c)
    ensures d.Some? ==> d.value < 10 && DigitChar(d.value) == c
  {
    if IsDigit(c) then Some(c as int - '0' as int) else None
  }

  /** `${n}` for a non-negative integer `n`. */
  function NatToString(n: nat): (s: string)
    ensures |s| >= 1
    ensures forall i :: 0 <= i < |s| ==> IsDigit(s[i])
    ensures |s| == 1 <==> n < 10
    ensures n > 0 ==> s[0] != '0'
  {
    if n < 10 then [DigitChar(n)] else NatToString(n / 10) + [DigitChar(n % 10)]
  }

  /** Reads a non-empty string of digits as a number; anything else is None. */
  function ParseDecimal(s: string): (r: Option<nat>)
  {
    if |s| == 0 then None
    else
      var last := DigitValue(s[|s| - 1]);
      if last.None? then None
      else if |s| == 1 then last
      else
        match ParseDecimal(s[..|s| - 1])
        case None => None
        case Some(p) => Some(10 * p + last.value)
  }

  /** Printing a count and reading it back gives the count. */
  lemma {:induction false} ParseNatToString(n: nat)
    ensures ParseDecimal(NatToString(n)) == Some(n)
  {
    if n >= 10 {
      ParseNatToString(n / 10);
      var s := NatToString(n);
      assert s[..|s| - 1] == NatToString(n / 10);
      assert DigitValue(s[|s| - 1]) == Some(n % 10);
    }
  }

  /** Distinct counts print as distinct numerals. */
  lemma NatToStringInjective(m: nat, n: nat)
    requires NatToString(m) == NatToString(n)
    ensures m == n
  {
    ParseNatToString(m);
    ParseNatToString(n);
  }
}
