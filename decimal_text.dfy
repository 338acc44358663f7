/**
 * The decimal text in which the account record keeps its "preset" custom
 * field: QString::number writes an int, QString::toInt reads one back and
 * gives 0 for text that is not a number or does not fit in an int.
 */
module DecimalText {
  import opened Wrappers

  /** A C++ int. */
  type Int32 = x: int | -0x8000_0000 <= x < 0x8000_0000

  predicate IsDigit(c: char) {
    '0' <= c <= '9'
  }

  predicate AllDigits(s: string) {
    forall i :: 0 <= i < |s| ==> IsDigit(s[i])
  }

  function DigitChar(d: nat): (c: char)
    requires d < 10
    ensures IsDigit(c) && c as int - '0' as int == d
  {
    ('0' as int + d) as char
  }

  /** The decimal digits of n, most significant first, without leading zeros. */
  function Digits(n: nat): (s: string)
    ensures |s| > 0 && AllDigits(s)
    ensures n > 0 ==> s[0] != '0'
  {
    if n < 10 then [DigitChar(n)] else Digits(n / 10) + [DigitChar(n % 10)]
  }

  /** The value of a string of digits. */
  function DigitsValue(s: string): (n: nat)
    requires AllDigits(s)
  {
    if s == [] then 0
    else DigitsValue(s[..|s| - 1]) * 10 + (s[|s| - 1] as int - '0' as int)
  }

  /** QString::number(n): the decimal text of n, with a leading '-' when negative. */
  function Number(n: int): (s: string)
    ensures |s| > 0
    ensures n < 0 <==> s[0] == '-'
  {
    if n < 0 then "-" + Digits(-n) else Digits(n)
  }

  /** The value a sign and digits denote, when s has that form. */
  function Signed(s: string): (r: Option<int>)
  {
    if |s| > 1 && (s[0] == '-' || s[0] == '+') && AllDigits(s[1..]) then
      Some(if s[0] == '-' then -(DigitsValue(s[1..]) as int) else DigitsValue(s[1..]))
    else if |s| > 0 && AllDigits(s) then Some(DigitsValue(s))
    else None
  }

  /** QString::toInt: the int the text denotes, or 0 when it denotes none or one out of range. */
  function ToInt(s: string): (r: Int32)
    ensures Signed(s).None? ==> r == 0
    ensures Signed(s).Some? && -0x8000_0000 <= Signed(s).value < 0x8000_0000 ==> r == Signed(s).value
    ensures Signed(s).Some? && !(-0x8000_0000 <= Signed(s).value < 0x8000_0000) ==> r == 0
  {
    var v := Signed(s);
    if v.Some? && -0x8000_0000 <= v.value < 0x8000_0000 then v.value else 0
  }

  /** Reading back the digits of n gives n. */
  lemma {:induction false} DigitsRoundTrip(n: nat)
    ensures DigitsValue(Digits(n)) == n
  {
    if n >= 10 {
      DigitsRoundTrip(n / 10);
      var s := Digits(n);
      assert s[..|s| - 1] == Digits(n / 10);
    }
  }

  /** Digits alone read as their value: no sign is taken from a leading digit. */
  lemma SignedDigits(m: nat)
    ensures Signed(Digits(m)) == Some(m)
  {
    var s := Digits(m);
    assert IsDigit(s[0]);
    DigitsRoundTrip(m);
  }

  /** A '-' followed by the digits of m reads as -m. */
  lemma SignedNegative(m: nat)
    ensures Signed("-" + Digits(m)) == Some(-(m as int))
  {
    var s := "-" + Digits(m);
    assert s[1..] == Digits(m);
    DigitsRoundTrip(m);
  }

  /** toInt(number(n)) == n for every int n: the preset field round-trips. */
  lemma NumberRoundTrip(n: Int32)
    ensures ToInt(Number(n)) == n
  {
    if n < 0 {
      SignedNegative(-(n as int));
    } else {
      SignedDigits(n);
    }
  }

  /** Text that is not a number, such as the empty text of a missing field, reads as 0. */
  lemma EmptyReadsZero()
    ensures ToInt("") == 0
  {
  }
}
