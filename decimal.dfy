/** Decimal conversion of integers, standing for Go's strconv.Itoa and
    strconv.Atoi on mathematical (unbounded) integers. */
module Decimal {
  import opened Wrappers

  predicate IsDigit(c: char) {
    '0' <= c <= '9'
  }

  predicate AllDigits(s: string) {
    forall i :: 0 <= i < |s| ==> IsDigit(s[i])
  }

  function DigitChar(d: nat): (c: char)
    requires d < 10
    ensures IsDigit(c)
  {
    ['0', '1', '2', '3', '4', '5', '6', '7', '8', '9'][d]
  }

  function DigitValue(c: char): (d: nat)
    requires IsDigit(c)
    ensures d < 10 && DigitChar(d) == c
  {
    (c as int - '0' as int) as nat
  }

  /** The shortest decimal digit string of n: no leading zeros, "0" for zero. */
  function NatToDigits(n: nat): (s: string)
    ensures |s| > 0 && AllDigits(s)
    ensures |s| > 1 ==> s[0] != '0'
    decreases n
  {
    if n < 10 then [DigitChar(n)] else NatToDigits(n / 10) + [DigitChar(n % 10)]
  }

  /** The value of a string of decimal digits, read most significant first. */
  function DigitsToNat(s: string): nat
    requires AllDigits(s)
  {
    if |s| == 0 then 0 else DigitsToNat(s[..|s| - 1]) * 10 + DigitValue(s[|s| - 1])
  }

  /** strconv.Itoa: an optional minus sign followed by the digits of |n|. */
  function Itoa(n: int): string {
    if n < 0 then "-" + NatToDigits(-n) else NatToDigits(n)
  }

  /** strconv.Atoi: an optional sign followed by at least one decimal digit;
      anything else is a syntax error. */
  function Atoi(s: string): Option<int> {
    if |s| > 0 && (s[0] == '-' || s[0] == '+') then
      if |s| > 1 && AllDigits(s[1..]) then
        var v: int := DigitsToNat(s[1..]);
        Some(if s[0] == '-' then -v else v)
      else None
    else if |s| > 0 && AllDigits(s) then Some(DigitsToNat(s))
    else None
  }

  /** Atoi accepts exactly an optional sign followed by at least one digit. */
  lemma AtoiAccepts(s: string)
    ensures Atoi(s).Some? <==> (|s| > 0 && AllDigits(s)) ||
                               (|s| > 1 && (s[0] == '-' || s[0] == '+') && AllDigits(s[1..]))
  {
    if |s| > 0 && (s[0] == '-' || s[0] == '+') {
      assert !IsDigit(s[0]);
    }
  }

  /** The value of an accepted string: the digits' value, negated after a
      minus sign. */
  lemma AtoiValue(s: string)
    requires Atoi(s).Some?
    ensures s[0] == '-' ==> Atoi(s).value == -(DigitsToNat(s[1..]) as int)
    ensures s[0] == '+' ==> Atoi(s).value == DigitsToNat(s[1..])
    ensures IsDigit(s[0]) ==> Atoi(s).value == DigitsToNat(s)
  {
  }

  lemma {:induction false} DigitsRoundTrip(n: nat)
    ensures DigitsToNat(NatToDigits(n)) == n
    decreases n
  {
    var s := NatToDigits(n);
    if n >= 10 {
      DigitsRoundTrip(n / 10);
      assert s[..|s| - 1] == NatToDigits(n / 10);
    }
  }

  /** Atoi reads back exactly what Itoa wrote. */
  lemma AtoiItoa(n: int)
    ensures Atoi(Itoa(n)) == Some(n)
  {
    if n < 0 {
      NegativeRoundTrip(n);
    } else {
      UnsignedRoundTrip(n);
    }
  }

  /** A negative number is written as a minus sign before the digits of its
      magnitude, and reads back from them. */
  lemma NegativeRoundTrip(n: int)
    requires n < 0
    ensures Atoi(Itoa(n)) == Some(n)
  {
    ItoaNegative(n);
    DigitsRoundTrip(-n);
    AtoiMinus(Itoa(n), -n);
  }

  /** A negative number is written as a minus sign before the digits of its
      magnitude. */
  lemma ItoaNegative(n: int)
    requires n < 0
    ensures |Itoa(n)| > 1 && Itoa(n)[0] == '-' && Itoa(n)[1..] == NatToDigits(-n)
  {
  }

  /** A minus sign before the digits of m reads back as -m. */
  lemma AtoiMinus(s: string, m: nat)
    requires |s| > 1 && s[0] == '-' && AllDigits(s[1..]) && DigitsToNat(s[1..]) == m
    ensures Atoi(s) == Some(-(m as int))
  {
  }

  /** A non-negative number is written as its bare digits and reads back
      from them. */
  lemma UnsignedRoundTrip(n: nat)
    ensures Atoi(Itoa(n)) == Some(n)
  {
    var d := NatToDigits(n);
    assert Itoa(n) == d;
    assert d[0] != '-' && d[0] != '+' by { assert IsDigit(d[0]); }
    DigitsRoundTrip(n);
  }

  /** The rendering of an integer is never empty and starts with a digit or a
      minus sign followed by a digit. */
  lemma ItoaShape(n: int)
    ensures |Itoa(n)| > 0
    ensures IsDigit(Itoa(n)[0]) || (Itoa(n)[0] == '-' && |Itoa(n)| > 1 && AllDigits(Itoa(n)[1..]))
    ensures forall i :: 0 <= i < |Itoa(n)| ==> Itoa(n)[i] == '-' || IsDigit(Itoa(n)[i])
  {
    if n < 0 {
      assert Itoa(n)[1..] == NatToDigits(-n);
    }
  }
}
