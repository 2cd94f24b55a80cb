/** Decimal numerals. */
module Decimals {

  predicate IsDigit(c: char) { '0' <= c <= '9' }

  function DigitValue(c: char): nat
    requires IsDigit(c)
  {
    (c as int) - ('0' as int)
  }

  /** The value of the leading digits, read on from so far. */
  function Digits(s: string, soFar: nat): nat {
    if s == [] || !IsDigit(s[0]) then soFar else Digits(s[1..], soFar * 10 + DigitValue(s[0]))
  }

  function DigitChar(d: nat): char
    requires d < 10
  {
    (d + '0' as int) as char
  }

  function Decimal(n: nat): (s: string)
    ensures s != [] && forall i :: 0 <= i < |s| ==> IsDigit(s[i])
  {
    if n < 10 then [DigitChar(n)] else Decimal(n / 10) + [DigitChar(n % 10)]
  }

  lemma {:induction false} DigitsAppend(s: string, c: char, soFar: nat)
    requires IsDigit(c) && forall i :: 0 <= i < |s| ==> IsDigit(s[i])
    ensures Digits(s + [c], soFar) == Digits(s, soFar) * 10 + DigitValue(c)
  {
    if s == [] {
      assert (s + [c])[1..] == [];
    } else {
      assert (s + [c])[1..] == s[1..] + [c];
      DigitsAppend(s[1..], c, soFar * 10 + DigitValue(s[0]));
    }
  }

  lemma {:induction false} DigitsOfDecimal(n: nat)
    ensures Digits(Decimal(n), 0) == n
  {
    if n >= 10 {
      DigitsOfDecimal(n / 10);
      DigitsAppend(Decimal(n / 10), DigitChar(n % 10), 0);
    }
  }

  lemma NoColon(n: nat)
    ensures ':' !in Decimal(n)
  {
    var s := Decimal(n);
    assert forall i :: 0 <= i < |s| ==> IsDigit(s[i]);
  }
}
