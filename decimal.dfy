/** Decimal text of natural numbers, as JavaScript's `String(n)` and
    Python's `str(n)` print them, and its inverse. */
module Decimal {

  function DigitChar(d: nat): (c: char)
    requires d < 10
  {
    ['0', '1', '2', '3', '4', '5', '6', '7', '8', '9'][d]
  }

  predicate IsDigit(c: char) { '0' <= c <= '9' }

  function DigitValue(c: char): (d: nat)
    requires IsDigit(c)
    ensures d < 10
  {
    (c as int) - ('0' as int)
  }

  lemma DigitCharValue(d: nat)
    requires d < 10
    ensures IsDigit(DigitChar(d)) && DigitValue(DigitChar(d)) == d
  {
  }

  /** `String(n)`: the shortest decimal text of `n`. */
  function DigitString(n: nat): (s: string)
    ensures |s| >= 1
    ensures forall i :: 0 <= i < |s| ==> IsDigit(s[i])
    ensures n < 10 <==> |s| == 1
    decreases n
  {
    DigitCharValue(n % 10);
    if n < 10 then [DigitChar(n)] else DigitString(n / 10) + [DigitChar(n % 10)]
  }

  /** The status code of a rejected request prints as "400". */
  lemma DigitString400()
    ensures DigitString(400) == "400"
  {
    assert DigitString(4) == "4";
    assert DigitString(40) == "40";
  }

  /** The value of a text made of decimal digits (leading zeros allowed). */
  function ParseDigits(s: string): nat
    requires forall i :: 0 <= i < |s| ==> IsDigit(s[i])
  {
    if s == [] then 0 else 10 * ParseDigits(s[..|s| - 1]) + DigitValue(s[|s| - 1])
  }

  lemma {:induction false} ParseDigitString(n: nat)
    ensures ParseDigits(DigitString(n)) == n
    decreases n
  {
    DigitCharValue(n % 10);
    var s := DigitString(n);
    if n < 10 {
      assert s[..0] == [];
    } else {
      ParseDigitString(n / 10);
      assert s[..|s| - 1] == DigitString(n / 10);
    }
  }

  lemma {:induction false} ParseLeadingZero(s: string)
    requires forall i :: 0 <= i < |s| ==> IsDigit(s[i])
    ensures forall i :: 0 <= i < |['0'] + s| ==> IsDigit((['0'] + s)[i])
    ensures ParseDigits(['0'] + s) == ParseDigits(s)
  {
    if s == [] {
      assert (['0'] + s)[..0] == [];
    } else {
      assert (['0'] + s)[..|s|] == ['0'] + s[..|s| - 1];
      ParseLeadingZero(s[..|s| - 1]);
    }
  }
}
