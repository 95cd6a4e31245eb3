/** Decimal numerals: how a number is written into a message or a token
    (`String(n)` and template literals) and read back. */
module Numerals {
  import opened Common

  predicate IsDigit(c: char) {
    '0' <= c <= '9'
  }

  function DigitChar(d: nat): (c: char)
    requires d < 10
    ensures IsDigit(c) && c as int - '0' as int == d
  {
    ('0' as int + d) as char
  }

  function DigitValue(c: char): (d: nat)
    requires IsDigit(c)
    ensures d < 10 && DigitChar(d) == c
  {
    c as int - '0' as int
  }

  /** The decimal numeral of `n`, most significant digit first. */
  function NatText(n: nat): (s: string)
    ensures |s| >= 1
    ensures forall i :: 0 <= i < |s| ==> IsDigit(s[i])
    decreases n
  {
    if n < 10 then [DigitChar(n)] else NatText(n / 10) + [DigitChar(n % 10)]
  }

  /** Reads a non-empty string of decimal digits; anything else is rejected. */
  function ParseNat(s: string): (r: Option<nat>)
    ensures r.Some? ==> |s| >= 1 && forall i :: 0 <= i < |s| ==> IsDigit(s[i])
    ensures (|s| >= 1 && forall i :: 0 <= i < |s| ==> IsDigit(s[i])) ==> r.Some?
    decreases |s|
  {
    if |s| == 0 || !IsDigit(s[|s| - 1]) then None
    else if |s| == 1 then Some(DigitValue(s[0]))
    else match ParseNat(s[..|s| - 1])
      case None => None
      case Some(m) => Some(m * 10 + DigitValue(s[|s| - 1]))
  }

  /** Reading a numeral gives back the number it was written from. */
  lemma {:induction false} ParseNatText(n: nat)
    ensures ParseNat(NatText(n)) == Some(n)
    decreases n
  {
    if n >= 10 {
      var s := NatText(n);
      ParseNatText(n / 10);
      assert s[..|s| - 1] == NatText(n / 10);
    }
  }

  /** A signed integer: a '-' sign before the numeral of its magnitude. */
  function IntText(i: int): (s: string)
    ensures |s| >= 1
  {
    if i < 0 then "-" + NatText(-i) else NatText(i)
  }

  function ParseInt(s: string): (r: Option<int>)
    ensures r.Some? && s != [] && s[0] != '-' ==> r.value >= 0
  {
    if s != [] && s[0] == '-' then
      match ParseNat(s[1..])
        case None => None
        case Some(m) => Some(-(m as int))
    else
      match ParseNat(s)
        case None => None
        case Some(m) => Some(m as int)
  }

  lemma ParseIntText(i: int)
    ensures ParseInt(IntText(i)) == Some(i)
  {
    ParseNatText(if i < 0 then -i else i);
    if i < 0 {
      assert IntText(i)[1..] == NatText(-i);
    }
  }
}
