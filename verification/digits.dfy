/** Decimal rendering of integers as Python's `str(n)` and `f"{n:03d}"` print
    them, together with the parser that reads such text back. */
module Digits {
  import opened Wrappers

  predicate IsDigit(c: char) {
    '0' <= c <= '9'
  }

  predicate AllDigits(s: string) {
    forall i :: 0 <= i < |s| ==> IsDigit(s[i])
  }

  function DigitValue(c: char): (d: nat)
    requires IsDigit(c)
    ensures d < 10
  {
    c as int - '0' as int
  }

  function DigitChar(d: nat): (c: char)
    requires d < 10
    ensures IsDigit(c) && DigitValue(c) == d
  {
    ('0' as int + d) as char
  }

  /** The value of a non-empty or empty run of decimal digits, most
      significant first; leading zeros do not change the value. */
  function ParseDigits(s: string): nat
    requires AllDigits(s)
  {
    if |s| == 0 then 0
    else 10 * ParseDigits(s[..|s| - 1]) + DigitValue(s[|s| - 1])
  }

  /** Reads an unsigned decimal literal; anything else is rejected. */
  function ParseNat(s: string): Option<nat> {
    if |s| > 0 && AllDigits(s) then Some(ParseDigits(s)) else None
  }

  /** Reads an optionally negative decimal literal. */
  function ParseInt(s: string): Option<int> {
    if |s| > 0 && s[0] == '-' then
      match ParseNat(s[1..])
      case Some(n) => Some(-(n as int))
      case None => None
    else
      match ParseNat(s)
      case Some(n) => Some(n)
      case None => None
  }

  /** `str(n)` for a non-negative integer: shortest decimal text, no leading
      zero, which reads back as `n`. */
  function NatToString(n: nat): (s: string)
    ensures |s| > 0 && AllDigits(s)
    ensures ParseDigits(s) == n
    ensures |s| > 1 ==> s[0] != '0'
    decreases n
  {
    if n < 10 then [DigitChar(n)]
    else
      var prefix := NatToString(n / 10);
      var s := prefix + [DigitChar(n % 10)];
      assert s[..|s| - 1] == prefix;
      s
  }

  /** `str(i)` for any integer: an optional minus, then the shortest
      decimal text of the magnitude. */
  function IntToString(i: int): (s: string)
    ensures ParseInt(s) == Some(i)
    ensures i >= 0 <==> (|s| > 0 && s[0] != '-')
    ensures i < 0 ==> |s| > 1 && s[1] != '0'
    ensures i >= 0 && |s| > 1 ==> s[0] != '0'
  {
    if i < 0 then
      var s := "-" + NatToString(-i);
      assert s[1..] == NatToString(-i);
      s
    else NatToString(i)
  }

  function Zeros(k: nat): (z: string)
    ensures |z| == k
    ensures forall i :: 0 <= i < k ==> z[i] == '0'
  {
    if k == 0 then "" else "0" + Zeros(k - 1)
  }

  /** Leading zeros never change the value of a digit run. */
  lemma {:induction false} ZerosDoNotCount(k: nat, s: string)
    requires AllDigits(s)
    ensures AllDigits(Zeros(k) + s)
    ensures ParseDigits(Zeros(k) + s) == ParseDigits(s)
    decreases |s|
  {
    var z := Zeros(k);
    if |s| == 0 {
      assert z + s == z;
      AllZerosParseToZero(k);
    } else {
      var init := s[..|s| - 1];
      ZerosDoNotCount(k, init);
      assert (z + s)[..|z + s| - 1] == z + init;
      assert (z + s)[|z + s| - 1] == s[|s| - 1];
    }
  }

  lemma {:induction false} AllZerosParseToZero(k: nat)
    ensures AllDigits(Zeros(k))
    ensures ParseDigits(Zeros(k)) == 0
  {
    if k > 0 {
      AllZerosParseToZero(k - 1);
      var z := Zeros(k);
      assert z[..|z| - 1] == Zeros(k - 1) by {
        ZerosSnoc(k - 1);
      }
    }
  }

  lemma {:induction false} ZerosSnoc(k: nat)
    ensures Zeros(k + 1) == Zeros(k) + "0"
  {
    if k > 0 {
      ZerosSnoc(k - 1);
    }
  }

  /** `f"{n:03d}"`: the decimal text of `n` left-padded with zeros to at
      least three characters; it still reads back as `n`. */
  function Pad3(n: nat): (s: string)
    ensures |s| == if |NatToString(n)| >= 3 then |NatToString(n)| else 3
    ensures AllDigits(s) && ParseDigits(s) == n
    ensures n >= 100 ==> s == NatToString(n)
  {
    var t := NatToString(n);
    var pad := if |t| >= 3 then 0 else 3 - |t|;
    ZerosDoNotCount(pad, t);
    ThreeDigitsFromHundred(n);
    Zeros(pad) + t
  }

  lemma ThreeDigitsFromHundred(n: nat)
    ensures n >= 100 ==> |NatToString(n)| >= 3
  {
    if n >= 100 {
      var m := n / 10;
      assert m >= 10;
      assert |NatToString(m)| >= 2;
      assert |NatToString(n)| == |NatToString(m)| + 1;
    }
  }
}
