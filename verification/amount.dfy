/** Money amounts. zatca_app.py computes with binary floats and prints them with
    `"{:.2f}"`; here amounts are exact reals, printed with the same rule:
    the sign is kept and the magnitude is rounded to whole cents, ties to the
    even cent. `ParseAmount` is the reader that takes such text back to cents. */
module Amounts {
  import opened Wrappers
  import opened Digits

  /** The integer nearest to `y`; an exact tie goes to the even neighbour. */
  function RoundHalfEven(y: real): (r: int)
    ensures (r as real) - y <= 0.5 && y - (r as real) <= 0.5
    ensures ((r as real) - y == 0.5 || y - (r as real) == 0.5) ==> r % 2 == 0
  {
    var f := y.Floor;
    var frac := y - f as real;
    if frac < 0.5 then f
    else if frac > 0.5 then f + 1
    else if f % 2 == 0 then f else f + 1
  }

  /** Round-half-to-even is the only rounding with that contract. */
  lemma RoundingIsUnique(y: real, k: int)
    requires (k as real) - y <= 0.5 && y - (k as real) <= 0.5
    requires ((k as real) - y == 0.5 || y - (k as real) == 0.5) ==> k % 2 == 0
    ensures k == RoundHalfEven(y)
  {
  }

  /** The number of cents `"{:.2f}"` prints for `x`, with its sign: the
      nearest cent, an exact half-cent tie going to the even cent. */
  function SignedCents(x: real): (c: int)
    ensures (c as real) - 100.0 * x <= 0.5 && 100.0 * x - (c as real) <= 0.5
    ensures ((c as real) - 100.0 * x == 0.5 || 100.0 * x - (c as real) == 0.5) ==> c % 2 == 0
  {
    if x < 0.0 then -RoundHalfEven(-x * 100.0) else RoundHalfEven(x * 100.0)
  }

  /** The two cent digits of `d`, with a leading zero below ten. */
  function CentDigits(d: nat): (t: string)
    requires d < 100
    ensures |t| == 2 && AllDigits(t) && ParseDigits(t) == d
  {
    var t := [DigitChar(d / 10), DigitChar(d % 10)];
    assert t[..1] == [t[0]];
    assert t[..1][..0] == [];
    assert ParseDigits(t[..1]) == d / 10;
    t
  }

  /** Whole digits, a point and two digits read back as cents. */
  lemma ReadCents(whole: string, tail: string)
    requires |whole| > 0 && AllDigits(whole)
    requires |tail| == 2 && AllDigits(tail)
    ensures ParseUnsigned(whole + "." + tail) == Some(100 * ParseDigits(whole) + ParseDigits(tail))
    ensures '|' !in whole + "." + tail && '-' !in whole + "." + tail
  {
    var s := whole + "." + tail;
    assert s[..|s| - 3] == whole;
    assert s[|s| - 2..] == tail;
    assert s[|s| - 3] == '.';
    assert |s| >= 4 && AllDigits(s[..|s| - 3]) && AllDigits(s[|s| - 2..]);
    NoSignOrDelimiter(whole);
    NoSignOrDelimiter(tail);
  }

  lemma NoSignOrDelimiter(s: string)
    requires AllDigits(s)
    ensures '|' !in s && '-' !in s
  {
    assert forall i :: 0 <= i < |s| ==> s[i] != '|' && s[i] != '-';
  }

  /** An amount printed as `<digits>.<two digits>`. */
  function CentsText(c: nat): (s: string)
    ensures ParseUnsigned(s) == Some(c)
    ensures '|' !in s && '-' !in s
  {
    ReadCents(NatToString(c / 100), CentDigits(c % 100));
    NatToString(c / 100) + "." + CentDigits(c % 100)
  }

  /** Python's `"{:.2f}".format(x)`. */
  function FormatAmount(x: real): (s: string)
    ensures ParseAmount(s) == Some(SignedCents(x))
    ensures |s| > 0 && (s[0] == '-' <==> x < 0.0)
    ensures '|' !in s
  {
    if x < 0.0 then
      var s := "-" + CentsText(RoundHalfEven(-x * 100.0));
      assert s[1..] == CentsText(RoundHalfEven(-x * 100.0));
      s
    else CentsText(RoundHalfEven(x * 100.0))
  }

  /** Reads `<digits>.<two digits>` as a number of cents. */
  function ParseUnsigned(s: string): Option<nat> {
    if |s| >= 4 && s[|s| - 3] == '.' && AllDigits(s[..|s| - 3]) && AllDigits(s[|s| - 2..])
    then Some(100 * ParseDigits(s[..|s| - 3]) + ParseDigits(s[|s| - 2..]))
    else None
  }

  /** Reads an optionally negative two-decimal amount as signed cents. */
  function ParseAmount(s: string): Option<int> {
    if |s| > 0 && s[0] == '-' then
      match ParseUnsigned(s[1..])
      case Some(c) => Some(-(c as int))
      case None => None
    else
      match ParseUnsigned(s)
      case Some(c) => Some(c)
      case None => None
  }

  /** Zero prints as "0.00", the literal the builders write for zero
      amounts, and reads back as zero cents. */
  lemma ZeroText()
    ensures FormatAmount(0.0) == "0.00" && ParseAmount("0.00") == Some(0)
  {
    assert RoundHalfEven(0.0) == 0;
    assert NatToString(0) == "0";
    assert CentDigits(0) == "00";
  }

  /** A whole number of cents prints exactly. */
  lemma WholeCentsPrintExactly(c: int)
    ensures SignedCents(c as real / 100.0) == c
  {
    var x := c as real / 100.0;
    assert 100.0 * x == c as real;
    RoundingIsUnique(c as real, c);
    RoundingIsUnique(-(c as real), -c);
  }
}
