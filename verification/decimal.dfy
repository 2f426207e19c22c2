/**
 Decimal text of integers, as Java's string concatenation writes an `int`
 (`Integer.toString`: an optional '-' followed by digits without leading
 zeros), and the parser that reads it back.
 */
module Decimal {
  import opened Options

  function DigitChar(d: nat): (c: char)
    requires d < 10
    ensures '0' <= c <= '9'
  {
    ('0' as int + d) as char
  }

  function DigitValue(c: char): (d: nat)
    requires '0' <= c <= '9'
    ensures d < 10
    ensures DigitChar(d) == c
  {
    c as int - '0' as int
  }

  predicate IsDigits(s: string) {
    |s| > 0 && forall i :: 0 <= i < |s| ==> '0' <= s[i] <= '9'
  }

  /** The digits of `n`, most significant first. */
  function NatToString(n: nat): (s: string)
    ensures IsDigits(s)
    ensures n < 10 <==> |s| == 1
    decreases n
  {
    if n < 10 then [DigitChar(n)] else NatToString(n / 10) + [DigitChar(n % 10)]
  }

  /** What `"" + i` yields for a Java `int` i. */
  function IntToString(i: int): (s: string)
    ensures |s| > 0
    ensures forall k :: 0 <= k < |s| ==> s[k] == '-' || '0' <= s[k] <= '9'
    ensures i < 0 <==> s[0] == '-'
  {
    if i < 0 then "-" + NatToString(-i) else NatToString(i)
  }

  function ParseNat(s: string): nat
    requires IsDigits(s)
    decreases |s|
  {
    if |s| == 1 then DigitValue(s[0])
    else 10 * ParseNat(s[..|s| - 1]) + DigitValue(s[|s| - 1])
  }

  /** Reads an optional '-' and a run of digits; anything else is None. */
  function ParseInt(s: string): Option<int> {
    if |s| > 0 && s[0] == '-' then
      if IsDigits(s[1..]) then var n: int := ParseNat(s[1..]); Some(-n) else None
    else if IsDigits(s) then Some(ParseNat(s))
    else None
  }

  lemma {:induction false} ParseNatToString(n: nat)
    ensures ParseNat(NatToString(n)) == n
    decreases n
  {
    if n >= 10 {
      var s := NatToString(n);
      assert s[..|s| - 1] == NatToString(n / 10);
      assert DigitValue(s[|s| - 1]) == n % 10;
      ParseNatToString(n / 10);
    }
  }

  /** The decimal text of an int reads back as that int. */
  lemma ParseIntToString(i: int)
    ensures ParseInt(IntToString(i)) == Some(i)
  {
    if i < 0 {
      assert IntToString(i)[1..] == NatToString(-i);
      ParseNatToString(-i);
    } else {
      ParseNatToString(i);
    }
  }
}
