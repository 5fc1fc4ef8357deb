/**
 * Decimal text of integers as Python renders it: `f"{n}"` (plain decimal, a
 * leading '-' for negatives) and `f"{n:0Wd}"` (sign-aware zero padding to a
 * minimum width W). A reference parser is the partner against which both
 * renderings are proved to be lossless.
 */
module Decimal {
  import opened Optional

  predicate IsDigit(c: char) { '0' <= c <= '9' }

  predicate AllDigits(s: string) { forall i :: 0 <= i < |s| ==> IsDigit(s[i]) }

  function Max(a: int, b: int): int { if a < b then b else a }

  function DigitValue(c: char): nat
    requires IsDigit(c)
  {
    c as int - '0' as int
  }

  function DigitChar(d: nat): (c: char)
    requires d < 10
    ensures IsDigit(c) && DigitValue(c) == d
  {
    (d + '0' as int) as char
  }

  /** `k` copies of the character '0'. */
  function Zeros(k: nat): (z: string)
    ensures |z| == k && forall i :: 0 <= i < k ==> z[i] == '0'
  {
    if k == 0 then "" else "0" + Zeros(k - 1)
  }

  /** Decimal digits of a natural number, most significant first. */
  function NatToDecimal(n: nat): (s: string)
    ensures |s| >= 1 && AllDigits(s)
    ensures |s| == 1 <==> n < 10
    ensures s[0] == '0' ==> n == 0
    decreases n
  {
    if n < 10 then [DigitChar(n)] else NatToDecimal(n / 10) + [DigitChar(n % 10)]
  }

  /** Python's `str(i)` / `f"{i}"` for an int. */
  function IntToText(i: int): (s: string)
    ensures |s| >= 1
    ensures s[0] == '-' <==> i < 0
    ensures if i < 0 then AllDigits(s[1..]) else AllDigits(s)
  {
    if i < 0 then "-" + NatToDecimal(-i) else NatToDecimal(i)
  }

  /**
   * Python's `f"{n:0{width}d}"`: the sign counts towards the width, zeros go
   * between sign and digits. Padding never loses the value: the text is
   * exactly `width` long when the plain text fits, the plain text otherwise,
   * and reads back as `n`.
   */
  function ZeroPadded(n: int, width: nat): (s: string)
    ensures |s| == Max(width, |IntToText(n)|)
    ensures ParseInt(s) == Some(n)
  {
    var sign := if n < 0 then "-" else "";
    var digits := NatToDecimal(if n < 0 then -n else n);
    var fill := if width > |sign| + |digits| then width - |sign| - |digits| else 0;
    assert |IntToText(n)| == |sign| + |digits|;
    SignedPaddingReadsBack(n, fill);
    sign + (Zeros(fill) + digits)
  }

  /** Value of a string of digits, read most significant first. */
  function ParseDigits(s: string): nat
    requires AllDigits(s)
  {
    if s == [] then 0 else 10 * ParseDigits(s[..|s| - 1]) + DigitValue(s[|s| - 1])
  }

  /** Reference reader of an optionally signed decimal integer (leading zeros allowed). */
  function ParseInt(s: string): Option<int>
  {
    if |s| >= 2 && s[0] == '-' && AllDigits(s[1..]) then Some(-(ParseDigits(s[1..]) as int))
    else if |s| >= 1 && AllDigits(s) then Some(ParseDigits(s))
    else None
  }

  lemma {:induction false} NatToDecimalRoundTrip(n: nat)
    ensures ParseDigits(NatToDecimal(n)) == n
    decreases n
  {
    var s := NatToDecimal(n);
    if n < 10 {
      assert s[..|s| - 1] == [];
    } else {
      assert s[..|s| - 1] == NatToDecimal(n / 10);
      NatToDecimalRoundTrip(n / 10);
    }
  }

  lemma {:induction false} LeadingZeroIgnored(s: string)
    requires AllDigits(s)
    ensures AllDigits("0" + s) && ParseDigits("0" + s) == ParseDigits(s)
    decreases |s|
  {
    var t := "0" + s;
    if s == [] {
      assert t[..|t| - 1] == [];
    } else {
      assert t[..|t| - 1] == "0" + s[..|s| - 1];
      LeadingZeroIgnored(s[..|s| - 1]);
    }
  }

  lemma {:induction false} LeadingZerosIgnored(k: nat, s: string)
    requires AllDigits(s)
    ensures AllDigits(Zeros(k) + s) && ParseDigits(Zeros(k) + s) == ParseDigits(s)
    decreases k
  {
    if k == 0 {
      assert Zeros(k) + s == s;
    } else {
      LeadingZerosIgnored(k - 1, s);
      assert Zeros(k) + s == "0" + (Zeros(k - 1) + s);
      LeadingZeroIgnored(Zeros(k - 1) + s);
    }
  }

  /** The text of an int reads back as that int, so distinct ints have distinct texts. */
  lemma IntToTextRoundTrip(i: int)
    ensures ParseInt(IntToText(i)) == Some(i)
  {
    var m: nat := if i < 0 then -i else i;
    var d := NatToDecimal(m);
    NatToDecimalRoundTrip(m);
    if i < 0 {
      var s := "-" + d;
      assert s[1..] == d;
      assert |s| >= 2 && s[0] == '-' && AllDigits(s[1..]);
    } else {
      assert IsDigit(d[0]);
    }
  }

  lemma IntToTextInjective(i: int, j: int)
    requires IntToText(i) == IntToText(j)
    ensures i == j
  {
    IntToTextRoundTrip(i);
    IntToTextRoundTrip(j);
  }

  /** Zeros put between the sign and the digits do not change the value read back. */
  lemma SignedPaddingReadsBack(n: int, fill: nat)
    ensures ParseInt((if n < 0 then "-" else "") + (Zeros(fill) + NatToDecimal(if n < 0 then -n else n))) == Some(n)
  {
    var m: nat := if n < 0 then -n else n;
    var digits := NatToDecimal(m);
    var body := Zeros(fill) + digits;
    assert AllDigits(body) && ParseDigits(body) == m by {
      LeadingZerosIgnored(fill, digits);
      NatToDecimalRoundTrip(m);
    }
    if n < 0 {
      assert ("-" + body)[1..] == body;
    } else {
      assert "" + body == body && IsDigit(body[0]);
    }
  }
}
