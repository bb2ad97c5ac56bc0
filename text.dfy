/** Decimal rendering of integers, as JavaScript's `toString` and `padStart` produce it. */
module Text {

  predicate IsDigit(c: char) { '0' <= c <= '9' }

  predicate IsDigits(s: string) { forall i :: 0 <= i < |s| ==> IsDigit(s[i]) }

  function DigitChar(d: nat): (c: char)
    requires d < 10
    ensures IsDigit(c) && c as int - '0' as int == d
  {
    ('0' as int + d) as char
  }

  /** The decimal digits of `n`, most significant first (no leading zero: `NatToStringLeadingDigit`). */
  function NatToString(n: nat): (s: string)
    ensures 1 <= |s| && IsDigits(s)
    ensures n < 10 <==> |s| == 1
    ensures 10 <= n < 100 <==> |s| == 2
    decreases n
  {
    if n < 10 then [DigitChar(n)] else NatToString(n / 10) + [DigitChar(n % 10)]
  }

  /** The number written by a string of decimal digits (the empty string reads as 0). */
  function ParseNat(s: string): nat
    requires IsDigits(s)
  {
    if |s| == 0 then 0 else ParseNat(s[..|s| - 1]) * 10 + (s[|s| - 1] as int - '0' as int)
  }

  /** Only zero is written with a leading `0`: no number gets a surplus leading zero. */
  lemma {:induction false} NatToStringLeadingDigit(n: nat)
    ensures NatToString(n)[0] == '0' <==> n == 0
  {
    if n >= 10 {
      NatToStringLeadingDigit(n / 10);
      assert NatToString(n)[0] == NatToString(n / 10)[0];
    }
  }

  lemma {:induction false} ParseNatToString(n: nat)
    ensures ParseNat(NatToString(n)) == n
  {
    if n >= 10 {
      var s := NatToString(n);
      assert s[..|s| - 1] == NatToString(n / 10);
      ParseNatToString(n / 10);
    }
  }

  /** JavaScript's `String(i)` for an integer `i`. */
  function IntToString(i: int): (s: string)
    ensures 1 <= |s|
    ensures i >= 0 ==> IsDigits(s)
    ensures i < 0 ==> s[0] == '-' && IsDigits(s[1..])
  {
    if i < 0 then "-" + NatToString(-i) else NatToString(i)
  }

  /** Reads back what `IntToString` writes. */
  function ParseInt(s: string): int
    requires IsDigits(s) || (|s| > 0 && s[0] == '-' && IsDigits(s[1..]))
  {
    if |s| > 0 && s[0] == '-' then 0 - ParseNat(s[1..]) else ParseNat(s)
  }

  lemma ParseIntToString(i: int)
    ensures ParseInt(IntToString(i)) == i
  {
    if i < 0 {
      ParseNegative(-i);
    } else {
      ParseNatToString(i);
    }
  }

  lemma ParseNegative(n: nat)
    ensures ParseInt("-" + NatToString(n)) == 0 - n
  {
    var t := NatToString(n);
    assert ("-" + t)[1..] == t;
    ParseNatToString(n);
  }

  function Repeat(c: char, n: nat): (s: string)
    ensures |s| == n && forall i :: 0 <= i < n ==> s[i] == c
  {
    if n == 0 then [] else [c] + Repeat(c, n - 1)
  }

  /** JavaScript's `s.padStart(width, c)`: `c` repeated in front of `s` up to `width` characters. */
  function PadStart(s: string, width: nat, c: char): (r: string)
    ensures |r| == if |s| >= width then |s| else width
    ensures r[|r| - |s|..] == s
    ensures forall i :: 0 <= i < |r| - |s| ==> r[i] == c
  {
    if |s| >= width then s else Repeat(c, width - |s|) + s
  }

  /** Leading zeros do not change the number a digit string denotes. */
  lemma {:induction false} ParseNatLeadingZeros(z: string, s: string)
    requires IsDigits(s) && forall i :: 0 <= i < |z| ==> z[i] == '0'
    ensures IsDigits(z + s) && ParseNat(z + s) == ParseNat(s)
  {
    if |s| == 0 {
      assert z + s == z;
      AllZerosParseToZero(z);
    } else {
      var t := s[..|s| - 1];
      assert (z + s)[..|z + s| - 1] == z + t;
      ParseNatLeadingZeros(z, t);
    }
  }

  lemma {:induction false} AllZerosParseToZero(z: string)
    requires forall i :: 0 <= i < |z| ==> z[i] == '0'
    ensures IsDigits(z) && ParseNat(z) == 0
  {
    if |z| > 0 {
      AllZerosParseToZero(z[..|z| - 1]);
    }
  }

  /** Zero-padding the decimal form of `n` still reads back as `n`. */
  lemma ParsePaddedNat(n: nat, width: nat)
    ensures IsDigits(PadStart(NatToString(n), width, '0'))
    ensures ParseNat(PadStart(NatToString(n), width, '0')) == n
  {
    var s := NatToString(n);
    var r := PadStart(s, width, '0');
    ParseNatToString(n);
    if |s| < width {
      ParseNatLeadingZeros(Repeat('0', width - |s|), s);
    }
  }
}
