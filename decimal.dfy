/** Machine identifiers: a kind prefix, an underscore and a zero-padded
    decimal index, as written by the f-strings `{i:03d}` and `{index:06d}`. */
module Decimal {

  predicate IsDigit(c: char) { '0' <= c <= '9' }

  predicate AllDigits(s: string) { forall k :: 0 <= k < |s| ==> IsDigit(s[k]) }

  function DigitChar(d: nat): (c: char)
    requires d < 10
    ensures IsDigit(c)
  {
    ['0', '1', '2', '3', '4', '5', '6', '7', '8', '9'][d]
  }

  function DigitValue(c: char): (d: nat)
    requires IsDigit(c)
    ensures d < 10 && DigitChar(d) == c
  {
    (c as int - '0' as int) as nat
  }

  /** Decimal rendering of `n` with no leading zeros (`"0"` for zero). */
  function Digits(n: nat): (s: string)
    ensures AllDigits(s) && 1 <= |s|
  {
    if n < 10 then [DigitChar(n)] else Digits(n / 10) + [DigitChar(n % 10)]
  }

  /** Value of a string of decimal digits; the empty string reads as zero. */
  function Parse(s: string): nat
    requires AllDigits(s)
  {
    if s == [] then 0 else Parse(s[..|s| - 1]) * 10 + DigitValue(s[|s| - 1])
  }

  function Zeros(k: nat): (s: string)
    ensures |s| == k && forall j :: 0 <= j < k ==> s[j] == '0'
  {
    if k == 0 then [] else Zeros(k - 1) + ['0']
  }

  /** The format spec `0<width>d` applied to a non-negative integer. */
  function ZeroPad(n: nat, width: nat): (s: string)
    ensures AllDigits(s)
    ensures |s| == if |Digits(n)| < width then width else |Digits(n)|
  {
    var d := Digits(n);
    if |d| < width then Zeros(width - |d|) + d else d
  }

  /** `f"{prefix}_{index:0<width>d}"` */
  function PaddedId(prefix: string, index: nat, width: nat): string
  {
    prefix + "_" + ZeroPad(index, width)
  }

  lemma {:induction false} ParseDigits(n: nat)
    ensures Parse(Digits(n)) == n
  {
    if n >= 10 {
      var s := Digits(n);
      assert s[..|s| - 1] == Digits(n / 10);
      ParseDigits(n / 10);
    }
  }

  lemma {:induction false} ParseLeadingZeros(k: nat, s: string)
    requires AllDigits(s)
    ensures AllDigits(Zeros(k) + s) && Parse(Zeros(k) + s) == Parse(s)
  {
    if s == [] {
      assert Zeros(k) + s == Zeros(k);
      ParseZeros(k);
    } else {
      var t := Zeros(k) + s;
      assert t[..|t| - 1] == Zeros(k) + s[..|s| - 1];
      ParseLeadingZeros(k, s[..|s| - 1]);
    }
  }

  lemma {:induction false} ParseZeros(k: nat)
    ensures Parse(Zeros(k)) == 0
  {
    if k > 0 {
      assert Zeros(k)[..k - 1] == Zeros(k - 1);
      ParseZeros(k - 1);
    }
  }

  /** Reading the padded index back gives the index: padding loses nothing. */
  lemma ZeroPadRoundTrip(n: nat, width: nat)
    ensures Parse(ZeroPad(n, width)) == n
  {
    var d := Digits(n);
    var padded := ZeroPad(n, width);
    ParseDigits(n);
    if |d| < width {
      assert padded == Zeros(width - |d|) + d;
      ParseLeadingZeros(width - |d|, d);
      assert Parse(padded) == Parse(d);
    } else {
      assert padded == d;
    }
  }

  /** The index part of an identifier is at least `width` characters long
      and holds only digits. */
  lemma PaddedIdShape(prefix: string, index: nat, width: nat)
    ensures var id := PaddedId(prefix, index, width);
      |id| >= |prefix| + 1 + width &&
      id[..|prefix|] == prefix && id[|prefix|] == '_' &&
      AllDigits(id[|prefix| + 1..]) && Parse(id[|prefix| + 1..]) == index
  {
    var id := PaddedId(prefix, index, width);
    assert id[|prefix| + 1..] == ZeroPad(index, width);
    ZeroPadRoundTrip(index, width);
  }

  /** Two identifiers are equal only when prefix and index are: the
      underscore before the all-digit index fixes where the prefix ends. */
  lemma PaddedIdInjective(p1: string, i1: nat, p2: string, i2: nat, width: nat)
    requires PaddedId(p1, i1, width) == PaddedId(p2, i2, width)
    ensures p1 == p2 && i1 == i2
  {
    var id := PaddedId(p1, i1, width);
    var d1, d2 := ZeroPad(i1, width), ZeroPad(i2, width);
    assert |d1| == |d2| by {
      assert id[|id| - |d1| - 1] == '_' && id[|id| - |d2| - 1] == '_';
    }
    assert p1 == id[..|p1|] == p2;
    assert d1 == id[|p1| + 1..] == d2;
    ZeroPadRoundTrip(i1, width);
    ZeroPadRoundTrip(i2, width);
  }
}
