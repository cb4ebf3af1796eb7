/** Outcomes as fixed-width binary digits: the `digit_decomposition_event_descriptor` of the DLC
    specifications, as the attestor formats them. */
module Digits {
  import opened Base

  function Digit(b: nat): char
    requires b < 2
  {
    if b == 0 then '0' else '1'
  }

  predicate IsBinary(s: string) { forall i :: 0 <= i < |s| ==> s[i] == '0' || s[i] == '1' }

  /** Binary digits without leading zeros; zero is written "0". */
  function Binary(o: nat): (s: string)
    ensures |s| > 0 && IsBinary(s)
  {
    if o < 2 then [Digit(o)] else Binary(o / 2) + [Digit(o % 2)]
  }

  function Zeros(n: nat): (s: string)
    ensures |s| == n && forall i :: 0 <= i < n ==> s[i] == '0'
  {
    seq(n, _ => '0')
  }

  /** Padded with zeros on the left to at least `width` digits. */
  function Formatted(o: nat, width: nat): string {
    var s := Binary(o);
    if |s| < width then Zeros(width - |s|) + s else s
  }

  function ReadBinary(s: string): nat {
    if s == "" then 0 else 2 * ReadBinary(s[..|s| - 1]) + if s[|s| - 1] == '1' then 1 else 0
  }

  function BitLength(o: nat): nat { if o == 0 then 0 else 1 + BitLength(o / 2) }

  function Max(a: nat, b: nat): nat { if a < b then b else a }

  lemma {:induction false} ReadBack(o: nat)
    ensures ReadBinary(Binary(o)) == o
  {
    var s := Binary(o);
    if o < 2 {
      assert s[..0] == "";
    } else {
      ReadBack(o / 2);
      assert s[..|s| - 1] == Binary(o / 2);
    }
  }

  lemma {:induction false} LeadingZeros(n: nat, s: string)
    ensures ReadBinary(Zeros(n) + s) == ReadBinary(s)
    decreases n + |s|
  {
    var z := Zeros(n) + s;
    if s != "" {
      assert z[..|z| - 1] == Zeros(n) + s[..|s| - 1];
      LeadingZeros(n, s[..|s| - 1]);
    } else if n > 0 {
      assert z[..|z| - 1] == Zeros(n - 1) + s;
      LeadingZeros(n - 1, s);
    }
  }

  /** The digits of an outcome, read in base two, are the outcome. */
  lemma FormattedReadsBack(o: nat, width: nat)
    ensures ReadBinary(Formatted(o, width)) == o && IsBinary(Formatted(o, width))
  {
    ReadBack(o);
    if |Binary(o)| < width { LeadingZeros(width - |Binary(o)|, Binary(o)); }
  }

  lemma {:induction false} BinaryLength(o: nat)
    ensures |Binary(o)| == Max(1, BitLength(o))
  {
    if o >= 2 { BinaryLength(o / 2); }
  }

  lemma {:induction false} BitLengthBound(o: nat, n: nat)
    ensures BitLength(o) <= n <==> o < Pow(2, n)
  {
    if o > 0 && n > 0 {
      BitLengthBound(o / 2, n - 1);
      assert Pow(2, n) == 2 * Pow(2, n - 1);
    }
  }

  /** The number of digits is the larger of the width and the bit length, except that zero at width
      zero still takes one digit. */
  lemma FormattedLengthIff(o: nat, width: nat)
    ensures |Formatted(o, width)| == Max(width, BitLength(o)) <==> !(o == 0 && width == 0)
  {
    BinaryLength(o);
  }

  /** The digits fit the width exactly when the outcome is below two to the width and the width is
      not zero. */
  lemma FormattedFitsIff(o: nat, width: nat)
    ensures |Formatted(o, width)| == width <==> o < Pow(2, width) && width > 0
  {
    BinaryLength(o);
    BitLengthBound(o, width);
  }

  /** A prefix of the digits reads as the outcome shifted right. */
  lemma {:induction false} PrefixReadsShifted(s: string, k: nat)
    requires k <= |s| && IsBinary(s)
    ensures ReadBinary(s[..k]) == ReadBinary(s) / Pow(2, |s| - k)
    decreases |s|
  {
    if k == |s| {
      assert s[..k] == s;
    } else {
      var t := s[..|s| - 1];
      PrefixReadsShifted(t, k);
      assert t[..k] == s[..k];
      HalfOf(ReadBinary(t), if s[|s| - 1] == '1' then 1 else 0, Pow(2, |t| - k));
    }
  }

  lemma HalfOf(a: nat, b: nat, p: nat)
    requires b < 2 && p > 0
    ensures (2 * a + b) / (2 * p) == a / p
  {
    var q, r := a / p, a % p;
    assert a == q * p + r && r < p;
    assert 2 * a + b == q * (2 * p) + (2 * r + b) && 2 * r + b < 2 * p;
    QuotientUnique(2 * a + b, 2 * p, q, 2 * r + b);
  }

  lemma QuotientUnique(a: nat, d: nat, q: nat, r: nat)
    requires d > 0 && a == q * d + r && r < d
    ensures a / d == q
  {
    var q', r' := a / d, a % d;
    assert a == q' * d + r';
    NextMultiple(d, q', q);
    NextMultiple(d, q, q');
  }

  lemma NextMultiple(d: nat, x: nat, y: nat)
    ensures x < y ==> x * d + d <= y * d
  {
    if x < y {
      var gap := y - x - 1;
      assert y * d == (x + 1 + gap) * d == x * d + d + gap * d;
    }
  }
}
