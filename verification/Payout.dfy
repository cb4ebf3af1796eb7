/** The payout curve of a numerical contract and the rounding of chain outcomes that feeds it. Payouts
    are the exact interpolated values, rounded to whole satoshis. */
module Payout {
  import opened Base
  import opened Digits

  const NB_DIGITS := 14
  const U64_MAX := 0xFFFF_FFFF_FFFF_FFFF

  datatype PayoutPoint = PayoutPoint(outcome: nat, payout: nat)
  datatype Piece = Piece(left: PayoutPoint, right: PayoutPoint)

  function MaxValue(): nat { 16383 }

  /** The last outcome that the digits can express. */
  lemma MaxValueFitsDigits()
    ensures MaxValue() == Pow(2, NB_DIGITS) - 1
  {
    assert Pow(2, 2) == 4;
    assert Pow(2, 4) == 16;
    assert Pow(2, 6) == 64;
    assert Pow(2, 8) == 256;
    assert Pow(2, 10) == 1024;
    assert Pow(2, 12) == 4096;
  }

  /** A linear piece needs strictly ascending outcomes. */
  function NewPiece(left: PayoutPoint, right: PayoutPoint): Result<Piece> {
    if left.outcome < right.outcome then Ok(Piece(left, right)) else Err(InvalidParameters)
  }

  /** The 64-bit sum of a release build. */
  function WrappingAdd(a: nat, b: nat): nat { (a + b) % (U64_MAX + 1) }

  /** Rising from nothing at 0 to everything at `totalOutcomes`, then flat. */
  function CurvePieces(acceptCollateral: nat, offerCollateral: nat, totalOutcomes: nat): Result<seq<Piece>> {
    var total := WrappingAdd(acceptCollateral, offerCollateral);
    match NewPiece(PayoutPoint(0, 0), PayoutPoint(totalOutcomes, total))
    case Err(e) => Err(e)
    case Ok(rise) =>
      match NewPiece(PayoutPoint(totalOutcomes, total), PayoutPoint(MaxValue(), total))
      case Err(e) => Err(e)
      case Ok(flat) => Ok([rise, flat])
  }

  /** Division rounded to the nearest integer, halves upwards (Math.round, section 21.3.2.28 of ECMA-262). */
  function RoundDiv(a: nat, b: nat): (r: nat)
    requires b > 0
    ensures 2 * b * r <= 2 * a + b < 2 * b * (r + 1)
  {
    var n, d := 2 * a + b, 2 * b;
    assert n == d * (n / d) + n % d;
    assert d * (n / d + 1) == d * (n / d) + d;
    n / d
  }

  /** Rounding is the only integer within half a unit, with halves upwards. */
  lemma RoundDivUnique(a: nat, b: nat, r: nat)
    requires b > 0 && 2 * b * r <= 2 * a + b < 2 * b * (r + 1)
    ensures RoundDiv(a, b) == r
  {
    var q := RoundDiv(a, b);
    NextMultiple(2 * b, q, r);
    NextMultiple(2 * b, r, q);
  }

  lemma RoundDivMonotone(a: nat, a': nat, b: nat)
    requires b > 0 && a <= a'
    ensures RoundDiv(a, b) <= RoundDiv(a', b)
  {
    var r, r' := RoundDiv(a, b), RoundDiv(a', b);
    NextMultiple(2 * b, r', r);
  }

  lemma RoundDivExact(k: nat, b: nat)
    requires b > 0
    ensures RoundDiv(k * b, b) == k
  {
    assert 2 * (k * b) == 2 * b * k && 2 * b * (k + 1) == 2 * b * k + 2 * b;
    RoundDivUnique(k * b, b, k);
  }

  /** The interpolated payout of a rising or flat piece. */
  function OnPiece(p: Piece, x: nat): nat
    requires p.left.outcome < p.right.outcome && p.left.payout <= p.right.payout && p.left.outcome <= x
  {
    p.left.payout + RoundDiv((p.right.payout - p.left.payout) * (x - p.left.outcome), p.right.outcome - p.left.outcome)
  }

  /** The payout at an outcome: the piece that covers it decides. */
  function PayoutAt(pieces: seq<Piece>, x: nat): nat
    requires Curve(pieces)
  {
    if x <= pieces[0].right.outcome then OnPiece(pieces[0], x) else OnPiece(pieces[1], x)
  }

  /** Two rising or flat pieces that cover all outcomes and meet in one point. */
  predicate Curve(pieces: seq<Piece>) {
    && |pieces| == 2
    && pieces[0].left == PayoutPoint(0, 0)
    && pieces[0].right == pieces[1].left
    && pieces[1].right.outcome == MaxValue()
    && 0 < pieces[0].right.outcome < MaxValue()
    && pieces[1].left.payout == pieces[1].right.payout
  }

  /** A curve exists exactly when the outcome of full payout lies strictly between the first and the
      last outcome; it then joins without gap, and its full payout is the total collateral exactly
      when that fits 64 bits. */
  lemma CurveIff(accept: nat, offer: nat, totalOutcomes: nat)
    ensures var r := CurvePieces(accept, offer, totalOutcomes);
            && (r.Ok? <==> 1 <= totalOutcomes <= 16382)
            && (r.Ok? ==> Curve(r.value) && r.value[0].right.outcome == totalOutcomes)
            && (r.Ok? ==> (r.value[0].right.payout == accept + offer <==> accept + offer <= 0xFFFF_FFFF_FFFF_FFFF))
            && (r.Ok? && accept <= 0xFFFF_FFFF_FFFF_FFFF && offer <= 0xFFFF_FFFF_FFFF_FFFF < accept + offer ==>
                  r.value[0].right.payout == accept + offer - 0x1_0000_0000_0000_0000)
  {
  }

  lemma PayoutMonotone(pieces: seq<Piece>, x: nat, y: nat)
    requires Curve(pieces) && x <= y
    ensures PayoutAt(pieces, x) <= PayoutAt(pieces, y) <= pieces[0].right.payout
  {
    var d, m := pieces[0].right.outcome, pieces[0].right.payout;
    if y <= d {
      RisePays(m, d, x, y);
    } else {
      FlatPays(pieces, y);
      if x <= d { RisePays(m, d, x, d); } else { FlatPays(pieces, x); }
    }
  }

  /** The rise from nothing at 0 to `m` at `d`. */
  lemma RisePays(m: nat, d: nat, x: nat, y: nat)
    requires d > 0 && x <= y <= d
    ensures RoundDiv(m * x, d) <= RoundDiv(m * y, d) <= m
  {
    ScaledMonotone(m, x, y);
    ScaledMonotone(m, y, d);
    RoundDivMonotone(m * x, m * y, d);
    RoundDivMonotone(m * y, m * d, d);
    RoundDivExact(m, d);
  }

  lemma ScaledMonotone(m: nat, x: nat, y: nat)
    requires x <= y
    ensures m * x <= m * y
  {
  }

  lemma FlatPays(pieces: seq<Piece>, x: nat)
    requires Curve(pieces) && x > pieces[0].right.outcome
    ensures PayoutAt(pieces, x) == pieces[0].right.payout
  {
    var w := pieces[1].right.outcome - pieces[1].left.outcome;
    assert 0 * (x - pieces[1].left.outcome) == 0;
    RoundDivExact(0, w);
  }

  /** Up to full payout the payout is the integer nearest to the line through nothing at 0 and the total
      at `totalOutcomes`, halves upwards; beyond it is the total. */
  lemma PayoutInterpolates(accept: nat, offer: nat, totalOutcomes: nat, x: nat)
    requires accept + offer <= U64_MAX && CurvePieces(accept, offer, totalOutcomes).Ok?
    ensures var pieces := CurvePieces(accept, offer, totalOutcomes).value;
            && Curve(pieces)
            && var (m, d, paid) := (accept + offer, totalOutcomes, PayoutAt(pieces, x));
               if x <= d then 2 * d * paid <= 2 * (m * x) + d < 2 * d * (paid + 1) else paid == m
  {
    CurveIff(accept, offer, totalOutcomes);
    var pieces := CurvePieces(accept, offer, totalOutcomes).value;
    if x > totalOutcomes { FlatPays(pieces, x); }
  }

  // Composed with the rounding of chain outcomes.

  function FormattedOutcome(value: nat, shift: nat): nat { RoundDiv(value, Pow(10, shift)) }

  /** The outcome is the integer nearest to the value shifted by its decimal places, halves upwards. */
  lemma OutcomeIsNearest(value: nat, shift: nat)
    ensures var (p, o) := (Pow(10, shift), FormattedOutcome(value, shift));
            2 * p * o <= 2 * value + p < 2 * p * (o + 1)
  {
    assert RoundDiv(value, Pow(10, shift)) == FormattedOutcome(value, shift);
  }

  /** What the offering party receives for a value reported on chain; the accepting party receives the
      rest of the collateral. */
  function OfferShare(pieces: seq<Piece>, value: nat, shift: nat): nat
    requires Curve(pieces)
  {
    PayoutAt(pieces, FormattedOutcome(value, shift))
  }

  /** End to end: for every contract that has a curve, the payout never decreases in the chain value,
      lies between nothing and the total collateral (so the two shares add up to it), starts at
      nothing, and reaches everything at the value that rounds to `totalOutcomes` and beyond. */
  lemma ChainValuePaysOut(accept: nat, offer: nat, totalOutcomes: nat, shift: nat, v: nat, w: nat)
    requires accept + offer <= U64_MAX && CurvePieces(accept, offer, totalOutcomes).Ok? && v <= w
    ensures var pieces := CurvePieces(accept, offer, totalOutcomes).value;
            && OfferShare(pieces, v, shift) <= OfferShare(pieces, w, shift) <= accept + offer
            && OfferShare(pieces, 0, shift) == 0
            && (v >= totalOutcomes * Pow(10, shift) ==> OfferShare(pieces, v, shift) == accept + offer)
  {
    CurveIff(accept, offer, totalOutcomes);
    var pieces := CurvePieces(accept, offer, totalOutcomes).value;
    var p := Pow(10, shift);
    RoundDivMonotone(v, w, p);
    PayoutMonotone(pieces, FormattedOutcome(v, shift), FormattedOutcome(w, shift));
    RoundDivExact(0, p);
    assert FormattedOutcome(0, shift) == 0;
    assert (accept + offer) * 0 == 0;
    RoundDivExact(0, totalOutcomes);
    if v >= totalOutcomes * p {
      RoundDivExact(totalOutcomes, p);
      RoundDivMonotone(totalOutcomes * p, v, p);
      PayoutMonotone(pieces, totalOutcomes, FormattedOutcome(v, shift));
      RoundDivExact(accept + offer, totalOutcomes);
    }
  }

  /** The deployed setting: 100 outcomes and a shift of two digits, where 10000 pays everything. */
  lemma TenThousandPaysAll(accept: nat, offer: nat)
    requires accept + offer <= U64_MAX
    ensures var r := CurvePieces(accept, offer, 100);
            r.Ok? && Curve(r.value) && OfferShare(r.value, 10000, 2) == accept + offer
  {
    CurveIff(accept, offer, 100);
    assert Pow(10, 2) == 100;
    ChainValuePaysOut(accept, offer, 100, 2, 10000, 10000);
  }
}
