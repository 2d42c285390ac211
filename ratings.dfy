/**
 * The Elo arithmetic of the ranking engine: the logistic expected score and
 * the K-factor rating update, rounded half-up like `Math.round`.
 *
 * `Math.pow(10, x)` has no definition in Dafny's reals, so it is a parameter
 * of type `Exp10`: any function with the laws of a base-10 exponential that
 * the Elo formulas rely on.
 */
module Ratings {
  import opened Catalog
  import opened Sorting

  /**
   * The laws of `x => 10^x` used here: 10^0 = 1, it is positive,
   * 10^-x = 1 / 10^x, it is monotone, and it exceeds 1 for positive x.
   */
  ghost predicate Exp10Laws(f: real -> real) {
    && f(0.0) == 1.0
    && (forall x :: f(x) > 0.0)
    && (forall x, y :: x + y == 0.0 ==> f(x) * f(y) == 1.0)
    && (forall x, y :: x <= y ==> f(x) <= f(y))
    && (forall x :: x > 0.0 ==> f(x) > 1.0)
  }

  /** A step function with those laws; it only shows that `Exp10` is inhabited. */
  function Exp10Witness(x: real): real {
    if x > 0.0 then 2.0 else if x < 0.0 then 0.5 else 1.0
  }

  type Exp10 = f: real -> real | Exp10Laws(f) witness Exp10Witness

  /** `Math.min` and `Math.max` on two reals. */
  function Min(x: real, y: real): real {
    if x <= y then x else y
  }

  function Max(x: real, y: real): real {
    if x >= y then x else y
  }

  /** `Math.round`: JavaScript rounds halves up. */
  function Round(x: real): (n: int)
    ensures x - 0.5 < n as real <= x + 0.5
  {
    (x + 0.5).Floor
  }

  /** The expected score of A against B: 1 / (1 + 10^((rB - rA) / 400)). */
  function ExpectedOutcome(pow10: Exp10, ratingA: real, ratingB: real): (e: real)
    ensures 0.0 < e < 1.0
  {
    var p := pow10((ratingB - ratingA) / 400.0);
    assert p > 0.0;
    1.0 / (1.0 + p)
  }

  /** E(r, r) = 1/2: equal ratings predict an even contest. */
  lemma ExpectedOutcomeEven(pow10: Exp10, r: real)
    ensures ExpectedOutcome(pow10, r, r) == 0.5
  {
    assert (r - r) / 400.0 == 0.0;
  }

  /** E(a, b) + E(b, a) = 1: the two expected scores share one point. */
  lemma ExpectedOutcomeComplement(pow10: Exp10, ratingA: real, ratingB: real)
    ensures ExpectedOutcome(pow10, ratingA, ratingB) + ExpectedOutcome(pow10, ratingB, ratingA) == 1.0
  {
    var x := (ratingB - ratingA) / 400.0;
    assert (ratingA - ratingB) / 400.0 == -x;
    var p, q := pow10(x), pow10(-x);
    assert p > 0.0 && q > 0.0 && q * p == 1.0;
    calc {
      1.0 / (1.0 + p) + 1.0 / (1.0 + q);
      (1.0 + q + 1.0 + p) / ((1.0 + p) * (1.0 + q));
      { assert (1.0 + p) * (1.0 + q) == 2.0 + p + q; }
      1.0;
    }
  }

  /** The lower-rated side is the underdog: E(a, b) < 1/2 exactly when a < b, and > 1/2 exactly when a > b. */
  lemma ExpectedOutcomeOrder(pow10: Exp10, ratingA: real, ratingB: real)
    ensures ExpectedOutcome(pow10, ratingA, ratingB) < 0.5 <==> ratingA < ratingB
    ensures ExpectedOutcome(pow10, ratingA, ratingB) > 0.5 <==> ratingA > ratingB
  {
    var x := (ratingB - ratingA) / 400.0;
    var p := pow10(x);
    if x > 0.0 {
      assert p > 1.0;
    } else if x < 0.0 {
      assert pow10(-x) > 1.0 && pow10(-x) * p == 1.0;
      assert p < 1.0;
    } else {
      assert p == 1.0;
    }
  }

  datatype RatingUpdate = RatingUpdate(newRatingA: int, newRatingB: int)

  /** A's rating change before rounding: K * (actual - expected). */
  function DeltaA(pow10: Exp10, ratingA: real, ratingB: real, actualOutcomeA: real, kFactor: real): real {
    kFactor * (actualOutcomeA - ExpectedOutcome(pow10, ratingA, ratingB))
  }

  /** B's rating change before rounding, from B's actual score 1 - actualA and expected score 1 - E(a, b). */
  function DeltaB(pow10: Exp10, ratingA: real, ratingB: real, actualOutcomeA: real, kFactor: real): real {
    kFactor * ((1.0 - actualOutcomeA) - (1.0 - ExpectedOutcome(pow10, ratingA, ratingB)))
  }

  /** `updateRatings`: both sides move by K * (actual - expected), each rounded half-up. */
  function UpdateRatings(pow10: Exp10, ratingA: real, ratingB: real, actualOutcomeA: real, kFactor: real): (u: RatingUpdate)
    ensures var a := ratingA + DeltaA(pow10, ratingA, ratingB, actualOutcomeA, kFactor);
            a - 0.5 < u.newRatingA as real <= a + 0.5
    ensures var b := ratingB + DeltaB(pow10, ratingA, ratingB, actualOutcomeA, kFactor);
            b - 0.5 < u.newRatingB as real <= b + 0.5
  {
    RatingUpdate(
      Round(ratingA + DeltaA(pow10, ratingA, ratingB, actualOutcomeA, kFactor)),
      Round(ratingB + DeltaB(pow10, ratingA, ratingB, actualOutcomeA, kFactor)))
  }

  /** Rounding half-up commutes with adding an integer. */
  lemma RoundShift(x: real, n: int)
    ensures Round(x + n as real) == Round(x) + n
  {
  }

  /** Half-up rounding of d and of -d differ from exact negatives by at most one, upwards. */
  lemma RoundNegation(d: real)
    ensures Round(d) + Round(-d) == 0 || Round(d) + Round(-d) == 1
    ensures Round(d) + Round(-d) == 1 <==> (d + 0.5).Floor as real == d + 0.5
  {
    var y := d + 0.5;
    var f := y.Floor;
    assert -d + 0.5 == 1.0 - y;
    if f as real == y {
      assert (1.0 - y).Floor == 1 - f;
    } else {
      assert f as real < y < f as real + 1.0;
      assert -f as real < 1.0 - y < 1.0 - f as real;
      assert (1.0 - y).Floor == -f;
    }
  }

  /**
   * The update is zero-sum before rounding; for integer ratings the rounded
   * changes sum to 0, or to 1 when A's change ends in exactly one half.
   */
  lemma UpdateRatingsZeroSum(pow10: Exp10, ratingA: int, ratingB: int, actualOutcomeA: real, kFactor: real)
    ensures DeltaA(pow10, ratingA as real, ratingB as real, actualOutcomeA, kFactor)
         + DeltaB(pow10, ratingA as real, ratingB as real, actualOutcomeA, kFactor) == 0.0
    ensures var u := UpdateRatings(pow10, ratingA as real, ratingB as real, actualOutcomeA, kFactor);
            var drift := (u.newRatingA - ratingA) + (u.newRatingB - ratingB);
            drift == 0 || drift == 1
  {
    var d := DeltaA(pow10, ratingA as real, ratingB as real, actualOutcomeA, kFactor);
    var e := DeltaB(pow10, ratingA as real, ratingB as real, actualOutcomeA, kFactor);
    assert e == -d;
    RoundShift(d, ratingA);
    RoundShift(-d, ratingB);
    assert ratingA as real + d == d + ratingA as real;
    assert ratingB as real + e == -d + ratingB as real;
    RoundNegation(d);
  }

  /**
   * Rounding half-up after moving up by at least one half, or down by more
   * than one half, lands strictly past the start.
   */
  lemma RoundPastStart(r: real, d: real)
    ensures d >= 0.5 ==> Round(r + d) as real > r
    ensures d < -0.5 ==> (Round(r + d) as real) < r
  {
    var y := r + d + 0.5;
    assert y.Floor as real <= y < y.Floor as real + 1.0;
  }

  /** K times a gain of at least one half exceeds one half when K > 1. */
  lemma ScaledGain(kFactor: real, gain: real)
    requires kFactor > 1.0 && gain >= 0.5
    ensures kFactor * gain > 0.5
  {
    assert kFactor * gain >= kFactor * 0.5;
  }

  /** With K > 1, an underdog or equal-rated A that wins gains rating, and B loses rating. */
  lemma UnderdogWinMoves(pow10: Exp10, ratingA: real, ratingB: real, kFactor: real)
    requires kFactor > 1.0 && ratingA <= ratingB
    ensures var u := UpdateRatings(pow10, ratingA, ratingB, 1.0, kFactor);
            u.newRatingA as real > ratingA && (u.newRatingB as real) < ratingB
  {
    var e := ExpectedOutcome(pow10, ratingA, ratingB);
    ExpectedOutcomeOrder(pow10, ratingA, ratingB);
    var gain := kFactor * (1.0 - e);
    ScaledGain(kFactor, 1.0 - e);
    assert DeltaA(pow10, ratingA, ratingB, 1.0, kFactor) == gain;
    assert DeltaB(pow10, ratingA, ratingB, 1.0, kFactor) == -gain;
    RoundPastStart(ratingA, gain);
    RoundPastStart(ratingB, -gain);
  }

  /** Updating from B's side gives the same two new ratings, swapped. */
  lemma UpdateRatingsSymmetric(pow10: Exp10, ratingA: real, ratingB: real, actualOutcomeA: real, kFactor: real)
    ensures var u := UpdateRatings(pow10, ratingA, ratingB, actualOutcomeA, kFactor);
            var v := UpdateRatings(pow10, ratingB, ratingA, 1.0 - actualOutcomeA, kFactor);
            u.newRatingA == v.newRatingB && u.newRatingB == v.newRatingA
  {
    ExpectedOutcomeComplement(pow10, ratingA, ratingB);
    assert DeltaA(pow10, ratingB, ratingA, 1.0 - actualOutcomeA, kFactor) == DeltaB(pow10, ratingA, ratingB, actualOutcomeA, kFactor);
    assert DeltaB(pow10, ratingB, ratingA, 1.0 - actualOutcomeA, kFactor) == DeltaA(pow10, ratingA, ratingB, actualOutcomeA, kFactor);
  }

  /**
   * With K > 1 (the default is 32), an underdog or equal-rated A that wins gains rating and B
   * loses rating; symmetrically when B, not the favourite, wins.
   */
  lemma UpdateRatingsRewardsWinner(pow10: Exp10, ratingA: real, ratingB: real, kFactor: real)
    requires kFactor > 1.0
    ensures ratingA <= ratingB ==>
              var u := UpdateRatings(pow10, ratingA, ratingB, 1.0, kFactor);
              u.newRatingA as real > ratingA && (u.newRatingB as real) < ratingB
    ensures ratingB <= ratingA ==>
              var u := UpdateRatings(pow10, ratingA, ratingB, 0.0, kFactor);
              u.newRatingB as real > ratingB && (u.newRatingA as real) < ratingA
  {
    if ratingA <= ratingB {
      UnderdogWinMoves(pow10, ratingA, ratingB, kFactor);
    }
    if ratingB <= ratingA {
      UnderdogWinMoves(pow10, ratingB, ratingA, kFactor);
      UpdateRatingsSymmetric(pow10, ratingA, ratingB, 0.0, kFactor);
      assert 1.0 - 0.0 == 1.0;
    }
  }

  /** The laws of `Math.log2` used here: log2(2) = 1, and it is monotone. */
  ghost predicate Log2Laws(f: real -> real) {
    && f(2.0) == 1.0
    && (forall x, y :: x <= y ==> f(x) <= f(y))
  }

  /** A linear function with those laws; it only shows that `Log2` is inhabited. */
  function Log2Witness(x: real): real {
    x / 2.0
  }

  type Log2 = f: real -> real | Log2Laws(f) witness Log2Witness

  /** `Math.ceil`. */
  function Ceil(x: real): (c: int)
    ensures x <= c as real < x + 1.0
  {
    -((-x).Floor)
  }

  /** `calculateMinComparisons`: n * log2(n) rounded up, and 1 for fewer than two items. */
  function MinComparisons(log2: Log2, itemCount: int): (r: int)
    ensures r >= 1
    ensures itemCount >= 2 ==> r >= itemCount
  {
    if itemCount < 2 then 1
    else
      var n := itemCount as real;
      assert log2(n) >= log2(2.0) == 1.0;
      assert log2(n) * n >= n;
      Ceil(log2(n) * n)
  }

  function RatingOf(item: Item): real {
    item.rating
  }

  function NegatedRating(item: Item): real {
    -item.rating
  }

  /** `sortItemsByRating`: a copy of the items, highest rating first. */
  function SortItemsByRating(items: seq<Item>): (r: seq<Item>)
    ensures multiset(r) == multiset(items)
    ensures forall i, j :: 0 <= i < j < |r| ==> r[i].rating >= r[j].rating
  {
    var r := SortBy(items, NegatedRating);
    assert forall i, j :: 0 <= i < j < |r| ==> NegatedRating(r[i]) <= NegatedRating(r[j]);
    r
  }
}
