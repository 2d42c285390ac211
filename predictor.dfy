/**
 * The preference predictor: the Elo expectation, blended with a pattern
 * learned from past comparisons whose items resemble the two items at hand.
 */
module Predictor {
  import opened Wrappers
  import opened Catalog
  import opened Ratings
  import opened CategoryMatch

  datatype Prediction = Prediction(expectedOutcomeA: real, confidence: real)

  /** A complete record whose items resemble (a, b): the mean of the four cross-similarities exceeds 0.3. */
  predicate IsSimilar(a: Item, b: Item, r: Record) {
    && Complete(r)
    && (Similarity(Some(a), r.itemA) + Similarity(Some(b), r.itemB)
        + Similarity(Some(a), r.itemB) + Similarity(Some(b), r.itemA)) / 4.0 > 0.3
  }

  /** `comparisonHistory.filter(...)`: the similar records, in history order. */
  function SimilarRecords(a: Item, b: Item, h: seq<Record>): (r: seq<Record>)
    ensures |r| <= |h|
    ensures forall k :: 0 <= k < |r| ==> IsSimilar(a, b, r[k]) && r[k] in h
  {
    if h == [] then []
    else
      var last := h[|h| - 1];
      SimilarRecords(a, b, h[..|h| - 1]) + (if IsSimilar(a, b, last) then [last] else [])
  }

  /** The filter drops no similar record: every similar record of the history is kept. */
  lemma {:induction false} SimilarRecordsComplete(a: Item, b: Item, h: seq<Record>, x: Record)
    requires x in h && IsSimilar(a, b, x)
    ensures x in SimilarRecords(a, b, h)
  {
    var init, last := h[..|h| - 1], h[|h| - 1];
    assert h == init + [last];
    if x != last {
      SimilarRecordsComplete(a, b, init, x);
    }
  }

  /** a resembles the record's A side and b its B side, each strictly more than the other side. */
  predicate SameDirection(a: Item, b: Item, r: Record) {
    && Similarity(Some(a), r.itemA) > Similarity(Some(a), r.itemB)
    && Similarity(Some(b), r.itemB) > Similarity(Some(b), r.itemA)
  }

  /** 1 when the record's A side won. */
  function HistoricalOutcome(r: Record): real
    requires Complete(r)
  {
    if r.winner.value.id == r.itemA.value.id then 1.0 else 0.0
  }

  datatype Pattern = Pattern(score: real, weight: real)

  /**
   * One similar record's vote: for A (1) or for B (0), read in the direction
   * that matches (a, b), weighted by the similarity of the matching side to
   * the record's winner.
   */
  function RecordVote(a: Item, b: Item, r: Record): (v: Pattern)
    requires Complete(r)
    ensures 0.0 <= v.score <= v.weight
  {
    var same := SameDirection(a, b, r);
    var outcome := if same then HistoricalOutcome(r) else 1.0 - HistoricalOutcome(r);
    var w := Similarity(Some(if same then a else b), r.winner);
    assert outcome == 0.0 || outcome == 1.0;
    Pattern(outcome * w, w)
  }

  /** The votes of the similar records, summed. */
  function PatternTally(a: Item, b: Item, similar: seq<Record>): (p: Pattern)
    requires forall k :: 0 <= k < |similar| ==> Complete(similar[k])
    ensures 0.0 <= p.score <= p.weight
  {
    if similar == [] then Pattern(0.0, 0.0)
    else
      var prev := PatternTally(a, b, similar[..|similar| - 1]);
      var v := RecordVote(a, b, similar[|similar| - 1]);
      Pattern(prev.score + v.score, prev.weight + v.weight)
  }

  /** The pattern's prediction: the weighted share of votes for A, or 1/2 with no weight. */
  function PatternPrediction(p: Pattern): (r: real)
    requires 0.0 <= p.score <= p.weight
    ensures 0.0 <= r <= 1.0
  {
    if p.weight > 0.0 then p.score / p.weight else 0.5
  }

  /** How far the pattern is trusted: a twentieth per similar record, at most 0.8. */
  function PatternConfidence(similarCount: nat): real {
    Min(0.8, similarCount as real / 20.0)
  }

  /** The pattern weight lies in [0, 0.8]: a twentieth per similar record, capped at 0.8 from 16 records on. */
  lemma PatternConfidenceRange(similarCount: nat)
    ensures 0.0 <= PatternConfidence(similarCount) <= 0.8
    ensures similarCount >= 16 ==> PatternConfidence(similarCount) == 0.8
    ensures similarCount < 16 ==> PatternConfidence(similarCount) == similarCount as real / 20.0
  {
  }

  /** The blend of the Elo and pattern predictions: a convex combination with pattern weight `pc`. */
  function Blend(elo: real, pattern: real, pc: real): (r: real)
    requires 0.0 <= pc <= 1.0
    ensures Min(elo, pattern) <= r <= Max(elo, pattern)
  {
    BlendBetween(elo, pattern, pc);
    elo * (1.0 - pc) + pattern * pc
  }

  /** A product m = x * d with x in [0, 1] lies between 0 and d. */
  lemma ScaleDown(x: real, d: real, m: real)
    requires 0.0 <= x <= 1.0 && d >= 0.0 && m == x * d
    ensures 0.0 <= m <= d
  {
    assert d - m == (1.0 - x) * d;
  }

  /** The blend, rewritten as a step from either end towards the other. */
  lemma BlendForms(elo: real, pattern: real, pc: real)
    ensures elo * (1.0 - pc) + pattern * pc == elo + pc * (pattern - elo)
    ensures elo * (1.0 - pc) + pattern * pc == pattern + (1.0 - pc) * (elo - pattern)
  {
  }

  lemma BlendBetween(elo: real, pattern: real, pc: real)
    requires 0.0 <= pc <= 1.0
    ensures Min(elo, pattern) <= elo * (1.0 - pc) + pattern * pc <= Max(elo, pattern)
  {
    BlendForms(elo, pattern, pc);
    if elo <= pattern {
      var m := pc * (pattern - elo);
      ScaleDown(pc, pattern - elo, m);
      StepBetween(elo, pattern, m);
    } else {
      var m := (1.0 - pc) * (elo - pattern);
      ScaleDown(1.0 - pc, elo - pattern, m);
      StepBetween(pattern, elo, m);
    }
  }

  /** A step of at most the gap from the lower end stays between the ends. */
  lemma StepBetween(lo: real, hi: real, m: real)
    requires 0.0 <= m <= hi - lo
    ensures Min(lo, hi) <= lo + m <= Max(lo, hi) && Min(hi, lo) <= lo + m <= Max(hi, lo)
  {
  }

  /** The overall confidence: 0.3, plus half the pattern weight, plus a fifth of the pair's similarity, at most 0.9. */
  function BlendConfidence(pc: real, similarity: real): (c: real)
    requires pc >= 0.0 && similarity >= 0.0
    ensures 0.3 <= c <= 0.9
  {
    Min(0.9, 0.3 + pc * 0.5 + similarity * 0.2)
  }

  /** `predictPreference(itemA, itemB, comparisonHistory)`. */
  function Predict(pow10: Exp10, a: Option<Item>, b: Option<Item>, h: seq<Record>): (p: Prediction)
    ensures 0.0 <= p.expectedOutcomeA <= 1.0
    ensures 0.0 <= p.confidence <= 0.9
  {
    if a.None? || b.None? then Prediction(0.5, 0.0)
    else
      var elo := ExpectedOutcome(pow10, a.value.rating, b.value.rating);
      if |h| < 5 then Prediction(elo, 0.3)
      else
        var similar := SimilarRecords(a.value, b.value, h);
        if |similar| < 3 then Prediction(elo, 0.4)
        else
          var pattern := PatternPrediction(PatternTally(a.value, b.value, similar));
          var pc := PatternConfidence(|similar|);
          Prediction(Blend(elo, pattern, pc), BlendConfidence(pc, Similarity(a, b)))
  }

  /** The prediction as the source computes it, with the pattern votes summed in a loop. */
  method PredictPreference(pow10: Exp10, a: Option<Item>, b: Option<Item>, h: seq<Record>) returns (p: Prediction)
    ensures p == Predict(pow10, a, b, h)
  {
    if a.None? || b.None? {
      return Prediction(0.5, 0.0);
    }
    var itemA, itemB := a.value, b.value;
    var eloPrediction := ExpectedOutcome(pow10, itemA.rating, itemB.rating);
    if |h| < 5 {
      return Prediction(eloPrediction, 0.3);
    }
    var similarity := CalculateCategorySimilarity(a, b);
    var similar := SimilarRecords(itemA, itemB, h);
    if |similar| < 3 {
      return Prediction(eloPrediction, 0.4);
    }
    var patternScore, patternWeight := TallyPatterns(itemA, itemB, similar);
    var patternPrediction := if patternWeight > 0.0 then patternScore / patternWeight else 0.5;
    var patternConfidence := Min(0.8, |similar| as real / 20.0);
    var combinedPrediction := Blend(eloPrediction, patternPrediction, patternConfidence);
    p := Prediction(combinedPrediction, BlendConfidence(patternConfidence, similarity));
  }

  /** The pattern loop: the weighted outcomes and the weights of the similar records, summed. */
  method TallyPatterns(itemA: Item, itemB: Item, similar: seq<Record>) returns (patternScore: real, patternWeight: real)
    requires forall j :: 0 <= j < |similar| ==> Complete(similar[j])
    ensures Pattern(patternScore, patternWeight) == PatternTally(itemA, itemB, similar)
  {
    patternScore, patternWeight := 0.0, 0.0;
    var k := 0;
    while k < |similar|
      invariant 0 <= k <= |similar|
      invariant Pattern(patternScore, patternWeight) == PatternTally(itemA, itemB, similar[..k])
    {
      var relevantOutcome, simWeight := Vote(itemA, itemB, similar[k]);
      PatternTallyStep(itemA, itemB, similar, k);
      patternScore := patternScore + relevantOutcome * simWeight;
      patternWeight := patternWeight + simWeight;
      k := k + 1;
    }
    assert similar[..k] == similar;
  }

  /** One record's outcome, read in the direction of (a, b), and its similarity weight. */
  method Vote(itemA: Item, itemB: Item, comp: Record) returns (relevantOutcome: real, simWeight: real)
    requires Complete(comp)
    ensures RecordVote(itemA, itemB, comp) == Pattern(relevantOutcome * simWeight, simWeight)
  {
    var simA1 := CalculateCategorySimilarity(Some(itemA), comp.itemA);
    var simA2 := CalculateCategorySimilarity(Some(itemA), comp.itemB);
    var simB2 := CalculateCategorySimilarity(Some(itemB), comp.itemB);
    var simB1 := CalculateCategorySimilarity(Some(itemB), comp.itemA);
    var sameDirection := simA1 > simA2 && simB2 > simB1;
    var historicalOutcome := if comp.winner.value.id == comp.itemA.value.id then 1.0 else 0.0;
    relevantOutcome := if sameDirection then historicalOutcome else 1.0 - historicalOutcome;
    simWeight := CalculateCategorySimilarity(Some(if sameDirection then itemA else itemB), comp.winner);
    VoteAsComputed(itemA, itemB, comp, relevantOutcome, simWeight);
  }

  /** The loop body's vote is the record's vote. */
  lemma VoteAsComputed(a: Item, b: Item, r: Record, relevantOutcome: real, simWeight: real)
    requires Complete(r)
    requires var same := SameDirection(a, b, r);
             && relevantOutcome == (if same then HistoricalOutcome(r) else 1.0 - HistoricalOutcome(r))
             && simWeight == Similarity(Some(if same then a else b), r.winner)
    ensures RecordVote(a, b, r) == Pattern(relevantOutcome * simWeight, simWeight)
  {
  }

  /** One more record adds its vote to the tally. */
  lemma PatternTallyStep(a: Item, b: Item, similar: seq<Record>, k: nat)
    requires k < |similar|
    requires forall j :: 0 <= j < |similar| ==> Complete(similar[j])
    ensures var prev, v := PatternTally(a, b, similar[..k]), RecordVote(a, b, similar[k]);
            PatternTally(a, b, similar[..k + 1]) == Pattern(prev.score + v.score, prev.weight + v.weight)
  {
    assert similar[..k + 1][..k] == similar[..k];
  }

  /** The fallbacks: a missing item gives {0.5, 0}; fewer than 5 records, or fewer than 3 similar ones, give the Elo expectation. */
  lemma PredictionFallbacks(pow10: Exp10, a: Option<Item>, b: Option<Item>, h: seq<Record>)
    ensures a.None? || b.None? ==> Predict(pow10, a, b, h) == Prediction(0.5, 0.0)
    ensures a.Some? && b.Some? && |h| < 5 ==>
              Predict(pow10, a, b, h) == Prediction(ExpectedOutcome(pow10, a.value.rating, b.value.rating), 0.3)
    ensures a.Some? && b.Some? && |h| >= 5 && |SimilarRecords(a.value, b.value, h)| < 3 ==>
              Predict(pow10, a, b, h) == Prediction(ExpectedOutcome(pow10, a.value.rating, b.value.rating), 0.4)
  {
  }

  /**
   * With at least 5 records of which at least 3 are similar, the prediction
   * is a convex blend of the Elo expectation and the pattern prediction,
   * with pattern weight in [0.15, 0.8], and the confidence lies in [0.3, 0.9].
   */
  lemma PredictionBlend(pow10: Exp10, a: Item, b: Item, h: seq<Record>)
    requires |h| >= 5 && |SimilarRecords(a, b, h)| >= 3
    ensures var p := Predict(pow10, Some(a), Some(b), h);
            var elo := ExpectedOutcome(pow10, a.rating, b.rating);
            var similar := SimilarRecords(a, b, h);
            var pattern := PatternPrediction(PatternTally(a, b, similar));
            var pc := PatternConfidence(|similar|);
            && 0.15 <= pc <= 0.8
            && p.expectedOutcomeA == Blend(elo, pattern, pc)
            && Min(elo, pattern) <= p.expectedOutcomeA <= Max(elo, pattern)
            && 0.3 <= p.confidence <= 0.9
  {
    var similar := SimilarRecords(a, b, h);
    var pc := PatternConfidence(|similar|);
    assert |similar| as real / 20.0 >= 0.15;
    assert 0.15 <= pc <= 0.8;
  }
}
