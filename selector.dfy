/**
 * `selectComparisonPair`: the next two items the user is asked to compare.
 *
 * The items are filtered by the selected categories (falling back to all
 * items), sorted by rating, and every pair not compared among the last ten
 * records is scored from four factors: rating proximity, how rarely the
 * items were compared, how uncertain the prediction is, and how
 * informative their category overlap is. One of the three best pairs is
 * taken, the best most of the time. Without history, or without any
 * eligible pair, two distinct items are drawn at random.
 *
 * `Math.random()` is read through the inputs `rand` (the top-three pick)
 * and `draws` (the shuffle of `getRandomIndices`).
 */
module PairSelector {
  import opened Wrappers
  import opened Catalog
  import opened Sorting
  import opened Ratings
  import opened CategoryMatch
  import opened Predictor
  import opened RandomIndices

  /** `options`: prefer close ratings, and the selected values per category type. */
  datatype Options = Options(prioritizeCloseRatings: bool, selectedCategories: map<string, seq<string>>)

  /** Some category type has a non-empty selection. */
  predicate HasActiveFilters(selected: map<string, seq<string>>) {
    exists t :: t in selected && |selected[t]| > 0
  }

  /** Some value of the item's entry is among the selected values. */
  predicate MatchesSelection(v: CategoryValue, chosen: seq<string>) {
    exists x :: x in ValuesOf(v) && x in chosen
  }

  /**
   * The item has categories and matches every active filter on a type for
   * which it has a truthy entry; a type it lacks does not exclude it.
   */
  predicate PassesFilters(item: Item, selected: map<string, seq<string>>) {
    && item.categories.Some?
    && forall t :: t in selected && |selected[t]| > 0 && Present(item.categories.value, t) ==>
         MatchesSelection(item.categories.value[t], selected[t])
  }

  /** `items.filter(...)`: the items passing the filters, in their order. */
  function FilterItems(items: seq<Item>, selected: map<string, seq<string>>): (r: seq<Item>)
    ensures forall x :: x in r <==> x in items && PassesFilters(x, selected)
    ensures multiset(r) <= multiset(items) && |r| <= |items|
  {
    if items == [] then []
    else
      var init, last := items[..|items| - 1], items[|items| - 1];
      assert items == init + [last];
      FilterItems(init, selected) + if PassesFilters(last, selected) then [last] else []
  }

  /**
   * The filter distributes over concatenation, so it keeps each passing
   * entry, duplicates included, in its original order.
   */
  lemma {:induction false} FilterItemsConcat(a: seq<Item>, b: seq<Item>, selected: map<string, seq<string>>)
    ensures FilterItems(a + b, selected) == FilterItems(a, selected) + FilterItems(b, selected)
  {
    if b != [] {
      var init, last := b[..|b| - 1], b[|b| - 1];
      assert (a + b)[..|a + b| - 1] == a + init;
      assert (a + b)[|a + b| - 1] == last;
      FilterItemsConcat(a, init, selected);
    } else {
      assert a + b == a;
    }
  }

  /**
   * `filteredItems`: the items passing the active filters, or all the items
   * when no filter is active or fewer than two items pass.
   */
  function Pool(items: seq<Item>, selected: map<string, seq<string>>): (r: seq<Item>)
    ensures multiset(r) <= multiset(items) && |r| <= |items|
    ensures r == items || |r| >= 2
    ensures r == items || (HasActiveFilters(selected) && forall x :: x in r ==> PassesFilters(x, selected))
    ensures !HasActiveFilters(selected) ==> r == items
    ensures HasActiveFilters(selected) && |FilterItems(items, selected)| < 2 ==> r == items
    ensures HasActiveFilters(selected) && |FilterItems(items, selected)| >= 2 ==>
              r == FilterItems(items, selected) && forall x :: x in r <==> x in items && PassesFilters(x, selected)
  {
    if !HasActiveFilters(selected) then items
    else
      var f := FilterItems(items, selected);
      if |f| < 2 then items else f
  }

  /** `comparisonCounts.get(id) || 0`. */
  function Lookup(counts: map<int, nat>, id: int): nat {
    if id in counts then counts[id] else 0
  }

  /** Counts one appearance of a side that is present and has a truthy id. */
  function Tally(counts: map<int, nat>, side: Option<Item>): map<int, nat> {
    if side.Some? && side.value.id != 0 then counts[side.value.id := Lookup(counts, side.value.id) + 1]
    else counts
  }

  /** `comparisonCounts` after visiting the records of `h`. */
  function CountMap(h: seq<Record>): map<int, nat> {
    if h == [] then map[]
    else
      var r := h[|h| - 1];
      Tally(Tally(CountMap(h[..|h| - 1]), r.itemA), r.itemB)
  }

  /** A side of a record is the item with the truthy id `id`. */
  predicate OnSide(side: Option<Item>, id: int) {
    id != 0 && side.Some? && side.value.id == id
  }

  /** The `itemA` side of a record, or its `itemB` side. */
  function Side(r: Record, first: bool): Option<Item> {
    if first then r.itemA else r.itemB
  }

  /** The positions of `h` whose `itemA` (or `itemB`) is `id`. */
  function Positions(h: seq<Record>, id: int, first: bool): set<int> {
    set k | 0 <= k < |h| && OnSide(Side(h[k], first), id)
  }

  /** How many times `id` appears in `h`, as `itemA` and as `itemB`. */
  function Appearances(h: seq<Record>, id: int): nat {
    |Positions(h, id, true)| + |Positions(h, id, false)|
  }

  lemma PositionsSnoc(h: seq<Record>, id: int, first: bool)
    requires h != []
    ensures |Positions(h, id, first)| == |Positions(h[..|h| - 1], id, first)| + if OnSide(Side(h[|h| - 1], first), id) then 1 else 0
  {
    var n := |h| - 1;
    var p := Positions(h[..n], id, first);
    var q: set<int> := if OnSide(Side(h[n], first), id) then {n} else {};
    forall k ensures k in Positions(h, id, first) <==> k in p + q {
      if 0 <= k < n {
        assert h[..n][k] == h[k];
      }
    }
    assert Positions(h, id, first) == p + q;
    assert n !in p;
  }

  /** The counting loop counts, for every id, its appearances in the history. */
  lemma {:induction false} CountMapCounts(h: seq<Record>, id: int)
    ensures Lookup(CountMap(h), id) == Appearances(h, id)
  {
    if h == [] {
      assert Positions(h, id, true) == {};
      assert Positions(h, id, false) == {};
    } else {
      CountMapCounts(h[..|h| - 1], id);
      PositionsSnoc(h, id, true);
      PositionsSnoc(h, id, false);
    }
  }

  /** The two ids were compared, in either order, in one of the last ten records. */
  predicate RecentlyCompared(h: seq<Record>, idA: int, idB: int) {
    exists r :: r in Recent(h, 10) && r.itemA.Some? && r.itemB.Some? &&
      ((r.itemA.value.id == idA && r.itemB.value.id == idB) ||
       (r.itemA.value.id == idB && r.itemB.value.id == idA))
  }

  /** The pair of the latest comparison is recent, in both orders. */
  lemma LatestPairIsRecent(h: seq<Record>)
    requires h != [] && h[|h| - 1].itemA.Some? && h[|h| - 1].itemB.Some?
    ensures var r := h[|h| - 1];
            RecentlyCompared(h, r.itemA.value.id, r.itemB.value.id) &&
            RecentlyCompared(h, r.itemB.value.id, r.itemA.value.id)
  {
    var w := Recent(h, 10);
    assert w[|w| - 1] == h[|h| - 1];
    assert w[|w| - 1] in w;
  }

  /** A pair the loop scores: both ids truthy, not recently compared. */
  predicate Eligible(h: seq<Record>, a: Item, b: Item) {
    a.id != 0 && b.id != 0 && !RecentlyCompared(h, a.id, b.id)
  }

  function Abs(x: real): real {
    if x < 0.0 then -x else x
  }

  /** For c > 0 and 0 < e <= d: 0 < c / d <= c / e, strictly when e < d. */
  lemma DivideByLarger(c: real, d: real, e: real)
    requires c > 0.0 && 0.0 < e <= d
    ensures 0.0 < c / d <= c / e
    ensures e < d ==> c / d < c / e
  {
    var x, y := c / d, c / e;
    assert x * d == c && y * e == c;
    assert x * e <= x * d;
    assert e < d ==> x * e < x * d;
  }

  /** Factor 1, `1000 / (|ratingA - ratingB| + 10)`: 100 for equal ratings, less as they part. */
  function ProximityScore(a: Item, b: Item): (s: real)
    ensures 0.0 < s <= 100.0
  {
    DivideByLarger(1000.0, Abs(a.rating - b.rating) + 10.0, 10.0);
    1000.0 / (Abs(a.rating - b.rating) + 10.0)
  }

  /** Closer ratings never score lower on proximity, and strictly closer ones score higher. */
  lemma ProximityPrefersCloser(a: Item, b: Item, c: Item, d: Item)
    ensures Abs(a.rating - b.rating) <= Abs(c.rating - d.rating) ==> ProximityScore(a, b) >= ProximityScore(c, d)
    ensures Abs(a.rating - b.rating) < Abs(c.rating - d.rating) ==> ProximityScore(a, b) > ProximityScore(c, d)
  {
    var x, y := Abs(a.rating - b.rating) + 10.0, Abs(c.rating - d.rating) + 10.0;
    if x <= y {
      DivideByLarger(1000.0, y, x);
    }
  }

  function MaxNat(x: nat, y: nat): nat {
    if x >= y then x else y
  }

  /** Factor 2, `100 / (max(countA, countB) + 1)`: 100 for two new items, less the more either was compared. */
  function CoverageScore(countA: nat, countB: nat): (s: real)
    ensures 0.0 < s <= 100.0
    ensures countA == 0 && countB == 0 ==> s == 100.0
  {
    DivideByLarger(100.0, (MaxNat(countA, countB) + 1) as real, 1.0);
    100.0 / (MaxNat(countA, countB) + 1) as real
  }

  /** A pair whose busier item was compared less often scores higher on coverage. */
  lemma CoveragePrefersFewer(countA: nat, countB: nat, countC: nat, countD: nat)
    requires MaxNat(countA, countB) < MaxNat(countC, countD)
    ensures CoverageScore(countA, countB) > CoverageScore(countC, countD)
  {
    DivideByLarger(100.0, (MaxNat(countC, countD) + 1) as real, (MaxNat(countA, countB) + 1) as real);
  }

  /** `0 <= x, y <= 1`: x * y * 100 lies in [0, 100]. */
  lemma Percent(x: real, y: real)
    requires 0.0 <= x <= 1.0 && 0.0 <= y <= 1.0
    ensures 0.0 <= x * y * 100.0 <= 100.0
  {
    var m := x * y;
    assert 0.0 <= m <= y by {
      assert m <= 1.0 * y;
    }
  }

  /**
   * Factor 3, `(1 - |e - 1/2| * 2) * (1 - confidence) * 100`: 100 for an
   * even, unconfident prediction, and 0 for a certain outcome.
   */
  function UncertaintyScore(p: Prediction): (s: real)
    ensures 0.0 <= p.expectedOutcomeA <= 1.0 && 0.0 <= p.confidence <= 1.0 ==> 0.0 <= s <= 100.0
    ensures p.expectedOutcomeA == 0.5 && p.confidence == 0.0 ==> s == 100.0
    ensures p.expectedOutcomeA == 0.0 || p.expectedOutcomeA == 1.0 || p.confidence == 1.0 ==> s == 0.0
  {
    var closeness := 1.0 - Abs(p.expectedOutcomeA - 0.5) * 2.0;
    var doubt := 1.0 - p.confidence;
    assert 0.0 <= p.expectedOutcomeA <= 1.0 && 0.0 <= p.confidence <= 1.0 ==>
             0.0 <= closeness * doubt * 100.0 <= 100.0 by {
      if 0.0 <= p.expectedOutcomeA <= 1.0 && 0.0 <= p.confidence <= 1.0 {
        Percent(closeness, doubt);
      }
    }
    closeness * doubt * 100.0
  }

  /**
   * Factor 4: for a positive similarity, `(1 - |sim - 1/2| * 2) * 100`,
   * 100 for half the categories shared and 0 for all or none; 0 otherwise.
   */
  function InterestScore(similarity: real): (s: real)
    ensures 0.0 <= similarity <= 1.0 ==> 0.0 <= s <= 100.0
    ensures similarity == 0.5 ==> s == 100.0
    ensures similarity <= 0.0 || similarity == 1.0 ==> s == 0.0
  {
    if similarity > 0.0 then (1.0 - Abs(similarity - 0.5) * 2.0) * 100.0 else 0.0
  }

  /**
   * The weighted sum of the four factors: coverage first while the history
   * is shorter than 10, then proximity first or uncertainty first as the
   * options say. Each set of weights sums to 1.
   */
  function PhaseScore(historySize: nat, prioritizeCloseRatings: bool,
                      proximity: real, coverage: real, uncertainty: real, interest: real): (s: real)
    ensures (&& 0.0 <= proximity <= 100.0 && 0.0 <= coverage <= 100.0
             && 0.0 <= uncertainty <= 100.0 && 0.0 <= interest <= 100.0) ==> 0.0 <= s <= 100.0
    ensures 0.0 < proximity && 0.0 < coverage && 0.0 <= uncertainty && 0.0 <= interest ==> 0.0 < s
    ensures proximity == coverage == uncertainty == interest ==> s == proximity
  {
    if historySize < 10 then coverage * 0.5 + interest * 0.3 + proximity * 0.2
    else if prioritizeCloseRatings then proximity * 0.4 + uncertainty * 0.3 + coverage * 0.2 + interest * 0.1
    else uncertainty * 0.4 + coverage * 0.3 + interest * 0.2 + proximity * 0.1
  }

  /** What the score of a pair depends on besides the pair. */
  datatype Scoring = Scoring(pow10: Exp10, history: seq<Record>, prioritizeCloseRatings: bool)

  /** The score of the pair (a, b), with the counts of the whole history. */
  function Score(sc: Scoring, a: Item, b: Item): real {
    var counts := CountMap(sc.history);
    PhaseScore(|sc.history|, sc.prioritizeCloseRatings,
      ProximityScore(a, b),
      CoverageScore(Lookup(counts, a.id), Lookup(counts, b.id)),
      UncertaintyScore(Predict(sc.pow10, Some(a), Some(b), sc.history)),
      InterestScore(Similarity(Some(a), Some(b))))
  }

  /** Scores lie in (0, 100] when item A repeats no category value. */
  lemma ScoreBounds(sc: Scoring, a: Item, b: Item)
    requires DuplicateFree(a)
    ensures 0.0 < Score(sc, a, b) <= 100.0
  {
    SimilarityAtMostOne(a, b);
  }

  /** An entry of `potentialPairs`. */
  datatype Candidate = Candidate(itemA: Item, itemB: Item, score: real, prediction: Prediction)

  function CandidateFor(sc: Scoring, a: Item, b: Item): Candidate {
    Candidate(a, b, Score(sc, a, b), Predict(sc.pow10, Some(a), Some(b), sc.history))
  }

  /** The candidates (s[i], s[q]) for i < q < j, in order of q. */
  function Row(sc: Scoring, s: seq<Item>, i: nat, j: nat): seq<Candidate>
    requires i < j <= |s|
    decreases j
  {
    if j == i + 1 then []
    else Row(sc, s, i, j - 1) + if Eligible(sc.history, s[i], s[j - 1]) then [CandidateFor(sc, s[i], s[j - 1])] else []
  }

  /** The candidates of the first `i` rows. */
  function Rows(sc: Scoring, s: seq<Item>, i: nat): seq<Candidate>
    requires i <= |s|
  {
    if i == 0 then [] else Rows(sc, s, i - 1) + Row(sc, s, i - 1, |s|)
  }

  /** `potentialPairs` before sorting: every eligible pair of positions p < q of `s`. */
  function Enumerate(sc: Scoring, s: seq<Item>): seq<Candidate> {
    Rows(sc, s, |s|)
  }

  /** A candidate of `s`: two entries at distinct positions, eligible, scored by `Score`. */
  predicate Sound(sc: Scoring, s: seq<Item>, c: Candidate) {
    && multiset{c.itemA, c.itemB} <= multiset(s)
    && Eligible(sc.history, c.itemA, c.itemB)
    && c == CandidateFor(sc, c.itemA, c.itemB)
  }

  lemma {:induction false} RowSound(sc: Scoring, s: seq<Item>, i: nat, j: nat)
    requires i < j <= |s|
    ensures forall c :: c in Row(sc, s, i, j) ==> Sound(sc, s, c)
    decreases j
  {
    if j > i + 1 {
      RowSound(sc, s, i, j - 1);
      TwoPositions(s, i, j - 1);
    }
  }

  lemma {:induction false} RowsSound(sc: Scoring, s: seq<Item>, i: nat)
    requires i <= |s|
    ensures forall c :: c in Rows(sc, s, i) ==> Sound(sc, s, c)
  {
    if i > 0 {
      RowsSound(sc, s, i - 1);
      RowSound(sc, s, i - 1, |s|);
    }
  }

  lemma {:induction false} RowComplete(sc: Scoring, s: seq<Item>, i: nat, j: nat, q: nat)
    requires i < q < j <= |s| && Eligible(sc.history, s[i], s[q])
    ensures CandidateFor(sc, s[i], s[q]) in Row(sc, s, i, j)
    decreases j
  {
    if q < j - 1 {
      RowComplete(sc, s, i, j - 1, q);
    }
  }

  lemma {:induction false} RowsComplete(sc: Scoring, s: seq<Item>, i: nat, p: nat, q: nat)
    requires p < i <= |s| && p < q < |s| && Eligible(sc.history, s[p], s[q])
    ensures CandidateFor(sc, s[p], s[q]) in Rows(sc, s, i)
  {
    if p == i - 1 {
      RowComplete(sc, s, p, |s|, q);
    } else {
      RowsComplete(sc, s, i - 1, p, q);
    }
  }

  /**
   * The enumeration holds exactly the eligible pairs: every entry is an
   * eligible, correctly scored pair at two distinct positions, and every
   * eligible pair of positions p < q has its entry.
   */
  lemma EnumerationExact(sc: Scoring, s: seq<Item>)
    ensures forall c :: c in Enumerate(sc, s) ==> Sound(sc, s, c)
    ensures forall p, q :: 0 <= p < q < |s| && Eligible(sc.history, s[p], s[q]) ==>
              CandidateFor(sc, s[p], s[q]) in Enumerate(sc, s)
  {
    RowsSound(sc, s, |s|);
    forall p, q | 0 <= p < q < |s| && Eligible(sc.history, s[p], s[q])
      ensures CandidateFor(sc, s[p], s[q]) in Enumerate(sc, s)
    {
      RowsComplete(sc, s, |s|, p, q);
    }
  }

  function NegatedScore(c: Candidate): real {
    -c.score
  }

  /** `potentialPairs` sorted by descending score. */
  function Ranked(sc: Scoring, s: seq<Item>): (r: seq<Candidate>)
    ensures multiset(r) == multiset(Enumerate(sc, s))
    ensures forall k, l :: 0 <= k < l < |r| ==> r[k].score >= r[l].score
  {
    var r := SortBy(Enumerate(sc, s), NegatedScore);
    assert forall k, l :: 0 <= k < l < |r| ==> NegatedScore(r[k]) <= NegatedScore(r[l]);
    r
  }

  /** The first ranked pair scores at least as high as any eligible pair of positions. */
  lemma TopIsBest(sc: Scoring, s: seq<Item>, p: nat, q: nat)
    requires p < q < |s| && Eligible(sc.history, s[p], s[q])
    ensures Ranked(sc, s) != [] && Ranked(sc, s)[0].score >= Score(sc, s[p], s[q])
  {
    EnumerationExact(sc, s);
    var c := CandidateFor(sc, s[p], s[q]);
    var r := Ranked(sc, s);
    assert c in multiset(r);
    var k :| 0 <= k < |r| && r[k] == c;
    assert k == 0 || r[0].score >= r[k].score;
  }

  /** `adaptiveRandomness`: 0.9 - n / 50, but at least 0.1. */
  function AdaptiveRandomness(historySize: nat): (ar: real)
    ensures 0.1 <= ar <= 0.9
    ensures historySize >= 40 ==> ar == 0.1
  {
    Max(0.1, 0.9 - historySize as real / 50.0)
  }

  /**
   * Which of the ranked pairs is returned for `rand`: the first when
   * `rand < 1 - adaptiveRandomness` or only one pair exists, else the second
   * below `1 - adaptiveRandomness / 2`, else the third if there is one.
   */
  function PickIndex(rand: real, historySize: nat, count: nat): (k: nat)
    requires count >= 1
    ensures k < count && k < 3
    ensures rand < 1.0 - AdaptiveRandomness(historySize) ==> k == 0
    ensures historySize >= 40 && rand < 0.9 ==> k == 0
    ensures k == 1 ==> 1.0 - AdaptiveRandomness(historySize) <= rand < 1.0 - AdaptiveRandomness(historySize) / 2.0
    ensures k == 2 ==> rand >= 1.0 - AdaptiveRandomness(historySize) / 2.0
    ensures count >= 2 && 1.0 - AdaptiveRandomness(historySize) <= rand < 1.0 - AdaptiveRandomness(historySize) / 2.0 ==> k == 1
    ensures count >= 3 && rand >= 1.0 - AdaptiveRandomness(historySize) / 2.0 ==> k == 2
    ensures count == 2 && rand >= 1.0 - AdaptiveRandomness(historySize) / 2.0 ==> k == 0
  {
    var ar := AdaptiveRandomness(historySize);
    if rand < 1.0 - ar || count == 1 then 0
    else if rand < 1.0 - ar / 2.0 && count >= 2 then 1
    else if count >= 3 then 2
    else 0
  }

  /** The `forEach` over the history that fills `comparisonCounts`. */
  method CountComparisons(h: seq<Record>) returns (comparisonCounts: map<int, nat>)
    ensures comparisonCounts == CountMap(h)
    ensures forall id :: Lookup(comparisonCounts, id) == Appearances(h, id)
  {
    comparisonCounts := map[];
    var k := 0;
    while k < |h|
      invariant 0 <= k <= |h|
      invariant comparisonCounts == CountMap(h[..k])
    {
      assert h[..k + 1][..k] == h[..k];
      var comp := h[k];
      if comp.itemA.Some? && comp.itemA.value.id != 0 {
        comparisonCounts := comparisonCounts[comp.itemA.value.id := Lookup(comparisonCounts, comp.itemA.value.id) + 1];
      }
      if comp.itemB.Some? && comp.itemB.value.id != 0 {
        comparisonCounts := comparisonCounts[comp.itemB.value.id := Lookup(comparisonCounts, comp.itemB.value.id) + 1];
      }
      k := k + 1;
    }
    assert h[..|h|] == h;
    forall id | true
      ensures Lookup(comparisonCounts, id) == Appearances(h, id)
    {
      CountMapCounts(h, id);
    }
  }

  /** The four factors of one eligible pair and their weighted sum, as the loop body computes them. */
  method ScorePair(sc: Scoring, comparisonCounts: map<int, nat>, itemA: Item, itemB: Item) returns (c: Candidate)
    requires comparisonCounts == CountMap(sc.history)
    ensures c == CandidateFor(sc, itemA, itemB)
  {
    var h := sc.history;
    var ratingProximityScore := ProximityScore(itemA, itemB);
    var comparisonCountScore := CoverageScore(Lookup(comparisonCounts, itemA.id), Lookup(comparisonCounts, itemB.id));
    var prediction := PredictPreference(sc.pow10, Some(itemA), Some(itemB), h);
    var uncertaintyScore := UncertaintyScore(prediction);
    var similarity := CalculateCategorySimilarity(Some(itemA), Some(itemB));
    var similarityScore := InterestScore(similarity);
    var score := PhaseScore(|h|, sc.prioritizeCloseRatings,
      ratingProximityScore, comparisonCountScore, uncertaintyScore, similarityScore);
    c := Candidate(itemA, itemB, score, prediction);
  }

  /** The nested loops over the sorted items that collect `potentialPairs`. */
  method FindPotentialPairs(sc: Scoring, comparisonCounts: map<int, nat>, sortedItems: seq<Item>)
    returns (potentialPairs: seq<Candidate>)
    requires comparisonCounts == CountMap(sc.history)
    ensures potentialPairs == Enumerate(sc, sortedItems)
  {
    potentialPairs := [];
    var i := 0;
    while i < |sortedItems|
      invariant 0 <= i <= |sortedItems|
      invariant potentialPairs == Rows(sc, sortedItems, i)
    {
      var j := i + 1;
      while j < |sortedItems|
        invariant i + 1 <= j <= |sortedItems|
        invariant potentialPairs == Rows(sc, sortedItems, i) + Row(sc, sortedItems, i, j)
      {
        var itemA, itemB := sortedItems[i], sortedItems[j];
        if itemA.id != 0 && itemB.id != 0 && !RecentlyCompared(sc.history, itemA.id, itemB.id) {
          var candidate := ScorePair(sc, comparisonCounts, itemA, itemB);
          potentialPairs := potentialPairs + [candidate];
        }
        j := j + 1;
      }
      i := i + 1;
    }
  }

  /** The category filter, and the fall back to all items when fewer than two pass. */
  method FilterForSelection(items: seq<Item>, selected: map<string, seq<string>>) returns (filteredItems: seq<Item>)
    ensures filteredItems == Pool(items, selected)
  {
    filteredItems := items;
    if HasActiveFilters(selected) {
      filteredItems := FilterItems(items, selected);
      if |filteredItems| < 2 {
        filteredItems := items;
      }
    }
  }

  /** Two entries at the first two of the shuffled indices: distinct positions of `s`. */
  method RandomPair(s: seq<Item>, draws: seq<real>) returns (a: Item, b: Item)
    requires |s| >= 2 && ValidDraws(draws) && |draws| + 1 >= |s|
    ensures multiset{a, b} <= multiset(s)
  {
    var randomIndices := GetRandomIndices(|s|, 2, draws);
    TwoPositions(s, randomIndices[0], randomIndices[1]);
    a, b := s[randomIndices[0]], s[randomIndices[1]];
  }

  /** Sorts the candidates by descending score and takes the one `PickIndex` names. */
  method PickRanked(sc: Scoring, sortedItems: seq<Item>, potentialPairs: seq<Candidate>, rand: real)
    returns (chosen: Candidate)
    requires potentialPairs == Enumerate(sc, sortedItems) && potentialPairs != []
    ensures Ranked(sc, sortedItems) != []
    ensures chosen == Ranked(sc, sortedItems)[PickIndex(rand, |sc.history|, |Ranked(sc, sortedItems)|)]
    ensures Sound(sc, sortedItems, chosen)
  {
    var ranked := SortBy(potentialPairs, NegatedScore);
    assert ranked == Ranked(sc, sortedItems);
    chosen := ranked[PickIndex(rand, |sc.history|, |ranked|)];
    EnumerationExact(sc, sortedItems);
    assert chosen in multiset(potentialPairs);
  }

  /**
   * `selectComparisonPair`: None (the source's `[null, null]`) for fewer
   * than two items; otherwise two entries at distinct positions of the
   * filtered items. With a history and some eligible pair, the pair is the
   * ranked candidate `PickIndex` chooses, so it is never a pair compared in
   * the last ten records.
   */
  method SelectComparisonPair(pow10: Exp10, items: seq<Item>, h: seq<Record>, options: Options,
                              rand: real, draws: seq<real>) returns (pair: Option<(Item, Item)>)
    requires 0.0 <= rand < 1.0
    requires ValidDraws(draws) && |draws| + 1 >= |items|
    ensures pair.None? <==> |items| < 2
    ensures pair.Some? ==> multiset{pair.value.0, pair.value.1} <= multiset(Pool(items, options.selectedCategories))
    ensures var sc := Scoring(pow10, h, options.prioritizeCloseRatings);
            var ranked := Ranked(sc, SortBy(Pool(items, options.selectedCategories), RatingOf));
            pair.Some? && h != [] && ranked != [] ==>
              var c := ranked[PickIndex(rand, |h|, |ranked|)];
              pair.value == (c.itemA, c.itemB) && Eligible(h, c.itemA, c.itemB)
  {
    if |items| < 2 {
      return None;
    }
    var filteredItems := FilterForSelection(items, options.selectedCategories);

    if |h| == 0 {
      var a, b := RandomPair(filteredItems, draws);
      return Some((a, b));
    }

    var sortedItems := SortBy(filteredItems, RatingOf);
    var sc := Scoring(pow10, h, options.prioritizeCloseRatings);
    var comparisonCounts := CountComparisons(h);
    var potentialPairs := FindPotentialPairs(sc, comparisonCounts, sortedItems);

    if |potentialPairs| == 0 {
      assert Ranked(sc, sortedItems) == [];
      var a, b := RandomPair(filteredItems, draws);
      return Some((a, b));
    }

    var chosen := PickRanked(sc, sortedItems, potentialPairs, rand);
    pair := Some((chosen.itemA, chosen.itemB));
  }
}
