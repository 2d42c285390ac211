/**
 * `calculateConfidence`: how far the current ranking can be trusted, in
 * [0, 1], from five factors weighted by the length of the history:
 * the share of possible pairs compared, the spread of the ratings, the
 * absence of cyclic preferences among the last twenty decisions, how well
 * the predictor recalls the last ten decisions, and the share of category
 * values that took part in a comparison.
 */
module ConfidenceEstimator {
  import opened Wrappers
  import opened Catalog
  import opened Ratings
  import opened CategoryMatch
  import opened Predictor

  // Factor 1: comparison coverage

  /** Both compared items are present. */
  predicate HasPair(r: Record) {
    r.itemA.Some? && r.itemB.Some?
  }

  /** The key of a record's pair, the same in either order: the set of its ids. */
  function PairKey(r: Record): set<int>
    requires HasPair(r)
  {
    {r.itemA.value.id, r.itemB.value.id}
  }

  /** `completedComparisons`: the keys of all pairs compared in `h`. */
  function PairKeys(h: seq<Record>): set<set<int>> {
    set k | 0 <= k < |h| && HasPair(h[k]) :: PairKey(h[k])
  }

  lemma PairKeysSnoc(h: seq<Record>, k: nat)
    requires k < |h|
    ensures PairKeys(h[..k + 1]) == PairKeys(h[..k]) + if HasPair(h[k]) then {PairKey(h[k])} else {}
  {
    var a, b := h[..k], h[..k + 1];
    forall key | key in PairKeys(b)
      ensures key in PairKeys(a) + if HasPair(h[k]) then {PairKey(h[k])} else {}
    {
      var i :| 0 <= i < |b| && HasPair(b[i]) && key == PairKey(b[i]);
      if i < k {
        assert a[i] == b[i];
      }
    }
    forall key | key in PairKeys(a)
      ensures key in PairKeys(b)
    {
      var i :| 0 <= i < |a| && HasPair(a[i]) && key == PairKey(a[i]);
      assert b[i] == a[i];
    }
    if HasPair(h[k]) {
      assert b[k] == h[k];
    }
  }

  /** The `forEach` that fills `completedComparisons`. */
  method CompletedComparisons(h: seq<Record>) returns (completed: set<set<int>>)
    ensures completed == PairKeys(h)
  {
    completed := {};
    var k := 0;
    while k < |h|
      invariant 0 <= k <= |h|
      invariant completed == PairKeys(h[..k])
    {
      PairKeysSnoc(h, k);
      if HasPair(h[k]) {
        completed := completed + {PairKey(h[k])};
      }
      k := k + 1;
    }
    assert h[..|h|] == h;
  }

  /** Comparing a pair again, in either order, adds no key. */
  lemma RepeatAddsNothing(h: seq<Record>, k: nat, r: Record)
    requires k < |h| && HasPair(h[k]) && HasPair(r)
    requires (r.itemA.value.id == h[k].itemA.value.id && r.itemB.value.id == h[k].itemB.value.id) ||
             (r.itemA.value.id == h[k].itemB.value.id && r.itemB.value.id == h[k].itemA.value.id)
    ensures PairKeys(h + [r]) == PairKeys(h)
  {
    var g := h + [r];
    assert PairKey(r) == PairKey(h[k]);
    forall key | key in PairKeys(g)
      ensures key in PairKeys(h)
    {
      var i :| 0 <= i < |g| && HasPair(g[i]) && key == PairKey(g[i]);
      if i < |h| {
        assert g[i] == h[i];
      } else {
        assert key == PairKey(h[k]);
      }
    }
    forall key | key in PairKeys(h)
      ensures key in PairKeys(g)
    {
      var i :| 0 <= i < |h| && HasPair(h[i]) && key == PairKey(h[i]);
      assert g[i] == h[i];
    }
  }

  /** `uniqueComparisonCount / totalPossibleComparisons` for n items. */
  function ComparisonCoverage(itemCount: nat, h: seq<Record>): (c: real)
    requires itemCount >= 2
    ensures c >= 0.0
  {
    var totalPossibleComparisons := (itemCount * (itemCount - 1)) as real / 2.0;
    |PairKeys(h)| as real / totalPossibleComparisons
  }

  /** The keys `{x, id}` for the ids of the listed items. */
  function KeysWith(x: int, items: seq<Item>): set<set<int>> {
    set k | 0 <= k < |items| :: {x, items[k].id}
  }

  lemma {:induction false} KeysWithSize(x: int, items: seq<Item>)
    ensures |KeysWith(x, items)| <= |items|
  {
    if items != [] {
      var init := items[..|items| - 1];
      assert KeysWith(x, items) == KeysWith(x, init) + {{x, items[|items| - 1].id}} by {
        forall key | key in KeysWith(x, items) ensures key in KeysWith(x, init) + {{x, items[|items| - 1].id}} {
          var k :| 0 <= k < |items| && key == {x, items[k].id};
          if k < |init| {
            assert init[k] == items[k];
          }
        }
        forall key | key in KeysWith(x, init) ensures key in KeysWith(x, items) {
          var k :| 0 <= k < |init| && key == {x, init[k].id};
          assert items[k] == init[k];
        }
      }
      KeysWithSize(x, init);
    }
  }

  /** Every key of two listed items with different ids: the pairs a history of listed items can compare. */
  function PossibleKeys(items: seq<Item>): set<set<int>> {
    set i, j | 0 <= i < |items| && 0 <= j < |items| && items[i].id != items[j].id :: {items[i].id, items[j].id}
  }

  /** n items make at most n(n-1)/2 keys. */
  lemma {:induction false} PossibleKeysSize(items: seq<Item>)
    ensures 2 * |PossibleKeys(items)| <= |items| * (|items| - 1)
  {
    if items != [] {
      var init, x := items[..|items| - 1], items[|items| - 1].id;
      assert PossibleKeys(items) <= PossibleKeys(init) + KeysWith(x, init) by {
        forall key | key in PossibleKeys(items) ensures key in PossibleKeys(init) + KeysWith(x, init) {
          var i, j :| 0 <= i < |items| && 0 <= j < |items| && items[i].id != items[j].id && key == {items[i].id, items[j].id};
          if i == |init| {
            assert init[j] == items[j];
          } else if j == |init| {
            assert init[i] == items[i];
            assert key == {x, init[i].id};
          } else {
            assert init[i] == items[i] && init[j] == items[j];
          }
        }
      }
      SubsetSize(PossibleKeys(items), PossibleKeys(init) + KeysWith(x, init));
      PossibleKeysSize(init);
      KeysWithSize(x, init);
      var m := |init|;
      assert m * (m - 1) + 2 * m == (m + 1) * m;
    }
  }

  /** Every record with both sides present compares two listed items with different ids. */
  predicate ComparesDistinctListedItems(items: seq<Item>, h: seq<Record>) {
    && ComparesListedItems(items, h)
    && forall k :: 0 <= k < |h| && HasPair(h[k]) ==> h[k].itemA.value.id != h[k].itemB.value.id
  }

  lemma {:induction false} PairKeysWithinPossible(items: seq<Item>, h: seq<Record>)
    requires ComparesDistinctListedItems(items, h)
    ensures PairKeys(h) <= PossibleKeys(items)
  {
    forall key | key in PairKeys(h) ensures key in PossibleKeys(items) {
      var k :| 0 <= k < |h| && HasPair(h[k]) && key == PairKey(h[k]);
      var a, b := h[k].itemA.value, h[k].itemB.value;
      var i :| 0 <= i < |items| && items[i] == a;
      var j :| 0 <= j < |items| && items[j] == b;
      assert key == {items[i].id, items[j].id};
    }
  }

  /**
   * Comparison coverage is a share, at most 1, when the history compares
   * only pairs of different listed items.
   */
  lemma ComparisonCoverageAtMostOne(items: seq<Item>, h: seq<Record>)
    requires |items| >= 2
    requires ComparesDistinctListedItems(items, h)
    ensures ComparisonCoverage(|items|, h) <= 1.0
  {
    PairKeysWithinPossible(items, h);
    SubsetSize(PairKeys(h), PossibleKeys(items));
    PossibleKeysSize(items);
    HalfShare(|PairKeys(h)|, |items| * (|items| - 1));
  }

  lemma HalfShare(p: nat, total: nat)
    requires 2 * p <= total && total > 0
    ensures p as real / (total as real / 2.0) <= 1.0
  {
    var q := total as real / 2.0;
    assert p as real <= q;
    assert p as real / q <= q / q;
  }

  // Factor 2: rating distribution

  /** `Math.min(...ratings)`. */
  function MinRating(items: seq<Item>): (m: real)
    requires items != []
    ensures forall k :: 0 <= k < |items| ==> m <= items[k].rating
    ensures exists k :: 0 <= k < |items| && m == items[k].rating
  {
    if |items| == 1 then items[0].rating
    else
      var init := items[..|items| - 1];
      assert forall k :: 0 <= k < |init| ==> init[k] == items[k];
      Min(MinRating(init), items[|items| - 1].rating)
  }

  /** `Math.max(...ratings)`. */
  function MaxRating(items: seq<Item>): (m: real)
    requires items != []
    ensures forall k :: 0 <= k < |items| ==> items[k].rating <= m
    ensures exists k :: 0 <= k < |items| && m == items[k].rating
  {
    if |items| == 1 then items[0].rating
    else
      var init := items[..|items| - 1];
      assert forall k :: 0 <= k < |init| ==> init[k] == items[k];
      Max(MaxRating(init), items[|items| - 1].rating)
  }

  /**
   * `ratingDistribution`: the rating range as a share of 800, capped at 1;
   * 0 when all ratings agree, 1 once they span 800 points.
   */
  function RatingDistribution(items: seq<Item>): (d: real)
    requires items != []
    ensures 0.0 <= d <= 1.0
    ensures MaxRating(items) - MinRating(items) >= 800.0 ==> d == 1.0
    ensures (forall k :: 0 <= k < |items| ==> items[k].rating == items[0].rating) ==> d == 0.0
  {
    Min(1.0, (MaxRating(items) - MinRating(items)) / 800.0)
  }

  // Factor 3: consistency

  /**
   * `winMap`: the ids that won, in order of their first win, and for each
   * the ids it beat, in order, each once (the source's `Map` of `Set`s).
   */
  datatype WinGraph = WinGraph(order: seq<int>, losers: map<int, seq<int>>)

  /** The winners listed in `order` are the keys of `losers`. */
  ghost predicate Keyed(g: WinGraph) {
    forall w :: w in g.losers <==> w in g.order
  }

  /** `winner` beat `loser` in some recorded decision. */
  predicate Beat(g: WinGraph, winner: int, loser: int) {
    winner in g.losers && loser in g.losers[winner]
  }

  /** Records the win of `winner` over `loser`. */
  function AddWin(g: WinGraph, winner: int, loser: int): (r: WinGraph)
    requires Keyed(g)
    ensures Keyed(r)
    ensures forall w, l :: Beat(r, w, l) <==> Beat(g, w, l) || (w == winner && l == loser)
  {
    if winner !in g.losers then WinGraph(g.order + [winner], g.losers[winner := [loser]])
    else if loser in g.losers[winner] then g
    else WinGraph(g.order, g.losers[winner := g.losers[winner] + [loser]])
  }

  /** The record has a winner and a loser, with these ids. */
  predicate WonOver(r: Record, winner: int, loser: int) {
    r.winner.Some? && r.loser.Some? && r.winner.value.id == winner && r.loser.value.id == loser
  }

  /** `winMap` after visiting the records of `rs`; records without winner or loser are skipped. */
  function BuildWinGraph(rs: seq<Record>): (g: WinGraph)
    ensures Keyed(g)
  {
    if rs == [] then WinGraph([], map[])
    else
      var g := BuildWinGraph(rs[..|rs| - 1]);
      var r := rs[|rs| - 1];
      if r.winner.Some? && r.loser.Some? then AddWin(g, r.winner.value.id, r.loser.value.id) else g
  }

  /** The graph has an edge from w to l exactly when some record says w beat l. */
  lemma {:induction false} WinGraphEdges(rs: seq<Record>, w: int, l: int)
    ensures Beat(BuildWinGraph(rs), w, l) <==> exists k :: 0 <= k < |rs| && WonOver(rs[k], w, l)
  {
    if rs != [] {
      var init := rs[..|rs| - 1];
      WinGraphEdges(init, w, l);
      if exists k :: 0 <= k < |init| && WonOver(init[k], w, l) {
        var k :| 0 <= k < |init| && WonOver(init[k], w, l);
        assert rs[k] == init[k];
      }
      if exists k :: 0 <= k < |rs| && WonOver(rs[k], w, l) {
        var k :| 0 <= k < |rs| && WonOver(rs[k], w, l);
        if k < |init| {
          assert init[k] == rs[k];
        }
      }
    }
  }

  /** Three ids that beat each other in a cycle: a transitivity violation. */
  ghost predicate Cyclic(g: WinGraph) {
    exists a, b, c :: Beat(g, a, b) && Beat(g, b, c) && Beat(g, c, a)
  }

  /** The number of chains checked and of chains closed into a cycle. */
  datatype Tally = Tally(checks: nat, violations: nat)

  function Plus(s: Tally, t: Tally): Tally {
    Tally(s.checks + t.checks, s.violations + t.violations)
  }

  /** For the chain `winner` beat l, each m in `ms` that l beat: one check, a violation when m beat `winner`. */
  function ThirdLevel(g: WinGraph, winner: int, ms: seq<int>): (t: Tally)
    ensures t.violations <= t.checks
  {
    if ms == [] then Tally(0, 0)
    else
      var p := ThirdLevel(g, winner, ms[..|ms| - 1]);
      Tally(p.checks + 1, p.violations + if Beat(g, ms[|ms| - 1], winner) then 1 else 0)
  }

  /** For each l in `ls` that `winner` beat and that itself beat someone, the checks of its losers. */
  function SecondLevel(g: WinGraph, winner: int, ls: seq<int>): (t: Tally)
    ensures t.violations <= t.checks
  {
    if ls == [] then Tally(0, 0)
    else
      var p := SecondLevel(g, winner, ls[..|ls| - 1]);
      var l := ls[|ls| - 1];
      if l in g.losers then Plus(p, ThirdLevel(g, winner, g.losers[l])) else p
  }

  /** The checks of every winner in `ws`. */
  function FirstLevel(g: WinGraph, ws: seq<int>): (t: Tally)
    requires forall w :: w in ws ==> w in g.losers
    ensures t.violations <= t.checks
  {
    if ws == [] then Tally(0, 0)
    else
      var w := ws[|ws| - 1];
      Plus(FirstLevel(g, ws[..|ws| - 1]), SecondLevel(g, w, g.losers[w]))
  }

  /** No m in `ms` beat `winner`. */
  ghost predicate CleanThird(g: WinGraph, winner: int, ms: seq<int>) {
    forall m :: m in ms ==> !Beat(g, m, winner)
  }

  /** No chain `winner` > l > m with l in `ls` is closed by m beating `winner`. */
  ghost predicate CleanSecond(g: WinGraph, winner: int, ls: seq<int>) {
    forall l :: l in ls && l in g.losers ==> CleanThird(g, winner, g.losers[l])
  }

  /** No chain w > l > m with w in `ws` is closed by m beating w. */
  ghost predicate CleanFirst(g: WinGraph, ws: seq<int>) {
    forall w :: w in ws && w in g.losers ==> CleanSecond(g, w, g.losers[w])
  }

  lemma {:induction false} ThirdLevelClean(g: WinGraph, winner: int, ms: seq<int>)
    ensures ThirdLevel(g, winner, ms).violations == 0 <==> CleanThird(g, winner, ms)
  {
    if ms != [] {
      var init := ms[..|ms| - 1];
      ThirdLevelClean(g, winner, init);
      assert ms == init + [ms[|ms| - 1]];
    }
  }

  lemma {:induction false} SecondLevelClean(g: WinGraph, winner: int, ls: seq<int>)
    ensures SecondLevel(g, winner, ls).violations == 0 <==> CleanSecond(g, winner, ls)
  {
    if ls != [] {
      var init, l := ls[..|ls| - 1], ls[|ls| - 1];
      SecondLevelClean(g, winner, init);
      assert ls == init + [l];
      if l in g.losers {
        ThirdLevelClean(g, winner, g.losers[l]);
      }
    }
  }

  lemma CleanFirstSnoc(g: WinGraph, ws: seq<int>)
    requires ws != []
    ensures CleanFirst(g, ws) <==> CleanFirst(g, ws[..|ws| - 1]) && (ws[|ws| - 1] in g.losers ==> CleanSecond(g, ws[|ws| - 1], g.losers[ws[|ws| - 1]]))
  {
    assert ws == ws[..|ws| - 1] + [ws[|ws| - 1]];
  }

  lemma {:induction false} FirstLevelClean(g: WinGraph, ws: seq<int>)
    requires forall w :: w in ws ==> w in g.losers
    ensures FirstLevel(g, ws).violations == 0 <==> CleanFirst(g, ws)
  {
    if ws != [] {
      var init, w := ws[..|ws| - 1], ws[|ws| - 1];
      assert forall x :: x in init ==> x in ws;
      FirstLevelClean(g, init);
      SecondLevelClean(g, w, g.losers[w]);
      CleanFirstSnoc(g, ws);
    }
  }

  /** `consistencyScore`: 1 - violations / checks over the last 20 records, once there are more than 5. */
  function Consistency(h: seq<Record>): (c: real)
    ensures 0.0 <= c <= 1.0
  {
    if |h| <= 5 then 1.0
    else
      var g := BuildWinGraph(Recent(h, 20));
      var t := FirstLevel(g, g.order);
      if t.checks > 0 then
        RatioAtMostOne(t.violations, t.checks);
        1.0 - t.violations as real / t.checks as real
      else 1.0
  }

  /** A graph is cyclic exactly when some chain of its winners closes into a cycle. */
  lemma CyclicIffUnclean(g: WinGraph)
    requires Keyed(g)
    ensures Cyclic(g) <==> !CleanFirst(g, g.order)
  {
    if Cyclic(g) {
      var a, b, c :| Beat(g, a, b) && Beat(g, b, c) && Beat(g, c, a);
      assert a in g.order;
      assert !CleanThird(g, a, g.losers[b]);
      assert !CleanSecond(g, a, g.losers[a]);
    }
    if !CleanFirst(g, g.order) {
      var w :| w in g.order && w in g.losers && !CleanSecond(g, w, g.losers[w]);
      var l :| l in g.losers[w] && l in g.losers && !CleanThird(g, w, g.losers[l]);
      var m :| m in g.losers[l] && Beat(g, m, w);
      assert Beat(g, w, l) && Beat(g, l, m);
    }
  }

  /** For c > 0: 1 - v / c is 1 exactly when v is 0. */
  lemma ZeroRatio(v: nat, c: nat)
    requires c > 0
    ensures 1.0 - v as real / c as real == 1.0 <==> v == 0
  {
    var q := v as real / c as real;
    assert q * c as real == v as real;
  }

  /** The score is 1 exactly when the last twenty decisions hold no cycle of three (or the history is short). */
  lemma ConsistencyIffAcyclic(h: seq<Record>)
    ensures Consistency(h) == 1.0 <==> |h| <= 5 || !Cyclic(BuildWinGraph(Recent(h, 20)))
  {
    if |h| > 5 {
      var g := BuildWinGraph(Recent(h, 20));
      var t := FirstLevel(g, g.order);
      FirstLevelClean(g, g.order);
      CyclicIffUnclean(g);
      if t.checks > 0 {
        ZeroRatio(t.violations, t.checks);
        assert Consistency(h) == 1.0 - t.violations as real / t.checks as real;
      } else {
        assert Consistency(h) == 1.0;
      }
    }
  }

  /** The `forEach` over the last twenty records that fills `winMap`. */
  method BuildWinMap(recentComparisons: seq<Record>) returns (winMap: WinGraph)
    ensures winMap == BuildWinGraph(recentComparisons)
  {
    winMap := WinGraph([], map[]);
    var k := 0;
    while k < |recentComparisons|
      invariant 0 <= k <= |recentComparisons|
      invariant winMap == BuildWinGraph(recentComparisons[..k])
    {
      assert recentComparisons[..k + 1][..k] == recentComparisons[..k];
      var comp := recentComparisons[k];
      if comp.winner.Some? && comp.loser.Some? {
        var winnerId, loserId := comp.winner.value.id, comp.loser.value.id;
        ghost var before := winMap;
        if winnerId !in winMap.losers {
          winMap := WinGraph(winMap.order + [winnerId], winMap.losers[winnerId := []]);
        }
        if loserId !in winMap.losers[winnerId] {
          winMap := winMap.(losers := winMap.losers[winnerId := winMap.losers[winnerId] + [loserId]]);
        }
        if winnerId !in before.losers {
          var m := before.losers[winnerId := [loserId]];
          assert [] + [loserId] == [loserId];
          assert forall x :: x in winMap.losers <==> x in m;
          assert forall x :: x in m ==> winMap.losers[x] == m[x];
        }
        assert winMap == AddWin(before, winnerId, loserId);
      }
      k := k + 1;
    }
    assert recentComparisons[..|recentComparisons|] == recentComparisons;
  }

  /** The innermost `forEach`: one check per loser of `loserId`, a violation when it beat `winnerId`. */
  method CountChainChecks(g: WinGraph, winnerId: int, secondLevelLosers: seq<int>, checks0: nat, violations0: nat)
    returns (checks: nat, violations: nat)
    ensures Tally(checks, violations) == Plus(Tally(checks0, violations0), ThirdLevel(g, winnerId, secondLevelLosers))
  {
    checks, violations := checks0, violations0;
    var c := 0;
    while c < |secondLevelLosers|
      invariant 0 <= c <= |secondLevelLosers|
      invariant Tally(checks, violations) == Plus(Tally(checks0, violations0), ThirdLevel(g, winnerId, secondLevelLosers[..c]))
    {
      assert secondLevelLosers[..c + 1][..c] == secondLevelLosers[..c];
      var secondLevelLoserId := secondLevelLosers[c];
      checks := checks + 1;
      if secondLevelLoserId in g.losers && winnerId in g.losers[secondLevelLoserId] {
        violations := violations + 1;
      }
      c := c + 1;
    }
    assert secondLevelLosers[..|secondLevelLosers|] == secondLevelLosers;
  }

  /** The middle `forEach`: the chain checks of every loser of `winnerId` that itself beat someone. */
  method CountLoserChecks(g: WinGraph, winnerId: int, losers: seq<int>, checks0: nat, violations0: nat)
    returns (checks: nat, violations: nat)
    ensures Tally(checks, violations) == Plus(Tally(checks0, violations0), SecondLevel(g, winnerId, losers))
  {
    checks, violations := checks0, violations0;
    var b := 0;
    while b < |losers|
      invariant 0 <= b <= |losers|
      invariant Tally(checks, violations) == Plus(Tally(checks0, violations0), SecondLevel(g, winnerId, losers[..b]))
    {
      assert losers[..b + 1][..b] == losers[..b];
      var loserId := losers[b];
      if loserId in g.losers {
        checks, violations := CountChainChecks(g, winnerId, g.losers[loserId], checks, violations);
      }
      b := b + 1;
    }
    assert losers[..|losers|] == losers;
  }

  /** The three nested `forEach`s that count checks and violations. */
  method CountViolations(winMap: WinGraph) returns (checks: nat, violations: nat)
    requires Keyed(winMap)
    ensures Tally(checks, violations) == FirstLevel(winMap, winMap.order)
  {
    var g := winMap;
    checks, violations := 0, 0;
    var a := 0;
    while a < |g.order|
      invariant 0 <= a <= |g.order|
      invariant Tally(checks, violations) == FirstLevel(g, g.order[..a])
    {
      assert g.order[..a + 1][..a] == g.order[..a];
      var winnerId := g.order[a];
      checks, violations := CountLoserChecks(g, winnerId, g.losers[winnerId], checks, violations);
      a := a + 1;
    }
    assert g.order[..|g.order|] == g.order;
  }

  /** Factor 3 as the source computes it. */
  method ConsistencyScore(h: seq<Record>) returns (consistencyScore: real)
    ensures consistencyScore == Consistency(h)
  {
    consistencyScore := 1.0;
    if |h| > 5 {
      var recentComparisons := Recent(h, 20);
      var winMap := BuildWinMap(recentComparisons);
      var checks, violations := CountViolations(winMap);
      if checks > 0 {
        consistencyScore := 1.0 - violations as real / checks as real;
      }
    }
  }

  // Factor 4: prediction accuracy

  /** The decision at position k, predicted from every other record, is called correctly. */
  predicate PredictedCorrectly(pow10: Exp10, h: seq<Record>, k: nat)
    requires k < |h| && Complete(h[k])
  {
    var comp := h[k];
    var prediction := Predict(pow10, comp.itemA, comp.itemB, h[..k] + h[k + 1..]);
    var actualOutcome := if comp.winner.value.id == comp.itemA.value.id then 1 else 0;
    var predictedOutcome := if prediction.expectedOutcomeA >= 0.5 then 1 else 0;
    predictedOutcome == actualOutcome
  }

  predicate Hit(pow10: Exp10, h: seq<Record>, k: nat)
    requires k < |h|
  {
    Complete(h[k]) && PredictedCorrectly(pow10, h, k)
  }

  /** Whether each position in [lo, hi) was predicted correctly. */
  function Outcomes(pow10: Exp10, h: seq<Record>, lo: nat, hi: nat): (bs: seq<bool>)
    requires lo <= hi <= |h|
    ensures |bs| == hi - lo
    decreases hi
  {
    if hi == lo then [] else Outcomes(pow10, h, lo, hi - 1) + [Hit(pow10, h, hi - 1)]
  }

  /** Entry i of the outcomes says whether record lo + i was predicted correctly. */
  lemma {:induction false} OutcomesAt(pow10: Exp10, h: seq<Record>, lo: nat, hi: nat, i: nat)
    requires lo <= hi <= |h| && i < hi - lo
    ensures Outcomes(pow10, h, lo, hi)[i] == Hit(pow10, h, lo + i)
    decreases hi
  {
    if i < hi - 1 - lo {
      OutcomesAt(pow10, h, lo, hi - 1, i);
    }
  }

  /** The number of true entries. */
  function CountTrue(bs: seq<bool>): (n: nat)
    ensures n <= |bs|
  {
    if bs == [] then 0 else CountTrue(bs[..|bs| - 1]) + if bs[|bs| - 1] then 1 else 0
  }

  /** The positions of the true entries. */
  function TruePositions(bs: seq<bool>): set<int> {
    set k | 0 <= k < |bs| && bs[k]
  }

  /** Counting entry by entry gives the number of true positions. */
  lemma {:induction false} CountTruePositions(bs: seq<bool>)
    ensures CountTrue(bs) == |TruePositions(bs)|
  {
    if bs == [] {
      assert TruePositions(bs) == {};
    } else {
      var init := bs[..|bs| - 1];
      CountTruePositions(init);
      if bs[|bs| - 1] {
        assert TruePositions(bs) == TruePositions(init) + {|bs| - 1};
      } else {
        assert TruePositions(bs) == TruePositions(init);
      }
    }
  }

  /**
   * `predictionAccuracy`: once there are more than 10 records, the share of
   * the last ten that are predicted correctly; 0 otherwise.
   */
  function Accuracy(pow10: Exp10, h: seq<Record>): (acc: real)
    ensures 0.0 <= acc <= 1.0
    ensures |h| > 10 ==> acc == |TruePositions(Outcomes(pow10, h, |h| - 10, |h|))| as real / 10.0
  {
    if |h| > 10 then
      CountTruePositions(Outcomes(pow10, h, |h| - 10, |h|));
      CountTrue(Outcomes(pow10, h, |h| - 10, |h|)) as real / 10.0
    else 0.0
  }

  /** One more position adds its own hit to the count. */
  lemma OutcomesSnoc(pow10: Exp10, h: seq<Record>, lo: nat, k: nat, hit: bool)
    requires lo <= k < |h| && hit == Hit(pow10, h, k)
    ensures CountTrue(Outcomes(pow10, h, lo, k + 1)) == CountTrue(Outcomes(pow10, h, lo, k)) + if hit then 1 else 0
  {
    var done := Outcomes(pow10, h, lo, k);
    assert Outcomes(pow10, h, lo, k + 1) == done + [hit];
    assert (done + [hit])[..|done|] == done;
  }

  /** The body of the accuracy loop: predict record k from the others and compare with its winner. */
  method PredictionHit(pow10: Exp10, h: seq<Record>, k: nat) returns (hit: bool)
    requires k < |h|
    ensures hit == Hit(pow10, h, k)
  {
    var comp := h[k];
    if !Complete(comp) {
      return false;
    }
    var prediction := PredictPreference(pow10, comp.itemA, comp.itemB, h[..k] + h[k + 1..]);
    var actualOutcome := if comp.winner.value.id == comp.itemA.value.id then 1 else 0;
    var predictedOutcome := if prediction.expectedOutcomeA >= 0.5 then 1 else 0;
    hit := predictedOutcome == actualOutcome;
  }

  /** One iteration of the accuracy loop: test record k and count it when it was predicted correctly. */
  method CountPrediction(pow10: Exp10, h: seq<Record>, lo: nat, k: nat, correctPredictions: nat)
    returns (counted: nat)
    requires lo <= k < |h| && correctPredictions == CountTrue(Outcomes(pow10, h, lo, k))
    ensures counted == CountTrue(Outcomes(pow10, h, lo, k + 1))
  {
    var hit := PredictionHit(pow10, h, k);
    OutcomesSnoc(pow10, h, lo, k, hit);
    counted := if hit then correctPredictions + 1 else correctPredictions;
  }

  /** Factor 4 as the source computes it. */
  method EvaluatePredictions(pow10: Exp10, h: seq<Record>) returns (predictionAccuracy: real)
    ensures predictionAccuracy == Accuracy(pow10, h)
  {
    predictionAccuracy := 0.0;
    if |h| > 10 {
      var lo := |h| - 10;
      var correctPredictions := 0;
      var k := lo;
      while k < |h|
        invariant lo <= k <= |h|
        invariant correctPredictions == CountTrue(Outcomes(pow10, h, lo, k))
      {
        correctPredictions := CountPrediction(pow10, h, lo, k, correctPredictions);
        k := k + 1;
      }
      predictionAccuracy := correctPredictions as real / 10.0;
    }
  }

  // Factor 5: category coverage

  /** The values of the item's truthy entry for type t, as a set. */
  function ValuesIn(item: Item, t: string): set<string> {
    if item.categories.Some? && Present(item.categories.value, t) then Elems(ValuesOf(item.categories.value[t])) else {}
  }

  /** `categoryCounts[t]`: the values of type t of the items compared in `h`. */
  function Seen(h: seq<Record>, t: string): set<string> {
    if h == [] then {}
    else
      var r := h[|h| - 1];
      Seen(h[..|h| - 1], t) + if HasPair(r) then ValuesIn(r.itemA.value, t) + ValuesIn(r.itemB.value, t) else {}
  }

  /** The values of type t over all the items. */
  function Offered(items: seq<Item>, t: string): set<string> {
    if items == [] then {} else Offered(items[..|items| - 1], t) + ValuesIn(items[|items| - 1], t)
  }

  /** `comparedCategories`: the number of values seen, summed over the types. */
  function SeenTotal(h: seq<Record>, types: seq<string>): nat {
    if types == [] then 0 else SeenTotal(h, types[..|types| - 1]) + |Seen(h, types[|types| - 1])|
  }

  /** `totalUniqueCategories`: the number of values offered, summed over the types. */
  function OfferedTotal(items: seq<Item>, types: seq<string>): nat {
    if types == [] then 0 else OfferedTotal(items, types[..|types| - 1]) + |Offered(items, types[|types| - 1])|
  }

  /** `categoryCoverage`: seen over offered values, when the first item has categories. */
  function CategoryCoverage(items: seq<Item>, h: seq<Record>): (c: real)
    ensures c >= 0.0
  {
    if |items| > 0 && items[0].categories.Some? then
      var total := OfferedTotal(items, CategoryTypes);
      if total > 0 then SeenTotal(h, CategoryTypes) as real / total as real else 0.0
    else 0.0
  }

  /** Every item compared in a record with both sides present is one of the items. */
  predicate ComparesListedItems(items: seq<Item>, h: seq<Record>) {
    forall k :: 0 <= k < |h| && HasPair(h[k]) ==> h[k].itemA.value in items && h[k].itemB.value in items
  }

  lemma {:induction false} OfferedHas(items: seq<Item>, x: Item, t: string)
    requires x in items
    ensures ValuesIn(x, t) <= Offered(items, t)
  {
    var init := items[..|items| - 1];
    assert items == init + [items[|items| - 1]];
    if x != items[|items| - 1] {
      OfferedHas(init, x, t);
    }
  }

  lemma {:induction false} SeenWithinOffered(items: seq<Item>, h: seq<Record>, t: string)
    requires ComparesListedItems(items, h)
    ensures Seen(h, t) <= Offered(items, t)
  {
    if h != [] {
      var init, r := h[..|h| - 1], h[|h| - 1];
      assert ComparesListedItems(items, init) by {
        forall k | 0 <= k < |init| && HasPair(init[k])
          ensures init[k].itemA.value in items && init[k].itemB.value in items
        {
          assert init[k] == h[k];
        }
      }
      SeenWithinOffered(items, init, t);
      if HasPair(r) {
        OfferedHas(items, r.itemA.value, t);
        OfferedHas(items, r.itemB.value, t);
      }
    }
  }

  lemma {:induction false} SeenTotalWithinOffered(items: seq<Item>, h: seq<Record>, types: seq<string>)
    requires ComparesListedItems(items, h)
    ensures SeenTotal(h, types) <= OfferedTotal(items, types)
  {
    if types != [] {
      var t := types[|types| - 1];
      SeenTotalWithinOffered(items, h, types[..|types| - 1]);
      SeenWithinOffered(items, h, t);
      SubsetSize(Seen(h, t), Offered(items, t));
    }
  }

  /** When the history compares only listed items, category coverage is at most 1. */
  lemma CategoryCoverageAtMostOne(items: seq<Item>, h: seq<Record>)
    requires ComparesListedItems(items, h)
    ensures CategoryCoverage(items, h) <= 1.0
  {
    SeenTotalWithinOffered(items, h, CategoryTypes);
    var total := OfferedTotal(items, CategoryTypes);
    if total > 0 {
      RatioAtMostOne(SeenTotal(h, CategoryTypes), total);
    }
  }

  /** The per-type sets of `categoryCounts` hold the values seen in `h`. */
  ghost predicate CountsSeen(categoryCounts: map<string, set<string>>, h: seq<Record>) {
    forall t :: t in CategoryTypes ==> t in categoryCounts && categoryCounts[t] == Seen(h, t)
  }

  /** The `forEach` over the category types for one comparison with both items present. */
  method AddComparedValues(categoryCounts: map<string, set<string>>, a: Item, b: Item)
    returns (updated: map<string, set<string>>)
    requires forall t :: t in CategoryTypes ==> t in categoryCounts
    ensures forall t :: t in CategoryTypes ==>
              t in updated && updated[t] == categoryCounts[t] + ValuesIn(a, t) + ValuesIn(b, t)
  {
    var categoryTypes := CategoryTypes;
    updated := categoryCounts;
    var i := 0;
    while i < |categoryTypes|
      invariant 0 <= i <= |categoryTypes|
      invariant forall t :: t in categoryTypes ==> t in updated
      invariant forall t :: t in categoryTypes[..i] ==> updated[t] == categoryCounts[t] + ValuesIn(a, t) + ValuesIn(b, t)
      invariant forall t :: t in categoryTypes && t !in categoryTypes[..i] ==> updated[t] == categoryCounts[t]
    {
      var t := categoryTypes[i];
      assert categoryTypes[..i + 1] == categoryTypes[..i] + [t];
      updated := updated[t := updated[t] + ValuesIn(a, t)];
      updated := updated[t := updated[t] + ValuesIn(b, t)];
      i := i + 1;
    }
    assert categoryTypes[..|categoryTypes|] == categoryTypes;
  }

  /** One more record keeps `CountsSeen`, with its values added when both its items are present. */
  lemma CountsSeenSnoc(before: map<string, set<string>>, after: map<string, set<string>>, h: seq<Record>, k: nat)
    requires k < |h| && CountsSeen(before, h[..k])
    requires HasPair(h[k]) ==> forall t :: t in CategoryTypes ==>
               t in after && after[t] == before[t] + ValuesIn(h[k].itemA.value, t) + ValuesIn(h[k].itemB.value, t)
    requires !HasPair(h[k]) ==> after == before
    ensures CountsSeen(after, h[..k + 1])
  {
    var g := h[..k + 1];
    assert g[..|g| - 1] == h[..k] && g[|g| - 1] == h[k];
  }

  /** The `forEach` over the history that fills `categoryCounts`. */
  method CountComparedValues(h: seq<Record>) returns (categoryCounts: map<string, set<string>>)
    ensures CountsSeen(categoryCounts, h)
  {
    categoryCounts := map t | t in CategoryTypes :: {};
    var k := 0;
    while k < |h|
      invariant 0 <= k <= |h|
      invariant CountsSeen(categoryCounts, h[..k])
    {
      var comp := h[k];
      ghost var before := categoryCounts;
      if HasPair(comp) {
        categoryCounts := AddComparedValues(categoryCounts, comp.itemA.value, comp.itemB.value);
      }
      CountsSeenSnoc(before, categoryCounts, h, k);
      k := k + 1;
    }
    assert h[..|h|] == h;
  }

  /** The `Set` of the values of type `t` over the items. */
  method OfferedValues(items: seq<Item>, t: string) returns (uniqueValues: set<string>)
    ensures uniqueValues == Offered(items, t)
  {
    uniqueValues := {};
    var m := 0;
    while m < |items|
      invariant 0 <= m <= |items|
      invariant uniqueValues == Offered(items[..m], t)
    {
      assert items[..m + 1][..m] == items[..m];
      uniqueValues := uniqueValues + ValuesIn(items[m], t);
      m := m + 1;
    }
    assert items[..|items|] == items;
  }

  /** The `reduce` over the category types that sums the values offered by the items. */
  method CountOfferedValues(items: seq<Item>, categoryTypes: seq<string>) returns (totalUniqueCategories: nat)
    ensures totalUniqueCategories == OfferedTotal(items, categoryTypes)
  {
    totalUniqueCategories := 0;
    var i := 0;
    while i < |categoryTypes|
      invariant 0 <= i <= |categoryTypes|
      invariant totalUniqueCategories == OfferedTotal(items, categoryTypes[..i])
    {
      assert categoryTypes[..i + 1][..i] == categoryTypes[..i];
      var uniqueValues := OfferedValues(items, categoryTypes[i]);
      totalUniqueCategories := totalUniqueCategories + |uniqueValues|;
      i := i + 1;
    }
    assert categoryTypes[..|categoryTypes|] == categoryTypes;
  }

  /** The `reduce` over the category types that sums the values seen. */
  method CountSeenValues(categoryCounts: map<string, set<string>>, h: seq<Record>, categoryTypes: seq<string>)
    returns (comparedCategories: nat)
    requires forall t :: t in categoryTypes ==> t in categoryCounts && categoryCounts[t] == Seen(h, t)
    ensures comparedCategories == SeenTotal(h, categoryTypes)
  {
    comparedCategories := 0;
    var i := 0;
    while i < |categoryTypes|
      invariant 0 <= i <= |categoryTypes|
      invariant comparedCategories == SeenTotal(h, categoryTypes[..i])
    {
      assert categoryTypes[..i + 1][..i] == categoryTypes[..i];
      comparedCategories := comparedCategories + |categoryCounts[categoryTypes[i]]|;
      i := i + 1;
    }
    assert categoryTypes[..|categoryTypes|] == categoryTypes;
  }

  /** Factor 5 as the source computes it. */
  method MeasureCategoryCoverage(items: seq<Item>, h: seq<Record>) returns (categoryCoverage: real)
    ensures categoryCoverage == CategoryCoverage(items, h)
  {
    categoryCoverage := 0.0;
    if |items| > 0 && items[0].categories.Some? {
      var categoryCounts := CountComparedValues(h);
      var totalUniqueCategories := CountOfferedValues(items, CategoryTypes);
      var comparedCategories := CountSeenValues(categoryCounts, h, CategoryTypes);
      if totalUniqueCategories > 0 {
        categoryCoverage := comparedCategories as real / totalUniqueCategories as real;
      }
    }
  }

  // The combined score

  /**
   * The phase-weighted sum: coverage and consistency while the history is
   * shorter than 10, the prediction and category factors joining below 30,
   * and weighing more from 30 on. Each set of weights sums to 1.
   */
  function Combine(historySize: nat, coverage: real, consistency: real, distribution: real,
                   accuracy: real, categoryCoverage: real): (s: real)
    ensures coverage == consistency == distribution == accuracy == categoryCoverage == 1.0 ==> s == 1.0
    ensures (&& 0.0 <= coverage && 0.0 <= consistency && 0.0 <= distribution
             && 0.0 <= accuracy && 0.0 <= categoryCoverage) ==> s >= 0.0
  {
    if historySize < 10 then
      coverage * 0.6 + consistency * 0.3 + distribution * 0.1
    else if historySize < 30 then
      coverage * 0.4 + consistency * 0.2 + distribution * 0.2 +
      (if accuracy > 0.0 then accuracy * 0.1 else 0.0) + categoryCoverage * 0.1
    else
      coverage * 0.3 + consistency * 0.2 + distribution * 0.1 +
      (if accuracy > 0.0 then accuracy * 0.2 else 0.0) + categoryCoverage * 0.2
  }

  /** `calculateConfidence`: 0 without two items or a history, else the combined score clamped to [0, 1]. */
  function Confidence(pow10: Exp10, items: seq<Item>, h: seq<Record>): (c: real)
    ensures 0.0 <= c <= 1.0
    ensures |items| < 2 || h == [] ==> c == 0.0
  {
    if |items| < 2 || |h| == 0 then 0.0
    else
      var s := Combine(|h|, ComparisonCoverage(|items|, h), Consistency(h), RatingDistribution(items),
                       Accuracy(pow10, h), CategoryCoverage(items, h));
      Max(0.0, Min(1.0, s))
  }

  /** With at most five decisions recorded, the default consistency of 1 alone gives a confidence of at least 0.3. */
  lemma EarlyConfidenceFloor(pow10: Exp10, items: seq<Item>, h: seq<Record>)
    requires |items| >= 2 && 0 < |h| <= 5
    ensures Confidence(pow10, items, h) >= 0.3
  {
    assert Consistency(h) == 1.0;
  }

  /** Factors 1 to 5 and their combination, as the source computes them. */
  method CalculateConfidence(pow10: Exp10, items: seq<Item>, h: seq<Record>) returns (confidence: real)
    ensures confidence == Confidence(pow10, items, h)
  {
    if |items| < 2 || |h| == 0 {
      return 0.0;
    }
    var totalPossibleComparisons := (|items| * (|items| - 1)) as real / 2.0;
    var completedComparisons := CompletedComparisons(h);
    var comparisonCoverage := |completedComparisons| as real / totalPossibleComparisons;

    var ratingDistribution := Min(1.0, (MaxRating(items) - MinRating(items)) / 800.0);
    var consistencyScore := ConsistencyScore(h);
    var predictionAccuracy := EvaluatePredictions(pow10, h);
    var categoryCoverage := MeasureCategoryCoverage(items, h);

    var confidenceScore := Combine(|h|, comparisonCoverage, consistencyScore, ratingDistribution,
                                   predictionAccuracy, categoryCoverage);
    confidence := Max(0.0, Min(1.0, confidenceScore));
  }
}
