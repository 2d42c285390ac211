/**
 * Category similarity: for each of the five category types that both items
 * have, count A's values found among B's values, and add the size of the
 * union of both value sets to the denominator.
 */
module CategoryMatch {
  import opened Wrappers
  import opened Catalog

  /** The set of values in a list. */
  function Elems(s: seq<string>): set<string> {
    set v | v in s
  }

  predicate Distinct(s: seq<string>) {
    forall i, j :: 0 <= i < j < |s| ==> s[i] != s[j]
  }

  /** No category list of the item repeats a value. */
  predicate DuplicateFree(item: Item) {
    item.categories.Some? ==>
      forall t :: t in item.categories.value ==> Distinct(ValuesOf(item.categories.value[t]))
  }

  /** How many entries of `va`, counted with repetition, occur in `vb`. */
  function MatchCount(va: seq<string>, vb: seq<string>): (r: nat)
    ensures r <= |va|
  {
    if va == [] then 0
    else MatchCount(va[..|va| - 1], vb) + (if va[|va| - 1] in vb then 1 else 0)
  }

  /** The number of distinct values in either list. */
  function UnionSize(va: seq<string>, vb: seq<string>): nat {
    |Elems(va + vb)|
  }

  /** Both items have a truthy entry for type `t`. */
  predicate Comparable(ca: Categories, cb: Categories, t: string) {
    Present(ca, t) && Present(cb, t)
  }

  function TypeMatches(ca: Categories, cb: Categories, t: string): nat {
    if Comparable(ca, cb, t) then MatchCount(ValuesOf(ca[t]), ValuesOf(cb[t])) else 0
  }

  function TypeUnion(ca: Categories, cb: Categories, t: string): nat {
    if Comparable(ca, cb, t) then UnionSize(ValuesOf(ca[t]), ValuesOf(cb[t])) else 0
  }

  /** The match count summed over `types`. */
  function Matches(ca: Categories, cb: Categories, types: seq<string>): nat {
    if types == [] then 0
    else Matches(ca, cb, types[..|types| - 1]) + TypeMatches(ca, cb, types[|types| - 1])
  }

  /** The union sizes summed over `types`. */
  function Totals(ca: Categories, cb: Categories, types: seq<string>): nat {
    if types == [] then 0
    else Totals(ca, cb, types[..|types| - 1]) + TypeUnion(ca, cb, types[|types| - 1])
  }

  /** `calculateCategorySimilarity(itemA, itemB)`. */
  function Similarity(a: Option<Item>, b: Option<Item>): (r: real)
    ensures r >= 0.0
  {
    if a.None? || b.None? || a.value.categories.None? || b.value.categories.None? then 0.0
    else
      var ca, cb := a.value.categories.value, b.value.categories.value;
      var total := Totals(ca, cb, CategoryTypes);
      if total > 0 then Matches(ca, cb, CategoryTypes) as real / total as real else 0.0
  }

  /** The similarity as the source computes it: a loop over the five types, and one over A's values. */
  method CalculateCategorySimilarity(a: Option<Item>, b: Option<Item>) returns (s: real)
    ensures s == Similarity(a, b)
  {
    if a.None? || b.None? || a.value.categories.None? || b.value.categories.None? {
      return 0.0;
    }
    var ca, cb := a.value.categories.value, b.value.categories.value;
    var matchCount, totalCategories := 0, 0;
    var i := 0;
    while i < |CategoryTypes|
      invariant 0 <= i <= |CategoryTypes|
      invariant matchCount == Matches(ca, cb, CategoryTypes[..i])
      invariant totalCategories == Totals(ca, cb, CategoryTypes[..i])
    {
      var categoryType := CategoryTypes[i];
      assert CategoryTypes[..i + 1][..i] == CategoryTypes[..i];
      if Present(ca, categoryType) && Present(cb, categoryType) {
        var valuesA, valuesB := ValuesOf(ca[categoryType]), ValuesOf(cb[categoryType]);
        var before := matchCount;
        var j := 0;
        while j < |valuesA|
          invariant 0 <= j <= |valuesA|
          invariant matchCount == before + MatchCount(valuesA[..j], valuesB)
        {
          assert valuesA[..j + 1][..j] == valuesA[..j];
          if valuesA[j] in valuesB {
            matchCount := matchCount + 1;
          }
          j := j + 1;
        }
        assert valuesA[..j] == valuesA;
        var uniqueValues := Elems(valuesA + valuesB);
        totalCategories := totalCategories + |uniqueValues|;
      }
      i := i + 1;
    }
    assert CategoryTypes[..i] == CategoryTypes;
    s := if totalCategories > 0 then matchCount as real / totalCategories as real else 0.0;
  }

  /** No comparable type among `types` means no matches and an empty denominator. */
  lemma {:induction false} NoCommonType(ca: Categories, cb: Categories, types: seq<string>)
    requires forall t :: t in types ==> !Comparable(ca, cb, t)
    ensures Matches(ca, cb, types) == 0 && Totals(ca, cb, types) == 0
  {
    if types != [] {
      NoCommonType(ca, cb, types[..|types| - 1]);
    }
  }

  /**
   * Similarity is 0 when an item or its category map is missing, and when
   * no category type is truthy on both items.
   */
  lemma SimilarityZero(a: Option<Item>, b: Option<Item>)
    requires || a.None? || b.None? || a.value.categories.None? || b.value.categories.None?
             || forall t :: t in CategoryTypes ==> !Comparable(a.value.categories.value, b.value.categories.value, t)
    ensures Similarity(a, b) == 0.0
  {
    if a.Some? && b.Some? && a.value.categories.Some? && b.value.categories.Some? {
      NoCommonType(a.value.categories.value, b.value.categories.value, CategoryTypes);
    }
  }

  lemma ElemsSnoc(s: seq<string>, x: string)
    ensures Elems(s + [x]) == Elems(s) + {x}
  {
    assert forall v :: v in s + [x] <==> v in s || v == x;
  }

  /** The last entry of a duplicate-free list does not occur before it. */
  lemma LastIsNew(s: seq<string>)
    requires s != [] && Distinct(s)
    ensures Distinct(s[..|s| - 1]) && s[|s| - 1] !in Elems(s[..|s| - 1])
  {
    var init := s[..|s| - 1];
    forall k | 0 <= k < |init| ensures init[k] != s[|s| - 1] {
      assert init[k] == s[k];
    }
  }

  /** Adding a new element to one side of an intersection adds it to the intersection when it is on the other side. */
  lemma IntersectSnoc(a: set<string>, x: string, b: set<string>)
    requires x !in a
    ensures |(a + {x}) * b| == |a * b| + if x in b then 1 else 0
  {
    if x in b {
      assert (a + {x}) * b == (a * b) + {x};
    } else {
      assert (a + {x}) * b == a * b;
    }
  }

  /** Over a duplicate-free list, the match count is the size of the intersection. */
  lemma {:induction false} MatchCountDistinct(va: seq<string>, vb: seq<string>)
    requires Distinct(va)
    ensures MatchCount(va, vb) == |Elems(va) * Elems(vb)|
  {
    if va != [] {
      var init, x := va[..|va| - 1], va[|va| - 1];
      LastIsNew(va);
      MatchCountDistinct(init, vb);
      assert va == init + [x];
      ElemsSnoc(init, x);
      IntersectSnoc(Elems(init), x, Elems(vb));
    }
  }

  lemma ElemsAppend(va: seq<string>, vb: seq<string>)
    ensures Elems(va + vb) == Elems(va) + Elems(vb)
  {
    assert forall v :: v in va + vb <==> v in va || v in vb;
  }

  lemma SubsetSize<T>(a: set<T>, b: set<T>)
    requires a <= b
    ensures |a| <= |b|
  {
    assert b == a + (b - a);
  }

  /** A duplicate-free list of A's values matches at most the union of both lists. */
  lemma MatchCountAtMostUnion(va: seq<string>, vb: seq<string>)
    requires Distinct(va)
    ensures MatchCount(va, vb) <= UnionSize(va, vb)
  {
    MatchCountDistinct(va, vb);
    ElemsAppend(va, vb);
    SubsetSize(Elems(va) * Elems(vb), Elems(va + vb));
  }

  lemma {:induction false} MatchesAtMostTotals(ca: Categories, cb: Categories, types: seq<string>)
    requires forall t :: t in ca ==> Distinct(ValuesOf(ca[t]))
    ensures Matches(ca, cb, types) <= Totals(ca, cb, types)
  {
    if types != [] {
      MatchesAtMostTotals(ca, cb, types[..|types| - 1]);
      var t := types[|types| - 1];
      if Comparable(ca, cb, t) {
        MatchCountAtMostUnion(ValuesOf(ca[t]), ValuesOf(cb[t]));
      }
    }
  }

  /** When A's lists repeat no value, similarity lies in [0, 1]. */
  lemma SimilarityAtMostOne(a: Item, b: Item)
    requires DuplicateFree(a)
    ensures 0.0 <= Similarity(Some(a), Some(b)) <= 1.0
  {
    if a.categories.Some? && b.categories.Some? {
      var ca, cb := a.categories.value, b.categories.value;
      MatchesAtMostTotals(ca, cb, CategoryTypes);
      if Totals(ca, cb, CategoryTypes) > 0 {
        RatioAtMostOne(Matches(ca, cb, CategoryTypes), Totals(ca, cb, CategoryTypes));
      }
    }
  }

  /** A count over a positive total at least as large lies in [0, 1]. */
  lemma RatioAtMostOne(m: nat, n: nat)
    requires m <= n && n > 0
    ensures 0.0 <= m as real / n as real <= 1.0
  {
  }

  lemma {:induction false} ElemsDistinctSize(s: seq<string>)
    requires Distinct(s)
    ensures |Elems(s)| == |s|
  {
    if s != [] {
      var init := s[..|s| - 1];
      ElemsDistinctSize(init);
      assert s == init + [s[|s| - 1]];
      assert Elems(s) == Elems(init) + {s[|s| - 1]};
    }
  }

  lemma {:induction false} MatchCountSelf(va: seq<string>, vb: seq<string>)
    requires forall v :: v in va ==> v in vb
    ensures MatchCount(va, vb) == |va|
  {
    if va != [] {
      MatchCountSelf(va[..|va| - 1], vb);
      assert va[|va| - 1] in va;
    }
  }

  /** An item's per-type match count equals the union size against itself. */
  lemma {:induction false} SelfMatchesTotals(c: Categories, types: seq<string>)
    requires forall t :: t in c ==> Distinct(ValuesOf(c[t]))
    ensures Matches(c, c, types) == Totals(c, c, types)
  {
    if types != [] {
      SelfMatchesTotals(c, types[..|types| - 1]);
      var t := types[|types| - 1];
      if Comparable(c, c, t) {
        var vs := ValuesOf(c[t]);
        MatchCountSelf(vs, vs);
        assert Elems(vs + vs) == Elems(vs);
        ElemsDistinctSize(vs);
      }
    }
  }

  lemma {:induction false} TotalsAtLeastType(ca: Categories, cb: Categories, types: seq<string>, k: nat)
    requires k < |types|
    ensures Totals(ca, cb, types) >= TypeUnion(ca, cb, types[k])
  {
    if k < |types| - 1 {
      TotalsAtLeastType(ca, cb, types[..|types| - 1], k);
    }
  }

  /**
   * An item without repeated values whose categories give at least one
   * non-empty list for one of the five types has similarity 1 with itself.
   */
  lemma SelfSimilarity(a: Item, t: string)
    requires DuplicateFree(a)
    requires a.categories.Some? && t in CategoryTypes && Present(a.categories.value, t)
    requires ValuesOf(a.categories.value[t]) != []
    ensures Similarity(Some(a), Some(a)) == 1.0
  {
    var c := a.categories.value;
    SelfTotals(c, CategoryTypes, t);
    RatioOne(Matches(c, c, CategoryTypes), Totals(c, c, CategoryTypes));
  }

  /** A positive count divided by itself is 1. */
  lemma RatioOne(m: nat, n: nat)
    requires m == n > 0
    ensures m as real / n as real == 1.0
  {
  }

  /** Against itself, an item with a non-empty list for some type in `types` has equal, positive counts. */
  lemma SelfTotals(c: Categories, types: seq<string>, t: string)
    requires forall u :: u in c ==> Distinct(ValuesOf(c[u]))
    requires t in types && Present(c, t) && ValuesOf(c[t]) != []
    ensures Matches(c, c, types) == Totals(c, c, types) > 0
  {
    SelfMatchesTotals(c, types);
    var k :| 0 <= k < |types| && types[k] == t;
    TotalsAtLeastType(c, c, types, k);
    var vs := ValuesOf(c[t]);
    assert vs[0] in Elems(vs + vs);
  }

  /** The categories restricted to the five types the similarity reads. */
  function Restricted(c: Categories): (r: Categories)
    ensures r.Keys <= c.Keys
    ensures forall t :: t in r ==> t in CategoryTypes
  {
    map t | t in c && t in CategoryTypes :: c[t]
  }

  lemma {:induction false} AgreeingCategories(ca: Categories, ca': Categories, cb: Categories, cb': Categories, types: seq<string>)
    requires forall t :: t in types ==> Present(ca, t) == Present(ca', t) && Present(cb, t) == Present(cb', t)
    requires forall t :: t in types && Present(ca, t) && Present(ca', t) ==> ca[t] == ca'[t]
    requires forall t :: t in types && Present(cb, t) && Present(cb', t) ==> cb[t] == cb'[t]
    ensures Matches(ca, cb, types) == Matches(ca', cb', types)
    ensures Totals(ca, cb, types) == Totals(ca', cb', types)
  {
    if types != [] {
      AgreeingCategories(ca, ca', cb, cb', types[..|types| - 1]);
      assert types[|types| - 1] in types;
    }
  }

  /** Keys other than the five category types never change the similarity. */
  lemma SimilarityIgnoresOtherKeys(a: Item, b: Item)
    requires a.categories.Some? && b.categories.Some?
    ensures Similarity(Some(a), Some(b))
         == Similarity(Some(a.(categories := Some(Restricted(a.categories.value)))),
                       Some(b.(categories := Some(Restricted(b.categories.value)))))
  {
    var ca, cb := a.categories.value, b.categories.value;
    AgreeingCategories(ca, Restricted(ca), cb, Restricted(cb), CategoryTypes);
  }

  lemma {:induction false} MatchCountSymmetric(va: seq<string>, vb: seq<string>)
    requires Distinct(va) && Distinct(vb)
    ensures MatchCount(va, vb) == MatchCount(vb, va)
  {
    MatchCountDistinct(va, vb);
    MatchCountDistinct(vb, va);
    assert Elems(va) * Elems(vb) == Elems(vb) * Elems(va);
  }

  lemma {:induction false} SymmetricSums(ca: Categories, cb: Categories, types: seq<string>)
    requires forall t :: t in ca ==> Distinct(ValuesOf(ca[t]))
    requires forall t :: t in cb ==> Distinct(ValuesOf(cb[t]))
    ensures Matches(ca, cb, types) == Matches(cb, ca, types)
    ensures Totals(ca, cb, types) == Totals(cb, ca, types)
  {
    if types != [] {
      SymmetricSums(ca, cb, types[..|types| - 1]);
      var t := types[|types| - 1];
      if Comparable(ca, cb, t) {
        var va, vb := ValuesOf(ca[t]), ValuesOf(cb[t]);
        MatchCountSymmetric(va, vb);
        ElemsAppend(va, vb);
        ElemsAppend(vb, va);
        assert Elems(va + vb) == Elems(vb + va);
      }
    }
  }

  /** The one-sided match count only shows when a list repeats a value: without repeats similarity is symmetric. */
  lemma SimilaritySymmetric(a: Item, b: Item)
    requires DuplicateFree(a) && DuplicateFree(b)
    ensures Similarity(Some(a), Some(b)) == Similarity(Some(b), Some(a))
  {
    if a.categories.Some? && b.categories.Some? {
      SymmetricSums(a.categories.value, b.categories.value, CategoryTypes);
    }
  }

  /** A repeated value on A's side is counted twice: ["rice", "rice"] against "rice" scores 2. */
  lemma SimilarityWithRepeatsExceedsOne()
    ensures var a := Item(1, 1200.0, Some(map["ingredient" := List(["rice", "rice"])]));
            var b := Item(2, 1200.0, Some(map["ingredient" := Single("rice")]));
            Similarity(Some(a), Some(b)) == 2.0 && Similarity(Some(b), Some(a)) == 1.0
  {
    var ca := map["ingredient" := List(["rice", "rice"])];
    var cb := map["ingredient" := Single("rice")];
    assert Elems(["rice", "rice"] + ["rice"]) == {"rice"};
    assert Elems(["rice"] + ["rice", "rice"]) == {"rice"};
    assert CategoryTypes[..4] == ["cuisine", "type", "dietary", "ingredient"];
    assert CategoryTypes[..4][..3] == ["cuisine", "type", "dietary"];
    NoCommonType(ca, cb, ["cuisine", "type", "dietary"]);
    NoCommonType(cb, ca, ["cuisine", "type", "dietary"]);
  }
}
