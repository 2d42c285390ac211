/**
 * `getRandomIndices`: distinct indices drawn by shuffling 0..max-1 in place
 * with Fisher-Yates and keeping a prefix. The values `Math.random()` would
 * return are an input, `draws`, one per swap.
 */
module RandomIndices {

  /** Every draw is a value `Math.random()` can return. */
  predicate ValidDraws(draws: seq<real>) {
    forall k :: 0 <= k < |draws| ==> 0.0 <= draws[k] < 1.0
  }

  /** `Math.floor(draw * (i + 1))`: a position in [0, i]. */
  function SwapIndex(draw: real, i: nat): (j: nat)
    requires 0.0 <= draw < 1.0
    ensures j <= i
  {
    var n := (i + 1) as real;
    var x := draw * n;
    assert 0.0 <= x < n by {
      var gap := 1.0 - draw;
      assert gap > 0.0 && n > 0.0;
      assert gap * n > 0.0;
      assert n - x == gap * n;
    }
    x.Floor
  }

  /** `Array.from({ length: max }, (_, i) => i)`. */
  function Identity(max: nat): (s: seq<int>)
    ensures |s| == max
  {
    seq(max, k => k)
  }

  /** The entries are pairwise distinct and lie in [0, max). */
  ghost predicate DistinctBelow(s: seq<int>, max: nat) {
    && (forall k :: 0 <= k < |s| ==> 0 <= s[k] < max)
    && (forall k, l :: 0 <= k < l < |s| ==> s[k] != s[l])
  }

  /** Exchanging two entries of `s`. */
  function Swap(s: seq<int>, i: nat, j: nat): (r: seq<int>)
    requires i < |s| && j < |s|
    ensures |r| == |s| && r[i] == s[j] && r[j] == s[i]
    ensures forall k :: 0 <= k < |s| && k != i && k != j ==> r[k] == s[k]
  {
    s[i := s[j]][j := s[i]]
  }

  lemma SwapKeepsDistinct(s: seq<int>, i: nat, j: nat, max: nat)
    requires i < |s| && j < |s| && DistinctBelow(s, max)
    ensures DistinctBelow(Swap(s, i, j), max)
  {
    var r := Swap(s, i, j);
    forall k, l | 0 <= k < l < |r| ensures r[k] != r[l] {
      var k' := if k == i then j else if k == j then i else k;
      var l' := if l == i then j else if l == j then i else l;
      assert r[k] == s[k'] && r[l] == s[l'] && k' != l';
    }
  }

  /**
   * The Fisher-Yates shuffle of 0..max-1 after its first `t` steps: step t
   * (counting from 1) swaps position max - t with position
   * `floor(draws[t - 1] * (max - t + 1))`.
   */
  function Shuffled(max: nat, draws: seq<real>, t: nat): (s: seq<int>)
    requires ValidDraws(draws) && t < max && t <= |draws|
    ensures |s| == max
    decreases t
  {
    if t == 0 then Identity(max)
    else
      var i := max - t;
      Swap(Shuffled(max, draws, t - 1), i, SwapIndex(draws[t - 1], i))
  }

  /** Every stage of the shuffle is a permutation of 0..max-1: distinct entries in [0, max). */
  lemma {:induction false} ShuffledDistinct(max: nat, draws: seq<real>, t: nat)
    requires ValidDraws(draws) && t < max && t <= |draws|
    ensures DistinctBelow(Shuffled(max, draws, t), max)
    decreases t
  {
    if t > 0 {
      ShuffledDistinct(max, draws, t - 1);
      var i := max - t;
      SwapKeepsDistinct(Shuffled(max, draws, t - 1), i, SwapIndex(draws[t - 1], i), max);
    }
  }

  /** One more step of the shuffle swaps position max - t - 1 with its drawn partner. */
  lemma ShuffledStep(max: nat, draws: seq<real>, t: nat, i: nat, j: nat)
    requires ValidDraws(draws) && t + 1 < max && t + 1 <= |draws|
    requires i == max - t - 1 && j == SwapIndex(draws[t], i)
    ensures Shuffled(max, draws, t + 1) == Swap(Shuffled(max, draws, t), i, j)
  {
  }

  /** The first n entries of the complete shuffle are distinct indices in range. */
  lemma PrefixDistinct(max: nat, draws: seq<real>, n: nat)
    requires ValidDraws(draws) && 0 < max <= |draws| + 1 && n <= max
    ensures DistinctBelow(Shuffled(max, draws, max - 1)[..n], max)
  {
    ShuffledDistinct(max, draws, max - 1);
  }

  /** The Fisher-Yates loop: shuffles `allIndices`, which holds 0..max-1, in place. */
  method ShuffleInPlace(allIndices: array<int>, draws: seq<real>)
    requires allIndices.Length > 0 && allIndices[..] == Identity(allIndices.Length)
    requires ValidDraws(draws) && |draws| + 1 >= allIndices.Length
    modifies allIndices
    ensures allIndices[..] == Shuffled(allIndices.Length, draws, allIndices.Length - 1)
  {
    var max := allIndices.Length;
    var i := max - 1;
    ghost var t := 0;
    while i > 0
      invariant 0 <= i < max && t == max - 1 - i
      invariant allIndices[..] == Shuffled(max, draws, t)
    {
      var j := SwapIndex(draws[max - 1 - i], i);
      ghost var next := Swap(allIndices[..], i, j);
      ShuffledStep(max, draws, t, i, j);
      allIndices[i], allIndices[j] := allIndices[j], allIndices[i];
      assert allIndices[..] == next;
      i, t := i - 1, t + 1;
    }
  }

  /**
   * `min(count, max)` distinct indices in [0, max): the first entries of the
   * shuffle driven by `draws`; [0, 0] when `max` or `count` is not positive.
   */
  method GetRandomIndices(max: int, count: int, draws: seq<real>) returns (r: seq<int>)
    requires ValidDraws(draws) && |draws| + 1 >= max
    ensures max <= 0 || count <= 0 ==> r == [0, 0]
    ensures max > 0 && count > 0 ==> |r| == if count > max then max else count
    ensures max > 0 && count > 0 ==> r == Shuffled(max, draws, max - 1)[..|r|]
    ensures max > 0 && count > 0 ==> DistinctBelow(r, max)
  {
    if max <= 0 {
      return [0, 0];
    }
    if count <= 0 {
      return [0, 0];
    }
    var n := count;
    if n > max {
      n := max;
    }
    var allIndices := new int[max](k => k);
    assert allIndices[..] == Identity(max);
    ShuffleInPlace(allIndices, draws);
    r := allIndices[..n];
    PrefixDistinct(max, draws, n);
  }
}
