/**
 * JavaScript's `Array.prototype.sort` with a numeric comparator, read as a
 * stable sort by a real-valued key: an insertion sort that places each new
 * element after the elements whose key is not larger.
 */
module Sorting {

  ghost predicate SortedBy<T>(s: seq<T>, key: T -> real) {
    forall i, j :: 0 <= i < j < |s| ==> key(s[i]) <= key(s[j])
  }

  /** Every element of `s` has a key of at least `k`. */
  ghost predicate AtLeast<T>(k: real, s: seq<T>, key: T -> real) {
    forall j :: 0 <= j < |s| ==> k <= key(s[j])
  }

  /** A sorted sequence stays sorted behind an element whose key bounds it from below. */
  lemma ConsSorted<T>(y: T, s: seq<T>, key: T -> real)
    requires SortedBy(s, key) && AtLeast(key(y), s, key)
    ensures SortedBy([y] + s, key)
  {
  }

  /** The head of a sorted sequence bounds every element of its tail, and anything at least as large. */
  lemma HeadBelow<T>(s: seq<T>, x: T, rest: seq<T>, key: T -> real)
    requires s != [] && SortedBy(s, key) && key(s[0]) <= key(x)
    requires forall y :: y in rest ==> y == x || y in s[1..]
    ensures AtLeast(key(s[0]), rest, key)
  {
    forall j | 0 <= j < |rest| ensures key(s[0]) <= key(rest[j]) {
      assert rest[j] in rest;
      if rest[j] != x {
        var k :| 0 <= k < |s[1..]| && s[1..][k] == rest[j];
        assert s[k + 1] == rest[j];
      }
    }
  }

  /** Inserts `x` into `s` after every element whose key is at most `key(x)`. */
  function Insert<T>(s: seq<T>, x: T, key: T -> real): (r: seq<T>)
    requires SortedBy(s, key)
    ensures |r| == |s| + 1
    ensures multiset(r) == multiset(s) + multiset{x}
    ensures forall y :: y in r ==> y == x || y in s
    ensures SortedBy(r, key)
  {
    if s == [] then [x]
    else if key(x) < key(s[0]) then
      ConsSorted(x, s, key);
      [x] + s
    else
      var rest := Insert(s[1..], x, key);
      HeadBelow(s, x, rest, key);
      ConsSorted(s[0], rest, key);
      assert s == [s[0]] + s[1..];
      [s[0]] + rest
  }

  /** The elements of `s`, ordered by non-decreasing key. */
  function SortBy<T>(s: seq<T>, key: T -> real): (r: seq<T>)
    ensures |r| == |s|
    ensures multiset(r) == multiset(s)
    ensures SortedBy(r, key)
  {
    if s == [] then []
    else
      assert s == s[..|s| - 1] + [s[|s| - 1]];
      Insert(SortBy(s[..|s| - 1], key), s[|s| - 1], key)
  }

  /** Two entries at distinct positions form a sub-multiset of the sequence. */
  lemma TwoPositions<T>(s: seq<T>, i: nat, j: nat)
    requires i < |s| && j < |s| && i != j
    ensures multiset{s[i], s[j]} <= multiset(s)
  {
    var lo, hi := if i < j then i else j, if i < j then j else i;
    assert s == s[..hi] + [s[hi]] + s[hi + 1..];
    assert s[lo] in s[..hi];
    assert multiset{s[lo]} <= multiset(s[..hi]);
    assert multiset{s[i], s[j]} == multiset{s[lo]} + multiset{s[hi]};
  }
}
