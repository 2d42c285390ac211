/**
 * The data the ranking engine works on: items with a rating and category
 * metadata, and the comparison records of the history.
 *
 * Fields that a JavaScript record may lack are `Option`s. An item id is an
 * `int`, and 0 stands for a falsy or missing id: both fail the source's
 * truthiness tests, and both compare equal to themselves.
 */
module Catalog {
  import opened Wrappers

  /** A category entry holds one value or a list of values. */
  datatype CategoryValue = Single(value: string) | List(values: seq<string>)

  /** Category type (such as "cuisine") to its value(s). */
  type Categories = map<string, CategoryValue>

  datatype Item = Item(id: int, rating: real, categories: Option<Categories>)

  /** One user decision; `winner` and `loser` are snapshots of `itemA`/`itemB`. */
  datatype Record = Record(itemA: Option<Item>, itemB: Option<Item>, winner: Option<Item>, loser: Option<Item>)

  /** The five category types that similarity and category coverage look at. */
  const CategoryTypes: seq<string> := ["cuisine", "type", "dietary", "ingredient", "cookingMethod"]

  /** JavaScript truthiness of a category entry: an empty string is falsy, any array is truthy. */
  predicate Truthy(v: CategoryValue) {
    v.List? || v.value != ""
  }

  /** `categories[t]` is truthy. */
  predicate Present(c: Categories, t: string) {
    t in c && Truthy(c[t])
  }

  /** A single value read as a one-element list. */
  function ValuesOf(v: CategoryValue): seq<string> {
    match v
    case Single(s) => [s]
    case List(vs) => vs
  }

  /** `itemA`, `itemB` and `winner` are all there. */
  predicate Complete(r: Record) {
    r.itemA.Some? && r.itemB.Some? && r.winner.Some?
  }

  /**
   * `history.slice(-Math.min(k, history.length))` for a positive k: the
   * last `min(k, |h|)` records. (For k = 0 JavaScript's `slice(-0)` would
   * return every record; the engine only asks for the last 10 or 20.)
   */
  function Recent(h: seq<Record>, k: nat): (w: seq<Record>)
    requires k > 0
    ensures |w| == if |h| < k then |h| else k
    ensures forall i :: 0 <= i < |w| ==> w[i] == h[|h| - |w| + i]
  {
    if |h| < k then h else h[|h| - k..]
  }
}
