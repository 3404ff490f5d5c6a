/**
 * The product pages (Home and Products, in both snapshots): the quantity
 * selector beside each product, the quantity handed to `addToCart`, the
 * "Top Products" slice and what the page shows when the product fetch fails.
 * The selector's two updaters are the same text in all four pages.
 */
module Catalog {

  /** The page's `quantities` state: product id to the quantity picked so far. */
  type Quantities = map<string, int>

  /** `quantities[id] || 1`: the quantity shown beside a product, which is
      also the quantity `handleAddToCart` passes on. */
  function Shown(q: Quantities, id: string): (r: int)
    ensures r != 0
    ensures id in q && q[id] != 0 ==> r == q[id]
    ensures !(id in q && q[id] != 0) ==> r == 1
    ensures AllAtLeastOne(q) ==> r >= 1
  {
    if id in q && q[id] != 0 then q[id] else 1
  }

  /** Every picked quantity is at least 1. */
  ghost predicate AllAtLeastOne(q: Quantities) {
    forall id :: id in q ==> q[id] >= 1
  }

  /** `increaseQty`: the product's quantity becomes one more than the shown
      one, and no other product's entry changes. */
  function Increase(q: Quantities, id: string): (r: Quantities)
    ensures r.Keys == q.Keys + {id}
    ensures r[id] == Shown(q, id) + 1
    ensures forall k :: k in q && k != id ==> r[k] == q[k]
  {
    q[id := Shown(q, id) + 1]
  }

  /** `decreaseQty`: one less when above 1, otherwise 1, so the entry is
      never below 1; no other product's entry changes. */
  function Decrease(q: Quantities, id: string): (r: Quantities)
    ensures r.Keys == q.Keys + {id}
    ensures r[id] >= 1
    ensures id in q && q[id] > 1 ==> r[id] == q[id] - 1
    ensures !(id in q && q[id] > 1) ==> r[id] == 1
    ensures forall k :: k in q && k != id ==> r[k] == q[k]
  {
    q[id := if id in q && q[id] > 1 then q[id] - 1 else 1]
  }

  /** A click on a product's "+" or "−" button. */
  datatype Click = Plus(id: string) | Minus(id: string)

  /** The `quantities` state after a series of clicks. */
  function Apply(q: Quantities, clicks: seq<Click>): Quantities
    decreases |clicks|
  {
    if clicks == [] then q
    else
      var next := match clicks[0]
        case Plus(id) => Increase(q, id)
        case Minus(id) => Decrease(q, id);
      Apply(next, clicks[1..])
  }

  /** From the empty initial state `{}`, whatever the clicks, every entry
      stays at least 1, so the shown quantity and the quantity added to the
      cart are at least 1. */
  lemma {:induction false} ClicksKeepAtLeastOne(q: Quantities, clicks: seq<Click>)
    requires AllAtLeastOne(q)
    ensures AllAtLeastOne(Apply(q, clicks))
    ensures forall id :: Shown(Apply(q, clicks), id) >= 1
    decreases |clicks|
  {
    if clicks != [] {
      var next := match clicks[0]
        case Plus(id) => Increase(q, id)
        case Minus(id) => Decrease(q, id);
      assert AllAtLeastOne(next);
      ClicksKeepAtLeastOne(next, clicks[1..]);
    }
  }

  /** "−" after "+" restores what was shown: an entry that was set is
      restored exactly, an unset one becomes the 1 it showed. */
  lemma DecreaseUndoesIncrease(q: Quantities, id: string)
    requires AllAtLeastOne(q)
    ensures Decrease(Increase(q, id), id) == q[id := Shown(q, id)]
    ensures id in q ==> Decrease(Increase(q, id), id) == q
  {
    var r := Decrease(Increase(q, id), id);
    assert r.Keys == q[id := Shown(q, id)].Keys;
    if id in q {
      assert q[id := Shown(q, id)] == q;
    }
  }

  /** "+" after "−" restores any entry above 1. */
  lemma IncreaseUndoesDecrease(q: Quantities, id: string)
    requires id in q && q[id] > 1
    ensures Increase(Decrease(q, id), id) == q
  {
    var r := Increase(Decrease(q, id), id);
    assert r.Keys == q.Keys;
  }

  /** `productt.slice(0, 3)`: the "Top Products" section shows the first
      three products, or all of them when there are fewer. */
  function Featured<T>(products: seq<T>): (r: seq<T>)
    ensures |r| == if |products| < 3 then |products| else 3
    ensures r == products[..|r|]
  {
    if |products| <= 3 then products else products[..3]
  }

  /** How the product fetch ended. */
  datatype Fetched<T> = NetworkError | NotOk(status: int) | Loaded(data: seq<T>)

  /** The product list after the fetch effect: the response data, or the
      initial empty list when the fetch failed or the status was not OK. */
  function ProductsAfterFetch<T>(f: Fetched<T>): (r: seq<T>)
    ensures !f.Loaded? ==> r == []
    ensures f.Loaded? ==> r == f.data
  {
    match f
    case Loaded(data) => data
    case _ => []
  }
}
