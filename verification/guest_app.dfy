/**
 * `frontend/src/App.jsx`: the guest branch of `addToCart`, which finds the
 * product's line with `findIndex` and either raises its `quantity` in place
 * or pushes a new line. Running it against state and storage is
 * `GuestSession.Session.AddToCart`.
 */
module GuestApp {
  import opened Common
  import opened GuestModel
  import Catalog

  /** `findIndex(i => i._id === id)`: -1 exactly when no line has the id,
      otherwise the first line that has it. */
  function IndexOf(c: seq<Line>, id: string): (k: int)
    ensures -1 <= k < |c|
    ensures k == -1 <==> !Has(c, id)
    ensures k >= 0 ==> c[k].id == id && forall j :: 0 <= j < k ==> c[j].id != id
  {
    if c == [] then -1
    else if c[0].id == id then 0
    else
      var k := IndexOf(c[1..], id);
      HasCons(c, id);
      if k == -1 then -1
      else
        assert forall j :: 1 <= j <= k ==> c[j] == c[1..][j - 1];
        k + 1
  }

  /** The guest cart after adding `qty` of product `p`: the first line of
      `p`'s id gets `quantity += qty`, every other line is untouched; with no
      such line, `{...p, quantity: qty}` is pushed at the end. */
  function Added(c: seq<Line>, p: Line, qty: int): (r: seq<Line>)
    requires HaveQuantities(c)
    ensures Has(c, p.id) ==>
              |r| == |c|
              && r[IndexOf(c, p.id)] == c[IndexOf(c, p.id)].(quantity := Some(QtyOf(c[IndexOf(c, p.id)]) + qty))
              && (forall j :: 0 <= j < |c| && j != IndexOf(c, p.id) ==> r[j] == c[j])
    ensures !Has(c, p.id) ==> r == c + [p.(quantity := Some(qty))]
  {
    var k := IndexOf(c, p.id);
    if k > -1 then c[k := c[k].(quantity := Some(c[k].quantity.value + qty))]
    else c + [p.(quantity := Some(qty))]
  }

  /** The quantity on the first line of `id`, or 0 when there is none. */
  function QtyFor(c: seq<Line>, id: string): int {
    if IndexOf(c, id) == -1 then 0 else QtyOf(c[IndexOf(c, id)])
  }

  /** A guest add keeps one line per id, keeps every line's own quantity,
      and raises the product's quantity by exactly `qty`. */
  lemma AddedKeepsInvariants(c: seq<Line>, p: Line, qty: int)
    requires HaveQuantities(c)
    ensures HaveQuantities(Added(c, p, qty))
    ensures DistinctIds(c) ==> DistinctIds(Added(c, p, qty))
    ensures QtyFor(Added(c, p, qty), p.id) == QtyFor(c, p.id) + qty
    ensures forall u :: Has(Added(c, p, qty), u) <==> Has(c, u) || u == p.id
  {
    var r := Added(c, p, qty);
    var k := IndexOf(c, p.id);
    if k == -1 {
      assert r[|c|].id == p.id;
      assert IndexOf(r, p.id) == |c|;
    } else {
      assert IndexOf(r, p.id) == k;
    }
    AddedIds(c, p, qty);
  }

  /** A guest add keeps every id that was there and adds only the product's. */
  lemma AddedIds(c: seq<Line>, p: Line, qty: int)
    requires HaveQuantities(c)
    ensures forall u :: Has(Added(c, p, qty), u) <==> Has(c, u) || u == p.id
  {
    var r := Added(c, p, qty);
    assert forall i :: 0 <= i < |c| ==> r[i].id == c[i].id;
    assert Has(r, p.id) by {
      var k := IndexOf(c, p.id);
      if k == -1 { assert r[|c|].id == p.id; } else { assert r[k].id == p.id; }
    }
    forall u | u != p.id ensures Has(r, u) <==> Has(c, u) {
      if Has(r, u) {
        var i :| 0 <= i < |r| && r[i].id == u;
        assert c[i].id == u;
      }
      if Has(c, u) {
        var i :| 0 <= i < |c| && c[i].id == u;
        assert r[i].id == u;
      }
    }
  }

  /** A guest add changes the total by the line's price times `qty`: the
      existing line's price, or the product's own for a new line. */
  lemma AddedTotal(c: seq<Line>, p: Line, qty: int)
    requires HaveQuantities(c)
    ensures Has(c, p.id) ==> Total(Added(c, p, qty)) == Total(c) + PriceOf(c[IndexOf(c, p.id)]) * qty
    ensures !Has(c, p.id) ==> Total(Added(c, p, qty)) == Total(c) + PriceOf(p) * qty
  {
    var k := IndexOf(c, p.id);
    if k > -1 {
      var x := c[k].(quantity := Some(c[k].quantity.value + qty));
      assert Added(c, p, qty) == c[k := x];
      RaisedLineTotal(c, k, x, qty);
    } else {
      var line := p.(quantity := Some(qty));
      assert Added(c, p, qty) == c + [line];
      TotalAppend(c, [line]);
      assert Total([line]) == PriceOf(p) * qty;
    }
  }

  /** Replacing line `k` by the same line with `qty` more changes the total
      by that line's price times `qty`. */
  lemma RaisedLineTotal(c: seq<Line>, k: nat, x: Line, qty: int)
    requires k < |c| && c[k].quantity.Some?
    requires x == c[k].(quantity := Some(c[k].quantity.value + qty))
    ensures Total(c[k := x]) == Total(c) + PriceOf(c[k]) * qty
  {
    TotalUpdate(c, k, x);
    var a, b := PriceOf(c[k]), QtyOf(c[k]);
    assert PriceOf(x) == a && QtyOf(x) == b + qty;
    Distribute(a, b, qty);
    assert PriceOf(x) * QtyOf(x) == a * b + a * qty;
  }


  /** The guest cart after adding `qty` of `p` once per quantity in `qs`. */
  function AddedAll(c: seq<Line>, p: Line, qs: seq<int>): seq<Line>
    requires HaveQuantities(c)
    decreases |qs|
  {
    if qs == [] then c
    else
      AddedKeepsInvariants(c, p, qs[0]);
      AddedAll(Added(c, p, qs[0]), p, qs[1..])
  }

  function Sum(qs: seq<int>): int {
    if qs == [] then 0 else qs[0] + Sum(qs[1..])
  }

  /** Repeated guest adds of one product gather in one line whose quantity
      is the sum of the adds, and never add a second line for it. */
  lemma {:induction false} RepeatedAdds(c: seq<Line>, p: Line, qs: seq<int>)
    requires HaveQuantities(c)
    ensures QtyFor(AddedAll(c, p, qs), p.id) == QtyFor(c, p.id) + Sum(qs)
    ensures DistinctIds(c) ==> DistinctIds(AddedAll(c, p, qs))
    ensures Has(c, p.id) ==> |AddedAll(c, p, qs)| == |c|
    ensures qs != [] ==> |AddedAll(c, p, qs)| <= |c| + 1
    decreases |qs|
  {
    if qs != [] {
      AddedKeepsInvariants(c, p, qs[0]);
      var next := Added(c, p, qs[0]);
      RepeatedAdds(next, p, qs[1..]);
      assert Has(next, p.id);
    }
  }

  /** The product pages call `addToCart(product, quantities[id] || 1)`; from
      any reachable selector state the guest line grows by the shown
      quantity, which is at least 1. */
  lemma AddFromSelector(c: seq<Line>, p: Line, q: Catalog.Quantities)
    requires HaveQuantities(c)
    requires Catalog.AllAtLeastOne(q)
    ensures Catalog.Shown(q, p.id) >= 1
    ensures QtyFor(Added(c, p, Catalog.Shown(q, p.id)), p.id) == QtyFor(c, p.id) + Catalog.Shown(q, p.id)
  {
    AddedKeepsInvariants(c, p, Catalog.Shown(q, p.id));
  }
}
