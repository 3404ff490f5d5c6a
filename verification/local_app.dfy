/**
 * `src/App.jsx`: the next cart computed by `addToCart` (add a new line or
 * raise an existing one) and by `removeFromCart` (drop every line with an
 * id). Writing the result to React state and the `"cart"` key is done by
 * `LocalSession.Session`.
 */
module LocalApp {
  import opened Common
  import opened LocalModel
  import Catalog

  /** `product.quantity || 1`: a missing or zero quantity adds 1. */
  function QtyToAdd(p: Product): (n: int)
    ensures n != 0
    ensures p.quantity.Some? && p.quantity.value != 0 ==> n == p.quantity.value
    ensures p.quantity.None? || p.quantity.value >= 0 ==> n >= 1
  {
    if p.quantity.Some? && p.quantity.value != 0 then p.quantity.value else 1
  }

  /** `prevCart.map(item => item._id === id ? {...item, quantity: item.quantity + n} : item)` */
  function Raise(cart: seq<Item>, id: string, n: int): (r: seq<Item>)
    ensures |r| == |cart|
    ensures forall i :: 0 <= i < |cart| && cart[i].id != id ==> r[i] == cart[i]
    ensures forall i :: 0 <= i < |cart| && cart[i].id == id ==>
              r[i] == cart[i].(quantity := cart[i].quantity + n)
  {
    if cart == [] then []
    else
      var head := if cart[0].id == id then cart[0].(quantity := cart[0].quantity + n) else cart[0];
      [head] + Raise(cart[1..], id, n)
  }

  /** The line `{...product, quantity: qtyToAdd}`. */
  function NewLine(p: Product): Item {
    Item(p.id, p.title, p.price, QtyToAdd(p))
  }

  /** The cart `addToCart(product)` computes from `prevCart`. A known id keeps
      the length, raises every line with that id by `qtyToAdd` and leaves the
      other lines as they were; a new id appends exactly one line at the end. */
  function AddLine(cart: seq<Item>, p: Product): (r: seq<Item>)
    ensures Has(cart, p.id) ==> |r| == |cart|
    ensures Has(cart, p.id) ==> forall i :: 0 <= i < |cart| ==>
              r[i] == if cart[i].id == p.id then cart[i].(quantity := cart[i].quantity + QtyToAdd(p)) else cart[i]
    ensures !Has(cart, p.id) ==> |r| == |cart| + 1 && r[..|cart|] == cart && r[|cart|] == NewLine(p)
  {
    if Has(cart, p.id) then Raise(cart, p.id, QtyToAdd(p)) else cart + [NewLine(p)]
  }

  /** `prevCart.filter(item => item._id !== id)`: no kept line has `id`,
      and the cart never grows. */
  function RemoveLines(cart: seq<Item>, id: string): (r: seq<Item>)
    ensures |r| <= |cart|
    ensures forall i :: 0 <= i < |r| ==> r[i].id != id
  {
    if cart == [] then []
    else if cart[0].id == id then RemoveLines(cart[1..], id)
    else [cart[0]] + RemoveLines(cart[1..], id)
  }

  /** Raising the lines of `id` raises what the first such line holds. */
  lemma {:induction false} QtyForRaise(cart: seq<Item>, id: string, n: int)
    requires Has(cart, id)
    ensures QtyFor(Raise(cart, id, n), id) == QtyFor(cart, id) + n
    decreases |cart|
  {
    if cart[0].id != id {
      HasCons(cart, id);
      QtyForRaise(cart[1..], id, n);
    }
  }

  /** The quantity of the product's line grows by exactly `qtyToAdd`, whether
      the line already existed or was just appended, and the cart then has
      that line. */
  lemma AddRaisesQuantity(cart: seq<Item>, p: Product)
    ensures Has(AddLine(cart, p), p.id)
    ensures QtyFor(AddLine(cart, p), p.id) == QtyFor(cart, p.id) + QtyToAdd(p)
  {
    var r := AddLine(cart, p);
    if Has(cart, p.id) {
      QtyForRaise(cart, p.id, QtyToAdd(p));
      var i :| 0 <= i < |cart| && cart[i].id == p.id;
      assert r[i].id == p.id;
    } else {
      QtyForAbsentAppend(cart, NewLine(p));
      assert r[|cart|].id == p.id;
    }
  }

  /** Appending a line whose id is new puts its quantity first in line for that id. */
  lemma {:induction false} QtyForAbsentAppend(cart: seq<Item>, line: Item)
    requires !Has(cart, line.id)
    ensures QtyFor(cart, line.id) == 0
    ensures QtyFor(cart + [line], line.id) == line.quantity
    decreases |cart|
  {
    if cart == [] {
      assert cart + [line] == [line];
    } else {
      assert (cart + [line])[1..] == cart[1..] + [line];
      HasCons(cart, line.id);
      QtyForAbsentAppend(cart[1..], line);
    }
  }

  /** `addToCart` keeps at most one line per `_id`, and keeps every quantity
      at least 1 when what it adds is at least 1. */
  lemma AddKeepsInvariants(cart: seq<Item>, p: Product)
    ensures DistinctIds(cart) ==> DistinctIds(AddLine(cart, p))
    ensures AllAtLeastOne(cart) && QtyToAdd(p) >= 1 ==> AllAtLeastOne(AddLine(cart, p))
  {
  }

  /** Adding the same product over and over: every add goes into one line,
      whose quantity is the sum of what each add contributed. */
  function AddAll(cart: seq<Item>, ps: seq<Product>): seq<Item>
    decreases |ps|
  {
    if ps == [] then cart else AddAll(AddLine(cart, ps[0]), ps[1..])
  }

  function QtySum(ps: seq<Product>): int {
    if ps == [] then 0 else QtyToAdd(ps[0]) + QtySum(ps[1..])
  }

  lemma {:induction false} RepeatedAdds(cart: seq<Item>, id: string, ps: seq<Product>)
    requires forall i :: 0 <= i < |ps| ==> ps[i].id == id
    requires DistinctIds(cart)
    ensures DistinctIds(AddAll(cart, ps))
    ensures QtyFor(AddAll(cart, ps), id) == QtyFor(cart, id) + QtySum(ps)
    ensures |AddAll(cart, ps)| <= |cart| + 1
    decreases |ps|
  {
    if ps != [] {
      var next := AddLine(cart, ps[0]);
      AddRaisesQuantity(cart, ps[0]);
      AddKeepsInvariants(cart, ps[0]);
      RepeatedAdds(next, id, ps[1..]);
      if |ps| > 1 {
        // from the second add on, the line exists: the length stays put
        assert Has(next, id);
        AddAllKeepsLength(next, ps[1..]);
      }
    }
  }

  lemma {:induction false} AddAllKeepsLength(cart: seq<Item>, ps: seq<Product>)
    requires ps != [] && forall i :: 0 <= i < |ps| ==> ps[i].id == ps[0].id
    requires Has(cart, ps[0].id)
    ensures |AddAll(cart, ps)| == |cart|
    decreases |ps|
  {
    var next := AddLine(cart, ps[0]);
    AddRaisesQuantity(cart, ps[0]);
    if |ps| > 1 {
      AddAllKeepsLength(next, ps[1..]);
    }
  }

  /** The sum of the prices of the lines with id `id`. */
  function PriceSum(cart: seq<Item>, id: string): int {
    if cart == [] then 0
    else (if cart[0].id == id then cart[0].price else 0) + PriceSum(cart[1..], id)
  }

  lemma {:induction false} TotalRaise(cart: seq<Item>, id: string, n: int)
    ensures Total(Raise(cart, id, n)) == Total(cart) + n * PriceSum(cart, id)
    decreases |cart|
  {
    if cart != [] {
      TotalRaise(cart[1..], id, n);
      var r := Raise(cart, id, n);
      assert r[1..] == Raise(cart[1..], id, n);
      assert Total(r) == r[0].price * r[0].quantity + Total(r[1..]);
      if cart[0].id == id {
        assert r[0].price == cart[0].price && r[0].quantity == cart[0].quantity + n;
        Distribute(cart[0].price, cart[0].quantity, n);
      } else {
        assert r[0] == cart[0];
      }
    }
  }

  /** With at most one line per id, the lines of `id` are priced as the one line there is. */
  lemma {:induction false} PriceSumOfDistinct(cart: seq<Item>, k: nat)
    requires DistinctIds(cart) && k < |cart|
    ensures PriceSum(cart, cart[k].id) == cart[k].price
    decreases |cart|
  {
    var id := cart[k].id;
    DistinctCons(cart);
    if k == 0 {
      PriceSumAbsent(cart[1..], id);
    } else {
      PriceSumOfDistinct(cart[1..], k - 1);
    }
  }

  lemma {:induction false} PriceSumAbsent(cart: seq<Item>, id: string)
    requires !Has(cart, id)
    ensures PriceSum(cart, id) == 0
    decreases |cart|
  {
    if cart != [] {
      HasCons(cart, id);
      PriceSumAbsent(cart[1..], id);
    }
  }

  /** With one line per id, adding grows the cart total by `qtyToAdd` times
      the price of the product's line: the existing line's price for a known
      id, the product's price for a new one. */
  lemma AddTotal(cart: seq<Item>, p: Product, k: nat)
    requires DistinctIds(cart)
    requires k < |cart| && cart[k].id == p.id
    ensures Total(AddLine(cart, p)) == Total(cart) + QtyToAdd(p) * cart[k].price
  {
    TotalRaise(cart, p.id, QtyToAdd(p));
    PriceSumOfDistinct(cart, k);
  }

  lemma AddNewTotal(cart: seq<Item>, p: Product)
    requires !Has(cart, p.id)
    ensures Total(AddLine(cart, p)) == Total(cart) + p.price * QtyToAdd(p)
  {
    TotalAppend(cart, [NewLine(p)]);
  }

  /** `removeFromCart(id)` leaves no line with `id`; for every other id the
      lines are kept, in their order; an absent id changes nothing; removing
      twice is removing once; ids stay distinct; and the total drops by the
      total of the removed lines. */
  lemma {:induction false} RemoveSpec(cart: seq<Item>, id: string)
    ensures !Has(RemoveLines(cart, id), id)
    ensures forall u :: u != id ==> Matching(RemoveLines(cart, id), u) == Matching(cart, u)
    ensures forall u :: Has(RemoveLines(cart, id), u) <==> Has(cart, u) && u != id
    ensures !Has(cart, id) ==> RemoveLines(cart, id) == cart
    ensures RemoveLines(RemoveLines(cart, id), id) == RemoveLines(cart, id)
    ensures DistinctIds(cart) ==> DistinctIds(RemoveLines(cart, id))
    ensures Total(RemoveLines(cart, id)) == Total(cart) - Total(Matching(cart, id))
    decreases |cart|
  {
    if cart != [] {
      var tail := cart[1..];
      var r := RemoveLines(cart, id);
      var rest := RemoveLines(tail, id);
      RemoveSpec(tail, id);
      forall u ensures Has(cart, u) <==> cart[0].id == u || Has(tail, u) {
        HasCons(cart, u);
      }
      if cart[0].id != id {
        assert r == [cart[0]] + rest;
        assert r[1..] == rest;
        forall u ensures Has(r, u) <==> cart[0].id == u || Has(rest, u) {
          HasCons(r, u);
        }
        assert [cart[0]] + tail == cart;
        if DistinctIds(cart) {
          DistinctCons(cart);
          forall i, j | 0 <= i < j < |r| ensures r[i].id != r[j].id {
            assert r[j] == rest[j - 1];
            if i == 0 {
              assert Has(rest, r[j].id);
            } else {
              assert r[i] == rest[i - 1];
            }
          }
        }
      } else {
        if DistinctIds(cart) { DistinctCons(cart); }
      }
    }
  }

  /** Removing from a cart split in two removes from each part and keeps the
      parts in order, so lines of different ids never swap. */
  lemma {:induction false} RemoveAppend(a: seq<Item>, b: seq<Item>, id: string)
    ensures RemoveLines(a + b, id) == RemoveLines(a, id) + RemoveLines(b, id)
    decreases |a|
  {
    if a == [] {
      assert a + b == b;
    } else {
      assert (a + b)[0] == a[0];
      assert (a + b)[1..] == a[1..] + b;
      RemoveAppend(a[1..], b, id);
    }
  }

  /** With one line per id, removing the line at index `k` is cutting it out
      of the list: the lines before and after it keep their order. */
  lemma {:induction false} RemoveOne(cart: seq<Item>, k: nat)
    requires DistinctIds(cart) && k < |cart|
    ensures RemoveLines(cart, cart[k].id) == cart[..k] + cart[k + 1..]
    decreases |cart|
  {
    var id := cart[k].id;
    var tail := cart[1..];
    DistinctCons(cart);
    if k == 0 {
      RemoveSpec(tail, id);
      assert RemoveLines(cart, id) == RemoveLines(tail, id);
      assert cart[..0] + cart[1..] == tail;
    } else {
      assert tail[k - 1] == cart[k];
      RemoveOne(tail, k - 1);
      assert RemoveLines(cart, id) == [cart[0]] + RemoveLines(tail, id);
      assert cart[..k] == [cart[0]] + tail[..k - 1];
      assert cart[k + 1..] == tail[k..];
      assert [cart[0]] + (tail[..k - 1] + tail[k..]) == cart[..k] + cart[k + 1..];
    }
  }

  /** The product pages hand `addToCart` the product with
      `quantity: quantities[id] || 1`; from any reachable selector state that
      quantity is at least 1 and is exactly what the cart line grows by. */
  lemma AddFromSelector(cart: seq<Item>, p: Product, q: Catalog.Quantities)
    requires Catalog.AllAtLeastOne(q)
    ensures QtyToAdd(p.(quantity := Some(Catalog.Shown(q, p.id)))) == Catalog.Shown(q, p.id) >= 1
    ensures QtyFor(AddLine(cart, p.(quantity := Some(Catalog.Shown(q, p.id)))), p.id)
            == QtyFor(cart, p.id) + Catalog.Shown(q, p.id)
  {
    AddRaisesQuantity(cart, p.(quantity := Some(Catalog.Shown(q, p.id))));
  }
}
