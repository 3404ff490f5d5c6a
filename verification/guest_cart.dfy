/**
 * `frontend/src/components/Cart.jsx`: the guest delete and guest quantity
 * update on the `"guest_cart"` list, the clamped new quantity, the key a
 * server line is addressed by, and the "Proceed to Checkout" decision. The
 * handlers that run them against state, storage and the backend are
 * `GuestSession.Session.HandleRemove` and `GuestSession.Session.UpdateQuantity`.
 */
module GuestCart {
  import opened Common
  import opened GuestModel

  /** `guestCart.filter(item => item._id !== id)`: no kept line has `id`,
      and the cart never grows. */
  function Without(c: seq<Line>, id: string): (r: seq<Line>)
    ensures |r| <= |c|
    ensures forall i :: 0 <= i < |r| ==> r[i].id != id
  {
    if c == [] then []
    else if c[0].id == id then Without(c[1..], id)
    else [c[0]] + Without(c[1..], id)
  }

  /** A guest delete leaves no line of `id`, keeps the lines of every other
      id in their order, changes nothing when `id` is absent and keeps ids
      distinct. */
  lemma {:induction false} WithoutSpec(c: seq<Line>, id: string)
    ensures !Has(Without(c, id), id)
    ensures forall u :: u != id ==> Matching(Without(c, id), u) == Matching(c, u)
    ensures forall u :: Has(Without(c, id), u) <==> Has(c, u) && u != id
    ensures !Has(c, id) ==> Without(c, id) == c
    ensures DistinctIds(c) ==> DistinctIds(Without(c, id))
    decreases |c|
  {
    if c != [] {
      var tail := c[1..];
      var r := Without(c, id);
      var rest := Without(tail, id);
      WithoutSpec(tail, id);
      forall u ensures Has(c, u) <==> c[0].id == u || Has(tail, u) {
        HasCons(c, u);
      }
      if c[0].id != id {
        assert r == [c[0]] + rest;
        assert r[1..] == rest;
        forall u ensures Has(r, u) <==> c[0].id == u || Has(rest, u) {
          HasCons(r, u);
        }
        assert [c[0]] + tail == c;
        if DistinctIds(c) {
          DistinctCons(c);
          forall i, j | 0 <= i < j < |r| ensures r[i].id != r[j].id {
            assert r[j] == rest[j - 1];
            if i == 0 {
              assert Has(rest, r[j].id);
            } else {
              assert r[i] == rest[i - 1];
            }
          }
        }
      } else {
        if DistinctIds(c) { DistinctCons(c); }
      }
    }
  }

  /** Deleting from a cart split in two deletes from each part and keeps
      the parts in order. */
  lemma {:induction false} WithoutAppend(a: seq<Line>, b: seq<Line>, id: string)
    ensures Without(a + b, id) == Without(a, id) + Without(b, id)
    decreases |a|
  {
    if a == [] {
      assert a + b == b;
    } else {
      assert (a + b)[0] == a[0];
      assert (a + b)[1..] == a[1..] + b;
      WithoutAppend(a[1..], b, id);
    }
  }

  /** With one line per id, deleting a line's id cuts exactly that line out
      and keeps the lines before and after it in their order. */
  lemma {:induction false} WithoutOne(c: seq<Line>, k: nat)
    requires DistinctIds(c) && k < |c|
    ensures Without(c, c[k].id) == c[..k] + c[k + 1..]
    decreases |c|
  {
    var id := c[k].id;
    var tail := c[1..];
    DistinctCons(c);
    if k == 0 {
      WithoutSpec(tail, id);
      assert Without(c, id) == Without(tail, id);
      assert c[..0] + c[1..] == tail;
    } else {
      assert tail[k - 1] == c[k];
      WithoutOne(tail, k - 1);
      assert Without(c, id) == [c[0]] + Without(tail, id);
      assert c[..k] == [c[0]] + tail[..k - 1];
      assert c[k + 1..] == tail[k..];
      assert [c[0]] + (tail[..k - 1] + tail[k..]) == c[..k] + c[k + 1..];
    }
  }

  /** A guest delete lowers the total by the amount of the removed lines and
      keeps every remaining line's own quantity. */
  lemma {:induction false} WithoutTotal(c: seq<Line>, id: string)
    ensures Total(Without(c, id)) == Total(c) - Total(Matching(c, id))
    ensures HaveQuantities(c) ==> HaveQuantities(Without(c, id))
    decreases |c|
  {
    if c != [] {
      WithoutTotal(c[1..], id);
      if c[0].id != id {
        var rest := Without(c[1..], id);
        assert Without(c, id) == [c[0]] + rest;
        assert forall i :: 1 <= i < |[c[0]] + rest| ==> ([c[0]] + rest)[i] == rest[i - 1];
      } else {
        TotalAppend([c[0]], Matching(c[1..], id));
      }
    }
  }

  /** Deleting twice is deleting once. */
  lemma WithoutTwice(c: seq<Line>, id: string)
    ensures Without(Without(c, id), id) == Without(c, id)
  {
    WithoutSpec(Without(c, id), id);
    WithoutSpec(c, id);
  }

  /** `guestCart.map(item => item._id === id ? {...item, quantity: Math.max(1, n)} : item)`:
      every line keeps its place and its other fields, lines of other ids are
      untouched, and the lines of `id` carry `max(1, n)`. */
  function WithQty(c: seq<Line>, id: string, n: int): (r: seq<Line>)
    ensures |r| == |c|
    ensures forall i :: 0 <= i < |c| && c[i].id != id ==> r[i] == c[i]
    ensures forall i :: 0 <= i < |c| && c[i].id == id ==> r[i] == c[i].(quantity := Some(Max(1, n)))
  {
    if c == [] then []
    else
      var head := if c[0].id == id then c[0].(quantity := Some(Max(1, n))) else c[0];
      [head] + WithQty(c[1..], id, n)
  }

  /** `newQty = Math.max(1, currentQty + delta)` */
  function NewQty(item: Line, delta: int): (n: int)
    ensures n >= 1
    ensures QtyOf(item) + delta >= 1 ==> n == QtyOf(item) + delta
    ensures QtyOf(item) + delta < 1 ==> n == 1
  {
    Max(1, QtyOf(item) + delta)
  }

  /** After a guest quantity update every line of `id` counts `NewQty` (at
      least 1), the cart keeps one line per id and every line its quantity,
      and "+" then "−" gives back the quantity of a line that had one of at least 1. */
  lemma WithQtySpec(c: seq<Line>, item: Line, delta: int)
    ensures forall i :: 0 <= i < |c| && c[i].id == item.id ==>
              QtyOf(WithQty(c, item.id, NewQty(item, delta))[i]) == NewQty(item, delta) >= 1
    ensures DistinctIds(c) ==> DistinctIds(WithQty(c, item.id, NewQty(item, delta)))
    ensures HaveQuantities(c) ==> HaveQuantities(WithQty(c, item.id, NewQty(item, delta)))
    ensures QtyOf(item) >= 1 ==> NewQty(item.(quantity := Some(NewQty(item, 1))), -1) == QtyOf(item)
  {
  }

  /** `item.productId?._id || item._id`: the nested id when it is present and
      not empty, otherwise the line's own `_id`. */
  function BackendKey(item: Line): (k: string)
    ensures item.productId.Some? && Truthy(item.productId.value.id) ==> k == item.productId.value.id.value
    ensures !(item.productId.Some? && Truthy(item.productId.value.id)) ==> k == item.id
  {
    if item.productId.Some? && Truthy(item.productId.value.id) then item.productId.value.id.value else item.id
  }

  /** "Proceed to Checkout" and the `/checkout` route: `/checkout` exactly
      when a non-empty token is stored, otherwise the login page with a
      redirect back. */
  function CheckoutTarget(token: Option<string>): (r: string)
    ensures r == "/checkout" <==> Truthy(token)
    ensures r != "/checkout" ==> r == "/login?redirect=checkout"
  {
    if Truthy(token) then "/checkout" else "/login?redirect=checkout"
  }
}
