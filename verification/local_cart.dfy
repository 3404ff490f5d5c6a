/**
 * `src/components/Cart.jsx`: the clamped quantity change of `updateQuantity`
 * and the "Proceed to Checkout" decision. The cart total is
 * `LocalModel.Total`; writing the new cart to state and storage is done by
 * `LocalSession.Session.UpdateQuantity`.
 */
module LocalCart {
  import opened Common
  import opened LocalModel

  /** `cart.map(item => item._id === id ? {...item, quantity: Math.max(1, item.quantity + delta)} : item)`:
      every line keeps its place, id, title and price; lines of other ids are
      untouched; the lines of `id` move by `delta` but never below 1. */
  function ChangeQuantity(cart: seq<Item>, id: string, delta: int): (r: seq<Item>)
    ensures |r| == |cart|
    ensures forall i :: 0 <= i < |cart| ==>
              r[i].id == cart[i].id && r[i].title == cart[i].title && r[i].price == cart[i].price
    ensures forall i :: 0 <= i < |cart| && cart[i].id != id ==> r[i] == cart[i]
    ensures forall i :: 0 <= i < |cart| && cart[i].id == id ==>
              r[i].quantity >= 1
              && (cart[i].quantity + delta >= 1 ==> r[i].quantity == cart[i].quantity + delta)
              && (cart[i].quantity + delta < 1 ==> r[i].quantity == 1)
  {
    if cart == [] then []
    else
      var head := if cart[0].id == id then cart[0].(quantity := Max(1, cart[0].quantity + delta)) else cart[0];
      [head] + ChangeQuantity(cart[1..], id, delta)
  }

  /** The quantity change keeps one line per id and every quantity at least 1;
      "−" on a line at 1 leaves it at 1. */
  lemma ChangeKeepsInvariants(cart: seq<Item>, id: string, delta: int)
    ensures DistinctIds(cart) ==> DistinctIds(ChangeQuantity(cart, id, delta))
    ensures AllAtLeastOne(cart) ==> AllAtLeastOne(ChangeQuantity(cart, id, delta))
    ensures forall i :: 0 <= i < |cart| && cart[i].id == id && cart[i].quantity == 1 ==>
              ChangeQuantity(cart, id, -1)[i].quantity == 1
  {
  }

  /** "+" then "−" gives back the cart, when the lines of `id` are at least 1. */
  lemma UpThenDown(cart: seq<Item>, id: string)
    requires forall i :: 0 <= i < |cart| && cart[i].id == id ==> cart[i].quantity >= 1
    ensures ChangeQuantity(ChangeQuantity(cart, id, 1), id, -1) == cart
  {
    var r := ChangeQuantity(ChangeQuantity(cart, id, 1), id, -1);
    assert forall i :: 0 <= i < |cart| ==> r[i] == cart[i];
  }

  /** "Proceed to Checkout": `/checkout` exactly when a token is stored and it
      is not the text "undefined", otherwise the login page with a redirect back. */
  function CheckoutTarget(token: Option<string>): (r: string)
    ensures r == "/checkout" <==> Truthy(token) && token.value != "undefined"
    ensures r != "/checkout" ==> r == "/login?redirect=checkout"
  {
    if Truthy(token) && token.value != "undefined" then "/checkout" else "/login?redirect=checkout"
  }
}
