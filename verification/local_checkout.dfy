/**
 * `src/components/Checkout.jsx`: the order summary, the order record built
 * on submit and its total. Appending it to `"orders"` and emptying the cart
 * is done by `LocalSession.Session.PlaceOrder`.
 */
module LocalCheckout {
  import opened Common
  import opened LocalModel

  /** `cart.map(item => ({title, quantity, price}))`: one entry per line, in
      cart order, each keeping the line's title, quantity and price. */
  function Summary(cart: seq<Item>): (r: seq<OrderItem>)
    ensures |r| == |cart|
    ensures forall i :: 0 <= i < |cart| ==>
              r[i] == OrderItem(cart[i].title, cart[i].quantity, cart[i].price)
  {
    if cart == [] then [] else [OrderItem(cart[0].title, cart[0].quantity, cart[0].price)] + Summary(cart[1..])
  }

  /** The sum of price × quantity over an order's items. */
  function ItemsTotal(items: seq<OrderItem>): int {
    if items == [] then 0 else items[0].price * items[0].quantity + ItemsTotal(items[1..])
  }

  /** The order record `onSubmit` builds; `id` and `date` come from the
      clock. It lists the cart's lines in order, its stored total is the sum
      of price × quantity over those items (and over the cart), its status is
      "Placed" and its customer is the form data verbatim. */
  function MakeOrder(cart: seq<Item>, customer: Customer, id: int, date: string): (r: Order)
    ensures r.items == Summary(cart) && |r.items| == |cart|
    ensures r.total == Some(ItemsTotal(r.items))
    ensures r.total == Some(Total(cart))
    ensures r.status == "Placed" && r.customer == customer
    ensures r.id == id && r.date == date
  {
    SummaryTotal(cart);
    Order(id, customer, Summary(cart), Some(Total(cart)), "Placed", date)
  }

  lemma {:induction false} SummaryTotal(cart: seq<Item>)
    ensures ItemsTotal(Summary(cart)) == Total(cart)
    decreases |cart|
  {
    if cart != [] {
      assert Summary(cart)[1..] == Summary(cart[1..]);
      SummaryTotal(cart[1..]);
    }
  }

  /** `[...existingOrders, order]` with an absent key read as `[]`: the
      stored orders are kept in place and the new one follows them. */
  function AppendOrder(stored: Option<seq<Order>>, order: Order): (r: seq<Order>)
    ensures |r| == |ListOr(stored)| + 1
    ensures r[..|ListOr(stored)|] == ListOr(stored)
    ensures r[|ListOr(stored)|] == order
    ensures stored.None? ==> r == [order]
  {
    ListOr(stored) + [order]
  }
}
