/**
 * `src/components/Dashboard.jsx`: the token guard, the stored orders it
 * shows, the revenue, the per-order quantity and the product counts (the
 * counting itself is `Tally`).
 */
module LocalDashboard {
  import opened Common
  import opened LocalModel
  import LocalCheckout
  import Tally

  /** What the dashboard's effect leaves: a redirect to `/login`, or the orders to show. */
  datatype View = ToLogin | Showing(orders: seq<Order>)

  /** Without a token the page redirects and loads nothing; otherwise it shows
      the stored `"orders"` list, or none when the key is absent. */
  function Load(st: Store): (v: View)
    ensures v.ToLogin? <==> !Truthy(st.token)
    ensures v.Showing? ==> v.orders == ListOr(st.orders)
  {
    if !Truthy(st.token) then ToLogin else Showing(ListOr(st.orders))
  }

  /** `details.reduce((sum, order) => sum + Number(order.total || 0), 0)`:
      orders without a total add nothing, and non-negative totals give
      non-negative revenue. */
  function Revenue(orders: seq<Order>): (r: int)
    ensures (forall i :: 0 <= i < |orders| ==> orders[i].total.None?) ==> r == 0
    ensures (forall i :: 0 <= i < |orders| ==> OrZero(orders[i].total) >= 0) ==> r >= 0
  {
    if orders == [] then 0 else OrZero(orders[0].total) + Revenue(orders[1..])
  }

  /** An order's items as the counting sees them: title and `quantity`. */
  function Sales(o: Order): (r: seq<Tally.Sale>)
    ensures |r| == |o.items|
    ensures forall i :: 0 <= i < |o.items| ==> r[i] == Tally.Sale(o.items[i].title, o.items[i].quantity)
  {
    seq(|o.items|, i requires 0 <= i < |o.items| => Tally.Sale(o.items[i].title, o.items[i].quantity))
  }

  function AllSales(orders: seq<Order>): (r: seq<seq<Tally.Sale>>)
    ensures |r| == |orders|
    ensures forall k :: 0 <= k < |orders| ==> r[k] == Sales(orders[k])
  {
    seq(|orders|, k requires 0 <= k < |orders| => Sales(orders[k]))
  }

  /** The dashboard's top product for a list of orders. */
  function TopProduct(orders: seq<Order>): string {
    Tally.TopProduct(Tally.TallyOrders([], AllSales(orders)))
  }

  /** With no items the top product is "--"; otherwise it is a title some
      order sold, and no title sold more, so it is "--" only when a product
      is itself titled "--". */
  lemma TopProductSpec(orders: seq<Order>)
    ensures (forall k :: 0 <= k < |orders| ==> orders[k].items == []) ==> TopProduct(orders) == "--"
    ensures (exists k :: 0 <= k < |orders| && orders[k].items != []) ==>
              Tally.SoldIn(AllSales(orders), TopProduct(orders))
              && forall u :: Tally.SoldIn(AllSales(orders), u) ==>
                   Tally.OrdersQuantity(AllSales(orders), u) <= Tally.OrdersQuantity(AllSales(orders), TopProduct(orders))
  {
    var s := AllSales(orders);
    Tally.NoEntriesIffNoItems(s);
    if exists k :: 0 <= k < |orders| && orders[k].items != [] {
      var k :| 0 <= k < |orders| && orders[k].items != [];
      assert s[k] != [];
      Tally.TopProductIsBestSeller(s);
    }
  }

  /** The quantity of the cart lines titled `t`. */
  function CartQuantity(cart: seq<Item>, t: string): int {
    if cart == [] then 0
    else (if cart[0].title == t then cart[0].quantity else 0) + CartQuantity(cart[1..], t)
  }

  /** The sum of all quantities in a cart. */
  function CartUnits(cart: seq<Item>): int {
    if cart == [] then 0 else cart[0].quantity + CartUnits(cart[1..])
  }

  lemma {:induction false} RevenueAppend(orders: seq<Order>, o: Order)
    ensures Revenue(orders + [o]) == Revenue(orders) + OrZero(o.total)
    decreases |orders|
  {
    if orders == [] {
      assert orders + [o] == [o];
    } else {
      assert (orders + [o])[1..] == orders[1..] + [o];
      RevenueAppend(orders[1..], o);
    }
  }

  lemma {:induction false} SummarySales(cart: seq<Item>, customer: Customer, id: int, date: string, t: string)
    ensures Tally.Quantity(Sales(LocalCheckout.MakeOrder(cart, customer, id, date)), t) == CartQuantity(cart, t)
    ensures Tally.TotalQty(Sales(LocalCheckout.MakeOrder(cart, customer, id, date))) == CartUnits(cart)
    decreases |cart|
  {
    if cart != [] {
      var s := Sales(LocalCheckout.MakeOrder(cart, customer, id, date));
      var s' := Sales(LocalCheckout.MakeOrder(cart[1..], customer, id, date));
      assert s[1..] == s';
      SummarySales(cart[1..], customer, id, date, t);
    }
  }

  /** Placing an order shows up on the dashboard: the revenue grows by the
      cart total, every title's count grows by the cart's quantity of it,
      and the new order's `totalQty` is the number of units in the cart. */
  lemma CheckoutGrowsDashboard(orders: seq<Order>, cart: seq<Item>, customer: Customer,
                               id: int, date: string, t: string)
    ensures Revenue(orders + [LocalCheckout.MakeOrder(cart, customer, id, date)]) == Revenue(orders) + Total(cart)
    ensures Tally.OrdersQuantity(AllSales(orders + [LocalCheckout.MakeOrder(cart, customer, id, date)]), t)
            == Tally.OrdersQuantity(AllSales(orders), t) + CartQuantity(cart, t)
    ensures Tally.TotalQty(Sales(LocalCheckout.MakeOrder(cart, customer, id, date))) == CartUnits(cart)
  {
    var o := LocalCheckout.MakeOrder(cart, customer, id, date);
    RevenueAppend(orders, o);
    assert AllSales(orders + [o]) == AllSales(orders) + [Sales(o)];
    Tally.OrdersQuantityAppend(AllSales(orders), [Sales(o)], t);
    SummarySales(cart, customer, id, date, t);
  }
}
