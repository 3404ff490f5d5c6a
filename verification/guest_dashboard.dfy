/**
 * `frontend/src/components/Dashboard.jsx`: the normalisation of the
 * `/orders` reply, the revenue, the per-order items and `totalQty`, and the
 * product counts (the counting itself is `Tally`). Loading the page is
 * `GuestSession.Session.LoadDashboard`.
 */
module GuestDashboard {
  import opened Common
  import Tally

  /** One entry of an order's `order` array. */
  datatype Item = Item(title: string, qty: int)

  /** An order as the backend returns it; `order` is `None` when that field
      is not an array. */
  datatype Order = Order(total: Option<int>, order: Option<seq<Item>>)

  /** How the `/orders` call ended: it threw, its body was not an array, or
      it was the list of orders. */
  datatype OrdersReply = Failed | NotArray | Orders(orders: seq<Order>)

  /** What the dashboard's effect leaves: a redirect to `/login`, or the orders to show. */
  datatype View = ToLogin | Showing(orders: seq<Order>)

  /** `setDetails(Array.isArray(data) ? data : [])`, and `[]` on failure. */
  function Normalise(reply: OrdersReply): (r: seq<Order>)
    ensures !reply.Orders? ==> r == []
    ensures reply.Orders? ==> r == reply.orders
  {
    if reply.Orders? then reply.orders else []
  }

  /** `Array.isArray(order.order) ? order.order : []`: an order whose
      `order` field is not an array has no items; otherwise its items are
      that array, unchanged. */
  function Items(o: Order): (r: seq<Item>)
    ensures o.order.None? ==> r == []
    ensures o.order.Some? ==> r == o.order.value
  {
    ListOr(o.order)
  }

  /** `details.reduce((sum, order) => sum + Number(order.total || 0), 0)`:
      orders without a total add nothing, and non-negative totals give
      non-negative revenue. */
  function Revenue(orders: seq<Order>): (r: int)
    ensures (forall i :: 0 <= i < |orders| ==> orders[i].total.None?) ==> r == 0
    ensures (forall i :: 0 <= i < |orders| ==> OrZero(orders[i].total) >= 0) ==> r >= 0
  {
    if orders == [] then 0 else OrZero(orders[0].total) + Revenue(orders[1..])
  }

  /** An order's items as the counting sees them: title and `qty`. */
  function Sales(o: Order): (r: seq<Tally.Sale>)
    ensures |r| == |Items(o)|
    ensures forall i :: 0 <= i < |Items(o)| ==> r[i] == Tally.Sale(Items(o)[i].title, Items(o)[i].qty)
  {
    seq(|Items(o)|, i requires 0 <= i < |Items(o)| => Tally.Sale(Items(o)[i].title, Items(o)[i].qty))
  }

  function AllSales(orders: seq<Order>): (r: seq<seq<Tally.Sale>>)
    ensures |r| == |orders|
    ensures forall k :: 0 <= k < |orders| ==> r[k] == Sales(orders[k])
  {
    seq(|orders|, k requires 0 <= k < |orders| => Sales(orders[k]))
  }

  /** The dashboard's top product for a list of orders. */
  function TopProduct(orders: seq<Order>): string {
    Tally.TopProduct(Tally.TallyOrders([], AllSales(orders)))
  }

  lemma {:induction false} RevenueAppend(a: seq<Order>, b: seq<Order>)
    ensures Revenue(a + b) == Revenue(a) + Revenue(b)
    decreases |a|
  {
    if a == [] {
      assert a + b == b;
    } else {
      assert (a + b)[1..] == a[1..] + b;
      RevenueAppend(a[1..], b);
    }
  }

  /** An order whose `order` field is not an array contributes no items: it
      changes no title's count and adds nothing to any `totalQty`; it still
      adds its `total` to the revenue. */
  lemma NonArrayOrderCountsNothing(orders: seq<Order>, o: Order, t: string)
    requires o.order.None?
    ensures Tally.OrdersQuantity(AllSales(orders + [o]), t) == Tally.OrdersQuantity(AllSales(orders), t)
    ensures Tally.TotalQty(Sales(o)) == 0
    ensures Revenue(orders + [o]) == Revenue(orders) + OrZero(o.total)
  {
    assert AllSales(orders + [o]) == AllSales(orders) + [Sales(o)];
    Tally.OrdersQuantityAppend(AllSales(orders), [Sales(o)], t);
    RevenueAppend(orders, [o]);
  }

  /** With no items the top product is "--"; otherwise it is a title some
      order sold, and no title sold more, so it is "--" only when a product
      is itself titled "--". */
  lemma TopProductSpec(orders: seq<Order>)
    ensures (forall k :: 0 <= k < |orders| ==> Items(orders[k]) == []) ==> TopProduct(orders) == "--"
    ensures (exists k :: 0 <= k < |orders| && Items(orders[k]) != []) ==>
              Tally.SoldIn(AllSales(orders), TopProduct(orders))
              && forall u :: Tally.SoldIn(AllSales(orders), u) ==>
                   Tally.OrdersQuantity(AllSales(orders), u) <= Tally.OrdersQuantity(AllSales(orders), TopProduct(orders))
  {
    var s := AllSales(orders);
    Tally.NoEntriesIffNoItems(s);
    if exists k :: 0 <= k < |orders| && Items(orders[k]) != [] {
      var k :| 0 <= k < |orders| && Items(orders[k]) != [];
      assert s[k] != [];
      Tally.TopProductIsBestSeller(s);
    }
  }
}
