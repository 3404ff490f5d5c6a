/**
 * The data of the local-only snapshot (`src/`): the cart lines, orders and
 * users it keeps, the localStorage keys it uses, and the cart total shared by
 * the Cart and Checkout pages. Stored values are their decoded JSON; a key
 * that is absent is `None`.
 */
module LocalModel {
  import opened Common

  /** A product as handed to `addToCart`; `quantity` is what the product
      page's selector put on it, if anything. */
  datatype Product = Product(id: string, title: string, price: int, quantity: Option<int>)

  /** One line of the `"cart"` list: the product's fields and a quantity. */
  datatype Item = Item(id: string, title: string, price: int, quantity: int)

  /** One entry of an order's `items`. */
  datatype OrderItem = OrderItem(title: string, quantity: int, price: int)

  /** One record of the `"orders"` list; `total` may be missing from a stored record. */
  datatype Order = Order(id: int, customer: Customer, items: seq<OrderItem>,
                         total: Option<int>, status: string, date: string)

  /** One record of the `"users"` list. */
  datatype User = User(name: string, email: string, password: string, role: Option<string>)

  /** localStorage as this snapshot uses it: one field per key. */
  datatype Store = Store(cart: Option<seq<Item>>, orders: Option<seq<Order>>,
                         users: Option<seq<User>>, token: Option<string>,
                         username: Option<string>, role: Option<string>)

  /** The cart's initial state: the stored `"cart"` list, or `[]` when the key is absent. */
  function InitialCart(saved: Option<seq<Item>>): (r: seq<Item>)
    ensures saved.None? ==> r == []
    ensures saved.Some? ==> r == saved.value
  {
    ListOr(saved)
  }

  /** `cart.reduce((total, item) => total + item.price * item.quantity, 0)`:
      the reduce starts from 0, so an empty cart totals 0. */
  function Total(cart: seq<Item>): (r: int)
    ensures cart == [] ==> r == 0
  {
    if cart == [] then 0 else cart[0].price * cart[0].quantity + Total(cart[1..])
  }

  predicate Has(cart: seq<Item>, id: string) {
    exists i :: 0 <= i < |cart| && cart[i].id == id
  }

  /** At most one line per `_id`. */
  predicate DistinctIds(cart: seq<Item>) {
    forall i, j :: 0 <= i < j < |cart| ==> cart[i].id != cart[j].id
  }

  /** No line's quantity is below 1. */
  predicate AllAtLeastOne(cart: seq<Item>) {
    forall i :: 0 <= i < |cart| ==> cart[i].quantity >= 1
  }

  /** The lines with `_id` equal to `id`, in cart order. */
  function Matching(cart: seq<Item>, id: string): seq<Item> {
    if cart == [] then []
    else if cart[0].id == id then [cart[0]] + Matching(cart[1..], id)
    else Matching(cart[1..], id)
  }

  /** The quantity on the first line with `_id` equal to `id`, or 0 when there is none. */
  function QtyFor(cart: seq<Item>, id: string): int {
    if cart == [] then 0
    else if cart[0].id == id then cart[0].quantity
    else QtyFor(cart[1..], id)
  }

  /** A cart has a line with id `u` when its first line has it or the rest does. */
  lemma HasCons(cart: seq<Item>, u: string)
    requires cart != []
    ensures Has(cart, u) <==> cart[0].id == u || Has(cart[1..], u)
  {
    if Has(cart, u) && cart[0].id != u {
      var i :| 0 <= i < |cart| && cart[i].id == u;
      assert cart[1..][i - 1].id == u;
    }
    if Has(cart[1..], u) {
      var i :| 0 <= i < |cart[1..]| && cart[1..][i].id == u;
      assert cart[i + 1].id == u;
    }
  }

  /** With one line per id, the first line's id occurs nowhere after it. */
  lemma DistinctCons(cart: seq<Item>)
    requires cart != [] && DistinctIds(cart)
    ensures DistinctIds(cart[1..]) && !Has(cart[1..], cart[0].id)
  {
    forall i | 0 <= i < |cart[1..]| ensures cart[1..][i].id != cart[0].id {
      assert cart[1..][i] == cart[i + 1];
    }
  }

  /** The total of a cart split in two is the sum of the totals of its parts. */
  lemma {:induction false} TotalAppend(a: seq<Item>, b: seq<Item>)
    ensures Total(a + b) == Total(a) + Total(b)
    decreases |a|
  {
    if a == [] {
      assert a + b == b;
    } else {
      assert (a + b)[1..] == a[1..] + b;
      TotalAppend(a[1..], b);
    }
  }

  /** With non-negative prices and quantities of at least 1 the total is
      never negative, and a cart of free lines totals 0. */
  lemma {:induction false} TotalNonNegative(cart: seq<Item>)
    ensures (forall i :: 0 <= i < |cart| ==> cart[i].price >= 0) && AllAtLeastOne(cart) ==> Total(cart) >= 0
    ensures (forall i :: 0 <= i < |cart| ==> cart[i].price == 0) ==> Total(cart) == 0
    decreases |cart|
  {
    if cart != [] {
      TotalNonNegative(cart[1..]);
      assert forall i :: 1 <= i < |cart| ==> cart[1..][i - 1] == cart[i];
      assert cart[0].price >= 0 && cart[0].quantity >= 1 ==> cart[0].price * cart[0].quantity >= 0;
    }
  }
}
