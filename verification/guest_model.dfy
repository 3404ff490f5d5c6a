/**
 * The data of the guest/server snapshot (`frontend/`): the cart lines it
 * shows (guest lines from the `"guest_cart"` key and server lines from
 * `/cart`, which may carry `qty` and a nested `productId` instead of
 * `price`/`quantity`), the localStorage keys it uses, the requests it sends,
 * and the cart total with its field fallbacks shared by the Cart and
 * Checkout pages.
 */
module GuestModel {
  import opened Common

  /** A server line's nested `productId` object. */
  datatype ProductRef = ProductRef(id: Option<string>, price: Option<int>)

  /** One cart line, guest or server; a product handed to `addToCart` has the same shape. */
  datatype Line = Line(id: string, title: string, price: Option<int>, quantity: Option<int>,
                       qty: Option<int>, productId: Option<ProductRef>)

  /** localStorage as this snapshot uses it: one field per key. */
  datatype Store = Store(guestCart: Option<seq<Line>>, token: Option<string>,
                         username: Option<string>, email: Option<string>)

  /** The login form's data. */
  datatype Credentials = Credentials(email: string, password: string)

  /** A request sent to the backend, with the bearer token text where it has one. */
  datatype Request =
    | GetCart(token: string)
    | AddItem(token: string, productId: string, qty: Option<int>)
    | UpdateItem(token: string, productId: string, newQty: int)
    | DeleteItem(token: string, productId: string)
    | PostOrder(token: string, customer: Customer)
    | PostLogin(credentials: Credentials)
    | GetOrders(token: string)

  /** `item.price ?? item.productId?.price ?? 0`: the line's own price wins;
      without it the nested product's price is used; with neither the line
      counts as price 0. */
  function PriceOf(l: Line): (r: int)
    ensures l.price.Some? ==> r == l.price.value
    ensures l.price.None? && l.productId.Some? && l.productId.value.price.Some?
            ==> r == l.productId.value.price.value
    ensures l.price.None? && (l.productId.None? || l.productId.value.price.None?) ==> r == 0
  {
    if l.price.Some? then l.price.value
    else if l.productId.Some? && l.productId.value.price.Some? then l.productId.value.price.value
    else 0
  }

  /** `item.quantity ?? item.qty ?? 1`; the cart page's `currentQty`, which
      tests `typeof … === "number"` in the same order, picks the same value.
      The line's own quantity wins; without it the server's `qty` is used;
      with neither the line counts once. */
  function QtyOf(l: Line): (r: int)
    ensures l.quantity.Some? ==> r == l.quantity.value
    ensures l.quantity.None? && l.qty.Some? ==> r == l.qty.value
    ensures l.quantity.None? && l.qty.None? ==> r == 1
  {
    l.quantity.GetOr(l.qty.GetOr(1))
  }

  /** `cart.reduce((total, item) => total + price * qty, 0)` with the
      fallbacks above; the reduce starts from 0, so an empty cart totals 0. */
  function Total(c: seq<Line>): (r: int)
    ensures c == [] ==> r == 0
  {
    if c == [] then 0 else PriceOf(c[0]) * QtyOf(c[0]) + Total(c[1..])
  }

  predicate Has(c: seq<Line>, id: string) {
    exists i :: 0 <= i < |c| && c[i].id == id
  }

  /** At most one line per `_id`. */
  predicate DistinctIds(c: seq<Line>) {
    forall i, j :: 0 <= i < j < |c| ==> c[i].id != c[j].id
  }

  /** Every line carries its own `quantity`, as every guest line this
      snapshot writes does. */
  predicate HaveQuantities(c: seq<Line>) {
    forall i :: 0 <= i < |c| ==> c[i].quantity.Some?
  }

  /** The lines with `_id` equal to `id`, in cart order. */
  function Matching(c: seq<Line>, id: string): seq<Line> {
    if c == [] then []
    else if c[0].id == id then [c[0]] + Matching(c[1..], id)
    else Matching(c[1..], id)
  }

  lemma HasCons(c: seq<Line>, u: string)
    requires c != []
    ensures Has(c, u) <==> c[0].id == u || Has(c[1..], u)
  {
    if Has(c, u) && c[0].id != u {
      var i :| 0 <= i < |c| && c[i].id == u;
      assert c[1..][i - 1].id == u;
    }
    if Has(c[1..], u) {
      var i :| 0 <= i < |c[1..]| && c[1..][i].id == u;
      assert c[i + 1].id == u;
    }
  }

  lemma DistinctCons(c: seq<Line>)
    requires c != [] && DistinctIds(c)
    ensures DistinctIds(c[1..]) && !Has(c[1..], c[0].id)
  {
    forall i | 0 <= i < |c[1..]| ensures c[1..][i].id != c[0].id {
      assert c[1..][i] == c[i + 1];
    }
  }

  /** The total of a cart split in two is the sum of the totals of its parts. */
  lemma {:induction false} TotalAppend(a: seq<Line>, b: seq<Line>)
    ensures Total(a + b) == Total(a) + Total(b)
    decreases |a|
  {
    if a == [] {
      assert a + b == b;
    } else {
      assert (a + b)[1..] == a[1..] + b;
      TotalAppend(a[1..], b);
    }
  }

  /** Lines without any price add nothing to the total, and non-negative
      prices and quantities give a non-negative total. */
  lemma {:induction false} TotalNonNegative(c: seq<Line>)
    ensures (forall i :: 0 <= i < |c| ==> PriceOf(c[i]) == 0) ==> Total(c) == 0
    ensures (forall i :: 0 <= i < |c| ==> PriceOf(c[i]) >= 0 && QtyOf(c[i]) >= 0) ==> Total(c) >= 0
    decreases |c|
  {
    if c != [] {
      TotalNonNegative(c[1..]);
      assert forall i :: 1 <= i < |c| ==> c[1..][i - 1] == c[i];
      assert PriceOf(c[0]) >= 0 && QtyOf(c[0]) >= 0 ==> PriceOf(c[0]) * QtyOf(c[0]) >= 0;
    }
  }

  /** Replacing one line changes the total by the difference of the two lines' amounts. */
  lemma {:induction false} TotalUpdate(c: seq<Line>, k: nat, x: Line)
    requires k < |c|
    ensures Total(c[k := x]) == Total(c) - PriceOf(c[k]) * QtyOf(c[k]) + PriceOf(x) * QtyOf(x)
    decreases |c|
  {
    if k > 0 {
      assert c[k := x][1..] == c[1..][k - 1 := x];
      TotalUpdate(c[1..], k - 1, x);
    }
  }
}
