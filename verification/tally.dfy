/**
 * The order dashboards' aggregates, shared by both snapshots: the
 * `productCount` object built by folding every item of every order into an
 * accumulator, the top product read off it, and the per-order total
 * quantity. Each dashboard first projects its own order shape onto `Sale`s.
 */
module Tally {

  /** One item of one order as the dashboards count it: its title and quantity. */
  datatype Sale = Sale(title: string, qty: int)

  /** The entries of the `productCount` object, in the order `Object.entries`
      lists them: the order in which the keys were first inserted. */
  type Counts = seq<(string, int)>

  predicate HasKey(c: Counts, t: string) {
    exists i :: 0 <= i < |c| && c[i].0 == t
  }

  predicate DistinctKeys(c: Counts) {
    forall i, j :: 0 <= i < j < |c| ==> c[i].0 != c[j].0
  }

  /** `acc[t] || 0` */
  function Lookup(c: Counts, t: string): int {
    if c == [] then 0
    else if c[0].0 == t then c[0].1
    else Lookup(c[1..], t)
  }

  /** `acc[t] = (acc[t] || 0) + q`: an existing entry is updated where it
      stands, a new key is appended after all others. */
  function Bump(c: Counts, t: string, q: int): (r: Counts)
    ensures |c| <= |r| <= |c| + 1
  {
    if c == [] then [(t, q)]
    else if c[0].0 == t then [(t, c[0].1 + q)] + c[1..]
    else [c[0]] + Bump(c[1..], t, q)
  }

  /** The sum of all counts of the object. */
  function CountsSum(c: Counts): int {
    if c == [] then 0 else c[0].1 + CountsSum(c[1..])
  }

  /** The inner fold: every item of one order bumps its title by its
      quantity. The keys already in the accumulator keep their places. */
  function TallyItems(acc: Counts, items: seq<Sale>): (r: Counts)
    ensures |acc| <= |r|
    ensures forall i :: 0 <= i < |acc| ==> r[i].0 == acc[i].0
    decreases |items|
  {
    if items == [] then acc
    else
      BumpKeys(acc, items[0].title, items[0].qty);
      TallyItems(Bump(acc, items[0].title, items[0].qty), items[1..])
  }

  /** The outer fold over all orders, threading one accumulator. The keys
      already in the accumulator keep their places. */
  function TallyOrders(acc: Counts, orders: seq<seq<Sale>>): (r: Counts)
    ensures |acc| <= |r|
    ensures forall i :: 0 <= i < |acc| ==> r[i].0 == acc[i].0
    decreases |orders|
  {
    if orders == [] then acc
    else TallyOrders(TallyItems(acc, orders[0]), orders[1..])
  }

  /** Reference definition: the quantity of all items of one order that carry title `t`. */
  function Quantity(items: seq<Sale>, t: string): int {
    if items == [] then 0
    else (if items[0].title == t then items[0].qty else 0) + Quantity(items[1..], t)
  }

  /** Reference definition: the quantity sold of title `t` over all orders. */
  function OrdersQuantity(orders: seq<seq<Sale>>, t: string): int {
    if orders == [] then 0 else Quantity(orders[0], t) + OrdersQuantity(orders[1..], t)
  }

  predicate Sold(items: seq<Sale>, t: string) {
    exists i :: 0 <= i < |items| && items[i].title == t
  }

  predicate SoldIn(orders: seq<seq<Sale>>, t: string) {
    exists k :: 0 <= k < |orders| && Sold(orders[k], t)
  }

  /** The per-order `totalQty`: the sum of the quantities of its items. An
      order without items counts 0, and non-negative quantities never give a
      negative count. */
  function TotalQty(items: seq<Sale>): (r: int)
    ensures items == [] ==> r == 0
    ensures (forall i :: 0 <= i < |items| ==> items[i].qty >= 0) ==> r >= 0
  {
    if items == [] then 0 else items[0].qty + TotalQty(items[1..])
  }

  /** The sum of `totalQty` over all orders. */
  function OrdersQty(orders: seq<seq<Sale>>): int {
    if orders == [] then 0 else TotalQty(orders[0]) + OrdersQty(orders[1..])
  }

  /** The position of key `t`, or `|c|` when the object has no such key. */
  function KeyIndex(c: Counts, t: string): (k: nat)
    ensures k <= |c|
    ensures k < |c| ==> c[k].0 == t
    ensures forall j :: 0 <= j < k ==> c[j].0 != t
  {
    if c == [] then 0
    else if c[0].0 == t then 0
    else 1 + KeyIndex(c[1..], t)
  }

  /** A bump either updates the entry of an existing key in place or appends a new entry. */
  lemma {:induction false} BumpShape(c: Counts, t: string, q: int)
    ensures Bump(c, t, q) == if KeyIndex(c, t) < |c|
                             then c[KeyIndex(c, t) := (t, c[KeyIndex(c, t)].1 + q)]
                             else c + [(t, q)]
    decreases |c|
  {
    if c == [] {
    } else if c[0].0 == t {
      assert KeyIndex(c, t) == 0;
      assert [(t, c[0].1 + q)] + c[1..] == c[0 := (t, c[0].1 + q)];
    } else {
      var tail := c[1..];
      var k := KeyIndex(tail, t);
      assert KeyIndex(c, t) == k + 1;
      assert Bump(c, t, q) == [c[0]] + Bump(tail, t, q);
      BumpShape(tail, t, q);
      if k < |tail| {
        assert [c[0]] + tail[k := (t, tail[k].1 + q)] == c[k + 1 := (t, c[k + 1].1 + q)];
      } else {
        assert [c[0]] + (tail + [(t, q)]) == c + [(t, q)];
      }
    }
  }

  /** A bump adds `q` to what `acc[t]` reads and changes no other key's reading. */
  lemma {:induction false} BumpLookup(c: Counts, t: string, q: int, u: string)
    ensures Lookup(Bump(c, t, q), u) == Lookup(c, u) + (if u == t then q else 0)
    decreases |c|
  {
    if c != [] && c[0].0 != t {
      BumpLookup(c[1..], t, q, u);
    }
  }

  /** A bump adds exactly `q` to the sum of all counts. */
  lemma {:induction false} BumpSum(c: Counts, t: string, q: int)
    ensures CountsSum(Bump(c, t, q)) == CountsSum(c) + q
    decreases |c|
  {
    if c != [] && c[0].0 != t {
      BumpSum(c[1..], t, q);
    }
  }

  /** A bump keeps every existing key where it stands, adds `t` as a key
      (at the end when it is new) and no other, and keeps keys distinct. */
  lemma BumpKeys(c: Counts, t: string, q: int)
    ensures |Bump(c, t, q)| == if HasKey(c, t) then |c| else |c| + 1
    ensures forall i :: 0 <= i < |c| ==> Bump(c, t, q)[i].0 == c[i].0
    ensures forall u :: HasKey(Bump(c, t, q), u) <==> HasKey(c, u) || u == t
    ensures DistinctKeys(c) ==> DistinctKeys(Bump(c, t, q))
  {
    var r := Bump(c, t, q);
    var k := KeyIndex(c, t);
    BumpShape(c, t, q);
    assert HasKey(c, t) <==> k < |c|;
    assert forall i :: 0 <= i < |c| ==> r[i].0 == c[i].0;
    assert HasKey(r, t) by {
      if k < |c| { assert r[k].0 == t; } else { assert r[|c|].0 == t; }
    }
    forall u | u != t ensures HasKey(r, u) <==> HasKey(c, u) {
      if HasKey(r, u) {
        var i :| 0 <= i < |r| && r[i].0 == u;
        assert c[i].0 == u;
      }
      if HasKey(c, u) {
        var i :| 0 <= i < |c| && c[i].0 == u;
        assert r[i].0 == u;
      }
    }
  }

  /** One bump adds `q` to key `t` and to nothing else, keeps every existing
      key where it stands, appends `t` only when it is new, and keeps keys distinct. */
  lemma BumpSpec(c: Counts, t: string, q: int)
    ensures forall u :: Lookup(Bump(c, t, q), u) == Lookup(c, u) + (if u == t then q else 0)
    ensures |Bump(c, t, q)| == if HasKey(c, t) then |c| else |c| + 1
    ensures forall i :: 0 <= i < |c| ==> Bump(c, t, q)[i].0 == c[i].0
    ensures forall u :: HasKey(Bump(c, t, q), u) <==> HasKey(c, u) || u == t
    ensures DistinctKeys(c) ==> DistinctKeys(Bump(c, t, q))
    ensures CountsSum(Bump(c, t, q)) == CountsSum(c) + q
  {
    BumpKeys(c, t, q);
    BumpSum(c, t, q);
    forall u ensures Lookup(Bump(c, t, q), u) == Lookup(c, u) + (if u == t then q else 0) {
      BumpLookup(c, t, q, u);
    }
  }

  /** In an object with distinct keys, an entry's count is what `acc[key]` reads. */
  lemma {:induction false} LookupAt(c: Counts, i: nat)
    requires DistinctKeys(c) && i < |c|
    ensures Lookup(c, c[i].0) == c[i].1
  {
    if i > 0 {
      assert c[0].0 != c[i].0;
      assert DistinctKeys(c[1..]);
      LookupAt(c[1..], i - 1);
    }
  }

  /** Folding one order's items adds, for every title, exactly that order's
      quantity of it; keys already present keep their positions; the keys
      are those already present plus the titles sold; and the counts grow in
      total by the order's `totalQty`. */
  lemma {:induction false} TallyItemsSpec(acc: Counts, items: seq<Sale>)
    ensures forall t :: Lookup(TallyItems(acc, items), t) == Lookup(acc, t) + Quantity(items, t)
    ensures forall t :: HasKey(TallyItems(acc, items), t) <==> HasKey(acc, t) || Sold(items, t)
    ensures |acc| <= |TallyItems(acc, items)|
    ensures forall i :: 0 <= i < |acc| ==> TallyItems(acc, items)[i].0 == acc[i].0
    ensures DistinctKeys(acc) ==> DistinctKeys(TallyItems(acc, items))
    ensures CountsSum(TallyItems(acc, items)) == CountsSum(acc) + TotalQty(items)
    decreases |items|
  {
    if items != [] {
      var s := items[0];
      var next := Bump(acc, s.title, s.qty);
      BumpSpec(acc, s.title, s.qty);
      TallyItemsSpec(next, items[1..]);
      forall t ensures Sold(items, t) <==> s.title == t || Sold(items[1..], t) {
        SoldCons(items, t);
      }
    }
  }

  /** A title is sold in some order when the first order sells it or a later one does. */
  lemma SoldInCons(orders: seq<seq<Sale>>, t: string)
    requires orders != []
    ensures SoldIn(orders, t) <==> Sold(orders[0], t) || SoldIn(orders[1..], t)
  {
    if SoldIn(orders, t) {
      var k :| 0 <= k < |orders| && Sold(orders[k], t);
      if k > 0 { assert Sold(orders[1..][k - 1], t); }
    }
    if SoldIn(orders[1..], t) {
      var k :| 0 <= k < |orders[1..]| && Sold(orders[1..][k], t);
      assert Sold(orders[k + 1], t);
    }
  }

  /** A title is sold in an order when its first item has it or the rest sell it. */
  lemma SoldCons(items: seq<Sale>, t: string)
    requires items != []
    ensures Sold(items, t) <==> items[0].title == t || Sold(items[1..], t)
  {
    if Sold(items, t) {
      var i :| 0 <= i < |items| && items[i].title == t;
      if i > 0 { assert items[1..][i - 1].title == t; }
    }
    if Sold(items[1..], t) {
      var i :| 0 <= i < |items[1..]| && items[1..][i].title == t;
      assert items[i + 1].title == t;
    }
  }

  /** The same facts for the fold over all orders. */
  lemma {:induction false} TallyOrdersSpec(acc: Counts, orders: seq<seq<Sale>>)
    ensures forall t :: Lookup(TallyOrders(acc, orders), t) == Lookup(acc, t) + OrdersQuantity(orders, t)
    ensures forall t :: HasKey(TallyOrders(acc, orders), t) <==> HasKey(acc, t) || SoldIn(orders, t)
    ensures |acc| <= |TallyOrders(acc, orders)|
    ensures forall i :: 0 <= i < |acc| ==> TallyOrders(acc, orders)[i].0 == acc[i].0
    ensures DistinctKeys(acc) ==> DistinctKeys(TallyOrders(acc, orders))
    ensures CountsSum(TallyOrders(acc, orders)) == CountsSum(acc) + OrdersQty(orders)
    decreases |orders|
  {
    if orders != [] {
      var next := TallyItems(acc, orders[0]);
      TallyItemsSpec(acc, orders[0]);
      TallyOrdersSpec(next, orders[1..]);
      forall t ensures SoldIn(orders, t) <==> Sold(orders[0], t) || SoldIn(orders[1..], t) {
        SoldInCons(orders, t);
      }
    }
  }

  /** Folding the orders in two batches is folding them all at once. */
  lemma {:induction false} TallyOrdersSplit(acc: Counts, a: seq<seq<Sale>>, b: seq<seq<Sale>>)
    ensures TallyOrders(acc, a + b) == TallyOrders(TallyOrders(acc, a), b)
    decreases |a|
  {
    if a != [] {
      assert (a + b)[0] == a[0];
      assert (a + b)[1..] == a[1..] + b;
      TallyOrdersSplit(TallyItems(acc, a[0]), a[1..], b);
    } else {
      assert a + b == b;
    }
  }

  /** Counting over two batches of orders adds up. */
  lemma {:induction false} OrdersQuantityAppend(a: seq<seq<Sale>>, b: seq<seq<Sale>>, t: string)
    ensures OrdersQuantity(a + b, t) == OrdersQuantity(a, t) + OrdersQuantity(b, t)
    decreases |a|
  {
    if a == [] {
      assert a + b == b;
    } else {
      assert (a + b)[1..] == a[1..] + b;
      OrdersQuantityAppend(a[1..], b, t);
    }
  }

  /** The dashboards' `productCount`: a nested loop over orders and their
      items that updates one accumulator object in place. The result has one
      entry per title sold, each holding the title's total quantity, and the
      counts add up to the sum of all per-order `totalQty`. */
  method ProductCount(orders: seq<seq<Sale>>) returns (acc: Counts)
    ensures acc == TallyOrders([], orders)
    ensures DistinctKeys(acc)
    ensures forall t :: Lookup(acc, t) == OrdersQuantity(orders, t)
    ensures forall t :: HasKey(acc, t) <==> SoldIn(orders, t)
    ensures CountsSum(acc) == OrdersQty(orders)
  {
    acc := [];
    var k := 0;
    while k < |orders|
      invariant 0 <= k <= |orders|
      invariant TallyOrders(acc, orders[k..]) == TallyOrders([], orders)
    {
      var items := orders[k];
      ghost var before := acc;
      var i := 0;
      while i < |items|
        invariant 0 <= i <= |items|
        invariant TallyItems(acc, items[i..]) == TallyItems(before, items)
      {
        acc := Bump(acc, items[i].title, items[i].qty);
        assert items[i..][1..] == items[i + 1..];
        i := i + 1;
      }
      assert items[i..] == [];
      assert orders[k..][1..] == orders[k + 1..];
      k := k + 1;
    }
    assert orders[k..] == [];
    TallyOrdersSpec([], orders);
  }

  /** The index of the first entry whose count is maximal: the entry a
      stable sort by descending count puts first. */
  function TopIndex(c: Counts): (k: nat)
    requires c != []
    ensures k < |c|
    ensures forall j :: 0 <= j < |c| ==> c[j].1 <= c[k].1
    ensures forall j :: 0 <= j < k ==> c[j].1 < c[k].1
  {
    if |c| == 1 then 0
    else
      var k := TopIndex(c[..|c| - 1]);
      if c[|c| - 1].1 > c[k].1 then |c| - 1 else k
  }

  /** `topProduct`: "--" while the object is empty, otherwise the title of
      the first entry (in insertion order) with the largest count. */
  function TopProduct(c: Counts): (r: string)
    ensures c == [] ==> r == "--"
    ensures c != [] ==> exists k :: 0 <= k < |c| && r == c[k].0
                          && (forall j :: 0 <= j < |c| ==> c[j].1 <= c[k].1)
                          && (forall j :: 0 <= j < k ==> c[j].1 < c[k].1)
  {
    if c == [] then "--" else c[TopIndex(c)].0
  }

  /** `productCount` is empty, and the top product therefore "--", exactly
      when no order has any item. */
  lemma NoEntriesIffNoItems(orders: seq<seq<Sale>>)
    ensures TallyOrders([], orders) == [] <==> forall k :: 0 <= k < |orders| ==> orders[k] == []
  {
    var r := TallyOrders([], orders);
    TallyOrdersSpec([], orders);
    forall k | 0 <= k < |orders| && orders[k] != [] ensures r != [] {
      assert Sold(orders[k], orders[k][0].title);
      assert SoldIn(orders, orders[k][0].title);
      assert HasKey(r, orders[k][0].title);
    }
    if r != [] {
      assert HasKey(r, r[0].0);
      var k :| 0 <= k < |orders| && Sold(orders[k], r[0].0);
    }
  }

  /** When some order has an item, the top product is a title that was sold
      and no sold title has a larger total quantity. */
  lemma TopProductIsBestSeller(orders: seq<seq<Sale>>)
    requires exists k :: 0 <= k < |orders| && orders[k] != []
    ensures SoldIn(orders, TopProduct(TallyOrders([], orders)))
    ensures forall u :: SoldIn(orders, u) ==>
              OrdersQuantity(orders, u) <= OrdersQuantity(orders, TopProduct(TallyOrders([], orders)))
  {
    var c := TallyOrders([], orders);
    TallyOrdersSpec([], orders);
    NoEntriesIffNoItems(orders);
    var k := TopIndex(c);
    var t := c[k].0;
    assert TopProduct(c) == t;
    assert HasKey(c, t);
    LookupAt(c, k);
    forall u | SoldIn(orders, u) ensures OrdersQuantity(orders, u) <= OrdersQuantity(orders, t) {
      assert HasKey(c, u);
      var j :| 0 <= j < |c| && c[j].0 == u;
      LookupAt(c, j);
    }
  }

  /** Entries are never reordered: the titles counted from the first `i`
      orders lead the final object in the same order, so a title first sold
      in an earlier order is listed, and wins a tie, before one first sold later. */
  lemma EarlierOrdersListedFirst(orders: seq<seq<Sale>>, i: nat)
    requires i <= |orders|
    ensures |TallyOrders([], orders[..i])| <= |TallyOrders([], orders)|
    ensures forall j :: 0 <= j < |TallyOrders([], orders[..i])| ==>
              TallyOrders([], orders)[j].0 == TallyOrders([], orders[..i])[j].0
  {
    assert orders == orders[..i] + orders[i..];
    TallyOrdersSplit([], orders[..i], orders[i..]);
    TallyOrdersSpec(TallyOrders([], orders[..i]), orders[i..]);
  }
}
