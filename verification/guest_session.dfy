/**
 * The guest/server snapshot's running state: the App's `cart` state,
 * localStorage and the requests sent so far, changed in place by the
 * handlers of `frontend/src/App.jsx`, `frontend/src/components/Cart.jsx`,
 * `frontend/src/components/Login.jsx`, `frontend/src/components/Checkout.jsx`
 * and `frontend/src/components/Dashboard.jsx`. Each request is appended to
 * `log`; what the backend answers is a parameter of the handler.
 */
module GuestSession {
  import opened Common
  import opened GuestModel
  import GuestApp
  import GuestCart
  import GuestLogin
  import GuestDashboard

  class Session {
    /** The App's `cart` state. */
    var cart: seq<Line>
    /** localStorage. */
    var store: Store
    /** Every request sent to the backend, oldest first. */
    var log: seq<Request>

    /** Every stored guest line carries its own `quantity`, as every line
        this snapshot writes to `"guest_cart"` does. */
    ghost predicate Valid()
      reads this
    {
      HaveQuantities(ListOr(store.guestCart))
    }

    /** The App mounts with an empty cart state; `SyncCart` then loads it. */
    constructor(saved: Store)
      ensures store == saved && cart == [] && log == []
    {
      store := saved;
      cart := [];
      log := [];
    }

    /** `syncCart`: without a token the cart state becomes the stored guest
        cart, or `[]` when the key is absent, and nothing is sent; with one,
        the server cart is fetched and its `items` (or `[]`) shown. Storage
        is never written. */
    method SyncCart(reply: Option<seq<Line>>)
      modifies this
      ensures store == old(store)
      ensures !Truthy(store.token) ==> cart == ListOr(store.guestCart) && log == old(log)
      ensures Truthy(store.token) ==> log == old(log) + [GetCart(store.token.value)] && cart == ListOr(reply)
    {
      if !Truthy(store.token) {
        cart := ListOr(store.guestCart);
      } else {
        log := log + [GetCart(store.token.value)];
        cart := ListOr(reply);
      }
    }

    /** `addToCart(product, qty = 1)`. Without a token the parsed guest cart
        is changed in place (the first line of the product's id gets
        `quantity += qty`, or `{...product, quantity: qty}` is pushed), then
        written back to `"guest_cart"` and shown, and nothing is sent. With a
        token exactly one add-request `{productId, qty}` and one refetch are
        sent, the reply's `items` are shown, and storage is not touched. */
    method AddToCart(p: Line, qty: Option<int>, reply: Option<seq<Line>>)
      requires !Truthy(store.token) ==> Valid()
      modifies this
      ensures !Truthy(old(store).token) ==> Valid()
      ensures old(Valid()) ==> Valid()
      ensures !Truthy(old(store).token) ==>
                cart == GuestApp.Added(ListOr(old(store).guestCart), p, qty.GetOr(1))
                && store == old(store).(guestCart := Some(cart))
                && log == old(log)
      ensures !Truthy(old(store).token) ==>
                GuestApp.QtyFor(cart, p.id) == GuestApp.QtyFor(ListOr(old(store).guestCart), p.id) + qty.GetOr(1)
                && (DistinctIds(ListOr(old(store).guestCart)) ==> DistinctIds(cart))
      ensures Truthy(old(store).token) ==>
                log == old(log) + [AddItem(old(store).token.value, p.id, Some(qty.GetOr(1))), GetCart(old(store).token.value)]
                && cart == ListOr(reply)
                && store == old(store)
    {
      var n := qty.GetOr(1);
      if !Truthy(store.token) {
        var guest := ListOr(store.guestCart);
        GuestApp.AddedKeepsInvariants(guest, p, n);
        var k := GuestApp.IndexOf(guest, p.id);
        if k > -1 {
          guest := guest[k := guest[k].(quantity := Some(guest[k].quantity.value + n))];
        } else {
          guest := guest + [p.(quantity := Some(n))];
        }
        store := store.(guestCart := Some(guest));
        cart := guest;
      } else {
        var token := store.token.value;
        log := log + [AddItem(token, p.id, Some(n)), GetCart(token)];
        cart := ListOr(reply);
      }
    }

    /** The cart page's `handleRemove`. Without a token every stored guest
        line of the item's `_id` is deleted, the rest written back and shown.
        With one, a delete-request for the item's backend key and a refetch
        are sent and the reply's `items` shown; storage is not touched. */
    method HandleRemove(item: Line, reply: Option<seq<Line>>)
      modifies this
      ensures old(Valid()) ==> Valid()
      ensures !Truthy(old(store).token) ==>
                cart == GuestCart.Without(ListOr(old(store).guestCart), item.id)
                && store == old(store).(guestCart := Some(cart))
                && log == old(log)
                && !Has(cart, item.id)
      ensures Truthy(old(store).token) ==>
                log == old(log) + [DeleteItem(old(store).token.value, GuestCart.BackendKey(item)), GetCart(old(store).token.value)]
                && cart == ListOr(reply)
                && store == old(store)
    {
      if !Truthy(store.token) {
        var guest := ListOr(store.guestCart);
        GuestCart.WithoutSpec(guest, item.id);
        GuestCart.WithoutTotal(guest, item.id);
        guest := GuestCart.Without(guest, item.id);
        store := store.(guestCart := Some(guest));
        cart := guest;
      } else {
        var token := store.token.value;
        log := log + [DeleteItem(token, GuestCart.BackendKey(item)), GetCart(token)];
        cart := ListOr(reply);
      }
    }

    /** The cart page's `updateQuantity`: the new quantity is
        `max(1, currentQty + delta)`. Without a token every stored guest line
        of the item's `_id` gets it, and the result is written back and
        shown. With one, an update-request for the item's backend key and a
        refetch are sent and the reply's `items` shown; storage is not touched. */
    method UpdateQuantity(item: Line, delta: int, reply: Option<seq<Line>>)
      modifies this
      ensures old(Valid()) ==> Valid()
      ensures !Truthy(old(store).token) ==>
                cart == GuestCart.WithQty(ListOr(old(store).guestCart), item.id, GuestCart.NewQty(item, delta))
                && store == old(store).(guestCart := Some(cart))
                && log == old(log)
      ensures Truthy(old(store).token) ==>
                log == old(log) + [UpdateItem(old(store).token.value, GuestCart.BackendKey(item), GuestCart.NewQty(item, delta)),
                                   GetCart(old(store).token.value)]
                && cart == ListOr(reply)
                && store == old(store)
    {
      var n := GuestCart.NewQty(item, delta);
      if !Truthy(store.token) {
        var guest := ListOr(store.guestCart);
        GuestCart.WithQtySpec(guest, item, delta);
        guest := GuestCart.WithQty(guest, item.id, n);
        store := store.(guestCart := Some(guest));
        cart := guest;
      } else {
        var token := store.token.value;
        log := log + [UpdateItem(token, GuestCart.BackendKey(item), n), GetCart(token)];
        cart := ListOr(reply);
      }
    }

    /** `mergeGuestCartToBackend(token)`: an absent or empty guest cart sends
        nothing and changes nothing; otherwise one add-request per guest line
        is sent, in stored order, all with the given token, and then the
        `"guest_cart"` key is removed. The cart state is not touched. */
    method MergeGuestCart(token: string)
      modifies this
      ensures cart == old(cart)
      ensures ListOr(old(store).guestCart) == [] ==> store == old(store) && log == old(log)
      ensures ListOr(old(store).guestCart) != [] ==>
                log == old(log) + GuestLogin.MergeRequests(token, ListOr(old(store).guestCart))
                && store == old(store).(guestCart := None)
    {
      var guest := ListOr(store.guestCart);
      if |guest| == 0 {
        return;
      }
      var i := 0;
      while i < |guest|
        invariant 0 <= i <= |guest|
        invariant log == old(log) + GuestLogin.MergeRequests(token, guest[..i])
        invariant store == old(store) && cart == old(cart)
      {
        assert guest[..i + 1] == guest[..i] + [guest[i]];
        GuestLogin.MergeRequestsSnoc(token, guest[..i], guest[i]);
        log := log + [GuestLogin.MergeRequest(token, guest[i])];
        i := i + 1;
      }
      assert guest[..i] == guest;
      store := store.(guestCart := None);
    }

    /** Submitting the login form. The login request is sent. Without a
        usable reply the error is "Something went wrong"; a reply that is not
        OK gives its `msg` or "Login failed"; either way nothing else changes.
        An OK reply stores token, username and email, then merges the guest
        cart with the reply's token, and chooses the redirect; `error` is
        then empty. */
    method SubmitLogin(creds: Credentials, reply: GuestLogin.LoginReply) returns (error: string, redirect: Option<string>)
      modifies this
      ensures old(Valid()) ==> Valid()
      ensures cart == old(cart)
      ensures reply.NoReply? ==>
                error == "Something went wrong" && redirect.None?
                && store == old(store) && log == old(log) + [PostLogin(creds)]
      ensures reply.Reply? && !reply.ok ==>
                error == GuestLogin.FailureText(reply.msg) && redirect.None?
                && store == old(store) && log == old(log) + [PostLogin(creds)]
      ensures reply.Reply? && reply.ok ==>
                error == "" && redirect == Some(GuestLogin.Destination(reply.email))
                && store.token == Some(StoredText(reply.token))
                && store.username == Some(StoredText(reply.name))
                && store.email == Some(StoredText(reply.email))
      ensures reply.Reply? && reply.ok && ListOr(old(store).guestCart) != [] ==>
                log == old(log) + [PostLogin(creds)]
                       + GuestLogin.MergeRequests(StoredText(reply.token), ListOr(old(store).guestCart))
                && store.guestCart.None?
      ensures reply.Reply? && reply.ok && ListOr(old(store).guestCart) == [] ==>
                log == old(log) + [PostLogin(creds)] && store.guestCart == old(store).guestCart
    {
      log := log + [PostLogin(creds)];
      if reply.NoReply? {
        return "Something went wrong", None;
      }
      if !reply.ok {
        return GuestLogin.FailureText(reply.msg), None;
      }
      store := GuestLogin.LoggedIn(store, reply);
      MergeGuestCart(StoredText(reply.token));
      error, redirect := "", Some(GuestLogin.Destination(reply.email));
    }

    /** Submitting the checkout form. Without a token nothing is sent and
        nothing changes. With one, the order request carrying only the form
        data is sent; when the reply is OK `"guest_cart"` is removed and the
        cart state emptied, otherwise neither is touched. */
    method SubmitOrder(customer: Customer, ok: bool) returns (placed: bool)
      modifies this
      ensures old(Valid()) ==> Valid()
      ensures placed <==> Truthy(old(store).token) && ok
      ensures !Truthy(old(store).token) ==> cart == old(cart) && store == old(store) && log == old(log)
      ensures Truthy(old(store).token) ==> log == old(log) + [PostOrder(old(store).token.value, customer)]
      ensures Truthy(old(store).token) && !ok ==> cart == old(cart) && store == old(store)
      ensures placed ==> cart == [] && store == old(store).(guestCart := None)
    {
      if !Truthy(store.token) {
        return false;
      }
      log := log + [PostOrder(store.token.value, customer)];
      if !ok {
        return false;
      }
      store := store.(guestCart := None);
      cart := [];
      placed := true;
    }

    /** The dashboard's effect: without a token it redirects to `/login` and
        sends nothing; with one it fetches the orders and shows them
        normalised. Storage and the cart state are not touched. */
    method LoadDashboard(reply: GuestDashboard.OrdersReply) returns (v: GuestDashboard.View)
      modifies this
      ensures store == old(store) && cart == old(cart)
      ensures v.ToLogin? <==> !Truthy(store.token)
      ensures v.ToLogin? ==> log == old(log)
      ensures v.Showing? ==> log == old(log) + [GetOrders(store.token.value)]
                             && v.orders == GuestDashboard.Normalise(reply)
    {
      if !Truthy(store.token) {
        return GuestDashboard.ToLogin;
      }
      log := log + [GetOrders(store.token.value)];
      v := GuestDashboard.Showing(GuestDashboard.Normalise(reply));
    }
  }
}
