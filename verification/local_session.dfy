/**
 * The local-only snapshot's running state: the App's `cart` state and
 * localStorage, changed in place by the handlers of `src/App.jsx`,
 * `src/components/Cart.jsx`, `src/components/Checkout.jsx` and
 * `src/components/Login.jsx`. Each handler performs its state update and
 * its storage write as one step; the clock is a parameter.
 */
module LocalSession {
  import opened Common
  import opened LocalModel
  import LocalApp
  import LocalCart
  import LocalCheckout
  import LocalLogin
  import LocalDashboard

  class Session {
    /** The App's `cart` state. */
    var cart: seq<Item>
    /** localStorage. */
    var store: Store

    /** The App's cart is what a reload would read back from storage. */
    ghost predicate Synced()
      reads this
    {
      InitialCart(store.cart) == cart
    }

    /** The App mounts: the cart state starts from the stored `"cart"` list. */
    constructor(saved: Store)
      ensures store == saved
      ensures cart == InitialCart(saved.cart)
      ensures Synced()
    {
      store := saved;
      cart := InitialCart(saved.cart);
    }

    /** `addToCart`: the cart becomes `AddLine` of the old one and is written
        to `"cart"`; no other key changes; one line per id and quantities of
        at least 1 are kept. */
    method AddToCart(p: Product)
      modifies this
      ensures cart == LocalApp.AddLine(old(cart), p)
      ensures store == old(store).(cart := Some(cart))
      ensures Synced()
      ensures QtyFor(cart, p.id) == QtyFor(old(cart), p.id) + LocalApp.QtyToAdd(p)
      ensures DistinctIds(old(cart)) ==> DistinctIds(cart)
      ensures AllAtLeastOne(old(cart)) && LocalApp.QtyToAdd(p) >= 1 ==> AllAtLeastOne(cart)
    {
      LocalApp.AddRaisesQuantity(cart, p);
      LocalApp.AddKeepsInvariants(cart, p);
      cart := LocalApp.AddLine(cart, p);
      store := store.(cart := Some(cart));
    }

    /** `removeFromCart`: every line of `id` goes, the rest stay in order,
        and the new cart is written to `"cart"`. */
    method RemoveFromCart(id: string)
      modifies this
      ensures cart == LocalApp.RemoveLines(old(cart), id)
      ensures store == old(store).(cart := Some(cart))
      ensures Synced()
      ensures !Has(cart, id)
      ensures forall u :: u != id ==> Matching(cart, u) == Matching(old(cart), u)
      ensures Total(cart) == Total(old(cart)) - Total(Matching(old(cart), id))
    {
      LocalApp.RemoveSpec(cart, id);
      cart := LocalApp.RemoveLines(cart, id);
      store := store.(cart := Some(cart));
    }

    /** The cart page's `updateQuantity`: the lines of `id` move by `delta`,
        clamped at 1, and the new cart is written to `"cart"`. */
    method UpdateQuantity(id: string, delta: int)
      modifies this
      ensures cart == LocalCart.ChangeQuantity(old(cart), id, delta)
      ensures store == old(store).(cart := Some(cart))
      ensures Synced()
      ensures DistinctIds(old(cart)) ==> DistinctIds(cart)
      ensures AllAtLeastOne(old(cart)) ==> AllAtLeastOne(cart)
    {
      LocalCart.ChangeKeepsInvariants(cart, id, delta);
      cart := LocalCart.ChangeQuantity(cart, id, delta);
      store := store.(cart := Some(cart));
    }

    /** Submitting the checkout form. The route shows the form only while a
        token is stored; then the order built from the cart is appended to
        `"orders"`, the cart state is emptied and `"cart"` is removed, and the
        dashboard's revenue grows by the cart total. Without a token nothing
        changes and `placed` is false. */
    method PlaceOrder(customer: Customer, now: int, date: string) returns (placed: bool)
      modifies this
      ensures placed <==> Truthy(old(store).token)
      ensures !placed ==> cart == old(cart) && store == old(store)
      ensures placed ==> cart == [] && Synced()
      ensures placed ==> store == old(store).(
                orders := Some(LocalCheckout.AppendOrder(old(store).orders,
                                 LocalCheckout.MakeOrder(old(cart), customer, now, date))),
                cart := None)
      ensures placed ==> LocalDashboard.Revenue(ListOr(store.orders))
                         == LocalDashboard.Revenue(ListOr(old(store).orders)) + Total(old(cart))
    {
      if !Truthy(store.token) {
        return false;
      }
      var order := LocalCheckout.MakeOrder(cart, customer, now, date);
      LocalDashboard.CheckoutGrowsDashboard(ListOr(store.orders), cart, customer, now, date, "");
      store := store.(orders := Some(LocalCheckout.AppendOrder(store.orders, order)), cart := None);
      cart := [];
      placed := true;
    }

    /** Submitting the login form: the first stored user with that email and
        password is signed in (token, name and role written, nothing else
        changes) and the redirect chosen; with no such user nothing changes.
        After a successful login the cart page's checkout button leads to
        `/checkout` and the dashboard loads. */
    method SubmitLogin(email: string, password: string) returns (found: bool, redirect: Option<string>)
      modifies this
      ensures cart == old(cart)
      ensures found <==> exists i :: 0 <= i < |ListOr(old(store).users)| &&
                                     LocalLogin.Matches(ListOr(old(store).users)[i], email, password)
      ensures !found ==> store == old(store) && redirect.None?
      ensures found ==> var u := LocalLogin.FindUser(ListOr(old(store).users), email, password).value;
                        store == LocalLogin.LoggedIn(old(store), u)
                        && redirect == Some(LocalLogin.Destination(u))
      ensures found ==> LocalCart.CheckoutTarget(store.token) == "/checkout"
                        && LocalDashboard.Load(store).Showing?
    {
      var user := LocalLogin.FindUser(ListOr(store.users), email, password);
      if user.None? {
        return false, None;
      }
      store := LocalLogin.LoggedIn(store, user.value);
      found, redirect := true, Some(LocalLogin.Destination(user.value));
    }

    /** Opening the login page removes `"cart"` from storage but leaves the
        App's cart state as it was, so the two agree afterwards only when
        the cart is empty. */
    method MountLogin()
      modifies this
      ensures cart == old(cart)
      ensures store == old(store).(cart := None)
      ensures Synced() <==> cart == []
    {
      store := store.(cart := None);
    }
  }
}
