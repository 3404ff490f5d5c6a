# Sarbath Kart cart bookkeeping, in Dafny

Sarbath Kart is a React storefront, and this project models how it keeps
its cart. The repository holds two snapshots of the shop:

- **Local-only** (`src/`). Cart, orders and users all live in the
  browser's localStorage. `addToCart` either raises the quantity of a
  product's existing line or appends a new one. `removeFromCart` drops
  every line with an id. The cart page moves a line's quantity up or down
  but never below 1. Checkout appends an order record to `"orders"` and
  empties the cart. Login looks the user up in the stored `"users"` list.
  The dashboard adds up revenue and per-title sales and picks the best
  seller.
- **Guest/server** (`frontend/`). While no token is stored, the same list
  operations run on the `"guest_cart"` key. With a token, every cart
  change is a request to the backend followed by a refetch of `/cart`. On
  login the guest cart is replayed to the backend as one add-request per
  line, and then the guest key is removed.

Shared by both are:

- the product pages' quantity selector, a map from id to quantity with a
  floor at 1;
- the "Top Products" slice of three.

How the model is built:

- **localStorage** is a record with one `Option` field per key. `None` is
  an absent key, a stored value is its decoded JSON, and `removeItem`
  sets the field to `None`.
- **Each snapshot's running state** is a class `Session`. It holds the
  React `cart` state and the store, plus the request `log` in the
  guest/server snapshot. Its methods are the event handlers, and each one
  states the whole new state.
- **What each step computes** is a pure function over sequences, and
  lemmas prove what the shop relies on:
  - one line per `_id`;
  - quantities of at least 1;
  - the total is the sum of price × quantity;
  - nothing else changes;
  - the stored cart and the shown cart agree.
- **Backend replies** are parameters of the handlers that wait for them.
  Every request sent is appended to `log`. Where the code catches a
  failed request, the failure is one of the parameter's cases.
- **The clock** (`Date.now()`, `toISOString()`) is a parameter.

| module | models |
|---|---|
| `Common` | `Option`, the customer form record, JS truthiness of a stored string, the `[]` and `0` defaults for absent values |
| `Catalog` | Home/Products pages of both snapshots: `increaseQty`, `decreaseQty`, the shown quantity defaulting to 1, `slice(0, 3)`, the product fetch outcome |
| `Tally` | the dashboards' `productCount` fold, its nested-loop form, and `topProduct` |
| `LocalModel`, `LocalApp`, `LocalCart`, `LocalCheckout`, `LocalLogin`, `LocalDashboard`, `LocalSession` | the `src/` snapshot |
| `GuestModel`, `GuestApp`, `GuestCart`, `GuestLogin`, `GuestDashboard`, `GuestSession` | the `frontend/` snapshot |

The navbar badge is `cart.length` in both snapshots. It therefore counts
lines, not units. `LocalApp.AddLine` and `GuestApp.Added` state the
number of lines after an add.

## Model

Small helpers without a row are single expressions whose meaning the
rowed members pin down: the dashboards' `TopProduct` wrappers,
`LocalApp.NewLine`, `Catalog.Apply`, `GuestLogin.MergeRequest` and
`LocalCheckout.ItemsTotal`.

| member | source | states |
|---|---|---|
| Catalog.Shown | src/components/Home.jsx:41 | the quantity beside a product is never 0: the picked one when set and non-zero, otherwise 1; at least 1 whenever every picked quantity is |
| Catalog.Increase | frontend/src/components/Home.jsx:49-54 | the product's entry becomes the shown quantity plus one (an unset id becomes 2); no other entry changes |
| Catalog.Decrease | frontend/src/components/Home.jsx:56-61 | the entry drops by one when above 1 and is 1 otherwise, so it is never below 1; no other entry changes |
| Catalog.ClicksKeepAtLeastOne | frontend/src/components/Products.jsx:36-48 | after any sequence of "+"/"−" clicks from a state whose entries are at least 1 (such as the initial `{}`), every entry and every shown quantity is at least 1 |
| Catalog.DecreaseUndoesIncrease | frontend/src/components/Home.jsx:49-61 | "−" after "+" restores a set entry exactly and sets an unset one to the 1 it showed |
| Catalog.IncreaseUndoesDecrease | src/components/Home.jsx:26-38 | "+" after "−" restores any entry above 1 |
| Catalog.Featured | frontend/src/components/Home.jsx:110 | the "Top Products" section shows the first three products, or all of them when there are fewer |
| Catalog.ProductsAfterFetch | frontend/src/components/Products.jsx:18-28 | a failed or non-OK product fetch leaves the list at its initial `[]`; a successful one shows the data |
| Tally.Bump | src/components/Dashboard.jsx:41-42 | one counter update adds at most one entry to the object; `Tally.BumpSpec` states what it adds |
| Tally.BumpSpec | src/components/Dashboard.jsx:41-42 | one counter update adds `qty` to that title only, keeps existing entries in place, appends a new title at the end, keeps titles distinct and adds `qty` to the sum of counts |
| Tally.TallyItems | src/components/Dashboard.jsx:40-44 | folding one order's items never drops or reorders the keys already counted |
| Tally.TallyOrders | src/components/Dashboard.jsx:39-45 | folding all orders never drops or reorders the keys already counted |
| Tally.TallyItemsSpec | src/components/Dashboard.jsx:40-44 | folding one order's items adds, for every title, exactly that order's quantity of it, and adds entries only for titles it sold |
| Tally.TallyOrdersSpec | src/components/Dashboard.jsx:39-45 | folding all orders from `{}` gives every title its total quantity over all orders, has an entry exactly for the titles sold, and the counts add up to the sum of per-order `totalQty` |
| Tally.TallyOrdersSplit | src/components/Dashboard.jsx:39-45 | folding orders in two batches equals folding them all at once |
| Tally.OrdersQuantityAppend | src/components/Dashboard.jsx:39-45 | a title's quantity over two batches of orders is the sum over each batch |
| Tally.ProductCount | frontend/src/components/Dashboard.jsx:40-48 | the nested loop that updates one accumulator object in place computes the fold: one entry per title sold, each holding that title's total quantity, with distinct titles and counts summing to the sum of per-order `totalQty` |
| Tally.TotalQty | src/components/Dashboard.jsx:110-113 | an order's `totalQty` is 0 without items and never negative with non-negative quantities; `LocalDashboard.SummarySales` ties it to the cart's units |
| Tally.TopIndex | src/components/Dashboard.jsx:48-54 | the entry picked is maximal and every earlier entry is strictly smaller, which is what a stable descending sort puts first |
| Tally.TopProduct | src/components/Dashboard.jsx:36-54 | `"--"` for an empty object; otherwise the title of an entry with maximal count that no earlier entry ties |
| Tally.NoEntriesIffNoItems | src/components/Dashboard.jsx:36-54 | `productCount` is empty exactly when no order has an item |
| Tally.TopProductIsBestSeller | src/components/Dashboard.jsx:48-54 | when some order has an item, the top product is a title that was sold and no sold title has a larger total |
| Tally.EarlierOrdersListedFirst | src/components/Dashboard.jsx:48-50 | entries are never reordered, so titles first sold in earlier orders precede later ones and win ties |
| LocalModel.InitialCart | src/App.jsx:17-20 | the cart starts as the stored `"cart"` list, or `[]` when the key is absent |
| LocalModel.Total | src/components/Cart.jsx:7-10 | an empty cart totals 0; with `TotalAppend` the total is the sum of price × quantity over the lines |
| LocalModel.TotalAppend | src/components/Cart.jsx:7-10 | the total of a cart split in two is the sum of the parts' totals |
| LocalModel.TotalNonNegative | src/components/Cart.jsx:7-10 | with non-negative prices and quantities of at least 1 the total is never negative; a cart of free lines totals 0 |
| LocalApp.QtyToAdd | src/App.jsx:23 | `product.quantity` when it is non-zero, otherwise 1; never 0 and at least 1 unless a negative quantity was given |
| LocalApp.Raise | src/App.jsx:30-34 | every line of the id has its quantity raised by `n`; all other lines, and the length, are unchanged |
| LocalApp.AddLine | src/App.jsx:26-37 | a known id keeps the length and raises exactly the lines of that id by `qtyToAdd`; a new id appends exactly `{...product, quantity: qtyToAdd}` after the unchanged earlier lines |
| LocalApp.AddRaisesQuantity | src/App.jsx:23-37 | after an add the cart has the product's line and its quantity is the old one (0 if absent) plus `qtyToAdd` |
| LocalApp.AddKeepsInvariants | src/App.jsx:26-37 | an add keeps `_id`s distinct and keeps every quantity at least 1 when what it adds is at least 1 |
| LocalApp.RepeatedAdds | src/App.jsx:22-42 | repeated adds of one product gather in one line whose quantity grows by the sum of the adds; ids stay distinct and the cart grows by at most one line |
| LocalApp.AddAllKeepsLength | src/App.jsx:29-34 | repeated adds of a product already in the cart never change the number of lines |
| LocalApp.TotalRaise | src/App.jsx:30-34 | raising the lines of an id by `n` raises the total by `n` times their prices |
| LocalApp.AddTotal | src/App.jsx:29-34 | with one line per id, adding a product already in the cart raises the total by `qtyToAdd` times that line's price |
| LocalApp.AddNewTotal | src/App.jsx:35-37 | adding a new product raises the total by its price times `qtyToAdd` |
| LocalApp.RemoveLines | src/App.jsx:46 | removing never grows the cart and keeps no line of the id |
| LocalApp.RemoveSpec | src/App.jsx:46 | no line of the id is left; every other id keeps its lines in order; an absent id changes nothing; removing twice is removing once; ids stay distinct; the total drops by the removed lines' amount |
| LocalApp.RemoveAppend | src/App.jsx:46 | removing from a cart split in two removes from each part and keeps the parts in order, so every kept line stays in its original order |
| LocalApp.RemoveOne | src/App.jsx:46 | with one line per id, removing a line's id cuts exactly that line out and keeps the rest in order |
| LocalApp.AddFromSelector | src/components/Products.jsx:34-35 | the product pages hand `addToCart` a quantity of at least 1 from any reachable selector state, and the cart line grows by exactly that quantity |
| LocalCart.ChangeQuantity | src/components/Cart.jsx:16-24 | the lines of the id move by `delta` but never below 1; every other line is unchanged; length, order, ids, titles and prices are kept |
| LocalCart.ChangeKeepsInvariants | src/components/Cart.jsx:17-21 | distinct ids and quantities of at least 1 are kept; "−" on a line at 1 leaves it at 1 |
| LocalCart.UpThenDown | src/components/Cart.jsx:21 | "+" then "−" gives back the cart when the id's quantities are at least 1 |
| LocalCart.CheckoutTarget | src/components/Cart.jsx:155-161 | `/checkout` exactly when a token is stored and it is neither empty nor the text "undefined"; otherwise `/login?redirect=checkout` |
| LocalCheckout.Summary | src/components/Checkout.jsx:43-47 | the summary has one entry per cart line, in order, each with that line's title, quantity and price |
| LocalCheckout.SummaryTotal | src/components/Checkout.jsx:34-37 | the summary's price × quantity sum equals the cart total |
| LocalCheckout.MakeOrder | src/components/Checkout.jsx:43-56 | the order's items are exactly the summary of the cart, one per line in cart order, its `total` is the cart total and the sum over its items, its status is "Placed", its customer is the form data, and its id and date are the clock's |
| LocalCheckout.AppendOrder | src/components/Checkout.jsx:58-64 | the stored orders are kept in place and the new one follows them; an absent key counts as `[]` |
| LocalDashboard.Revenue | src/components/Dashboard.jsx:31-34 | orders without a total add nothing; non-negative totals give non-negative revenue |
| LocalDashboard.Load | src/components/Dashboard.jsx:10-26 | without a token the page redirects and loads nothing; otherwise it shows the stored orders, or none when the key is absent |
| LocalDashboard.Sales | src/components/Dashboard.jsx:39-45 | the counting sees each order item as its title and quantity, in order |
| LocalDashboard.AllSales | src/components/Dashboard.jsx:39-45 | the counting sees each order's items, in order |
| LocalDashboard.TopProductSpec | src/components/Dashboard.jsx:36-54 | no items give "--"; otherwise the top product is a sold title and no title sold more |
| LocalDashboard.RevenueAppend | src/components/Dashboard.jsx:31-34 | appending an order adds its total, or 0 when it has none, to the revenue |
| LocalDashboard.SummarySales | src/components/Dashboard.jsx:110-113 | a placed order's `totalQty` is the number of units in the cart, and its quantity of each title is the cart's |
| LocalDashboard.CheckoutGrowsDashboard | src/components/Dashboard.jsx:31-45 | placing an order grows the revenue by the cart total and every title's count by the cart's quantity of it |
| LocalLogin.FindUser | src/components/Login.jsx:40-46 | a user is found exactly when some stored user has equal email and password, and it is the first such user |
| LocalLogin.Destination | src/components/Login.jsx:64-68 | `/dashboard` exactly when the name, lower-cased letter by letter, spells "sridhar"; `/` otherwise |
| LocalLogin.LoggedIn | src/components/Login.jsx:52-54 | token "dummy-token", the user's name and the role as stored text are written; cart, orders and users keep what they held |
| LocalLogin.AdminNameAnyCase | src/components/Login.jsx:64-68 | any upper/lower-case spelling of "sridhar" goes to `/dashboard`; names of another length go to `/` |
| LocalSession.Session.constructor | src/App.jsx:17-20 | the cart starts as the stored `"cart"` list, or `[]` when absent, so state and storage agree |
| LocalSession.Session.AddToCart | src/App.jsx:22-42 | the cart becomes `AddLine` of the old cart and exactly that is stored under `"cart"`; no other key changes; state and storage agree; the product's quantity grows by `qtyToAdd`; distinct ids and quantities of at least 1 are kept |
| LocalSession.Session.RemoveFromCart | src/App.jsx:44-50 | the cart loses every line of the id, other ids keep their lines, and exactly that cart is stored; the total drops by the removed lines' amount |
| LocalSession.Session.UpdateQuantity | src/components/Cart.jsx:16-27 | the clamped change is applied to state and stored under `"cart"`; distinct ids and quantities of at least 1 are kept |
| LocalSession.Session.PlaceOrder | src/components/Checkout.jsx:39-69 | with a token, the order built from the cart is appended to `"orders"`, `"cart"` is removed, the cart emptied and revenue grows by the cart total; without one, nothing changes |
| LocalSession.Session.SubmitLogin | src/components/Login.jsx:38-69 | success exactly when a stored user matches; it writes token "dummy-token", the user's name and role, nothing else, and picks the redirect; failure changes nothing; after success checkout and the dashboard open |
| LocalSession.Session.MountLogin | src/components/Login.jsx:78-80 | opening the login page removes `"cart"` and leaves the cart state as it was, so they agree only for an empty cart |
| GuestModel.TotalAppend | frontend/src/components/Cart.jsx:7-11 | the total of a cart split in two is the sum of the parts' totals |
| GuestModel.TotalUpdate | frontend/src/components/Checkout.jsx:34-38 | replacing one line changes the total by the difference of the two lines' amounts |
| GuestModel.PriceOf | frontend/src/components/Cart.jsx:8 | a line's own `price` wins; otherwise the nested product's price; with neither, 0 |
| GuestModel.QtyOf | frontend/src/components/Cart.jsx:9 | a line's own `quantity` wins; otherwise the server's `qty`; with neither, 1 |
| GuestModel.Total | frontend/src/components/Cart.jsx:7-11 | an empty cart totals 0; with `TotalAppend` and `TotalUpdate` the total is the sum of price × quantity with the fallbacks |
| GuestModel.TotalNonNegative | frontend/src/components/Cart.jsx:7-11 | lines without any price add nothing; non-negative prices and quantities give a non-negative total |
| GuestApp.IndexOf | frontend/src/App.jsx:55-57 | -1 exactly when no line has the id; otherwise the first line that has it |
| GuestApp.Added | frontend/src/App.jsx:55-62 | a known id raises only its first line's `quantity` by `qty` and keeps the length; an unseen id pushes `{...product, quantity: qty}` at the end |
| GuestApp.AddedKeepsInvariants | frontend/src/App.jsx:55-62 | a guest add keeps ids distinct and every line's own quantity, adds no id but the product's, and raises the product's quantity by exactly `qty` |
| GuestApp.AddedTotal | frontend/src/App.jsx:59-62 | a guest add raises the total by `qty` times the existing line's price, or the product's price for a new line |
| GuestApp.RepeatedAdds | frontend/src/App.jsx:48-69 | repeated guest adds of one product gather in one line whose quantity grows by their sum; ids stay distinct and the cart grows by at most one line |
| GuestApp.AddFromSelector | frontend/src/components/Home.jsx:63-66 | the product pages pass a quantity of at least 1 and the guest line grows by exactly that |
| GuestCart.Without | frontend/src/components/Cart.jsx:16-18 | a guest delete never grows the cart and keeps no line of the id |
| GuestCart.WithoutSpec | frontend/src/components/Cart.jsx:13-21 | no line of the id is left; each other id keeps its own lines in order; an absent id leaves the cart unchanged; ids stay distinct |
| GuestCart.WithoutAppend | frontend/src/components/Cart.jsx:16-18 | deleting from a cart split in two deletes from each part and keeps the parts in order, so lines of different ids never swap |
| GuestCart.WithoutOne | frontend/src/components/Cart.jsx:16-18 | with one line per id, deleting a line's id cuts exactly that line out and keeps the lines before and after it in order |
| GuestCart.WithoutTotal | frontend/src/components/Cart.jsx:13-21 | a guest delete lowers the total by the removed lines' amount and keeps the remaining lines' quantities |
| GuestCart.WithoutTwice | frontend/src/components/Cart.jsx:16-18 | deleting twice is deleting once |
| GuestCart.WithQty | frontend/src/components/Cart.jsx:57-68 | every line of the id gets quantity `max(1, n)`; all other lines and the length are unchanged |
| GuestCart.NewQty | frontend/src/components/Cart.jsx:90-97 | the new quantity is the current one plus `delta` when that is at least 1, and 1 otherwise |
| GuestCart.WithQtySpec | frontend/src/components/Cart.jsx:57-97 | after a guest update each line of the id counts the new quantity, at least 1; distinct ids and line quantities are kept; "+" then "−" restores a quantity of at least 1 |
| GuestCart.BackendKey | frontend/src/components/Cart.jsx:43 | the nested `productId._id` when present and non-empty, else the line's `_id` |
| GuestCart.CheckoutTarget | frontend/src/components/Cart.jsx:246-253 | `/checkout` exactly when a non-empty token is stored; otherwise `/login?redirect=checkout` |
| GuestLogin.MergeRequests | frontend/src/components/Login.jsx:49-60 | one add-request per guest line, in stored order, each with the given token, the line's `_id` and its `quantity` |
| GuestLogin.MergeCarriesQuantities | frontend/src/components/Login.jsx:56-58 | for guest lines with quantities, each merge request carries exactly the line's quantity |
| GuestLogin.FailureText | frontend/src/components/Login.jsx:84 | the reply's non-empty `msg`, otherwise "Login failed" |
| GuestLogin.Destination | frontend/src/components/Login.jsx:103-107 | `/dashboard` exactly when the reply's email is the admin address, otherwise `/` |
| GuestLogin.LoggedIn | frontend/src/components/Login.jsx:89-91 | token, username and email are stored (a missing field as "undefined") and the guest cart key is untouched |
| GuestDashboard.Normalise | frontend/src/components/Dashboard.jsx:20-27 | a failed fetch or a non-array body gives `[]`; an array is shown as is |
| GuestDashboard.Items | frontend/src/components/Dashboard.jsx:124 | an order whose `order` field is not an array has no items; otherwise its items are that array unchanged |
| GuestDashboard.Sales | frontend/src/components/Dashboard.jsx:40-48 | the counting sees each item of an order's `order` array as its title and `qty`, and none when the field is not an array |
| GuestDashboard.AllSales | frontend/src/components/Dashboard.jsx:40-48 | the counting sees each order's items, in order |
| GuestDashboard.Revenue | frontend/src/components/Dashboard.jsx:33-36 | orders without a total add nothing; non-negative totals give non-negative revenue |
| GuestDashboard.RevenueAppend | frontend/src/components/Dashboard.jsx:33-36 | revenue over two batches of orders is the sum of their revenues |
| GuestDashboard.NonArrayOrderCountsNothing | frontend/src/components/Dashboard.jsx:41 | an order whose `order` field is not an array changes no title's count and has `totalQty` 0, but still adds its total to revenue |
| GuestDashboard.TopProductSpec | frontend/src/components/Dashboard.jsx:38-54 | no items give "--"; otherwise the top product is a sold title and no title sold more |
| GuestSession.Session.constructor | frontend/src/App.jsx:15-17 | the App mounts with an empty cart state and has sent nothing |
| GuestSession.Session.SyncCart | frontend/src/App.jsx:19-36 | without a token the cart becomes the stored guest cart (or `[]`) and nothing is sent; with one, one cart fetch is sent and its `items` (or `[]`) shown; storage is never written |
| GuestSession.Session.AddToCart | frontend/src/App.jsx:48-90 | without a token the guest cart is updated as `Added` (qty defaulting to 1), written back and shown, with nothing sent; with one, exactly one add-request `{productId, qty}` and one refetch are sent and storage is untouched |
| GuestSession.Session.HandleRemove | frontend/src/components/Cart.jsx:36-55 | without a token the guest lines of the id are deleted, written back and shown; with one, a delete for the backend key and a refetch are sent and storage is untouched |
| GuestSession.Session.UpdateQuantity | frontend/src/components/Cart.jsx:87-118 | without a token the guest lines of the id get `max(1, current + delta)`, written back and shown; with one, an update for the backend key with that quantity and a refetch are sent and storage is untouched |
| GuestSession.Session.MergeGuestCart | frontend/src/components/Login.jsx:44-64 | an absent or empty guest cart sends nothing and changes nothing; otherwise exactly the merge requests are sent in order, then `"guest_cart"` is removed |
| GuestSession.Session.SubmitLogin | frontend/src/components/Login.jsx:67-112 | the login request is sent; a missing or non-OK reply sets the error text and writes nothing; an OK reply stores token, username and email, merges the guest cart with that token and picks the redirect |
| GuestSession.Session.SubmitOrder | frontend/src/components/Checkout.jsx:41-69 | without a token nothing is sent or changed; otherwise one order request carrying only the form data is sent; only an OK reply removes `"guest_cart"` and empties the cart |
| GuestSession.Session.LoadDashboard | frontend/src/components/Dashboard.jsx:9-28 | without a token it redirects to `/login` and sends nothing; otherwise one orders fetch is sent and the normalised reply shown |

## Left out

- JSX rendering, styling, animations and how react-router navigates. The
  model keeps only the path each decision picks.
- The navbar, footer, contact and sign-up pages, and the form validation
  schemas. These run in a library whose rules are not part of this model.
- Real network behaviour. Every request is a `log` entry and every reply
  is a handler parameter. A failed request is one of the parameter's
  cases only where the code catches it: the login, order and dashboard
  handlers and the product pages' fetch.
- GuestSession.Session.SyncCart, GuestSession.Session.AddToCart,
  GuestSession.Session.HandleRemove and GuestSession.Session.UpdateQuantity
  model only a request that resolves and decodes. These handlers have no
  `try`/`catch`. A fetch or `res.json()` that throws there leaves the
  cart state as it was and skips the refetch, and that path is not
  modelled.
- GuestSession.Session.MergeGuestCart and GuestSession.Session.SubmitLogin
  model only a merge whose add-requests all resolve. In
  `frontend/src/components/Login.jsx` a merge fetch that throws part-way
  ends differently: the token, username and email are already stored,
  only the earlier add-requests have been sent, `"guest_cart"` stays in
  place, the error text becomes "Something went wrong" and there is no
  redirect. That end state is not modelled.
- GuestLogin.LoggedIn, LocalLogin.LoggedIn and
  GuestSession.Session.SubmitLogin do not tell a JSON `null` field apart
  from a missing one. `localStorage.setItem` stores a `null` token, name,
  email or role as "null", and the merge would send `Bearer null`; the
  model stores and sends "undefined" for both.
- Concurrency:
  - the `storage` event that `frontend/src/App.jsx` listens to, and the
    one login dispatches to re-run `syncCart`;
  - interleaved refetches;
  - the timers that clear banners.
- `Date.now()` and ISO dates are method parameters, and date formatting
  on the dashboard is not modelled.
- `JSON.parse` of a malformed stored value throws. Only the absent-key
  default is modelled, so the alert in `src/components/Checkout.jsx`'s
  catch branch is not reachable in the model.
- JS numbers and `Number(...)` coercion: prices, quantities and totals
  are integers. `Truthy` treats only `""` and an absent key as false;
  the numeric `x || 1` and `x || 0` are written out with 0 as the falsy
  value. `reduce` is a left fold and the model sums from the right, which
  is the same for integers.
- The `productCount` object is a sequence of entries in insertion order.
  JS lists integer-like keys first, so a title such as "7" would be
  ordered differently. That ordering only matters for ties in the top
  product.
- The `productCount` object is a plain `{}`, so it inherits the keys of
  `Object.prototype`. For a title such as "constructor" or "toString",
  `acc[title] || 0` is a function, the count becomes a string and the sort
  comparator gives `NaN`. A "__proto__" title never becomes an entry. The
  model gives every title an ordinary integer count.
- `toLowerCase` is modelled on ASCII letters only. No other character
  lower-cases to a letter of "sridhar", so the admin check is unaffected.
- `src/components/Home.jsx` and `src/components/Products.jsx` fetch
  products without error handling and without checking `res.ok`. A
  rejected fetch there leaves the list at `[]`, but a non-OK reply with a
  JSON body is shown as the product list, unlike the `NotOk` case of
  `Catalog.ProductsAfterFetch`, which models the `frontend/` pages.
- The static catalogue in `src/data/productsData.js` is not part of this
  model.
- GuestSession.Session.AddToCart requires, when no token is stored, that
  every stored guest line carries its own `quantity`. Every guest line the program writes does,
  and the other handlers keep this. A line without one would make
  `quantity += qty` produce `NaN`, which the model does not represent.
- GuestApp.Added requires the same, for the same reason.
- LocalSession.Session.MountLogin leaves the App's cart state and the
  `"cart"` key disagreeing when the cart is not empty. The model states
  this outright rather than hiding it.
