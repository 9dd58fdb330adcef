# Storefront state layer, modelled in Dafny

A model of the state kept by a client-side storefront: the shopping cart
persisted in the browser's key-value store, the login session kept in the
same store, the headers attached to backend requests, and the catalog
pager (pagination state, page-number window, previous/next guards, short
product descriptions).

- `wrappers.dfy` (`Wrappers`): `Option` and `Result`.
- `storage.dfy` (`Storage`): the key-value store as a class `Store`. It has
  one field per key the storefront uses: `cart`, `authToken` and `user`.
  An absent key is `None`. A cart line is `Line(id, image, title, price, quantity)`.
  Prices are integers in cents.
- `api.dfy` (`Api`): `getAuthHeaders`, the login request headers, and the
  error messages of `fetchProducts`, `createOrder` and `loginUser`. The
  answer of a backend call is a parameter of type `Response`: a 2xx body, a
  non-2xx answer whose body may carry a `message`, or a transport failure.
- `cart.dfy` (`Cart`): `CartService` (getCart, the two folds getTotal and
  getItemCount), `addToCart`, `removeFromCart`, `clearCart`, the state part
  of `updateCartUI`, and `handleCheckout`. The mutating operations are
  methods on a `Store` that may change only its `cart` field. Each one is
  proved against a function of the old cart (`AddLine`, `Without`). The
  lemmas state what the source promises about those functions. The cart
  invariant is `Wellformed`: at most one line per id, every quantity ≥ 1.
- `auth.dfy` (`Auth`): `checkAuthStatus` is the predicate `Auth.LoggedIn`.
  It holds when both `authToken` and `user` are present and non-empty. Being
  a function, it cannot change the store. `login` and `logout` are methods
  that may change only those two keys.
- `products.dfy` (`Products`): the module-level `paginationState` as the
  field of class `Pager`. Also `loadProducts`'s effect on it,
  `updatePagination` (window arithmetic, page links, guards) and the
  short-description expression.

Where the design description of the system and the code differ, the model
follows the code:
- A corrupt persisted cart is not read as empty. `JSON.parse` would throw
  (js/modules/cart.js:13), and the model has no corrupt cart.
- The session has no expiry check and nothing is evicted on a status check
  (js/modules/auth.js:11-24).
- The page is not reset when the search changes. The search term given to
  `loadProducts` is dropped, because `fetchProducts` takes only page and
  size (js/modules/products.js:39, js/modules/api.js:43).
- A failed checkout does not clear the cart. An empty cart makes no order
  call. Both agree with the design.

## Model

| member | source | states |
|---|---|---|
| `Api.MessageOr` | js/modules/api.js:75 | the server's message when it is present and non-empty, else the fallback; never empty when the fallback is not |
| `Api.AuthHeaders` | js/modules/api.js:24-35 | Content-Type is always `application/json`; `Authorization` is present iff the stored token is non-empty, and then it is `"Bearer " + token`; no other keys |
| `Api.GetAuthHeaders` | js/modules/api.js:24-35 | builds the dictionary in place (Content-Type, then Authorization if a token is stored) and returns exactly `AuthHeaders` of the stored token |
| `Api.LoginHeaders` | js/modules/api.js:95-97 | the login request carries only Content-Type, never Authorization; `Auth.Login` sends its request with these headers |
| `Api.FetchProducts` | js/modules/api.js:49-51 | a non-2xx catalog answer becomes "API no disponible" whatever its body; a transport error keeps its message; a 2xx body passes through |
| `Api.CreateOrder` | js/modules/api.js:73-76 | a non-2xx order answer fails with the server message or "Error al crear el pedido"; a 2xx body passes through |
| `Api.LoginUser` | js/modules/api.js:101-104 | a non-2xx login answer fails with the server message or "Error de autenticación"; a 2xx body passes through |
| `Cart.GetCart` | js/modules/cart.js:12-14 | the stored lines when the `cart` key is present; the empty cart when it is absent |
| `Cart.Total` | js/modules/cart.js:24-26 | Σ price × quantity over the lines, a fold from 0, so 0 on the empty cart |
| `Cart.ItemCount` | js/modules/cart.js:28-30 | Σ quantity over the lines, a fold from 0, so 0 on the empty cart |
| `Cart.CountBounds` | js/modules/cart.js:24-30 | on a well-formed cart the item count is at least the number of lines, and with non-negative prices the total is non-negative |
| `Cart.FindIndex` | js/modules/cart.js:43 | the index of the first line with the id (no earlier line has it), or none when no line has it |
| `Cart.AddToCart` | js/modules/cart.js:41-51 | write-through: the stored cart becomes `AddLine` of the cart read before; the auth keys are not in its frame |
| `Cart.AddExisting` | js/modules/cart.js:43-47 | adding an id already present keeps the length, adds exactly 1 to that line's quantity, keeps its image, title and price, and leaves every other line unchanged |
| `Cart.AddNew` | js/modules/cart.js:48 | adding a new id appends `{id, image, title, price, quantity: 1}` after the existing lines, in order |
| `Cart.AddPreservesWellformed` | js/modules/cart.js:43-49 | adding keeps "at most one line per id, every quantity ≥ 1" |
| `Cart.AddFinds` | js/modules/cart.js:43-48 | after adding, find locates the id's line at the index it had, or at the end when it was appended |
| `Cart.AddCounts` | js/modules/cart.js:24-49 | after adding, getItemCount is one more, and getTotal has grown by the unit price stored on the id's line (for an existing line its stored price, not the argument) |
| `Cart.RemoveFromCart` | js/modules/cart.js:67-71 | write-through: the stored cart becomes the old cart filtered by id |
| `Cart.WithoutMembers` | js/modules/cart.js:69 | a line survives removal iff it was in the cart and its id differs, whatever its quantity |
| `Cart.WithoutAppend` | js/modules/cart.js:69 | filtering distributes over concatenation, so kept lines keep their relative order |
| `Cart.WithoutAbsent` | js/modules/cart.js:69 | removing an id no line has leaves the cart unchanged |
| `Cart.WithoutLine` | js/modules/cart.js:69 | in a well-formed cart, removing the id of line k gives exactly the cart without line k |
| `Cart.RemoveCounts` | js/modules/cart.js:24-30 | after removing line k, getItemCount drops by its quantity and getTotal by its price × quantity |
| `Cart.RemovePreservesWellformed` | js/modules/cart.js:69 | removing keeps the cart invariant |
| `Cart.ClearCart` | js/modules/cart.js:12-22 | the `cart` key becomes absent, and getCart then reads the empty cart |
| `Cart.UpdateCartUI` | js/modules/cart.js:77-111 | the checkout button is enabled iff the cart is non-empty; the total accumulated line by line equals getTotal; the counter shows getItemCount |
| `Cart.OrderMatchesCart` | js/modules/cart.js:147-150 | the order is the cart mapped entry by entry: entry i is `{productId: cart[i].id, quantity: cart[i].quantity}`, one per line in cart order, and its quantities add up to getItemCount |
| `Cart.OrderOfWellformedCart` | js/modules/cart.js:147-150 | an order built from a well-formed cart names each product once, each with quantity ≥ 1 |
| `Cart.Checkout` | js/modules/cart.js:140-172 | empty cart: no order call and the stored cart unchanged; otherwise the order is the mapped cart; on success the confirmed total is getTotal of the cart before submission and the cart key is removed; on failure the createOrder error is reported and the cart is unchanged |
| `Auth.LoggedIn` | js/modules/auth.js:11-24 | logged in iff `authToken` and `user` are both present and non-empty; a function of the store, so it writes nothing |
| `Auth.Login` | js/modules/auth.js:32-57 | the credential request is sent with the login headers (no Authorization); the result is loginUser's; on success `authToken := token` and `user := serialized user`, and with both non-empty the user is logged in; on failure both keys are exactly as before and the error is returned |
| `Auth.Logout` | js/modules/auth.js:63-69 | both keys are removed unconditionally and the user is logged out; when both keys are already absent it changes nothing, so a second logout is a no-op |
| `Auth.LogoutThenHeaders` | js/modules/auth.js:63-66 | after logout the request headers are Content-Type alone, with no Authorization |
| `Products.MergeKeys` | js/modules/products.js:27-29 | setPaginationState's merge overwrites exactly the supplied keys and keeps the others; merging the same update twice is merging it once |
| `Products.Pager.constructor` | js/modules/products.js:9-13 | the initial state is page 0 of 0 pages, page size 20 |
| `Products.Pager.GetPaginationState` | js/modules/products.js:19-21 | returns a copy equal to the state; being a value, the copy cannot alias it |
| `Products.Pager.SetPaginationState` | js/modules/products.js:27-29 | the new state is the old state merged with the supplied keys |
| `Products.Pager.SetPageSize` | js/modules/products.js:176-178 | only `pageSize` changes |
| `Products.Pager.LoadProducts` | js/modules/products.js:38-62 | requests `size` or, when absent or 0, the state's page size; a body with `content` sets currentPage and totalPages from it, keeps pageSize, and renders the controls; a body without `content` fails with "Formato inesperado de la API", and a failed call with fetchProducts' error, both leaving the state unchanged |
| `Products.Window` | js/modules/products.js:116-122 | for at least one page the window lies within [0, totalPages - 1] and is non-empty |
| `Products.WindowSize` | js/modules/products.js:116-125 | the window holds exactly min(5, totalPages) pages, and it contains the current page iff that page is in [0, totalPages) |
| `Products.WindowCentred` | js/modules/products.js:116-122 | away from both ends the window is centred: [n-2, n+2] |
| `Products.WindowShiftedAtEnds` | js/modules/products.js:117-122 | near the start the window begins at page 0; near the end it is shifted inward to [max(0, T-5), T-1] |
| `Products.WindowExamples` | js/modules/products.js:116-122 | (n=0,T=10)→[0,4], (n=9,T=10)→[5,9], (n=5,T=10)→[3,7], (n=1,T=3)→[0,2] |
| `Products.UpdatePagination` | js/modules/products.js:96-170 | the loop emits exactly the window's page numbers, in order, each marked active iff it is the current page; controls are shown iff totalPages > 1 with prev/next disabled flags equal to first/last |
| `Products.ExactlyOneActive` | js/modules/products.js:125-127 | when shown, exactly one page link is active, the one for the current page, whenever that page lies in the catalog; otherwise none is |
| `Products.GuardsMatchControls` | js/modules/products.js:104-169 | the controls are shown iff totalPages > 1; prev is disabled iff pressing it loads nothing (first page), next likewise (last page); otherwise they load number-1 and number+1 |
| `Products.ShortDescription` | js/modules/products.js:74 | the first five space-separated words joined by single spaces, always ending in "..." |
| `Products.Split` | js/modules/products.js:74 | `split(" ")` gives at least one piece, none containing a space |
| `Products.JoinSplit` | js/modules/products.js:74 | joining the pieces of a split with single spaces gives the text back |
| `Products.SplitJoin` | js/modules/products.js:74 | splitting the join of space-free words gives the words back |
| `Products.ShortDescriptionPrefix` | js/modules/products.js:74 | the short description is a prefix of the description followed by "..."; that prefix splits into the description's first min(5, n) words; with five words or fewer it is the whole description |

## Left out

- DOM rendering is not modelled: HTML templates, `innerHTML`, modals, `alert`, `console`, `scrollIntoView`, and the one-second cooldown of the add button (`setTimeout`). Of `updateCartUI` only the enabled flag, the accumulated total and the counters are modelled. Of `updatePagination`, the container's visibility, the disabled flags and the page links are modelled, as values.
- Prices are exact integers (cents). JavaScript floating-point arithmetic and the `toFixed(2)` display rounding are not modelled.
- The `fetch` and `response.json()` plumbing and the async sequencing are not modelled. Each backend call's answer is a `Response` parameter. So is the case where `response.json()` throws on a non-2xx body. Interleaved loads (last answer wins) are not modelled either.
- JSON serialisation of the cart and of the user record is taken as lossless. A stored user is its serialized text (`AuthData.user`). A non-string token, which the store would keep as the text "undefined", is not modelled.
- Auth.Login: the username and password only go into the request body, which is not modelled, so the method does not take them.
- Products.Pager.LoadProducts: the rendered product cards (`renderProducts`) are not returned. The model keeps only the short-description function they use.
- Products.Merge covers the three keys of the pagination state. Extra keys, and supplied keys whose value is `undefined`, are not modelled.
- A page-number click loads `LoadProducts(page, Some(pageSize), search)`. This is stated through `PageLink.page` and is not a separate member.
- The design's token-expiry decoding, category filtering, page reset on a search change, and corrupt-cart-as-empty rule are not modelled. The code does not have them.
- js/modules/ui.js, js/main.js and js/script.js are not part of this model. They hold HTML builders, startup wiring, and a superseded draft. The short description in ui.js is the same expression as the one modelled from products.js.
