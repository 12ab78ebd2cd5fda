# QKart cart and catalog core, in Dafny

This project models the cart and catalog logic of the QKart storefront client.

- **Cart reconciliation** (`src/components/Cart.js`) joins the server's sparse cart of
  `{productId, qty}` records against the product catalog. The join is `generateCartItemsFrom`.
  The cart totals `getTotalCartValue` and `getTotalItems` are computed over the joined cart.
  The cart's "+" and "−" buttons build the quantity request they pass on.
- **The catalog page** (`src/components/Products.js`) holds five pieces of state:
  - the complete catalog;
  - the displayed (searched) catalog;
  - the sparse cart;
  - the `loadingState` flag;
  - the `noProductsFoundCase` flag.

  It loads the catalog, fetches the cart, runs searches and decides what "add to cart" does.

Every network call is represented by the way it settled: `Outcome` is `Success(data)`,
`ResponseError(message)` (an HTTP error response) or `TransportError` (no response).
Every page operation is a pure function from the current `ViewState` and that outcome to a
`Step`. A `Step` holds the next state and the effects emitted. An effect is either a request
sent or a snackbar notice. `Apply` and `Run` replay a sequence of page events, where an event
is a call settling or a click whose call settled.

Files:
- `wrappers.dfy`: `Option` and `Outcome`.
- `cart.dfy`: module `Cart`, covering `Cart.js`.
- `cart_properties.dfy`: lemmas about the join and the totals.
- `products.dfy`: module `Products`, covering `Products.js`.
- `products_properties.dfy`: lemmas about the page transitions and about event sequences.

Two behaviours of the code that the model keeps:
- A failed cart update or cart fetch shows no notification and leaves the state unchanged.
  `addToCart` sends its POST without `await`, `try` or `.catch`. `fetchCart` has a
  `catch` block, but its `axios.get` is not awaited, so an HTTP failure never reaches it.
- Every cart entry is resolved. When several catalog products share an id, the first
  is used (`[item] = filter(...)`).

## Model

| member | source | states |
|---|---|---|
| `Cart.Matching` | src/components/Cart.js:55-57 | the filter keeps only products with the entry's id, all taken from the catalog, and is non-empty exactly when the catalog has that id |
| `Cart.Lookup` | src/components/Cart.js:55-58 | an entry resolves to nothing exactly when no catalog product has its id, and otherwise to a catalog product with that id |
| `Cart.GenerateCartItemsFrom` | src/components/Cart.js:50-66 | the joined cart is never longer than the cart, is empty for an empty cart or an empty catalog, and every item carries the product its id resolves to, with `productId` equal to that product's `_id` |
| `CartProperties.LookupIsFirstMatch` | src/components/Cart.js:55-58 | when several products share an id, the lookup yields the first of them |
| `CartProperties.GeneratedItemIsFirstMatch` | src/components/Cart.js:55-61 | each joined item's product is the first catalog product with the item's id |
| `CartProperties.GenerateCartItemsFromKeepsKnownEntries` | src/components/Cart.js:54-63 | stripping the product data from the joined cart gives exactly the cart entries whose product is in the catalog, with their `productId` and `qty`, in cart order |
| `CartProperties.GenerateCartItemsFromMembership` | src/components/Cart.js:54-63 | an entry appears in the joined cart if and only if it is in the cart and its product is in the catalog |
| `CartProperties.GenerateCartItemsFromAllKnown` | src/components/Cart.js:54-63 | when every entry names a catalog product, the joined cart carries exactly the cart's entries |
| `CartProperties.GenerateCartItemsFromAppend` | src/components/Cart.js:54-63 | the join distributes over concatenation of carts |
| `Cart.GetTotalCartValue` | src/components/Cart.js:78-84 | the loop's total equals the sum of `cost * qty` over the items (0 for no items) |
| `Cart.GetTotalItems` | src/components/Cart.js:97-104 | the loop's count equals the sum of `qty` over the items (0 for no items) |
| `CartProperties.CartValueAppend` | src/components/Cart.js:78-84 | the cart value is additive over concatenation |
| `CartProperties.ItemCountAppend` | src/components/Cart.js:97-104 | the item count is additive over concatenation |
| `CartProperties.CartValueNonNegative` | src/components/Cart.js:80-82 | with non-negative costs and quantities the cart value is non-negative |
| `CartProperties.ItemCountNonNegative` | src/components/Cart.js:99-101 | with non-negative quantities the item count is non-negative |
| `CartProperties.TotalsExample` | src/components/Cart.js:50-104 | catalog a:100, b:50 with cart a×2, b×1 joins to a cart worth 250 holding 3 items |
| `Cart.HandleAdd` | src/components/Cart.js:213-222 | the "+" button asks for the line's product (`item._id`) with one more than its quantity and the duplicate check off |
| `Cart.HandleDelete` | src/components/Cart.js:223-232 | the "−" button asks for the line's product with one fewer than its quantity and the duplicate check off |
| `Cart.ButtonRequest` | src/components/Cart.js:213-232 | a line's button asks for the line's product with the duplicate check off and a quantity one above (exactly for "+") or one below the line's |
| `CartProperties.QuantityButtonsUndoEachOther` | src/components/Cart.js:213-232 | pressing "−" on the line that "+" produced, or "+" on the line "−" produced, asks again for the original quantity |
| `Products.QuantityClick` | src/components/Cart.js:213-232 | a click on a line that is not displayed does nothing; without a token the login warning and no request; with one, exactly one POST of the line's product with its quantity plus or minus one, no notice, and the reply adopted on success; only the cart changes |
| `ProductsProperties.QuantityButtonsBypassDuplicateCheck` | src/components/Cart.js:213-232 | with a token, "+"/"−" on a joined cart line (one naming its own product, as every line `GenerateCartItemsFrom` yields does) sends exactly one POST for that line's product with its quantity plus or minus one; the line is in the list the duplicate check would look at, but `false` options skip that check; a successful reply becomes the cart |
| `Products.PerformAPICall` | src/components/Products.js:86-105 | one `GET /products`; the fetched list on success, the empty list on any failure with one error notice: the backend's message for an error response, the fixed "Something went wrong…" message for a transport failure |
| `Products.LoadCatalog` | src/components/Products.js:238-243 | once the catalog call settles, loading is off and the complete and displayed catalogs both equal the fetched list (empty on failure); cart and "no products" flag unchanged |
| `Products.FetchCart` | src/components/Products.js:207-221 | a falsy token sends nothing and changes nothing; otherwise one `GET /cart` with the token, the cart becomes the reply on success, and nothing else changes |
| `Products.PerformSearch` | src/components/Products.js:122-137 | one search request; success shows its list and clears "no products"; an error response sets "no products" and keeps the list; a transport failure changes nothing and shows the generic error |
| `Products.IsItemInCart` | src/components/Products.js:261-270 | the loop's flag is true if and only if some entry's `productId` equals the id (so false for no entries) |
| `Products.AddToCart` | src/components/Products.js:308-338 | a falsy token gives the login warning with no request and no change; then an item already present with truthy options gives the duplicate warning with no request and no change; otherwise exactly one POST of `{productId, qty}` unchanged, and a successful reply replaces the whole cart; only the cart ever changes |
| `ProductsProperties.AddToCartClickedSendsIff` | src/components/Products.js:375-394 | a product card's "Add to cart" sends a request if and only if cards are shown, the token is truthy and the product is not yet in the cart; the request asks for quantity 1; otherwise the state is unchanged |
| `ProductsProperties.AddToCartExamples` | src/components/Products.js:317-334 | duplicate add with a token: no request and no change; no token: login warning and no request; decrement to 0: POST with `qty` 0 and the reply adopted |
| `ProductsProperties.SearchLastSuccessWins` | src/components/Products.js:122-127 | after two settled searches, a successful later one alone decides the displayed list and the flag |
| `ProductsProperties.LoadCatalogOverridesEarlierSearch` | src/components/Products.js:238-243 | a search that settles before the catalog load loses its list: the displayed list becomes the complete catalog; the "no products" flag it set survives the load |
| `ProductsProperties.LoadAndFetchCommute` | src/components/Products.js:238-245 | the catalog load and the cart fetch of the initial load give the same state in either settling order |
| `ProductsProperties.CardsHiddenUntilCatalogSettles` | src/components/Products.js:42-43 | from the page's starting state, product cards stay hidden after any events in which no catalog call has settled |
| `Products.Apply` | src/components/Products.js:389-400 | a click on a card that is not shown, or on a cart line that is not displayed, does nothing; clicks and cart fetches change only the cart; only a settled catalog call ends loading or changes the complete catalog (the cart panel's lines are the cart joined with the complete catalog) |
| `ProductsProperties.RunLoadingUntilCatalogSettles` | src/components/Products.js:238-243 | after any events, the page is loading if and only if it was loading and no catalog call has settled |
| `ProductsProperties.RunCartComesFromServer` | src/components/Products.js:325-334 | after any events, the cart is the starting cart or a list the server sent back |
| `ProductsProperties.RunCompleteComesFromLoad` | src/components/Products.js:239-242 | after any events, the complete catalog is the starting one or the result of a settled catalog call |

## Left out

- `debounceSearch` (src/components/Products.js:152-158): the model has no timers.
  Its behaviour depends on `setTimeout`/`clearTimeout` and on `timeOutId` being a local
  that each render re-creates. A settled search enters the model only as a `SearchSettled` event.
- Cart.GenerateCartItemsFrom: builds a fresh item for every entry. The code mutates the
  shared catalog object, so two entries naming the same product show the last entry's `qty`.
  The model does not reproduce this aliasing.
- A request and its settled reply are one step in the model. Other events settling between
  the click and the reply are not interleaved.
- Network I/O (axios), URLs and headers, the snackbar as UI, and `localStorage`. The token
  is a parameter: `None` for `null`, and `""` is falsy as in JavaScript. Requests and
  notices are effect values.
- Rendering. The cart panel is shown only when a username is stored; the model does not
  track this. The model does use the rule that product cards appear only when neither
  loading nor "no products found" is set.
- The shape of `options`. The code tests the object's truthiness, not `preventDuplicate`,
  so the model uses a boolean "options truthy". The parameter's default
  (`{ preventDuplicate: false }`, a truthy object) is dropped: every call passes `options`
  explicitly, so the default is never used.
- Floating-point costs: `cost` and `qty` are unbounded integers.
- Header.js, App.js and ProductCard.js: presentational and routing code.
