# Cart state synchroniser — a Dafny model

This project models the cart state container of a perfume-sample storefront: the
`CartProvider` of `src/context/CartContext.tsx`. The provider mirrors a remote,
server-owned cart. It holds the line items shown (or nothing yet), the last remote
snapshot, the cart-open and loading flags, and the guest-session token. The token is
kept both in component state and in the browser's key-value storage under
`forvrmurr_guest_id`. The provider also derives the item count.

The model has five modules:

- `Options`: `Option` and JavaScript truthiness of an optional string. `undefined`,
  `null` and `""` are all falsy.
- `CartItems`: the remote snapshot (`CartResponse`, `LineItemDto`), the view model
  (`CartItem`), and the pure parts of the source:
  - the response-to-view-model `map` (`MapItems`, with `FirstWord` for `split(" ")[0]`
    and `ImageFor` for the image fallback);
  - the `reduce` that gives the item count (`Sum` over `Quantities`, `ItemCount`).
- `GuestToken`: the token rules as functions on (state token, storage). They say when a
  request carries the token (`TokenToSend`) and when the token is restored, adopted,
  discarded or forgotten.
- `CartContext`: the class `CartProvider`, one method per operation. Each remote call is
  an `Outcome` parameter, `Ok(snapshot)` or `Fail`. `AddToCart` takes two outcomes: the
  first attempt and the retry. Every request made is appended to the `calls` field,
  together with the guest token it carries. Every user-visible error message is appended
  to `errors`. The class invariant `Valid()` says two things: a held token is never `""`,
  and the line items shown always mirror the last snapshot's line items.
- `CartScenarios`: client call sequences proved from the contracts alone. They cover a guest's first
  add and a later quantity change, an add that fails twice, sign-in with a stored guest
  token, and invalid quantities.

The authentication state is an input of every operation. It comes from an
authentication collaborator that is not part of this model.

Behaviour of the code worth knowing, all stated in the contracts:
- A token in a response is adopted only by an unauthenticated session
  (src/context/CartContext.tsx:170, 214, 259, 302, 341).
- An add that fails twice still removes both storage keys but keeps the guest token in
  component state, so later requests still carry it (src/context/CartContext.tsx:201-202).
- With no identity, loading resets only `cartItems`; `cart` keeps the last snapshot
  (src/context/CartContext.tsx:104).
- A successful clear sets `cartItems` to `None`, not to an empty list
  (src/context/CartContext.tsx:347).

## Model

| member | source | states |
|---|---|---|
| `CartItems.FirstWord` | src/context/CartContext.tsx:81 | the brand is a prefix of the product name, contains no space, and is the whole name or ends just before a space |
| `CartItems.FirstWordUnique` | src/context/CartContext.tsx:81 | any space-free prefix that ends at a space or at the end of the name is the brand, so `FirstWord` is exactly `split(" ")[0]` |
| `CartItems.ImageFor` | src/context/CartContext.tsx:185-187 | a truthy product image URL is kept; otherwise the read paths give no image and the mutation paths give `/images/products/<slug>.png`; the slug fallback always yields a non-empty reference |
| `CartItems.MapItems` | src/context/CartContext.tsx:77-87 | the mapped list has the response's length and order; each item's id is the line-item id, its productId is the product id, and its quantity, name, price and brand come from that line item |
| `CartItems.SumAppend` | src/context/CartContext.tsx:38 | the quantity fold of a concatenation is the sum of the folds of the parts |
| `CartItems.SumPositive` | src/context/CartContext.tsx:38 | with positive quantities the count is at least the number of lines, and it is 0 exactly when there are no lines |
| `CartItems.MirroredCount` | src/context/CartContext.tsx:38 | lists that mirror each other position by position carry the same quantities in the same order, hence the same count |
| `CartItems.ItemCountOfResponse` | src/context/CartContext.tsx:77-89 | after a sync the item count equals the snapshot's total quantity, whichever image fallback was used |
| `GuestToken.Restore` | src/context/CartContext.tsx:41-46 | on mount a stored token is held exactly when it is present and non-empty, and it is then the stored value |
| `GuestToken.TokenToSend` | src/context/CartContext.tsx:166 | a request carries a token exactly when the session is unauthenticated and a non-empty token is held, and then it carries that token |
| `GuestToken.Adopt` | src/context/CartContext.tsx:170-174 | an unauthenticated session with a truthy token in the response writes it to storage under `forvrmurr_guest_id` and holds it, keeping every other storage entry; otherwise nothing changes |
| `GuestToken.Discard` | src/context/CartContext.tsx:59-63 | a held token is removed from storage and from state, leaving other entries alone; afterwards no token is held |
| `GuestToken.ForgetCredentials` | src/context/CartContext.tsx:200-202 | storage loses `forvrmurr_access_token` and `forvrmurr_guest_id` and keeps every other entry |
| `GuestToken.AdoptedTokenIsSentAndRestored` | src/context/CartContext.tsx:170-174 | an adopted token is the one the next guest request carries and the one a remount restores |
| `GuestToken.DiscardedTokenIsGone` | src/context/CartContext.tsx:59-63 | after a discard no request carries a token and a remount restores none |
| `CartContext.CartProvider.constructor` | src/context/CartContext.tsx:30-46 | the provider starts with nothing loaded, no snapshot, closed and idle, holding the token restored from storage |
| `CartContext.CartProvider.Load` | src/context/CartContext.tsx:49-106 | authenticated: fetch the user's cart and, on success, discard a held guest token; guest with a token: fetch the guest cart and adopt nothing; neither: no request and only the line items are reset; success syncs cart and items; failure resets the items with no error; loading ends false whenever a request was made |
| `CartContext.CartProvider.Refresh` | src/context/CartContext.tsx:113-154 | same request rule as Load; without an identity both items and cart are reset; a failure keeps items and cart; tokens never change; loading ends false |
| `CartContext.CartProvider.AcceptMutation` | src/context/CartContext.tsx:258-281 | the shared success path adopts an issued token, stores the snapshot and shows its mapped items, and changes no flag, error or request |
| `CartContext.CartProvider.AddToCart` | src/context/CartContext.tsx:156-248 | the first request carries the send-rule token; on failure storage forgets both credentials and exactly one retry is made with no token; success adopts, syncs and opens the cart; a second failure reports exactly one error and leaves items, cart, held token and open flag unchanged |
| `CartContext.CartProvider.RemoveFromCart` | src/context/CartContext.tsx:250-288 | one request with the send-rule token; success adopts and syncs; failure reports one error and keeps items, cart and tokens |
| `CartContext.CartProvider.UpdateQuantity` | src/context/CartContext.tsx:290-331 | a quantity of 0 or less changes nothing at all, not even the loading flag, and makes no request; otherwise behaves as RemoveFromCart with its own error message |
| `CartContext.CartProvider.Clear` | src/context/CartContext.tsx:333-354 | one request with the send-rule token; success adopts, keeps the returned snapshot and resets the items to nothing loaded; failure reports one error and keeps the cache |
| `CartContext.CartProvider.OpenCart` | src/context/CartContext.tsx:108 | sets the open flag and touches nothing else |
| `CartContext.CartProvider.CloseCart` | src/context/CartContext.tsx:109 | clears the open flag and touches nothing else |
| `CartContext.CartProvider.ToggleCart` | src/context/CartContext.tsx:110 | negates the open flag and touches nothing else |
| `CartContext.ShownCountIsSnapshotCount` | src/context/CartContext.tsx:38 | in every valid state the item count is 0 when nothing is loaded and otherwise the last snapshot's total quantity |
| `CartScenarios.GuestAddThenUpdate` | src/context/CartContext.tsx:156-196 | a new guest's add carries no token, persists and holds the issued token, counts 1 and opens the cart; a later update to 3 carries that token and counts 3 |
| `CartScenarios.AddFailsTwice` | src/context/CartContext.tsx:197-248 | an add failing twice reports one error and keeps the items; the stored token is gone but the held one is still sent next |
| `CartScenarios.SignInDiscardsGuestToken` | src/context/CartContext.tsx:55-63 | signing in with a stored guest token fetches only the user's cart and leaves no token in storage or state |
| `CartScenarios.InvalidQuantityIgnored` | src/context/CartContext.tsx:291 | quantities 0 and -1 make no request and leave the count unchanged |

## Left out

- Network calls: the remote cart service and its HTTP behaviour. `src/services/cart` is not part of this model. Each call is an `Ok(snapshot)`/`Fail` input.
- The authentication context (`useAuth`) and the `user` dependency of the fetch effect. Authentication is a boolean input of each operation.
- Asynchrony: each operation is one atomic step. Out-of-order completion of overlapping requests is not modelled. Neither is the race on the boolean loading flag, nor React re-running the fetch effect when the held token changes. The loading flag is only stated at the end of an operation.
- The inner "no identity" branch of the fetch function (lines 68-74). The effect's own guard at line 100 makes it unreachable in an atomic step.
- `parseFloat(item.price)`, which is floating point. Prices stay the API's raw decimal strings.
- Quantities are integers. Non-integral JavaScript numbers are not modelled.
- AddToCart: assumes the storage operations never throw. In the source one try block covers the first call and the storage writes after it (src/context/CartContext.tsx:158-196). If `setItem` at line 172 threw after the server accepted the add, the retry would still run and send a second add. If `removeItem` at lines 201-202 threw, the retry would be skipped and the error reported at once. The model retries exactly when the first call fails.
- RemoveFromCart, UpdateQuantity, Clear: assume the storage write never throws. In the source a `setItem` throw at line 260, 303 or 342 reports the operation's error even though the server applied the change, and the snapshot is not taken. The model reports an error exactly when the call fails.
- Load: assumes `removeItem` at line 61 never throws. A throw there, after `setCart` at line 58, would keep the fetched snapshot and the guest token but empty the line items.
- A missing `product` in a line item would make the mapping throw. The model's DTOs always carry a product.
- `console.error` logging. Toast rendering is not modelled; the toast sink (`error?.(...)`) is assumed present, so every reported failure appends its message to `errors`.
- The React context plumbing and the `useCart` hook.
- The presentational components `ProductCard`, `CheckoutSummary`, `HeroSection` and the root layout. They keep no state.
