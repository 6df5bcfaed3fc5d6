# Storefront cart, CORS gate and dev proxy — a Dafny model

This project models the small pure pieces of logic of the petcare-suite storefront:

- the client's **cart state manager** (`AppContextProvider` in `client/src/context/AppContext.jsx`):
  the working cart is an immutable map from product id to quantity, and every
  action (`addToCart`, `updateCartItem`, `removeFromCart`) clones it and changes at most one key.
  `getCartCount` and `getCartAmount` derive aggregates from it, and a successful
  `fetchUser` replaces it with the server's copy;
- the shop API's **CORS origin callback** and its **run-once `init` guard**
  (`servers/shop-api/server/server.js`);
- the development server's **proxy table** with its anchored prefix-strip
  `rewrite` functions (`client/vite.config.js`, and the vet admin's copy with the
  targets swapped).

Modules: `Wrappers` (an `Option` type), `Cart` (the cart and its actions),
`CartTotals` (count, catalog lookup, amount), `Session` (the auth reply and the
sync guard), `Cors`, `ServerInit`, `DevProxy`.

The sums over a cart are stated once each, as ghost reference definitions
(`CartTotals.Count`, `CartTotals.Subtotal`) that split the map at an arbitrary
key. The methods `CartCount` and `ExactAmount` compute them with loops over the
keys and are proved equal to them. Prices are exact reals, and `Floor2` is the
truncation `Math.floor(x * 100) / 100`.

Behaviour as written, which the model follows rather than an idealised cart:

- `updateCartItem` stores any quantity verbatim. A quantity of 0 leaves a 0 entry
  and does not remove the key, so "no entry is zero or negative" holds only for
  runs of adds, removes and positive updates (`Cart.ApplyAllKeepsPositive`,
  `Cart.UpdateToZeroIsKept`).
- `removeFromCart` ignores a 0 entry, because 0 is falsy. It decrements a negative
  entry without deleting it.
- `getCartCount` sums every stored quantity, zero and negative ones included.
  `getCartAmount` skips unresolved ids and non-positive quantities.
- On a successful auth check the local cart is discarded, not merged and, since
  React batches the user and cart updates into one render, not pushed. The first sync push after login sends the server's own cart back.
- The CORS callback has only the fixed two-entry allow-list. It has no wildcard
  pattern for preview deployments. An empty `Origin` string is falsy and allowed,
  like a missing one.

## Model

| member | source | states |
|---|---|---|
| Cart.AddToCart | client/src/context/AppContext.jsx:71-74 | the entry becomes its old value (0 if absent) plus 1; the key set grows by at most `id`; every other entry is unchanged; an all-positive cart stays all-positive |
| Cart.UpdateCartItem | client/src/context/AppContext.jsx:78-81 | exactly `id` is set to `q` with no deletion; other entries are unchanged; the result is all-positive iff the rest of the cart is and `q > 0` |
| Cart.RemoveFromCart | client/src/context/AppContext.jsx:85-91 | an absent or 0 entry leaves the cart unchanged; a 1 is deleted; any other value is decremented; other entries are unchanged; no key is added; positivity is kept |
| Cart.RemoveUndoesAdd | client/src/context/AppContext.jsx:71-91 | remove after add restores the cart iff the entry was absent or neither 0 nor -1 |
| Cart.AddUndoesRemove | client/src/context/AppContext.jsx:71-91 | add after remove restores any cart whose entry was positive |
| Cart.AddRemoveDropsZeroEntry | client/src/context/AppContext.jsx:71-91 | for a 0 entry, add then remove deletes the key, so the cart is not restored |
| Cart.ApplyAllKeepsPositive | client/src/context/AppContext.jsx:71-91 | every run of adds, removes and positive updates keeps all quantities positive |
| Cart.UpdateToZeroIsKept | client/src/context/AppContext.jsx:78-91 | add, update to 0, remove leaves a 0 entry, so positivity fails for arbitrary runs |
| CartTotals.CartCount | client/src/context/AppContext.jsx:95-97 | the fold over the values equals the sum of all quantities |
| CartTotals.CountAfterAdd | client/src/context/AppContext.jsx:71-97 | the empty cart counts 0, and an add raises the count by exactly 1 |
| CartTotals.CountAfterRemove | client/src/context/AppContext.jsx:85-97 | a remove lowers the count by 1 exactly when the entry was present and not 0, else leaves it unchanged |
| CartTotals.CountAfterUpdate | client/src/context/AppContext.jsx:78-97 | an update changes the count by the new quantity minus the old one |
| CartTotals.FindIndex | client/src/context/AppContext.jsx:102 | the result is the first catalog position whose id matches, or none when no product has that id |
| CartTotals.ExactAmount | client/src/context/AppContext.jsx:100-106 | the loop over cart keys totals price times quantity over resolved, positive entries |
| CartTotals.CartAmount | client/src/context/AppContext.jsx:99-108 | the amount is the exact total truncated to whole cents: at most the total and less than one cent below it |
| CartTotals.Floor2 | client/src/context/AppContext.jsx:107 | the result is a whole number of cents, at most `x`, and less than one cent below `x` |
| CartTotals.Floor2Unique | client/src/context/AppContext.jsx:107 | the truncation is the only whole-cent value in the cent below `x` |
| CartTotals.SubtotalSkips | client/src/context/AppContext.jsx:101-106 | entries with no catalog product, or a quantity of 0 or less, contribute nothing |
| CartTotals.SubtotalNonNegative | client/src/context/AppContext.jsx:99-106 | with non-negative prices the exact amount is non-negative |
| CartTotals.SubtotalAfterAdd | client/src/context/AppContext.jsx:71-106 | adding one unit over a non-negative entry raises the amount by the product's price, or by nothing when the id does not resolve |
| CartTotals.AmountExample | client/src/context/AppContext.jsx:99-108 | a cart of 3 at 19.999 and 1 at 5 shows 64.99 |
| Session.OnAuthReply | client/src/context/AppContext.jsx:42-54 | on success the user is set and the cart becomes the server's cart, or empty when it is missing; on a failed or thrown check the user is cleared and the cart kept |
| Session.SyncPayload | client/src/context/AppContext.jsx:118-131 | nothing is pushed without a user; with a user the whole working cart is pushed |
| Session.AuthDiscardsLocalCart | client/src/context/AppContext.jsx:45-47 | the cart after login does not depend on the local cart; a local-only entry is dropped |
| Session.FirstPushEchoesServerCart | client/src/context/AppContext.jsx:42-131 | the first push after login sends the server's cart, or an empty one |
| Session.FailedAuthStopsSync | client/src/context/AppContext.jsx:42-131 | after a failed auth check the local cart is kept and, while no user is set, not pushed |
| Cors.CheckOrigin | servers/shop-api/server/server.js:35-42 | an origin is allowed iff it is absent or empty, or equal to an allow-list entry; every refusal carries the "Not allowed by CORS" error |
| Cors.ShopOrigin | servers/shop-api/server/server.js:28-42 | the allowed origins are exactly: absent, empty, `http://localhost:5173` and `https://petcare-suite-client.vercel.app` |
| Cors.ExtendedOriginRefused | servers/shop-api/server/server.js:38-41 | an allowed origin with anything appended is refused, so there is no prefix matching |
| Cors.NearMissesRefused | servers/shop-api/server/server.js:38-41 | upper-case, `https` and trailing-slash variants of the local origin are refused |
| ServerInit.Init | servers/shop-api/server/server.js:18-24 | once initialised, a call starts nothing; otherwise the database connect always starts, the media connect starts iff the database one resolved, nothing else starts, and the flag is set iff both resolve |
| ServerInit.InitAllAfterInited | servers/shop-api/server/server.js:19-20 | after the flag is set, any number of calls start nothing and keep it set |
| ServerInit.InitAllSetsFlag | servers/shop-api/server/server.js:19-24 | over a series of calls, the flag ends set iff it already was or some call saw both connects resolve |
| ServerInit.ConnectsOnce | servers/shop-api/server/server.js:18-25 | a first successful call connects each service exactly once, whatever calls start after it settles |
| DevProxy.StripPrefix | client/vite.config.js:19 | a matching prefix is removed once from the front, so prefix + result = path; otherwise the path is unchanged; the result is always a suffix of the path |
| DevProxy.StripAfterPrepend | client/vite.config.js:19-24 | stripping a prefix undoes prepending it |
| DevProxy.FirstMatch | client/vite.config.js:15-26 | the result is the first rule whose context starts the path, or none when no rule's does |
| DevProxy.Route | client/vite.config.js:15-26 | a path is proxied iff some context starts it, to the first such rule's target with that rule's prefix stripped |
| DevProxy.ClientRoutes | client/vite.config.js:16-25 | `/api/vet` paths go to port 4000 and `/api/shop` paths to port 5000, each without the prefix; nothing else is proxied |
| DevProxy.AdminSwapsTargets | vet-admin/admin/vite.config.js:7-18 | the admin table rewrites paths the same way but sends `/api/vet` to 5000 and `/api/shop` to 4000 |
| DevProxy.StripExamples | client/vite.config.js:19 | `/api/vet/api/vet/x` becomes `/api/vet/x`, so rewriting is not idempotent; `/api/vetfoo` becomes `foo`; an unanchored occurrence is kept |

## Left out

- Network I/O: the axios calls, their error toasts, `fetchSeller`, `fetchProducts` and the cart push itself. The push is modelled only as its guard and payload (`Session.SyncPayload`).
- React plumbing: `useState`, `useEffect` scheduling, `useNavigate`, the context value object (including the exported `setUser` and `setCartItems`), toasts. `Session.OnAuthReply` treats `setUser` and `setCartItems` on a successful auth check as one state change, which relies on React batching the two updates into one render; without that batching the sync effect would run between them and push the old local cart under the new user.
- Ordering and races between overlapping cart pushes. This is concurrency, and the server code that receives the pushes is not part of this model.
- Floating point: `offerPrice * qty` and `Math.floor(total * 100) / 100` are computed on exact reals, so IEEE-754 rounding before the floor is not captured.
- Non-numeric quantities: JavaScript values in `cartItems` could be strings or `undefined` (for example an `updateCartItem` from a form field). The model stores integers only.
- Cart.AddToCart: ids are assumed not to name `Object.prototype` members. On a plain object, `addToCart("constructor")` reads an inherited function and stores a string, and `addToCart("__proto__")` changes nothing; the model treats every id as an ordinary key.
- Cart.RemoveFromCart: the same assumption on ids. In the source, `removeFromCart("toString")` on an empty cart stores `NaN`, where the model leaves the cart unchanged.
- CartTotals.CountAfterAdd: quantities are unbounded integers, not doubles. Above 2^53 a JavaScript `+ 1` can leave the value unchanged, so the "+1" is promised only while quantities stay below 2^53.
- Key order: JavaScript objects keep insertion order, but no modelled result depends on it, so the cart is an unordered map.
- CartTotals.FindIndex: products are matched by id only; the truthiness check on the found `item` is always true for an object and is not modelled separately.
- The Stripe webhook, the cart update controller and session authentication live in files outside this model, behind the routers and the webhook handler imported at servers/shop-api/server/server.js:6-13; nothing about them is modelled.
- Express middleware order, `app.options('*', cors())`, `express.raw`, the routers, `app.listen`, and the `api/index.js` request re-emitter. These are framework and I/O.
- ServerInit.ConnectsOnce: calls of `init` are modelled as never overlapping. `init` pauses at each `await` before setting the flag, so a second call started during that pause would connect again. The source's only call (line 25) is awaited, so no calls overlap there.
- ServerInit.Init: the outcomes of `connectDB` and `connectCloudinary` are parameters. In the source `init` is awaited once at module load, and a rejection aborts the module; the series of calls in `InitAll` models the guard as written, not a retry the source performs.
- DevProxy.Route: which rule handles a request is decided inside Vite (a path matches a context it starts with; the first match wins). That matching is modelled, not quoted. `changeOrigin`, the dev port, the Tailwind environment variable and the dynamic plugin import are build plumbing.
- `node_modules/client/vite.config.js` is a vendored copy of the same proxy table and is not modelled separately. `client/tailwind.config.js` is styling only.
