# Shop cart and order decisions, modelled in Dafny

This project models the behavioural core of a small Express/MySQL shop:

- **The browser cart** (`public/js/app.js`), module `Cart` in `cart.dfy`. The
  cart is a list of line items stored as JSON under the local-storage key
  `cart`. `getCart` reads it and falls back to `[]`. `addToCart` bumps the
  quantity of the line with the product's id, or it appends a new line with
  quantity 1. The badge shows the number of units (`quantity || 1` summed over
  the lines). The cart link shows the money total. The order button posts
  `{id, quantity}` items and removes the stored cart only on an OK reply.
  The class `Cart.CartStore` holds the page state: the stored `cart` value and
  the badge. Its methods update that state the way the script does, except
  that they read the cart through the corrected reader (see "## Findings"). The pure
  functions `AddLine`, `Count`, `Total` and `OrderItems` are the reference
  definitions, and the lemmas are proved about them.
- **The server's request decisions** (`server.js`), module `Server` in
  `server.dfy`. These are the `requireAuth` gate, the `/` redirect, the
  `/login` outcome and the `/order` handler. The handler checks the product id,
  then the quantity, then looks up the product in the catalogue. It prices the
  order from the catalogue and inserts one `order_items` row owned by the
  session user. The class `Server.App` holds the session user and the
  `order_items` table. The decisions themselves are pure functions.

Prices and totals are integer cents. Database tables are values: users are a
sequence of rows, the catalogue is a map from product id to price, and
`order_items` is a sequence that successful orders append to. A failing query,
the answer of the `SHOW COLUMNS` probe and bcrypt's password comparison are
parameters.

Two behaviours of the code are easy to misread:

- `/order` checks the quantity before it asks the catalogue whether the
  product exists (server.js:128-138). A positive but unknown product id sent with a bad quantity
  is therefore answered "Invalid quantity"
  (`Server.QuantityCheckedBeforeCatalogue`).
- The order button posts to `/orders`, but `server.js` defines only the
  single-item `/order`. The client side is modelled against any reply.

## Model

| member | source | states |
|---|---|---|
| `Cart.GetCart` | public/js/app.js:2-8 | Reading the stored cart never fails. It yields the stored lines when an array is stored, and `[]` when the value is absent, empty, malformed or not an array |
| `Cart.GetCartAsWritten` | public/js/app.js:2-8 | The reader as written: a non-array value comes back exactly when well-formed non-array JSON is stored; otherwise the stored lines or `[]` |
| `Cart.GetCartAsWrittenPassesNonArrays` | public/js/app.js:4 | Stored JSON that is not an array is returned as is, not as a cart |
| `Cart.GetCartAgreesWithAsWritten` | public/js/app.js:2-8 | Apart from non-array JSON, the corrected reader and the reader as written give the same cart |
| `Cart.Serialize` | public/js/app.js:11 | What saveCart stores reads back as exactly the saved cart |
| `Cart.CartStore.SaveCart` | public/js/app.js:10-13 | Saving stores the cart, the stored cart reads back as the saved one, and the badge then shows its count |
| `Cart.CartStore.UpdateCartCount` | public/js/app.js:15-20 | The badge is set to the unit count of the stored cart; the storage is untouched |
| `Cart.Units` | public/js/app.js:17 | A line's unit count (its quantity, or 1 when missing or zero) is never 0, and a non-zero quantity counts as itself |
| `Cart.Count` | public/js/app.js:17 | The badge count is 0 for an empty cart and, with no negative quantity, at least the number of lines |
| `Cart.Total` | public/js/app.js:84-88 | The cart total is 0 for an empty cart and, when every line carries one price, the unit count times that price |
| `Cart.AddLine` | public/js/app.js:24-28 | After an add the product's id is in the cart, and the cart has one more line exactly when the id was not there before |
| `Cart.FailureText` | public/js/app.js:117 | The failure text (the server's message, or 'Order failed' when there is none) is never empty, and a non-empty message from the server is shown as it is |
| `Cart.CartStore.constructor` | public/js/app.js:61-62 | At page load the stored value is as found and the badge shows its count |
| `Cart.FindLine` | public/js/app.js:24 | Returns the index of the first line with the id, or -1 exactly when no line has it |
| `Cart.AddExisting` | public/js/app.js:24-27 | Adding a product already in the cart keeps the length and sets the first matching line's quantity to its old quantity (a missing or zero one counting as 1) plus 1. No other line changes |
| `Cart.AddAbsent` | public/js/app.js:28 | Adding a product not in the cart appends one line at the end with the product's id, name, price, image URL and quantity 1 |
| `Cart.AddKeepsIdsDistinct` | public/js/app.js:24-28 | If product ids are pairwise distinct before an add, they are distinct after it, and the ids are the old ones plus the product's |
| `Cart.CountAfterAdd` | public/js/app.js:15-31 | With no negative quantity, adding any product raises the badge count by exactly 1 and keeps every quantity positive |
| `Cart.TotalAfterAdd` | public/js/app.js:22-31 | An add raises the total by the price already stored on the matching line, or by the product's price when the product is new |
| `Cart.CartStore.AddToCart` | public/js/app.js:22-31 | The stored cart becomes `AddLine` of the old stored cart, and the badge shows the new count |
| `Cart.CartTotal` | public/js/app.js:84-88 | The accumulating loop computes the sum over lines of quantity (missing or zero counting as 1) times price |
| `Cart.CartStore.ShowCart` | public/js/app.js:77-93 | The cart link shows an empty-cart notice for an empty cart, and the total otherwise |
| `Cart.OrderItems` | public/js/app.js:105 | The payload has one item per line in cart order: the line's id, with the line's quantity, a missing or zero one sent as 1 |
| `Cart.PayloadUnitsMatchCount` | public/js/app.js:105 | The payload asks for exactly as many units as the badge count |
| `Cart.PayloadIdsDistinct` | public/js/app.js:105 | A cart with distinct ids sends distinct product ids |
| `Cart.CartStore.PlaceOrder` | public/js/app.js:97-123 | Nothing is sent for an empty cart or a missing form. Otherwise the payload is the cart's items plus the address. Only an acknowledged order removes the stored cart, and the badge is then 0. A refused order or an unreadable reply leaves the cart and badge unchanged |
| `Server.RequireAuth` | server.js:40-45 | The handler runs exactly when a session user exists; otherwise the reply is a redirect to `/login` |
| `Server.RootRedirect` | server.js:50-55 | `/` redirects to `/shop` for a signed-in user, and otherwise to where the gate redirects (`/login`) |
| `Server.App.GetRoot` | server.js:50-55 | The root reply is `/shop` exactly when the session has a user |
| `Server.RowsWithEmail` | server.js:65 | The email query returns exactly the rows with that email, and its first row is the first such row in the table |
| `Server.Login` | server.js:63-74 | A failing query gives 500. An unknown email, or a wrong password for the first row with that email, gives 400 "Invalid email or password" and sets no user. A match redirects to `/shop` and sets the user to that row's id, name and email |
| `Server.FailedLoginsLookAlike` | server.js:67-70 | An unknown email and a wrong password give identical outcomes |
| `Server.App.PostLogin` | server.js:63-74 | The session user is set to the login's user on success and left as it was on failure |
| `Server.App.PostLogout` | server.js:100-104 | After logout the session has no user, and the reply redirects to `/login` |
| `Server.CheckOrderInput` | server.js:126-133 | Accepts exactly a positive integer product id and a positive integer quantity. A bad product id is reported first, then a bad quantity |
| `Server.PlaceOrderItem` | server.js:135-177 | A row is written exactly for a valid order with working queries. Error replies: an invalid or unknown product gives 400 "Invalid product", a bad quantity 400 "Invalid quantity", and a probe or insert failure 500 with the source's messages. A written row carries the catalogue price and the session user's id, in `user_id` when that column exists and otherwise in `order_id`. The reply total is price × quantity |
| `Server.QuantityCheckedBeforeCatalogue` | server.js:128-138 | For an unknown positive product id, a bad quantity is reported as "Invalid quantity" and a good one as "Invalid product" |
| `Server.OrderTotalUsesCatalogue` | server.js:140-153 | The request carries no price: a written row's unit price is the catalogue's, its owner the session user, and the reply total catalogue price × quantity |
| `Server.OrderRoute` | server.js:125 | Without a session user `/order` redirects to `/login` and writes nothing. With one, it runs the handler |
| `Server.App.PostOrder` | server.js:125-178 | `order_items` grows by exactly the row the route writes, if any. Without a session user it is unchanged and the reply redirects to `/login` |

## Findings

| source | as written | input that shows it | evidently intended | confidence | as-written member | corrected member |
|---|---|---|---|---|---|---|
| public/js/app.js:4 | `getCart` returns whatever `JSON.parse` accepts, array or not | the stored `cart` value is `5`, `{}` or `null` (any writer other than `saveCart`); `addToCart` then calls `.find` on a non-array and throws | fail soft to `[]` for anything that is not an array, as the `catch` does for text that does not parse | low, not executed | `Cart.GetCartAsWrittenPassesNonArrays` | `Cart.GetCart` |

## Left out

- JSON text is not modelled. A stored value is one of: absent, empty, an array of line records, other well-formed JSON, or malformed text. `Serialize` stands for `JSON.stringify`.
- Line fields hold only the types the script writes: integer ids, integer-cent prices, and a quantity that is an integer or missing. JavaScript coercions of string quantities or prices are not modelled. For example, `"2" + 1` gives `"21"`.
- Cart.CartStore: its methods read the cart through the corrected `GetCart`. When the stored value is well-formed JSON that is not an array, the script as written throws instead: `updateCartCount` at public/js/app.js:17, `addToCart` at :24, and at page load the throw at :62 stops the rest of the DOMContentLoaded handler, so products are not loaded and the cart-link and order-button handlers are never attached. In that case the model reads an empty cart and carries on.
- Cart.CountAfterAdd: stated only for carts without negative quantities. A stored quantity of -1 is bumped to 0, which then counts as 1, so the count rises by 2.
- Cart.TotalAfterAdd: stated under the same condition, for the same reason.
- Prices and totals are integer cents. Floating-point `Number(price)`, `formatCurrency` and `toFixed` are not modelled.
- Most of the page is left out: DOM rendering, the product grid, `loadProducts`, the `/auth/me` name display, alert texts and event wiring. This is UI code; only the values the handlers compute are modelled.
- The address fields are taken as already trimmed. `String.prototype.trim` is not modelled.
- The fetch is asynchronous, but the model takes the server's reply as a parameter. The server has no `/orders` route, so in the deployed system the reply to the order button is never an acknowledgement.
- `Number(...)` coercion of form fields is not modelled. Its result is the datatype `Coerced`, which is `Int(n)` or `NotInt`. Integers beyond 2^53 are not distinguished.
- bcrypt hashing and comparison are left out; the comparison is the parameter `matches`. Registration (an insert of a hashed password) is not modelled.
- Server.RowsWithEmail: `users` lists the rows in the order the query returns them. The query at server.js:65 has no ORDER BY, so when two users share an email the database does not fix which one is `results[0]`.
- The database is reduced to its results. SQL, the MySQL connection and query failures are inputs. The email match is exact string equality, not MySQL's collation.
- Several routes and all server setup are not modelled: `/shop`, `/api/products`, the page-serving routes, middleware and `app.listen`. Of these, only the `requireAuth` gating is behaviour. It is modelled by `RequireAuth`.
- Sessions are reduced to one session's user slot. Session-store internals and expiry are left out.
- Concurrency is out of scope; each request is a single step.
