# Shopping cart: cart mutation protocol, back-end store and session state

This project is a Dafny model of the core of a small Angular storefront and its Express back end.

The back end keeps one JSON document. `users` is a list of email/password records. `carts` maps each email to a cart, and a cart is an ordered list of lines. The back end has four handlers: register, login, get cart and replace cart. The client's cart service fetches the caller's cart and applies one rule to the fetched copy:

- **Add** checks the product's stock and then adds one unit.
- **Remove** takes one unit off; when a line reaches zero, every line with that product id is dropped.

Either way the service then writes the whole cart back. On the client side, the model also covers:

- the session state and the identity header it yields;
- the catalog and cart pages' per-product "in flight" flags;
- the cart page's local copy of the remove rule and its total;
- the two custom registration validators.

The modules follow the program's structure. `Wrappers` is a shared utility that matches no source file. `CartRules` and `CartServices` both come from src/app/services/cart.service.ts: the first holds its add and remove rules as pure functions, the second the service's calls against the back end.

- `Wrappers` (wrappers.dfy) holds `Option` and `Find`, the first-match search that `Array.prototype.find` performs.
- `Models` (models.dfy) holds the product, cart-line and cart records, plus JavaScript truthiness of an optional string.
- `CartRules` (cart_rules.dfy) holds the add and remove rules and the total as functions on the sequence of lines, with lemmas.
- `Server` (server.dfy) holds the class `Db` with fields `users` and `carts`, and one method per handler. A non-200 status is a `Fail` reply.
- `Auth` (auth_service.dfy) holds the class `AuthService`. Local storage is the field `savedEmail`.
- `CartServices` (cart_service.dfy) holds the class `CartService`, which runs against a `Db` and an `AuthService`.
- `Products` (products_component.dfy), `CartPage` (cart_component.dfy) and `Register` (register_component.dfy) hold the three pages.

Each asynchronous call is split where the source subscribes. For example, `ProductsComponent.AddToCart` runs up to the service call, and `OnAdded` / `OnAddFailed` are the subscriber's callbacks. This keeps the in-flight flags observable. The `...AndAwait` methods run one such call to completion against the back-end model.

Behaviour of the code worth noting:

- A duplicate registration is refused with status 400.
- Registration keeps a cart that already exists for the email.
- Removing the last unit drops every line with that id.
- The add and remove rules run in the client, and the back end stores whatever cart a POST carries.

Prices are integers, in cents.

## Model

| member | source | states |
|---|---|---|
| `Wrappers.Find` | src/app/services/cart.service.ts:68 | the index of the first element satisfying the predicate, with no earlier element satisfying it; None exactly when no element does |
| `Models.Or` | server/server.js:46 | JavaScript's short-circuit "or" on optional strings: the first operand when it is non-empty, else the second; the result is non-empty iff either operand is |
| `CartRules.FirstMatch` | src/app/services/cart.service.ts:68 | the line `find` selects: it has the id and no earlier line has it; None exactly when no line has the id |
| `CartRules.FirstMatchAt` | src/app/services/cart.service.ts:68 | a line that has the id with no earlier line having it is the one `find` selects |
| `CartRules.CurrentQuantity` | src/app/services/cart.service.ts:68-69 | the first matching line's quantity, or 0 when no line has the product id |
| `CartRules.AddOne` | src/app/services/cart.service.ts:66-83 | fails (NotEnoughInStock) iff current quantity + 1 > stock; on success the product's quantity rises by exactly 1 and stays ≤ stock; an existing line is bumped in place with every other line and the length unchanged; an absent product gets one new line `{id, title, price, image, quantity: 1}` at the end; no line at quantity ≤ 0 is introduced |
| `CartRules.WithoutId` | src/app/services/cart.service.ts:104 | the filter leaves no line with the id, keeps every line with another id, adds none, and shortens the cart iff the id was present |
| `CartRules.WithoutIdAppend` | src/app/services/cart.service.ts:104 | the filter distributes over concatenation, so the kept lines keep their relative order |
| `CartRules.WithoutIdReplaceDropped` | src/app/services/cart.service.ts:100-104 | decrementing the matched line in place before filtering on its id does not change the filtered result |
| `CartRules.RemoveOne` | src/app/services/cart.service.ts:96-108 | an absent id leaves the lines unchanged; quantity q > 1 becomes q - 1 in place with every other line unchanged; quantity ≤ 1 removes every line with that id; no line at quantity ≤ 0 is introduced |
| `CartRules.AddOneKeepsUniqueIds` | src/app/services/cart.service.ts:72-81 | a successful add keeps at most one line per product id, because it bumps an existing line instead of appending a second |
| `CartRules.WithoutIdKeepsUniqueIds` | src/app/services/cart.service.ts:104 | the filter keeps at most one line per product id |
| `CartRules.RemoveOneKeepsUniqueIds` | src/app/services/cart.service.ts:96-108 | a remove keeps at most one line per product id |
| `CartRules.RemoveLastUnitDropsOneLine` | src/app/services/cart.service.ts:100-105 | with one line per product id, removing the last unit of a product in the cart shortens the cart by exactly one line |
| `CartRules.RemoveUndoesAdd` | src/app/services/cart.service.ts:59-111 | on a cart with no empty lines, removing one unit after a successful add gives back the original lines |
| `CartRules.TotalPrice` | src/app/home/cart.component.ts:98-104 | the reference sum of price × quantity over the lines, never negative when no line has a negative price or quantity |
| `CartRules.TotalPriceAppend` | src/app/home/cart.component.ts:98-104 | the total of two concatenated carts is the sum of their totals |
| `CartRules.TotalPriceReplace` | src/app/home/cart.component.ts:98-104 | replacing one line changes the total by the difference of the two lines' subtotals |
| `CartRules.BumpRaisesTotal` | src/app/services/cart.service.ts:77-78 | one more unit on a line raises the total by that line's price |
| `CartRules.AddRaisesTotal` | src/app/services/cart.service.ts:72-81 | a successful add raises the total by the stored snapshot price of an existing line, or by the given price for a new line |
| `CartRules.RemoveLowersTotal` | src/app/services/cart.service.ts:100-101 | removing one unit from a line of quantity above one lowers the total by that line's price |
| `CartRules.SpecimenCarts` | src/app/services/cart.service.ts:59-111 | remove(7) on `[{7, qty 2}]` gives `[{7, qty 1}]` and then `[]`; add(3) with stock 1 on an empty cart gives `[{3, qty 1}]` and a second add fails |
| `Server.StoredCart` | server/server.js:59 | a POST stores `body.cart` when present, otherwise the body's own lines |
| `Server.Db.CartOf` | server/server.js:50 | the stored cart for an email, or the empty cart when none is stored |
| `Server.Db.RegisteredCartIsStored` | server/server.js:28-29 | under the invariant (unique emails, every account has a cart), a registered email has a stored cart, and the cart read for it is that one, never the empty default |
| `Server.Db.Register` | server/server.js:22-32 | an email already registered gives 400 "User already exists" and leaves `users` and `carts` unchanged; otherwise exactly one `{email, password}` is appended, the reply carries the email, an empty cart is created only when none exists, and the invariant (unique emails, every account has a cart) is kept |
| `Server.Db.Login` | server/server.js:35-42 | succeeds iff some account matches both email and password exactly, echoing the email; otherwise 401 "Invalid email or password"; the document is not modified |
| `Server.Db.GetCart` | server/server.js:45-51 | 401 "No user email provided" when neither header nor query carries a non-empty email; otherwise the stored cart of the header's email (the query's when the header is empty), defaulting to empty; nothing is modified |
| `Server.Db.PostCart` | server/server.js:54-62 | 401 and no write when neither header nor body carries an email; otherwise only that email's cart is replaced by the stored body cart; `users` and every other cart are unchanged; the invariant is kept |
| `Server.PostLoginGet` | server/server.js:45-62 | what a POST stores for an email is what a later GET for it returns, with a login in between |
| `Server.PostIsolated` | server/server.js:54-62 | writing one email's cart leaves another email's stored cart as it was |
| `Auth.AuthService.constructor` | src/app/services/auth.service.ts:29-39 | logged out with a null email, unless local storage holds a non-empty saved email, in which case logged in with that email |
| `Auth.AuthService.LoggedOutSendsNoIdentity` | src/app/services/auth.service.ts:79-82 | under the invariant (logged in exactly when there is a current email), a logged-out session sends no identity header |
| `Auth.AuthService.OnLoginResponse` | src/app/services/auth.service.ts:51-57 | a response with `success` sets logged-in, the given email and the stored email; any other response changes nothing |
| `Auth.AuthService.Login` | src/app/services/auth.service.ts:47-59 | the session becomes logged in with the given email, persisted to storage, iff the back end holds a matching account; a 401 changes nothing |
| `Auth.AuthService.Logout` | src/app/services/auth.service.ts:62-66 | logged out, null email, stored email removed; the new state does not depend on the old one, so logging out twice is the same as once |
| `Auth.AuthService.IsLoggedIn` | src/app/services/auth.service.ts:69-71 | returns the logged-in field and changes nothing |
| `Auth.AuthService.GetCurrentUserEmail` | src/app/services/auth.service.ts:74-76 | returns the current email (or null) and changes nothing |
| `Auth.AuthService.AuthHeaders` | src/app/services/auth.service.ts:79-82 | holds `x-user-email` equal to the current email exactly when that email is non-null and non-empty, and no other header |
| `Auth.AuthService.IdentityHeader` | src/app/services/auth.service.ts:79-82 | the header value the back end sees: non-empty exactly when the current email is, and then equal to it |
| `CartServices.CartService.GetCart` | src/app/services/cart.service.ts:32-34 | 401 when the session has no non-empty email, else the stored cart of the session's email |
| `CartServices.CartService.UpdateCart` | src/app/services/cart.service.ts:41-46 | replaces exactly the session email's stored cart, or fails with 401 and writes nothing when there is no identity |
| `CartServices.CartService.AddToCart` | src/app/services/cart.service.ts:59-86 | with no identity, 401 and nothing written; when the stock check fails, "Not enough in stock" and the stored carts unchanged (no write happens); otherwise the caller's cart becomes AddOne of the fetched cart and no other cart changes |
| `CartServices.CartService.RemoveFromCart` | src/app/services/cart.service.ts:95-111 | with an identity, the caller's cart is always written back as RemoveOne of the fetched cart (unchanged content when the id is absent); no other cart changes |
| `CartServices.AddThenRemove` | src/app/services/cart.service.ts:59-111 | a successful add followed by a remove restores the stored cart; a failed add writes nothing |
| `CartServices.CartSurvivesRelogin` | e2e/user-journey.spec.ts:169-233 | after logout and a successful login the session is logged in with that email, the store is untouched, and the fetched cart is the one stored before |
| `Products.IsInStock` | src/app/home/products.component.ts:65-67 | true iff stock > 0 |
| `Products.ProductsComponent.constructor` | src/app/home/products.component.ts:29-31 | no product flagged, no notification, type success |
| `Products.ProductsComponent.AddToCart` | src/app/home/products.component.ts:75-93 | out of stock, or an add already in flight: no flag set, no call, nothing changed; otherwise only that product's flag becomes true and the call carries the product's own id, title, price, image and stock |
| `Products.ProductsComponent.ShowNotification` | src/app/home/products.component.ts:112-114 | sets the message and its type, nothing else |
| `Products.ProductsComponent.OnAdded` | src/app/home/products.component.ts:94-97 | the product's flag returns to false and "<title> added to cart!" is shown as a success |
| `Products.ProductsComponent.OnAddFailed` | src/app/home/products.component.ts:98-101 | the product's flag returns to false and "Not enough in stock" is shown as an error |
| `Products.AddAndAwait` | src/app/home/products.component.ts:75-103 | a click that proceeds always ends with the flag down, and `users` never changes; with no session email the call ends in 401 "No user email provided" and no cart is written; a success shows "<title> added to cart!" as a success, any failure "Not enough in stock" as an error; the stored cart follows AddOne with the product's stock, unchanged when that fails |
| `CartPage.CartComponent.constructor` | src/app/home/cart.component.ts:25-28 | no lines, loading, no error, no product flagged |
| `CartPage.CartComponent.LoadCart` | src/app/home/cart.component.ts:40-42 | starting a reload sets the loading flag only |
| `CartPage.CartComponent.OnCartLoaded` | src/app/home/cart.component.ts:43-46 | the local lines become the fetched cart's lines and loading ends |
| `CartPage.CartComponent.OnCartLoadFailed` | src/app/home/cart.component.ts:47-50 | the error "Failed to load cart" is recorded and loading ends |
| `CartPage.CartComponent.RemoveFromCart` | src/app/home/cart.component.ts:61-70 | sends iff no remove is in flight for the product; if one is, nothing changes; otherwise only that flag becomes true |
| `CartPage.CartComponent.OnRemoved` | src/app/home/cart.component.ts:71-85 | the flag returns to false; with `success` the local lines follow the same RemoveOne rule as the service; without it they are unchanged |
| `CartPage.CartComponent.OnRemoveFailed` | src/app/home/cart.component.ts:86-90 | the flag returns to false and a reload from the server starts |
| `CartPage.CartComponent.GetTotalPrice` | src/app/home/cart.component.ts:98-104 | the sum of price × quantity over the local lines; 0 for an empty cart |
| `CartPage.RemoveAndAwait` | src/app/home/cart.component.ts:61-92 | when the page showed the stored cart beforehand, after the remove the caller's stored cart is RemoveOne of the old one, no other cart and no account changes, the page's lines are RemoveOne of its old lines, so it shows the stored cart again, and the flag is down |
| `Register.HasCapital` | src/app/auth/register.component.ts:48 | true iff some character is in 'A'..'Z' |
| `Register.PasswordCapitalValidator` | src/app/auth/register.component.ts:46-50 | valid for a missing or empty value; otherwise valid iff some character is in 'A'..'Z', else the `noCapital` error |
| `Register.PasswordMatchValidator` | src/app/auth/register.component.ts:57-64 | valid when either control is missing; otherwise valid iff password equals confirmation, else `passwordMismatch` |
| `Register.FormValid` | src/app/auth/register.component.ts:34-38 | the form is valid iff the library validators pass, a non-empty password holds a capital letter, and the confirmation equals the password |
| `Register.RegisterComponent.constructor` | src/app/auth/register.component.ts:26-27 | no error message and not loading |
| `Register.RegisterComponent.OnSubmit` | src/app/auth/register.component.ts:66-87 | an invalid form changes no state and sends nothing; a refused registration clears loading and shows "Registration failed"; an accepted one appends the account, creates an empty cart only when none is stored for the email, and leaves the new user logged in |
| `Register.HasAccountAfterRegister` | server/server.js:28-41 | the account a registration appends is accepted by the login check |

## Left out

- HTTP transport, RxJS observables and `switchMap`, Express routing, CORS, and the JSON file's read, parse, stringify and write. The document is an in-memory object and each request is one atomic method.
- Concurrent requests and last-write-wins races on one email. Each request runs to completion before the next starts.
- Floating-point prices and the end-to-end test's rounding. Prices are integer cents.
- The Angular library validators (required, email format, minimum length), form builders and templates. Their combined verdict is the parameter `libraryValid` of `FormValid`.
- Navigation after registration or login, route guards, the header, login and home pages, and application bootstrapping. These are framework glue.
- GET /api/products, the products service, the debug endpoint and console logging.
- The three-second auto-clear timer of the catalog page's notification.
- The login component's own error display. Errors of the login that follows a registration are not modelled further.
- The broadcast of session changes to other subscribers. Only the current field values are modelled.
- Server.StoredCart: a POST body without `cart` is stored whole in the source, including its `email` field. The model keeps only the body's `items`. A body with neither `cart` nor `items` is not modelled.
- CartPage.CartComponent.OnCartLoaded: the source's `cart.items || []` fallback is not modelled, because a modelled cart always has its `items`.
- Emails that name a property every JavaScript object inherits (`constructor`, `toString`, `__proto__`, …) are not modelled. For them `db.carts[email]` reads the object's prototype: registration creates no cart, GET returns the inherited value instead of `{items: []}`, and a POST to `__proto__` replaces the prototype instead of storing a cart. The model treats `carts` as a plain map from every string, so `Server.Db.Valid`, `Server.PostLoginGet` and `Server.Db.RegisteredCartIsStored` hold only for other emails in the source.
- Request bodies with missing or non-string fields (for example an undefined email at registration), and non-integer or NaN quantities, are not modelled. Ids and quantities are unbounded integers.
