# Fusion backend: a Dafny model

Fusion is a small e-commerce web backend written in Go with Fiber and GORM.
Users register and confirm their e-mail with a mailed token. They log in for
an access token and a refresh token; each login opens a session keyed by the
refresh token's `jti`. Users keep a cart of line items, turn selected lines
into orders, and review, favourite and edit products.

This project models that core in Dafny:

- `common.dfy`: shared values (`Option`, `Result`, UUIDs as their canonical
  text, instants, HTTP status codes).
- `models.dfy`: the table rows (users, verifications, sessions, carts and
  line items, orders and the `int32` order status with its four `iota`
  constants, products, reviews, favourites).
- `user.dfy`: the user entity. It holds the any-of permission check, written
  as the nested search loop of `HasPermissions`. It holds phone normalisation
  as pure functions. And it holds the `User` class, whose `BeforeCreate` and
  `BeforeUpdate` hooks rewrite its `phone` field in place.
- `jwt.dfy`: what token validation hands to its callers. This includes the
  dynamic type of the claims, which decides the type assertions in the
  handlers.
- `middleware.dfy`: the access guard as a pure function over the user rows
  it loads. As written it loads users without their permissions; the intended
  guard loads them. A lemma states the chain independently as "the first
  failing guard, in source order, decides the status".
- `cart.dfy`, `orders.dfy`, `products.dfy`: the loops and computations inside
  the cart, order and product handlers, each with its specification function
  and lemmas.
- `store.dfy`: a `Store` class holding every table as a map, with one method
  per handler. Each method returns the HTTP status and states the new tables.
  `Valid()` keeps the unique indexes (e-mail, username, verification token,
  one review and one favourite per product and user), the foreign keys of
  verifications and sessions, and stored phones in normalised form. Every
  handler that can touch those tables preserves `Valid()`.
- `scenarios.dfy`: request sequences and what the handlers promise about them
  together.

## How the outside world is modelled

Each handler method receives its inputs as parameters:

- the request fields, already decoded;
- the user the access guard attached;
- the answers of the services the handler calls.

The service answers are these:

- the clock is `now`;
- new IDs and tokens (`uuid.New` or the database default) are given values;
  one that collides with a stored key or unique value fails the insert as
  the database would;
- `HashPassword` is an `Option` (None is an error);
- `CheckPasswordHash` and the `email` validator are functions;
- `ValidateToken` is an `Option<ParsedToken>`;
- `SendEmail` is a `mailDelivered` flag;
- `uuid.Parse` of a route parameter is an `Option<Uuid>`.

Transactions are atomic: a failure inside one leaves the tables as they were.

## Model

| member | source | states |
|---|---|---|
| UserModel.User.HasPermissions | app/database/models/user.go:35-45 | the loop answers true exactly when some required name equals the name of some held permission |
| UserModel.HoldsAnyOfIsOverlap | app/database/models/user.go:35-45 | the check is a non-empty overlap of held and required names: one match suffices, and no required names means false |
| UserModel.StripPhone | app/database/models/user.go:48-49 | the stripped text is no longer than the input and holds only digits and `+` |
| UserModel.StripPhoneCounts | app/database/models/user.go:48-49 | stripping keeps each digit and `+` as often as it occurs and drops every other character |
| UserModel.StripPhoneFixes | app/database/models/user.go:48-49 | a text of digits and `+` only is left unchanged |
| UserModel.StripPhoneKeepsDigits | app/database/models/user.go:48-49 | stripping does not change the digits a text holds |
| UserModel.FormatPhoneNumber | app/database/models/user.go:47-60 | a successful result is `+`, a digit 1-9, then 1 to 14 more digits |
| UserModel.FormatPhoneFailsIff | app/database/models/user.go:51-53 | normalisation fails exactly when the stripped text is empty, has a `+` after its front, starts with 0 after an optional `+`, or has fewer than 2 or more than 15 digits |
| UserModel.FormatPhoneKeepsDigits | app/database/models/user.go:47-60 | a successful result is `+` followed by exactly the input's digits |
| UserModel.FormatPhoneIdempotent | app/database/models/user.go:55-59 | normalising a normalised number returns it unchanged: no second `+` |
| UserModel.User.BeforeCreate | app/database/models/user.go:62-71 | a nil phone is left alone; otherwise the phone becomes its normalised form, or the error is returned and the phone is unchanged |
| UserModel.User.BeforeUpdate | app/database/models/user.go:73-82 | the same three outcomes as the create hook |
| Middleware.Split | app/middleware/auth.go:21-24 | `strings.Split` gives one more piece than there are separators, and no piece holds the separator |
| Middleware.JoinSplit | app/middleware/auth.go:21-24 | joining the pieces with the separator gives the header back |
| Middleware.SplitJoin | app/middleware/auth.go:21-24 | splitting separator-free pieces joined by the separator gives the pieces back |
| Middleware.PreloadMattersOnlyForPermissions | app/middleware/auth.go:44-55 | on a route that requires no permissions, the middleware as written gives the same answer as the one with permissions loaded, and attaches the same user without permissions |
| Middleware.GuardChain | app/middleware/auth.go:16-58 | a rejection is one of 400, 401, 403, 404; proceeding implies a non-empty header, a loaded user, and a permission match when permissions are required |
| Middleware.Authenticate | app/middleware/auth.go:16-58 | as written: proceeding implies a non-empty header and a stored user, attached without permissions; any required permission means rejection |
| Middleware.AuthenticateIntended | app/middleware/auth.go:16-58 | with permissions loaded: proceeding implies a stored user, attached as stored, holding a required permission when there are any |
| Middleware.AuthenticateIsFirstFailingGuard | app/middleware/auth.go:16-58 | over whichever rows are loaded, the status is that of the first failing guard in source order; the handler runs with the claimed user exactly when every guard passes |
| Middleware.SchemeWordIgnored | app/middleware/auth.go:21-26 | any first word in place of `Bearer` gives the same outcome |
| Middleware.SpaceCountDecides | app/middleware/auth.go:21-24 | a non-empty header with other than exactly one space is answered 400 |
| Middleware.RequiredPermissionsForbidAll | app/middleware/auth.go:44-55 | as written, a request that passes the token guards for a stored user is answered 403 whenever the route requires a permission, whatever the user holds |
| Middleware.PermissionsOnlyWhenRequired | app/middleware/auth.go:49-55 | with permissions loaded: with none required any user the token names passes; with some, holding one suffices and otherwise the answer is 403 |
| Handlers.Store.Register | app/handlers/auth.go:43-128 | 400 exactly for invalid input or an e-mail held by a verified user. Otherwise, barring a hash error or key conflict, the holder of an unverified e-mail is overwritten, or a new user is inserted. Exactly one `EMAIL_VERIFY` token expiring at now + `VerificationExpire` is added with it. Any failure in the transaction leaves both tables as they were. A failed mail still answers 500 after the commit |
| Handlers.Store.Login | app/handlers/auth.go:131-178 | 200 exactly for valid input, a verified user with that e-mail and a password that checks. It adds one session keyed by `jti` for that user, expiring at now + `RefreshExpire`. Any other answer changes nothing. The save's update hook never fails on stored users |
| Handlers.Store.Refresh | app/handlers/auth.go:209-242 | with the claims read as validation produces them, 200 exactly when a session with the token's `jti` exists, whatever its expiry. The access token is for the session's user, and nothing is rotated or written |
| Handlers.Store.RefreshAsWritten | app/handlers/auth.go:223-229 | with the value-type assertion, every token that validation accepts ends in 500 |
| Handlers.Store.Logout | app/handlers/auth.go:181-206 | as written, 400 for an empty token, 401 for a rejected one, 500 for every accepted one; never 204, and no session is removed |
| Handlers.Store.LogoutIntended | app/handlers/auth.go:181-206 | 204 exactly for a non-empty token that validation accepts with its claims held by reference (`*Claims`); it removes exactly the session named by the token's `jti`. Every other answer is 400, 401 or 500 |
| Handlers.Store.ResetPassword | app/handlers/auth.go:245-287 | 400 for invalid input, 404 for an unknown e-mail; otherwise one verification of kind `EMAIL_VERIFY` for that user, expiring at now + `VerificationExpire`. A taken key or token answers 500 and adds nothing |
| Handlers.Store.ResetPasswordIntended | app/handlers/auth.go:245-287 | the same, including the 500 on a taken key or token, but the token is of kind `PASSWORD_RESET` |
| Handlers.Store.LookupResetToken | app/handlers/auth.go:297-322 | 400 exactly for a missing token or a password under 8 characters, 404 exactly when no `PASSWORD_RESET` token matches, 401 exactly when it expired strictly before now; past the guards, the one live verification carrying the token |
| Handlers.Store.VerifyPasswordReset | app/handlers/auth.go:290-346 | 404 unless a `PASSWORD_RESET` token matches; 401 only when it expired strictly before now. 200 exactly when the token is live, the hash succeeds and the blank row clashes with no stored ID, e-mail or username. Success inserts a blank user holding the new hash and deletes the token; every existing user row, the owner's included, is unchanged |
| Handlers.Store.VerifyPasswordResetIntended | app/handlers/auth.go:290-346 | 404 unless a `PASSWORD_RESET` token matches, and 401 exactly when it expired strictly before now; success sets the token owner's password to the new hash and deletes the token, and nothing else changes |
| Handlers.Store.VerifyEmail | app/handlers/auth.go:349-392 | 200 exactly for an `EMAIL_VERIFY` token expiring strictly after now. It marks the owner verified and deletes that token in one step; otherwise nothing changes |
| Handlers.Store.GetCart | app/handlers/cart.go:28-54 | a missing cart is 500; otherwise one response entry per line item, in order, with its own ID and quantity |
| Carts.ResponseEntries | app/handlers/cart.go:40-51 | the slice filled by index holds, at each index, that line item's ID and quantity |
| Carts.ContainsLineId | app/handlers/cart.go:92-96 | the duplicate loop answers true exactly when some line item's own ID equals the product ID |
| Carts.DuplicateCheckMissesHeldProduct | app/handlers/cart.go:92-96 | a cart holding the product passes that check |
| Handlers.Store.AddToCart | app/handlers/cart.go:56-123 | an unknown product is 404 and a missing cart is 500. 400 exactly when a line item's own ID equals the product ID. A taken line key answers 500. Success appends exactly one line item with the requested quantity, leaves the others unchanged, and answers the cart as loaded before the insert, entry by entry (each line item's ID and quantity) |
| Handlers.Store.AddToCartIntended | app/handlers/cart.go:56-123 | 200 exactly when the product exists, the cart does not hold it yet, and neither the new cart's ID nor the line key is taken. A missing cart is created; an existing one keeps its ID. Any other answer leaves the carts unchanged and has no body. Carts free of duplicate products stay so. The answer lists, entry by entry, the line items held before the insert |
| Handlers.Store.RemoveFromCart | app/handlers/cart.go:125-160 | 404 for an unknown product, 500 for a missing cart; otherwise 204, even when no line item matched, with every line item for the product deleted |
| Carts.WithoutProductCounts | app/handlers/cart.go:151-157 | after removal no line item for the product is left, and every other one is left as often as it occurred |
| Carts.WithoutProductOnlyDrops | app/handlers/cart.go:151-159 | removal never adds line items, and changes the cart exactly when it held the product |
| Orders.FirstMatch | app/handlers/orders.go:75-86 | the index found is the first line whose product ID reads as the selection; none is found only when no line matches |
| Orders.MatchSelections | app/handlers/orders.go:72-88 | the nested loop yields, per matched selection in request order, the first matching line's product and quantity, and that line's ID for removal |
| Orders.MatchedLinesFromCart | app/handlers/orders.go:74-88 | every line taken is a cart line for a selected product, at most one per selection |
| Orders.MatchedLineIsFirst | app/handlers/orders.go:74-88 | a matching selection appends its first matching line; one that matches no line adds nothing |
| Orders.DuplicateSelectionTakesLineTwice | app/handlers/orders.go:74-88 | selecting one product twice takes the same line twice |
| Orders.WithoutIds | app/handlers/orders.go:94-96 | the delete by IDs keeps exactly the lines whose ID is not listed |
| Orders.ConversionMovesExactly | app/handlers/orders.go:94-96 | with distinct line IDs, the lines deleted are exactly the lines taken into the order; every other line stays |
| Handlers.Store.CreateOrder | app/handlers/orders.go:48-106 | as written: 404 before any write when there is no cart. Otherwise an order with status `CREATED` and no items is stored first. 201 exactly when no selection matches a cart line, with an empty item list; otherwise 500, with the empty order kept and the carts unchanged |
| Handlers.Store.CreateOrderIntended | app/handlers/orders.go:48-106 | as intended: 404 before any write when there is no cart. Otherwise an order with status `CREATED` (1) is stored, even if nothing matches. Its items are the matched lines, those lines are deleted from every cart by ID, and the response carries status 1 and those items |
| Handlers.Store.UpdateOrderStatus | app/handlers/orders.go:109-137 | only the caller's own order is found (404 otherwise); any `int32` status is stored with no transition check, a value outside `int32` is 400, and nothing else changes |
| Handlers.Store.DeleteOrder | app/handlers/orders.go:140-152 | only an order with that ID and owner is removed, and the answer is 204 either way |
| Products.CategoriesFromNames | app/handlers/products.go:144-150 | the loop makes one category per supplied name, in order |
| Products.MergeIdempotent | app/handlers/products.go:129-152 | applying an update twice equals applying it once |
| Products.EmptyUpdateClearsImage | app/handlers/products.go:135-152 | an update supplying nothing changes only the image, which it clears |
| Products.MergeKeepsOwner | app/handlers/products.go:144-150 | the owner never changes, and in the merged value the supplied category names become the categories one for one, in order |
| Handlers.Store.UpdateProduct | app/handlers/products.go:111-159 | only the caller's own product is found (404 otherwise). The field-by-field assignments store the merge: each supplied field overwritten, the others kept, the image always set from the request. The supplied categories take the place of the old ones |
| Handlers.Store.DeleteProduct | app/handlers/products.go:162-174 | only a product with that ID and owner is removed; 204 either way |
| Handlers.Store.CreateReview | app/handlers/products.go:177-213 | 404 for an unknown product, 400 when the caller already reviewed it, 500 when the new review's ID is taken; otherwise exactly one review is added, and reviews stay unique per product and user |
| Handlers.Store.RemoveReview | app/handlers/products.go:216-228 | exactly the caller's reviews of the product are removed, the rest kept unchanged; 204 either way |
| Handlers.Store.AddToFavorites | app/handlers/products.go:231-250 | an existing favourite for the pair is kept, with no second one; otherwise one is added. Favourites stay unique per product and user |
| Handlers.Store.RemoveFromFavorites | app/handlers/products.go:253-265 | exactly the caller's favourite of the product is removed; 204 either way |
| Scenarios.VerifyEmailTokenSingleUse | app/handlers/auth.go:368-391 | a token that verified an e-mail is not found the second time |
| Scenarios.RegisterVerifyLogin | app/handlers/auth.go:43-178 | registering, then verifying in time, lets the user log in with the registered password |
| Scenarios.ResetTokenRefusedAsWritten | app/handlers/auth.go:265-271 | after a successful reset request, change-password with the mailed token answers 404 |
| Scenarios.SecondResetFailsAsWritten | app/handlers/auth.go:311-334 | after one successful password change as written, no second one succeeds; once the token and expiry guards pass, it answers 500 |
| Scenarios.ResetThenChangeIntended | app/handlers/auth.go:260-345 | with the intended kind, the mailed token changes exactly the owner's password |
| Scenarios.LogoutKeepsSessionAsWritten | app/handlers/auth.go:195-203 | logout answers 500 and the session row stays, so the refresh with the corrected claims assertion still accepts the token |
| Scenarios.LogoutRevokesRefreshIntended | app/handlers/auth.go:195-203 | for any token that validation accepts, the intended logout answers 204, and the same refresh token is then refused with 401 |
| Scenarios.DuplicateAddAcceptedAsWritten | app/handlers/cart.go:92-107 | adding a product the cart holds is accepted and leaves two line items for it |
| Scenarios.DuplicateAddRefusedIntended | app/handlers/cart.go:92-96 | the intended check refuses it and leaves the cart unchanged |
| Scenarios.FirstAddWithoutCart | app/handlers/cart.go:74-90 | without a cart the add fails with 500 as written, and succeeds when the cart is created |
| Scenarios.AddFavouriteTwice | app/handlers/products.go:243-249 | the second add of the same favourite answers 201 and changes nothing |
| Scenarios.EmailTokenAtExpiry | app/handlers/auth.go:370 | an e-mail token is refused at its expiry instant |
| Scenarios.ResetTokenAtExpiry | app/handlers/auth.go:319-322 | a reset token is still accepted at its expiry instant |
| Scenarios.OrderHeldProduct | app/handlers/orders.go:63-92 | ordering a product the cart holds answers 500 as written and leaves an order with no items; as intended it answers 201 and the cart gives up the line |

## Left out

- JWT signing and signature checking are not modelled. `ValidateToken`'s answer is a parameter. The errors the two `Generate...Token` calls can return (auth.go:156-164, 236-239) are not modelled either: the handlers are taken to obtain their tokens.
- Password hashing and checking are parameters, not algorithms.
- The clock, UUID generation and UUID parsing are parameters. UUIDs are their canonical text, so a selection ID in another spelling simply does not match.
- E-mail templates and SMTP delivery are left out; only whether delivery failed is modelled.
- Request-body decoding is left out: each handler receives the decoded fields, so the 400 answers for a body that does not parse are not modelled. The exception is the `int32` range of the order status.
- Database failures other than key and unique-index conflicts (lost connection, a failed `Begin` or `Commit`) are not modelled.
- Soft deletes are modelled as removal: a soft-deleted row is invisible to every lookup the handlers make.
- Rows are loaded in insertion order; the model takes that as the order of `cart.Products`.
- Prices and ratings are carried as `float64` bit patterns, with no arithmetic.
- `GetOrders`, `GetProducts`, `GetProduct` and `CreateProduct` are not part of this model. app/handlers/users.go, the configuration, the database setup and the service injection are not part of it either.
- Handlers.Store.Login: a `jti` equal to a stored session's ID replaces that session. GORM's association upsert on such a conflict is not modelled; `uuid.New` makes the case negligible.
- Handlers.Store.CreateOrderIntended: a failing delete of the taken cart lines (500 after the order is stored) is not modelled; the delete succeeds.
- Handlers.Store.UpdateProduct: the handler uses a `schemas.ProductUpdateRequest` that is not in app/schemas/product.go, and assigns `&categories` to a slice field (products.go:124, products.go:149). The model follows the evident intent of the field merge. It stores the supplied categories in place of the old ones. `Save` (products.go:154) would upsert the many-to-many `Categories` association instead: it inserts the new categories and their links and deletes no old link, so the old categories would stay. Association persistence is not modelled.
- Carts are keyed by their owner, so the model holds at most one cart per user. The source only reads the first cart with that `user_id`, and declares no unique index on the column.
- Handlers.Store.CreateReview: `First(&product, parsedId)` is modelled as a lookup by primary key.

## Findings

| source | as written | input that shows it | evidently intended | confidence | as-written member | corrected member |
|---|---|---|---|---|---|---|
| app/handlers/auth.go:228 | the claims are asserted to the value type `JwtCustomClaim`, but `ValidateToken` parses into a `*JwtCustomClaim` (app/utils/jwt.go:69), so the assertion panics | any refresh token that validates: the answer is 500 | assert `*JwtCustomClaim`, as app/middleware/auth.go:33 does, and refresh from the session | not executed | Handlers.Store.RefreshAsWritten | Handlers.Store.Refresh |
| app/handlers/auth.go:200-203 | Logout makes the same assertion. It then compares the `*gorm.DB` returned by `Delete` with nil, and it filters on a `JTI` column the sessions table does not have | any refresh token that validates: 500, and the session row stays, so the corrected refresh still accepts the token (Scenarios.LogoutKeepsSessionAsWritten) | delete the session whose ID is the `jti` and answer 204, after which the token no longer refreshes (Scenarios.LogoutRevokesRefreshIntended) | not executed | Handlers.Store.Logout | Handlers.Store.LogoutIntended |
| app/handlers/auth.go:265-271 | the reset token is stored with kind `EMAIL_VERIFY`, while change-password looks for `PASSWORD_RESET` (auth.go:313) | a reset request for a registered e-mail, then change-password with the mailed token: 404 (Scenarios.ResetTokenRefusedAsWritten) | store kind `PASSWORD_RESET`, so the mailed token changes the owner's password (Scenarios.ResetThenChangeIntended) | not executed | Handlers.Store.ResetPassword | Handlers.Store.ResetPasswordIntended |
| app/handlers/auth.go:310-334 | the verification is loaded without `Preload("User")`, so `verification.User` is the zero value; saving a row with no primary key inserts it | a live `PASSWORD_RESET` token for user U: a new blank user receives the hash, and U's password is unchanged; a second change then answers 500, as the empty e-mail is taken (Scenarios.SecondResetFailsAsWritten) | load the owner and save the new hash on that user | not executed | Handlers.Store.VerifyPasswordReset | Handlers.Store.VerifyPasswordResetIntended |
| app/handlers/cart.go:92-96 | the duplicate check compares each line item's own `ID` with the product's ID | a cart holding line `line-1` for `product-1`, then adding `product-1`: 200 and two line items for it (Scenarios.DuplicateAddAcceptedAsWritten) | compare `ProductID`, refusing with 400 (Scenarios.DuplicateAddRefusedIntended) | not executed | Carts.DuplicateCheckMissesHeldProduct | Handlers.Store.AddToCartIntended |
| app/handlers/cart.go:75-90 | a missing cart makes `First` fail, answered 500, so the branch that creates a cart never runs | a user with no cart adds an existing product: 500 (Scenarios.FirstAddWithoutCart) | create the cart, then add the line item | not executed | Handlers.Store.AddToCart | Handlers.Store.AddToCartIntended |
| app/handlers/orders.go:63-92 | the order row is created on its own, and the matched lines are `CartProduct` values appended to the `[]Product` association, which GORM refuses as an unsupported type | a cart holding a line for `product-1`, ordering `product-1`: 500, an order with no items stays stored, and the cart keeps the line (Scenarios.OrderHeldProduct) | attach the matched lines as the order's items and delete them from the cart, answering 201 | not executed | Handlers.Store.CreateOrder | Handlers.Store.CreateOrderIntended |
| app/middleware/auth.go:44-55 | the user is loaded with `First` and no `Preload("Permissions")`, so the many-to-many `Permissions` association is empty when `HasPermissions` runs. No route passes permissions today (app/handlers/orders.go:28, app/handlers/users.go:22, app/handlers/products.go:26, app/handlers/cart.go:22), so the defect is latent | a valid token for a stored user holding `admin`, on a route requiring `admin`: 403 (Middleware.RequiredPermissionsForbidAll) | load the user with its permissions, so holding one required permission admits the request (Middleware.PermissionsOnlyWhenRequired) | not executed | Middleware.Authenticate | Middleware.AuthenticateIntended |
