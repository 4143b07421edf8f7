# Shop backend: access rules and checkout, in Dafny

This project models the two pieces of business logic of a small e-commerce
backend built on a headless CMS and a payment gateway:

- **Access rules** (`access.dfy`, module `Access`). Each rule takes the optional
  session of a request. It answers `Deny` (`false`), `Allow` (`true`) or
  `Restrict(filter)`, a row filter such as "rows owned by this user". Permission
  checks are generated from a list of permission names. Each check reads the
  session role's flag for its own name. `Matches`/`Admits` say which rows a
  filter selects, so the rules can be stated row by row.
- **Checkout** (`checkout.dfy`, module `Checkout`). This is the `checkout`
  mutation. It rejects a caller without a user id. It keeps the cart items whose
  product still exists and tallies `quantity × price` over them. It charges the
  gateway for that amount. On success it snapshots the kept items into order
  items, creates one order whose total is the amount the gateway charged, and
  deletes every item of the user's cart. The data store is the class
  `Checkout.Store`, which holds each user's cart, the orders, and a log of
  effects (charge requests, order creations, deletions) in the order they
  happened. The gateway is a function parameter from (amount, token) to a
  charge outcome.
- `wrappers.dfy` (module `Wrappers`) holds `Option` and `Result`.

## Model

| member | source | states |
|---|---|---|
| Access.Permissions | access.ts:9-21 | the table has one entry per listed permission name; each entry (`GeneratedCheck`, reading the role flag through `RoleFlag`) holds for a session iff the session is present, has a role, and the role's flag for that name is true; it is total (never fails) |
| Access.CanManageProductsRule | access.ts:26-37 | `Deny` iff no session (the `IsSignedIn` test of access.ts:5-7, taken inside the shared `Gated` shape); `Allow` iff the session's role has canManageProducts; otherwise exactly the owner filter `user.id = itemId` |
| Access.CanOrderRule | access.ts:38-49 | `Deny` iff no session (the `IsSignedIn` test of access.ts:5-7, taken inside the shared `Gated` shape); `Allow` iff the role has canManageCart (not canManageProducts); otherwise the filter `user.id = itemId` |
| Access.CanManageOrderItemsRule | access.ts:50-61 | `Deny` iff no session (the `IsSignedIn` test of access.ts:5-7, taken inside the shared `Gated` shape); `Allow` iff the role has canManageCart; otherwise the filter through the parent order, `order.user.id = itemId` |
| Access.CanReadProductsRule | access.ts:62-68 | never `Deny`; no session (per `IsSignedIn`, access.ts:5-7) gets only `status = AVAILABLE`; `Allow` iff the role has canManageProducts; a signed-in session without it gets `user.id = itemId OR status = AVAILABLE` |
| Access.CanManageUsersRule | access.ts:69-81 | `Deny` iff no session (the `IsSignedIn` test of access.ts:5-7, taken inside the shared `Gated` shape); `Allow` iff the role has canManageUsers; otherwise only the caller's own row, `id = itemId` |
| Access.RowAccess | access.ts:26-81 | for every rule, the rows it admits: exactly those owned by the caller (directly, through the parent order, or the caller's own user row) or all rows with the gating permission; for reading products, also every AVAILABLE product, signed in or not |
| Access.GrantedRegardlessOfItemId | access.ts:32-77 | a signed-in session whose role grants a rule's permission gets `Allow` from that rule whatever its item id |
| Access.OrdersIgnoreProductPermission | access.ts:38-61 | a session whose role holds only canManageProducts gets the owner filters from the order and order-item rules, not `Allow` |
| Checkout.KeepWithProduct | mutations/checkout.ts:54 | every kept item has a product; an item is kept iff it is in the cart and has a product; nothing is dropped iff every item has a product |
| Checkout.KeepDistributes | mutations/checkout.ts:54 | filtering distributes over concatenation, so kept items stay in cart order |
| Checkout.Tally | mutations/checkout.ts:55-57 | the left-to-right reduce from a start value equals that value plus the cart's cost `CartCost`, the sum of quantity × price |
| Checkout.KeepPreservesCost | mutations/checkout.ts:54-57 | dropping items without a product does not change the cart's cost |
| Checkout.DanglingCostsNothing | mutations/checkout.ts:54-57 | a cart whose every item lost its product costs 0 |
| Checkout.AmountIsCostOfKeptItems | mutations/checkout.ts:54-57 | the amount charged is the sum of quantity × price over the items with a product; it is 0 for an empty or all-dangling cart |
| Checkout.TwoItemCart | mutations/checkout.ts:54-57 | 2 at price 10 and 3 at price 5 come to 35, with or without an extra item whose product is gone |
| Checkout.ToOrderItems | mutations/checkout.ts:71-80 | one order item per kept item (each built by `Snapshot`), in the same order, copying the product's name, description, price and photo id and the item's quantity |
| Checkout.OrderItemsWorthTally | mutations/checkout.ts:55-80 | the order items are worth exactly the amount tallied for the kept items |
| Checkout.CartIds | mutations/checkout.ts:90 | one id per cart item; every cart item's id is listed and every listed id is a cart item's |
| Checkout.WithoutIds | mutations/checkout.ts:91-93 | an item survives deletion iff it was in the cart and its id is not among the deleted ids |
| Checkout.DanglingDeletedNotOrdered | mutations/checkout.ts:54-93 | an item whose product is gone is among the deleted ids but is not kept for the order |
| Checkout.WithoutOwnIds | mutations/checkout.ts:90-93 | deleting all of a cart's ids empties it |
| Checkout.WithoutOtherIds | mutations/checkout.ts:90-93 | deleting ids that a cart does not hold leaves it unchanged |
| Checkout.DeleteOwnCart | mutations/checkout.ts:90-93 | deleting the user's cart item ids empties that cart and leaves every other user's cart as it was |
| Checkout.IdsOfCart | mutations/checkout.ts:90-92 | the listed ids are exactly the ids of the cart's items |
| Checkout.EmptyingKeepsDisjoint | mutations/checkout.ts:90-93 | emptying one cart keeps cart item ids unique across users |
| Checkout.Store.CreateOrder | mutations/checkout.ts:82-89 | appends the order to the orders, logs its creation, leaves the carts alone |
| Checkout.Store.DeleteCartItems | mutations/checkout.ts:90-93 | removes every item with a listed id from every cart, logs the deletion, leaves the orders alone |
| Checkout.Store.RecordOrder | mutations/checkout.ts:70-94 | after a successful charge: creates exactly one order with total = charged amount, charge = charge id, the kept items' snapshots and the user; then empties the user's cart; order creation is logged before deletion; cart ids stay unique |
| Checkout.Store.Checkout | mutations/checkout.ts:16-95 | no user id: sign-in error whose message (`ErrorMessage`, lines 22-25) is the fixed sign-in text, and nothing changes, no charge requested; charge failure: an error whose message (lines 65-68) is the gateway's, only the charge request logged, no order, carts unchanged; success: the store's effects are exactly charge request for the tallied amount, then one order creation, then deletion of every original cart id, and that order is returned |

## Left out

- The framework configuration (sessions, cookies, CORS, database URL, seeding, authentication, password-reset email, list wiring) is not modelled: it holds no logic of its own.
- The payment call itself (currency, the confirmation flag, the network) is abstracted into the `gateway` parameter. A request is logged as `ChargeRequested(amount, token)`.
- The CMS's `findOne`/`createOne`/`deleteMany` calls and their query text are replaced by the store's maps and sequences. Generated record ids (such as the new order's id) are not modelled.
- Failure of order creation or of the deletion is not modelled: both store writes always succeed here. So the partial-failure hazard (customer charged, no order recorded) is not represented.
- Asynchrony is not modelled; the handler runs as one sequential method.
- The concrete permissions list is not part of this model. The rules take the list as a parameter and require that it contains canManageProducts, canManageCart and canManageUsers. The TypeScript code would fail calling a missing check.
- JavaScript truthiness corner cases (a session without data, an absent context session) are read as "no session" or "no role". A user id of `""` counts as absent, as `!userId` does.
- An unknown user id makes the handler dereference `null` (a runtime error after no effect). The model returns `UnknownUser` with no effect and no message.
- The snapshot reads the product's photo id unconditionally. `Checkout.Store.Checkout` therefore requires that every item of the caller's cart that has a product has a photo; the model does not invent behaviour for a missing photo.
- Photo URL transformation is not modelled.
- Prices, quantities and amounts are unbounded integers; JavaScript's floating-point numbers and their rounding are not modelled. Positive quantities are not enforced, as the handler does not enforce them.
- The order total is the gateway's charged amount; the handler does not reconcile it with the tallied amount, and neither does the model. Checkout.OrderItemsWorthTally shows that the order items add up to the tallied amount; the total equals it only if the gateway charges what was requested.
