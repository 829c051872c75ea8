# Little Lemon ordering backend — a Dafny model

This project models the core of the Little Lemon restaurant API
(`LittleLemonAPI/views.py` and `LittleLemonAPI/permissions.py`). It covers the
per-user shopping cart, turning a cart into an order, the partial update of an
order by Managers and Delivery crew, the Manager and Delivery crew group
rosters, and the role-based gates in front of every view.

Modules, one per concern of the source:

- `Common` (`common.dfy`): `Option`, the HTTP statuses and `Outcome`. An
  `Outcome` is either a success status with a payload, or an error status with
  the response's `detail` message.
- `Roles` (`roles.dfy`): the role predicates of `permissions.py`. They are read
  from a principal's group names and staff flag. A principal is an anonymous
  visitor or a signed-in user.
- `Authorization` (`authorization.dfy`): the permission list each view applies
  (`permission_classes`, `get_permissions`), the rule that a request passes
  only when every class in the list grants it, and lemmas about the resulting
  decision table.
- `Records` (`records.dfy`): menu items, cart lines, orders and order items as
  values. It also holds the pure queries the handlers run: one user's cart
  lines, the cart once a user's lines are deleted, price sums, and the orders
  a caller may see (`get_queryset`).
- `Shop` (`shop.dfy`): class `Store`, whose fields are the tables: users with
  their groups, the menu, the cart lines, the orders and the next order id.
  Its methods are the handlers that change those tables. `Store.Valid()`
  keeps three facts: every cart line costs quantity × unit price; every order
  total is the sum of its items' prices; every order id is below the next one.

Money is an integer count of the smallest currency unit. The date an order is
placed on is a parameter. Group membership is stored once, on the user's
account; a roster (`Shop.Members`, the `get` of the roster views) is the set
of users whose account names the group.

Behaviour of the code that the contracts make explicit:

- `partial_update` looks the order up with `Order.objects.get`, not through
  `get_queryset`. So any Delivery crew member may set the status of any
  order, including orders not assigned to them.
- A Manager may name any existing user as delivery crew. Membership of the
  Delivery crew group is not checked.
- `IsCustomer` holds only for a user in no group at all. A user in a group
  that no check recognises therefore cannot use the cart and cannot `GET`
  orders. If such a user does get through a gate, `get_queryset` treats them
  like a customer.
- The staff flag opens the `IsAdminOrManager` gates, but `get_queryset` and
  `partial_update` look only at groups. A staff user in no group is handled
  there as a customer.

Menu-item reads are open to every caller, anonymous visitors included,
because `MenuItemViewSet.get_permissions` returns no permission class for
them.

## Model

| member | source | states |
|---|---|---|
| `Roles.IsManager` | LittleLemonAPI/permissions.py:3-5 | membership of the group named exactly "Manager"; only a signed-in user can hold it |
| `Roles.IsDeliveryCrew` | LittleLemonAPI/permissions.py:7-9 | membership of the group named exactly "Delivery crew"; only a signed-in user can hold it |
| `Roles.IsAuthenticated` | LittleLemonAPI/permissions.py:15-17 | holds for signed-in users; a caller who is not signed in has no group and no staff flag |
| `Roles.IsCustomer` | LittleLemonAPI/permissions.py:11-14 | a customer is neither a Manager nor a Delivery crew member |
| `Roles.CustomerIffNoGroup` | LittleLemonAPI/permissions.py:11-14 | IsCustomer holds exactly when the caller belongs to no group, so any group at all, recognised or not, rules it out |
| `Roles.IsAdminOrManager` | LittleLemonAPI/permissions.py:18-20 | every Manager passes it, and only a signed-in user can pass it |
| `Roles.StaffOutsideGroupsIsNoManager` | LittleLemonAPI/permissions.py:3-20 | a staff user in no group passes IsAdminOrManager but is not a Manager, and is a customer |
| `Roles.CrewGroupNameIsCaseSensitive` | LittleLemonAPI/permissions.py:7-9 | membership of "Delivery Crew" (capital C) makes a caller neither Delivery crew, nor Manager, nor customer |
| `Roles.AnonymousIsCustomer` | LittleLemonAPI/permissions.py:11-20 | an anonymous visitor passes IsCustomer but neither IsAuthenticated nor IsAdminOrManager |
| `Authorization.OrderPermissions` | LittleLemonAPI/views.py:77-97 | the list `get_permissions` returns: always exactly one class; the Manager class for PUT and DELETE and for nothing else; a PATCH from a caller in neither group falls through to IsAuthenticated |
| `Authorization.EndpointPermissions` | LittleLemonAPI/views.py:13-33 | the list each view names (also lines 77-97, 167, 187, 201, 221): never more than two classes, and the empty list, which lets every request through, exactly for menu-item reads |
| `Authorization.OrderAllowedAsWritten` | LittleLemonAPI/views.py:77-97 | order gate: a Manager always passes; PUT/DELETE need Manager; GET needs Delivery crew or customer; POST needs customer; PATCH from neither group falls through to IsAuthenticated; other methods need sign-in |
| `Authorization.AnonymousPassesOrderGate` | LittleLemonAPI/views.py:80-96 | the GET and POST order gates let an anonymous visitor through |
| `Authorization.OrderAllowed` | LittleLemonAPI/views.py:77-97 | the order gate with sign-in required: it admits only signed-in callers, and for them decides exactly as the code does |
| `Authorization.SignInRequired` | LittleLemonAPI/views.py:13-33 | with the order gate requiring sign-in, every endpoint except menu-item reads admits only signed-in callers |
| `Authorization.MenuItemReadsAreOpen` | LittleLemonAPI/views.py:27-30 | menu-item reads pass for every caller, anonymous included |
| `Authorization.CatalogWritesNeedAdminOrManager` | LittleLemonAPI/views.py:13-30 | every category request and every menu-item write passes exactly for staff or Managers |
| `Authorization.CartIsForCustomersOnly` | LittleLemonAPI/views.py:32-33 | the cart endpoints pass exactly for signed-in callers in no group |
| `Authorization.RostersNeedAdminOrManager` | LittleLemonAPI/views.py:166-167 | the roster endpoints (also lines 187, 201, 221) pass exactly for signed-in staff or Managers |
| `Authorization.ManagerTakesPrecedence` | LittleLemonAPI/views.py:77-97 | a Manager who is also Delivery crew is decided for exactly as a plain Manager, and gets through every gate except the cart's |
| `Records.ItemOf` | LittleLemonAPI/views.py:117-123 | an order item copied from a line priced as quantity × unit price is priced the same way |
| `Records.CartOf` | LittleLemonAPI/views.py:35-38 | listing a cart returns exactly the caller's lines, never another user's |
| `Records.Without` | LittleLemonAPI/views.py:61-63 | deleting u's lines keeps exactly the lines of other users |
| `Records.LinesTotal` | LittleLemonAPI/views.py:113 | the sum of the lines' prices; it is never negative when no line price is |
| `Records.AddGrowsOnlyOwnCart` | LittleLemonAPI/views.py:51-57 | a new line grows its owner's cart by that one line and leaves every other cart as it was |
| `Records.CartPartition` | LittleLemonAPI/views.py:109-125 | the caller's lines and the lines left after deleting them together make up the whole cart, with no line lost or duplicated |
| `Records.ClearedCartIsEmpty` | LittleLemonAPI/views.py:61-63 | after the caller's lines are deleted the caller has none |
| `Records.ClearKeepsOtherCarts` | LittleLemonAPI/views.py:61-63 | deleting the caller's lines leaves every other user's cart unchanged |
| `Records.ClearIsIdempotent` | LittleLemonAPI/views.py:61-63 | deleting the caller's lines a second time changes nothing |
| `Records.ClearingFacts` | LittleLemonAPI/views.py:125 | the facts above together, and the remaining lines stay priced |
| `Records.CopiedItemsKeepTotal` | LittleLemonAPI/views.py:113-123 | items copied one for one from cart lines sum to the lines' total, so an order's total equals the sum of its items |
| `Records.VisibleOrders` | LittleLemonAPI/views.py:99-106 | the orders a caller sees are stored orders, unchanged, and a Manager sees all of them |
| `Records.ScopedListing` | LittleLemonAPI/views.py:99-106 | for one order, the Manager, its assigned crew member and its customer all see it; another customer does not |
| `Records.CrewSeesAssignedOnly` | LittleLemonAPI/views.py:103-104 | a Delivery crew member who is not a Manager sees exactly the orders assigned to them |
| `Records.OthersSeeOwnOnly` | LittleLemonAPI/views.py:105-106 | anyone in neither group, staff or not, sees exactly the orders they placed |
| `Shop.CopyLines` | LittleLemonAPI/views.py:116-123 | one order item per cart line, in order, each copying menu item, quantity, unit price and price; the items sum to the lines' total |
| `Shop.Truthy` | LittleLemonAPI/views.py:140-153 | Python's truth value of a request scalar: false exactly for null, 0 and the empty string |
| `Shop.IsZeroOrOne` | LittleLemonAPI/views.py:146-147 | Python's `in [0, 1]`: only the integers 0 and 1 pass, and of them only 1 is truthy, so `bool(status)` sets delivered exactly for 1 |
| `Shop.Members` | LittleLemonAPI/views.py:169-173 | a roster (`group.user_set`, also lines 203-207) holds stored users only, each of them in the group |
| `Shop.JoinKeepsOtherRosters` | LittleLemonAPI/views.py:175-183 | adding a user to a group puts them on that roster and leaves every other roster unchanged |
| `Shop.LeaveKeepsOtherRosters` | LittleLemonAPI/views.py:189-196 | removing a user from a group takes them off that roster and leaves every other roster unchanged |
| `Shop.Store.AddToCart` | LittleLemonAPI/views.py:40-59 | with a known menu item: 201 and exactly one new line for the caller, quantity 1 when none is sent, unit price = menu price, price = quantity × menu price, other carts unchanged; a missing or unknown id: 404 and the cart unchanged |
| `Shop.Store.ClearCart` | LittleLemonAPI/views.py:61-63 | always 200; the caller's lines are gone, other users' carts are unchanged, and clearing again would change nothing |
| `Shop.Store.CreateOrder` | LittleLemonAPI/views.py:108-128 | empty cart: 400 and nothing changes; otherwise 201 and one new undelivered, unassigned order dated today, with total = sum of the line prices and one copied item per line; the caller's cart is emptied; other carts and earlier orders are untouched |
| `Shop.Store.PartialUpdate` | LittleLemonAPI/views.py:130-158 | unknown order: 404; a Manager sets delivery crew (unknown user: 404, nothing saved) and status only from 0 or 1, else 200 with status kept; Delivery crew sets status alone, or gets 403 without it; others get 403; only status and delivery crew ever change |
| `Shop.Store.AddToRoster` | LittleLemonAPI/views.py:175-183 | a known user joins the group (201) and the roster gains exactly them (also lines 209-217); a missing or unknown id: 404 and nothing changes |
| `Shop.Store.RemoveFromRoster` | LittleLemonAPI/views.py:189-196 | a known user leaves the group (200) and the roster loses exactly them (also lines 223-230); an unknown id: 404 and nothing changes |

`Shop.CheckoutScenario` is a verified client of the store. A menu item at 1250
is added once to a cart, with quantity 3. The line, the order item and the
order total then all come to 3750, and a second order from the emptied cart is a 400.

## Findings

| source | as written | input that shows it | evidently intended | confidence | as-written member | corrected member |
|---|---|---|---|---|---|---|
| LittleLemonAPI/views.py:80-96 | the GET and POST order gates return `[IsCustomer()]` alone. An anonymous visitor belongs to no group and passes it. | an anonymous `GET /orders` or `POST /orders` | unauthenticated callers are refused, as the cart view does by pairing IsAuthenticated with IsCustomer (line 33). As written, the request reaches a user-filtered query with no user. | medium; not executed | `Authorization.AnonymousPassesOrderGate` | `Authorization.OrderAllowed` |

`Authorization.Permitted`, the endpoint table, uses the corrected order gate.

## Left out

- Storage: the Django ORM, persistence, and the transaction a real order
  creation would need. The model runs one handler at a time on an in-memory
  store, so concurrent requests are not modelled.
- `LittleLemonAPI/serializers.py`: no handler builds the JSON layout of its
  response. `Store.AddToCart` returns the new cart line. `Store.CreateOrder`
  returns only the new order's id; the order with its items is the store's
  `orders[id]` rather than a response body. `Store.ClearCart`,
  `Store.PartialUpdate` and the roster handlers return their status and
  message text. The roster views' `get` is `Shop.Members`, without user names.
- URL routing (`LittleLemonAPI/urls.py`): for instance, the router maps cart
  `destroy` to a detail route.
- Filtering, search and ordering of the menu-item and order lists
  (`views.py:22-25`, `views.py:69-75`): that is library behaviour not visible
  here.
- The default create/read/update/delete behaviour of `CategoryViewSet`,
  `MenuItemViewSet` and the order views' `update`/`destroy`/`retrieve`. Only
  their gates are modelled. Menu-item titles are carried but never checked;
  a menu item's category is not modelled.
- The order invariant of `Store.Valid()` (an order's total is the sum of its
  items' prices) holds for the handlers modelled here, not for the program.
  `OrderViewSet` also inherits `update` (PUT), and `OrderSerializer` leaves
  `user`, `total` and `date` writable, so a Manager's PUT can break it.
- Group names are compared exactly, letter case included
  (`Roles.CrewGroupNameIsCaseSensitive`). Django's `filter(name=…)` is
  case-sensitive on SQLite and PostgreSQL but not under MySQL's default
  collations. The project settings are not part of this model.
- The order of cart lines: `Records.CartOf` and `Store.CreateOrder` keep the
  lines in the order they were added. `Cart.objects.filter` promises no order,
  so the order of an order's items is the model's choice, not the program's.
- `models.py` is not part of this model, so field validation is not modelled.
  That includes a non-negative menu price and a positive quantity: a
  quantity is any integer.
- Request parsing. An absent `quantity` is taken as 1, as `views.py:42` does,
  but `int(quantity)` failing on a non-number is not modelled.
  A `delivery_crew` that is not an integer, and a float `status`, are not
  modelled either. JSON booleans are the numbers 0 and 1, as in Python.
- The clock: `timezone.now().date()` is the `today` parameter of
  `Store.CreateOrder`.
- Authentication and sessions. A signed-in principal is assumed to be a
  stored user, so `Store.PartialUpdate` requires the caller to be in the user
  table. Both named groups are assumed to exist, so `get_group` never fails.
- Django's `Decimal` arithmetic: money is whole units of the smallest
  currency unit.
