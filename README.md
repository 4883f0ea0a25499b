# Order lifecycle of the FoodDelivery orders site

A Dafny model of the order-tracking core of `orders_site/server.js`: the
order and driver records, the start-up seeding of six example orders, the
active-orders page (`/`), the order-history page (`/order-history`), the
status-change request (`/changeStatus`) and the order-total calculation.

The database is replaced by an in-memory store (`Store.OrderStore`) holding
the order collection and the driver directory as sequences. The database
queries the handlers issue (`findById`, `findOne` on a license plate, the
two status filters, the ascending sort on `orderDateTime`) are pure
functions in `Queries`; lookups return the first match in collection order.
Money is counted in integer cents (a price of 2.99 is 299) and timestamps in
integer milliseconds. The date formatter `formatDate` is the identity, and
so is `Listing.FormatDate`.

Modules:

- `Wrappers`: `Option`.
- `Schema`: `Status`, `LineItem`, `Order`, `Driver`, the enum validation and
  the collection predicates (unique ids, confirmations and plates; "in
  transit or delivered implies assigned").
- `Totals`: the total as a function and as the accumulating loop.
- `Queries`: order and driver lookup, the status filters, the date sort.
- `Listing`: the fields each page attaches to a fetched order.
- `Transitions`: the status-change rule and its outcomes.
- `Seed`: the six seed orders and the seed-if-empty rule.
- `Store`: the store class and its four handler methods.

## Model

| member | source | states |
|---|---|---|
| `Schema.ParseStatus` | orders_site/server.js:57-61 | save() accepts a status text exactly when it is the name of one of the four enum values, and then stores that value |
| `Schema.ParseStatusName` | orders_site/server.js:57-61 | every enum value's name passes validation as that value |
| `Schema.NeedsDriverName` | orders_site/server.js:266 | the guard's two texts are exactly the names of the statuses IN TRANSIT and DELIVERED |
| `Totals.CalculateOrderTotal` | orders_site/server.js:324-330 | the running-sum loop returns the sum of quantity times price over the items, 0 for no items |
| `Totals.TotalAppend` | orders_site/server.js:324-330 | the total is additive over concatenation of item lists |
| `Totals.TotalNonNegative` | orders_site/server.js:324-330 | with non-negative quantities and prices the total is non-negative |
| `Queries.FindById` | orders_site/server.js:260-264 | finds the first order carrying the id, or reports that no order carries it |
| `Queries.FindByIdUnique` | orders_site/server.js:260 | with unique ids the lookup finds exactly the order with that id |
| `Queries.FindDriver` | orders_site/server.js:236-240 | returns a directory driver whose plate equals the one asked for, and nothing exactly when no driver has it |
| `Queries.FindDriverUnique` | orders_site/server.js:96-100 | with unique plates the lookup returns the one driver holding the plate |
| `Queries.WhereDelivered` | orders_site/server.js:222 | the status filter keeps exactly the stored orders whose DELIVERED-ness is the one asked for |
| `Queries.WhereDeliveredPartition` | orders_site/server.js:288 | the DELIVERED and not-DELIVERED filters together hold every stored order exactly once |
| `Queries.SortByDate` | orders_site/server.js:223 | the date sort returns a permutation ordered non-decreasingly by orderDateTime |
| `Queries.ActiveOrders` | orders_site/server.js:222-225 | the active-page query returns exactly the stored orders that are not DELIVERED, as a permutation of the filter's result, oldest first |
| `Queries.DeliveredOrders` | orders_site/server.js:288-291 | the history-page query returns exactly the stored DELIVERED orders, as a permutation of the filter's result, oldest first |
| `Queries.QueryRow` | orders_site/server.js:288-291 | every row of a query is a stored order of the status asked for |
| `Queries.QueryEmpty` | orders_site/server.js:227 | a query is empty exactly when no stored order has the status asked for |
| `Queries.ListingQueries` | orders_site/server.js:222-225 | the active query holds exactly the non-DELIVERED orders, the history query exactly the DELIVERED ones, both sorted, together a partition of the store |
| `Listing.FormatDate` | orders_site/server.js:320-322 | the display form of an order date is the stored date itself |
| `Listing.ActiveView` | orders_site/server.js:229-245 | an active row keeps its order and adds its date, its total, isReceived / isDelivered / isAssigned as the status and assignment say, and driver fields present iff a driver's plate equals assignedTo |
| `Listing.HistoryView` | orders_site/server.js:294-307 | a history row keeps its order and adds its date, its total and driver fields present iff a driver's plate equals assignedTo, with no status flags |
| `Listing.StatusFlagsOf` | orders_site/server.js:232-234 | isReceived iff RECEIVED, isDelivered iff DELIVERED, isAssigned iff assignedTo is non-empty |
| `Listing.DriverInfoOf` | orders_site/server.js:236-245 | driver fields are present iff some driver's plate equals assignedTo, and then carry that plate and that driver's fullName |
| `Listing.DriverInfoNamesHolder` | orders_site/server.js:242-245 | with unique plates the attached name and plate are those of the driver holding assignedTo |
| `Listing.ActiveListing` | orders_site/server.js:229-246 | one row per active-query order in query order, each with its date, total, status flags and driver fields |
| `Listing.HistoryListing` | orders_site/server.js:294-308 | one row per history-query order in query order, each with date, total and driver fields and no status flags |
| `Listing.ActiveListingExact` | orders_site/server.js:222 | an order appears on the active page iff it is stored and not DELIVERED, whatever the driver directory holds |
| `Listing.ActiveListingOrdered` | orders_site/server.js:223 | the active page is ordered oldest first |
| `Listing.ActiveListingNeverDelivered` | orders_site/server.js:233 | no row of the active page has isDelivered set |
| `Listing.HistoryListingExact` | orders_site/server.js:288 | an order appears on the history page iff it is stored and DELIVERED, whatever the driver directory holds |
| `Listing.HistoryListingOrdered` | orders_site/server.js:289 | the history page is ordered oldest first |
| `Listing.ListingsPartitionStore` | orders_site/server.js:222-225 | the two pages together have as many rows as the store has orders, and every order is on one of them |
| `Transitions.StatusChange` | orders_site/server.js:255-284 | NotFound iff no order has the id; InvalidTransition iff the found order is unassigned and IN TRANSIT or DELIVERED is asked; ValidationFailed iff otherwise the text is no enum value; any refusal changes nothing; success sets the found order's status to the requested one and changes no other field and no other order |
| `Transitions.StatusChangeKeepsAssignment` | orders_site/server.js:266-277 | a status change keeps "every IN TRANSIT or DELIVERED order is assigned" |
| `Transitions.NoDriverStatusAccepted` | orders_site/server.js:266-277 | RECEIVED and READY FOR DELIVERY are accepted for any existing order, including backward moves |
| `Transitions.AssignedOrderAcceptsAny` | orders_site/server.js:266-277 | an assigned order accepts every one of the four statuses, with no forward-only ordering |
| `Transitions.StatusChangeIdempotent` | orders_site/server.js:276-277 | repeating a successful change changes nothing more |
| `Seed.SeedOrders` | orders_site/server.js:118-208 | six orders with consecutive fresh ids, distinct confirmation codes, ascending dates, every IN TRANSIT or DELIVERED one assigned |
| `Seed.Seeded` | orders_site/server.js:113-118 | an empty collection receives the six seed orders; a non-empty one is left as it is |
| `Seed.SeedIdempotent` | orders_site/server.js:211-213 | seeding twice, at any two start-up times, is the same as seeding once |
| `Store.OrderStore.SetupDatabase` | orders_site/server.js:106-217 | inserts the seed orders only when the order count is 0, keeping the unique indexes, otherwise changes nothing |
| `Store.OrderStore.ChangeStatus` | orders_site/server.js:255-284 | the new collection and the outcome are those of the status-change rule; refusals change nothing; success changes only the status of the order with the id; the assignment invariant is kept |
| `Store.OrderStore.ListActive` | orders_site/server.js:220-253 | returns the active page's rows and isEmptyOrders, true iff every stored order is DELIVERED |
| `Store.OrderStore.ListHistory` | orders_site/server.js:286-318 | returns the history page's rows and isEmptyOrders, true iff no stored order is DELIVERED |

## Left out

- The HTTP layer: app setup, routing, static files, body parsing, `app.listen`, redirects and status codes; the outcomes are the `Transitions.Outcome` values instead (404 is `NotFound`, 400 is `InvalidTransition`).
- The database connection, the `.env` configuration and the storage-failure paths that answer 500; a save refused by the enum validation is modelled as `ValidationFailed`, which also answers 500 in the handler.
- A malformed order id (which makes `findById` throw and the handler answer 500): identifiers are natural numbers handed out by the store.
- Template rendering and console logging.
- Concurrency between requests (last writer wins) and the one-lookup-per-row pattern; each handler runs as one atomic step.
- Floating-point prices: totals are exact integer sums in cents, so no rounding of JavaScript numbers is reproduced.
- Clock readings: the seed's start-up time is the parameter `now`; the first seed order uses the same reading as the base of the others.
- Queries.SortByDate: the order among equal timestamps is not fixed by the database, so the model promises only sortedness and permutation.
- The driver `password` field and the unused `router`.
- Store.OrderStore.ListActive: builds the enriched rows as a new sequence rather than adding fields to the fetched copies in place; the fetched copies are not stored, so the store is unaffected either way.
- Store.OrderStore.ListHistory: builds its enriched rows as a new sequence in the same way, rather than adding fields to the fetched copies in place.
- Transitions.StatusChange: takes the request's `newStatus` to be a present text. The form parser can also leave it absent or turn it into an array or an object. Those inputs are not modelled. An absent field would store an undefined status, which the enum check lets through. An object such as `newStatus[_id]=DELIVERED` passes the text comparisons of the assignment guard and could then be stored as DELIVERED. So `Transitions.StatusChangeKeepsAssignment` holds only for text inputs.
- A null or missing `assignedTo`: the schema default is the empty string, which is the only unassigned value modelled.
