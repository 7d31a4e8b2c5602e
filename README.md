# Crepa Urbana backend: orders, payments and loyalty points

A Dafny model of the reconciliation core of the Crepa Urbana back end, a café
ordering service. Customers order from a catalog and pay through Stripe. Every
purchase earns loyalty points, which are kept both as a balance on the user row
and as an append-only movement log.

The model covers these parts of the back end:

- **Order creation** (`orderService.createOrder`). It prices each line from the
  catalog, computes the points, and writes the order, its items, the balance
  increment and an `acumulacion` log entry.
- **The payment state machine** (`paymentService`). It creates intents with a
  50-cent minimum, confirms a payment from the client by dispatching on the
  gateway's status, and refunds a paid payment.
- **The Stripe webhook handlers**. Four events (succeeded, failed, refunded,
  canceled) rewrite the payment row and the order it paid for.
- **The generic repository and the transaction queries**. These are lookup,
  create, update-if-present and delete, plus the filtered, date-sorted, paged,
  counted and summed queries over payments.
- **The product service's guards** over the repository.
- **The payment controller**. It validates requests and chooses the status
  code for create-intent, confirm, refund and revenue statistics.
- **`protect` and `restrictTo`**. `protect` extracts a bearer token as in
  section 2.1 of RFC 6750; `restrictTo` checks the role.
- **Registration and login**.
- **The CORS origin whitelist**.
- **The field constraints and enumerations of the six models**.

## How the model is built

The database is modelled as follows:

- **Tables.** A table is a map from auto-increment ids to rows
  (`Repository.Table`). A scan without an explicit order visits rows in id
  order, and `findOne` returns the first match in that order.
- **Snapshots.** `Store.State` is an immutable snapshot of all six tables plus
  the loyalty log.
- **The connection.** `Store.Db` is the open connection. It is a class whose
  fields the service methods rewrite in place.
- **Services.** Each stateful service is written twice:
  - a pure function over `State`, the specification (for example
    `PaymentService.SettledConfirmation`);
  - a method on `Db` whose postcondition is
    `(db.Snapshot(), r) == Spec(old(db.Snapshot()), ...)`.

  The properties are then proved as lemmas about the specification.
- **Wiring.** The payment controller takes a `PaymentController.Service`:
  `AsWritten` wires it to the services as the program has them, and `Corrected`
  to the corrected services of the findings below.

Money is integer cents:

- `createOrder` awards one point per 10 currency units, which is `total / 1000`
  in cents.
- The confirm path awards `Math.floor(total * 1)` points, which is `total / 100`.
- `monto = amount / 100` dollars is stored as `amount` cents.

JavaScript truthiness is explicit:

- `Wrappers.Truthy` is a present, non-zero number.
- `Wrappers.Filled` is a present, non-empty string.

These Sequelize behaviours are modelled because they decide the outcomes:

- `BaseRepository.update` and `create` take no options. The `{ transaction }`
  argument the services pass is therefore dropped, and those writes commit at
  once.
- `record.update` and `Model.create` run the model's validators.
  `bulkCreate` does not.
- A static `Model.update` with a `where` clause that matches nothing does
  nothing.

Outside effects are parameters:

- Stripe's answers: the retrieved intent, the created intent, the refund, and
  the outcome of the webhook signature check.
- The clock.
- bcrypt (`hash`, `matches`) and JWT (`sign`, `verify`).
- The e-mail syntax check.
- `new Date(...)` parsing.

## Model

| member | source | states |
|---|---|---|
| OrderService.PriceOne | src/services/orderService.js:15-31 | a request line is priced iff its product exists and is available; the line freezes the catalog price and defaults the notes to `''`; otherwise the error names the missing or unavailable product |
| OrderService.PriceItems | src/services/orderService.js:15-31 | pricing succeeds iff every requested product is orderable, with one line per request, each priced as that request alone |
| OrderService.PriceItemsStops | src/services/orderService.js:16-19 | the loop fails with the refusal of the first line that cannot be priced |
| OrderService.PricedTotal | src/services/orderService.js:11-22 | the total the loop accumulates equals the catalog price times quantity summed over the request |
| OrderService.Points | src/services/orderService.js:34 | points are the floor of the total over 10 currency units (1000 cents) |
| OrderService.Attach | src/services/orderService.js:46-50 | one item row per priced line, in order, each carrying the new order's id |
| OrderService.AtomicOrderCreation | src/services/orderService.js:7-74 | an order is created iff every line is orderable and the user exists; on any error the state is unchanged |
| OrderService.CommittedOrder | src/services/orderService.js:37-43 | the new header is `pendiente`, paid `efectivo`, with the computed total and points, under a fresh id; no other order changes |
| OrderService.CommittedItems | src/services/orderService.js:46-50 | one item row per line under fresh consecutive ids, each with the new order's id; earlier items are kept |
| OrderService.CommittedBalance | src/services/orderService.js:53-62 | only the buyer's balance rises, by exactly the order's points, and exactly one `acumulacion` entry of that amount for the new order is appended |
| OrderService.CreateOrderPricesFromCatalog | src/services/orderService.js:11-50 | a successful order's total is the catalog total of the request, and every item row holds its product's catalog price |
| OrderService.CreateOrderKeepsLedger | src/services/orderService.js:53-62 | order creation keeps every balance equal to the net of its log entries |
| OrderService.EmptyOrderAccepted | src/services/orderService.js:15 | an empty request is not refused: it writes an order with total 0 and 0 points |
| OrderService.NegativeQuantityStored | src/services/orderService.js:50 | `bulkCreate` skips the `cantidad >= 1` validator, so a negative quantity is stored and lowers the total |
| OrderService.OrderCreation | src/services/orderService.js:7-74 | as written: it succeeds iff every line is orderable and the user exists, answering the next order id; a pricing error writes nothing; a missing user fails with `NullUser` yet leaves one new order header and nothing else |
| OrderService.MissingUserLeavesOrder | src/services/orderService.js:37-43 | as written, a request for a missing user fails but leaves its order header behind |
| OrderService.CreateOrder | src/services/orderService.js:7-74 | the loop over the request and the writes on the connection produce exactly `AtomicOrderCreation`'s state and answer |
| OrderService.WriteOrder | src/services/orderService.js:33-73 | on the connection, after pricing: a missing user leaves every table as it was; otherwise exactly the `Committed` writes, and the answer is the next order id |
| OrderService.StatusUpdate | src/services/orderService.js:84-86 | null for a missing order, a validation error for a status outside the enumeration, otherwise only that order's `estado` changes |
| OrderService.UpdateStatus | src/services/orderService.js:84-86 | on the connection: the orders table and answer of `StatusUpdate`, and no other table changes |
| PaymentService.IntentCreation | src/services/paymentService.js:15-52 | an amount under 50 cents is refused with the minimum-amount message before the gateway is asked; a gateway failure writes nothing and answers the wrapped gateway message; otherwise exactly one pending row is added |
| PaymentService.IntentRecorded | src/services/paymentService.js:33-40 | the new row is `pending`, in `USD`, for the amount, owned by the payer, linked to no order and found by its intent id |
| PaymentService.CreatePaymentIntent | src/services/paymentService.js:15-52 | on the connection: the state and answer of `IntentCreation` |
| PaymentService.ConfirmPoints | src/services/paymentService.js:107 | one point per whole currency unit of the total |
| PaymentService.ClientRowsValid | src/services/paymentService.js:114-122 | the confirm path's item rows pass validation iff every client item asks for at least one unit |
| PaymentService.ClientRowsTotal | src/services/paymentService.js:97-99 | the total the client is charged is the sum of the item rows written for the order |
| PaymentService.Confirmation | src/services/paymentService.js:62-216 | as written: a gateway error or an unknown intent fails with nothing written |
| PaymentService.ConfirmMarksPaid | src/services/paymentService.js:79-88 | a paid intent marks the row `succeeded` with the charge id, method (default `card`) and last four digits, whatever happens afterwards |
| PaymentService.ConfirmCreatesOrder | src/services/paymentService.js:93-108 | with no order id and some items: one order `en_preparacion`, paid `tarjeta`, at the client's total and one point per unit, and the payment is linked to it |
| PaymentService.ConfirmCreditsWithoutLog | src/services/paymentService.js:114-129 | that confirmation writes one item row per client item, raises the buyer's balance by the order's points, and logs nothing |
| PaymentService.ConfirmUpdatesGivenOrder | src/services/paymentService.js:132-148 | with an order id: that order moves to `en_preparacion` / `tarjeta` and the payment is linked to it; nothing is created |
| PaymentService.ConfirmRecordsOtherStatus | src/services/paymentService.js:164-209 | `requires_action` stays `requires_action`, `processing` becomes `pending`, anything else becomes `failed` with the gateway's message or `Pago rechazado`; no order changes |
| PaymentService.ConfirmRefusedItemKeepsPaidMark | src/services/paymentService.js:83-88 | as written, an item refused by validation fails the call, yet the row stays `succeeded` with no order |
| PaymentService.ConfirmIgnoresCatalog | src/services/paymentService.js:97-99 | the confirm path's outcome does not depend on the catalog: client prices are trusted |
| PaymentService.ConfirmKeepsBalances | src/services/paymentService.js:124-129 | outside the new-order branch no balance changes and nothing is logged |
| PaymentService.ConfirmUnbalancesLedger | src/services/paymentService.js:124-129 | as written, creating an order with points leaves the buyer's balance ahead of the log by exactly those points |
| PaymentService.ConfirmAgain | src/services/paymentService.js:93 | after a confirmation that creates an order, the same intent is found on the same row for the same buyer |
| PaymentService.ConfirmTwiceCreatesTwoOrders | src/services/paymentService.js:93 | as written, confirming the same paid intent twice creates a second order |
| PaymentService.ConfirmTwiceCreditsTwice | src/services/paymentService.js:93-129 | as written, confirming the same paid intent twice credits the buyer twice |
| PaymentService.ConfirmLinksOrder | src/services/paymentService.js:144-161 | a settled confirmation answers success and leaves its row linked to the order the answer names |
| PaymentService.ConfirmNamesNewOrder | src/services/paymentService.js:150-161 | a confirmation that creates an order names that order in its answer |
| PaymentService.ConfirmedNotCounted | src/services/paymentService.js:83-88 | the confirm path leaves `fecha_confirmacion` null, so the revenue count never sees that payment |
| PaymentService.SettledConfirmation | src/services/paymentService.js:62-216 | corrected confirm: any error leaves the state exactly as it was |
| PaymentService.SettledPaid | src/services/paymentService.js:79-161 | corrected confirm of a paid, unsettled row: the settlement of the paid row plus one accrual entry when an order is created, or no change after a refused settlement |
| PaymentService.SettledConfirmationKeepsLedger | src/services/paymentService.js:124-129 | corrected confirm keeps every balance equal to the net of its log |
| PaymentService.SettledConfirmationIdempotent | src/services/paymentService.js:93 | corrected confirm applied twice gives the state of applying it once |
| PaymentService.ConfirmPayment | src/services/paymentService.js:62-216 | on the connection: the state and answer of `SettledConfirmation` |
| PaymentService.ConfirmPaid | src/services/paymentService.js:79-161 | the paid branch on the connection: the state and answer of `SettledConfirmation` |
| PaymentService.NewOrderWrites | src/services/paymentService.js:102-129 | the new-order writes succeed iff every client item asks for at least one unit, and the order gets the next id |
| PaymentService.SettleOutcome | src/services/paymentService.js:93-148 | with an order id, that order moves to `en_preparacion` / `tarjeta` and nothing is created; without one and with items, a new order under the next id unless an item is refused; with neither, no change; the row is linked to the resulting order |
| PaymentService.SettleOnDb | src/services/paymentService.js:93-148 | the settlement on the connection equals `Settle`, in state and answer |
| PaymentService.WriteNewOrder | src/services/paymentService.js:102-129 | the header, one validated item row per client item and the credit, as `NewOrderWrites` |
| PaymentService.RecordUnpaid | src/services/paymentService.js:164-209 | the unpaid branches on the connection: the state and answer of `SettledConfirmation` |
| PaymentService.Refund | src/services/paymentService.js:224-272 | an unknown intent fails with `Transacción no encontrada`, a row not `succeeded` with `Solo se pueden reembolsar pagos exitosos`, a gateway error with the wrapped gateway message and a refused update with the validation message, each writing nothing; otherwise the gateway's refund id and amount |
| PaymentService.RefundRefusedAsWritten | src/services/paymentService.js:245-248 | as written, the validator refuses `refunded`, so every refund fails and changes nothing |
| PaymentService.RefundSettles | src/services/paymentService.js:245-256 | corrected: the row becomes `refunded`, `descripcion` gains ` - Reembolsado: $X`, its order is cancelled, and nothing else changes |
| PaymentService.RefundOnce | src/services/paymentService.js:234-236 | corrected: a refunded payment cannot be refunded again |
| PaymentService.RefundPayment | src/services/paymentService.js:224-272 | on the connection: the state and answer of the corrected `Refund` |
| WebhookMiddleware.StatusCode | src/middlewares/webhookMiddleware.js:20-26 | 400 iff the signature check failed, 200 iff the event was received |
| WebhookMiddleware.HandleWebhook | src/middlewares/webhookMiddleware.js:14-56 | a failed signature answers 400 and changes nothing; every verified event answers `received`; an unknown event type changes nothing |
| WebhookMiddleware.UnmatchedIgnored | src/middlewares/webhookMiddleware.js:66-69 | an event whose transaction is missing is received and changes nothing |
| WebhookMiddleware.WebhookCreatesNothing | src/middlewares/webhookMiddleware.js:14-183 | no handler adds or removes a row anywhere, and only transaction and order rows change |
| WebhookMiddleware.OnSucceeded | src/middlewares/webhookMiddleware.js:62-94 | a missing row changes nothing; otherwise the row is `succeeded` with the event time, and no row is added or removed outside transactions and orders |
| WebhookMiddleware.OnFailed | src/middlewares/webhookMiddleware.js:100-122 | a missing row changes nothing; otherwise the row is `failed` with the event time, and no order changes |
| WebhookMiddleware.OnRefunded | src/middlewares/webhookMiddleware.js:128-158 | a missing charge, or an update the validator refuses, changes nothing; otherwise the row is `refunded` |
| WebhookMiddleware.OnCanceled | src/middlewares/webhookMiddleware.js:164-183 | a missing row changes nothing; otherwise the row is `canceled`, and no order changes |
| WebhookMiddleware.SucceededMarksPaid | src/middlewares/webhookMiddleware.js:72-88 | the row is marked `succeeded` with charge metadata and the event time, and its order, if any, moves to `en_preparacion` |
| WebhookMiddleware.FailedMarksFailed | src/middlewares/webhookMiddleware.js:109-116 | the row becomes `failed` with the gateway's message or `Pago rechazado` and the event time, whatever its prior state |
| WebhookMiddleware.CanceledMarksCanceled | src/middlewares/webhookMiddleware.js:174-177 | the row becomes `canceled` and ` - Cancelado` is appended to its description |
| WebhookMiddleware.RefundedAmount | src/middlewares/webhookMiddleware.js:143 | the first refund's amount when it is a non-zero number, else the charge's amount |
| WebhookMiddleware.RefundedIgnoredAsWritten | src/middlewares/webhookMiddleware.js:141-145 | as written, the validator refuses `refunded`, so a refund event changes nothing, not even the order |
| WebhookMiddleware.RefundedCancelsOrder | src/middlewares/webhookMiddleware.js:131-152 | corrected: the row found by charge id becomes `refunded` with the amount recorded, and its order is cancelled |
| WebhookMiddleware.MoveOrderTwice | src/middlewares/webhookMiddleware.js:80-85 | moving an order to a status twice is moving it once |
| WebhookMiddleware.SucceededTwice | src/middlewares/webhookMiddleware.js:72-88 | a redelivered succeeded event changes nothing more |
| WebhookMiddleware.FailedAfterSucceeded | src/middlewares/webhookMiddleware.js:100-122 | handlers check no prior state: a late failure turns a paid row into a failed one, and the order stays in preparation |
| WebhookMiddleware.HandleStripeWebhook | src/middlewares/webhookMiddleware.js:14-56 | on the connection: the state and reply of `HandleWebhook` with the corrected validation |
| WebhookMiddleware.HandleSucceeded | src/middlewares/webhookMiddleware.js:62-94 | on the connection: the state `OnSucceeded` gives |
| WebhookMiddleware.HandleFailed | src/middlewares/webhookMiddleware.js:100-122 | on the connection: the state `OnFailed` gives |
| WebhookMiddleware.HandleRefunded | src/middlewares/webhookMiddleware.js:128-158 | on the connection: the state `OnRefunded` gives |
| WebhookMiddleware.HandleCanceled | src/middlewares/webhookMiddleware.js:164-183 | on the connection: the state `OnCanceled` gives |
| Repository.Lookup | src/repositories/BaseRepository.js:12-14 | the row stored under the key, or null iff there is none |
| Repository.FirstKey | src/repositories/BaseRepository.js:17-19 | the smallest id whose row satisfies the filter; none iff no row does |
| Repository.Find | src/repositories/BaseRepository.js:17-19 | a stored row satisfying the filter, or null iff none does |
| Repository.Insert | src/repositories/BaseRepository.js:22-24 | the row goes under a fresh id and every other row is kept |
| Repository.InsertAllAt | src/repositories/BaseRepository.js:22-24 | the i-th bulk-created row is stored under the i-th fresh id |
| Repository.InsertAllRange | src/repositories/BaseRepository.js:22-24 | bulk-created rows occupy exactly the ids from the old next id on |
| Repository.Modify | src/repositories/BaseRepository.js:27-32 | only the row under the id is rewritten; a missing id changes nothing |
| Repository.Window | src/repositories/transactionRepository.js:23-24 | the first `offset` rows are skipped and at most `limit` rows follow, in order |
| Repository.WindowAdjacent | src/repositories/transactionRepository.js:23-24 | a page of `first` rows followed by the next page of `second` rows is the page of `first + second` rows |
| Repository.WindowSubMultiset | src/repositories/transactionRepository.js:23-24 | a page holds no row more often than the listing it is cut from |
| Repository.Select | src/repositories/transactionRepository.js:17 | exactly the rows satisfying the filter, in order |
| Repository.SelectOne | src/repositories/transactionRepository.js:17 | filtering one row keeps it exactly when it satisfies the filter |
| Repository.SelectAppend | src/repositories/transactionRepository.js:17 | filtering distributes over concatenation, so each selected row keeps its place and its multiplicity |
| Repository.SelectScanCount | src/repositories/transactionRepository.js:45-51 | the number of rows a filtered scan returns is the number of stored ids whose row satisfies the filter |
| Repository.ScanBelowRows | src/repositories/BaseRepository.js:7-9 | a scan lists exactly the stored rows |
| Repository.BaseRepository.GetById | src/repositories/BaseRepository.js:12-14 | the record with that key, or null |
| Repository.BaseRepository.GetOne | src/repositories/BaseRepository.js:17-19 | a record satisfying the filter, or null iff none does |
| Repository.BaseRepository.Create | src/repositories/BaseRepository.js:22-24 | a valid row is added under a fresh id and nothing else changes; an invalid one is refused |
| Repository.BaseRepository.Update | src/repositories/BaseRepository.js:27-32 | null for a missing id; otherwise only that record is rewritten, if it still validates |
| Repository.BaseRepository.Delete | src/repositories/BaseRepository.js:35-41 | null for a missing id; otherwise exactly that record is removed and the answer is true |
| Store.CreditLogged | src/services/orderService.js:53-62 | crediting a user and logging the same amount keeps the ledger balanced |
| Store.CreditUnlogged | src/services/paymentService.js:124-129 | crediting without a log entry unbalances the ledger by exactly the amount |
| Store.Db.Restore | src/services/paymentService.js:211-215 | a rollback returns every table to the saved state |
| TransactionRepository.IntentKey | src/repositories/transactionRepository.js:10-12 | the id of a row carrying the intent id, or none iff no row does |
| TransactionRepository.GetByPaymentIntentId | src/repositories/transactionRepository.js:10-12 | a transaction whose intent id is the argument, or null iff there is none |
| TransactionRepository.IntentKeyStable | src/repositories/transactionRepository.js:10-12 | rewriting the found row without changing its intent id keeps it the one found |
| TransactionRepository.IntentKeyInserted | src/repositories/transactionRepository.js:10-12 | a new row is found by its intent id when no earlier row carries it |
| TransactionRepository.InsertByDateSorted | src/repositories/transactionRepository.js:22 | inserting into a newest-first run keeps it newest-first |
| TransactionRepository.SortByDate | src/repositories/transactionRepository.js:22 | the rows sorted newest first, as a permutation of the input |
| TransactionRepository.WindowNewerFirst | src/repositories/transactionRepository.js:22-24 | a page of a sorted listing is sorted |
| TransactionRepository.ChargeKey | src/middlewares/webhookMiddleware.js:131-134 | the id of a row carrying the charge id, or none iff no row does |
| TransactionRepository.UserTransactions | src/repositories/transactionRepository.js:15-26 | only the user's rows, newest first: exactly the window at `offset`, of length `min(limit, rows left)`, of a newest-first permutation of all the user's rows |
| TransactionRepository.UserTransactionsStored | src/repositories/transactionRepository.js:15-26 | every listed row is a stored row; every page is a sub-multiset of the user's rows; a first page large enough is a permutation of them |
| TransactionRepository.UserPagesAdjacent | src/repositories/transactionRepository.js:15-26 | consecutive pages concatenate to the larger page, so paging neither skips nor repeats a row |
| TransactionRepository.ByStatus | src/repositories/transactionRepository.js:29-40 | only rows in that state, newest first: exactly the window at `offset`, of length `min(limit, rows left)` (default 100), of a newest-first permutation of all rows in that state |
| TransactionRepository.CountSuccessful | src/repositories/transactionRepository.js:43-52 | the number of stored rows that are `succeeded` with a confirmation time in the range |
| TransactionRepository.SumSuccessful | src/repositories/transactionRepository.js:55-65 | count and sum select the same rows, so a count of 0 means a sum of 0 |
| TransactionRepository.SumSuccessfulWrite | src/repositories/transactionRepository.js:55-65 | rewriting a stored row changes the sum by the new row's contribution minus the old one's (`monto` when succeeded in range, else 0) |
| TransactionRepository.SumSuccessfulInsert | src/repositories/transactionRepository.js:55-65 | a new row adds its own contribution to the sum, so the sum is `monto` summed over exactly the counted rows |
| TransactionRepository.SumSuccessfulNonNegative | src/repositories/transactionRepository.js:55-65 | over valid rows the revenue sum is never negative |
| TransactionRepository.CountedRowsSucceeded | src/repositories/transactionRepository.js:43-52 | each counted row is a stored succeeded row confirmed within the range |
| TransactionRepository.SucceededRowsCounted | src/repositories/transactionRepository.js:43-52 | conversely, each stored succeeded row confirmed within the range is counted |
| ProductService.GetProductById | src/services/productService.js:9-13 | the product under the id, or `Producto no encontrado` iff there is none |
| ProductService.CreateProduct | src/services/productService.js:15-18 | no check of its own: created iff the model's validation accepts the fields |
| ProductService.UpdateProduct | src/services/productService.js:20-24 | a missing product is a failed update; a negative price is refused; otherwise only that product takes the supplied fields |
| ProductService.DeleteProduct | src/services/productService.js:26-30 | a missing product is a failed delete; otherwise exactly that product is removed and the answer is true |
| ProductService.PatchValidity | src/models/Product.js:7-11 | an update keeps a valid product valid iff it supplies no negative price |
| PaymentController.RequestedAmount | src/controllers/paymentController.js:12 | `amount` when truthy, else `monto` |
| PaymentController.IntentDescription | src/controllers/paymentController.js:30 | the given description, else `Pago para orden #` and the order id or `general` |
| PaymentController.CreateIntent | src/controllers/paymentController.js:9-47 | 400 iff the amount is missing, zero or negative, with nothing called; otherwise the service's result, 201 on success and 500 on an error |
| PaymentController.SmallAmountRefusedBelow | src/controllers/paymentController.js:17-27 | a positive amount under 50 cents passes the controller and is refused by the service, writing nothing |
| PaymentController.CreatedIntentDescribed | src/controllers/paymentController.js:25-30 | a created intent's row records the controller's description and the amount in cents |
| PaymentController.ConfirmIntentId | src/controllers/paymentController.js:52 | `paymentIntentId` when present, else `payment_intent_id` |
| PaymentController.ConfirmWith | src/controllers/paymentController.js:65 | the as-written wiring calls `Confirmation`, the corrected one `SettledConfirmation`; a gateway error fails with nothing written |
| PaymentController.Confirm | src/controllers/paymentController.js:49-77 | 400 without an intent id, with nothing called; otherwise, for the wired service, 200 iff it reports success, 400 for any other answer, 500 for an error |
| PaymentController.ConfirmRefusedItemAnswers500 | src/controllers/paymentController.js:65-72 | as wired, a paid intent with a zero-quantity item answers 500 while its row stays `succeeded` and no order is written |
| PaymentController.RefundAccepts | src/controllers/paymentController.js:90 | the as-written wiring validates the refunded row with the model's `isIn` list, the corrected one accepts `refunded` |
| PaymentController.RefundRequest | src/controllers/paymentController.js:79-101 | 400 without an intent id; otherwise, for the wired service, 200 iff the refund succeeds, 500 for an error |
| PaymentController.RefundAnswers500AsWritten | src/controllers/paymentController.js:83-96 | as wired, every refund request with an intent id answers 500 and changes nothing; a succeeded, refunded payment gets the refused-state message |
| PaymentController.RevenueStats | src/controllers/paymentController.js:148-170 | missing dates answer 400 with the required-dates message, an unparseable date 400 with `Formato de fecha inválido`; otherwise 200 with the count and sum of succeeded payments in the range |
| PaymentController.RevenueConsistent | src/controllers/paymentController.js:163-168 | the reported total is never negative, and it is 0 when nothing is counted |
| AuthMiddleware.ExtractToken | src/middlewares/authMiddleware.js:8-10 | a token only from a header starting with `Bearer`, and then the second space-separated field |
| AuthMiddleware.Protect | src/middlewares/authMiddleware.js:8-31 | 401 with no token or an empty one; 401 for a token that fails verification; otherwise the request goes on with the decoded claims |
| AuthMiddleware.RestrictTo | src/middlewares/authMiddleware.js:38-45 | the request goes on iff the role is listed, else 403 |
| AuthMiddleware.BearerRoundTrip | src/middlewares/authMiddleware.js:8-10 | `Bearer <token>` yields exactly the token, for a token without spaces |
| AuthMiddleware.GluedTokenRefused | src/middlewares/authMiddleware.js:8-17 | a header starting with `Bearer` but with no space is refused as not logged in |
| AuthMiddleware.SignedTokenAdmitted | src/middlewares/authMiddleware.js:27-31 | a signed token sent as a bearer header passes with the claims it was signed with |
| AuthService.Hashed | src/models/User.js:40-45 | a non-empty password is replaced by its hash and nothing else changes |
| AuthService.Register | src/services/authService.js:8-21 | a taken e-mail fails and adds no user; otherwise a valid user is stored with its password hashed and returned without it; e-mails stay unique |
| AuthService.Login | src/services/authService.js:24-45 | an unknown e-mail and a wrong password both fail with `Credenciales inválidas.`; a session carries the stored user and a token signed over its id, role and name |
| AuthService.LoginFindsUser | src/services/authService.js:24-45 | with unique e-mails, a stored user logs in iff the password matches the stored hash |
| AuthService.LoginTokenAdmitted | src/services/authService.js:38-39 | the token login hands out passes `protect` with the user's claims |
| AppCors.Whitelist | src/app.js:18 | `ALLOWED_ORIGINS` split on `,`, or empty when unset |
| AppCors.OriginAllowed | src/app.js:21-28 | allowed iff there is no origin, the list holds `*`, or the origin is listed; otherwise the CORS error |
| AppCors.UnsetAdmitsNoOrigin | src/app.js:18-27 | with the setting unset, any origin is refused |
| AppCors.JoinedSettingAdmits | src/app.js:18-23 | a setting written as comma-joined origins admits exactly those origins, or all of them with `*` |
| AppCors.CommaOriginNeedsWildcard | src/app.js:18-23 | an origin containing a comma passes only through `*` |
| OrderModel.ParseStatus | src/models/Order.js:6-10 | a stored status string is accepted iff it is in the enumeration |
| OrderModel.ParseWire | src/models/Order.js:6-10 | every status is stored as an accepted string and reads back as itself |
| OrderModel.Build | src/models/Order.js:5-15 | created iff owner and total are given and the status is in the enumeration; `estado` defaults to `pendiente`, points to 0 |
| OrderItemModel.Build | src/models/OrderItem.js:5-9 | created iff order, product, quantity and unit price are given and `cantidad >= 1`; notes are optional |
| OrderItemModel.LineTotalAppend | src/models/OrderItem.js:7-8 | line totals add up over concatenation |
| OrderItemModel.LineTotalNonNegative | src/models/OrderItem.js:7-8 | valid lines at non-negative prices never charge a negative amount |
| TransactionModel.ParseState | src/models/Transaction.js:21-25 | a stored state string is recognised iff it is one of the five listed states or `refunded` |
| TransactionModel.ParseWire | src/models/Transaction.js:21-25 | every state reads back as itself |
| TransactionModel.ValidAsWrittenDiffers | src/models/Transaction.js:21-25 | the listed enumeration refuses exactly the refunded rows the corrected one accepts |
| TransactionModel.Build | src/models/Transaction.js:5-25 | created iff owner and amount are given, `monto >= 0` and the state is listed; `moneda` defaults to `USD`, `pedido_id` is nullable |
| TransactionModel.ApplyKeepsIdentity | src/models/Transaction.js:5-20 | an update never changes owner, intent id, amount or currency, is idempotent and keeps a valid row valid |
| LoyaltyLogModel.ParseKind | src/models/LoyaltyLog.js:7-11 | a movement kind is accepted iff it is `acumulacion`, `canje` or `ajuste_manual` |
| LoyaltyLogModel.ParseWire | src/models/LoyaltyLog.js:7-11 | every kind reads back as itself |
| LoyaltyLogModel.Build | src/models/LoyaltyLog.js:5-16 | created iff owner, kind and amount are given and the kind is listed; `pedido_id` is optional |
| LoyaltyLogModel.LogSumAppend | src/models/LoyaltyLog.js:5-12 | appending a movement changes only its owner's net points, by its amount |
| ProductModel.Build | src/models/Product.js:5-14 | created iff name, price and category are given and `precio >= 0`; `disponible` defaults to true |
| UserModel.ParseRole | src/models/User.js:22-26 | a role is accepted iff it is `cliente`, `admin` or `staff` |
| UserModel.ParseWire | src/models/User.js:22-26 | every role reads back as itself |
| UserModel.Build | src/models/User.js:6-34 | created iff the name is non-empty and the e-mail is well formed; `rol` defaults to `cliente`, `puntos_actuales` to 0 |
| Text.JoinSplit | src/app.js:18 | joining the parts of a split gives back the string |
| Text.SplitJoin | src/app.js:18 | splitting a join of separator-free parts gives back the parts |

## Left out

- Stripe: `paymentIntents.create`/`retrieve`, `refunds.create` and
  `webhooks.constructEvent` are not called. Their answers are parameters.
  `checkPaymentStatus` (src/services/paymentService.js:279-303) only relays the
  gateway's answer and is not modelled. The refund amount a client requests
  reaches only the gateway, so the model takes the gateway's refund as given.
- `getRevenueStats` in the service (src/services/paymentService.js:315-327):
  its `parseFloat`, `toFixed` and `toISOString` formatting is floating-point and
  date work. The controller's figures are modelled as the count and the sum in
  cents.
- `getUserTransactions` in the service and controller only forward to the
  repository query, which is modelled.
- The `include` joins of `getAll`, `getAllProducts`/`getAllWithCategories` and
  the order repository are not modelled. Neither are `getMyOrders` and
  `getAllOrders`.
- `TransactionRepository.SortByDate`: rows with equal `fecha_creacion` keep
  their id order. The database leaves that order unspecified.
- HTTP plumbing: routes, server start-up, the Swagger setup, the request
  logger and the error middleware. The other controllers and the dashboard's
  raw SQL are out too.
- The webhook's outer `500` catch (src/middlewares/webhookMiddleware.js:52-55)
  cannot fire, because every handler swallows its own errors.
- bcrypt and JWT are parameters: `hash`, `matches`, `sign` and `verify`. Token
  expiry is part of `verify`. The `beforeUpdate` hook is not modelled, because
  no modelled operation updates a user's password.
- `loyaltyController.adjustPoints` calls a service function that does not exist,
  so there is nothing to model. The balance and history reads are plain lookups.
- The missing `Transaction` export of src/models/index.js is a wiring defect and
  is not modelled. Foreign-key constraints between tables are not modelled
  either.
- Concurrency is not modelled: there is no row locking, and the race between the
  webhook and confirm is out. Only sequential interleavings are modelled.
- Timestamps are opaque integers supplied by the caller.
- Floating point: `DECIMAL(10,2)` amounts are integer cents. Fractional cents
  and non-number request fields are not modelled. JavaScript's
  `refund.amount / 100` prints without trailing zeros (`12.5`); `Text.DollarsText`
  renders the same text.
- Client items with missing fields are not modelled: every client item carries
  its product, quantity and unit price.
- PaymentService.ChargePatch and WebhookMiddleware.SucceededPatch: a paid intent
  without a `charges` list (gateway API versions from 2022-11-15 omit it) makes
  `paymentIntent.charges.data[0]` throw a `TypeError`. The confirm path then
  rolls back, writes nothing and answers 500, and the succeeded webhook swallows
  the error and changes nothing. The model reads a missing list as no charge, so
  both mark the row `succeeded` with a null charge id and method `card`.
- ProductService.CreateProduct: when several validators fail, Sequelize's
  message lists every failure. The model's message names only the first
  failing field.
- AuthService.Register: as for products, the validation message names only the
  first failing field, whereas Sequelize lists every failure.
- Repository.BaseRepository.Update: Sequelize validates only the changed
  attributes on `record.update`. The model re-validates the whole row, which
  agrees for every update the services make.

## Findings

| source | as written | input that shows it | evidently intended | confidence | as-written member | corrected member |
|---|---|---|---|---|---|---|
| src/services/paymentService.js:245-248 | the refund writes `estado: 'refunded'`, which the `isIn` list of src/models/Transaction.js:24 refuses; the update throws, so the refund always fails after the gateway has returned the money | any `succeeded` payment with a successful gateway refund | `refunded` is an accepted state; the row becomes `refunded` and its order is cancelled | high, not executed | PaymentService.RefundRefusedAsWritten | PaymentService.RefundSettles |
| src/middlewares/webhookMiddleware.js:141-145 | the same refused update makes `charge.refunded` a silent no-op: the row keeps its state and the order is not cancelled | a `charge.refunded` event for a stored charge | the row becomes `refunded` and its order `cancelado` | high, not executed | WebhookMiddleware.RefundedIgnoredAsWritten | WebhookMiddleware.RefundedCancelsOrder |
| src/services/paymentService.js:124-129 | the confirm path credits `puntos_actuales` but writes no loyalty log entry, unlike src/services/orderService.js:57-62 | a paid intent with no order id, one item of 1000 cents × 1 | each credit has an `acumulacion` entry, so balance = net of the log | high, not executed | PaymentService.ConfirmUnbalancesLedger | PaymentService.SettledConfirmationKeepsLedger |
| src/services/paymentService.js:93 | the guard looks only at the `orderId` argument, so confirming the same paid intent again creates and credits a second order | the same paid intent confirmed twice with no order id and one item | an intent already settled against an order is answered without writing | high, not executed | PaymentService.ConfirmTwiceCreatesTwoOrders | PaymentService.SettledConfirmationIdempotent |
| src/services/paymentService.js:83-88 | the paid mark is written through `BaseRepository.update`, which drops the `{ transaction }` option, so the rollback after a refused item keeps the row `succeeded` with no order | a paid intent with no order id and one item of quantity 0 | an error rolls back every write, the paid mark included | medium, not executed | PaymentService.ConfirmRefusedItemKeepsPaidMark | PaymentService.SettledConfirmation |
| src/services/orderService.js:37-43 | the order header is created through `BaseRepository.create`, which drops the `{ transaction }` option, so a missing user rolls back everything but the header | a request with orderable lines for a user id not in `users` | on any error nothing is written | medium, not executed | OrderService.MissingUserLeavesOrder | OrderService.AtomicOrderCreation |
