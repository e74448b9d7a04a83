# Order creation workflow, modelled in Dafny

This project models `CreateOrderService.execute` from an e-commerce backend. The
workflow creates a customer order from a list of requested products:

1. Look up the customer; a missing customer aborts the call.
2. Read the requested products from the catalog.
3. Existence check: every requested id must be among the ids the catalog returned.
4. Stock check: no requested quantity may exceed the catalog quantity of the first catalog
   entry with that id.
5. Build one line item per requested product, with the price copied from the catalog.
6. Hand the line items to the order ledger.
7. Write back, for every order product the ledger returns, the catalog quantity read in
   step 2 minus the ordered quantity. This is a full overwrite, not a relative decrement.

Files:

- `filter.dfy`, module `Filters`: the `.filter(...)` idiom the workflow is built from.
  The predicate may be partial. `filter(...)[0]` is the first element the predicate accepts.
- `orders.dfy`, module `Orders`: the entities (request entries, catalog products, line
  items, stored order products, quantity updates, the error kinds). It also holds the pure
  decision logic: `Validate` (existence, then stock, then line items) and `NewQuantities`
  (the stale-read write-back). The lemmas characterise both against the catalog directly.
  `NotListed` (line 45) and `ExceedsStock` (lines 55-57) are the two filter predicates that
  `Validate` uses. They are stated only through the `Validate` lemmas.
- `service.dfy`, module `Repositories`: what the workflow observes of its collaborators.
  `Collaborators` is a class holding the log of calls made and the stored stock map, which
  `updateQuantity` overwrites. `Overwrite` is the overwrite semantics. The `Collaborators`
  constructor models nothing in the source. It only sets the initial state: an empty call
  log and a given stock.
- `service.dfy`, module `CreateOrderService`: `Run` is the planned outcome and calls of one
  execution, as a function. `OrderService.Execute` is the imperative workflow over the
  collaborators, proved to do exactly what `Run` plans. Lemmas relate both to the stock.

The repositories' answers are parameters: the customer lookup (`Option<Customer>`), the
catalog's answer `found`, and the order `stored` that the ledger returns. The quirks of the
source are kept on purpose:

- the write-back reuses the catalog quantities read before the order was created;
- repeated request ids are each checked against the same stock and are not summed;
- every lookup takes the first catalog entry with the id.

Line 82 would fail at run time if the ledger returned a product that the catalog read does
not contain. That case is the predicate `LedgerConsistent`, which `Run` and
`Execute` require. It is demanded only when the workflow gets that far.

## Model

| member | source | states |
|---|---|---|
| `Filters.Filter` | src/modules/orders/services/CreateOrderService.ts:44-46 | the kept elements come from the input and satisfy the predicate; every accepted input element is kept; the result is empty exactly when no element is accepted |
| `Filters.FilterHead` | src/modules/orders/services/CreateOrderService.ts:48-52 | element 0 of a filter result is the first input element the predicate accepts |
| `Orders.Ids` | src/modules/orders/services/CreateOrderService.ts:42 | the catalog ids, one per catalog entry, in catalog order |
| `Orders.Validate` | src/modules/orders/services/CreateOrderService.ts:42-70 | never reports a missing customer; a reported id is one of the request's ids; an invalid-product id is missing from the catalog ids; an insufficient-stock error comes only when every requested id is known, and its id is known; on success every id is known and there is one line item per request entry (which entry is reported, and when, is given by `ReportsFirstInvalid`, `ReportsFirstShortage`, `ValidateSucceedsIff` and `ValidatedItems`) |
| `Orders.FirstMatch` | src/modules/orders/services/CreateOrderService.ts:56 | the lookup is defined only for ids the catalog returned; it yields a catalog entry with that id |
| `Orders.FirstMatchAt` | src/modules/orders/services/CreateOrderService.ts:69 | the lookup yields the first catalog entry with the id, not any later duplicate |
| `Orders.FirstIndex` | src/modules/orders/services/CreateOrderService.ts:82 | every id the catalog returned has a first position, and the lookup returns the entry there |
| `Orders.ReportsFirstInvalid` | src/modules/orders/services/CreateOrderService.ts:42-52 | a request with an id missing from the catalog fails with an invalid-product error naming the first such id in request order |
| `Orders.MissingBeforeShortage` | src/modules/orders/services/CreateOrderService.ts:44-64 | any missing id makes the result an invalid-product error, whatever the quantities: existence is checked before stock |
| `Orders.ReportsFirstShortage` | src/modules/orders/services/CreateOrderService.ts:54-64 | with every id known, the first request entry whose quantity strictly exceeds the first matching catalog quantity is reported as insufficient stock |
| `Orders.ValidateSucceedsIff` | src/modules/orders/services/CreateOrderService.ts:44-64 | validation succeeds if and only if every id is known and every requested quantity is at most the first matching catalog quantity (equal passes) |
| `Orders.Serialize` | src/modules/orders/services/CreateOrderService.ts:66-70 | one line item per requested product |
| `Orders.ValidatedItems` | src/modules/orders/services/CreateOrderService.ts:66-70 | on success, item i has the id and quantity of request entry i and the price of the first catalog entry with that id |
| `Orders.NewQuantities` | src/modules/orders/services/CreateOrderService.ts:79-84 | one update per stored order product, in the same order, naming the same product |
| `Orders.NewQuantityAt` | src/modules/orders/services/CreateOrderService.ts:79-84 | update i is the catalog quantity read before the order (first matching entry) minus stored order product i's quantity |
| `Orders.EchoedQuantitiesNonNegative` | src/modules/orders/services/CreateOrderService.ts:54-84 | if the ledger echoes the validated line items, the ledger answer is consistent with the catalog and every written quantity is at least 0 |
| `Repositories.Overwrite` | src/modules/orders/services/CreateOrderService.ts:86 | after the write-back the stored products are the old ones plus every product an update names |
| `Repositories.OverwriteKeeps` | src/modules/orders/services/CreateOrderService.ts:86 | a product no update names keeps its stored quantity |
| `Repositories.OverwriteLast` | src/modules/orders/services/CreateOrderService.ts:86 | a named product ends with the quantity of the last update naming it, whatever it held before |
| `Repositories.Collaborators.FindById` | src/modules/orders/services/CreateOrderService.ts:32 | the customer lookup is recorded and changes no stored stock |
| `Repositories.Collaborators.FindAllById` | src/modules/orders/services/CreateOrderService.ts:38-40 | the catalog lookup is recorded with the request entries and changes no stored stock |
| `Repositories.Collaborators.Create` | src/modules/orders/services/CreateOrderService.ts:72-75 | the order creation is recorded with the customer and line items and changes no stored stock |
| `Repositories.Collaborators.UpdateQuantities` | src/modules/orders/services/CreateOrderService.ts:86 | the write-back is recorded and the stock becomes the overwrite of the old stock by the updates |
| `CreateOrderService.OrderService.constructor` | src/modules/orders/services/CreateOrderService.ts:22-29 | the service keeps the collaborators it is given |
| `CreateOrderService.Run` | src/modules/orders/services/CreateOrderService.ts:31-88 | no customer: a no-customer error after only the customer lookup; customer found: success exactly when validation succeeds, and a failed validation returns its own error after exactly the customer and catalog lookups; no failing run writes anything; a successful run returns exactly the stored order after the lookups, then the order creation, then the write-back computed from the stored order products |
| `CreateOrderService.OrderService.Execute` | src/modules/orders/services/CreateOrderService.ts:31-88 | returns what `Run` plans and makes exactly its calls in order; on failure the stock is unchanged; on success the stock is the overwrite by the stale-read quantities |
| `CreateOrderService.RunReportsFirstInvalid` | src/modules/orders/services/CreateOrderService.ts:32-52 | with the customer found, execute fails after the two lookups with an invalid-product error naming the first unknown id in request order |
| `CreateOrderService.RunReportsFirstShortage` | src/modules/orders/services/CreateOrderService.ts:32-64 | with the customer found and every id known, execute fails after the two lookups with an insufficient-stock error naming the first entry over its first-match stock |
| `CreateOrderService.StockAfterOrder` | src/modules/orders/services/CreateOrderService.ts:79-86 | after an order, a product named by a stored line holds the catalog quantity read earlier minus the last such line's quantity, independent of the stock in between |
| `CreateOrderService.StockUntouched` | src/modules/orders/services/CreateOrderService.ts:86 | after an order, a product no stored line names keeps its stock |
| `CreateOrderService.WorkedExample` | src/modules/orders/services/CreateOrderService.ts:31-88 | stock P1 = 5 at price 10 and P2 = 3 at price 20; a request for 2 of P1 and 3 of P2 succeeds; the line items are (P1, 2, 10) and (P2, 3, 20); the write-back is P1 = 3, P2 = 0 |
| `CreateOrderService.DuplicatesCheckedSeparately` | src/modules/orders/services/CreateOrderService.ts:54-84 | with stock 5, two request lines of 3 for the same product both pass; each write-back entry is 2; the stored result is 2 |

## Left out

- Dependency injection and decorators (lines 1 and 20-29): the collaborators are passed to the `OrderService` constructor.
- `async`/`await`: each collaborator call is an ordinary sequential step. The lost-update race between the read at line 38 and the write at line 86 is not modelled. Only the deterministic stale-read formula is kept.
- The repositories' own code is not part of this model. `findById`, `findAllById` and the ledger's `create` are represented only by their answers, which are parameters of `Run` and `Execute`. How the ledger assigns identities and which catalog entries `findAllById` returns (and in what order) are not modelled.
- `Repositories.Overwrite`: the storage semantics of `updateQuantity` are an assumption. It is taken as a sequential overwrite, where a later entry for the same product wins.
- Collaborator failures are not modelled: every call succeeds. So the missing compensation after a failure at lines 72-86 (an order committed with stock not written back) is not represented.
- Calling `execute` twice is not stated. Each call's catalog read is a parameter, so repeated decrements depend on what the caller supplies.
- `AppError` and its messages: the error kinds `NoCustomer`, `InvalidProduct(id)` and `InsufficientStock(id)` carry the offending id instead of the message text.
- JavaScript `number`: quantities are unbounded integers. There is no floating-point rounding and no overflow. A price is a `real` that is copied and never computed with.
- The requested quantities are not checked for positivity, as in the source.
