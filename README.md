# RG Plastic ERP backend — a verified model of its stock ledger and services

This project models the core of an ERP backend for a plastics manufacturer, written in Dafny.
The backend is a Node.js/Express service over PostgreSQL.

At its centre is the stock ledger:
- `products.current_stock`, a denormalised counter;
- the append-only `inventory_movements` table;
- the two primitives that keep them in step (`createEntryMovement`, `createExitMovement`).

Around the ledger are the operations that use it inside one transaction:
- creating a sales order (credit check, stock check, header, lines, stock decrement, EXIT movements);
- registering the consumption of raw material for a production order;
- registering a finished production batch.

Around those are the smaller pieces of pure logic the services and controllers share:
- `camelToSnakeCase` and the dynamic UPDATE builders;
- the `$n` placeholder and WHERE builders and the pagination arithmetic;
- the attendance upsert and the payroll formula;
- the costing, cost-analysis and profit arithmetic;
- the best-effort audit log;
- the controllers' guards and error-to-status mappings;
- the role check.

## How the model is organised

| file | module | models |
|---|---|---|
| `wrappers.dfy` | `Wrappers` | `Option` and `Result` |
| `text.dfy` | `Text` | `camelToSnakeCase`, decimal rendering of ids, `includes`, `join` |
| `query.dfy` | `Query` | placeholders, paging, step-by-step condition lists, the dynamic UPDATE builder |
| `database.dfy` | `Database` | the tables, the errors, the ledger invariant, a connection (`Db`) with BEGIN/COMMIT/ROLLBACK/release |
| `inventory.dfy` | `Inventory` | `inventory.service.js` |
| `sales.dfy` | `Sales` | `sales.service.js` |
| `production.dfy` | `Production` | `production.service.js` |
| `hhrr.dfy` | `HumanResources` | `hhrr.service.js` |
| `finances.dfy` | `Finances` | `finances.service.js` |
| `audit.dfy` | `Audit` | `audit.service.js` |
| `http.dfy` | `Http` | the response shape and the tests the controllers share |
| `inventory_controller.dfy`, `production_controller.dfy`, `sales_controller.dfy` | `InventoryController`, `ProductionController`, `SalesController` | the three controllers |
| `role_middleware.dfy` | `RoleMiddleware` | `checkRole` |

Each service that runs SQL statements has two parts:
- A specification function from the tables before the call to a `Step`. The `Step` holds the thrown error or returned row, and the tables the statements leave behind.
- An imperative method on the `Db` class, proved equal to that function.

`Settle` states what persists:
- a service that opened its own transaction rolls back to the state before the call when it fails;
- with a caller-supplied client it issues no BEGIN, COMMIT, ROLLBACK or release, and leaves its writes to the caller's transaction.

The connection's `txLog` records the transaction commands issued, so "no BEGIN/COMMIT/ROLLBACK with an existing client" is a postcondition.

The ledger invariant `Consistent` says two things:
- every movement names an existing product;
- every product's stock equals the signed sum of its movements.

`NonNegative` says no stock is negative. Each ledger operation is proved to preserve `Consistent`. Each is proved to preserve `NonNegative` where the code allows it.

## Model

| member | source | states |
|---|---|---|
| Text.CamelToSnake | src/modules/inventory/inventory.service.js:8 | the result contains no ASCII upper-case letter and is at least as long as the input |
| Text.CamelToSnakeFixesLower | src/modules/inventory/inventory.service.js:8 | a key without upper-case letters is left unchanged |
| Text.CamelToSnakeIdempotent | src/modules/sales/sales.service.js:6 | converting twice equals converting once |
| Text.CamelToSnakeAppend | src/modules/hhrr/hhrr.service.js:3 | the conversion works letter by letter: it distributes over concatenation |
| Text.CamelToSnakeUpper | src/modules/inventory/inventory.service.js:8 | one upper-case letter becomes `_` followed by its lower-case form |
| Text.CamelToSnakeOneHump | src/modules/inventory/inventory.service.js:8 | a key with one upper-case letter between lower-case parts gets exactly `_` plus that letter in lower case at that spot |
| Text.NatToString | src/modules/sales/sales.service.js:160 | the decimal text of an id is non-empty and all digits |
| Text.ParseNatToString | src/modules/sales/sales.service.js:160 | reading the decimal text back gives the id (round trip) |
| Text.NatToStringInjective | src/modules/production/production.service.js:26 | distinct ids are written differently |
| Text.PrefixedIdsDistinct | src/modules/sales/sales.service.js:160 | two different ids written after the same prefix give different texts |
| Text.PrefixContains | src/modules/inventory/inventory.controller.js:157 | a message that starts with a text includes it |
| Text.MissingFirstCharNotContained | src/modules/inventory/inventory.controller.js:157 | a message lacking the first character of a text does not include it |
| Query.PlaceholderInjective | src/modules/inventory/inventory.service.js:105 | different positions never share a `$k` placeholder |
| Query.OrDefault | src/modules/finances/finances.service.js:27-28 | `parseInt(x) \|\| d`: a missing, non-numeric or zero value gives `d`, any other value is kept |
| Query.CeilDiv | src/modules/finances/finances.service.js:64 | `Math.ceil(a / b)`: the least multiple of a positive `b` not below `a` (and the mirror bound for negative `b`) |
| Query.Paginate | src/modules/finances/finances.service.js:27-29 | page defaults to 1 and limit to 10; offset = (page − 1) × limit; totalPages × limit is the least multiple of limit that covers totalItems |
| Query.LastPageIsLastNonEmpty | src/modules/hhrr/hhrr.service.js:20-42 | with a positive limit, the page numbered totalPages starts inside the items and the next one starts past them |
| Query.Push | src/modules/finances/finances.service.js:36-37 | pushing a filter appends its value to the parameters and a condition that refers to it by its own position `$n` |
| Query.Present | src/modules/finances/finances.service.js:35-46 | keeps exactly the declared filters whose value is truthy (`if (value)`: a missing value, `''`, `0` and `NaN` add no filter) |
| Query.Numbered | src/modules/finances/finances.service.js:35-46 | the declarative reference numbering: one condition and one parameter per given filter (conditions and parameters stay parallel) |
| Query.PushNumbered | src/modules/finances/finances.service.js:35-46 | testing one more filter extends the declarative numbering by exactly that filter when its value is truthy, and leaves it unchanged otherwise |
| Query.Pushed | src/modules/audit/audit.service.js:41-56 | testing filters in order and pushing each given one keeps conditions and parameters the same length |
| Query.PushedSnoc | src/modules/audit/audit.service.js:41-56 | testing one more filter extends what the earlier ones pushed |
| Query.PushedIsNumbered | src/modules/finances/finances.service.js:33-46 | the step-by-step builder yields exactly the declarative numbering, so condition k uses `$k` and matches parameter k |
| Query.LikePattern | src/modules/finances/finances.service.js:35-37 | a given text becomes the parameter `%text%`; an empty or missing one adds no filter |
| Query.Clause | src/modules/finances/finances.service.js:48 | the WHERE clause is empty exactly when there are no conditions |
| Query.Listing | src/modules/finances/finances.service.js:53-60 | LIMIT uses `$(n+1)` and OFFSET `$(n+2)`, and the data query binds limit and offset right after the n filter parameters |
| Query.SearchListing | src/modules/inventory/inventory.service.js:28-60 | a given search binds `%search%` at `$1` for both ILIKE columns with LIMIT/OFFSET at `$2`/`$3`; without one, LIMIT/OFFSET are at `$1`/`$2` |
| Query.Kept | src/modules/inventory/inventory.service.js:86-98 | the keys left after the deletes: none of the dropped keys, in the body's order |
| Query.KeptKeepsOthers | src/modules/inventory/inventory.service.js:86-98 | every entry whose key is not dropped survives the deletes |
| Query.KeptEmptyIff | src/modules/inventory/inventory.service.js:98-102 | nothing is left to update exactly when every key of the body is a dropped one |
| Query.BuildUpdate | src/modules/inventory/inventory.service.js:98-116 | an empty remainder returns the current row; otherwise the i-th remaining key writes column `snake(key)` from `$(i+1)` with its own value, a stamped statement then appends `updated_at = CURRENT_TIMESTAMP`, and the id is bound last, at `$(n+1)` |
| Query.BuildUpdateSingle | src/modules/inventory/inventory.service.js:104-116 | one remaining key `k` gives `snake(k) = $1` (then the stamp, when stamped) with the id at `$2` |
| Query.UpdatedAtColumn | src/modules/inventory/inventory.service.js:8 | the key `updatedAt` converts to the column `updated_at` |
| Query.StampCollides | src/modules/sales/sales.service.js:80-88 | in a stamped statement, a kept key whose column is `updated_at` assigns that column twice, which PostgreSQL rejects |
| Query.UpdateBindsEveryKeptKey | src/modules/inventory/inventory.service.js:104-108 | every key that is not dropped gets an assignment `snake(key) = $(i+1)` whose parameter i is that key's own value |
| Query.UpdateSkipsDropped | src/modules/inventory/inventory.service.js:89-91 | no assignment targets a dropped key |
| Database.BalanceAppend | src/modules/inventory/inventory.service.js:161-172 | appending a movement changes the signed sum of its product only, by its quantity |
| Database.BalanceUnreferenced | src/modules/inventory/inventory.service.js:16-17 | a product no movement names has balance 0 |
| Database.AddStock | src/modules/inventory/inventory.service.js:171-172 | `current_stock = current_stock + delta` changes that product's stock by exactly delta and nothing else |
| Database.Db.Begin | src/modules/inventory/inventory.service.js:159 | BEGIN records the current state and logs the command |
| Database.Db.Commit | src/modules/inventory/inventory.service.js:174 | COMMIT keeps the current state and closes the transaction |
| Database.Db.Rollback | src/modules/inventory/inventory.service.js:177 | ROLLBACK restores the state BEGIN recorded |
| Database.Db.Finish | src/modules/inventory/inventory.service.js:174-180 | COMMIT after success, ROLLBACK to the BEGIN state after failure, then release |
| Database.Db.Release | src/modules/inventory/inventory.service.js:180 | `client.release()` changes no table |
| Inventory.EntryStep | src/modules/inventory/inventory.service.js:154-182 | an entry on a missing product fails with 23503 and changes nothing; otherwise exactly one ENTRY movement of +q is appended, carrying the next id and the request's product, user, reference, notes and batch, and that product's stock rises by exactly q |
| Inventory.ExitStep | src/modules/inventory/inventory.service.js:191-231 | succeeds iff the product exists and its stock ≥ q; a missing product is "not found" and too little stock is the shortage error, both with no change; success appends one EXIT movement of −q, carrying the next id and the request's product, user, reference, notes and batch, and lowers only that stock by q |
| Inventory.WriteEntry | src/modules/inventory/inventory.service.js:161-172 | the statements of an entry leave the connection in the state `EntryStep` describes |
| Inventory.WriteExit | src/modules/inventory/inventory.service.js:200-218 | the statements of an exit leave the connection in the state `ExitStep` describes |
| Inventory.CreateEntryMovement | src/modules/inventory/inventory.service.js:154-182 | in its own transaction a failure leaves no trace; with a caller's client no BEGIN/COMMIT/ROLLBACK/release is issued and the error reaches the caller unchanged |
| Inventory.CreateExitMovement | src/modules/inventory/inventory.service.js:191-231 | the same transaction behaviour for exits |
| Inventory.LedgerStepKeepsConsistent | src/modules/inventory/inventory.service.js:166-172 | a movement plus a stock change of the same signed amount keeps stock = sum of movements |
| Inventory.EntryKeepsConsistent | src/modules/inventory/inventory.service.js:161-172 | an entry keeps the ledger invariant |
| Inventory.ExitKeepsConsistent | src/modules/inventory/inventory.service.js:208-218 | an exit keeps the ledger invariant |
| Inventory.ExitKeepsNonNegative | src/modules/inventory/inventory.service.js:205-206 | an exit never makes a stock negative |
| Inventory.EntryKeepsNonNegative | src/modules/inventory/inventory.service.js:171-172 | an entry keeps stocks non-negative provided its quantity is not negative |
| Inventory.NegativeEntryIsAccepted | src/modules/inventory/inventory.service.js:155-172 | nothing checks the sign: an entry of −5 on stock 0 succeeds, leaves −5 and breaks non-negativity |
| Inventory.ExitScenario | src/modules/inventory/inventory.service.js:200-218 | an exit of 3 from stock 10 leaves 7 and records a movement of −3; a following exit of 20 fails with the shortage error (available 7, requested 20) and leaves 7 |
| Inventory.ExitWholeStock | src/modules/inventory/inventory.service.js:205-206 | exiting exactly the whole stock is allowed and leaves 0 |
| Inventory.InsertProduct | src/modules/inventory/inventory.service.js:13-23 | a new product starts at stock 0, active, type FINISHED_PRODUCT and min_stock 0 by default; a SKU in use fails with 23505 and changes nothing |
| Inventory.InsertProductKeepsConsistent | src/modules/inventory/inventory.service.js:17 | a new product at stock 0 keeps stock = sum of movements |
| Inventory.CreateProduct | src/modules/inventory/inventory.service.js:13-23 | the insert leaves the tables `InsertProduct` describes |
| Inventory.UpdateProductPlan | src/modules/inventory/inventory.service.js:83-118 | id, updated_at and updatedAt are dropped; the current row is returned iff nothing else remains; otherwise the last assignment is `updated_at = CURRENT_TIMESTAMP` and the id is bound last, at `$(n+1)` |
| Inventory.UpdateProductSetsKey | src/modules/inventory/inventory.service.js:104-116 | a body with one updatable key sets that key's snake-case column from `$1`, then the stamp, with the id at `$2` |
| Inventory.ProductDropsTimestampKeys | src/modules/inventory/inventory.service.js:89-90 | a body of only `updatedAt` or only `updated_at` updates nothing, so neither spelling meets the appended stamp |
| Inventory.UpdateProductCanWriteStock | src/modules/inventory/inventory.service.js:83-116 | a body `{currentStock: v}` becomes `current_stock = $1` followed by the stamp: the generic update can overwrite the ledger's counter |
| Inventory.StockColumn | src/modules/inventory/inventory.service.js:8 | `currentStock` converts to `current_stock` |
| Sales.OrderTotal | src/modules/sales/sales.service.js:134-139 | total = subtotal + 0.16 × subtotal = 1.16 × Σ quantity × price |
| Sales.OrderTotalExample | src/modules/sales/sales.service.js:134-139 | lines 5 × 10 and 2 × 50 give subtotal 150, tax 24, total 174 |
| Sales.NothingUnpaidNothingOutstanding | src/modules/sales/sales.service.js:123-129 | with no PENDING or OVERDUE invoice for the client's orders the outstanding balance is 0 |
| Sales.StockFailure | src/modules/sales/sales.service.js:148-154 | no error iff every line's product exists with stock ≥ its quantity; an error names a failing line |
| Sales.SumLines | src/modules/sales/sales.service.js:133-136 | the subtotal loop yields the sum of quantity × price over all lines |
| Sales.CheckLines | src/modules/sales/sales.service.js:148-154 | the stock-check loop reports exactly the error `StockFailure` defines: none iff every line's product exists with enough stock, otherwise the first failing line's (unknown product or short stock) |
| Sales.PostLine | src/modules/sales/sales.service.js:168-172 | one order line: one order_products row, that product's stock lowered by its quantity, one EXIT movement of −quantity; nothing else changes |
| Sales.PostLines | src/modules/sales/sales.service.js:168-172 | the line loop adds exactly one row and one movement per line, keeps the product keys and touches no other table |
| Sales.PostLinesRows | src/modules/sales/sales.service.js:168-169 | the earlier order_products rows are kept, and line i adds the row (order, product, quantity, price) right after them at position i |
| Sales.PostLinesMovements | src/modules/sales/sales.service.js:171 | the earlier movements are kept, and line i adds, at position i after them, the EXIT of −quantity on its product with the order number as reference |
| Sales.PostLinesStock | src/modules/sales/sales.service.js:168-172 | after the loop each product's stock is lowered by the total quantity of its lines |
| Sales.PostLinesKeepsConsistent | src/modules/sales/sales.service.js:168-172 | the line loop keeps the ledger invariant |
| Sales.OrderNumbersDistinct | src/modules/sales/sales.service.js:157-160 | two sequence values never give the same order number on a day |
| Sales.SalesOrderStep | src/modules/sales/sales.service.js:107-184 | missing client → not found; credit error iff the limit is not NULL and outstanding + total > limit (equality passes), checked before stock; success iff the client exists, credit passes and every line fits; a failing stock check gives the first failing line's own error (not found or shortage); any error changes nothing; success adds a QUOTE header "SO-date-id", posts the lines as `PostLines` does and returns {id, number, total} |
| Sales.NullLimitNeverRefuses | src/modules/sales/sales.service.js:117-143 | a client whose credit limit is NULL (NaN after `parseFloat`) is never refused for credit: the order succeeds iff every line fits the stock |
| Sales.SalesOrderStockEffect | src/modules/sales/sales.service.js:168-172 | a successful order lowers each product's stock by its lines' total quantity |
| Sales.SalesOrderKeepsConsistent | src/modules/sales/sales.service.js:107-184 | creating an order keeps the ledger invariant, whether it succeeds or fails |
| Sales.QuantityOfAbsent | src/modules/sales/sales.service.js:168-172 | a product on no line is not decremented |
| Sales.QuantityWithinStock | src/modules/sales/sales.service.js:148-154 | with distinct products and every line fitting, each product's ordered total is within its stock |
| Sales.DistinctLinesKeepNonNegative | src/modules/sales/sales.service.js:148-172 | an order whose lines name distinct products never makes a stock negative |
| Sales.DuplicateLinesOverdraw | src/modules/sales/sales.service.js:148-172 | two lines of 3 for a product with stock 5 both pass the check and the order leaves stock −1 |
| Sales.WriteSalesOrder | src/modules/sales/sales.service.js:113-172 | the subtotal loop, the stock-check loop and the writes leave the state `SalesOrderStep` describes |
| Sales.PostOrderLine | src/modules/sales/sales.service.js:169-171 | one iteration of the line loop is `PostLine` |
| Sales.PostOrderLines | src/modules/sales/sales.service.js:168-172 | the line loop is `PostLines` |
| Sales.CreateSalesOrder | src/modules/sales/sales.service.js:107-184 | all-or-nothing: on any error no header, line, stock change or movement persists; BEGIN, COMMIT or ROLLBACK, release are issued |
| Sales.UpdateOrderStatus | src/modules/sales/sales.service.js:197-207 | any status is written with no transition check; an unknown id yields nothing and changes nothing |
| Sales.UpdateClientPlan | src/modules/sales/sales.service.js:76-91 | id, created_at and updated_at are dropped; the current client is returned iff nothing remains; otherwise the last assignment is `updated_at = CURRENT_TIMESTAMP` and the id is bound last, at `$(n+1)` |
| Sales.ClientUpdatedAtCollides | src/modules/sales/sales.service.js:80-88 | a client body carrying `updatedAt` assigns updated_at twice (from the body and from the stamp), so the statement is rejected |
| Production.OrderNumbersDistinct | src/modules/production/production.service.js:21-26 | two sequence values never give the same "OP-" number on a day |
| Production.PriorityOrDefault | src/modules/production/production.service.js:39 | a given (non-empty) priority is kept; a missing one is replaced by a non-empty default (MEDIUM) |
| Production.InsertProductionOrder | src/modules/production/production.service.js:13-54 | the order is numbered "OP-date-id", PENDING, priority defaulted; an unknown product violates the foreign key and changes nothing |
| Production.CreateProductionOrder | src/modules/production/production.service.js:13-54 | in its own transaction: committed on success, rolled back on failure |
| Production.UpdateProductionOrderStatus | src/modules/production/production.service.js:147-160 | any status is written; an unknown id yields nothing and changes nothing |
| Production.ConsumptionStep | src/modules/production/production.service.js:166-217 | unknown order → not found before any insert; success iff the order and material exist and stock ≥ quantity, inserting the consumption and lowering the material's stock through the exit with reference "Consumo OP: number"; a failed exit leaves the inserted row for the rollback to remove |
| Production.WriteConsumption | src/modules/production/production.service.js:176-204 | the statements leave the state `ConsumptionStep` describes, on the same connection as the exit |
| Production.RegisterConsumption | src/modules/production/production.service.js:166-217 | own transaction or caller's: no BEGIN/COMMIT/ROLLBACK/release with a caller's client |
| Production.FailedConsumptionLeavesNothing | src/modules/production/production.service.js:204-212 | in its own transaction a failed consumption leaves no consumption row, no movement and no stock change |
| Production.ConsumptionKeepsConsistent | src/modules/production/production.service.js:189-204 | a consumption keeps the ledger invariant in either transaction mode |
| Production.ConsumptionKeepsNonNegative | src/modules/production/production.service.js:204 | a consumption never makes a stock negative |
| Production.OrElse | src/modules/production/production.service.js:253 | `x \|\| fallback`: a non-empty text wins, the result is one of the two, and a non-empty fallback never gives an empty result |
| Production.BatchStatements | src/modules/production/production.service.js:231-274 | unknown order → not found; a batch number in use → 23505 on production_batches_batch_number_key; success inserts the batch (date defaulted, quality RELEASED) and enters the quantity for the order's own product with the batch number |
| Production.Translate | src/modules/production/production.service.js:279-282 | the duplicate-batch message iff the error is that unique violation; every other error becomes the generic one |
| Production.BatchStep | src/modules/production/production.service.js:226-286 | the statements with the catch's error translation |
| Production.WriteBatch | src/modules/production/production.service.js:235-264 | the statements leave the state `BatchStatements` describes |
| Production.RegisterProductionBatch | src/modules/production/production.service.js:226-286 | own transaction or caller's, as for consumption, with the error translated |
| Production.MissingOrderMasked | src/modules/production/production.service.js:235-282 | an unknown order is reported with the generic error, not "not found", and changes nothing |
| Production.DuplicateBatchChangesNothing | src/modules/production/production.service.js:279-280 | a batch number already in use is reported as such and changes nothing |
| Production.BatchRaisesOrderProduct | src/modules/production/production.service.js:256-264 | a batch raises the stock of the order's own product by quantity_produced, and its movement carries the batch number |
| Production.BatchKeepsConsistent | src/modules/production/production.service.js:256-264 | a batch keeps the ledger invariant |
| Production.BatchKeepsNonNegative | src/modules/production/production.service.js:258 | a batch keeps stocks non-negative when its quantity is not negative |
| Production.WastesReportQuery | src/modules/production/production.service.js:323-342 | order, start and end filters are pushed in that order with matching placeholders; WHERE only when one is given |
| Production.CostAnalysisOf | src/modules/production/production.service.js:439-465 | unknown order → not found; waste cost = 25 × waste kg, labor 0, total = material + labor + waste, cost per unit × quantity = total; the cost per unit is absent iff the quantity is 0, where the source prints "Infinity" ("NaN" when the total is also 0); product id absent |
| HumanResources.TextOrNull | src/modules/hhrr/hhrr.service.js:163 | an empty text is sent as null |
| HumanResources.NumberOrNull | src/modules/hhrr/hhrr.service.js:163 | a zero number is sent as null |
| HumanResources.Coalesce | src/modules/hhrr/hhrr.service.js:157-160 | `COALESCE(new, stored)`: a non-null new value wins, the result is one of the two, and it is null only when both are |
| HumanResources.Attendances.RegisterAttendance | src/modules/hhrr/hhrr.service.js:151-166 | one row per (employee, date), replaced by the merge of the stored row and the normalised input |
| HumanResources.UpsertTakesGivenKeepsMissing | src/modules/hhrr/hhrr.service.js:156-163 | on conflict each of the four fields (entry, exit, absence reason, overtime) takes the new value when it is non-empty / non-zero, and keeps the stored one when it is missing, empty or zero |
| HumanResources.ZeroOvertimeNeverOverwrites | src/modules/hhrr/hhrr.service.js:163 | overtime 0 never overwrites a stored value |
| HumanResources.RegisterTwiceSameAsOnce | src/modules/hhrr/hhrr.service.js:153-163 | registering the same attendance twice yields the same row as once |
| HumanResources.Payroll | src/modules/hhrr/hhrr.service.js:287-312 | rate = salary / 160; overtime pay = hours × 2 × rate; deduction = days × 8 × rate; total = salary + pay − deduction; missing attendance counts 0 |
| HumanResources.PayrollClosedForm | src/modules/hhrr/hhrr.service.js:312 | total = salary × (1 + hours / 80 − days / 20) |
| HumanResources.NoAttendanceBaseSalary | src/modules/hhrr/hhrr.service.js:308-312 | with no attendance the total is the salary |
| HumanResources.PayrollReportQuery | src/modules/hhrr/hhrr.service.js:262-276 | throws before querying iff a date is missing or empty; the dates are `$1`, `$2`, and a truthy employee id is `$3` |
| HumanResources.UpdateEmployeePlan | src/modules/hhrr/hhrr.service.js:52-68 | id, created_at and updated_at are dropped; the current record iff nothing remains; otherwise the last assignment is `updated_at = CURRENT_TIMESTAMP` and the id is bound last, at `$(n+1)` |
| HumanResources.EmployeeUpdatedAtCollides | src/modules/hhrr/hhrr.service.js:56-62 | an employee body carrying `updatedAt` assigns updated_at twice (from the body and from the stamp), so the statement is rejected |
| HumanResources.UpdateShiftPlan | src/modules/hhrr/hhrr.service.js:228-250 | only id is dropped; the current shift iff nothing remains; the id bound last, with no timestamp appended |
| HumanResources.ShiftKeepsTimestampKeys | src/modules/hhrr/hhrr.service.js:231 | a shift body with only updated_at still updates; an employee body with only updated_at does not |
| HumanResources.UpdateUserStatement | src/modules/hhrr/hhrr.service.js:119-142 | password_hash is written iff a non-empty password is given; the five fields are `$1`..`$5` and the id `$7` or `$6` |
| HumanResources.PeriodConditions | src/modules/hhrr/hhrr.service.js:172-174 | employee, start and end filters pushed in order with matching placeholders |
| HumanResources.FindAttendancesQuery | src/modules/hhrr/hhrr.service.js:168-179 | the attendance filters joined after AND |
| HumanResources.FindShiftsQuery | src/modules/hhrr/hhrr.service.js:209-216 | the shift filters joined after WHERE |
| Finances.IdOrNull | src/modules/finances/finances.service.js:9-87 | a missing or zero invoice/supplier id is stored as null; any other is kept |
| Finances.CostingOf | src/modules/finances/finances.service.js:198-212 | each missing component counts and is stored as 0; total = material + labor + waste; the date defaults to now |
| Finances.Ledger.CreateIncome | src/modules/finances/finances.service.js:9-21 | appends one income with the invoice id null-normalised |
| Finances.Ledger.CreateExpense | src/modules/finances/finances.service.js:75-87 | appends one expense with the supplier id null-normalised |
| Finances.Ledger.CreateCosting | src/modules/finances/finances.service.js:198-212 | appends the row `CostingOf` describes |
| Finances.IncomeConditions | src/modules/finances/finances.service.js:32-46 | source, start and end filters pushed in that order |
| Finances.ExpenseConditions | src/modules/finances/finances.service.js:98-116 | category, supplier, start and end filters pushed in that order |
| Finances.FindAllIncomesQuery | src/modules/finances/finances.service.js:26-67 | the income filters, then LIMIT/OFFSET from the default paging at `$(n+1)`/`$(n+2)` |
| Finances.FindAllExpensesQuery | src/modules/finances/finances.service.js:92-139 | the expense filters, then LIMIT/OFFSET from the default paging |
| Finances.ProfitReportQuery | src/modules/finances/finances.service.js:145-191 | throws iff a start or end date is given (the `conditions` array is never declared); with neither there is no date filter |
| Finances.ProfitIsMargin | src/modules/finances/finances.service.js:177-179 | revenue − cost equals the sum over lines of quantity × (price − latest cost, 0 when uncosted) |
| Finances.UncostedIsAllProfit | src/modules/finances/finances.service.js:178 | lines whose products were never costed count their whole revenue as profit |
| Audit.AuditLog.LogAction | src/modules/audit/audit.service.js:11-29 | one row is appended unless the insert fails; a failure is swallowed and the log is unchanged |
| Audit.AuditPaging | src/modules/audit/audit.service.js:35-85 | limit defaults to 15, page has no default (offset NaN without a page), currentPage reports 1 then, totalPages = ceil(total / limit) |
| Audit.MissingPageIsInconsistent | src/modules/audit/audit.service.js:36-84 | without a page the offset is not a number while currentPage says 1 |
| Audit.AuditConditions | src/modules/audit/audit.service.js:41-56 | user, `%action%`, start and end filters pushed in that order |
| Audit.FindAuditsQuery | src/modules/audit/audit.service.js:35-85 | the filters, then LIMIT/OFFSET at `$(n+1)`/`$(n+2)` bound to the paging values |
| Http.ShortagePrefix | src/modules/inventory/inventory.controller.js:157 | a message starting with "Stock insuficiente" is recognised as a shortage |
| Http.NoShortageWithoutS | src/modules/inventory/inventory.controller.js:157 | a message without an upper-case S is not |
| Http.InsufficientStockIsShortage | src/modules/inventory/inventory.service.js:205-206 | the ledger's "Stock insuficiente para producto ID …" error is recognised as a shortage, for every product and amount |
| Http.LineStockShortIsShortage | src/modules/sales/sales.service.js:151-153 | the sales order's "Stock insuficiente para el producto ID …" error is recognised as a shortage |
| Http.ProductNotFoundIsNoShortage | src/modules/inventory/inventory.service.js:203 | "product not found" is not taken for a shortage |
| Http.OrderNotFoundIsNoShortage | src/modules/production/production.service.js:179 | "production order not found" is not taken for a shortage |
| Http.MessageOr | src/modules/production/production.controller.js:87 | `error.message \|\| fallback`: the error's own message when it has one, the result is one of the two, and a non-empty fallback never gives an empty message |
| InventoryController.AuditTrail | src/modules/inventory/inventory.controller.js:121-125 | at most one audit row, present iff the call succeeded and the audit insert did not fail |
| InventoryController.EntryResponse | src/modules/inventory/inventory.controller.js:128-136 | 201 on success; every entry error is 500 |
| InventoryController.ExitResponse | src/modules/inventory/inventory.controller.js:151-162 | 201 on success; an error mentioning "Stock insuficiente" is 400 with its message; every other error is 500 |
| InventoryController.ExitShortageIsClientError | src/modules/inventory/inventory.controller.js:157-158 | an exit beyond the stock is answered 400 with the service's message |
| InventoryController.ExitMissingProductIsServerError | src/modules/inventory/inventory.controller.js:161 | an exit on a missing product is answered 500 |
| InventoryController.NegativeEntryAccepted | src/modules/inventory/inventory.controller.js:118 | the body goes to the ledger unchecked: a negative entry is answered 201 and lowers the stock |
| InventoryController.RegisterEntryMovement | src/modules/inventory/inventory.controller.js:116-137 | the movement in its own transaction, then an audit row with the returned id, product and quantity only after success |
| InventoryController.RegisterExitMovement | src/modules/inventory/inventory.controller.js:139-163 | the same for exits |
| InventoryController.RegisterProductResponse | src/modules/inventory/inventory.controller.js:15-26 | 201; a duplicate SKU (23505) is 400; anything else 500 |
| InventoryController.DuplicateSkuIsClientError | src/modules/inventory/inventory.controller.js:21-22 | creating a product with a SKU in use is answered 400 |
| InventoryController.RegisterProduct | src/modules/inventory/inventory.controller.js:6-27 | the insert, then the CREATE_PRODUCT audit row with id and SKU only after success |
| InventoryController.UpdateProductResponse | src/modules/inventory/inventory.controller.js:57-81 | 200 for an updated row, 404 when none, 400 for 23505, 500 otherwise |
| InventoryController.UpdateProductDetails | src/modules/inventory/inventory.controller.js:57-81 | the UPDATE_PRODUCT audit row only when a product was updated; a missing product is 404 with no audit |
| InventoryController.RemoveProductResponse | src/modules/inventory/inventory.controller.js:83-100 | 200 when a row was deleted, 404 when none, 500 on error |
| InventoryController.RemoveProduct | src/modules/inventory/inventory.controller.js:83-100 | the DELETE_PRODUCT audit row only when a product was deleted |
| ProductionController.CreateOrder | src/modules/production/production.controller.js:4-16 | the stored order's created_by is the token's user; errors are 500 |
| ProductionController.ChangeStatus | src/modules/production/production.controller.js:41-61 | 400 iff the status is missing or not one of the four, with no change; 404 for an unknown order; otherwise the status is written |
| ProductionController.ProductionWhitelist | src/modules/production/production.controller.js:45-47 | exactly PENDING, IN_PROGRESS, COMPLETED and CANCELLED pass |
| ProductionController.ConsumptionOf | src/modules/production/production.controller.js:69-72 | the service receives the token's user and a positive quantity |
| ProductionController.ConsumptionResponse | src/modules/production/production.controller.js:80-88 | 201; a shortage is 400 with its message; any other error 500 with its message |
| ProductionController.UnknownOrderConsumptionIsServerError | src/modules/production/production.controller.js:87 | a consumption on an unknown order is 500 with the not-found message |
| ProductionController.ConsumptionShortageIsClientError | src/modules/production/production.controller.js:84-85 | a consumption beyond the material's stock is 400 |
| ProductionController.TypeErrorConsumptionResponse | src/modules/production/production.controller.js:82-88 | the TypeError of a body `client` is answered 500 with "client.query is not a function" |
| ProductionController.AddConsumption | src/modules/production/production.controller.js:66-89 | without a material or a positive quantity: 400 and no change; a body `client` is used as the connection: no BEGIN, the first query throws, 500 "client.query is not a function", nothing written and no transaction statement; otherwise the service in its own transaction |
| ProductionController.BatchOf | src/modules/production/production.controller.js:97-100 | the service receives the token's user, the batch number and a positive quantity |
| ProductionController.BatchResponse | src/modules/production/production.controller.js:108-112 | 201; every error is 400 with its message |
| ProductionController.UnknownOrderBatchResponse | src/modules/production/production.controller.js:111 | a batch for an unknown order is 400 with the generic message |
| ProductionController.AddBatch | src/modules/production/production.controller.js:94-113 | without a batch number or a positive quantity: 400 and no change; a body `client` makes the first query throw: 400 with the generic registration message, nothing written and no transaction statement; otherwise the service in its own transaction |
| ProductionController.WasteGuardIff | src/modules/production/production.controller.js:127-130 | a waste passes iff its process is EXTRUSION or BLOWING and its quantity is positive |
| SalesController.OrderOf | src/modules/sales/sales.controller.js:61-64 | the service receives the token's user and the non-empty product list |
| SalesController.CreateOrderResponse | src/modules/sales/sales.controller.js:72-78 | 201; every error is 400 with its message |
| SalesController.CreditRejectionIsClientError | src/modules/sales/sales.controller.js:77 | an order over the credit limit is answered 400 with the credit error |
| SalesController.CreateOrder | src/modules/sales/sales.controller.js:59-79 | a missing or empty product list is 400 before the service, with no change |
| SalesController.ChangeOrderStatus | src/modules/sales/sales.controller.js:84-104 | 400 iff the status is missing or not one of CONFIRMED, IN_PROGRESS, COMPLETED, CANCELLED; 404 for an unknown order |
| SalesController.QuoteCannotBeSet | src/modules/sales/sales.controller.js:90-91 | no request can set QUOTE |
| SalesController.CreateClientResponse | src/modules/sales/sales.controller.js:4-14 | a duplicate client code (23505) is 400; other errors 500 |
| RoleMiddleware.CheckRole | src/middlewares/role.middleware.js:9-15 | `next` iff the role is present, non-empty and exactly one of the allowed roles; otherwise 403 |
| RoleMiddleware.CheckRoleSetSemantics | src/middlewares/role.middleware.js:9 | only the set of allowed roles matters, not their order or repetitions |
| RoleMiddleware.CheckRoleMonotone | src/middlewares/role.middleware.js:9 | allowing more roles never forbids a request that was allowed |
| RoleMiddleware.CheckRoleCaseSensitive | src/middlewares/role.middleware.js:7-9 | the upper-cased list is unused: "admin" does not match "ADMIN" |

## Behaviour of the code as written

The model keeps these behaviours of the code; lemmas exhibit them:
- A sales order that names the same product on two lines checks each line against the stock read before any decrement. It can therefore overdraw (`Sales.DuplicateLinesOverdraw`). Non-negativity is proved only for orders with distinct products (`Sales.DistinctLinesKeepNonNegative`).
- Neither ledger primitive checks that the quantity is positive, and the inventory handlers pass the body through. A negative entry lowers the stock (`Inventory.NegativeEntryIsAccepted`, `InventoryController.NegativeEntryAccepted`). Non-negativity after an entry or a batch is proved under a non-negative quantity.
- A batch for an unknown production order is reported with the generic registration error (`Production.MissingOrderMasked`).
- The profit report throws whenever a date is given (`Finances.ProfitReportQuery`).
- The audit listing without a page binds a non-numeric offset (`Audit.MissingPageIsInconsistent`).
- The generic product update can write `current_stock` directly (`Inventory.UpdateProductCanWriteStock`), bypassing the ledger.
- A client whose credit limit is NULL is never refused for credit, because `parseFloat(null)` is NaN and no comparison with NaN is true (`Sales.NullLimitNeverRefuses`). `updateClient` can store NULL; only `createClient` defaults the limit to 0.
- `updateClient` and `updateEmployee` delete only `updated_at`, so a body carrying `updatedAt` assigns the column twice and PostgreSQL rejects the statement (`Sales.ClientUpdatedAtCollides`, `HumanResources.EmployeeUpdatedAtCollides`). `updateProduct` deletes both spellings (`Inventory.ProductDropsTimestampKeys`).
- A truthy `client` field in a consumption or batch body is taken as the connection: BEGIN is skipped and the first query throws "client.query is not a function". Nothing is written; a consumption answers 500 with that message and a batch 400 with the generic one (`ProductionController.AddConsumption`, `ProductionController.AddBatch`).

## Left out

- Row locks (`FOR UPDATE`) and `Promise.all`: operations run one at a time, and a lock is a no-op.
- Floating point: quantities and money are exact reals. IEEE rounding, `toFixed(2)`, `parseFloat` of arbitrary text and the rendering of amounts inside error messages are not modelled.
- Production.CostAnalysisOf: for a quantity of 0 the source's `(total_cost / quantity_produced).toFixed(2)` is the text "Infinity" ("NaN" when the total is also 0); the model marks that case as an absent cost per unit and does not produce the text.
- JavaScript coercion: request fields arrive already typed. A value that fails to parse is `None`, and "falsy" means missing, empty, zero or (for a filter parameter) `NaN`.
- After a failed statement, PostgreSQL aborts the caller's transaction. With a caller-supplied client the model only records the error and the writes made before it, which the caller's rollback discards.
- Dates and sequences: `new Date()`, `CURRENT_TIMESTAMP` and `NEXTVAL` are parameters. That a sequence value is fresh is a precondition (`id !in ...`).
- A movement's serial id is its position in the movement table.
- The schema is not part of the source. The model assumes `inventory_movements.product_id`, `production_consumptions.material_id` and `production_orders.product_id` reference `products`, so an insert naming a missing product fails with 23503.
- SQL-side aggregation:
  - the outstanding balance is a function over invoices and orders;
  - the cost analysis takes the three query results as inputs;
  - the profit report takes each client's order lines with their latest costing;
  - grouping, ordering, ILIKE matching and the latest-costing subquery are not modelled.
- `JSON.stringify` of audit details: details are kept as key/value pairs.
- Finances.CostingOf: a component is a number or missing. In the source only the total parses (`parseFloat(x) || 0`), while the stored columns are `x || 0`, so a non-empty text that does not parse (such as "abc") is sent to the database as that text, where the model stores 0.
- InventoryController.UpdateProductDetails: does not record the `changes` body in its audit row, because a request body is not a JSON value in this model.
- InventoryController.UpdateProductDetails and InventoryController.RemoveProduct: take the outcome of `updateProduct`/`deleteProduct` as a parameter. The UPDATE statement `updateProduct` builds is modelled by `Inventory.UpdateProductPlan`, not executed against the tables.
- bcrypt and JWT: `UpdateUserStatement` takes the hash as a parameter; the token's user id is a parameter of the handlers.
- Services and handlers outside the ledger core that only run one fixed query:
  - finding by id, soft deletes and `getLowStockProducts`;
  - `createClient`, `createEmployee`, `createUser`, `createShift`, `registerWaste` and `getCostingHistoryForProduct`;
  - the sales and production listings with status filters, and the dashboard, chart and report queries;
  - the other controllers and the suppliers, auth, dashboard and notifications modules.
- Production orders' pass-through columns (planned dates, gauge, measures, machine) are not stored.
- Payroll for an employee whose salary is NULL is not modelled; the salary is a number.
- Audit paging with a limit that is not a number is not modelled; `limit` is an integer or missing.
- The raw-body `user_id`/`created_by` fields the controllers overwrite are not represented beyond the override itself.
