/**
 * The production service: production orders, raw-material consumption (an
 * exit through the ledger), finished batches (an entry through the ledger),
 * the wastes report filter and the cost analysis.
 */
module Production {
  import opened Wrappers
  import opened Text
  import opened Query
  import opened Database
  import opened Inventory

  // ---------------------------------------------------------------------
  // Production orders
  // ---------------------------------------------------------------------

  /** The fields of `orderData` the model keeps. */
  datatype OrderInput = OrderInput(productId: ProductId, quantity: real, notes: Option<string>,
                                   createdBy: Option<UserId>, priority: Option<string>)

  /** `OP-<yyyymmdd>-<id>`. */
  function OrderNumber(today: string, id: OrderId): string {
    "OP-" + today + "-" + NatToString(id)
  }

  /** Production order numbers of one day never collide, because the ids differ. */
  lemma OrderNumbersDistinct(today: string, a: OrderId, b: OrderId)
    requires a != b
    ensures OrderNumber(today, a) != OrderNumber(today, b)
  {
    PrefixedIdsDistinct("OP-" + today + "-", a, b);
  }

  /** `priority || 'MEDIUM'`. */
  function PriorityOrDefault(p: Option<string>): (r: string)
    ensures r != ""
    ensures p.Some? && p.value != "" ==> r == p.value
  {
    if p.Some? && p.value != "" then p.value else "MEDIUM"
  }

  const PRODUCTION_PRODUCT_FK := "production_orders_product_id_fkey"

  /**
   * createProductionOrder's INSERT: number OP-…, status PENDING, priority
   * defaulting to MEDIUM. The product must exist. `id` is the value NEXTVAL gave.
   */
  function InsertProductionOrder(t: Tables, o: OrderInput, id: OrderId, today: string): (s: Step<ProductionOrder>)
    requires id !in t.productionOrders
    ensures s.result.Ok? <==> o.productId in t.products
    ensures s.result.Err? ==> s.tables == t && s.result.error.DbError? && s.result.error.code == FOREIGN_KEY_VIOLATION
    ensures s.result.Ok? ==>
              var row := s.result.value;
              && row.orderNumber == OrderNumber(today, id) && row.status == "PENDING" && row.productId == o.productId
              && row.priority == PriorityOrDefault(o.priority) && row.createdBy == o.createdBy
              && s.tables == t.(productionOrders := t.productionOrders[id := row])
  {
    if o.productId !in t.products then
      Step(Err(DbError(FOREIGN_KEY_VIOLATION, PRODUCTION_PRODUCT_FK,
                       "insert or update on table \"production_orders\" violates foreign key constraint")), t)
    else
      var row := ProductionOrder(OrderNumber(today, id), o.productId, o.quantity, "PENDING",
                                 PriorityOrDefault(o.priority), o.createdBy, o.notes);
      Step(Ok(row), t.(productionOrders := t.productionOrders[id := row]))
  }

  /** createProductionOrder, in its own transaction. */
  method CreateProductionOrder(db: Db, o: OrderInput, id: OrderId, today: string) returns (r: Result<ProductionOrder, Error>)
    requires db.saved.None? && id !in db.productionOrders
    modifies db
    ensures r == InsertProductionOrder(old(db.State()), o, id, today).result
    ensures db.State() == Settle(false, old(db.State()), InsertProductionOrder(old(db.State()), o, id, today))
    ensures db.saved == None && db.txLog == old(db.txLog) + OwnTransaction(r.Ok?)
  {
    db.Begin();
    if o.productId !in db.products {
      r := Err(DbError(FOREIGN_KEY_VIOLATION, PRODUCTION_PRODUCT_FK,
                       "insert or update on table \"production_orders\" violates foreign key constraint"));
    } else {
      var row := ProductionOrder("OP-" + today + "-" + NatToString(id), o.productId, o.quantity, "PENDING",
                                 PriorityOrDefault(o.priority), o.createdBy, o.notes);
      db.productionOrders := db.productionOrders[id := row];
      r := Ok(row);
    }
    db.Finish(r.Ok?);
  }

  /** updateProductionOrderStatus: any status is written; an unknown id returns nothing. */
  method UpdateProductionOrderStatus(db: Db, id: OrderId, status: string) returns (r: Option<ProductionOrder>)
    modifies db
    ensures id !in old(db.productionOrders) ==> r.None? && db.State() == old(db.State())
    ensures id in old(db.productionOrders) ==>
              && r == Some(old(db.productionOrders)[id].(status := status))
              && db.State() == old(db.State()).(productionOrders := old(db.productionOrders)[id := r.value])
    ensures db.saved == old(db.saved) && db.txLog == old(db.txLog)
  {
    if id !in db.productionOrders {
      return None;
    }
    var row := db.productionOrders[id].(status := status);
    db.productionOrders := db.productionOrders[id := row];
    r := Some(row);
  }

  // ---------------------------------------------------------------------
  // Consumption of raw material
  // ---------------------------------------------------------------------

  /** The fields registerConsumption takes from `consumptionData`. */
  datatype ConsumptionInput = ConsumptionInput(materialId: ProductId, quantity: real, userId: Option<UserId>)

  const CONSUMPTION_MATERIAL_FK := "production_consumptions_material_id_fkey"

  /** The exit a consumption makes, referencing the order number. */
  function ConsumptionExit(number: string, c: ConsumptionInput): MovementInput {
    MovementInput(c.materialId, c.quantity, c.userId, Some("Consumo OP: " + number), None, None)
  }

  /**
   * registerConsumption's statements: look the order up, insert the
   * consumption row (the material must exist), then run the exit on the
   * same connection. When the exit fails, the consumption row is still in
   * the step's tables; only a rollback removes it. `date` is CURRENT_TIMESTAMP.
   */
  function ConsumptionStep(t: Tables, orderId: OrderId, c: ConsumptionInput, date: string): (s: Step<Consumption>)
    ensures orderId !in t.productionOrders ==> s.result == Err(ProductionOrderNotFound) && s.tables == t
    ensures s.result.Ok? <==>
              && orderId in t.productionOrders && c.materialId in t.products
              && t.products[c.materialId].currentStock >= c.quantity
    ensures s.result.Ok? ==>
              var number := t.productionOrders[orderId].orderNumber;
              var t1 := t.(consumptions := t.consumptions + [s.result.value]);
              && s.result.value == Consumption(orderId, c.materialId, c.quantity, date)
              && s.tables == ExitStep(t1, ConsumptionExit(number, c)).tables
              && Adjusted(t.products, s.tables.products, c.materialId, -c.quantity)
              && s.tables.movements == t.movements + [ExitStep(t1, ConsumptionExit(number, c)).result.value]
    ensures orderId in t.productionOrders && c.materialId in t.products && s.result.Err? ==>
              s.tables == t.(consumptions := t.consumptions + [Consumption(orderId, c.materialId, c.quantity, date)])
  {
    if orderId !in t.productionOrders then Step(Err(ProductionOrderNotFound), t)
    else if c.materialId !in t.products then
      Step(Err(DbError(FOREIGN_KEY_VIOLATION, CONSUMPTION_MATERIAL_FK,
                       "insert or update on table \"production_consumptions\" violates foreign key constraint")), t)
    else
      var row := Consumption(orderId, c.materialId, c.quantity, date);
      var t1 := t.(consumptions := t.consumptions + [row]);
      var exit := ExitStep(t1, ConsumptionExit(t.productionOrders[orderId].orderNumber, c));
      if exit.result.Err? then Step(Err(exit.result.error), t1)
      else Step(Ok(row), exit.tables)
  }

  /** The statements registerConsumption runs inside a transaction, its own or the caller's. */
  method WriteConsumption(db: Db, orderId: OrderId, c: ConsumptionInput, date: string) returns (r: Result<Consumption, Error>)
    requires db.saved.Some?
    modifies db
    ensures r == ConsumptionStep(old(db.State()), orderId, c, date).result
    ensures db.State() == ConsumptionStep(old(db.State()), orderId, c, date).tables
    ensures db.saved == old(db.saved) && db.txLog == old(db.txLog)
  {
    if orderId !in db.productionOrders {
      return Err(ProductionOrderNotFound);
    }
    var number := db.productionOrders[orderId].orderNumber;
    if c.materialId !in db.products {
      return Err(DbError(FOREIGN_KEY_VIOLATION, CONSUMPTION_MATERIAL_FK,
                         "insert or update on table \"production_consumptions\" violates foreign key constraint"));
    }
    var row := Consumption(orderId, c.materialId, c.quantity, date);
    db.consumptions := db.consumptions + [row];
    var exit := CreateExitMovement(db, MovementInput(c.materialId, c.quantity, c.userId, Some("Consumo OP: " + number), None, None), true);
    if exit.Err? {
      return Err(exit.error);
    }
    r := Ok(row);
  }

  /**
   * registerConsumption. With a caller-supplied client it neither begins,
   * commits, rolls back nor releases; otherwise it owns the transaction.
   */
  method RegisterConsumption(db: Db, orderId: OrderId, c: ConsumptionInput, date: string, existing: bool)
    returns (r: Result<Consumption, Error>)
    requires existing <==> db.saved.Some?
    modifies db
    ensures r == ConsumptionStep(old(db.State()), orderId, c, date).result
    ensures db.State() == Settle(existing, old(db.State()), ConsumptionStep(old(db.State()), orderId, c, date))
    ensures db.saved == old(db.saved)
    ensures db.txLog == old(db.txLog) + (if existing then [] else OwnTransaction(r.Ok?))
  {
    if !existing {
      db.Begin();
    }
    r := WriteConsumption(db, orderId, c, date);
    if !existing {
      db.Finish(r.Ok?);
    }
  }

  /** In its own transaction, a failed consumption leaves no consumption row, no movement and no stock change. */
  lemma FailedConsumptionLeavesNothing(t: Tables, orderId: OrderId, c: ConsumptionInput, date: string)
    requires ConsumptionStep(t, orderId, c, date).result.Err?
    ensures Settle(false, t, ConsumptionStep(t, orderId, c, date)) == t
  {
  }

  /** A consumption keeps every stock equal to the signed sum of its movements, in either transaction mode. */
  lemma ConsumptionKeepsConsistent(t: Tables, orderId: OrderId, c: ConsumptionInput, date: string, existing: bool)
    requires Consistent(t)
    ensures Consistent(Settle(existing, t, ConsumptionStep(t, orderId, c, date)))
  {
    if orderId in t.productionOrders && c.materialId in t.products {
      var t1 := t.(consumptions := t.consumptions + [Consumption(orderId, c.materialId, c.quantity, date)]);
      ExitKeepsConsistent(t1, ConsumptionExit(t.productionOrders[orderId].orderNumber, c));
    }
  }

  /** A consumption never drives a stock negative. */
  lemma ConsumptionKeepsNonNegative(t: Tables, orderId: OrderId, c: ConsumptionInput, date: string, existing: bool)
    requires NonNegative(t)
    ensures NonNegative(Settle(existing, t, ConsumptionStep(t, orderId, c, date)))
  {
    if orderId in t.productionOrders && c.materialId in t.products {
      var t1 := t.(consumptions := t.consumptions + [Consumption(orderId, c.materialId, c.quantity, date)]);
      ExitKeepsNonNegative(t1, ConsumptionExit(t.productionOrders[orderId].orderNumber, c));
    }
  }

  // ---------------------------------------------------------------------
  // Finished batches
  // ---------------------------------------------------------------------

  /** The fields registerProductionBatch takes from `batchData`. */
  datatype BatchInput = BatchInput(batchNumber: string, quantityProduced: real, productionDate: Option<string>,
                                   quality: Option<string>, userId: Option<UserId>)

  const BATCH_NUMBER_KEY := "production_batches_batch_number_key"

  /** `x || fallback` on an optional string: a non-empty given text wins, and a non-empty fallback is never lost. */
  function OrElse(x: Option<string>, fallback: string): (r: string)
    ensures x.Some? && x.value != "" ==> r == x.value
    ensures r == fallback || (x.Some? && r == x.value)
    ensures fallback != "" ==> r != ""
  {
    if x.Some? && x.value != "" then x.value else fallback
  }

  /** The entry a batch makes for the order's own product, carrying the batch number. */
  function BatchEntry(order: ProductionOrder, b: BatchInput): MovementInput {
    MovementInput(order.productId, b.quantityProduced, b.userId,
                  Some("Producción OP: " + order.orderNumber + " / Lote: " + b.batchNumber), None, Some(b.batchNumber))
  }

  /**
   * registerProductionBatch's statements before the catch: look the order
   * up, insert the batch (its number is unique; the date defaults to `now`
   * and the quality to RELEASED), then run the entry on the same connection.
   */
  function BatchStatements(t: Tables, orderId: OrderId, b: BatchInput, now: string): (s: Step<Batch>)
    ensures orderId !in t.productionOrders ==> s.result == Err(ProductionOrderNotFound) && s.tables == t
    ensures orderId in t.productionOrders && b.batchNumber in t.batches ==>
              s.result == Err(DbError(UNIQUE_VIOLATION, BATCH_NUMBER_KEY, "duplicate key value violates unique constraint"))
              && s.tables == t
    ensures s.result.Ok? <==>
              orderId in t.productionOrders && b.batchNumber !in t.batches && t.productionOrders[orderId].productId in t.products
    ensures s.result.Ok? ==>
              var order := t.productionOrders[orderId];
              var t1 := t.(batches := t.batches[b.batchNumber := s.result.value]);
              && s.result.value == Batch(orderId, OrElse(b.productionDate, now), OrElse(b.quality, "RELEASED"))
              && s.tables == EntryStep(t1, BatchEntry(order, b)).tables
              && Adjusted(t.products, s.tables.products, order.productId, b.quantityProduced)
  {
    if orderId !in t.productionOrders then Step(Err(ProductionOrderNotFound), t)
    else if b.batchNumber in t.batches then
      Step(Err(DbError(UNIQUE_VIOLATION, BATCH_NUMBER_KEY, "duplicate key value violates unique constraint")), t)
    else
      var row := Batch(orderId, OrElse(b.productionDate, now), OrElse(b.quality, "RELEASED"));
      var t1 := t.(batches := t.batches[b.batchNumber := row]);
      var entry := EntryStep(t1, BatchEntry(t.productionOrders[orderId], b));
      if entry.result.Err? then Step(Err(entry.result.error), t1)
      else Step(Ok(row), entry.tables)
  }

  /**
   * The catch of registerProductionBatch: a unique violation on the batch
   * number becomes "already exists"; every other error becomes one generic error.
   */
  function Translate(e: Error, batchNumber: string): (r: Error)
    ensures r == DuplicateBatch(batchNumber) || r == BatchRegistrationFailed
    ensures r.DuplicateBatch? <==> e.DbError? && e.code == UNIQUE_VIOLATION && e.constraint == BATCH_NUMBER_KEY
  {
    if e.DbError? && e.code == UNIQUE_VIOLATION && e.constraint == BATCH_NUMBER_KEY then DuplicateBatch(batchNumber)
    else BatchRegistrationFailed
  }

  /** registerProductionBatch as its caller sees it: the statements, with the error translated. */
  function BatchStep(t: Tables, orderId: OrderId, b: BatchInput, now: string): (s: Step<Batch>)
    ensures s.tables == BatchStatements(t, orderId, b, now).tables
    ensures s.result.Ok? <==> BatchStatements(t, orderId, b, now).result.Ok?
    ensures s.result.Ok? ==> s.result == BatchStatements(t, orderId, b, now).result
    ensures s.result.Err? ==> s.result.error == Translate(BatchStatements(t, orderId, b, now).result.error, b.batchNumber)
  {
    var raw := BatchStatements(t, orderId, b, now);
    if raw.result.Err? then Step(Err(Translate(raw.result.error, b.batchNumber)), raw.tables) else raw
  }

  /** The statements registerProductionBatch runs inside a transaction, its own or the caller's. */
  method WriteBatch(db: Db, orderId: OrderId, b: BatchInput, now: string) returns (r: Result<Batch, Error>)
    requires db.saved.Some?
    modifies db
    ensures r == BatchStatements(old(db.State()), orderId, b, now).result
    ensures db.State() == BatchStatements(old(db.State()), orderId, b, now).tables
    ensures db.saved == old(db.saved) && db.txLog == old(db.txLog)
  {
    if orderId !in db.productionOrders {
      return Err(ProductionOrderNotFound);
    }
    var order := db.productionOrders[orderId];
    if b.batchNumber in db.batches {
      return Err(DbError(UNIQUE_VIOLATION, BATCH_NUMBER_KEY, "duplicate key value violates unique constraint"));
    }
    var row := Batch(orderId, OrElse(b.productionDate, now), OrElse(b.quality, "RELEASED"));
    db.batches := db.batches[b.batchNumber := row];
    var entry := CreateEntryMovement(db, MovementInput(order.productId, b.quantityProduced, b.userId,
                                                       Some("Producción OP: " + order.orderNumber + " / Lote: " + b.batchNumber),
                                                       None, Some(b.batchNumber)), true);
    if entry.Err? {
      return Err(entry.error);
    }
    r := Ok(row);
  }

  /** registerProductionBatch, with the same transaction handling as registerConsumption. */
  method RegisterProductionBatch(db: Db, orderId: OrderId, b: BatchInput, now: string, existing: bool)
    returns (r: Result<Batch, Error>)
    requires existing <==> db.saved.Some?
    modifies db
    ensures r == BatchStep(old(db.State()), orderId, b, now).result
    ensures db.State() == Settle(existing, old(db.State()), BatchStep(old(db.State()), orderId, b, now))
    ensures db.saved == old(db.saved)
    ensures db.txLog == old(db.txLog) + (if existing then [] else OwnTransaction(r.Ok?))
  {
    if !existing {
      db.Begin();
    }
    var raw := WriteBatch(db, orderId, b, now);
    if raw.Err? {
      r := Err(Translate(raw.error, b.batchNumber));
    } else {
      r := raw;
    }
    if !existing {
      db.Finish(r.Ok?);
    }
  }

  /** An unknown order is reported with the same generic error as any other non-duplicate failure. */
  lemma MissingOrderMasked(t: Tables, orderId: OrderId, b: BatchInput, now: string)
    requires orderId !in t.productionOrders
    ensures BatchStep(t, orderId, b, now).result == Err(BatchRegistrationFailed)
    ensures Settle(false, t, BatchStep(t, orderId, b, now)) == t
  {
  }

  /** A batch number already in use is reported as such and changes nothing, in either transaction mode. */
  lemma DuplicateBatchChangesNothing(t: Tables, orderId: OrderId, b: BatchInput, now: string, existing: bool)
    requires orderId in t.productionOrders && b.batchNumber in t.batches
    ensures BatchStep(t, orderId, b, now).result == Err(DuplicateBatch(b.batchNumber))
    ensures Settle(existing, t, BatchStep(t, orderId, b, now)) == t
  {
  }

  /**
   * A registered batch raises the stock of the order's own product by the
   * quantity produced and records one ENTRY movement carrying the batch number.
   */
  lemma BatchRaisesOrderProduct(t: Tables, orderId: OrderId, b: BatchInput, now: string)
    requires BatchStep(t, orderId, b, now).result.Ok?
    ensures var s := BatchStep(t, orderId, b, now);
            var p := t.productionOrders[orderId].productId;
            && Adjusted(t.products, s.tables.products, p, b.quantityProduced)
            && |s.tables.movements| == |t.movements| + 1
            && b.batchNumber in s.tables.batches
    ensures var s := BatchStep(t, orderId, b, now);
            var mv := s.tables.movements[|t.movements|];
            mv.kind == Entry && mv.productId == t.productionOrders[orderId].productId
            && mv.quantity == b.quantityProduced && mv.batch == Some(b.batchNumber)
  {
    var order := t.productionOrders[orderId];
    var t1 := t.(batches := t.batches[b.batchNumber := Batch(orderId, OrElse(b.productionDate, now), OrElse(b.quality, "RELEASED"))]);
    var e := EntryStep(t1, BatchEntry(order, b));
    assert e.tables.movements == t.movements + [e.result.value];
  }

  /** A batch keeps every stock equal to the signed sum of its movements, in either transaction mode. */
  lemma BatchKeepsConsistent(t: Tables, orderId: OrderId, b: BatchInput, now: string, existing: bool)
    requires Consistent(t)
    ensures Consistent(Settle(existing, t, BatchStep(t, orderId, b, now)))
  {
    if orderId in t.productionOrders && b.batchNumber !in t.batches {
      var t1 := t.(batches := t.batches[b.batchNumber := Batch(orderId, OrElse(b.productionDate, now), OrElse(b.quality, "RELEASED"))]);
      EntryKeepsConsistent(t1, BatchEntry(t.productionOrders[orderId], b));
    }
  }

  /** A batch of a non-negative quantity keeps every stock non-negative. */
  lemma BatchKeepsNonNegative(t: Tables, orderId: OrderId, b: BatchInput, now: string, existing: bool)
    requires NonNegative(t) && b.quantityProduced >= 0.0
    ensures NonNegative(Settle(existing, t, BatchStep(t, orderId, b, now)))
  {
    if orderId in t.productionOrders && b.batchNumber !in t.batches {
      var t1 := t.(batches := t.batches[b.batchNumber := Batch(orderId, OrElse(b.productionDate, now), OrElse(b.quality, "RELEASED"))]);
      EntryKeepsNonNegative(t1, BatchEntry(t.productionOrders[orderId], b));
    }
  }

  // ---------------------------------------------------------------------
  // Reports
  // ---------------------------------------------------------------------

  /** The optional filters of getWastesReport, in the order the builder tests them (None when falsy). */
  function WasteFilters(orderId: Option<Param>, startDate: Option<Param>, endDate: Option<Param>): seq<Filter> {
    [Filter("w.order_id =", orderId), Filter("w.date >=", startDate), Filter("w.date <=", endDate)]
  }

  /** getWastesReport's `params`, `conditions` and WHERE clause, pushed one filter at a time. */
  method WastesReportQuery(orderId: Option<Param>, startDate: Option<Param>, endDate: Option<Param>)
    returns (c: Conditions, whereClause: string)
    ensures c == Pushed(WasteFilters(orderId, startDate, endDate))
    ensures whereClause == Clause("WHERE", c.conds)
  {
    var f0, f1, f2 := Filter("w.order_id =", orderId), Filter("w.date >=", startDate), Filter("w.date <=", endDate);
    ghost var fs: seq<Filter> := [];
    c := Conditions([], []);
    c := PushGiven(c, f0);
    PushedSnoc(fs, f0);
    fs := fs + [f0];
    c := PushGiven(c, f1);
    PushedSnoc(fs, f1);
    fs := fs + [f1];
    c := PushGiven(c, f2);
    PushedSnoc(fs, f2);
    fs := fs + [f2];
    assert fs == [f0, f1, f2];
    whereClause := Clause("WHERE", c.conds);
  }

  /** What getProductionOrderCostAnalysis returns; money is not rounded here. */
  datatype CostAnalysis = CostAnalysis(orderId: OrderId, orderNumber: string, productId: Option<ProductId>,
                                       quantityProduced: real, materialCost: real, laborCost: real,
                                       wasteCost: real, totalCost: real, costPerUnit: Option<real>)

  /** The assumed cost of one kilogram of waste. */
  const WASTE_COST_PER_KG: real := 25.0

  /** `parseFloat(sum) || 0`: a SUM over no rows is NULL and counts as 0. */
  function SumOrZero(sum: Option<real>): real {
    sum.GetOr(0.0)
  }

  /**
   * The arithmetic of getProductionOrderCostAnalysis over the three query
   * results: `order` is the order row (number and quantity), absent when the
   * order does not exist. product_id is never selected, so it is always
   * absent; the cost per unit is absent when the quantity is 0, where
   * `toFixed(2)` prints "Infinity" (or "NaN" when the total is also 0).
   */
  function CostAnalysisOf(orderId: OrderId, order: Option<(string, real)>, materialSum: Option<real>, wasteSum: Option<real>)
    : (r: Result<CostAnalysis, Error>)
    ensures order.None? <==> r == Err(ProductionOrderNotFound)
    ensures r.Ok? ==>
              var a := r.value;
              && a.materialCost == SumOrZero(materialSum) && a.laborCost == 0.0
              && a.wasteCost == WASTE_COST_PER_KG * SumOrZero(wasteSum)
              && a.totalCost == a.materialCost + a.laborCost + a.wasteCost
              && a.productId.None?
              && (a.quantityProduced == 0.0 <==> a.costPerUnit.None?)
              && (a.costPerUnit.Some? ==> a.costPerUnit.value * a.quantityProduced == a.totalCost)
  {
    if order.None? then Err(ProductionOrderNotFound)
    else
      var (number, quantity) := order.value;
      var material := SumOrZero(materialSum);
      var waste := SumOrZero(wasteSum) * WASTE_COST_PER_KG;
      var labor := 0.0;
      var total := material + labor + waste;
      Ok(CostAnalysis(orderId, number, None, quantity, material, labor, waste, total,
                      if quantity == 0.0 then None else Some(total / quantity)))
  }
}
