/**
 * The production HTTP handlers: the status whitelist, the guards checked
 * before the service is called, the token's user overriding the body, and
 * the mapping of service errors to status codes.
 */
module ProductionController {
  import opened Wrappers
  import opened Database
  import opened Inventory
  import opened Production
  import opened Http

  /** The statuses changeStatus accepts. */
  const PRODUCTION_STATUSES: seq<string> := ["PENDING", "IN_PROGRESS", "COMPLETED", "CANCELLED"]

  /** The processes addWaste accepts. */
  const WASTE_PROCESSES: seq<string> := ["EXTRUSION", "BLOWING"]

  // ---------------------------------------------------------------------
  // Orders
  // ---------------------------------------------------------------------

  /** createOrder: the order is created in the name of the token's user, whatever the body says. */
  method CreateOrder(db: Db, body: OrderInput, user: UserId, id: OrderId, today: string) returns (resp: Response)
    requires db.saved.None? && id !in db.productionOrders
    modifies db
    ensures var s := InsertProductionOrder(old(db.State()), body.(createdBy := Some(user)), id, today);
            && db.State() == Settle(false, old(db.State()), s)
            && (resp.status == 201 <==> s.result.Ok?)
            && (resp.status != 201 ==> resp.status == 500)
    ensures resp.status == 201 ==> db.productionOrders[id].createdBy == Some(user)
  {
    var r := CreateProductionOrder(db, body.(createdBy := Some(user)), id, today);
    resp := if r.Ok? then Response(201, "Orden de producción creada.") else Response(500, "Error al crear la orden de producción.");
  }

  /**
   * changeStatus: a status outside the whitelist is refused with 400 before
   * the service runs; an unknown order is 404.
   */
  method ChangeStatus(db: Db, id: OrderId, status: Option<string>) returns (resp: Response)
    modifies db
    ensures resp.status == 400 <==> !Whitelisted(status, PRODUCTION_STATUSES)
    ensures resp.status == 404 <==> Whitelisted(status, PRODUCTION_STATUSES) && id !in old(db.productionOrders)
    ensures resp.status == 200 <==> Whitelisted(status, PRODUCTION_STATUSES) && id in old(db.productionOrders)
    ensures resp.status == 200 ==>
              db.State() == old(db.State()).(productionOrders := old(db.productionOrders)[id := old(db.productionOrders)[id].(status := status.value)])
    ensures resp.status != 200 ==> db.State() == old(db.State())
    ensures db.saved == old(db.saved) && db.txLog == old(db.txLog)
  {
    if !Whitelisted(status, PRODUCTION_STATUSES) {
      return Response(400, "Estado no válido.");
    }
    var order := UpdateProductionOrderStatus(db, id, status.value);
    if order.None? {
      return Response(404, "Orden de producción no encontrada.");
    }
    resp := Response(200, "Estado actualizado a " + status.value);
  }

  /** Only the four production statuses pass; anything else, or nothing, is refused. */
  lemma ProductionWhitelist(status: string)
    ensures Whitelisted(Some(status), PRODUCTION_STATUSES) <==>
              (status == "PENDING" || status == "IN_PROGRESS" || status == "COMPLETED" || status == "CANCELLED")
    ensures !Whitelisted(None, PRODUCTION_STATUSES)
  {
  }

  // ---------------------------------------------------------------------
  // Consumption
  // ---------------------------------------------------------------------

  /**
   * The fields addConsumption reads from the request body. `client` says
   * whether the body carries a truthy `client` field, which the spread hands
   * to the service in place of a connection.
   */
  datatype ConsumptionBody = ConsumptionBody(materialId: Option<ProductId>, consumedQuantity: Option<real>, userId: Option<UserId>,
                                             client: bool)

  /** The guard of addConsumption: a material and a positive quantity. */
  predicate ConsumptionGuard(b: ConsumptionBody) {
    b.materialId.Some? && b.materialId.value != 0 && PositiveQuantity(b.consumedQuantity)
  }

  /** What the service receives: the body with the token's user in place of its own. */
  function ConsumptionOf(b: ConsumptionBody, user: UserId): (c: ConsumptionInput)
    requires ConsumptionGuard(b)
    ensures c.userId == Some(user) && c.materialId == b.materialId.value && c.quantity == b.consumedQuantity.value
    ensures c.quantity > 0.0
  {
    ConsumptionInput(b.materialId.value, b.consumedQuantity.value, Some(user))
  }

  /** addConsumption's response: 201; 400 for a shortage, with its message; 500 with the message otherwise. */
  function ConsumptionResponse(r: Result<Consumption, Error>): (resp: Response)
    ensures r.Ok? <==> resp.status == 201
    ensures r.Err? ==> (resp.status == 400 <==> IsStockShortage(r.error)) && (resp.status != 400 ==> resp.status == 500)
    ensures r.Err? ==> resp.message == MessageOr(r.error, "Error al registrar el consumo.")
  {
    if r.Ok? then Response(201, "Consumo registrado exitosamente.")
    else if IsStockShortage(r.error) then Response(400, Message(r.error))
    else Response(500, MessageOr(r.error, "Error al registrar el consumo."))
  }

  /** A consumption on an unknown order is answered 500 with the not-found message. */
  lemma UnknownOrderConsumptionIsServerError(t: Tables, orderId: OrderId, c: ConsumptionInput, date: string)
    requires orderId !in t.productionOrders
    ensures ConsumptionResponse(ConsumptionStep(t, orderId, c, date).result) == Response(500, Message(ProductionOrderNotFound))
  {
    OrderNotFoundIsNoShortage();
  }

  /** A consumption larger than the material's stock is answered 400. */
  lemma ConsumptionShortageIsClientError(t: Tables, orderId: OrderId, c: ConsumptionInput, date: string)
    requires orderId in t.productionOrders && c.materialId in t.products
    requires t.products[c.materialId].currentStock < c.quantity
    ensures ConsumptionResponse(ConsumptionStep(t, orderId, c, date).result).status == 400
  {
    var r := ConsumptionStep(t, orderId, c, date).result;
    var row := Consumption(orderId, c.materialId, c.quantity, date);
    var t1 := t.(consumptions := t.consumptions + [row]);
    var exit := ConsumptionExit(t.productionOrders[orderId].orderNumber, c);
    assert r == Err(ExitStep(t1, exit).result.error);
    InsufficientStockIsShortage(c.materialId, t1.products[c.materialId].currentStock, c.quantity);
  }

  /** The TypeError a body `client` raises is answered 500 with its own message. */
  lemma TypeErrorConsumptionResponse()
    ensures ConsumptionResponse(Err(QueryNotAFunction)) == Response(500, "client.query is not a function")
  {
    NoShortageWithoutS(QueryNotAFunction);
  }

  /**
   * addConsumption: the guard first, then the service in its own
   * transaction. A body `client` reaches the service as its connection: the
   * service skips BEGIN, its first query throws a TypeError, and ROLLBACK and
   * release are skipped too, so nothing is written and 500 is answered.
   */
  method AddConsumption(db: Db, orderId: OrderId, body: ConsumptionBody, user: UserId, date: string) returns (resp: Response)
    requires db.saved.None?
    modifies db
    ensures !ConsumptionGuard(body) ==> resp.status == 400 && db.State() == old(db.State())
    ensures ConsumptionGuard(body) && body.client ==>
              && resp == Response(500, "client.query is not a function")
              && db.State() == old(db.State()) && db.txLog == old(db.txLog)
    ensures ConsumptionGuard(body) && !body.client ==>
              var s := ConsumptionStep(old(db.State()), orderId, ConsumptionOf(body, user), date);
              resp == ConsumptionResponse(s.result) && db.State() == Settle(false, old(db.State()), s)
  {
    if !ConsumptionGuard(body) {
      return Response(400, "Faltan datos requeridos (material, cantidad > 0).");
    }
    if body.client {
      TypeErrorConsumptionResponse();
      return ConsumptionResponse(Err(QueryNotAFunction));
    }
    var r := RegisterConsumption(db, orderId, ConsumptionOf(body, user), date, false);
    resp := ConsumptionResponse(r);
  }

  // ---------------------------------------------------------------------
  // Batches
  // ---------------------------------------------------------------------

  /** The fields addBatch reads from the request body; `client` as for a consumption. */
  datatype BatchBody = BatchBody(batchNumber: Option<string>, quantityProduced: Option<real>, productionDate: Option<string>,
                                 quality: Option<string>, userId: Option<UserId>, client: bool)

  /** The guard of addBatch: a batch number and a positive quantity. */
  predicate BatchGuard(b: BatchBody) {
    b.batchNumber.Some? && b.batchNumber.value != "" && PositiveQuantity(b.quantityProduced)
  }

  /** What the service receives: the body with the token's user in place of its own. */
  function BatchOf(b: BatchBody, user: UserId): (i: BatchInput)
    requires BatchGuard(b)
    ensures i.userId == Some(user) && i.batchNumber == b.batchNumber.value && i.quantityProduced > 0.0
  {
    BatchInput(b.batchNumber.value, b.quantityProduced.value, b.productionDate, b.quality, Some(user))
  }

  /** addBatch's response: 201, or 400 with the service's message for every error. */
  function BatchResponse(r: Result<Batch, Error>): (resp: Response)
    ensures r.Ok? <==> resp.status == 201
    ensures r.Err? <==> resp.status == 400
    ensures r.Err? ==> resp.message == MessageOr(r.error, "Error al registrar el lote.")
  {
    if r.Ok? then Response(201, "Lote de producción registrado y stock actualizado.")
    else Response(400, MessageOr(r.error, "Error al registrar el lote."))
  }

  /** A batch for an unknown order gets the generic message, never "not found". */
  lemma UnknownOrderBatchResponse(t: Tables, orderId: OrderId, b: BatchInput, now: string)
    requires orderId !in t.productionOrders
    ensures BatchResponse(BatchStep(t, orderId, b, now).result) == Response(400, Message(BatchRegistrationFailed))
  {
    MissingOrderMasked(t, orderId, b, now);
  }

  /**
   * addBatch: the guard first, then the service in its own transaction. A
   * body `client` makes the service's first query throw a TypeError, which
   * its catch turns into the generic registration error: 400, and nothing
   * written.
   */
  method AddBatch(db: Db, orderId: OrderId, body: BatchBody, user: UserId, now: string) returns (resp: Response)
    requires db.saved.None?
    modifies db
    ensures !BatchGuard(body) ==> resp.status == 400 && db.State() == old(db.State())
    ensures BatchGuard(body) && body.client ==>
              && resp == Response(400, Message(BatchRegistrationFailed))
              && db.State() == old(db.State()) && db.txLog == old(db.txLog)
    ensures BatchGuard(body) && !body.client ==>
              var s := BatchStep(old(db.State()), orderId, BatchOf(body, user), now);
              resp == BatchResponse(s.result) && db.State() == Settle(false, old(db.State()), s)
  {
    if !BatchGuard(body) {
      return Response(400, "Faltan datos requeridos (número de lote, cantidad > 0).");
    }
    if body.client {
      return BatchResponse(Err(Translate(QueryNotAFunction, body.batchNumber.value)));
    }
    var r := RegisterProductionBatch(db, orderId, BatchOf(body, user), now, false);
    resp := BatchResponse(r);
  }

  // ---------------------------------------------------------------------
  // Wastes
  // ---------------------------------------------------------------------

  /** The guard of addWaste: a whitelisted process and a positive quantity. */
  predicate WasteGuard(process: Option<string>, quantity: Option<real>) {
    Whitelisted(process, WASTE_PROCESSES) && PositiveQuantity(quantity)
  }

  /** Exactly EXTRUSION and BLOWING with a positive quantity pass the waste guard. */
  lemma WasteGuardIff(process: Option<string>, quantity: Option<real>)
    ensures WasteGuard(process, quantity) <==>
              (process in {Some("EXTRUSION"), Some("BLOWING")} && quantity.Some? && quantity.value > 0.0)
  {
  }
}
