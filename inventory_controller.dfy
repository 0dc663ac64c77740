/**
 * The inventory HTTP handlers: how each service outcome becomes a status
 * code, and the audit row written only after the service call succeeded.
 */
module InventoryController {
  import opened Wrappers
  import opened Query
  import opened Database
  import opened Inventory
  import opened Audit
  import opened Http

  /** The details object logged for a movement: its id, product and signed quantity, as returned by the service. */
  function MovementDetails(mv: Movement): Body {
    [("movementId", JsNum(mv.id as real)), ("productId", JsNum(mv.productId as real)), ("quantity", JsNum(mv.quantity))]
  }

  /** The audit rows a handler adds: one, after a successful call, unless the audit insert itself fails. */
  function AuditTrail<T>(user: UserId, action: string, r: Result<T, Error>, details: Body, auditFails: bool): (rows: seq<AuditEntry>)
    ensures |rows| <= 1
    ensures rows != [] <==> r.Ok? && !auditFails
  {
    if r.Ok? && !auditFails then [AuditEntry(Some(user), action, details)] else []
  }

  // ---------------------------------------------------------------------
  // Entry and exit movements
  // ---------------------------------------------------------------------

  /** registerEntryMovement's response: 201 on success, 500 for every error. */
  function EntryResponse(r: Result<Movement, Error>): (resp: Response)
    ensures r.Ok? <==> resp.status == 201
    ensures r.Err? <==> resp.status == 500
  {
    if r.Ok? then Response(201, "Movimiento de entrada registrado y stock actualizado.")
    else Response(500, "Error al registrar la entrada.")
  }

  /**
   * registerExitMovement's response: 201 on success; an error whose message
   * mentions a shortage is 400 with that message; any other error is 500.
   */
  function ExitResponse(r: Result<Movement, Error>): (resp: Response)
    ensures r.Ok? <==> resp.status == 201
    ensures r.Err? ==> (resp.status == 400 <==> IsStockShortage(r.error))
    ensures r.Err? && resp.status == 400 ==> resp.message == Message(r.error)
    ensures resp.status in {201, 400, 500}
  {
    if r.Ok? then Response(201, "Movimiento de salida registrado y stock actualizado.")
    else if IsStockShortage(r.error) then Response(400, Message(r.error))
    else Response(500, "Error al registrar la salida.")
  }

  /** An exit larger than the stock is answered 400, with the service's message. */
  lemma ExitShortageIsClientError(t: Tables, m: MovementInput)
    requires m.productId in t.products && t.products[m.productId].currentStock < m.quantity
    ensures ExitResponse(ExitStep(t, m).result)
              == Response(400, Message(InsufficientStock(m.productId, t.products[m.productId].currentStock, m.quantity)))
  {
    InsufficientStockIsShortage(m.productId, t.products[m.productId].currentStock, m.quantity);
  }

  /** An exit on a missing product is answered 500. */
  lemma ExitMissingProductIsServerError(t: Tables, m: MovementInput)
    requires m.productId !in t.products
    ensures ExitResponse(ExitStep(t, m).result).status == 500
  {
    ProductNotFoundIsNoShortage();
  }

  /**
   * Nothing between the request body and the ledger checks the quantity: a
   * negative entry on an existing product is accepted and lowers the stock.
   */
  lemma NegativeEntryAccepted(t: Tables, m: MovementInput)
    requires m.productId in t.products && m.quantity < 0.0
    ensures EntryResponse(EntryStep(t, m).result).status == 201
    ensures EntryStep(t, m).tables.products[m.productId].currentStock < t.products[m.productId].currentStock
  {
  }

  /** registerEntryMovement: the service in its own transaction, then the audit row. */
  method RegisterEntryMovement(db: Db, log: AuditLog, user: UserId, body: MovementInput, auditFails: bool)
    returns (resp: Response)
    requires db.saved.None?
    modifies db, log
    ensures resp == EntryResponse(EntryStep(old(db.State()), body).result)
    ensures db.State() == Settle(false, old(db.State()), EntryStep(old(db.State()), body))
    ensures EntryStep(old(db.State()), body).result.Ok? ==>
              log.entries == old(log.entries) + AuditTrail(user, "INVENTORY_ENTRY", EntryStep(old(db.State()), body).result,
                                                           MovementDetails(EntryStep(old(db.State()), body).result.value), auditFails)
    ensures EntryStep(old(db.State()), body).result.Err? ==> log.entries == old(log.entries)
  {
    var r := CreateEntryMovement(db, body, false);
    if r.Ok? {
      log.LogAction(Some(user), "INVENTORY_ENTRY", MovementDetails(r.value), auditFails);
    }
    resp := EntryResponse(r);
  }

  /** registerExitMovement: the service in its own transaction, then the audit row. */
  method RegisterExitMovement(db: Db, log: AuditLog, user: UserId, body: MovementInput, auditFails: bool)
    returns (resp: Response)
    requires db.saved.None?
    modifies db, log
    ensures resp == ExitResponse(ExitStep(old(db.State()), body).result)
    ensures db.State() == Settle(false, old(db.State()), ExitStep(old(db.State()), body))
    ensures ExitStep(old(db.State()), body).result.Ok? ==>
              log.entries == old(log.entries) + AuditTrail(user, "INVENTORY_EXIT", ExitStep(old(db.State()), body).result,
                                                           MovementDetails(ExitStep(old(db.State()), body).result.value), auditFails)
    ensures ExitStep(old(db.State()), body).result.Err? ==> log.entries == old(log.entries)
  {
    var r := CreateExitMovement(db, body, false);
    if r.Ok? {
      log.LogAction(Some(user), "INVENTORY_EXIT", MovementDetails(r.value), auditFails);
    }
    resp := ExitResponse(r);
  }

  // ---------------------------------------------------------------------
  // Product handlers
  // ---------------------------------------------------------------------

  /** A PostgreSQL unique violation. */
  predicate IsDuplicate(e: Error) {
    e.DbError? && e.code == UNIQUE_VIOLATION
  }

  /** registerProduct's response: 201, 400 for a duplicate SKU, 500 otherwise. */
  function RegisterProductResponse(sku: string, r: Result<Product, Error>): (resp: Response)
    ensures r.Ok? <==> resp.status == 201
    ensures r.Err? ==> (resp.status == 400 <==> IsDuplicate(r.error)) && (resp.status != 400 ==> resp.status == 500)
  {
    if r.Ok? then Response(201, "Producto registrado correctamente")
    else if IsDuplicate(r.error) then Response(400, "El SKU '" + sku + "' ya existe.")
    else Response(500, "Error al registrar el producto.")
  }

  /** A second product with a SKU already in use is answered 400. */
  lemma DuplicateSkuIsClientError(t: Tables, id: ProductId, p: ProductInput, other: ProductId)
    requires id !in t.products && other in t.products && t.products[other].sku == p.sku
    ensures RegisterProductResponse(p.sku, InsertProduct(t, id, p).result).status == 400
  {
  }

  /** registerProduct: the insert, then the audit row with the new id and SKU. */
  method RegisterProduct(db: Db, log: AuditLog, user: UserId, id: ProductId, p: ProductInput, auditFails: bool)
    returns (resp: Response)
    requires id !in db.products
    modifies db, log
    ensures resp == RegisterProductResponse(p.sku, InsertProduct(old(db.State()), id, p).result)
    ensures db.State() == InsertProduct(old(db.State()), id, p).tables
    ensures log.entries == old(log.entries)
              + AuditTrail(user, "CREATE_PRODUCT", InsertProduct(old(db.State()), id, p).result,
                           [("productId", JsNum(id as real)), ("sku", JsStr(p.sku))], auditFails)
  {
    var r := CreateProduct(db, id, p);
    if r.Ok? {
      log.LogAction(Some(user), "CREATE_PRODUCT", [("productId", JsNum(id as real)), ("sku", JsStr(r.value.sku))], auditFails);
    }
    resp := RegisterProductResponse(p.sku, r);
  }

  /**
   * updateProductDetails' response for the outcome of updateProduct (the
   * updated row, or none when no product has that id).
   */
  function UpdateProductResponse(r: Result<Option<Product>, Error>): (resp: Response)
    ensures resp.status == 200 <==> r.Ok? && r.value.Some?
    ensures resp.status == 404 <==> r.Ok? && r.value.None?
    ensures resp.status == 400 <==> r.Err? && IsDuplicate(r.error)
    ensures resp.status in {200, 400, 404, 500}
  {
    if r.Err? then
      if IsDuplicate(r.error) then Response(400, "El SKU ya está en uso por otro producto.")
      else Response(500, "Error al actualizar el producto.")
    else if r.value.None? then Response(404, "Producto no encontrado para actualizar.")
    else Response(200, "Producto actualizado correctamente.")
  }

  /** updateProductDetails: the audit row is written only when a product was updated. */
  method UpdateProductDetails(log: AuditLog, user: UserId, id: ProductId, outcome: Result<Option<Product>, Error>, auditFails: bool)
    returns (resp: Response)
    modifies log
    ensures resp == UpdateProductResponse(outcome)
    ensures log.entries == old(log.entries)
              + (if resp.status == 200 && !auditFails then [AuditEntry(Some(user), "UPDATE_PRODUCT", [("productId", JsNum(id as real))])] else [])
  {
    resp := UpdateProductResponse(outcome);
    if outcome.Ok? && outcome.value.Some? {
      log.LogAction(Some(user), "UPDATE_PRODUCT", [("productId", JsNum(id as real))], auditFails);
    }
  }

  /** removeProduct's response for the outcome of deleteProduct (whether a row was deleted). */
  function RemoveProductResponse(r: Result<bool, Error>): (resp: Response)
    ensures resp.status == 200 <==> r == Ok(true)
    ensures resp.status == 404 <==> r == Ok(false)
    ensures resp.status == 500 <==> r.Err?
  {
    if r.Err? then Response(500, "Error al eliminar el producto.")
    else if !r.value then Response(404, "Producto no encontrado para eliminar.")
    else Response(200, "Producto eliminado correctamente.")
  }

  /** removeProduct: the audit row is written only when a product was deleted. */
  method RemoveProduct(log: AuditLog, user: UserId, id: ProductId, outcome: Result<bool, Error>, auditFails: bool)
    returns (resp: Response)
    modifies log
    ensures resp == RemoveProductResponse(outcome)
    ensures log.entries == old(log.entries)
              + (if resp.status == 200 && !auditFails then [AuditEntry(Some(user), "DELETE_PRODUCT", [("productId", JsNum(id as real))])] else [])
  {
    resp := RemoveProductResponse(outcome);
    if outcome == Ok(true) {
      log.LogAction(Some(user), "DELETE_PRODUCT", [("productId", JsNum(id as real))], auditFails);
    }
  }
}
