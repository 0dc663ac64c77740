/**
 * The sales HTTP handlers: the non-empty order guard, the token's user
 * overriding the body, the status whitelist and the error mapping.
 */
module SalesController {
  import opened Wrappers
  import opened Database
  import opened Sales
  import opened Http

  /** The statuses changeOrderStatus accepts; QUOTE, the status orders are created with, is not one of them. */
  const SALES_STATUSES: seq<string> := ["CONFIRMED", "IN_PROGRESS", "COMPLETED", "CANCELLED"]

  /** The fields createOrder reads from the request body; `products` may be missing. */
  datatype OrderBody = OrderBody(clientId: ClientId, userId: Option<UserId>, notes: Option<string>,
                                 products: Option<seq<LineInput>>, deliveryDate: Option<string>)

  /** The guard of createOrder: at least one product line. */
  predicate HasProducts(b: OrderBody) {
    b.products.Some? && |b.products.value| != 0
  }

  /** What the service receives: the body with the token's user in place of its own. */
  function OrderOf(b: OrderBody, user: UserId): (o: OrderInput)
    requires HasProducts(b)
    ensures o.userId == Some(user) && o.lines == b.products.value && o.lines != []
    ensures o.clientId == b.clientId
  {
    OrderInput(b.clientId, Some(user), b.notes, b.products.value, b.deliveryDate)
  }

  /** createOrder's response: 201, or 400 with the service's message for every error. */
  function CreateOrderResponse(r: Result<Created, Error>): (resp: Response)
    ensures r.Ok? <==> resp.status == 201
    ensures r.Err? <==> resp.status == 400
    ensures r.Err? ==> resp.message == MessageOr(r.error, "Error al procesar el pedido.")
  {
    if r.Ok? then Response(201, "Pedido creado exitosamente.")
    else Response(400, MessageOr(r.error, "Error al procesar el pedido."))
  }

  /** An order over the client's credit limit is answered 400 with the credit message. */
  lemma CreditRejectionIsClientError(t: Tables, o: OrderInput, id: OrderId, today: string)
    requires id !in t.salesOrders && o.clientId in t.clients && CreditExceeded(t, o)
    ensures CreateOrderResponse(SalesOrderStep(t, o, id, today).result).status == 400
    ensures SalesOrderStep(t, o, id, today).result.error.CreditLimitExceeded?
  {
  }

  /** createOrder: the guard first, then the service. */
  method CreateOrder(db: Db, body: OrderBody, user: UserId, id: OrderId, today: string) returns (resp: Response)
    requires db.saved.None? && id !in db.salesOrders
    modifies db
    ensures !HasProducts(body) ==> resp.status == 400 && db.State() == old(db.State())
    ensures HasProducts(body) ==>
              var s := SalesOrderStep(old(db.State()), OrderOf(body, user), id, today);
              resp == CreateOrderResponse(s.result) && db.State() == Settle(false, old(db.State()), s)
  {
    if !HasProducts(body) {
      return Response(400, "El pedido debe contener al menos un producto.");
    }
    var r := CreateSalesOrder(db, OrderOf(body, user), id, today);
    resp := CreateOrderResponse(r);
  }

  /**
   * changeOrderStatus: a status outside the whitelist is refused with 400
   * before the service runs; an unknown order is 404.
   */
  method ChangeOrderStatus(db: Db, id: OrderId, status: Option<string>) returns (resp: Response)
    modifies db
    ensures resp.status == 400 <==> !Whitelisted(status, SALES_STATUSES)
    ensures resp.status == 404 <==> Whitelisted(status, SALES_STATUSES) && id !in old(db.salesOrders)
    ensures resp.status == 200 <==> Whitelisted(status, SALES_STATUSES) && id in old(db.salesOrders)
    ensures resp.status == 200 ==>
              db.State() == old(db.State()).(salesOrders := old(db.salesOrders)[id := old(db.salesOrders)[id].(status := status.value)])
    ensures resp.status != 200 ==> db.State() == old(db.State())
    ensures db.saved == old(db.saved) && db.txLog == old(db.txLog)
  {
    if !Whitelisted(status, SALES_STATUSES) {
      return Response(400, "Estado no válido.");
    }
    var order := UpdateOrderStatus(db, id, status.value);
    if order.None? {
      return Response(404, "Pedido no encontrado.");
    }
    resp := Response(200, "Pedido actualizado al estado: " + status.value);
  }

  /** No request can put an order back to QUOTE. */
  lemma QuoteCannotBeSet()
    ensures !Whitelisted(Some("QUOTE"), SALES_STATUSES)
  {
  }

  /** createNewClient's response for the outcome of createClient: 400 for a duplicate code, 500 otherwise. */
  function CreateClientResponse(r: Result<ClientId, Error>): (resp: Response)
    ensures r.Ok? <==> resp.status == 201
    ensures r.Err? ==> (resp.status == 400 <==> r.error.DbError? && r.error.code == UNIQUE_VIOLATION)
    ensures resp.status in {201, 400, 500}
  {
    if r.Ok? then Response(201, "Cliente creado exitosamente.")
    else if r.error.DbError? && r.error.code == UNIQUE_VIOLATION then Response(400, "El código de cliente ya existe.")
    else Response(500, "Error al crear el cliente.")
  }
}
