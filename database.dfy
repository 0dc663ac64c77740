/**
 * The PostgreSQL tables the stock ledger and the operations built on it read
 * and write, the errors those operations throw, and a connection that can
 * open, commit and roll back a transaction.
 */
module Database {
  import opened Wrappers
  import opened Text

  type ProductId = nat
  type ClientId = nat
  type OrderId = nat
  type UserId = nat

  /** A row of `products`; `currentStock` is the denormalised stock counter. */
  datatype Product = Product(sku: string, kind: string, minStock: real, currentStock: real,
                             supplierId: Option<nat>, isActive: bool)

  datatype MovementKind = Entry | Exit

  /**
   * A row of the append-only `inventory_movements` table. `quantity` is
   * signed: an entry records +q and an exit records -q. `id` is the row's
   * serial number, taken here as its 1-based position in the table.
   */
  datatype Movement = Movement(id: nat, productId: ProductId, kind: MovementKind, quantity: real,
                               userId: Option<UserId>, reference: Option<string>,
                               notes: Option<string>, batch: Option<string>)

  /** A row of `clients`: its credit limit as `parseFloat` reads it, None when the column is NULL (NaN). */
  datatype Client = Client(creditLimit: Option<real>)

  /** A row of `invoices`: the sales order it bills and its status (PENDING, OVERDUE, PAID, …). */
  datatype Invoice = Invoice(orderId: OrderId, status: string)

  datatype SalesOrder = SalesOrder(orderNumber: string, clientId: ClientId, subtotal: real, tax: real,
                                   total: real, notes: Option<string>, createdBy: Option<UserId>,
                                   status: string, deliveryDate: Option<string>)

  /** A row of `order_products`. */
  datatype OrderLine = OrderLine(orderId: OrderId, productId: ProductId, quantity: real, price: real)

  datatype ProductionOrder = ProductionOrder(orderNumber: string, productId: ProductId, quantity: real,
                                             status: string, priority: string, createdBy: Option<UserId>,
                                             notes: Option<string>)

  /** A row of `production_consumptions`. */
  datatype Consumption = Consumption(orderId: OrderId, materialId: ProductId, consumedQuantity: real, date: string)

  /** A row of `production_batches`, kept under its unique `batch_number`. */
  datatype Batch = Batch(orderId: OrderId, productionDate: string, quality: string)

  /** The contents of every table the ledger operations touch. */
  datatype Tables = Tables(
    products: map<ProductId, Product>,
    movements: seq<Movement>,
    clients: map<ClientId, Client>,
    invoices: seq<Invoice>,
    salesOrders: map<OrderId, SalesOrder>,
    orderLines: seq<OrderLine>,
    productionOrders: map<OrderId, ProductionOrder>,
    consumptions: seq<Consumption>,
    batches: map<string, Batch>)

  /** What the services throw. */
  datatype Error =
    | ProductNotFound                                   // exit on a missing product
    | ProductIdNotFound(productId: ProductId)           // sales line on a missing product
    | ClientNotFound
    | ProductionOrderNotFound
    | InsufficientStock(productId: ProductId, available: real, requested: real)   // ledger exit
    | LineStockShort(productId: ProductId, available: real)                      // sales line
    | CreditLimitExceeded(limit: real, outstanding: real, total: real)
    | DuplicateBatch(batchNumber: string)
    | BatchRegistrationFailed
    | DbError(code: string, constraint: string, text: string)                    // raised by PostgreSQL
    | PayrollDatesMissing
    | ConditionsNotDefined                              // the ReferenceError of the profit report
    | QueryNotAFunction                                 // the TypeError of calling `query` on a value that is no connection

  /** `error.message`; amounts printed inside the message are not rendered here. */
  function Message(e: Error): string {
    match e
    case ProductNotFound => "Producto no encontrado."
    case ProductIdNotFound(p) => "Producto con ID " + NatToString(p) + " no encontrado."
    case ClientNotFound => "Cliente no encontrado."
    case ProductionOrderNotFound => "Orden de producción no encontrada."
    case InsufficientStock(p, _, _) => "Stock insuficiente para producto ID " + NatToString(p) + ". Disponible: …, Requerido: …"
    case LineStockShort(p, _) => "Stock insuficiente para el producto ID " + NatToString(p) + ". Stock disponible: …"
    case CreditLimitExceeded(_, _, _) => "Límite de crédito excedido. Límite: …, Saldo Pendiente: …, Total de este pedido: …."
    case DuplicateBatch(b) => "El número de lote '" + b + "' ya existe."
    case BatchRegistrationFailed => "Error al registrar el lote de producción."
    case DbError(_, _, text) => text
    case PayrollDatesMissing => "Se requieren fechas de inicio y fin para el reporte de nómina."
    case ConditionsNotDefined => "conditions is not defined"
    case QueryNotAFunction => "client.query is not a function"
  }

  /** PostgreSQL's unique-violation code. */
  const UNIQUE_VIOLATION := "23505"
  /** PostgreSQL's foreign-key-violation code. */
  const FOREIGN_KEY_VIOLATION := "23503"

  /**
   * The result of the statements a service runs inside its transaction, and
   * the state they leave behind before any COMMIT or ROLLBACK.
   */
  datatype Step<T> = Step(result: Result<T, Error>, tables: Tables)

  /**
   * What persists once the service returns: a service that opened its own
   * transaction rolls back to `before` when it fails; with a caller-supplied
   * client it leaves its writes in the caller's transaction, failed or not.
   */
  function Settle<T>(existing: bool, before: Tables, s: Step<T>): Tables {
    if s.result.Err? && !existing then before else s.tables
  }

  /** Transaction-control commands issued on a connection. */
  datatype TxCommand = BeginTx | CommitTx | RollbackTx | ReleaseClient

  /** What a service that opens its own transaction issues: BEGIN, COMMIT or ROLLBACK, then release. */
  function OwnTransaction(committed: bool): seq<TxCommand> {
    [BeginTx, if committed then CommitTx else RollbackTx, ReleaseClient]
  }

  // ---------------------------------------------------------------------
  // The ledger invariant
  // ---------------------------------------------------------------------

  /** The signed sum of the movements recorded for product `p`. */
  function Balance(movs: seq<Movement>, p: ProductId): real {
    if movs == [] then 0.0
    else Balance(movs[..|movs| - 1], p) + (if movs[|movs| - 1].productId == p then movs[|movs| - 1].quantity else 0.0)
  }

  lemma BalanceAppend(movs: seq<Movement>, m: Movement, p: ProductId)
    ensures Balance(movs + [m], p) == Balance(movs, p) + (if m.productId == p then m.quantity else 0.0)
  {
    assert (movs + [m])[..|movs|] == movs;
  }

  /** A product that no movement names has a zero balance. */
  lemma {:induction false} BalanceUnreferenced(movs: seq<Movement>, p: ProductId)
    requires forall i :: 0 <= i < |movs| ==> movs[i].productId != p
    ensures Balance(movs, p) == 0.0
  {
    if movs != [] {
      BalanceUnreferenced(movs[..|movs| - 1], p);
    }
  }

  /**
   * Every movement names an existing product, and every product's stock
   * equals the signed sum of its movements.
   */
  predicate Consistent(t: Tables) {
    && (forall i :: 0 <= i < |t.movements| ==> t.movements[i].productId in t.products)
    && (forall p :: p in t.products ==> t.products[p].currentStock == Balance(t.movements, p))
  }

  /** No product's stock is negative. */
  predicate NonNegative(t: Tables) {
    forall p :: p in t.products ==> t.products[p].currentStock >= 0.0
  }

  /** The stock of `p` changed by exactly `delta`; no other product and no other column changed. */
  predicate Adjusted(before: map<ProductId, Product>, after: map<ProductId, Product>, p: ProductId, delta: real) {
    && p in before
    && after.Keys == before.Keys
    && after[p] == before[p].(currentStock := before[p].currentStock + delta)
    && forall q :: q in before && q != p ==> after[q] == before[q]
  }

  /** `current_stock = current_stock + delta` on product `p`. */
  function AddStock(products: map<ProductId, Product>, p: ProductId, delta: real): (r: map<ProductId, Product>)
    requires p in products
    ensures Adjusted(products, r, p, delta)
  {
    products[p := products[p].(currentStock := products[p].currentStock + delta)]
  }

  // ---------------------------------------------------------------------
  // A connection to the database
  // ---------------------------------------------------------------------

  /**
   * The database as one connection sees it. `saved` is the state BEGIN
   * recorded, present while a transaction is open; ROLLBACK restores it.
   */
  class Db {
    var products: map<ProductId, Product>
    var movements: seq<Movement>
    var clients: map<ClientId, Client>
    var invoices: seq<Invoice>
    var salesOrders: map<OrderId, SalesOrder>
    var orderLines: seq<OrderLine>
    var productionOrders: map<OrderId, ProductionOrder>
    var consumptions: seq<Consumption>
    var batches: map<string, Batch>
    var saved: Option<Tables>
    var txLog: seq<TxCommand>

    function State(): Tables
      reads this
    {
      Tables(products, movements, clients, invoices, salesOrders, orderLines, productionOrders, consumptions, batches)
    }

    constructor (t: Tables)
      ensures State() == t && saved == None && txLog == []
    {
      products, movements, clients, invoices := t.products, t.movements, t.clients, t.invoices;
      salesOrders, orderLines, productionOrders := t.salesOrders, t.orderLines, t.productionOrders;
      consumptions, batches := t.consumptions, t.batches;
      saved, txLog := None, [];
    }

    method Begin()
      requires saved.None?
      modifies this
      ensures State() == old(State()) && saved == Some(old(State()))
      ensures txLog == old(txLog) + [BeginTx]
    {
      saved := Some(State());
      txLog := txLog + [BeginTx];
    }

    method Commit()
      requires saved.Some?
      modifies this
      ensures State() == old(State()) && saved == None
      ensures txLog == old(txLog) + [CommitTx]
    {
      saved := None;
      txLog := txLog + [CommitTx];
    }

    method Rollback()
      requires saved.Some?
      modifies this
      ensures State() == old(saved.value) && saved == None
      ensures txLog == old(txLog) + [RollbackTx]
    {
      var t := saved.value;
      products, movements, clients, invoices := t.products, t.movements, t.clients, t.invoices;
      salesOrders, orderLines, productionOrders := t.salesOrders, t.orderLines, t.productionOrders;
      consumptions, batches := t.consumptions, t.batches;
      saved := None;
      txLog := txLog + [RollbackTx];
    }

    /**
     * The end of a service's own transaction: COMMIT when its statements
     * succeeded, ROLLBACK to the state saved at BEGIN otherwise, then release.
     */
    method Finish(ok: bool)
      requires saved.Some?
      modifies this
      ensures State() == (if ok then old(State()) else old(saved.value)) && saved == None
      ensures txLog == old(txLog) + OwnTransaction(ok)[1..]
    {
      if ok {
        Commit();
      } else {
        Rollback();
      }
      Release();
    }

    /** `client.release()`: the connection goes back to the pool. */
    method Release()
      modifies this
      ensures State() == old(State()) && saved == old(saved)
      ensures txLog == old(txLog) + [ReleaseClient]
    {
      txLog := txLog + [ReleaseClient];
    }
  }
}
