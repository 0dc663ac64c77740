/** The inventory service: products and the two ledger primitives, entry and exit. */
module Inventory {
  import opened Wrappers
  import opened Text
  import opened Query
  import opened Database

  /** The fields the ledger primitives take from `movementData`. */
  datatype MovementInput = MovementInput(productId: ProductId, quantity: real, userId: Option<UserId>,
                                         reference: Option<string>, notes: Option<string>, batch: Option<string>)

  /** The row an INSERT into inventory_movements returns. */
  function Record(t: Tables, m: MovementInput, kind: MovementKind, signed: real): Movement {
    Movement(|t.movements| + 1, m.productId, kind, signed, m.userId, m.reference, m.notes, m.batch)
  }

  const MOVEMENT_PRODUCT_FK := "inventory_movements_product_id_fkey"

  /**
   * The statements of createEntryMovement: INSERT an ENTRY movement of +q,
   * lock the product row, add q to its stock. The quantity is not checked.
   * A missing product makes the INSERT fail on the foreign key.
   */
  function EntryStep(t: Tables, m: MovementInput): (s: Step<Movement>)
    ensures s.result.Ok? <==> m.productId in t.products
    ensures s.result.Err? ==> s.tables == t && s.result.error.DbError? && s.result.error.code == FOREIGN_KEY_VIOLATION
    ensures s.result.Ok? ==>
      var mv := s.result.value;
      && mv.kind == Entry && mv.productId == m.productId && mv.quantity == m.quantity
      && mv.id == |t.movements| + 1 && mv.userId == m.userId && mv.reference == m.reference
      && mv.notes == m.notes && mv.batch == m.batch
      && s.tables.movements == t.movements + [mv]
      && Adjusted(t.products, s.tables.products, m.productId, m.quantity)
      && s.tables == t.(movements := s.tables.movements, products := s.tables.products)
  {
    if m.productId !in t.products then
      Step(Err(DbError(FOREIGN_KEY_VIOLATION, MOVEMENT_PRODUCT_FK,
                       "insert or update on table \"inventory_movements\" violates foreign key constraint")), t)
    else
      var mv := Record(t, m, Entry, m.quantity);
      Step(Ok(mv), t.(movements := t.movements + [mv], products := AddStock(t.products, m.productId, m.quantity)))
  }

  /**
   * The statements of createExitMovement: lock and read the stock, refuse a
   * missing product or a stock below q, then INSERT an EXIT movement of -q
   * and subtract q from the stock.
   */
  function ExitStep(t: Tables, m: MovementInput): (s: Step<Movement>)
    ensures s.result.Ok? <==> m.productId in t.products && t.products[m.productId].currentStock >= m.quantity
    ensures m.productId !in t.products ==> s.result == Err(ProductNotFound)
    ensures m.productId in t.products && t.products[m.productId].currentStock < m.quantity ==>
              s.result == Err(InsufficientStock(m.productId, t.products[m.productId].currentStock, m.quantity))
    ensures s.result.Err? ==> s.tables == t
    ensures s.result.Ok? ==>
      var mv := s.result.value;
      && mv.kind == Exit && mv.productId == m.productId && mv.quantity == -m.quantity
      && mv.id == |t.movements| + 1 && mv.userId == m.userId && mv.reference == m.reference
      && mv.notes == m.notes && mv.batch == m.batch
      && s.tables.movements == t.movements + [mv]
      && Adjusted(t.products, s.tables.products, m.productId, -m.quantity)
      && s.tables == t.(movements := s.tables.movements, products := s.tables.products)
  {
    if m.productId !in t.products then
      Step(Err(ProductNotFound), t)
    else if t.products[m.productId].currentStock < m.quantity then
      Step(Err(InsufficientStock(m.productId, t.products[m.productId].currentStock, m.quantity)), t)
    else
      var mv := Record(t, m, Exit, -m.quantity);
      Step(Ok(mv), t.(movements := t.movements + [mv], products := AddStock(t.products, m.productId, -m.quantity)))
  }

  /** The statements createEntryMovement runs on its connection, between BEGIN and COMMIT. */
  method WriteEntry(db: Db, m: MovementInput) returns (r: Result<Movement, Error>)
    modifies db
    ensures r == EntryStep(old(db.State()), m).result
    ensures db.State() == EntryStep(old(db.State()), m).tables
    ensures db.saved == old(db.saved) && db.txLog == old(db.txLog)
  {
    if m.productId !in db.products {
      r := Err(DbError(FOREIGN_KEY_VIOLATION, MOVEMENT_PRODUCT_FK,
                       "insert or update on table \"inventory_movements\" violates foreign key constraint"));
    } else {
      var mv := Movement(|db.movements| + 1, m.productId, Entry, m.quantity, m.userId, m.reference, m.notes, m.batch);
      db.movements := db.movements + [mv];
      // SELECT current_stock ... FOR UPDATE: the row lock changes nothing in a sequential model.
      var row := db.products[m.productId];
      db.products := db.products[m.productId := row.(currentStock := row.currentStock + m.quantity)];
      r := Ok(mv);
    }
  }

  /** The statements createExitMovement runs on its connection, between BEGIN and COMMIT. */
  method WriteExit(db: Db, m: MovementInput) returns (r: Result<Movement, Error>)
    modifies db
    ensures r == ExitStep(old(db.State()), m).result
    ensures db.State() == ExitStep(old(db.State()), m).tables
    ensures db.saved == old(db.saved) && db.txLog == old(db.txLog)
  {
    if m.productId !in db.products {
      r := Err(ProductNotFound);
    } else {
      var currentStock := db.products[m.productId].currentStock;
      if currentStock < m.quantity {
        r := Err(InsufficientStock(m.productId, currentStock, m.quantity));
      } else {
        var mv := Movement(|db.movements| + 1, m.productId, Exit, -m.quantity, m.userId, m.reference, m.notes, m.batch);
        db.movements := db.movements + [mv];
        var row := db.products[m.productId];
        db.products := db.products[m.productId := row.(currentStock := row.currentStock - m.quantity)];
        r := Ok(mv);
      }
    }
  }

  /**
   * createEntryMovement. Without a caller-supplied client it runs in its own
   * transaction (BEGIN, COMMIT or ROLLBACK, release); with one it issues none
   * of these and leaves the outcome to the caller's transaction.
   */
  method CreateEntryMovement(db: Db, m: MovementInput, existing: bool) returns (r: Result<Movement, Error>)
    requires existing <==> db.saved.Some?
    modifies db
    ensures r == EntryStep(old(db.State()), m).result
    ensures db.State() == Settle(existing, old(db.State()), EntryStep(old(db.State()), m))
    ensures db.saved == old(db.saved)
    ensures db.txLog == old(db.txLog) + (if existing then [] else OwnTransaction(r.Ok?))
  {
    if !existing {
      db.Begin();
    }
    r := WriteEntry(db, m);
    if !existing {
      db.Finish(r.Ok?);
    }
  }

  /** createExitMovement, with the same transaction handling as CreateEntryMovement. */
  method CreateExitMovement(db: Db, m: MovementInput, existing: bool) returns (r: Result<Movement, Error>)
    requires existing <==> db.saved.Some?
    modifies db
    ensures r == ExitStep(old(db.State()), m).result
    ensures db.State() == Settle(existing, old(db.State()), ExitStep(old(db.State()), m))
    ensures db.saved == old(db.saved)
    ensures db.txLog == old(db.txLog) + (if existing then [] else OwnTransaction(r.Ok?))
  {
    if !existing {
      db.Begin();
    }
    r := WriteExit(db, m);
    if !existing {
      db.Finish(r.Ok?);
    }
  }

  // ---------------------------------------------------------------------
  // Properties of the ledger primitives
  // ---------------------------------------------------------------------

  /** Appending a movement and moving the stock by the same signed amount keeps stock = sum of movements. */
  lemma LedgerStepKeepsConsistent(t: Tables, t': Tables, mv: Movement)
    requires Consistent(t)
    requires t'.movements == t.movements + [mv]
    requires Adjusted(t.products, t'.products, mv.productId, mv.quantity)
    ensures Consistent(t')
  {
    forall p | p in t'.products
      ensures t'.products[p].currentStock == Balance(t'.movements, p)
    {
      BalanceAppend(t.movements, mv, p);
    }
  }

  /** An entry keeps every product's stock equal to the signed sum of its movements. */
  lemma EntryKeepsConsistent(t: Tables, m: MovementInput)
    requires Consistent(t)
    ensures Consistent(EntryStep(t, m).tables)
  {
    var s := EntryStep(t, m);
    if s.result.Ok? {
      LedgerStepKeepsConsistent(t, s.tables, s.result.value);
    }
  }

  /** An exit keeps every product's stock equal to the signed sum of its movements. */
  lemma ExitKeepsConsistent(t: Tables, m: MovementInput)
    requires Consistent(t)
    ensures Consistent(ExitStep(t, m).tables)
  {
    var s := ExitStep(t, m);
    if s.result.Ok? {
      LedgerStepKeepsConsistent(t, s.tables, s.result.value);
    }
  }

  /** An exit never drives a stock negative, whatever the sign of the quantity. */
  lemma ExitKeepsNonNegative(t: Tables, m: MovementInput)
    requires NonNegative(t)
    ensures NonNegative(ExitStep(t, m).tables)
  {
  }

  /** An entry keeps stocks non-negative only when its quantity is not negative. */
  lemma EntryKeepsNonNegative(t: Tables, m: MovementInput)
    requires NonNegative(t) && m.quantity >= 0.0
    ensures NonNegative(EntryStep(t, m).tables)
  {
  }

  /** A one-product database holding `stock` units of product 1. */
  function OneProduct(stock: real): Tables {
    Tables(map[1 := Product("SKU-1", "RAW_MATERIAL", 5.0, stock, None, true)], [], map[], [], map[], [], map[], [], map[])
  }

  /** Nothing rejects a negative entry: it is recorded and the stock goes below zero. */
  lemma NegativeEntryIsAccepted()
    ensures var s := EntryStep(OneProduct(0.0), MovementInput(1, -5.0, None, None, None, None));
            s.result.Ok? && s.tables.products[1].currentStock == -5.0 && !NonNegative(s.tables)
  {
  }

  /** Stock 10: an exit of 3 leaves 7 and one EXIT movement of -3; a following exit of 20 fails and leaves 7. */
  lemma ExitScenario()
    ensures var s1 := ExitStep(OneProduct(10.0), MovementInput(1, 3.0, None, None, None, None));
            && s1.result.Ok? && s1.tables.products[1].currentStock == 7.0
            && s1.tables.movements == [s1.result.value] && s1.result.value.kind == Exit && s1.result.value.quantity == -3.0
            && var s2 := ExitStep(s1.tables, MovementInput(1, 20.0, None, None, None, None));
            && s2.result == Err(InsufficientStock(1, 7.0, 20.0)) && s2.tables.products[1].currentStock == 7.0
  {
  }

  /** Taking out exactly the whole stock is allowed and leaves zero. */
  lemma ExitWholeStock(t: Tables, m: MovementInput)
    requires m.productId in t.products && m.quantity == t.products[m.productId].currentStock
    ensures ExitStep(t, m).result.Ok? && ExitStep(t, m).tables.products[m.productId].currentStock == 0.0
  {
  }

  // ---------------------------------------------------------------------
  // Products
  // ---------------------------------------------------------------------

  /** The fields createProduct takes from the request body. */
  datatype ProductInput = ProductInput(sku: string, kind: Option<string>, minStock: Option<real>, supplierId: Option<nat>)

  /**
   * createProduct's INSERT: stock starts at 0, the type defaults to
   * FINISHED_PRODUCT, min_stock to 0, and the product is active. A SKU
   * already in use violates the unique constraint. `id` is the value the
   * serial column assigns.
   */
  function InsertProduct(t: Tables, id: ProductId, p: ProductInput): (s: Step<Product>)
    requires id !in t.products
    ensures s.result.Ok? <==> forall q :: q in t.products ==> t.products[q].sku != p.sku
    ensures s.result.Err? ==> s.tables == t && s.result.error.DbError? && s.result.error.code == UNIQUE_VIOLATION
    ensures s.result.Ok? ==>
      var row := s.result.value;
      && row.currentStock == 0.0 && row.isActive && row.sku == p.sku
      && row.kind == (if p.kind.Some? && p.kind.value != "" then p.kind.value else "FINISHED_PRODUCT")
      && row.minStock == p.minStock.GetOr(0.0)
      && s.tables == t.(products := t.products[id := row])
  {
    if exists q :: q in t.products && t.products[q].sku == p.sku then
      Step(Err(DbError(UNIQUE_VIOLATION, "products_sku_key", "duplicate key value violates unique constraint")), t)
    else
      var kind := if p.kind.Some? && p.kind.value != "" then p.kind.value else "FINISHED_PRODUCT";
      var row := Product(p.sku, kind, p.minStock.GetOr(0.0), 0.0, p.supplierId, true);
      Step(Ok(row), t.(products := t.products[id := row]))
  }

  /** A new product starts with stock 0, which is the (empty) sum of its movements. */
  lemma InsertProductKeepsConsistent(t: Tables, id: ProductId, p: ProductInput)
    requires Consistent(t) && id !in t.products
    ensures Consistent(InsertProduct(t, id, p).tables)
  {
    var s := InsertProduct(t, id, p);
    if s.result.Ok? {
      BalanceUnreferenced(t.movements, id);
    }
  }

  /** createProduct: one INSERT on a pooled connection. */
  method CreateProduct(db: Db, id: ProductId, p: ProductInput) returns (r: Result<Product, Error>)
    requires id !in db.products
    modifies db
    ensures r == InsertProduct(old(db.State()), id, p).result
    ensures db.State() == InsertProduct(old(db.State()), id, p).tables
    ensures db.saved == old(db.saved) && db.txLog == old(db.txLog)
  {
    if exists q :: q in db.products && db.products[q].sku == p.sku {
      r := Err(DbError(UNIQUE_VIOLATION, "products_sku_key", "duplicate key value violates unique constraint"));
    } else {
      var kind := if p.kind.Some? && p.kind.value != "" then p.kind.value else "FINISHED_PRODUCT";
      var row := Product(p.sku, kind, p.minStock.GetOr(0.0), 0.0, p.supplierId, true);
      db.products := db.products[id := row];
      r := Ok(row);
    }
  }

  /** The keys updateProduct deletes before building its UPDATE. */
  const PRODUCT_UPDATE_DROPS: set<string> := {"updated_at", "updatedAt", "id"}

  /**
   * updateProduct's statement: with no key left after the deletes it returns
   * the current product; otherwise the i-th key sets its snake_case column
   * from $(i+1), `updated_at = CURRENT_TIMESTAMP` follows, and the id is
   * bound at $(n+1).
   */
  function UpdateProductPlan(id: JsValue, body: Body): (p: UpdatePlan)
    ensures p.ReturnCurrent? <==> forall e :: e in body ==> e.0 in PRODUCT_UPDATE_DROPS
    ensures p.SetColumns? ==>
              && |p.params| >= 2 && |p.assignments| == |p.params|
              && p.assignments[|p.assignments| - 1] == STAMP
              && p.idRef == Placeholder(|p.params|) && p.params[|p.params| - 1] == id
  {
    KeptEmptyIff(body, PRODUCT_UPDATE_DROPS);
    BuildUpdate(body, PRODUCT_UPDATE_DROPS, true, id)
  }

  /** A body with one key that is not deleted sets that key's snake_case column from $1, then the stamp; the id is $2. */
  lemma UpdateProductSetsKey(id: JsValue, key: string, v: JsValue)
    requires key !in PRODUCT_UPDATE_DROPS
    ensures UpdateProductPlan(id, [(key, v)])
            == SetColumns([CamelToSnake(key), STAMP_COLUMN], [CamelToSnake(key) + " = $1", STAMP], [v, id], "$2")
  {
    BuildUpdateSingle(key, v, PRODUCT_UPDATE_DROPS, true, id);
    assert [CamelToSnake(key)] + [STAMP_COLUMN] == [CamelToSnake(key), STAMP_COLUMN];
    assert [CamelToSnake(key) + " = $1"] + [STAMP] == [CamelToSnake(key) + " = $1", STAMP];
  }

  /**
   * updateProduct deletes both spellings of the timestamp key, so neither
   * reaches the SET list beside the appended stamp: a body of either alone
   * leaves the product as it is.
   */
  lemma ProductDropsTimestampKeys(id: JsValue, v: JsValue)
    ensures UpdateProductPlan(id, [("updatedAt", v)]).ReturnCurrent?
    ensures UpdateProductPlan(id, [("updated_at", v)]).ReturnCurrent?
  {
  }

  /**
   * Nothing keeps current_stock out of the dynamic UPDATE: a body holding
   * only `currentStock` sets the stock column directly, bypassing the ledger.
   */
  lemma UpdateProductCanWriteStock(id: JsValue, v: JsValue)
    ensures UpdateProductPlan(id, [("currentStock", v)])
            == SetColumns([CamelToSnake("currentStock"), STAMP_COLUMN], [CamelToSnake("currentStock") + " = $1", STAMP], [v, id], "$2")
    ensures CamelToSnake("currentStock") == "current_stock"
  {
    var key := "currentStock";
    assert key !in PRODUCT_UPDATE_DROPS by {
      assert |key| == 12 && |"updated_at"| == 10 && |"updatedAt"| == 9 && |"id"| == 2;
    }
    UpdateProductSetsKey(id, key, v);
    StockColumn();
  }

  /** The column camelToSnakeCase derives from the key `currentStock`. */
  lemma StockColumn()
    ensures CamelToSnake("currentStock") == "current_stock"
  {
    var head, tail := "current", "tock";
    assert NoUpper(head) && NoUpper(tail);
    CamelToSnakeOneHump(head, 'S', tail);
    assert head + ['S'] + tail == "currentStock";
    assert head + ['_', Lower('S')] + tail == "current_stock";
  }
}
