/** The sales service: clients and sales orders that check credit and stock and post their lines to the ledger. */
module Sales {
  import opened Wrappers
  import opened Text
  import opened Query
  import opened Database
  import opened Inventory

  /** One entry of `orderData.products`. */
  datatype LineInput = LineInput(productId: ProductId, quantity: real, price: real)

  /** The fields createSalesOrder takes from `orderData`. */
  datatype OrderInput = OrderInput(clientId: ClientId, userId: Option<UserId>, notes: Option<string>,
                                   lines: seq<LineInput>, deliveryDate: Option<string>)

  /** What createSalesOrder returns: `{ id, order_number, total }`. */
  datatype Created = Created(id: OrderId, orderNumber: string, total: real)

  // ---------------------------------------------------------------------
  // Amounts
  // ---------------------------------------------------------------------

  /** Σ quantity × price, accumulated in line order. */
  function Subtotal(lines: seq<LineInput>): real {
    if lines == [] then 0.0
    else Subtotal(lines[..|lines| - 1]) + lines[|lines| - 1].quantity * lines[|lines| - 1].price
  }

  const TAX_RATE: real := 0.16

  function Tax(subtotal: real): real {
    subtotal * TAX_RATE
  }

  /** subtotal + tax: the order total is 116% of the subtotal. */
  function OrderTotal(lines: seq<LineInput>): (r: real)
    ensures r == Subtotal(lines) * 1.16
  {
    Subtotal(lines) + Tax(Subtotal(lines))
  }

  /** Five units at 10 and two at 50 give subtotal 150, tax 24 and total 174. */
  lemma OrderTotalExample()
    ensures var lines := [LineInput(1, 5.0, 10.0), LineInput(2, 2.0, 50.0)];
            Subtotal(lines) == 150.0 && Tax(Subtotal(lines)) == 24.0 && OrderTotal(lines) == 174.0
  {
    var lines := [LineInput(1, 5.0, 10.0), LineInput(2, 2.0, 50.0)];
    assert lines[..1][..0] == [];
    assert lines[..1] == [LineInput(1, 5.0, 10.0)];
  }

  /** An invoice that still counts against the credit limit. */
  predicate Unpaid(i: Invoice) {
    i.status == "PENDING" || i.status == "OVERDUE"
  }

  /**
   * SUM(so.total) over the client's orders joined with their PENDING or
   * OVERDUE invoices: an order counts once per such invoice. No row gives 0.
   */
  function OutstandingOf(invoices: seq<Invoice>, orders: map<OrderId, SalesOrder>, c: ClientId): real {
    if invoices == [] then 0.0
    else
      var last := invoices[|invoices| - 1];
      OutstandingOf(invoices[..|invoices| - 1], orders, c)
        + (if Unpaid(last) && last.orderId in orders && orders[last.orderId].clientId == c then orders[last.orderId].total else 0.0)
  }

  /** A client none of whose orders has an unpaid invoice owes nothing. */
  lemma {:induction false} NothingUnpaidNothingOutstanding(invoices: seq<Invoice>, orders: map<OrderId, SalesOrder>, c: ClientId)
    requires forall i :: 0 <= i < |invoices| && Unpaid(invoices[i]) && invoices[i].orderId in orders ==>
               orders[invoices[i].orderId].clientId != c
    ensures OutstandingOf(invoices, orders, c) == 0.0
  {
    if invoices != [] {
      NothingUnpaidNothingOutstanding(invoices[..|invoices| - 1], orders, c);
    }
  }

  /**
   * The credit check: the outstanding balance plus the new total may not
   * exceed the limit. A NULL limit reads as NaN, and `x > NaN` is false.
   */
  predicate CreditExceeded(t: Tables, o: OrderInput)
    requires o.clientId in t.clients
  {
    var limit := t.clients[o.clientId].creditLimit;
    limit.Some? && OutstandingOf(t.invoices, t.salesOrders, o.clientId) + OrderTotal(o.lines) > limit.value
  }

  // ---------------------------------------------------------------------
  // The stock check
  // ---------------------------------------------------------------------

  /** The line's product exists and its current stock covers the line on its own. */
  predicate Fits(products: map<ProductId, Product>, l: LineInput) {
    l.productId in products && products[l.productId].currentStock >= l.quantity
  }

  /** The error thrown for a line that does not fit. */
  function LineError(products: map<ProductId, Product>, l: LineInput): Error {
    if l.productId !in products then ProductIdNotFound(l.productId)
    else LineStockShort(l.productId, products[l.productId].currentStock)
  }

  /**
   * The stock loop: the first line that does not fit, checked against the
   * stock before any line is posted.
   */
  function StockFailure(products: map<ProductId, Product>, lines: seq<LineInput>): (r: Option<Error>)
    ensures r.None? <==> forall i :: 0 <= i < |lines| ==> Fits(products, lines[i])
    ensures r.Some? ==> exists i :: 0 <= i < |lines| && !Fits(products, lines[i]) && r.value == LineError(products, lines[i])
  {
    if lines == [] then None
    else if !Fits(products, lines[0]) then Some(LineError(products, lines[0]))
    else
      var r := StockFailure(products, lines[1..]);
      assert forall i :: 1 <= i < |lines| ==> lines[i] == lines[1..][i - 1];
      r
  }

  // ---------------------------------------------------------------------
  // Posting the lines
  // ---------------------------------------------------------------------

  predicate AllKnown(products: map<ProductId, Product>, lines: seq<LineInput>) {
    forall i :: 0 <= i < |lines| ==> lines[i].productId in products
  }

  /** The EXIT movement of -q with serial id `id` that a posted line records, referencing the order number. */
  function LineExit(id: nat, number: string, userId: Option<UserId>, l: LineInput): Movement {
    Movement(id, l.productId, Exit, -l.quantity, userId, Some(number), None, None)
  }

  /** The movement a line posted on `t` records: the next serial id. */
  function LineMovement(t: Tables, number: string, userId: Option<UserId>, l: LineInput): Movement {
    LineExit(|t.movements| + 1, number, userId, l)
  }

  /** One pass of the posting loop: insert the line, subtract its quantity, record the exit. */
  function PostLine(t: Tables, orderId: OrderId, number: string, userId: Option<UserId>, l: LineInput): (t': Tables)
    requires l.productId in t.products
    ensures t'.movements == t.movements + [LineMovement(t, number, userId, l)]
    ensures Adjusted(t.products, t'.products, l.productId, -l.quantity)
    ensures t'.orderLines == t.orderLines + [OrderLine(orderId, l.productId, l.quantity, l.price)]
    ensures t' == t.(orderLines := t'.orderLines, products := t'.products, movements := t'.movements)
  {
    t.(orderLines := t.orderLines + [OrderLine(orderId, l.productId, l.quantity, l.price)],
       products := AddStock(t.products, l.productId, -l.quantity),
       movements := t.movements + [LineMovement(t, number, userId, l)])
  }

  /** The posting loop over all lines, in order. */
  function PostLines(t: Tables, orderId: OrderId, number: string, userId: Option<UserId>, lines: seq<LineInput>): (t': Tables)
    requires AllKnown(t.products, lines)
    ensures t'.products.Keys == t.products.Keys
    ensures |t'.movements| == |t.movements| + |lines| && |t'.orderLines| == |t.orderLines| + |lines|
    ensures t' == t.(orderLines := t'.orderLines, products := t'.products, movements := t'.movements)
  {
    if lines == [] then t
    else PostLine(PostLines(t, orderId, number, userId, lines[..|lines| - 1]), orderId, number, userId, lines[|lines| - 1])
  }

  /** The total quantity the lines take of product `p`. */
  function QuantityOf(lines: seq<LineInput>, p: ProductId): real {
    if lines == [] then 0.0
    else QuantityOf(lines[..|lines| - 1], p) + (if lines[|lines| - 1].productId == p then lines[|lines| - 1].quantity else 0.0)
  }

  /** Posting one more line of the order applies PostLine to what the earlier lines left. */
  lemma PostLinesExtend(t: Tables, orderId: OrderId, number: string, userId: Option<UserId>, lines: seq<LineInput>, i: nat)
    requires AllKnown(t.products, lines) && i < |lines|
    ensures AllKnown(t.products, lines[..i]) && AllKnown(t.products, lines[..i + 1])
    ensures lines[i].productId in PostLines(t, orderId, number, userId, lines[..i]).products
    ensures PostLines(t, orderId, number, userId, lines[..i + 1])
            == PostLine(PostLines(t, orderId, number, userId, lines[..i]), orderId, number, userId, lines[i])
  {
    assert lines[..i + 1][..i] == lines[..i];
  }

  /** Posting takes from each product exactly the quantity its lines name. */
  lemma {:induction false} PostLinesStock(t: Tables, orderId: OrderId, number: string, userId: Option<UserId>, lines: seq<LineInput>, p: ProductId)
    requires AllKnown(t.products, lines) && p in t.products
    ensures PostLines(t, orderId, number, userId, lines).products[p]
            == t.products[p].(currentStock := t.products[p].currentStock - QuantityOf(lines, p))
  {
    if lines != [] {
      PostLinesStock(t, orderId, number, userId, lines[..|lines| - 1], p);
    }
  }

  /** Posting keeps the earlier order lines and adds, for line i, the order_products row i after them. */
  lemma {:induction false} PostLinesRows(t: Tables, orderId: OrderId, number: string, userId: Option<UserId>, lines: seq<LineInput>)
    requires AllKnown(t.products, lines)
    ensures var after := PostLines(t, orderId, number, userId, lines);
            && after.orderLines[..|t.orderLines|] == t.orderLines
            && forall i :: 0 <= i < |lines| ==>
                 after.orderLines[|t.orderLines| + i] == OrderLine(orderId, lines[i].productId, lines[i].quantity, lines[i].price)
  {
    if lines != [] {
      var init, l := lines[..|lines| - 1], lines[|lines| - 1];
      PostLinesRows(t, orderId, number, userId, init);
      var t1 := PostLines(t, orderId, number, userId, init);
      var after := PostLine(t1, orderId, number, userId, l);
      assert after.orderLines == t1.orderLines + [OrderLine(orderId, l.productId, l.quantity, l.price)];
      forall i | 0 <= i < |lines|
        ensures after.orderLines[|t.orderLines| + i] == OrderLine(orderId, lines[i].productId, lines[i].quantity, lines[i].price)
      {
        if i < |init| {
          assert lines[i] == init[i];
        }
      }
    }
  }

  /** Line i of the order records, at position i after the earlier movements, its EXIT with the next serial id. */
  lemma {:induction false} PostLinesMovementAt(t: Tables, orderId: OrderId, number: string, userId: Option<UserId>,
                                                lines: seq<LineInput>, i: nat)
    requires AllKnown(t.products, lines) && i < |lines|
    ensures PostLines(t, orderId, number, userId, lines).movements[|t.movements| + i]
            == LineExit(|t.movements| + i + 1, number, userId, lines[i])
  {
    var init, l := lines[..|lines| - 1], lines[|lines| - 1];
    var t1 := PostLines(t, orderId, number, userId, init);
    var after := PostLines(t, orderId, number, userId, lines);
    assert after.movements == t1.movements + [LineExit(|t1.movements| + 1, number, userId, l)];
    if i < |init| {
      PostLinesMovementAt(t, orderId, number, userId, init, i);
      assert lines[i] == init[i];
      assert after.movements[|t.movements| + i] == t1.movements[|t.movements| + i];
    } else {
      assert |t1.movements| == |t.movements| + i;
    }
  }

  /**
   * Posting keeps the earlier movements and adds, for line i, the EXIT of
   * -quantity on the line's product, referencing the order number, with the
   * next movement id.
   */
  lemma {:induction false} PostLinesMovements(t: Tables, orderId: OrderId, number: string, userId: Option<UserId>, lines: seq<LineInput>)
    requires AllKnown(t.products, lines)
    ensures var after := PostLines(t, orderId, number, userId, lines);
            && after.movements[..|t.movements|] == t.movements
            && forall i :: 0 <= i < |lines| ==> after.movements[|t.movements| + i] == LineExit(|t.movements| + i + 1, number, userId, lines[i])
  {
    if lines != [] {
      PostLinesMovements(t, orderId, number, userId, lines[..|lines| - 1]);
    }
    forall i | 0 <= i < |lines|
      ensures PostLines(t, orderId, number, userId, lines).movements[|t.movements| + i]
              == LineExit(|t.movements| + i + 1, number, userId, lines[i])
    {
      PostLinesMovementAt(t, orderId, number, userId, lines, i);
    }
  }

  /** Every posted line is a ledger step, so posting keeps stock = sum of movements. */
  lemma {:induction false} PostLinesKeepsConsistent(t: Tables, orderId: OrderId, number: string, userId: Option<UserId>, lines: seq<LineInput>)
    requires AllKnown(t.products, lines) && Consistent(t)
    ensures Consistent(PostLines(t, orderId, number, userId, lines))
  {
    if lines != [] {
      var init := lines[..|lines| - 1];
      PostLinesKeepsConsistent(t, orderId, number, userId, init);
      var t1 := PostLines(t, orderId, number, userId, init);
      var l := lines[|lines| - 1];
      LedgerStepKeepsConsistent(t1, PostLine(t1, orderId, number, userId, l), LineMovement(t1, number, userId, l));
    }
  }

  // ---------------------------------------------------------------------
  // createSalesOrder
  // ---------------------------------------------------------------------

  /** `SO-<yyyymmdd>-<id>`. */
  function OrderNumber(today: string, id: OrderId): string {
    "SO-" + today + "-" + NatToString(id)
  }

  /** Order numbers of one day never collide, because the ids differ. */
  lemma OrderNumbersDistinct(today: string, a: OrderId, b: OrderId)
    requires a != b
    ensures OrderNumber(today, a) != OrderNumber(today, b)
  {
    PrefixedIdsDistinct("SO-" + today + "-", a, b);
  }

  /** The header row: status QUOTE, amounts from the lines. */
  function Header(o: OrderInput, number: string): SalesOrder {
    var sub := Subtotal(o.lines);
    SalesOrder(number, o.clientId, sub, Tax(sub), sub + Tax(sub), o.notes, o.userId, "QUOTE", o.deliveryDate)
  }

  /**
   * The statements of createSalesOrder inside its transaction: the client
   * must exist, then the credit check, then the stock check, then the
   * header and the lines. `id` is the value NEXTVAL gave and `today` the
   * date as yyyymmdd.
   */
  function SalesOrderStep(t: Tables, o: OrderInput, id: OrderId, today: string): (s: Step<Created>)
    requires id !in t.salesOrders
    ensures s.result == Err(ClientNotFound) <==> o.clientId !in t.clients
    ensures o.clientId in t.clients ==>
              (s.result.Err? && s.result.error.CreditLimitExceeded? <==> CreditExceeded(t, o))
    ensures s.result.Ok? <==>
              && o.clientId in t.clients && !CreditExceeded(t, o)
              && forall i :: 0 <= i < |o.lines| ==> Fits(t.products, o.lines[i])
    ensures o.clientId in t.clients && !CreditExceeded(t, o) && StockFailure(t.products, o.lines).Some? ==>
              s.result == Err(StockFailure(t.products, o.lines).value)
    ensures s.result.Err? ==> s.tables == t
    ensures s.result.Ok? ==>
              && s.result.value == Created(id, OrderNumber(today, id), OrderTotal(o.lines))
              && s.tables.salesOrders == t.salesOrders[id := Header(o, OrderNumber(today, id))]
              && |s.tables.movements| == |t.movements| + |o.lines|
              && AllKnown(t.products, o.lines)
              && s.tables == PostLines(t.(salesOrders := t.salesOrders[id := Header(o, OrderNumber(today, id))]), id,
                                       OrderNumber(today, id), o.userId, o.lines)
  {
    if o.clientId !in t.clients then Step(Err(ClientNotFound), t)
    else if CreditExceeded(t, o) then
      Step(Err(CreditLimitExceeded(t.clients[o.clientId].creditLimit.value, OutstandingOf(t.invoices, t.salesOrders, o.clientId),
                                   OrderTotal(o.lines))), t)
    else match StockFailure(t.products, o.lines)
      case Some(e) => Step(Err(e), t)
      case None =>
        var number := OrderNumber(today, id);
        var header := t.(salesOrders := t.salesOrders[id := Header(o, number)]);
        Step(Ok(Created(id, number, OrderTotal(o.lines))), PostLines(header, id, number, o.userId, o.lines))
  }

  /** A client whose credit limit is NULL is never refused on credit: the order succeeds exactly when every line fits. */
  lemma NullLimitNeverRefuses(t: Tables, o: OrderInput, id: OrderId, today: string)
    requires id !in t.salesOrders && o.clientId in t.clients && t.clients[o.clientId].creditLimit.None?
    ensures !CreditExceeded(t, o)
    ensures SalesOrderStep(t, o, id, today).result.Ok? <==> forall i :: 0 <= i < |o.lines| ==> Fits(t.products, o.lines[i])
  {
  }

  /** A successful order takes from every product exactly the quantity its lines name. */
  lemma SalesOrderStockEffect(t: Tables, o: OrderInput, id: OrderId, today: string, p: ProductId)
    requires id !in t.salesOrders && p in t.products
    requires SalesOrderStep(t, o, id, today).result.Ok?
    ensures var after := SalesOrderStep(t, o, id, today).tables;
            p in after.products && after.products[p].currentStock == t.products[p].currentStock - QuantityOf(o.lines, p)
  {
    var header := t.(salesOrders := t.salesOrders[id := Header(o, OrderNumber(today, id))]);
    PostLinesStock(header, id, OrderNumber(today, id), o.userId, o.lines, p);
  }

  /** A sales order keeps every stock equal to the signed sum of its movements. */
  lemma SalesOrderKeepsConsistent(t: Tables, o: OrderInput, id: OrderId, today: string)
    requires id !in t.salesOrders && Consistent(t)
    ensures Consistent(SalesOrderStep(t, o, id, today).tables)
  {
    if SalesOrderStep(t, o, id, today).result.Ok? {
      var header := t.(salesOrders := t.salesOrders[id := Header(o, OrderNumber(today, id))]);
      PostLinesKeepsConsistent(header, id, OrderNumber(today, id), o.userId, o.lines);
    }
  }

  /** No two lines name the same product. */
  predicate DistinctProducts(lines: seq<LineInput>) {
    forall i, j :: 0 <= i < j < |lines| ==> lines[i].productId != lines[j].productId
  }

  lemma {:induction false} QuantityOfAbsent(lines: seq<LineInput>, p: ProductId)
    requires forall i :: 0 <= i < |lines| ==> lines[i].productId != p
    ensures QuantityOf(lines, p) == 0.0
  {
    if lines != [] {
      QuantityOfAbsent(lines[..|lines| - 1], p);
    }
  }

  /** With one line per product, each product gives at most the stock the check saw. */
  lemma {:induction false} QuantityWithinStock(products: map<ProductId, Product>, lines: seq<LineInput>, p: ProductId)
    requires DistinctProducts(lines) && forall i :: 0 <= i < |lines| ==> Fits(products, lines[i])
    requires p in products && products[p].currentStock >= 0.0
    ensures QuantityOf(lines, p) <= products[p].currentStock
  {
    if lines != [] {
      var init, l := lines[..|lines| - 1], lines[|lines| - 1];
      if l.productId == p {
        QuantityOfAbsent(init, p);
        assert Fits(products, lines[|lines| - 1]);
      } else {
        QuantityWithinStock(products, init, p);
      }
    }
  }

  /** When no product appears on two lines, a sales order never drives a stock negative. */
  lemma DistinctLinesKeepNonNegative(t: Tables, o: OrderInput, id: OrderId, today: string)
    requires id !in t.salesOrders && NonNegative(t) && DistinctProducts(o.lines)
    ensures NonNegative(SalesOrderStep(t, o, id, today).tables)
  {
    var s := SalesOrderStep(t, o, id, today);
    if s.result.Ok? {
      forall p | p in s.tables.products
        ensures s.tables.products[p].currentStock >= 0.0
      {
        SalesOrderStockEffect(t, o, id, today, p);
        QuantityWithinStock(t.products, o.lines, p);
      }
    }
  }

  /**
   * Each line is checked against the stock on its own: two lines of 3 units
   * of a product holding 5 both pass, and posting them leaves -1.
   */
  lemma DuplicateLinesOverdraw()
    ensures var t := OneProduct(5.0).(clients := map[1 := Client(Some(100.0))]);
            var o := OrderInput(1, None, None, [LineInput(1, 3.0, 1.0), LineInput(1, 3.0, 1.0)], None);
            var s := SalesOrderStep(t, o, 1, "20250101");
            s.result.Ok? && 1 in s.tables.products && s.tables.products[1].currentStock == -1.0
  {
    var t := OneProduct(5.0).(clients := map[1 := Client(Some(100.0))]);
    var lines := [LineInput(1, 3.0, 1.0), LineInput(1, 3.0, 1.0)];
    var o := OrderInput(1, None, None, lines, None);
    assert lines[..1][..0] == [] && lines[..1] == [LineInput(1, 3.0, 1.0)];
    assert Subtotal(lines) == 6.0;
    assert QuantityOf(lines, 1) == 6.0;
    assert !CreditExceeded(t, o);
    SalesOrderStockEffect(t, o, 1, "20250101", 1);
  }

  /** The subtotal loop of createSalesOrder: the sum of quantity times price over the lines. */
  method SumLines(lines: seq<LineInput>) returns (subtotal: real)
    ensures subtotal == Subtotal(lines)
  {
    subtotal := 0.0;
    var i := 0;
    while i < |lines|
      invariant 0 <= i <= |lines|
      invariant subtotal == Subtotal(lines[..i])
    {
      assert lines[..i + 1][..i] == lines[..i];
      subtotal := subtotal + lines[i].quantity * lines[i].price;
      i := i + 1;
    }
    assert lines[..|lines|] == lines;
  }

  /** The stock-check loop of createSalesOrder: the error of the first line that is unknown or short. */
  method CheckLines(products: map<ProductId, Product>, lines: seq<LineInput>) returns (failure: Option<Error>)
    ensures failure == StockFailure(products, lines)
  {
    var i := 0;
    while i < |lines|
      invariant 0 <= i <= |lines|
      invariant StockFailure(products, lines) == StockFailure(products, lines[i..])
    {
      var l := lines[i];
      if l.productId !in products {
        return Some(ProductIdNotFound(l.productId));
      }
      if products[l.productId].currentStock < l.quantity {
        return Some(LineStockShort(l.productId, products[l.productId].currentStock));
      }
      assert lines[i..][1..] == lines[i + 1..];
      i := i + 1;
    }
    assert lines[|lines|..] == [];
    failure := None;
  }

  /** The statements createSalesOrder runs on its connection, between BEGIN and COMMIT. */
  method WriteSalesOrder(db: Db, o: OrderInput, id: OrderId, today: string) returns (r: Result<Created, Error>)
    requires id !in db.salesOrders
    modifies db
    ensures r == SalesOrderStep(old(db.State()), o, id, today).result
    ensures db.State() == SalesOrderStep(old(db.State()), o, id, today).tables
    ensures db.saved == old(db.saved) && db.txLog == old(db.txLog)
  {
    if o.clientId !in db.clients {
      return Err(ClientNotFound);
    }
    var creditLimit := db.clients[o.clientId].creditLimit;
    var outstanding := OutstandingOf(db.invoices, db.salesOrders, o.clientId);
    var subtotal := SumLines(o.lines);
    var tax := subtotal * 0.16;
    var total := subtotal + tax;
    assert total == OrderTotal(o.lines);
    if creditLimit.Some? && outstanding + total > creditLimit.value {
      return Err(CreditLimitExceeded(creditLimit.value, outstanding, total));
    }
    var failure := CheckLines(db.products, o.lines);
    if failure.Some? {
      return Err(failure.value);
    }
    assert AllKnown(db.products, o.lines);
    var number := "SO-" + today + "-" + NatToString(id);
    assert number == OrderNumber(today, id);
    var header := SalesOrder(number, o.clientId, subtotal, tax, total, o.notes, o.userId, "QUOTE", o.deliveryDate);
    assert header == Header(o, number);
    db.salesOrders := db.salesOrders[id := header];
    assert db.State() == old(db.State()).(salesOrders := old(db.State()).salesOrders[id := Header(o, number)]);
    PostOrderLines(db, id, number, o.userId, o.lines);
    r := Ok(Created(id, number, total));
  }

  /** One pass of the posting loop: the three statements for one line. */
  method PostOrderLine(db: Db, id: OrderId, number: string, userId: Option<UserId>, l: LineInput)
    requires l.productId in db.products
    modifies db
    ensures db.State() == PostLine(old(db.State()), id, number, userId, l)
    ensures db.saved == old(db.saved) && db.txLog == old(db.txLog)
  {
    db.orderLines := db.orderLines + [OrderLine(id, l.productId, l.quantity, l.price)];
    var row := db.products[l.productId];
    db.products := db.products[l.productId := row.(currentStock := row.currentStock - l.quantity)];
    db.movements := db.movements + [Movement(|db.movements| + 1, l.productId, Exit, -l.quantity, userId, Some(number), None, None)];
  }

  /** The posting loop of createSalesOrder. */
  method PostOrderLines(db: Db, id: OrderId, number: string, userId: Option<UserId>, lines: seq<LineInput>)
    requires AllKnown(db.products, lines)
    modifies db
    ensures db.State() == PostLines(old(db.State()), id, number, userId, lines)
    ensures db.saved == old(db.saved) && db.txLog == old(db.txLog)
  {
    ghost var start := db.State();
    assert AllKnown(start.products, lines);
    var i := 0;
    while i < |lines|
      invariant 0 <= i <= |lines|
      invariant AllKnown(start.products, lines[..i]) && db.State() == PostLines(start, id, number, userId, lines[..i])
      invariant db.saved == old(db.saved) && db.txLog == old(db.txLog)
    {
      PostLinesExtend(start, id, number, userId, lines, i);
      PostOrderLine(db, id, number, userId, lines[i]);
      i := i + 1;
    }
    assert lines[..i] == lines;
  }

  /** createSalesOrder: always in its own transaction. */
  method CreateSalesOrder(db: Db, o: OrderInput, id: OrderId, today: string) returns (r: Result<Created, Error>)
    requires db.saved.None? && id !in db.salesOrders
    modifies db
    ensures r == SalesOrderStep(old(db.State()), o, id, today).result
    ensures db.State() == Settle(false, old(db.State()), SalesOrderStep(old(db.State()), o, id, today))
    ensures db.saved == None && db.txLog == old(db.txLog) + OwnTransaction(r.Ok?)
  {
    db.Begin();
    r := WriteSalesOrder(db, o, id, today);
    db.Finish(r.Ok?);
  }

  // ---------------------------------------------------------------------
  // Status and clients
  // ---------------------------------------------------------------------

  /** updateOrderStatus: any status is written, with no check of the transition; an unknown id returns nothing. */
  method UpdateOrderStatus(db: Db, id: OrderId, status: string) returns (r: Option<SalesOrder>)
    modifies db
    ensures id !in old(db.salesOrders) ==> r.None? && db.State() == old(db.State())
    ensures id in old(db.salesOrders) ==>
              && r == Some(old(db.salesOrders)[id].(status := status))
              && db.State() == old(db.State()).(salesOrders := old(db.salesOrders)[id := r.value])
    ensures db.saved == old(db.saved) && db.txLog == old(db.txLog)
  {
    if id !in db.salesOrders {
      return None;
    }
    var row := db.salesOrders[id].(status := status);
    db.salesOrders := db.salesOrders[id := row];
    r := Some(row);
  }

  /** The keys updateClient deletes before building its UPDATE. */
  const CLIENT_UPDATE_DROPS: set<string> := {"id", "created_at", "updated_at"}

  /**
   * updateClient's statement: with no key left it returns the client as it
   * is; otherwise each key sets its snake_case column, then
   * `updated_at = CURRENT_TIMESTAMP`, and the id is bound last.
   */
  function UpdateClientPlan(id: JsValue, body: Body): (p: UpdatePlan)
    ensures p.ReturnCurrent? <==> forall e :: e in body ==> e.0 in CLIENT_UPDATE_DROPS
    ensures p.SetColumns? ==>
              && |p.params| >= 2 && |p.assignments| == |p.params|
              && p.assignments[|p.assignments| - 1] == STAMP
              && p.idRef == Placeholder(|p.params|) && p.params[|p.params| - 1] == id
  {
    KeptEmptyIff(body, CLIENT_UPDATE_DROPS);
    BuildUpdate(body, CLIENT_UPDATE_DROPS, true, id)
  }

  /**
   * updateClient deletes only `updated_at`: a body carrying the camelCase
   * `updatedAt` assigns updated_at from it and again from the appended
   * stamp, and PostgreSQL refuses the statement.
   */
  lemma ClientUpdatedAtCollides(id: JsValue, body: Body, v: JsValue)
    requires ("updatedAt", v) in body
    ensures AssignsTwice(UpdateClientPlan(id, body))
  {
    assert "updatedAt" !in CLIENT_UPDATE_DROPS by {
      assert |"updatedAt"| == 9 && |"id"| == 2 && |"created_at"| == 10 && |"updated_at"| == 10;
    }
    UpdatedAtColumn();
    StampCollides(body, CLIENT_UPDATE_DROPS, id, "updatedAt", v);
  }
}
