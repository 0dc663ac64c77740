/** The finances service: incomes, expenses, costings, their listings and the profit report. */
module Finances {
  import opened Wrappers
  import opened Query
  import opened Database

  // ---------------------------------------------------------------------
  // Rows and their normalisation
  // ---------------------------------------------------------------------

  /** `id || null`: a missing or zero reference is stored as null. */
  function IdOrNull(id: Option<nat>): (r: Option<nat>)
    ensures r.None? <==> id.None? || id.value == 0
    ensures r.Some? ==> r == id
  {
    if id.Some? && id.value != 0 then id else None
  }

  datatype Income = Income(amount: real, date: string, source: string, invoiceId: Option<nat>)
  datatype Expense = Expense(amount: real, date: string, category: string, supplierId: Option<nat>)
  datatype Costing = Costing(productId: ProductId, materialCost: real, laborCost: real, wasteCost: real,
                             total: real, calculationDate: string)

  /** The body of createCosting; a component that is missing or does not parse as a number is None. */
  datatype CostingInput = CostingInput(productId: ProductId, materialCost: Option<real>, laborCost: Option<real>,
                                       wasteCost: Option<real>, calculationDate: Option<string>)

  /**
   * createCosting's row: `parseFloat(x) || 0` for the total and `x || 0`
   * for the stored components, the date defaulting to `now`.
   */
  function CostingOf(c: CostingInput, now: string): (r: Costing)
    ensures r.materialCost == c.materialCost.GetOr(0.0) && r.laborCost == c.laborCost.GetOr(0.0)
    ensures r.wasteCost == c.wasteCost.GetOr(0.0)
    ensures r.total == r.materialCost + r.laborCost + r.wasteCost
    ensures r.calculationDate == (if c.calculationDate.Some? && c.calculationDate.value != "" then c.calculationDate.value else now)
  {
    var material, labor, waste := c.materialCost.GetOr(0.0), c.laborCost.GetOr(0.0), c.wasteCost.GetOr(0.0);
    Costing(c.productId, material, labor, waste, material + labor + waste,
            if c.calculationDate.Some? && c.calculationDate.value != "" then c.calculationDate.value else now)
  }

  /** The incomes, expenses and costings tables. */
  class Ledger {
    var incomes: seq<Income>
    var expenses: seq<Expense>
    var costings: seq<Costing>

    constructor ()
      ensures incomes == [] && expenses == [] && costings == []
    {
      incomes, expenses, costings := [], [], [];
    }

    /** createIncome: one row, a falsy invoice id stored as null. */
    method CreateIncome(amount: real, date: string, source: string, invoiceId: Option<nat>) returns (row: Income)
      modifies this
      ensures row == Income(amount, date, source, IdOrNull(invoiceId))
      ensures incomes == old(incomes) + [row] && expenses == old(expenses) && costings == old(costings)
    {
      row := Income(amount, date, source, IdOrNull(invoiceId));
      incomes := incomes + [row];
    }

    /** createExpense: one row, a falsy supplier id stored as null. */
    method CreateExpense(amount: real, date: string, category: string, supplierId: Option<nat>) returns (row: Expense)
      modifies this
      ensures row == Expense(amount, date, category, IdOrNull(supplierId))
      ensures expenses == old(expenses) + [row] && incomes == old(incomes) && costings == old(costings)
    {
      row := Expense(amount, date, category, IdOrNull(supplierId));
      expenses := expenses + [row];
    }

    /** createCosting: one row whose total the service computes. */
    method CreateCosting(c: CostingInput, now: string) returns (row: Costing)
      modifies this
      ensures row == CostingOf(c, now)
      ensures costings == old(costings) + [row] && incomes == old(incomes) && expenses == old(expenses)
    {
      var material := if c.materialCost.Some? then c.materialCost.value else 0.0;
      var labor := if c.laborCost.Some? then c.laborCost.value else 0.0;
      var waste := if c.wasteCost.Some? then c.wasteCost.value else 0.0;
      var date := if c.calculationDate.Some? && c.calculationDate.value != "" then c.calculationDate.value else now;
      row := Costing(c.productId, material, labor, waste, material + labor + waste, date);
      costings := costings + [row];
    }
  }

  // ---------------------------------------------------------------------
  // Listings
  // ---------------------------------------------------------------------

  /** findAllIncomes' filters, in the order the builder tests them. */
  function IncomeFilters(source: Option<string>, startDate: Option<Param>, endDate: Option<Param>): seq<Filter> {
    [Filter("source ILIKE", LikePattern(source)), Filter("date >=", startDate), Filter("date <=", endDate)]
  }

  /** findAllExpenses' filters, in the order the builder tests them. */
  function ExpenseFilters(category: Option<string>, supplierId: Option<Param>, startDate: Option<Param>, endDate: Option<Param>)
    : seq<Filter>
  {
    [Filter("e.category ILIKE", LikePattern(category)), Filter("e.supplier_id =", supplierId),
     Filter("e.date >=", startDate), Filter("e.date <=", endDate)]
  }

  method IncomeConditions(source: Option<string>, startDate: Option<Param>, endDate: Option<Param>) returns (c: Conditions)
    ensures c == Pushed(IncomeFilters(source, startDate, endDate))
  {
    var f0, f1, f2 := Filter("source ILIKE", LikePattern(source)), Filter("date >=", startDate), Filter("date <=", endDate);
    ghost var fs: seq<Filter> := [];
    c := Conditions([], []);
    c := PushGiven(c, f0);
    PushedSnoc(fs, f0);
    fs := fs + [f0];
    c := PushGiven(c, f1);
    PushedSnoc(fs, f1);
    fs := fs + [f1];
    c := PushGiven(c, f2);
    PushedSnoc(fs, f2);
    fs := fs + [f2];
    assert fs == [f0, f1, f2];
  }

  method ExpenseConditions(category: Option<string>, supplierId: Option<Param>, startDate: Option<Param>, endDate: Option<Param>)
    returns (c: Conditions)
    ensures c == Pushed(ExpenseFilters(category, supplierId, startDate, endDate))
  {
    var f0, f1 := Filter("e.category ILIKE", LikePattern(category)), Filter("e.supplier_id =", supplierId);
    var f2, f3 := Filter("e.date >=", startDate), Filter("e.date <=", endDate);
    ghost var fs: seq<Filter> := [];
    c := Conditions([], []);
    c := PushGiven(c, f0);
    PushedSnoc(fs, f0);
    fs := fs + [f0];
    c := PushGiven(c, f1);
    PushedSnoc(fs, f1);
    fs := fs + [f1];
    c := PushGiven(c, f2);
    PushedSnoc(fs, f2);
    fs := fs + [f2];
    c := PushGiven(c, f3);
    PushedSnoc(fs, f3);
    fs := fs + [f3];
    assert fs == [f0, f1, f2, f3];
  }

  /** findAllIncomes: the filters, then LIMIT and OFFSET from the default pagination. */
  method FindAllIncomesQuery(source: Option<string>, startDate: Option<Param>, endDate: Option<Param>,
                             rawPage: Option<int>, rawLimit: Option<int>, totalItems: nat)
    returns (q: ListQuery, info: PageInfo)
    ensures info == Paginate(rawPage, rawLimit, totalItems)
    ensures q == Listing(Pushed(IncomeFilters(source, startDate, endDate)), Int(info.limit), Int(info.offset))
  {
    info := Paginate(rawPage, rawLimit, totalItems);
    var c := IncomeConditions(source, startDate, endDate);
    q := Listing(c, Int(info.limit), Int(info.offset));
  }

  /** findAllExpenses: the filters, then LIMIT and OFFSET from the default pagination. */
  method FindAllExpensesQuery(category: Option<string>, supplierId: Option<Param>, startDate: Option<Param>,
                              endDate: Option<Param>, rawPage: Option<int>, rawLimit: Option<int>, totalItems: nat)
    returns (q: ListQuery, info: PageInfo)
    ensures info == Paginate(rawPage, rawLimit, totalItems)
    ensures q == Listing(Pushed(ExpenseFilters(category, supplierId, startDate, endDate)), Int(info.limit), Int(info.offset))
  {
    info := Paginate(rawPage, rawLimit, totalItems);
    var c := ExpenseConditions(category, supplierId, startDate, endDate);
    q := Listing(c, Int(info.limit), Int(info.offset));
  }

  // ---------------------------------------------------------------------
  // Profit report
  // ---------------------------------------------------------------------

  /** What getProfitReportByClient binds before its query, and the date condition it adds. */
  datatype ProfitQuery = ProfitQuery(params: seq<Param>, dateCondition: string)

  /**
   * getProfitReportByClient pushes onto an undeclared `conditions` when a
   * date is given, so any given date throws; with no date there is no date
   * filter at all.
   */
  function ProfitReportQuery(startDate: Option<string>, endDate: Option<string>): (r: Result<ProfitQuery, Error>)
    ensures r.Err? <==> (startDate.Some? && startDate.value != "") || (endDate.Some? && endDate.value != "")
    ensures r.Err? ==> r.error == ConditionsNotDefined
    ensures r.Ok? ==> r.value == ProfitQuery([], "")
  {
    if (startDate.Some? && startDate.value != "") || (endDate.Some? && endDate.value != "") then Err(ConditionsNotDefined)
    else Ok(ProfitQuery([], ""))
  }

  /** One order line of a COMPLETED order of the client, with its product's latest costing total, if any. */
  datatype ProfitLine = ProfitLine(quantity: real, price: real, latestCost: Option<real>)

  /** SUM(op.quantity * op.price). */
  function Revenue(lines: seq<ProfitLine>): real {
    if lines == [] then 0.0 else Revenue(lines[..|lines| - 1]) + lines[|lines| - 1].quantity * lines[|lines| - 1].price
  }

  /** SUM(op.quantity * COALESCE(lc.product_cost, 0)). */
  function Cost(lines: seq<ProfitLine>): real {
    if lines == [] then 0.0
    else Cost(lines[..|lines| - 1]) + lines[|lines| - 1].quantity * lines[|lines| - 1].latestCost.GetOr(0.0)
  }

  /** The per-line margin: quantity × (price − cost), a product without costing costing 0. */
  function Margin(lines: seq<ProfitLine>): real {
    if lines == [] then 0.0
    else Margin(lines[..|lines| - 1])
         + lines[|lines| - 1].quantity * (lines[|lines| - 1].price - lines[|lines| - 1].latestCost.GetOr(0.0))
  }

  /** The client's profit, revenue − cost, is the sum of the line margins. */
  lemma {:induction false} ProfitIsMargin(lines: seq<ProfitLine>)
    ensures Revenue(lines) - Cost(lines) == Margin(lines)
  {
    if lines != [] {
      ProfitIsMargin(lines[..|lines| - 1]);
    }
  }

  /** Lines whose products were never costed count their whole revenue as profit. */
  lemma {:induction false} UncostedIsAllProfit(lines: seq<ProfitLine>)
    requires forall i :: 0 <= i < |lines| ==> lines[i].latestCost.None?
    ensures Revenue(lines) - Cost(lines) == Revenue(lines)
  {
    if lines != [] {
      UncostedIsAllProfit(lines[..|lines| - 1]);
    }
  }
}
