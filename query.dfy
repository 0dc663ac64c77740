/**
 * The query-text builders the services share: `$n` placeholders, paging,
 * the step-by-step WHERE condition lists and the dynamic UPDATE statement.
 */
module Query {
  import opened Wrappers
  import opened Text

  /** A bind parameter of a parameterised query; `NaN` is the JavaScript value of a failed parse. */
  datatype Param = Str(s: string) | Int(i: int) | NaN

  /** A value of a JSON request body, as it reaches a dynamic UPDATE. */
  datatype JsValue = JsNull | JsBool(b: bool) | JsNum(r: real) | JsStr(s: string)

  /** The positional placeholder `$k` of node-postgres. */
  function Placeholder(k: nat): string {
    "$" + NatToString(k)
  }

  /** Two different positions never share a placeholder. */
  lemma PlaceholderInjective(a: nat, b: nat)
    requires a != b
    ensures Placeholder(a) != Placeholder(b)
  {
    NatToStringInjective(a, b);
    assert Placeholder(a)[1..] == NatToString(a);
    assert Placeholder(b)[1..] == NatToString(b);
  }

  // ---------------------------------------------------------------------
  // Paging
  // ---------------------------------------------------------------------

  /** `parseInt(raw) || fallback`: a missing or non-numeric value (None) and 0 both fall back. */
  function OrDefault(raw: Option<int>, fallback: int): (v: int)
    ensures raw.Some? && raw.value != 0 ==> v == raw.value
    ensures (raw.None? || raw.value == 0) ==> v == fallback
  {
    if raw.Some? && raw.value != 0 then raw.value else fallback
  }

  /** `Math.ceil(a / b)` for a non-negative count and a non-zero divisor. */
  function CeilDiv(a: nat, b: int): (r: int)
    requires b != 0
    ensures b > 0 ==> b * (r - 1) < a <= b * r
    ensures b < 0 ==> b * r <= a < b * (r - 1)
  {
    if b > 0 then
      var q := (a + b - 1) / b;
      assert b * q <= a + b - 1 < b * q + b;
      q
    else
      var q := a / (-b);
      assert (-b) * q <= a < (-b) * q + (-b);
      -q
  }

  /** What a paginated listing computes besides its rows. */
  datatype PageInfo = PageInfo(page: int, limit: int, offset: int, totalPages: int)

  /**
   * page = parseInt(page) || 1, limit = parseInt(limit) || 10,
   * offset = (page - 1) * limit, totalPages = Math.ceil(totalItems / limit).
   */
  function Paginate(rawPage: Option<int>, rawLimit: Option<int>, totalItems: nat): (p: PageInfo)
    ensures p.page == OrDefault(rawPage, 1) && p.limit == OrDefault(rawLimit, 10)
    ensures p.offset == (p.page - 1) * p.limit
    ensures p.limit > 0 ==> p.limit * (p.totalPages - 1) < totalItems <= p.limit * p.totalPages
  {
    var page := OrDefault(rawPage, 1);
    var limit := OrDefault(rawLimit, 10);
    PageInfo(page, limit, (page - 1) * limit, CeilDiv(totalItems, limit))
  }

  /**
   * With a positive limit, the last page reported starts inside the item list
   * and the page after it starts past the end: totalPages is exactly the
   * number of non-empty pages.
   */
  lemma LastPageIsLastNonEmpty(rawLimit: Option<int>, totalItems: nat)
    requires totalItems > 0
    requires OrDefault(rawLimit, 10) > 0
    ensures var last := Paginate(Some(0), rawLimit, totalItems).totalPages;
            last >= 1
            && Paginate(Some(last), rawLimit, totalItems).offset < totalItems
            && Paginate(Some(last + 1), rawLimit, totalItems).offset >= totalItems
  {
    var limit := OrDefault(rawLimit, 10);
    var last := CeilDiv(totalItems, limit);
    assert limit * (last - 1) < totalItems <= limit * last;
    assert last >= 1;
    assert Paginate(Some(last), rawLimit, totalItems).offset == (last - 1) * limit;
    assert Paginate(Some(last + 1), rawLimit, totalItems).offset == last * limit;
  }

  // ---------------------------------------------------------------------
  // WHERE conditions pushed one by one
  // ---------------------------------------------------------------------

  /** One optional filter: the column-and-operator text and its parameter when the filter is given. */
  datatype Filter = Filter(column: string, value: Option<Param>)

  /** The `conditions` and `params` arrays a builder grows. */
  datatype Conditions = Conditions(conds: seq<string>, params: seq<Param>)

  /** `params.push(v); conditions.push(`${column} $${params.length}`)`. */
  function Push(c: Conditions, column: string, v: Param): (r: Conditions)
    ensures |r.params| == |c.params| + 1 && r.params[|c.params|] == v
    ensures |r.conds| == |c.conds| + 1 && r.conds[..|c.conds|] == c.conds && r.params[..|c.params|] == c.params
    ensures r.conds[|c.conds|] == column + " " + Placeholder(|r.params|)
  {
    var params := c.params + [v];
    Conditions(c.conds + [column + " " + Placeholder(|params|)], params)
  }

  /** JavaScript truthiness of a parameter: `''`, `0` and `NaN` are falsy. */
  predicate Truthy(p: Param) {
    match p
    case Str(s) => s != ""
    case Int(i) => i != 0
    case NaN => false
  }

  /** `if (value)`: the filter carries a value and the value is truthy. */
  predicate Given(f: Filter) {
    f.value.Some? && Truthy(f.value.value)
  }

  /** The filters that were given, in their declared order. */
  function Present(fs: seq<Filter>): (ps: seq<Filter>)
    ensures |ps| <= |fs|
    ensures forall f :: f in ps ==> f in fs && Given(f)
    ensures forall f :: f in fs && Given(f) ==> f in ps
  {
    if fs == [] then []
    else Present(fs[..|fs| - 1]) + (if Given(fs[|fs| - 1]) then [fs[|fs| - 1]] else [])
  }

  /**
   * The reference meaning of a filter list: the k-th given filter becomes the
   * k-th condition, written with placeholder $(k+1), and its value is the
   * k-th parameter.
   */
  function Numbered(fs: seq<Filter>): (c: Conditions)
    ensures |c.conds| == |c.params| == |Present(fs)|
  {
    var ps := Present(fs);
    Conditions(seq(|ps|, k requires 0 <= k < |ps| => ps[k].column + " " + Placeholder(k + 1)),
               seq(|ps|, k requires 0 <= k < |ps| => assert ps[k] in ps; ps[k].value.value))
  }

  /** Pushing the next filter when it is given, and skipping it when it is not, extends the numbering. */
  lemma PushNumbered(fs: seq<Filter>, f: Filter)
    ensures Numbered(fs + [f]) == if Given(f) then Push(Numbered(fs), f.column, f.value.value) else Numbered(fs)
  {
    assert (fs + [f])[..|fs + [f]| - 1] == fs;
    var ps := Present(fs);
    if Given(f) {
      var lhs := Numbered(fs + [f]);
      var rhs := Push(Numbered(fs), f.column, f.value.value);
      assert Present(fs + [f]) == ps + [f];
      assert lhs.conds == rhs.conds;
      assert lhs.params == rhs.params;
    }
  }

  /** `if (value) { params.push(value); conditions.push(...) }`: push the filter only when its value is truthy. */
  function PushGiven(c: Conditions, f: Filter): Conditions {
    if Given(f) then Push(c, f.column, f.value.value) else c
  }

  /** What a builder that tests its filters in order, pushing each given one, ends with. */
  function Pushed(fs: seq<Filter>): (c: Conditions)
    ensures |c.conds| == |c.params|
  {
    if fs == [] then Conditions([], []) else PushGiven(Pushed(fs[..|fs| - 1]), fs[|fs| - 1])
  }

  /** The parameter of a text filter matched with ILIKE: a given text is wrapped as `%text%`; an empty one is no filter. */
  function LikePattern(text: Option<string>): (v: Option<Param>)
    ensures v.Some? <==> text.Some? && text.value != ""
    ensures v.Some? ==> v.value == Str("%" + text.value + "%")
  {
    if text.Some? && text.value != "" then Some(Str("%" + text.value + "%")) else None
  }

  /** Testing one more filter extends what the earlier ones pushed. */
  lemma PushedSnoc(fs: seq<Filter>, f: Filter)
    ensures Pushed(fs + [f]) == PushGiven(Pushed(fs), f)
  {
    assert (fs + [f])[..|fs|] == fs;
  }

  /** Pushing the given filters one by one yields exactly the declarative numbering. */
  lemma {:induction false} PushedIsNumbered(fs: seq<Filter>)
    ensures Pushed(fs) == Numbered(fs)
  {
    if fs != [] {
      var init := fs[..|fs| - 1];
      PushedIsNumbered(init);
      PushNumbered(init, fs[|fs| - 1]);
      assert init + [fs[|fs| - 1]] == fs;
    }
  }

  /** `conditions.length > 0 ? `WHERE ${conditions.join(' AND ')}` : ''` (with `keyword` in place of WHERE). */
  function Clause(keyword: string, conds: seq<string>): (w: string)
    ensures conds == [] <==> w == ""
  {
    if |conds| > 0 then keyword + " " + Join(conds, " AND ") else ""
  }

  /** A paginated listing query: its filter parameters, then LIMIT and OFFSET bound after them. */
  datatype ListQuery = ListQuery(where: string, params: seq<Param>, limitRef: string, offsetRef: string, dataParams: seq<Param>)

  /**
   * Completes a listing: LIMIT uses $(n+1) and OFFSET $(n+2), where n is the
   * number of filter parameters, and the data query binds limit and offset
   * right after them.
   */
  function Listing(c: Conditions, limit: Param, offset: Param): (q: ListQuery)
    requires |c.conds| == |c.params|
    ensures q.params == c.params && q.dataParams == c.params + [limit, offset]
    ensures q.dataParams[|c.params|] == limit && q.dataParams[|c.params| + 1] == offset
    ensures q.limitRef == Placeholder(|q.params| + 1) && q.offsetRef == Placeholder(|q.params| + 2)
    ensures q.where == "" <==> c.conds == []
  {
    ListQuery(Clause("WHERE", c.conds), c.params, Placeholder(|c.params| + 1), Placeholder(|c.params| + 2),
              c.params + [limit, offset])
  }

  /**
   * The single optional search of the paginated catalogues (products,
   * clients, employees): a given term becomes `%term%` bound to $1 and used by
   * both ILIKE columns; LIMIT and OFFSET follow at $2/$3, or $1/$2 without a search.
   */
  method SearchListing(first: string, second: string, search: Option<string>, rawPage: Option<int>, rawLimit: Option<int>, totalItems: nat)
    returns (q: ListQuery, info: PageInfo)
    ensures info == Paginate(rawPage, rawLimit, totalItems)
    ensures search.Some? && search.value != "" ==> q.params == [Str("%" + search.value + "%")] && q.limitRef == "$2" && q.offsetRef == "$3"
    ensures search.Some? && search.value != "" ==> q.where == "AND (" + first + " ILIKE $1 OR " + second + " ILIKE $1)"
    ensures !(search.Some? && search.value != "") ==> q.params == [] && q.where == "" && q.limitRef == "$1" && q.offsetRef == "$2"
    ensures q.dataParams == q.params + [Int(info.limit), Int(info.offset)]
  {
    info := Paginate(rawPage, rawLimit, totalItems);
    var params: seq<Param> := [];
    var searchCondition := "";
    if search.Some? && search.value != "" {
      params := params + [Str("%" + search.value + "%")];
      searchCondition := "AND (" + first + " ILIKE " + Placeholder(|params|) + " OR " + second + " ILIKE " + Placeholder(|params|) + ")";
    }
    q := ListQuery(searchCondition, params, Placeholder(|params| + 1), Placeholder(|params| + 2),
                   params + [Int(info.limit), Int(info.offset)]);
  }

  // ---------------------------------------------------------------------
  // Dynamic UPDATE built from the keys of the request body
  // ---------------------------------------------------------------------

  /** A request body as `Object.keys` sees it: its entries in insertion order. */
  type Body = seq<(string, JsValue)>

  /** The body after the `delete` statements: the keys outside `dropped`, in their order. */
  function Kept(d: Body, dropped: set<string>): (k: Body)
    ensures |k| <= |d|
    ensures forall e :: e in k ==> e in d && e.0 !in dropped
  {
    if d == [] then []
    else Kept(d[..|d| - 1], dropped) + (if d[|d| - 1].0 in dropped then [] else [d[|d| - 1]])
  }

  /** Every entry of the body whose key is not dropped survives. */
  lemma {:induction false} KeptKeepsOthers(d: Body, dropped: set<string>, e: (string, JsValue))
    requires e in d && e.0 !in dropped
    ensures e in Kept(d, dropped)
    decreases |d|
  {
    var init := d[..|d| - 1];
    if e != d[|d| - 1] {
      assert d == init + [d[|d| - 1]];
      assert e in init;
      KeptKeepsOthers(init, dropped, e);
    }
  }

  /** Nothing is left exactly when every key of the body is dropped. */
  lemma {:induction false} KeptEmptyIff(d: Body, dropped: set<string>)
    ensures Kept(d, dropped) == [] <==> forall e :: e in d ==> e.0 in dropped
    decreases |d|
  {
    if d != [] {
      var init := d[..|d| - 1];
      assert d == init + [d[|d| - 1]];
      KeptEmptyIff(init, dropped);
      forall e | e in d && e.0 !in dropped
        ensures Kept(d, dropped) != []
      {
        KeptKeepsOthers(d, dropped, e);
      }
    }
  }

  /** The column the product, client and employee statements stamp after the body's assignments. */
  const STAMP_COLUMN := "updated_at"
  /** The assignment those statements append: `, updated_at = CURRENT_TIMESTAMP`. */
  const STAMP := "updated_at = CURRENT_TIMESTAMP"

  /**
   * Either "nothing to update, return the current row" or the SET list: the
   * column each assignment writes, the assignments in order, the bound
   * values with the id last, and the id's placeholder.
   */
  datatype UpdatePlan =
    | ReturnCurrent
    | SetColumns(columns: seq<string>, assignments: seq<string>, params: seq<JsValue>, idRef: string)

  /**
   * The i-th remaining key, converted to snake_case, is assigned $(i+1); a
   * stamped statement then assigns updated_at the current time; the row id
   * is bound last, at $(n+1).
   */
  function BuildUpdate(d: Body, dropped: set<string>, stamped: bool, id: JsValue): (p: UpdatePlan)
    ensures p.ReturnCurrent? <==> Kept(d, dropped) == []
    ensures p.SetColumns? ==>
      var kept := Kept(d, dropped);
      && |p.columns| == |p.assignments| == |kept| + (if stamped then 1 else 0)
      && (forall i :: 0 <= i < |kept| ==>
            p.columns[i] == CamelToSnake(kept[i].0) && p.assignments[i] == p.columns[i] + " = " + Placeholder(i + 1))
      && (stamped ==> p.columns[|kept|] == STAMP_COLUMN && p.assignments[|kept|] == STAMP)
      && p.params == seq(|kept|, i requires 0 <= i < |kept| => kept[i].1) + [id]
      && p.idRef == Placeholder(|kept| + 1)
  {
    var kept := Kept(d, dropped);
    if |kept| == 0 then ReturnCurrent
    else
      var columns := seq(|kept|, i requires 0 <= i < |kept| => CamelToSnake(kept[i].0));
      SetColumns(columns + (if stamped then [STAMP_COLUMN] else []),
                 seq(|kept|, i requires 0 <= i < |kept| => columns[i] + " = " + Placeholder(i + 1)) + (if stamped then [STAMP] else []),
                 seq(|kept|, i requires 0 <= i < |kept| => kept[i].1) + [id],
                 Placeholder(|kept| + 1))
  }

  /** One SET list assigns some column twice, which PostgreSQL rejects ("multiple assignments to same column"). */
  predicate AssignsTwice(p: UpdatePlan) {
    p.SetColumns? && exists i, j :: 0 <= i < j < |p.columns| && p.columns[i] == p.columns[j]
  }

  /** A body with a single kept key sets that one column from $1, then the stamp if any, and binds the id at $2. */
  lemma BuildUpdateSingle(key: string, v: JsValue, dropped: set<string>, stamped: bool, id: JsValue)
    requires key !in dropped
    ensures BuildUpdate([(key, v)], dropped, stamped, id)
            == SetColumns([CamelToSnake(key)] + (if stamped then [STAMP_COLUMN] else []),
                          [CamelToSnake(key) + " = $1"] + (if stamped then [STAMP] else []), [v, id], "$2")
  {
    var body: Body := [(key, v)];
    assert body[..0] == [];
    var kept := Kept(body, dropped);
    assert kept == body;
    assert Placeholder(1) == "$1" by { assert NatToString(1) == "1"; }
    assert Placeholder(2) == "$2" by { assert NatToString(2) == "2"; }
    var columns := seq(|kept|, i requires 0 <= i < |kept| => CamelToSnake(kept[i].0));
    var assigns := seq(|kept|, i requires 0 <= i < |kept| => columns[i] + " = " + Placeholder(i + 1));
    var params := seq(|kept|, i requires 0 <= i < |kept| => kept[i].1) + [id];
    assert columns == [CamelToSnake(key)];
    assert assigns[0] == CamelToSnake(key) + " = " + "$1";
    assert " = " + "$1" == " = $1";
    assert CamelToSnake(key) + " = " + "$1" == CamelToSnake(key) + (" = " + "$1");
    assert |assigns| == 1;
    assert assigns == [CamelToSnake(key) + " = $1"];
    assert params == [v, id];
  }

  /** The key `updatedAt` becomes the column updated_at. */
  lemma UpdatedAtColumn()
    ensures CamelToSnake("updatedAt") == STAMP_COLUMN
  {
    var head, tail := "updated", "t";
    assert NoUpper(head) && NoUpper(tail);
    CamelToSnakeOneHump(head, 'A', tail);
    assert head + ['A'] + tail == "updatedAt";
    assert head + ['_', Lower('A')] + tail == "updated_at";
  }

  /** A kept key whose column is updated_at is assigned a second time by the stamp, so the statement is rejected. */
  lemma StampCollides(d: Body, dropped: set<string>, id: JsValue, key: string, v: JsValue)
    requires (key, v) in d && key !in dropped && CamelToSnake(key) == STAMP_COLUMN
    ensures AssignsTwice(BuildUpdate(d, dropped, true, id))
  {
    KeptKeepsOthers(d, dropped, (key, v));
    var kept := Kept(d, dropped);
    var i :| 0 <= i < |kept| && kept[i] == (key, v);
    var p := BuildUpdate(d, dropped, true, id);
    assert p.columns[i] == p.columns[|kept|];
  }

  /**
   * Every body entry whose key survives the deletes is written: some
   * assignment sets its snake_case column through a placeholder whose
   * parameter is exactly that entry's value.
   */
  lemma UpdateBindsEveryKeptKey(d: Body, dropped: set<string>, stamped: bool, id: JsValue, key: string, v: JsValue)
    requires (key, v) in d && key !in dropped
    ensures var p := BuildUpdate(d, dropped, stamped, id);
            p.SetColumns? &&
            exists i :: 0 <= i < |p.assignments| &&
              p.assignments[i] == CamelToSnake(key) + " = " + Placeholder(i + 1) && p.params[i] == v
  {
    KeptKeepsOthers(d, dropped, (key, v));
    var kept := Kept(d, dropped);
    var i :| 0 <= i < |kept| && kept[i] == (key, v);
    var p := BuildUpdate(d, dropped, stamped, id);
    assert p.assignments[i] == CamelToSnake(key) + " = " + Placeholder(i + 1);
  }

  /** No assignment comes from a dropped key, and the id parameter is the only one after the values. */
  lemma UpdateSkipsDropped(d: Body, dropped: set<string>, stamped: bool, id: JsValue, i: nat)
    requires BuildUpdate(d, dropped, stamped, id).SetColumns?
    requires i < |Kept(d, dropped)|
    ensures Kept(d, dropped)[i].0 !in dropped
    ensures BuildUpdate(d, dropped, stamped, id).assignments[i] == CamelToSnake(Kept(d, dropped)[i].0) + " = " + Placeholder(i + 1)
  {
    assert Kept(d, dropped)[i] in Kept(d, dropped);
  }
}
