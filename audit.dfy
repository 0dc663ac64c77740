/** The audit service: a best-effort audit log and its filtered, paginated listing. */
module Audit {
  import opened Wrappers
  import opened Query
  import opened Database

  /** A row of `audits`; `details` is the details object as key/value pairs (its JSON text is not rendered). */
  datatype AuditEntry = AuditEntry(userId: Option<UserId>, action: string, details: Body)

  /** The `audits` table. */
  class AuditLog {
    var entries: seq<AuditEntry>

    constructor ()
      ensures entries == []
    {
      entries := [];
    }

    /**
     * logAction: insert one row. A failing insert (`fails`) is caught and
     * only logged, so the caller never sees an error and the table is unchanged.
     */
    method LogAction(userId: Option<UserId>, action: string, details: Body, fails: bool)
      modifies this
      ensures entries == old(entries) + (if fails then [] else [AuditEntry(userId, action, details)])
    {
      if !fails {
        entries := entries + [AuditEntry(userId, action, details)];
      }
    }
  }

  /** The paging values of findAudits. */
  datatype AuditPage = AuditPage(limit: int, offset: Option<int>, totalPages: Option<int>, currentPage: int)

  /**
   * limit defaults to 15 but page has no default: without a page the offset
   * is NaN (absent here) while currentPage reports 1. totalPages is
   * Math.ceil(totalItems / limit), not a number when limit is 0.
   */
  function AuditPaging(rawPage: Option<int>, rawLimit: Option<int>, totalItems: nat): (p: AuditPage)
    ensures p.limit == rawLimit.GetOr(15)
    ensures p.offset.None? <==> rawPage.None?
    ensures rawPage.Some? ==> p.offset == Some((rawPage.value - 1) * p.limit)
    ensures p.currentPage == OrDefault(rawPage, 1)
    ensures p.totalPages.None? <==> p.limit == 0
    ensures p.limit > 0 ==> p.limit * (p.totalPages.value - 1) < totalItems <= p.limit * p.totalPages.value
  {
    var limit := rawLimit.GetOr(15);
    AuditPage(limit,
              if rawPage.None? then None else Some((rawPage.value - 1) * limit),
              if limit == 0 then None else Some(CeilDiv(totalItems, limit)),
              OrDefault(rawPage, 1))
  }

  /** Without a page the listing asks for a NaN offset yet reports page 1. */
  lemma MissingPageIsInconsistent(rawLimit: Option<int>, totalItems: nat)
    ensures var p := AuditPaging(None, rawLimit, totalItems);
            p.offset.None? && p.currentPage == 1
  {
  }

  /** findAudits' optional filters, in the order the builder tests them. */
  function AuditFilters(userId: Option<Param>, action: Option<string>, startDate: Option<Param>, endDate: Option<Param>)
    : seq<Filter>
  {
    [Filter("a.user_id =", userId), Filter("a.action ILIKE", LikePattern(action)),
     Filter("a.timestamp >=", startDate), Filter("a.timestamp <=", endDate)]
  }

  /** findAudits' `params` and `conditions`, pushed in the order user, action, start, end. */
  method AuditConditions(userId: Option<Param>, action: Option<string>, startDate: Option<Param>, endDate: Option<Param>)
    returns (c: Conditions)
    ensures c == Pushed(AuditFilters(userId, action, startDate, endDate))
  {
    var f0, f1 := Filter("a.user_id =", userId), Filter("a.action ILIKE", LikePattern(action));
    var f2, f3 := Filter("a.timestamp >=", startDate), Filter("a.timestamp <=", endDate);
    ghost var fs: seq<Filter> := [];
    c := Conditions([], []);
    c := PushGiven(c, f0);
    PushedSnoc(fs, f0);
    fs := fs + [f0];
    c := PushGiven(c, f1);
    PushedSnoc(fs, f1);
    fs := fs + [f1];
    c := PushGiven(c, f2);
    PushedSnoc(fs, f2);
    fs := fs + [f2];
    c := PushGiven(c, f3);
    PushedSnoc(fs, f3);
    fs := fs + [f3];
    assert fs == [f0, f1, f2, f3];
  }

  /** findAudits' query: the conditions, then LIMIT and OFFSET bound right after them. */
  method FindAuditsQuery(userId: Option<Param>, action: Option<string>, startDate: Option<Param>, endDate: Option<Param>,
                         rawPage: Option<int>, rawLimit: Option<int>, totalItems: nat)
    returns (q: ListQuery, page: AuditPage)
    ensures page == AuditPaging(rawPage, rawLimit, totalItems)
    ensures q == Listing(Pushed(AuditFilters(userId, action, startDate, endDate)), Int(page.limit),
                         if page.offset.Some? then Int(page.offset.value) else NaN)
  {
    page := AuditPaging(rawPage, rawLimit, totalItems);
    var c := AuditConditions(userId, action, startDate, endDate);
    q := Listing(c, Int(page.limit), if page.offset.Some? then Int(page.offset.value) else NaN);
  }
}
