/**
 * The human-resources service: the attendance upsert, the payroll formula,
 * and the builders of its UPDATE statements and filters.
 */
module HumanResources {
  import opened Wrappers
  import opened Text
  import opened Query
  import opened Database

  // ---------------------------------------------------------------------
  // Attendance
  // ---------------------------------------------------------------------

  /** The stored columns of an attendance; null is None. */
  datatype Attendance = Attendance(entryTime: Option<string>, exitTime: Option<string>,
                                   absenceReason: Option<string>, overtimeHours: Option<real>)

  /** The body registerAttendance receives; an absent field is None. */
  datatype AttendanceInput = AttendanceInput(employeeId: nat, date: string, entryTime: Option<string>,
                                             exitTime: Option<string>, absenceReason: Option<string>,
                                             overtimeHours: Option<real>)

  /** `s || null` on a string: the empty string becomes null. */
  function TextOrNull(s: Option<string>): (r: Option<string>)
    ensures r.Some? <==> s.Some? && s.value != ""
    ensures r.Some? ==> r == s
  {
    if s.Some? && s.value != "" then s else None
  }

  /** `n || null` on a number: 0 becomes null. */
  function NumberOrNull(n: Option<real>): (r: Option<real>)
    ensures r.Some? <==> n.Some? && n.value != 0.0
    ensures r.Some? ==> r == n
  {
    if n.Some? && n.value != 0.0 then n else None
  }

  /** The four values bound to $3..$6. */
  function Normalized(a: AttendanceInput): Attendance {
    Attendance(TextOrNull(a.entryTime), TextOrNull(a.exitTime), TextOrNull(a.absenceReason), NumberOrNull(a.overtimeHours))
  }

  /** `COALESCE(new, stored)`: the new value wins, and the result is null only when both are. */
  function Coalesce<T>(incoming: Option<T>, stored: Option<T>): (r: Option<T>)
    ensures incoming.Some? ==> r == incoming
    ensures r.None? <==> incoming.None? && stored.None?
    ensures r.Some? ==> r == incoming || r == stored
  {
    if incoming.Some? then incoming else stored
  }

  /** ON CONFLICT DO UPDATE: each column takes the new value when it is not null, else keeps the stored one. */
  function Merge(stored: Attendance, incoming: Attendance): Attendance {
    Attendance(Coalesce(incoming.entryTime, stored.entryTime), Coalesce(incoming.exitTime, stored.exitTime),
               Coalesce(incoming.absenceReason, stored.absenceReason), Coalesce(incoming.overtimeHours, stored.overtimeHours))
  }

  /** The row registerAttendance leaves for the input's (employee, date). */
  function Upserted(rows: map<(nat, string), Attendance>, a: AttendanceInput): Attendance {
    var key := (a.employeeId, a.date);
    if key in rows then Merge(rows[key], Normalized(a)) else Normalized(a)
  }

  /** The `attendances` table, keyed by (employee_id, date). */
  class Attendances {
    var rows: map<(nat, string), Attendance>

    constructor ()
      ensures rows == map[]
    {
      rows := map[];
    }

    /** registerAttendance: INSERT … ON CONFLICT (employee_id, date) DO UPDATE, returning the row. */
    method RegisterAttendance(a: AttendanceInput) returns (row: Attendance)
      modifies this
      ensures row == Upserted(old(rows), a)
      ensures rows == old(rows)[(a.employeeId, a.date) := row]
    {
      var incoming := Attendance(TextOrNull(a.entryTime), TextOrNull(a.exitTime), TextOrNull(a.absenceReason),
                                 NumberOrNull(a.overtimeHours));
      var key := (a.employeeId, a.date);
      if key in rows {
        var stored := rows[key];
        row := Attendance(Coalesce(incoming.entryTime, stored.entryTime), Coalesce(incoming.exitTime, stored.exitTime),
                          Coalesce(incoming.absenceReason, stored.absenceReason),
                          Coalesce(incoming.overtimeHours, stored.overtimeHours));
      } else {
        row := incoming;
      }
      rows := rows[key := row];
    }
  }

  /** A field given with a truthy value is stored; a field left out, empty or zero keeps what was stored. */
  lemma UpsertTakesGivenKeepsMissing(rows: map<(nat, string), Attendance>, a: AttendanceInput)
    requires (a.employeeId, a.date) in rows
    ensures var stored, row := rows[(a.employeeId, a.date)], Upserted(rows, a);
            && (a.entryTime.Some? && a.entryTime.value != "" ==> row.entryTime == a.entryTime)
            && (a.entryTime.None? || a.entryTime.value == "" ==> row.entryTime == stored.entryTime)
            && (a.exitTime.Some? && a.exitTime.value != "" ==> row.exitTime == a.exitTime)
            && (a.exitTime.None? || a.exitTime.value == "" ==> row.exitTime == stored.exitTime)
            && (a.absenceReason.Some? && a.absenceReason.value != "" ==> row.absenceReason == a.absenceReason)
            && (a.absenceReason.None? || a.absenceReason.value == "" ==> row.absenceReason == stored.absenceReason)
            && (a.overtimeHours.Some? && a.overtimeHours.value != 0.0 ==> row.overtimeHours == a.overtimeHours)
            && (a.overtimeHours.None? || a.overtimeHours.value == 0.0 ==> row.overtimeHours == stored.overtimeHours)
  {
  }

  /** An overtime of 0 is turned into null and so never overwrites the stored overtime. */
  lemma ZeroOvertimeNeverOverwrites(rows: map<(nat, string), Attendance>, a: AttendanceInput)
    requires a.overtimeHours == Some(0.0)
    ensures (a.employeeId, a.date) in rows ==> Upserted(rows, a).overtimeHours == rows[(a.employeeId, a.date)].overtimeHours
    ensures (a.employeeId, a.date) !in rows ==> Upserted(rows, a).overtimeHours.None?
  {
  }

  /** Registering the same attendance twice leaves the same row as registering it once. */
  lemma RegisterTwiceSameAsOnce(rows: map<(nat, string), Attendance>, a: AttendanceInput)
    ensures Upserted(rows[(a.employeeId, a.date) := Upserted(rows, a)], a) == Upserted(rows, a)
  {
  }

  // ---------------------------------------------------------------------
  // Payroll
  // ---------------------------------------------------------------------

  /** The monthly hours the hourly rate assumes. */
  const HOURS_PER_MONTH: real := 160.0

  datatype PayrollRow = PayrollRow(baseSalary: real, hourlyRate: real, overtimeHours: real, overtimePay: real,
                                   absenceDays: nat, absenceDeduction: real, totalPay: real)

  /**
   * One row of getPayrollReport: the employee's salary and the period's
   * overtime and absence aggregates, absent (0) when the employee has no
   * attendance in the period.
   */
  function Payroll(salary: real, overtime: Option<real>, absences: Option<nat>): (r: PayrollRow)
    ensures r.hourlyRate * HOURS_PER_MONTH == salary
    ensures r.overtimeHours == overtime.GetOr(0.0) && r.absenceDays == absences.GetOr(0)
    ensures r.overtimePay == r.overtimeHours * 2.0 * r.hourlyRate
    ensures r.absenceDeduction == r.absenceDays as real * 8.0 * r.hourlyRate
    ensures r.totalPay == salary + r.overtimePay - r.absenceDeduction
  {
    var rate := salary / HOURS_PER_MONTH;
    var hours := overtime.GetOr(0.0);
    var days := absences.GetOr(0);
    PayrollRow(salary, rate, hours, hours * (rate * 2.0), days, days as real * 8.0 * rate,
               salary + hours * (rate * 2.0) - days as real * 8.0 * rate)
  }

  /**
   * The total in closed form: each overtime hour adds 1/80 of the salary
   * and each absence day takes 1/20 of it.
   */
  lemma PayrollClosedForm(salary: real, overtime: Option<real>, absences: Option<nat>)
    ensures var r := Payroll(salary, overtime, absences);
            r.totalPay == salary * (1.0 + r.overtimeHours / 80.0 - r.absenceDays as real / 20.0)
  {
    var r := Payroll(salary, overtime, absences);
    var rate := salary / HOURS_PER_MONTH;
    assert r.overtimePay == salary * (r.overtimeHours / 80.0);
    assert r.absenceDeduction == salary * (r.absenceDays as real / 20.0);
  }

  /** An employee without attendance in the period is paid exactly the base salary. */
  lemma NoAttendanceBaseSalary(salary: real)
    ensures Payroll(salary, None, None).totalPay == salary
  {
  }

  /** What getPayrollReport binds: both dates, then the employee at $3 when one is given. */
  datatype PayrollQuery = PayrollQuery(params: seq<Param>, employeeCondition: string)

  /** getPayrollReport before its query: both dates are required. */
  function PayrollReportQuery(startDate: Option<string>, endDate: Option<string>, employeeId: Option<Param>)
    : (r: Result<PayrollQuery, Error>)
    ensures r.Err? <==> startDate.None? || startDate.value == "" || endDate.None? || endDate.value == ""
    ensures r.Err? ==> r.error == PayrollDatesMissing
    ensures r.Ok? ==> |r.value.params| >= 2 && r.value.params[..2] == [Str(startDate.value), Str(endDate.value)]
    ensures r.Ok? && !(employeeId.Some? && Truthy(employeeId.value)) ==>
              r.value.params == [Str(startDate.value), Str(endDate.value)] && r.value.employeeCondition == ""
    ensures r.Ok? && employeeId.Some? && Truthy(employeeId.value) ==>
              |r.value.params| == 3 && r.value.params[2] == employeeId.value
              && r.value.employeeCondition == "AND e.id = " + Placeholder(3)
  {
    if startDate.None? || startDate.value == "" || endDate.None? || endDate.value == "" then Err(PayrollDatesMissing)
    else
      var params := [Str(startDate.value), Str(endDate.value)];
      if employeeId.Some? && Truthy(employeeId.value) then Ok(PayrollQuery(params + [employeeId.value], "AND e.id = " + Placeholder(|params| + 1)))
      else Ok(PayrollQuery(params, ""))
  }

  // ---------------------------------------------------------------------
  // UPDATE builders
  // ---------------------------------------------------------------------

  /** The keys updateEmployee deletes. */
  const EMPLOYEE_UPDATE_DROPS: set<string> := {"id", "created_at", "updated_at"}
  /** The only key updateShift deletes. */
  const SHIFT_UPDATE_DROPS: set<string> := {"id"}

  /**
   * updateEmployee's statement: current record when nothing is left, else
   * columns from $1..$n, then `updated_at = CURRENT_TIMESTAMP`, and the id at $(n+1).
   */
  function UpdateEmployeePlan(id: JsValue, body: Body): (p: UpdatePlan)
    ensures p.ReturnCurrent? <==> forall e :: e in body ==> e.0 in EMPLOYEE_UPDATE_DROPS
    ensures p.SetColumns? ==>
              && |p.params| >= 2 && |p.assignments| == |p.params|
              && p.assignments[|p.assignments| - 1] == STAMP
              && p.idRef == Placeholder(|p.params|) && p.params[|p.params| - 1] == id
  {
    KeptEmptyIff(body, EMPLOYEE_UPDATE_DROPS);
    BuildUpdate(body, EMPLOYEE_UPDATE_DROPS, true, id)
  }

  /** updateShift's statement: only `id` is deleted, so created_at and updated_at can be written; no stamp is appended. */
  function UpdateShiftPlan(id: JsValue, body: Body): (p: UpdatePlan)
    ensures p.ReturnCurrent? <==> forall e :: e in body ==> e.0 == "id"
    ensures p.SetColumns? ==>
              |p.params| == |p.assignments| + 1 && p.idRef == Placeholder(|p.assignments| + 1) && p.params[|p.assignments|] == id
  {
    KeptEmptyIff(body, SHIFT_UPDATE_DROPS);
    BuildUpdate(body, SHIFT_UPDATE_DROPS, false, id)
  }

  /** A body that carries `updated_at` is written by updateShift, though updateEmployee would drop it. */
  lemma ShiftKeepsTimestampKeys(id: JsValue, v: JsValue)
    ensures UpdateShiftPlan(id, [("updated_at", v)]).SetColumns?
    ensures UpdateEmployeePlan(id, [("updated_at", v)]).ReturnCurrent?
  {
    assert ("updated_at", v) in [("updated_at", v)];
  }

  /**
   * updateEmployee deletes only `updated_at`: a body carrying the camelCase
   * `updatedAt` assigns updated_at from it and again from the appended
   * stamp, and PostgreSQL refuses the statement.
   */
  lemma EmployeeUpdatedAtCollides(id: JsValue, body: Body, v: JsValue)
    requires ("updatedAt", v) in body
    ensures AssignsTwice(UpdateEmployeePlan(id, body))
  {
    assert "updatedAt" !in EMPLOYEE_UPDATE_DROPS by {
      assert |"updatedAt"| == 9 && |"id"| == 2 && |"created_at"| == 10 && |"updated_at"| == 10;
    }
    UpdatedAtColumn();
    StampCollides(body, EMPLOYEE_UPDATE_DROPS, id, "updatedAt", v);
  }

  /** The fields updateUser reads from the body. */
  datatype UserUpdate = UserUpdate(username: JsValue, email: JsValue, role: JsValue, employeeId: JsValue,
                                   isActive: JsValue, password: Option<string>)

  /** The columns updateUser sets and the values bound to them, the id last. */
  datatype UserStatement = UserStatement(columns: seq<string>, params: seq<JsValue>, idRef: string)

  const USER_COLUMNS: seq<string> := ["username", "email", "role", "employee_id", "is_active"]

  /**
   * updateUser: the five columns always, plus password_hash when a password
   * is given; `hashed` is what hashPassword returned for it.
   */
  function UpdateUserStatement(u: UserUpdate, id: JsValue, hashed: string): (s: UserStatement)
    ensures "password_hash" in s.columns <==> u.password.Some? && u.password.value != ""
    ensures |s.columns| >= 5 && |s.params| >= 6
    ensures s.columns[..5] == USER_COLUMNS && s.params[..5] == [u.username, u.email, u.role, u.employeeId, u.isActive]
    ensures |s.params| == |s.columns| + 1 && s.params[|s.columns|] == id && s.idRef == Placeholder(|s.columns| + 1)
    ensures "password_hash" in s.columns ==> s.params[5] == JsStr(hashed)
  {
    var values := [u.username, u.email, u.role, u.employeeId, u.isActive];
    if u.password.Some? && u.password.value != "" then
      UserStatement(USER_COLUMNS + ["password_hash"], values + [JsStr(hashed), id], Placeholder(7))
    else
      UserStatement(USER_COLUMNS, values + [id], Placeholder(6))
  }

  // ---------------------------------------------------------------------
  // Filters
  // ---------------------------------------------------------------------

  /** The optional filters of findAttendances and findShifts, with the table alias in front. */
  function PeriodFilters(alias: string, employeeId: Option<Param>, startDate: Option<Param>, endDate: Option<Param>)
    : seq<Filter>
  {
    [Filter(alias + ".employee_id =", employeeId), Filter(alias + ".date >=", startDate), Filter(alias + ".date <=", endDate)]
  }

  /** The conditions both builders push, employee then start then end. */
  method PeriodConditions(alias: string, employeeId: Option<Param>, startDate: Option<Param>, endDate: Option<Param>)
    returns (c: Conditions)
    ensures c == Pushed(PeriodFilters(alias, employeeId, startDate, endDate))
  {
    var f0, f1, f2 := Filter(alias + ".employee_id =", employeeId), Filter(alias + ".date >=", startDate),
                      Filter(alias + ".date <=", endDate);
    ghost var fs: seq<Filter> := [];
    c := Conditions([], []);
    c := PushGiven(c, f0);
    PushedSnoc(fs, f0);
    fs := fs + [f0];
    c := PushGiven(c, f1);
    PushedSnoc(fs, f1);
    fs := fs + [f1];
    c := PushGiven(c, f2);
    PushedSnoc(fs, f2);
    fs := fs + [f2];
    assert fs == [f0, f1, f2];
  }

  /** findAttendances: the conditions join the LEFT JOIN's ON clause, so they start with AND. */
  method FindAttendancesQuery(employeeId: Option<Param>, startDate: Option<Param>, endDate: Option<Param>)
    returns (c: Conditions, clause: string)
    ensures c == Pushed(PeriodFilters("a", employeeId, startDate, endDate))
    ensures clause == Clause("AND", c.conds)
  {
    c := PeriodConditions("a", employeeId, startDate, endDate);
    clause := Clause("AND", c.conds);
  }

  /** findShifts: the same filters on the shifts table, as a WHERE clause. */
  method FindShiftsQuery(employeeId: Option<Param>, startDate: Option<Param>, endDate: Option<Param>)
    returns (c: Conditions, clause: string)
    ensures c == Pushed(PeriodFilters("s", employeeId, startDate, endDate))
    ensures clause == Clause("WHERE", c.conds)
  {
    c := PeriodConditions("s", employeeId, startDate, endDate);
    clause := Clause("WHERE", c.conds);
  }
}
