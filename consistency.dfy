/**
 * How the payroll month status governs the other components: closing a
 * month locks the timesheet cells and the bonus days of its workers, and
 * reopening it unlocks the timesheet again.
 */
module Consistency {
  import opened Calendar
  import opened Records
  import Timesheet
  import Payrolls
  import Bonuses

  /** After the month is closed, a write to a cell of a worker with a payroll row that month is refused and changes nothing. */
  lemma ClosedMonthRefusesCellWrites(s: Timesheet.Sheet, req: Timesheet.CellRequest, ctx: Timesheet.Context,
                                     rows: map<PayrollKey, Payroll>, org: OrgId)
    requires Timesheet.Admitted(req, ctx)
    requires Payrolls.HasRow(rows, org, PayrollKey(req.worker, req.year, req.month))
    ensures var r := Timesheet.AfterUpdate(s, req, ctx.(payrolls := Payrolls.CloseMonth(rows, org, req.year, req.month).0));
      r.1.Locked? && r.0 == s
  {
    Payrolls.CloseLocks(rows, org, req.year, req.month, req.worker);
  }

  /** After the month is reopened, the same write goes through. */
  lemma ReopenedMonthAcceptsCellWrites(s: Timesheet.Sheet, req: Timesheet.CellRequest, ctx: Timesheet.Context,
                                       rows: map<PayrollKey, Payroll>, org: OrgId)
    requires Timesheet.Admitted(req, ctx)
    requires Payrolls.HasRow(rows, org, PayrollKey(req.worker, req.year, req.month))
    ensures Timesheet.AfterUpdate(s, req, ctx.(payrolls := Payrolls.ReopenMonth(rows, org, req.year, req.month).0)).1.Written?
  {
    Payrolls.ReopenUnlocks(rows, org, req.year, req.month, req.worker);
  }

  /** Once any payroll row of the organization's month is closed, no bonus day can be added, replaced or removed for that month. */
  lemma ClosedMonthFreezesBonuses(rows: map<PayrollKey, Payroll>, org: OrgId, year: int, month: int, w: WorkerId,
                                  days: map<BonusKey, BonusDay>, action: Bonuses.BonusAction)
    requires Payrolls.HasRow(rows, org, PayrollKey(w, year, month))
    requires !action.ViewOnly?
    ensures Bonuses.Manage(days, Payrolls.CloseMonth(rows, org, year, month).0, org, year, month, action)
            == (days, Bonuses.MonthLocked)
  {
    var closed := Payrolls.CloseMonth(rows, org, year, month).0;
    var k := PayrollKey(w, year, month);
    assert k in closed && closed[k].org == org && closed[k].status == Closed;
  }
}
