/**
 * Bonus days (`bonus_day_manage_view`): adding or replacing the bonus of a
 * date and deleting one, refused while the selected month has a CLOSED
 * payroll.
 */
module Bonuses {
  import opened Calendar
  import opened Records

  /** The organization has a CLOSED payroll for the month. */
  predicate MonthClosed(payrolls: map<PayrollKey, Payroll>, org: OrgId, year: int, month: int) {
    exists k :: k in payrolls && k.year == year && k.month == month
      && payrolls[k].org == org && payrolls[k].status == Closed
  }

  /**
   * The request. `ViewOnly` is a GET, which only lists the month; the others
   * are POSTs: an add, a delete, or any other `action` value, which changes
   * nothing. `date` is None when missing or not in YYYY-MM-DD form; a missing
   * amount reads as 0. `target` is the row the posted id names.
   */
  datatype BonusAction =
    | AddBonus(date: Option<Date>, amount: QueryInt, description: string)
    | DeleteBonus(target: BonusKey)
    | UnknownAction
    | ViewOnly

  datatype BonusOutcome =
    | MonthLocked       // the selected month is closed
    | InvalidForm       // the amount or the date does not parse
    | OutsideMonth      // the date lies outside the selected month
    | StorageError      // the database refuses a negative amount
    | Saved
    | Removed
    | Unchanged

  /** The add path, shared by both versions of the view. */
  function AddDay(days: map<BonusKey, BonusDay>, org: OrgId, year: int, month: int,
                  date: Option<Date>, amount: QueryInt, description: string): (r: (map<BonusKey, BonusDay>, BonusOutcome))
    ensures r.1 != Saved ==> r.0 == days
    ensures r.1 == InvalidForm <==> amount.Malformed? || date.None? || !ValidDate(date.value)
    ensures r.1 == Saved ==>
      var a := if amount.Given? then amount.n else 0;
      && InMonth(date.value, year, month) && a >= 0
      && r.0 == days[BonusKey(org, date.value) := BonusDay(a, description)]
    ensures r.1 == OutsideMonth <==>
      !amount.Malformed? && date.Some? && ValidDate(date.value) && !InMonth(date.value, year, month)
    ensures r.1 == StorageError <==>
      && !amount.Malformed? && date.Some? && ValidDate(date.value) && InMonth(date.value, year, month)
      && amount.Given? && amount.n < 0
    ensures r.1 == Saved <==>
      && !amount.Malformed? && date.Some? && ValidDate(date.value) && InMonth(date.value, year, month)
      && (if amount.Given? then amount.n else 0) >= 0
  {
    if amount.Malformed? || date.None? || !ValidDate(date.value) then (days, InvalidForm)
    else if !InMonth(date.value, year, month) then (days, OutsideMonth)
    else
      var a := if amount.Given? then amount.n else 0;
      if a < 0 then (days, StorageError)
      else (days[BonusKey(org, date.value) := BonusDay(a, description)], Saved)
  }

  /**
   * The view as written: a closed selected month refuses every post, but a
   * delete removes the named row of the organization whatever its month.
   */
  function AsWrittenManage(days: map<BonusKey, BonusDay>, payrolls: map<PayrollKey, Payroll>,
                           org: OrgId, year: int, month: int, action: BonusAction): (r: (map<BonusKey, BonusDay>, BonusOutcome))
    ensures MonthClosed(payrolls, org, year, month) && !action.ViewOnly? ==> r == (days, MonthLocked)
    ensures action.DeleteBonus? && !MonthClosed(payrolls, org, year, month) && action.target.org == org ==>
      r == (days - {action.target}, Removed)
  {
    if action.ViewOnly? then (days, Unchanged)
    else if MonthClosed(payrolls, org, year, month) then (days, MonthLocked)
    else match action
      case AddBonus(date, amount, description) => AddDay(days, org, year, month, date, amount, description)
      case DeleteBonus(target) =>
        if target.org == org then (days - {target}, Removed) else (days, Removed)
      case UnknownAction => (days, Unchanged)
  }

  /**
   * A bonus day in a closed month is deleted through a request that selects an
   * open month: the lock of business/views/payroll.py:216-223 only looks at the
   * selected month.
   */
  lemma AsWrittenDeleteBypassesLock()
    ensures
      var feb := BonusKey(7, Date(2026, 2, 10));
      var days := map[feb := BonusDay(50, "")];
      var payrolls := map[PayrollKey(1, 2026, 2) := Payroll(7, Closed, 80, 20, 0, 16000, 0, 16000)];
      && MonthClosed(payrolls, 7, 2026, 2)
      && AsWrittenManage(days, payrolls, 7, 2026, 3, DeleteBonus(feb)) == (map[], Removed)
  {
    var feb := BonusKey(7, Date(2026, 2, 10));
    var payrolls := map[PayrollKey(1, 2026, 2) := Payroll(7, Closed, 80, 20, 0, 16000, 0, 16000)];
    assert PayrollKey(1, 2026, 2) in payrolls;
    assert !MonthClosed(payrolls, 7, 2026, 3);
    assert map[feb := BonusDay(50, "")] - {feb} == map[];
  }

  /**
   * The view with the delete held to the selected month, as the add already
   * is: a closed month's bonus days can then be neither added, replaced nor
   * removed.
   */
  function Manage(days: map<BonusKey, BonusDay>, payrolls: map<PayrollKey, Payroll>,
                  org: OrgId, year: int, month: int, action: BonusAction): (r: (map<BonusKey, BonusDay>, BonusOutcome))
    ensures MonthClosed(payrolls, org, year, month) && !action.ViewOnly? ==> r == (days, MonthLocked)
    ensures action.ViewOnly? || action.UnknownAction? ==> r.0 == days
    ensures action.AddBonus? && !MonthClosed(payrolls, org, year, month) ==>
      r == AddDay(days, org, year, month, action.date, action.amount, action.description)
    ensures action.DeleteBonus? && !MonthClosed(payrolls, org, year, month) && InMonth(action.target.date, year, month) ==>
      r == (if action.target.org == org then days - {action.target} else days, Removed)
    ensures action.DeleteBonus? && !MonthClosed(payrolls, org, year, month) && !InMonth(action.target.date, year, month) ==>
      r == (days, OutsideMonth)
    ensures r.1 != Saved && r.1 != Removed ==> r.0 == days
    ensures r.1 == Removed ==>
      && action.DeleteBonus?
      && InMonth(action.target.date, year, month)
      && r.0 == (if action.target.org == org then days - {action.target} else days)
    ensures r.1 == Saved ==>
      && action.AddBonus? && action.date.Some?
      && InMonth(action.date.value, year, month)
      && r.0 == days[BonusKey(org, action.date.value) :=
                     BonusDay(if action.amount.Given? then action.amount.n else 0, action.description)]
  {
    if action.ViewOnly? then (days, Unchanged)
    else if MonthClosed(payrolls, org, year, month) then (days, MonthLocked)
    else match action
      case AddBonus(date, amount, description) => AddDay(days, org, year, month, date, amount, description)
      case DeleteBonus(target) =>
        if !InMonth(target.date, year, month) then (days, OutsideMonth)
        else if target.org == org then (days - {target}, Removed)
        else (days, Removed)
      case UnknownAction => (days, Unchanged)
  }

  /** Bonus days of a month with a CLOSED payroll never change, whatever month the request selects. */
  lemma ClosedMonthFrozen(days: map<BonusKey, BonusDay>, payrolls: map<PayrollKey, Payroll>,
                          org: OrgId, year: int, month: int, action: BonusAction, k: BonusKey)
    requires k.org == org && MonthClosed(payrolls, org, k.date.year, k.date.month)
    ensures var r := Manage(days, payrolls, org, year, month, action).0;
      (k in r <==> k in days) && (k in days ==> r[k] == days[k])
  {
    var r := Manage(days, payrolls, org, year, month, action);
    if r.1 == Removed || r.1 == Saved {
      assert !MonthClosed(payrolls, org, year, month);
      assert !InMonth(k.date, year, month);
    }
  }

  /** Other organizations' bonus days are never touched. */
  lemma OtherOrganizationsUntouched(days: map<BonusKey, BonusDay>, payrolls: map<PayrollKey, Payroll>,
                                    org: OrgId, year: int, month: int, action: BonusAction, k: BonusKey)
    requires k.org != org
    ensures var r := Manage(days, payrolls, org, year, month, action).0;
      (k in r <==> k in days) && (k in days ==> r[k] == days[k])
  {
  }

  /** Stored amounts stay non-negative, as the column's constraint demands. */
  lemma AmountsStayNonNegative(days: map<BonusKey, BonusDay>, payrolls: map<PayrollKey, Payroll>,
                               org: OrgId, year: int, month: int, action: BonusAction)
    requires forall k :: k in days ==> days[k].amount >= 0
    ensures var r := Manage(days, payrolls, org, year, month, action).0;
      forall k :: k in r ==> r[k].amount >= 0
  {
  }

  /** The BonusDay table, changed in place by the manage view. */
  class BonusBook {
    var days: map<BonusKey, BonusDay>

    constructor (initial: map<BonusKey, BonusDay>)
      ensures days == initial
    {
      days := initial;
    }

    /** One POST to the manage view for the selected month. */
    method Post(payrolls: map<PayrollKey, Payroll>, org: OrgId, year: int, month: int, action: BonusAction)
      returns (outcome: BonusOutcome)
      modifies this
      ensures (days, outcome) == Manage(old(days), payrolls, org, year, month, action)
    {
      if action.ViewOnly? {
        return Unchanged;
      }
      if MonthClosed(payrolls, org, year, month) {
        return MonthLocked;
      }
      match action {
        case AddBonus(date, amount, description) =>
          var r := AddDay(days, org, year, month, date, amount, description);
          days := r.0;
          outcome := r.1;
        case DeleteBonus(target) =>
          if !InMonth(target.date, year, month) {
            return OutsideMonth;
          }
          if target.org == org {
            days := days - {target};
          }
          outcome := Removed;
        case UnknownAction =>
          outcome := Unchanged;
      }
    }
  }
}
