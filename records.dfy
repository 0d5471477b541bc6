/**
 * The rows of the business tables that several components read: workers,
 * work-log rows, payroll rows, wallet transactions and vacations, plus the
 * identity of the acting user. Every table is tenant-scoped by an `OrgId`.
 *
 * Units: hours are counted in tenths (the database keeps one decimal place),
 * money in grosze (hundredths of a PLN). Hourly rates and bonus-day amounts
 * are whole PLN, as their integer columns are.
 */
module Records {
  import opened Calendar
  import opened Lists

  datatype Option<T> = None | Some(value: T)

  type OrgId = nat
  type UserId = nat
  type WorkerId = nat
  type ProjectId = nat
  type WalletId = nat

  /** Tenths of an hour. */
  type Tenths = int
  /** Hundredths of a PLN. */
  type Grosze = int

  /** The logged-in account: owners see and edit everything in their organization. */
  datatype Actor = Actor(id: UserId, org: OrgId, isOwner: bool, profile: Option<WorkerId>)

  /** A worker as the views read it; `user` is the optional linked login account. */
  datatype Worker = Worker(
    id: WorkerId, org: OrgId, user: Option<UserId>, isActive: bool,
    hourlyRate: nat, lastName: string, firstName: string)

  /** Primary keys are unique: no two rows of a worker listing share an id. */
  predicate DistinctIds(ws: seq<Worker>) {
    forall i, j :: 0 <= i < j < |ws| ==> ws[i].id != ws[j].id
  }

  /** Filtering a listing keeps its ids distinct. */
  lemma {:induction false} FilterKeepsDistinct(ws: seq<Worker>, p: Worker -> bool)
    requires DistinctIds(ws)
    ensures DistinctIds(Filter(ws, p))
  {
    if ws != [] {
      FilterKeepsDistinct(ws[1..], p);
      assert forall w :: w in Filter(ws[1..], p) ==> w in ws[1..];
      assert forall w :: w in ws[1..] ==> w.id != ws[0].id;
    }
  }

  /** One row of the WorkLog table, as the aggregating queries see it. */
  datatype LogRow = LogRow(
    org: OrgId, worker: WorkerId, project: Option<ProjectId>, date: Date, hours: Tenths)

  datatype PayrollStatus = Draft | Closed

  /** The natural key of a payroll row: one per worker and month. */
  datatype PayrollKey = PayrollKey(worker: WorkerId, year: int, month: int)

  datatype Payroll = Payroll(
    org: OrgId, status: PayrollStatus,
    totalHours: Tenths, rateSnapshot: nat, bonuses: Grosze,
    grossPay: Grosze, advancesDeducted: Grosze, netPay: Grosze)

  /** A CLOSED payroll for the worker and month exists: their timesheet is locked. */
  predicate IsLocked(payrolls: map<PayrollKey, Payroll>, worker: WorkerId, year: int, month: int) {
    var k := PayrollKey(worker, year, month);
    k in payrolls && payrolls[k].status == Closed
  }

  /** The natural key of a bonus day: one per organization and date. */
  datatype BonusKey = BonusKey(org: OrgId, date: Date)

  /** A bonus day: every worker who logged hours that day earns `amount` PLN. */
  datatype BonusDay = BonusDay(amount: int, description: string)

  datatype TxnType = Refill | Expense | Advance

  /** A wallet transaction; company transactions have no wallet. */
  datatype Txn = Txn(
    id: nat, org: OrgId, wallet: Option<WalletId>, kind: TxnType, amount: Grosze,
    date: Date, project: Option<ProjectId>, worker: Option<WorkerId>, hasReceipt: bool)

  /** A planned absence; `id` is None until the vacation is saved. */
  datatype Vacation = Vacation(id: Option<nat>, worker: WorkerId, start: Date, end: Date)

  /** The worker has a vacation covering the date (both bounds inclusive). */
  predicate OnVacation(vacations: seq<Vacation>, worker: WorkerId, date: Date) {
    exists i :: 0 <= i < |vacations| && vacations[i].worker == worker
      && AtOrBefore(vacations[i].start, date) && AtOrBefore(date, vacations[i].end)
  }
}
