/**
 * The payroll engine: generating the month's DRAFT payrolls from the
 * timesheet, the bonus days and the advances (`payroll_generate_month_view`),
 * closing and reopening a month, the month's summary (`get_payroll_stats`)
 * and the guard of the exports.
 *
 * Money is in grosze: hours (tenths) times a whole-PLN rate gives
 * `tenths * rate * 10` grosze, a bonus of `a` PLN gives `100 * a` grosze.
 */
module Payrolls {
  import opened Calendar
  import opened Records
  import opened Lists

  /** The tables the generation reads. */
  datatype Tables = Tables(
    workers: seq<Worker>, logs: seq<LogRow>, txns: seq<Txn>, bonusDays: map<BonusKey, BonusDay>)

  /** Hours the worker logged in the month (the query filters by worker, not by organization). */
  function MonthHours(logs: seq<LogRow>, w: WorkerId, year: int, month: int): Tenths {
    if logs == [] then 0
    else
      var r := logs[|logs| - 1];
      MonthHours(logs[..|logs| - 1], w, year, month)
        + (if r.worker == w && InMonth(r.date, year, month) then r.hours else 0)
  }

  /** The organization's ADVANCE transactions of the worker in the month. */
  function MonthAdvances(txns: seq<Txn>, org: OrgId, w: WorkerId, year: int, month: int): Grosze {
    if txns == [] then 0
    else
      var t := txns[|txns| - 1];
      MonthAdvances(txns[..|txns| - 1], org, w, year, month)
        + (if t.worker == Some(w) && t.org == org && t.kind == Advance && InMonth(t.date, year, month)
           then t.amount else 0)
  }

  /** The workers of the organization, active or not, with hours or advances in the month. */
  function Selected(tables: Tables, org: OrgId, year: int, month: int): (r: seq<Worker>)
    ensures forall w :: w in r <==> (w in tables.workers && w.org == org
      && (MonthHours(tables.logs, w.id, year, month) > 0
          || MonthAdvances(tables.txns, org, w.id, year, month) > 0))
    ensures DistinctIds(tables.workers) ==> DistinctIds(r)
  {
    var p := (w: Worker) => w.org == org
      && (MonthHours(tables.logs, w.id, year, month) > 0
          || MonthAdvances(tables.txns, org, w.id, year, month) > 0);
    if DistinctIds(tables.workers) then FilterKeepsDistinct(tables.workers, p); Filter(tables.workers, p)
    else Filter(tables.workers, p)
  }

  function Ids(ws: seq<Worker>): set<WorkerId> {
    set w | w in ws :: w.id
  }

  /** `bonus_map`: the amount of each of the organization's bonus days in the month. */
  function BonusMap(bonusDays: map<BonusKey, BonusDay>, org: OrgId, year: int, month: int): (r: map<Date, int>)
    ensures forall d :: d in r <==> BonusKey(org, d) in bonusDays && InMonth(d, year, month)
    ensures forall d :: d in r ==> r[d] == bonusDays[BonusKey(org, d)].amount
  {
    map k | k in bonusDays && k.org == org && InMonth(k.date, year, month) :: k.date := bonusDays[k].amount
  }

  /** The organization's positive work-log rows of the selected workers that fall on a bonus day. */
  function BonusLogs(logs: seq<LogRow>, org: OrgId, ids: set<WorkerId>, bonusMap: map<Date, int>): (r: seq<LogRow>)
    ensures forall row :: row in r <==>
      row in logs && row.org == org && row.worker in ids && row.date in bonusMap && row.hours > 0
  {
    if logs == [] then []
    else
      var row := logs[0];
      (if row.org == org && row.worker in ids && row.date in bonusMap && row.hours > 0 then [row] else [])
        + BonusLogs(logs[1..], org, ids, bonusMap)
  }

  lemma {:induction false} NoBonusLogs(logs: seq<LogRow>, org: OrgId, ids: set<WorkerId>, bonusMap: map<Date, int>)
    requires bonusMap == map[]
    ensures BonusLogs(logs, org, ids, bonusMap) == []
  {
    if logs != [] {
      NoBonusLogs(logs[1..], org, ids, bonusMap);
    }
  }

  function Get(acc: map<WorkerId, int>, w: WorkerId): int {
    if w in acc then acc[w] else 0
  }

  function BonusOf(bonusMap: map<Date, int>, d: Date): int {
    if d in bonusMap then bonusMap[d] else 0
  }

  /** The bonus (PLN) the rows earn the worker: one full bonus per row on a bonus day. */
  function BonusTotal(rows: seq<LogRow>, bonusMap: map<Date, int>, w: WorkerId): int {
    if rows == [] then 0
    else
      var r := rows[|rows| - 1];
      BonusTotal(rows[..|rows| - 1], bonusMap, w) + (if r.worker == w then BonusOf(bonusMap, r.date) else 0)
  }

  /** The loop that builds `worker_bonuses`: each worker's total over the bonus-day rows. */
  method AccumulateBonuses(bonusLogs: seq<LogRow>, bonusMap: map<Date, int>) returns (acc: map<WorkerId, int>)
    ensures forall w :: w in acc <==> exists i :: 0 <= i < |bonusLogs| && bonusLogs[i].worker == w
    ensures forall w :: Get(acc, w) == BonusTotal(bonusLogs, bonusMap, w)
  {
    acc := map[];
    for i := 0 to |bonusLogs|
      invariant forall w :: w in acc <==> exists j :: 0 <= j < i && bonusLogs[j].worker == w
      invariant forall w :: Get(acc, w) == BonusTotal(bonusLogs[..i], bonusMap, w)
    {
      var wid := bonusLogs[i].worker;
      var d := bonusLogs[i].date;
      assert bonusLogs[..i + 1][..i] == bonusLogs[..i];
      acc := acc[wid := Get(acc, wid) + BonusOf(bonusMap, d)];
    }
    assert bonusLogs[..|bonusLogs|] == bonusLogs;
  }

  /** With non-negative bonus amounts a worker's bonus is never negative, and is 0 without a bonus-day row. */
  lemma {:induction false} BonusTotalBounds(rows: seq<LogRow>, bonusMap: map<Date, int>, w: WorkerId)
    requires forall d :: d in bonusMap ==> bonusMap[d] >= 0
    ensures BonusTotal(rows, bonusMap, w) >= 0
    ensures (forall i :: 0 <= i < |rows| ==> rows[i].worker != w) ==> BonusTotal(rows, bonusMap, w) == 0
  {
    if rows != [] {
      BonusTotalBounds(rows[..|rows| - 1], bonusMap, w);
    }
  }

  /** The row the generation writes: a DRAFT whose pay follows from hours, rate, bonus and advances. */
  function Computed(org: OrgId, w: Worker, hours: Tenths, advances: Grosze, bonusPln: int): (p: Payroll)
    ensures p.status == Draft && p.org == org && p.rateSnapshot == w.hourlyRate
    ensures p.grossPay == p.totalHours * p.rateSnapshot * 10 + p.bonuses
    ensures p.netPay == p.grossPay - p.advancesDeducted
    ensures p.totalHours == hours && p.advancesDeducted == advances && p.bonuses == 100 * bonusPln
  {
    var gross := hours * w.hourlyRate * 10 + 100 * bonusPln;
    Payroll(org, Draft, hours, w.hourlyRate, 100 * bonusPln, gross, advances, gross - advances)
  }

  /** A payroll row whose amounts agree with each other. */
  predicate Consistent(p: Payroll) {
    p.grossPay == p.totalHours * p.rateSnapshot * 10 + p.bonuses
    && p.netPay == p.grossPay - p.advancesDeducted
  }

  /** The intended payroll of a selected worker for the month. */
  function PayrollFor(w: Worker, org: OrgId, year: int, month: int, tables: Tables, ids: set<WorkerId>): (p: Payroll)
    ensures p.status == Draft && Consistent(p)
    ensures p.totalHours == MonthHours(tables.logs, w.id, year, month)
    ensures p.advancesDeducted == MonthAdvances(tables.txns, org, w.id, year, month)
  {
    var bonusMap := BonusMap(tables.bonusDays, org, year, month);
    Computed(org, w, MonthHours(tables.logs, w.id, year, month),
             MonthAdvances(tables.txns, org, w.id, year, month),
             BonusTotal(BonusLogs(tables.logs, org, ids, bonusMap), bonusMap, w.id))
  }

  /** The organization's row for the worker and month, read before the loop. */
  predicate HasRow(rows: map<PayrollKey, Payroll>, org: OrgId, k: PayrollKey) {
    k in rows && rows[k].org == org
  }

  /** The running state of the generation loop. */
  datatype Run = Run(rows: map<PayrollKey, Payroll>, generated: nat, skipped: nat)

  /** One worker: a CLOSED row is skipped, anything else is (re)computed as a DRAFT. */
  function GenerateStep(run: Run, w: Worker, snapshot: map<PayrollKey, Payroll>, org: OrgId,
                        year: int, month: int, tables: Tables, ids: set<WorkerId>): Run {
    var k := PayrollKey(w.id, year, month);
    if HasRow(snapshot, org, k) && snapshot[k].status == Closed then run.(skipped := run.skipped + 1)
    else Run(run.rows[k := PayrollFor(w, org, year, month, tables, ids)], run.generated + 1, run.skipped)
  }

  function GenerateFold(run: Run, ws: seq<Worker>, snapshot: map<PayrollKey, Payroll>, org: OrgId,
                        year: int, month: int, tables: Tables, ids: set<WorkerId>): Run {
    if ws == [] then run
    else GenerateStep(GenerateFold(run, ws[..|ws| - 1], snapshot, org, year, month, tables, ids),
                      ws[|ws| - 1], snapshot, org, year, month, tables, ids)
  }

  /** The generation, as a function of the payroll table before it. */
  function Generated(rows: map<PayrollKey, Payroll>, org: OrgId, year: int, month: int, tables: Tables): Run {
    var selected := Selected(tables, org, year, month);
    GenerateFold(Run(rows, 0, 0), selected, rows, org, year, month, tables, Ids(selected))
  }

  /** Keys other than the given workers' rows for the month are untouched. */
  lemma {:induction false} GenerateFrame(run: Run, ws: seq<Worker>, snapshot: map<PayrollKey, Payroll>, org: OrgId,
                                         year: int, month: int, tables: Tables, ids: set<WorkerId>, k: PayrollKey)
    requires k.year != year || k.month != month || forall w :: w in ws ==> w.id != k.worker
    ensures var r := GenerateFold(run, ws, snapshot, org, year, month, tables, ids);
      (k in r.rows <==> k in run.rows) && (k in run.rows ==> r.rows[k] == run.rows[k])
  {
    if ws != [] {
      assert forall w :: w in ws[..|ws| - 1] ==> w in ws;
      GenerateFrame(run, ws[..|ws| - 1], snapshot, org, year, month, tables, ids, k);
    }
  }

  /** Every turn counts its worker once, as generated or as skipped. */
  lemma {:induction false} GenerateCounts(run: Run, ws: seq<Worker>, snapshot: map<PayrollKey, Payroll>, org: OrgId,
                                          year: int, month: int, tables: Tables, ids: set<WorkerId>)
    ensures var r := GenerateFold(run, ws, snapshot, org, year, month, tables, ids);
      r.generated + r.skipped == run.generated + run.skipped + |ws|
  {
    if ws != [] {
      GenerateCounts(run, ws[..|ws| - 1], snapshot, org, year, month, tables, ids);
    }
  }

  /** The last occurrence of a worker decides its row: an open one is recomputed, a closed one kept. */
  lemma {:induction false} GenerateFoldAt(run: Run, ws: seq<Worker>, snapshot: map<PayrollKey, Payroll>, org: OrgId,
                                          year: int, month: int, tables: Tables, ids: set<WorkerId>, i: int)
    requires DistinctIds(ws) && 0 <= i < |ws| && run.rows == snapshot
    ensures var r := GenerateFold(run, ws, snapshot, org, year, month, tables, ids);
      var k := PayrollKey(ws[i].id, year, month);
      && (HasRow(snapshot, org, k) && snapshot[k].status == Closed ==> k in r.rows && r.rows[k] == snapshot[k])
      && (!(HasRow(snapshot, org, k) && snapshot[k].status == Closed) ==>
            k in r.rows && r.rows[k] == PayrollFor(ws[i], org, year, month, tables, ids))
    decreases |ws|
  {
    var k := PayrollKey(ws[i].id, year, month);
    var prefix := ws[..|ws| - 1];
    if i == |ws| - 1 {
      assert forall w :: w in prefix ==> w.id != k.worker by {
        forall w | w in prefix ensures w.id != k.worker {
          var j :| 0 <= j < |prefix| && prefix[j] == w;
          assert ws[j] == w;
        }
      }
      GenerateFrame(run, prefix, snapshot, org, year, month, tables, ids, k);
    } else {
      assert DistinctIds(prefix) by {
        forall a, b | 0 <= a < b < |prefix| ensures prefix[a].id != prefix[b].id {
          assert prefix[a] == ws[a] && prefix[b] == ws[b];
        }
      }
      assert prefix[i] == ws[i];
      GenerateFoldAt(run, prefix, snapshot, org, year, month, tables, ids, i);
      assert ws[|ws| - 1].id != k.worker;
    }
  }

  /**
   * After generation, the row of every selected worker whose month was not
   * closed is its freshly computed DRAFT, a closed row is unchanged, and every
   * other row is untouched.
   */
  lemma GeneratedAt(rows: map<PayrollKey, Payroll>, org: OrgId, year: int, month: int, tables: Tables, k: PayrollKey)
    requires DistinctIds(tables.workers)
    ensures var selected := Selected(tables, org, year, month);
      var r := Generated(rows, org, year, month, tables).rows;
      && (forall w :: w in selected && k == PayrollKey(w.id, year, month) ==>
            if HasRow(rows, org, k) && rows[k].status == Closed then k in r && r[k] == rows[k]
            else k in r && r[k] == PayrollFor(w, org, year, month, tables, Ids(selected)))
      && ((forall w :: w in selected ==> k != PayrollKey(w.id, year, month)) ==>
            (k in r <==> k in rows) && (k in rows ==> r[k] == rows[k]))
  {
    var selected := Selected(tables, org, year, month);
    var ids := Ids(selected);
    FilterKeepsDistinct(tables.workers, (w: Worker) => w.org == org
      && (MonthHours(tables.logs, w.id, year, month) > 0
          || MonthAdvances(tables.txns, org, w.id, year, month) > 0));
    forall w | w in selected && k == PayrollKey(w.id, year, month)
      ensures var r := Generated(rows, org, year, month, tables).rows;
        if HasRow(rows, org, k) && rows[k].status == Closed then k in r && r[k] == rows[k]
        else k in r && r[k] == PayrollFor(w, org, year, month, tables, ids)
    {
      var i :| 0 <= i < |selected| && selected[i] == w;
      GenerateFoldAt(Run(rows, 0, 0), selected, rows, org, year, month, tables, ids, i);
    }
    if forall w :: w in selected ==> k != PayrollKey(w.id, year, month) {
      GenerateFrame(Run(rows, 0, 0), selected, rows, org, year, month, tables, ids, k);
    }
  }

  /** Generating twice in a row gives the same payroll table as generating once. */
  lemma GenerateIdempotent(rows: map<PayrollKey, Payroll>, org: OrgId, year: int, month: int, tables: Tables)
    requires DistinctIds(tables.workers)
    ensures var once := Generated(rows, org, year, month, tables).rows;
      Generated(once, org, year, month, tables).rows == once
  {
    var once := Generated(rows, org, year, month, tables).rows;
    var twice := Generated(once, org, year, month, tables).rows;
    var selected := Selected(tables, org, year, month);
    forall k | k in once || k in twice
      ensures k in once && k in twice && twice[k] == once[k]
    {
      GeneratedAt(rows, org, year, month, tables, k);
      GeneratedAt(once, org, year, month, tables, k);
      if w :| w in selected && k == PayrollKey(w.id, year, month) {
      }
    }
    assert twice.Keys == once.Keys;
  }

  /** Every row generation writes is consistent: gross = hours x rate + bonuses and net = gross - advances. */
  lemma GeneratedRowsConsistent(rows: map<PayrollKey, Payroll>, org: OrgId, year: int, month: int, tables: Tables)
    requires DistinctIds(tables.workers)
    requires forall k :: k in rows ==> Consistent(rows[k])
    ensures var r := Generated(rows, org, year, month, tables).rows;
      forall k :: k in r ==> Consistent(r[k])
  {
    var r := Generated(rows, org, year, month, tables).rows;
    var selected := Selected(tables, org, year, month);
    forall k | k in r ensures Consistent(r[k]) {
      GeneratedAt(rows, org, year, month, tables, k);
      if w :| w in selected && k == PayrollKey(w.id, year, month) {
      }
    }
  }

  /**
   * `worker_bonuses`: the bonus-day rows are only read when the month has a
   * bonus day; either way each worker's entry is its bonus total.
   */
  method WorkerBonuses(tables: Tables, org: OrgId, year: int, month: int, ids: set<WorkerId>)
    returns (acc: map<WorkerId, int>)
    ensures forall w :: Get(acc, w) == BonusTotal(
      BonusLogs(tables.logs, org, ids, BonusMap(tables.bonusDays, org, year, month)),
      BonusMap(tables.bonusDays, org, year, month), w)
  {
    var bonusMap := BonusMap(tables.bonusDays, org, year, month);
    var bonusLogs := BonusLogs(tables.logs, org, ids, bonusMap);
    acc := map[];
    if |bonusMap| > 0 {
      acc := AccumulateBonuses(bonusLogs, bonusMap);
    } else {
      NoBonusLogs(tables.logs, org, ids, bonusMap);
    }
  }

  // ---------------------------------------------------------------------------
  // The generation query as written

  /** All work-log rows of the worker, whatever their date. */
  function LogCount(logs: seq<LogRow>, w: WorkerId): nat {
    if logs == [] then 0
    else LogCount(logs[..|logs| - 1], w) + (if logs[|logs| - 1].worker == w then 1 else 0)
  }

  /** All transactions that name the worker, whatever their type and date. */
  function TxnCount(txns: seq<Txn>, w: WorkerId): nat {
    if txns == [] then 0
    else TxnCount(txns[..|txns| - 1], w) + (if txns[|txns| - 1].worker == Some(w) then 1 else 0)
  }

  /** Rows a LEFT JOIN contributes per worker: at least one. */
  function JoinFactor(n: nat): nat {
    if n == 0 then 1 else n
  }

  /**
   * The row the query at business/views/payroll.py:369-396 produces: both sums
   * are taken over the product of the worker's work-log rows and the
   * transactions naming the worker, so each hour is counted once per such
   * transaction and each advance once per work-log row.
   */
  function AsWrittenPayroll(w: Worker, org: OrgId, year: int, month: int, tables: Tables, ids: set<WorkerId>): Payroll {
    var bonusMap := BonusMap(tables.bonusDays, org, year, month);
    Computed(org, w,
             MonthHours(tables.logs, w.id, year, month) * JoinFactor(TxnCount(tables.txns, w.id)),
             MonthAdvances(tables.txns, org, w.id, year, month) * JoinFactor(LogCount(tables.logs, w.id)),
             BonusTotal(BonusLogs(tables.logs, org, ids, bonusMap), bonusMap, w.id))
  }

  /** The written query is right only while the worker has at most one row on each side of the join. */
  lemma AsWrittenAgreesWithoutFanOut(w: Worker, org: OrgId, year: int, month: int, tables: Tables, ids: set<WorkerId>)
    requires LogCount(tables.logs, w.id) <= 1 && TxnCount(tables.txns, w.id) <= 1
    ensures AsWrittenPayroll(w, org, year, month, tables, ids) == PayrollFor(w, org, year, month, tables, ids)
  {
  }

  /**
   * Two 8-hour days at 20 PLN/h, one of them a 50 PLN bonus day, and one
   * advance of 30 PLN: the intended net pay is 340 PLN; the written query
   * deducts the advance twice and pays 310 PLN.
   */
  lemma AsWrittenDoubleCountsAdvances()
    ensures
      var w := Worker(1, 7, None, true, 20, "Kowalski", "Jan");
      var logs := [LogRow(7, 1, None, Date(2026, 2, 2), 80), LogRow(7, 1, None, Date(2026, 2, 3), 80)];
      var txns := [Txn(1, 7, Some(5), Advance, 3000, Date(2026, 2, 5), None, Some(1), false)];
      var tables := Tables([w], logs, txns, map[BonusKey(7, Date(2026, 2, 2)) := BonusDay(50, "")]);
      && PayrollFor(w, 7, 2026, 2, tables, {1}).netPay == 34000
      && AsWrittenPayroll(w, 7, 2026, 2, tables, {1}).netPay == 31000
      && AsWrittenPayroll(w, 7, 2026, 2, tables, {1}).advancesDeducted == 6000
  {
    var w := Worker(1, 7, None, true, 20, "Kowalski", "Jan");
    var l1, l2 := LogRow(7, 1, None, Date(2026, 2, 2), 80), LogRow(7, 1, None, Date(2026, 2, 3), 80);
    var logs := [l1, l2];
    var txns := [Txn(1, 7, Some(5), Advance, 3000, Date(2026, 2, 5), None, Some(1), false)];
    var tables := Tables([w], logs, txns, map[BonusKey(7, Date(2026, 2, 2)) := BonusDay(50, "")]);
    var bonusMap := BonusMap(tables.bonusDays, 7, 2026, 2);
    assert Date(2026, 2, 2) in bonusMap && bonusMap[Date(2026, 2, 2)] == 50;
    assert Date(2026, 2, 3) !in bonusMap;
    assert logs[..1] == [l1] && [l1][..0] == [];
    var bl := BonusLogs(logs, 7, {1}, bonusMap);
    assert bl == [l1] by {
      assert logs[1..] == [l2] && [l2][1..] == [];
      assert BonusLogs([l2], 7, {1}, bonusMap) == [];
    }
    assert BonusTotal(bl, bonusMap, 1) == 50;
    assert MonthHours([l1], 1, 2026, 2) == 80;
    assert MonthHours(logs, 1, 2026, 2) == 160;
    assert LogCount([l1], 1) == 1;
    assert LogCount(logs, 1) == 2;
    assert txns[..0] == [];
    assert MonthAdvances(txns, 7, 1, 2026, 2) == 3000;
    assert TxnCount(txns, 1) == 1;
  }

  // ---------------------------------------------------------------------------
  // Closing and reopening a month

  /** The rows a month-wide status update touches. */
  predicate InMonthOf(rows: map<PayrollKey, Payroll>, k: PayrollKey, org: OrgId, year: int, month: int)
    requires k in rows
  {
    k.year == year && k.month == month && rows[k].org == org
  }

  /** Every DRAFT row of the organization's month becomes CLOSED; the count is how many changed. */
  function CloseMonth(rows: map<PayrollKey, Payroll>, org: OrgId, year: int, month: int): (r: (map<PayrollKey, Payroll>, nat))
    ensures r.0.Keys == rows.Keys
    ensures forall k :: k in rows ==>
      r.0[k] == (if InMonthOf(rows, k, org, year, month) && rows[k].status == Draft
                 then rows[k].(status := Closed) else rows[k])
    ensures r.1 == |set k | k in rows && InMonthOf(rows, k, org, year, month) && rows[k].status == Draft|
  {
    (map k | k in rows :: if InMonthOf(rows, k, org, year, month) && rows[k].status == Draft
                          then rows[k].(status := Closed) else rows[k],
     |set k | k in rows && InMonthOf(rows, k, org, year, month) && rows[k].status == Draft|)
  }

  /** Every CLOSED row of the organization's month becomes DRAFT; the count is how many changed. */
  function ReopenMonth(rows: map<PayrollKey, Payroll>, org: OrgId, year: int, month: int): (r: (map<PayrollKey, Payroll>, nat))
    ensures r.0.Keys == rows.Keys
    ensures forall k :: k in rows ==>
      r.0[k] == (if InMonthOf(rows, k, org, year, month) && rows[k].status == Closed
                 then rows[k].(status := Draft) else rows[k])
    ensures r.1 == |set k | k in rows && InMonthOf(rows, k, org, year, month) && rows[k].status == Closed|
  {
    (map k | k in rows :: if InMonthOf(rows, k, org, year, month) && rows[k].status == Closed
                          then rows[k].(status := Draft) else rows[k],
     |set k | k in rows && InMonthOf(rows, k, org, year, month) && rows[k].status == Closed|)
  }

  /** After closing, every worker with a row in the organization's month is locked. */
  lemma CloseLocks(rows: map<PayrollKey, Payroll>, org: OrgId, year: int, month: int, w: WorkerId)
    requires HasRow(rows, org, PayrollKey(w, year, month))
    ensures IsLocked(CloseMonth(rows, org, year, month).0, w, year, month)
  {
  }

  /** After reopening, no worker of the organization is locked for that month. */
  lemma ReopenUnlocks(rows: map<PayrollKey, Payroll>, org: OrgId, year: int, month: int, w: WorkerId)
    requires HasRow(rows, org, PayrollKey(w, year, month))
    ensures !IsLocked(ReopenMonth(rows, org, year, month).0, w, year, month)
  {
  }

  /** Closing a closed month changes nothing and reports zero rows. */
  lemma CloseIdempotent(rows: map<PayrollKey, Payroll>, org: OrgId, year: int, month: int)
    ensures var once := CloseMonth(rows, org, year, month).0;
      CloseMonth(once, org, year, month) == (once, 0)
  {
    var once := CloseMonth(rows, org, year, month).0;
    var again := CloseMonth(once, org, year, month);
    assert (set k | k in once && InMonthOf(once, k, org, year, month) && once[k].status == Draft) == {};
    assert again.0 == once;
  }

  /** Reopening after closing leaves the table as reopening alone would: close loses nothing. */
  lemma ReopenAfterClose(rows: map<PayrollKey, Payroll>, org: OrgId, year: int, month: int)
    ensures ReopenMonth(CloseMonth(rows, org, year, month).0, org, year, month).0
         == ReopenMonth(rows, org, year, month).0
  {
    var closed := CloseMonth(rows, org, year, month).0;
    assert ReopenMonth(closed, org, year, month).0 == ReopenMonth(rows, org, year, month).0;
  }

  // ---------------------------------------------------------------------------
  // The payroll table

  datatype GenerateOutcome = InvalidPeriod | Generation(generated: nat, skipped: nat)

  /** The Payroll table, changed in place by generation, close and reopen. */
  class PayrollBook {
    var rows: map<PayrollKey, Payroll>

    constructor (initial: map<PayrollKey, Payroll>)
      ensures rows == initial
    {
      rows := initial;
    }

    /** `payroll_generate_month_view`: recompute the month's open payrolls. */
    method Generate(org: OrgId, year: QueryInt, month: QueryInt, tables: Tables) returns (outcome: GenerateOutcome)
      modifies this
      ensures !(year.Given? && month.Given?) ==> outcome == InvalidPeriod && rows == old(rows)
      ensures year.Given? && month.Given? ==>
        var r := Generated(old(rows), org, year.n, month.n, tables);
        rows == r.rows && outcome == Generation(r.generated, r.skipped)
    {
      if !year.Given? || !month.Given? {
        return InvalidPeriod;
      }
      var y, m := year.n, month.n;
      var selected := Selected(tables, org, y, m);
      var ids := Ids(selected);
      var workerBonuses := WorkerBonuses(tables, org, y, m, ids);
      var existingPayrolls := rows;
      var generated, skipped := 0, 0;
      ghost var start := Run(rows, 0, 0);
      for i := 0 to |selected|
        invariant Run(rows, generated, skipped)
               == GenerateFold(start, selected[..i], existingPayrolls, org, y, m, tables, ids)
      {
        var worker := selected[i];
        assert selected[..i + 1][..i] == selected[..i];
        var k := PayrollKey(worker.id, y, m);
        if HasRow(existingPayrolls, org, k) && existingPayrolls[k].status == Closed {
          skipped := skipped + 1;
          continue;
        }
        var bonus := Get(workerBonuses, worker.id);
        var hours := MonthHours(tables.logs, worker.id, y, m);
        var advances := MonthAdvances(tables.txns, org, worker.id, y, m);
        var row := Computed(org, worker, hours, advances, bonus);
        rows := rows[k := row];
        generated := generated + 1;
      }
      assert selected[..|selected|] == selected;
      outcome := Generation(generated, skipped);
    }

    /** `payroll_close_month_view`: one status update over the month's drafts. */
    method Close(org: OrgId, year: QueryInt, month: QueryInt) returns (count: Option<nat>)
      modifies this
      ensures !(year.Given? && month.Given?) ==> count.None? && rows == old(rows)
      ensures year.Given? && month.Given? ==>
        count.Some? && (rows, count.value) == CloseMonth(old(rows), org, year.n, month.n)
    {
      if !year.Given? || !month.Given? {
        return None;
      }
      var r := CloseMonth(rows, org, year.n, month.n);
      rows := r.0;
      count := Some(r.1);
    }

    /** `payroll_reopen_month_view`: one status update over the month's closed rows. */
    method Reopen(org: OrgId, year: QueryInt, month: QueryInt) returns (count: Option<nat>)
      modifies this
      ensures !(year.Given? && month.Given?) ==> count.None? && rows == old(rows)
      ensures year.Given? && month.Given? ==>
        count.Some? && (rows, count.value) == ReopenMonth(old(rows), org, year.n, month.n)
    {
      if !year.Given? || !month.Given? {
        return None;
      }
      var r := ReopenMonth(rows, org, year.n, month.n);
      rows := r.0;
      count := Some(r.1);
    }
  }

  // ---------------------------------------------------------------------------
  // The month's summary and the export guard

  datatype MonthStatus = EmptyMonth | DraftMonth | ClosedMonth

  datatype PayrollStats = PayrollStats(
    totalEarned: Grosze, totalBonuses: Grosze, totalPayout: Grosze, totalAdvances: Grosze,
    status: MonthStatus)

  function SumGross(ps: seq<Payroll>): Grosze {
    if ps == [] then 0 else SumGross(ps[..|ps| - 1]) + ps[|ps| - 1].grossPay
  }

  function SumBonuses(ps: seq<Payroll>): Grosze {
    if ps == [] then 0 else SumBonuses(ps[..|ps| - 1]) + ps[|ps| - 1].bonuses
  }

  function SumNet(ps: seq<Payroll>): Grosze {
    if ps == [] then 0 else SumNet(ps[..|ps| - 1]) + ps[|ps| - 1].netPay
  }

  function SumAdvances(ps: seq<Payroll>): Grosze {
    if ps == [] then 0 else SumAdvances(ps[..|ps| - 1]) + ps[|ps| - 1].advancesDeducted
  }

  /** `get_payroll_stats`: the month's totals, and DRAFT while any row is open, CLOSED when all are closed. */
  function Stats(ps: seq<Payroll>): (r: PayrollStats)
    ensures r.status == DraftMonth <==> exists i :: 0 <= i < |ps| && ps[i].status == Draft
    ensures r.status == ClosedMonth <==> |ps| > 0 && forall i :: 0 <= i < |ps| ==> ps[i].status == Closed
    ensures r.status == EmptyMonth <==> ps == []
  {
    var hasDrafts := exists i :: 0 <= i < |ps| && ps[i].status == Draft;
    var hasClosed := exists i :: 0 <= i < |ps| && ps[i].status == Closed;
    var status := if hasClosed && !hasDrafts then ClosedMonth else if hasDrafts then DraftMonth else EmptyMonth;
    assert ps != [] ==> ps[0].status == Draft || ps[0].status == Closed;
    PayrollStats(SumGross(ps), SumBonuses(ps), SumNet(ps), SumAdvances(ps), status)
  }

  /** When every row is consistent, the payout is what was earned minus the advances. */
  lemma {:induction false} StatsBalance(ps: seq<Payroll>)
    requires forall i :: 0 <= i < |ps| ==> Consistent(ps[i])
    ensures Stats(ps).totalPayout == Stats(ps).totalEarned - Stats(ps).totalAdvances
  {
    if ps != [] {
      StatsBalance(ps[..|ps| - 1]);
    }
  }

  /**
   * The rows an export covers: the organization's CLOSED rows of the month;
   * None (HTTP 404) when there are none.
   */
  function ExportRows(rows: map<PayrollKey, Payroll>, org: OrgId, year: int, month: int): (r: Option<set<PayrollKey>>)
    ensures r.None? <==> forall k :: k in rows && InMonthOf(rows, k, org, year, month) ==> rows[k].status != Closed
    ensures r.Some? ==> forall k :: k in r.value <==>
      k in rows && InMonthOf(rows, k, org, year, month) && rows[k].status == Closed
  {
    var closed := set k | k in rows && InMonthOf(rows, k, org, year, month) && rows[k].status == Closed;
    if closed == {} then
      assert forall k :: k in rows && InMonthOf(rows, k, org, year, month) && rows[k].status == Closed ==> k in closed;
      None
    else Some(closed)
  }
}
