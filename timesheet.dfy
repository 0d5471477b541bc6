/**
 * The timesheet cell store and its audit log: the single-cell write
 * (`timesheet_update_view`), the bulk fill of one day for many workers
 * (`timesheet_bulk_fill_view`), and which workers the grid shows and in what
 * order (`get_timesheet_context`).
 *
 * A cell is the WorkLog row of one worker on one date. Hours are in tenths:
 * the views write whole hours, the column keeps one decimal place.
 */
module Timesheet {
  import opened Calendar
  import opened Records
  import opened Lists

  datatype CellKey = CellKey(worker: WorkerId, date: Date)

  /** A WorkLog row; `createdBy` is the account that last wrote the value. */
  datatype WorkLog = WorkLog(
    org: OrgId, project: Option<ProjectId>, hours: Tenths, createdBy: Option<UserId>)

  /** A TimesheetHistory row: an existing cell changed from `oldHours` to `newHours`. */
  datatype HistoryEntry = HistoryEntry(
    org: OrgId, worker: WorkerId, date: Date, oldHours: Tenths, newHours: Tenths, changedBy: UserId)

  /** The WorkLog table keyed by (worker, date) and the append-only history. */
  datatype Sheet = Sheet(cells: map<CellKey, WorkLog>, history: seq<HistoryEntry>)

  /** Every stored cell holds more than zero and at most 24 hours. */
  predicate WithinDay(cells: map<CellKey, WorkLog>) {
    forall k :: k in cells ==> 0 < cells[k].hours <= 240
  }

  /**
   * The text a cell or a bulk-fill input carries, as `int(str(val).strip() or 0)`
   * sees it: blank (read as 0), an integer, or anything `int` rejects
   * (a missing value, a fraction, words).
   */
  datatype HoursInput = Blank | Whole(n: int) | Unparsable

  /** The hours to write, clamped into 0..24 and given in tenths; None means HTTP 400. */
  function ParseHours(input: HoursInput): (r: Option<Tenths>)
    ensures r.None? <==> input.Unparsable?
    ensures r.Some? ==> 0 <= r.value <= 240 && r.value % 10 == 0
    ensures input.Blank? ==> r == Some(0)
    ensures input.Whole? && 0 <= input.n <= 24 ==> r == Some(10 * input.n)
    ensures input.Whole? && input.n > 24 ==> r == Some(240)
    ensures input.Whole? && input.n < 0 ==> r == Some(0)
  {
    match input
    case Blank => Some(0)
    case Whole(n) => Some(10 * (if n > 24 then 24 else if n < 0 then 0 else n))
    case Unparsable => None
  }

  /** What a cell write reads besides the sheet: the actor, today and the other tables. */
  datatype Context = Context(
    actor: Actor, today: Date, roster: seq<Worker>,
    payrolls: map<PayrollKey, Payroll>, defaultProject: Option<ProjectId>,
    vacations: seq<Vacation>)

  /** `Worker.objects.get(id=..., organization=...)`, None when it does not exist. */
  function FindWorker(roster: seq<Worker>, id: WorkerId, org: OrgId): (r: Option<Worker>)
    ensures r.Some? ==> r.value in roster && r.value.id == id && r.value.org == org
    ensures r.None? <==> forall w :: w in roster ==> !(w.id == id && w.org == org)
  {
    if roster == [] then None
    else if roster[0].id == id && roster[0].org == org then Some(roster[0])
    else FindWorker(roster[1..], id, org)
  }

  /** Owners edit every worker; others only workers without an account or their own. */
  predicate MayEdit(actor: Actor, w: Worker) {
    actor.isOwner || w.user.None? || w.user == Some(actor.id)
  }

  function Lookup(cells: map<CellKey, WorkLog>, k: CellKey): Option<WorkLog> {
    if k in cells then Some(cells[k]) else None
  }

  /** The value a cell shows: its hours, 0 when there is no row. */
  function OldHours(existing: Option<WorkLog>): Tenths {
    if existing.Some? then existing.value.hours else 0
  }

  /**
   * The cell a write of `hours` leaves behind: a row stamped with the actor,
   * keeping the prior row's project (else the default project), or no row
   * for zero.
   */
  function Restamped(existing: Option<WorkLog>, hours: Tenths, actor: Actor,
                     defaultProject: Option<ProjectId>): Option<WorkLog> {
    if hours > 0
    then Some(WorkLog(actor.org, if existing.Some? then existing.value.project else defaultProject,
                      hours, Some(actor.id)))
    else None
  }

  /** `int(...)` of a stored value: whole hours, truncated toward zero. */
  function WholeHours(t: Tenths): (h: int)
    ensures t >= 0 ==> 0 <= 10 * h <= t < 10 * h + 10
  {
    if t >= 0 then t / 10 else -((-t) / 10)
  }

  /** The value sent back to a locked cell: its stored whole hours, or blank. */
  function LockedDisplay(cells: map<CellKey, WorkLog>, k: CellKey): Option<int> {
    if k in cells && cells[k].hours != 0 then Some(WholeHours(cells[k].hours)) else None
  }

  /**
   * The overwrite warning: Some(author of the prior value) exactly when a prior
   * row existed, another account (or none) wrote it, and the value changes.
   */
  function OverwriteWarning(existing: Option<WorkLog>, hours: Tenths, actor: Actor): (r: Option<Option<UserId>>)
    ensures r.Some? <==> existing.Some? && existing.value.createdBy != Some(actor.id)
                         && existing.value.hours != hours
    ensures r.Some? ==> r.value == existing.value.createdBy
  {
    if existing.Some? && existing.value.createdBy != Some(actor.id) && existing.value.hours != hours
    then Some(existing.value.createdBy) else None
  }

  /**
   * The write both views perform once a cell is admitted: a history row when
   * a prior row changes value, then an upsert for a positive value (stamped
   * with the actor, keeping the prior row's project, else the default project)
   * or a delete for zero. `existing` is the row read before the write.
   */
  function WriteCell(s: Sheet, existing: Option<WorkLog>, k: CellKey, hours: Tenths,
                     actor: Actor, defaultProject: Option<ProjectId>): (r: Sheet)
    ensures k in r.cells <==> hours > 0
    ensures hours > 0 ==> r.cells[k] == WorkLog(
      actor.org, if existing.Some? then existing.value.project else defaultProject,
      hours, Some(actor.id))
    ensures forall k' :: k' != k ==>
      (k' in r.cells <==> k' in s.cells) && (k' in s.cells ==> r.cells[k'] == s.cells[k'])
    ensures existing.Some? && existing.value.hours != hours ==>
      r.history == s.history + [HistoryEntry(actor.org, k.worker, k.date, existing.value.hours, hours, actor.id)]
    ensures !(existing.Some? && existing.value.hours != hours) ==> r.history == s.history
  {
    var history :=
      if existing.Some? && existing.value.hours != hours
      then s.history + [HistoryEntry(actor.org, k.worker, k.date, existing.value.hours, hours, actor.id)]
      else s.history;
    var project := if existing.Some? then existing.value.project else defaultProject;
    var cells :=
      if hours > 0 then s.cells[k := WorkLog(actor.org, project, hours, Some(actor.id))]
      else s.cells - {k};
    Sheet(cells, history)
  }

  // ---------------------------------------------------------------------------
  // Single-cell write

  /** The cell key `log_<year>_<month>_<worker>_<day>` and the value typed into it. */
  datatype CellRequest = CellRequest(year: int, month: int, worker: WorkerId, day: int, input: HoursInput)

  function DateOf(req: CellRequest): Date {
    Date(req.year, req.month, req.day)
  }

  function CellOf(req: CellRequest): CellKey {
    CellKey(req.worker, DateOf(req))
  }

  /**
   * HTTP 400, HTTP 403, a refusal because the month is closed (with the stored
   * whole hours to put back, None for blank), or the write with its optional
   * overwrite warning and vacation warning.
   */
  datatype CellOutcome =
    | BadRequest
    | Forbidden
    | Locked(shown: Option<int>)
    | Written(log: Option<WorkLog>, overwritten: Option<Option<UserId>>, vacationWarning: bool)

  /** The request passes every check that comes before the payroll lock. */
  predicate Admitted(req: CellRequest, ctx: Context) {
    var found := FindWorker(ctx.roster, req.worker, ctx.actor.org);
    && ParseHours(req.input).Some?
    && ValidDate(DateOf(req))
    && !Before(ctx.today, DateOf(req))
    && found.Some?
    && MayEdit(ctx.actor, found.value)
  }

  /** The single-cell write, as a function of the sheet before it. */
  function AfterUpdate(s: Sheet, req: CellRequest, ctx: Context): (r: (Sheet, CellOutcome))
    ensures !r.1.Written? ==> r.0 == s
    ensures r.1 == BadRequest <==>
      ParseHours(req.input).None? || !ValidDate(DateOf(req))
      || (!Before(ctx.today, DateOf(req)) && FindWorker(ctx.roster, req.worker, ctx.actor.org).None?)
    ensures ParseHours(req.input).Some? && ValidDate(DateOf(req)) && Before(ctx.today, DateOf(req))
      ==> r.1 == Forbidden
    ensures r.1.Locked? <==> Admitted(req, ctx) && IsLocked(ctx.payrolls, req.worker, req.year, req.month)
    ensures r.1.Locked? ==> r.1.shown == LockedDisplay(s.cells, CellOf(req))
    ensures r.1.Written? <==> Admitted(req, ctx) && !IsLocked(ctx.payrolls, req.worker, req.year, req.month)
    ensures r.1.Written? ==>
      var h := ParseHours(req.input).value;
      var existing := Lookup(s.cells, CellOf(req));
      && r.0 == WriteCell(s, existing, CellOf(req), h, ctx.actor, ctx.defaultProject)
      && r.1.log == (if h > 0 then Some(r.0.cells[CellOf(req)]) else None)
      && r.1.overwritten == OverwriteWarning(existing, h, ctx.actor)
      && (r.1.vacationWarning <==> h > 0 && OnVacation(ctx.vacations, req.worker, DateOf(req)))
  {
    var parsed := ParseHours(req.input);
    var d := DateOf(req);
    var found := FindWorker(ctx.roster, req.worker, ctx.actor.org);
    if parsed.None? || !ValidDate(d) then (s, BadRequest)
    else if Before(ctx.today, d) then (s, Forbidden)
    else if found.None? then (s, BadRequest)
    else if !MayEdit(ctx.actor, found.value) then (s, Forbidden)
    else if IsLocked(ctx.payrolls, req.worker, req.year, req.month) then
      (s, Locked(LockedDisplay(s.cells, CellOf(req))))
    else
      var h := parsed.value;
      var existing := Lookup(s.cells, CellOf(req));
      var s' := WriteCell(s, existing, CellOf(req), h, ctx.actor, ctx.defaultProject);
      (s', Written(if h > 0 then Some(s'.cells[CellOf(req)]) else None,
                   OverwriteWarning(existing, h, ctx.actor),
                   h > 0 && OnVacation(ctx.vacations, req.worker, d)))
  }

  /** Sending the same value twice changes nothing the second time and warns of nothing. */
  lemma UpdateIdempotent(s: Sheet, req: CellRequest, ctx: Context)
    requires AfterUpdate(s, req, ctx).1.Written?
    ensures var s1 := AfterUpdate(s, req, ctx).0;
      && AfterUpdate(s1, req, ctx).0 == s1
      && AfterUpdate(s1, req, ctx).1.Written?
      && AfterUpdate(s1, req, ctx).1.overwritten.None?
  {
    var s1 := AfterUpdate(s, req, ctx).0;
    var k := CellOf(req);
    var h := ParseHours(req.input).value;
    var s2 := WriteCell(s1, Lookup(s1.cells, k), k, h, ctx.actor, ctx.defaultProject);
    assert s2.cells == s1.cells;
  }

  /** A single-cell write keeps every stored cell within (0, 24] hours. */
  lemma UpdateKeepsWithinDay(s: Sheet, req: CellRequest, ctx: Context)
    requires WithinDay(s.cells)
    ensures WithinDay(AfterUpdate(s, req, ctx).0.cells)
  {
  }

  // ---------------------------------------------------------------------------
  // Bulk fill

  /**
   * A bulk fill of one day: the date from the query (None when missing or not
   * in YYYY-MM-DD form), the hours input and the ids the grid has selected.
   */
  datatype BulkRequest = BulkRequest(date: Option<Date>, input: HoursInput, selected: set<WorkerId>)

  /** One cell the bulk fill wrote, with the warnings it raised. */
  datatype CellWrite = CellWrite(
    worker: WorkerId, log: Option<WorkLog>, overwritten: Option<Option<UserId>>, vacationWarning: bool)

  /** The running state of the bulk-fill loop. */
  datatype Tally = Tally(sheet: Sheet, skipped: nat, closedSkipped: nat, writes: seq<CellWrite>)

  datatype BulkOutcome =
    | BulkBadRequest
    | BulkForbidden
    | Filled(skipped: nat, closedSkipped: nat, writes: seq<CellWrite>)

  /** Active workers of the organization that are selected or are the actor's own profile. */
  function BulkTargets(roster: seq<Worker>, actor: Actor, selected: set<WorkerId>): (r: seq<Worker>)
    ensures forall w :: w in r <==>
      w in roster && w.org == actor.org && w.isActive && (w.id in selected || actor.profile == Some(w.id))
  {
    Filter(roster, (w: Worker) =>
      w.org == actor.org && w.isActive && (w.id in selected || actor.profile == Some(w.id)))
  }

  /**
   * One turn of the loop: a worker the actor may not edit is skipped, a closed
   * month counts in `closedSkipped`, an unchanged value is skipped, anything
   * else is written. `snapshot` is the cells read before the loop.
   */
  function BulkStep(t: Tally, w: Worker, snapshot: map<CellKey, WorkLog>, d: Date, h: Tenths, ctx: Context): Tally {
    var k := CellKey(w.id, d);
    var existing := Lookup(snapshot, k);
    if !MayEdit(ctx.actor, w) then t.(skipped := t.skipped + 1)
    else if IsLocked(ctx.payrolls, w.id, d.year, d.month) then t.(closedSkipped := t.closedSkipped + 1)
    else if OldHours(existing) == h then t.(skipped := t.skipped + 1)
    else
      var s' := WriteCell(t.sheet, existing, k, h, ctx.actor, ctx.defaultProject);
      Tally(s', t.skipped, t.closedSkipped,
            t.writes + [CellWrite(w.id, if h > 0 then Some(s'.cells[k]) else None,
                                  OverwriteWarning(existing, h, ctx.actor),
                                  h > 0 && OnVacation(ctx.vacations, w.id, d))])
  }

  /** The loop over the first |ws| targets. */
  function BulkFold(t: Tally, ws: seq<Worker>, snapshot: map<CellKey, WorkLog>, d: Date, h: Tenths, ctx: Context): Tally
  {
    if ws == [] then t
    else BulkStep(BulkFold(t, ws[..|ws| - 1], snapshot, d, h, ctx), ws[|ws| - 1], snapshot, d, h, ctx)
  }

  /** The bulk fill, as a function of the sheet before it. */
  function AfterBulkFill(s: Sheet, req: BulkRequest, ctx: Context): (r: (Sheet, BulkOutcome))
    ensures !r.1.Filled? ==> r.0 == s
    ensures r.1 == BulkBadRequest <==>
      req.date.None? || !ValidDate(req.date.value)
      || (!Before(ctx.today, req.date.value) && ParseHours(req.input).None?)
    ensures r.1 == BulkForbidden <==>
      req.date.Some? && ValidDate(req.date.value) && Before(ctx.today, req.date.value)
    ensures r.1.Filled? ==>
      var t := BulkFold(Tally(s, 0, 0, []), BulkTargets(ctx.roster, ctx.actor, req.selected),
                        s.cells, req.date.value, ParseHours(req.input).value, ctx);
      r.0 == t.sheet && r.1 == Filled(t.skipped, t.closedSkipped, t.writes)
  {
    if req.date.None? || !ValidDate(req.date.value) then (s, BulkBadRequest)
    else if Before(ctx.today, req.date.value) then (s, BulkForbidden)
    else if ParseHours(req.input).None? then (s, BulkBadRequest)
    else
      var t := BulkFold(Tally(s, 0, 0, []), BulkTargets(ctx.roster, ctx.actor, req.selected),
                        s.cells, req.date.value, ParseHours(req.input).value, ctx);
      (t.sheet, Filled(t.skipped, t.closedSkipped, t.writes))
  }

  /** Every target is accounted for exactly once: skipped, closed-skipped or written. */
  lemma {:induction false} BulkCounts(t: Tally, ws: seq<Worker>, snapshot: map<CellKey, WorkLog>,
                                      d: Date, h: Tenths, ctx: Context)
    ensures var r := BulkFold(t, ws, snapshot, d, h, ctx);
      r.skipped + r.closedSkipped + |r.writes| == t.skipped + t.closedSkipped + |t.writes| + |ws|
  {
    if ws != [] {
      BulkCounts(t, ws[..|ws| - 1], snapshot, d, h, ctx);
    }
  }

  /**
   * The history only grows, and every row the bulk fill adds records a real
   * change of the filled day to the filled value, made by the actor.
   */
  lemma {:induction false} BulkHistoryAppends(t: Tally, ws: seq<Worker>, snapshot: map<CellKey, WorkLog>,
                                              d: Date, h: Tenths, ctx: Context)
    ensures var r := BulkFold(t, ws, snapshot, d, h, ctx);
      && t.sheet.history <= r.sheet.history
      && forall i :: |t.sheet.history| <= i < |r.sheet.history| ==>
           var e := r.sheet.history[i];
           e.date == d && e.newHours == h && e.oldHours != h && e.changedBy == ctx.actor.id
  {
    if ws != [] {
      BulkHistoryAppends(t, ws[..|ws| - 1], snapshot, d, h, ctx);
    }
  }

  /** Cells on other days, and cells of workers that are not targets, are untouched. */
  lemma {:induction false} BulkFrame(t: Tally, ws: seq<Worker>, snapshot: map<CellKey, WorkLog>,
                                     d: Date, h: Tenths, ctx: Context, k: CellKey)
    requires k.date != d || forall w :: w in ws ==> w.id != k.worker
    ensures var r := BulkFold(t, ws, snapshot, d, h, ctx);
      Lookup(r.sheet.cells, k) == Lookup(t.sheet.cells, k)
  {
    if ws != [] {
      assert forall w :: w in ws[..|ws| - 1] ==> w in ws;
      BulkFrame(t, ws[..|ws| - 1], snapshot, d, h, ctx, k);
    }
  }

  /** A bulk fill never puts a cell outside (0, 24] hours. */
  lemma {:induction false} BulkKeepsWithinDay(t: Tally, ws: seq<Worker>, snapshot: map<CellKey, WorkLog>,
                                              d: Date, h: Tenths, ctx: Context)
    requires WithinDay(t.sheet.cells) && 0 <= h <= 240
    ensures WithinDay(BulkFold(t, ws, snapshot, d, h, ctx).sheet.cells)
  {
    if ws != [] {
      BulkKeepsWithinDay(t, ws[..|ws| - 1], snapshot, d, h, ctx);
    }
  }

  lemma {:induction false} BulkFoldAppend(t: Tally, a: seq<Worker>, b: seq<Worker>,
                                          snapshot: map<CellKey, WorkLog>, d: Date, h: Tenths, ctx: Context)
    ensures BulkFold(t, a + b, snapshot, d, h, ctx)
         == BulkFold(BulkFold(t, a, snapshot, d, h, ctx), b, snapshot, d, h, ctx)
    decreases |b|
  {
    if b == [] {
      assert a + b == a;
    } else {
      assert (a + b)[..|a + b| - 1] == a + b[..|b| - 1];
      BulkFoldAppend(t, a, b[..|b| - 1], snapshot, d, h, ctx);
    }
  }

  /** The targets before and after position `i` are other workers. */
  lemma OthersAround(ws: seq<Worker>, i: int)
    requires DistinctIds(ws) && 0 <= i < |ws|
    ensures forall w :: w in ws[..i] ==> w.id != ws[i].id
    ensures forall w :: w in ws[i + 1..] ==> w.id != ws[i].id
  {
    forall w | w in ws[..i] ensures w.id != ws[i].id {
      var j :| 0 <= j < i && ws[..i][j] == w;
      assert ws[j] == w;
    }
    forall w | w in ws[i + 1..] ensures w.id != ws[i].id {
      var j :| 0 <= j < |ws| - i - 1 && ws[i + 1..][j] == w;
      assert ws[i + 1 + j] == w;
    }
  }

  /** One loop turn, on a cell that still holds its snapshot value. */
  lemma BulkStepOwnCell(t: Tally, w: Worker, snapshot: map<CellKey, WorkLog>, d: Date, h: Tenths, ctx: Context)
    requires Lookup(t.sheet.cells, CellKey(w.id, d)) == Lookup(snapshot, CellKey(w.id, d)) && h >= 0
    ensures var r := BulkStep(t, w, snapshot, d, h, ctx);
      var k := CellKey(w.id, d);
      && (!MayEdit(ctx.actor, w) || IsLocked(ctx.payrolls, w.id, d.year, d.month) ==>
            Lookup(r.sheet.cells, k) == Lookup(t.sheet.cells, k))
      && (MayEdit(ctx.actor, w) && !IsLocked(ctx.payrolls, w.id, d.year, d.month) ==>
            OldHours(Lookup(r.sheet.cells, k)) == h)
      && (MayEdit(ctx.actor, w) && !IsLocked(ctx.payrolls, w.id, d.year, d.month)
          && OldHours(Lookup(snapshot, k)) == h ==>
            Lookup(r.sheet.cells, k) == Lookup(snapshot, k))
      && (MayEdit(ctx.actor, w) && !IsLocked(ctx.payrolls, w.id, d.year, d.month)
          && OldHours(Lookup(snapshot, k)) != h ==>
            Lookup(r.sheet.cells, k) == Restamped(Lookup(snapshot, k), h, ctx.actor, ctx.defaultProject))
  {
    var k := CellKey(w.id, d);
    var existing := Lookup(snapshot, k);
    if MayEdit(ctx.actor, w) && !IsLocked(ctx.payrolls, w.id, d.year, d.month) && OldHours(existing) != h {
      var s' := WriteCell(t.sheet, existing, k, h, ctx.actor, ctx.defaultProject);
      assert BulkStep(t, w, snapshot, d, h, ctx).sheet == s';
      if h > 0 {
        assert Lookup(s'.cells, k) == Some(s'.cells[k]);
      } else {
        assert Lookup(s'.cells, k) == None;
      }
    }
  }

  /**
   * Per target, when the loop starts from the snapshot and ids are distinct:
   * a worker the actor may not edit, or whose month is closed, keeps its cell;
   * every other target ends up showing exactly the filled value.
   */
  lemma BulkCellResult(t: Tally, ws: seq<Worker>, d: Date, h: Tenths, ctx: Context, i: int)
    requires DistinctIds(ws) && 0 <= i < |ws| && h >= 0
    ensures var r := BulkFold(t, ws, t.sheet.cells, d, h, ctx);
      var k := CellKey(ws[i].id, d);
      && (!MayEdit(ctx.actor, ws[i]) || IsLocked(ctx.payrolls, ws[i].id, d.year, d.month) ==>
            Lookup(r.sheet.cells, k) == Lookup(t.sheet.cells, k))
      && (MayEdit(ctx.actor, ws[i]) && !IsLocked(ctx.payrolls, ws[i].id, d.year, d.month) ==>
            OldHours(Lookup(r.sheet.cells, k)) == h)
      && (MayEdit(ctx.actor, ws[i]) && !IsLocked(ctx.payrolls, ws[i].id, d.year, d.month)
          && OldHours(Lookup(t.sheet.cells, k)) == h ==>
            Lookup(r.sheet.cells, k) == Lookup(t.sheet.cells, k))
      && (MayEdit(ctx.actor, ws[i]) && !IsLocked(ctx.payrolls, ws[i].id, d.year, d.month)
          && OldHours(Lookup(t.sheet.cells, k)) != h ==>
            Lookup(r.sheet.cells, k) == Restamped(Lookup(t.sheet.cells, k), h, ctx.actor, ctx.defaultProject))
  {
    var k := CellKey(ws[i].id, d);
    var snapshot := t.sheet.cells;
    OthersAround(ws, i);
    assert ws == ws[..i + 1] + ws[i + 1..];
    BulkFoldAppend(t, ws[..i + 1], ws[i + 1..], snapshot, d, h, ctx);
    assert ws[..i + 1][..i] == ws[..i];
    var t1 := BulkFold(t, ws[..i], snapshot, d, h, ctx);
    var t2 := BulkFold(t, ws[..i + 1], snapshot, d, h, ctx);
    assert t2 == BulkStep(t1, ws[i], snapshot, d, h, ctx);
    BulkFrame(t, ws[..i], snapshot, d, h, ctx, k);
    BulkStepOwnCell(t1, ws[i], snapshot, d, h, ctx);
    BulkFrame(t2, ws[i + 1..], snapshot, d, h, ctx, k);
  }

  /**
   * What a bulk fill does to each target: forbidden and closed workers keep
   * their cells, all others show the filled hours afterwards, and every target
   * is counted exactly once.
   */
  lemma BulkFillMeaning(s: Sheet, req: BulkRequest, ctx: Context, w: Worker)
    requires DistinctIds(ctx.roster)
    requires AfterBulkFill(s, req, ctx).1.Filled?
    requires w in BulkTargets(ctx.roster, ctx.actor, req.selected)
    ensures var r := AfterBulkFill(s, req, ctx);
      var k := CellKey(w.id, req.date.value);
      && (!MayEdit(ctx.actor, w) || IsLocked(ctx.payrolls, w.id, req.date.value.year, req.date.value.month) ==>
            Lookup(r.0.cells, k) == Lookup(s.cells, k))
      && (MayEdit(ctx.actor, w) && !IsLocked(ctx.payrolls, w.id, req.date.value.year, req.date.value.month) ==>
            OldHours(Lookup(r.0.cells, k)) == ParseHours(req.input).value)
      && (MayEdit(ctx.actor, w) && !IsLocked(ctx.payrolls, w.id, req.date.value.year, req.date.value.month)
          && OldHours(Lookup(s.cells, k)) == ParseHours(req.input).value ==>
            Lookup(r.0.cells, k) == Lookup(s.cells, k))
      && (MayEdit(ctx.actor, w) && !IsLocked(ctx.payrolls, w.id, req.date.value.year, req.date.value.month)
          && OldHours(Lookup(s.cells, k)) != ParseHours(req.input).value ==>
            Lookup(r.0.cells, k) == Restamped(Lookup(s.cells, k), ParseHours(req.input).value, ctx.actor, ctx.defaultProject))
      && r.1.skipped + r.1.closedSkipped + |r.1.writes| == |BulkTargets(ctx.roster, ctx.actor, req.selected)|
  {
    var ws := BulkTargets(ctx.roster, ctx.actor, req.selected);
    FilterKeepsDistinct(ctx.roster, (w: Worker) =>
      w.org == ctx.actor.org && w.isActive && (w.id in req.selected || ctx.actor.profile == Some(w.id)));
    var i :| 0 <= i < |ws| && ws[i] == w;
    var t := Tally(s, 0, 0, []);
    BulkCellResult(t, ws, req.date.value, ParseHours(req.input).value, ctx, i);
    BulkCounts(t, ws, s.cells, req.date.value, ParseHours(req.input).value, ctx);
  }

  /** A target whose existing cell the bulk fill changes, which is what earns a history row. */
  predicate ChangesCell(w: Worker, snapshot: map<CellKey, WorkLog>, d: Date, h: Tenths, ctx: Context) {
    var k := CellKey(w.id, d);
    && MayEdit(ctx.actor, w) && !IsLocked(ctx.payrolls, w.id, d.year, d.month)
    && k in snapshot && snapshot[k].hours != h
  }

  /** `e` is the history row that changing `w`'s stored cell records. */
  predicate DueRow(e: HistoryEntry, w: Worker, snapshot: map<CellKey, WorkLog>, d: Date, h: Tenths, ctx: Context) {
    && ChangesCell(w, snapshot, d, h, ctx)
    && e == HistoryEntry(ctx.actor.org, w.id, d, snapshot[CellKey(w.id, d)].hours, h, ctx.actor.id)
  }

  /** The history rows a fill of `ws` is due to write: one per changed existing cell, in target order. */
  function ChangedRows(ws: seq<Worker>, snapshot: map<CellKey, WorkLog>, d: Date, h: Tenths, ctx: Context): seq<HistoryEntry>
  {
    if ws == [] then []
    else
      var w := ws[|ws| - 1];
      ChangedRows(ws[..|ws| - 1], snapshot, d, h, ctx)
        + if ChangesCell(w, snapshot, d, h, ctx)
          then [HistoryEntry(ctx.actor.org, w.id, d, snapshot[CellKey(w.id, d)].hours, h, ctx.actor.id)]
          else []
  }

  /** The loop appends exactly the due history rows. */
  lemma {:induction false} BulkHistoryRows(t: Tally, ws: seq<Worker>, snapshot: map<CellKey, WorkLog>,
                                           d: Date, h: Tenths, ctx: Context)
    ensures BulkFold(t, ws, snapshot, d, h, ctx).sheet.history == t.sheet.history + ChangedRows(ws, snapshot, d, h, ctx)
  {
    if ws != [] {
      var front := ws[..|ws| - 1];
      BulkHistoryRows(t, front, snapshot, d, h, ctx);
      assert t.sheet.history + ChangedRows(front, snapshot, d, h, ctx)
               + (ChangedRows(ws, snapshot, d, h, ctx)[|ChangedRows(front, snapshot, d, h, ctx)|..])
          == t.sheet.history + ChangedRows(ws, snapshot, d, h, ctx);
    }
  }

  /**
   * Each due row is for a target whose cell existed and changes, and records
   * the stored hours as the old value.
   */
  lemma {:induction false} ChangedRowsSound(ws: seq<Worker>, snapshot: map<CellKey, WorkLog>,
                                            d: Date, h: Tenths, ctx: Context)
    ensures forall e :: e in ChangedRows(ws, snapshot, d, h, ctx) ==>
      exists w :: w in ws && DueRow(e, w, snapshot, d, h, ctx)
  {
    if ws != [] {
      var front := ws[..|ws| - 1];
      var last := ws[|ws| - 1];
      ChangedRowsSound(front, snapshot, d, h, ctx);
      var before := ChangedRows(front, snapshot, d, h, ctx);
      forall e | e in ChangedRows(ws, snapshot, d, h, ctx)
        ensures exists w :: w in ws && DueRow(e, w, snapshot, d, h, ctx)
      {
        if e in before {
          var w :| w in front && DueRow(e, w, snapshot, d, h, ctx);
          assert w in ws;
        } else {
          assert last in ws && DueRow(e, last, snapshot, d, h, ctx);
        }
      }
    }
  }

  /** Every target whose existing cell changes has a due row. */
  lemma {:induction false} ChangedRowsComplete(ws: seq<Worker>, snapshot: map<CellKey, WorkLog>,
                                               d: Date, h: Tenths, ctx: Context, w: Worker)
    requires w in ws && ChangesCell(w, snapshot, d, h, ctx)
    ensures exists e :: e in ChangedRows(ws, snapshot, d, h, ctx) && e.worker == w.id
  {
    var front := ws[..|ws| - 1];
    var last := ws[|ws| - 1];
    var rows := ChangedRows(ws, snapshot, d, h, ctx);
    if w in front {
      ChangedRowsComplete(front, snapshot, d, h, ctx, w);
      var e :| e in ChangedRows(front, snapshot, d, h, ctx) && e.worker == w.id;
      assert e in rows;
    } else {
      assert ws == front + [last];
      assert w == last;
      assert rows[|rows| - 1].worker == w.id;
    }
  }

  /** With distinct ids, no target has two due rows. */
  lemma {:induction false} ChangedRowsDistinct(ws: seq<Worker>, snapshot: map<CellKey, WorkLog>,
                                               d: Date, h: Tenths, ctx: Context)
    requires DistinctIds(ws)
    ensures forall i, j :: 0 <= i < j < |ChangedRows(ws, snapshot, d, h, ctx)| ==>
      ChangedRows(ws, snapshot, d, h, ctx)[i].worker != ChangedRows(ws, snapshot, d, h, ctx)[j].worker
  {
    if ws != [] {
      var front := ws[..|ws| - 1];
      var last := ws[|ws| - 1];
      assert DistinctIds(front);
      ChangedRowsDistinct(front, snapshot, d, h, ctx);
      ChangedRowsSound(front, snapshot, d, h, ctx);
      OthersAround(ws, |ws| - 1);
      var before := ChangedRows(front, snapshot, d, h, ctx);
      var rows := ChangedRows(ws, snapshot, d, h, ctx);
      forall i, j | 0 <= i < j < |rows| ensures rows[i].worker != rows[j].worker {
        assert rows[i] == before[i];
        if j < |before| {
          assert rows[j] == before[j];
          assert before[i].worker != before[j].worker;
        } else {
          assert before[i] in before;
          var w :| w in front && DueRow(before[i], w, snapshot, d, h, ctx);
          assert w.id != last.id;
          assert ChangesCell(last, snapshot, d, h, ctx);
          assert rows == before + [HistoryEntry(ctx.actor.org, last.id, d, snapshot[CellKey(last.id, d)].hours, h, ctx.actor.id)];
          assert rows[j].worker == last.id;
        }
      }
    }
  }
  /**
   * The history a bulk fill writes, row by row: the old rows stay; each new row
   * is for a target the actor may edit, in an open month, whose cell existed
   * with hours other than the filled value, and records those stored hours as
   * the old value, the filled value as the new one and the actor as author;
   * each such target gets exactly one row, and no other worker gets any.
   */
  lemma BulkFillHistory(s: Sheet, req: BulkRequest, ctx: Context)
    requires DistinctIds(ctx.roster)
    requires AfterBulkFill(s, req, ctx).1.Filled?
    ensures s.history <= AfterBulkFill(s, req, ctx).0.history
    ensures var r := AfterBulkFill(s, req, ctx);
      var ws := BulkTargets(ctx.roster, ctx.actor, req.selected);
      var d := req.date.value;
      var h := ParseHours(req.input).value;
      var rows := r.0.history[|s.history|..];
      && (forall e :: e in rows ==> exists w :: w in ws && DueRow(e, w, s.cells, d, h, ctx))
      && (forall w :: w in ws && ChangesCell(w, s.cells, d, h, ctx) ==>
            exists e :: e in rows && e.worker == w.id)
      && (forall i, j :: 0 <= i < j < |rows| ==> rows[i].worker != rows[j].worker)
  {
    var ws := BulkTargets(ctx.roster, ctx.actor, req.selected);
    var d := req.date.value;
    var h := ParseHours(req.input).value;
    FilterKeepsDistinct(ctx.roster, (w: Worker) =>
      w.org == ctx.actor.org && w.isActive && (w.id in req.selected || ctx.actor.profile == Some(w.id)));
    BulkHistoryRows(Tally(s, 0, 0, []), ws, s.cells, d, h, ctx);
    ChangedRowsSound(ws, s.cells, d, h, ctx);
    ChangedRowsDistinct(ws, s.cells, d, h, ctx);
    forall w | w in ws && ChangesCell(w, s.cells, d, h, ctx)
      ensures exists e :: e in ChangedRows(ws, s.cells, d, h, ctx) && e.worker == w.id
    {
      ChangedRowsComplete(ws, s.cells, d, h, ctx, w);
    }
    var r := AfterBulkFill(s, req, ctx);
    assert r.0.history[|s.history|..] == ChangedRows(ws, s.cells, d, h, ctx);
  }

  /**
   * Filling 8 hours for A, who holds 10 hours written by another account, and
   * for B, who has no cell: A shows 8 hours with one history row (10 to 8) and
   * a warning naming the earlier author; B's cell is new, with no history row.
   */
  lemma BulkOverwriteScenario(d: Date, actor: Actor, a: Worker, b: Worker, s: Sheet)
    requires ValidDate(d) && actor == Actor(1, 7, true, None)
    requires a == Worker(10, 7, None, true, 20, "Nowak", "Anna")
    requires b == Worker(11, 7, None, true, 20, "Wrona", "Beata")
    requires s == Sheet(map[CellKey(10, d) := WorkLog(7, Some(3), 100, Some(2))], [])
    ensures
      var ctx := Context(actor, d, [a, b], map[], Some(3), []);
      var r := AfterBulkFill(s, BulkRequest(Some(d), Whole(8), {10, 11}), ctx);
      && Lookup(r.0.cells, CellKey(10, d)) == Some(WorkLog(7, Some(3), 80, Some(1)))
      && Lookup(r.0.cells, CellKey(11, d)) == Some(WorkLog(7, Some(3), 80, Some(1)))
      && r.0.history == [HistoryEntry(7, 10, d, 100, 80, 1)]
      && r.1 == Filled(0, 0, [CellWrite(10, Some(WorkLog(7, Some(3), 80, Some(1))), Some(Some(2)), false),
                              CellWrite(11, Some(WorkLog(7, Some(3), 80, Some(1))), None, false)])
  {
    var ctx := Context(actor, d, [a, b], map[], Some(3), []);
    var targets := BulkTargets(ctx.roster, actor, {10, 11});
    assert targets == [a, b] by {
      assert [a, b][1..] == [b] && [b][1..] == [];
    }
    var t0 := Tally(s, 0, 0, []);
    var ka, kb := CellKey(10, d), CellKey(11, d);
    var s1 := WriteCell(s, Some(WorkLog(7, Some(3), 100, Some(2))), ka, 80, actor, Some(3));
    var t1 := BulkStep(t0, a, s.cells, d, 80, ctx);
    assert t1 == Tally(s1, 0, 0, [CellWrite(10, Some(WorkLog(7, Some(3), 80, Some(1))), Some(Some(2)), false)]);
    var s2 := WriteCell(s1, None, kb, 80, actor, Some(3));
    assert Lookup(s.cells, kb) == None;
    assert BulkStep(t1, b, s.cells, d, 80, ctx)
        == Tally(s2, 0, 0, t1.writes + [CellWrite(11, Some(WorkLog(7, Some(3), 80, Some(1))), None, false)]);
    assert BulkFold(t0, [a], s.cells, d, 80, ctx) == t1 by {
      assert [a][..0] == [];
    }
    var t2 := BulkStep(t1, b, s.cells, d, 80, ctx);
    assert BulkFold(t0, [a, b], s.cells, d, 80, ctx) == t2 by {
      assert [a, b][..1] == [a];
    }
    assert kb != ka;
    assert Lookup(s2.cells, ka) == Lookup(s1.cells, ka);
  }

  // ---------------------------------------------------------------------------
  // The store

  /** The WorkLog and TimesheetHistory tables, changed in place by the two write views. */
  class TimesheetStore {
    var cells: map<CellKey, WorkLog>
    var history: seq<HistoryEntry>

    function State(): Sheet
      reads this
    {
      Sheet(cells, history)
    }

    constructor (initialCells: map<CellKey, WorkLog>, initialHistory: seq<HistoryEntry>)
      ensures cells == initialCells && history == initialHistory
    {
      cells := initialCells;
      history := initialHistory;
    }

    /** `timesheet_update_view`: the checks in the view's order, then the write. */
    method UpdateCell(req: CellRequest, ctx: Context) returns (outcome: CellOutcome)
      modifies this
      ensures (State(), outcome) == AfterUpdate(old(State()), req, ctx)
    {
      var parsed := ParseHours(req.input);
      var logDate := Date(req.year, req.month, req.day);
      if parsed.None? || !ValidDate(logDate) {
        return BadRequest;
      }
      var hours := parsed.value;
      if Before(ctx.today, logDate) {
        return Forbidden;
      }
      var found := FindWorker(ctx.roster, req.worker, ctx.actor.org);
      if found.None? {
        return BadRequest;
      }
      var worker := found.value;
      if !MayEdit(ctx.actor, worker) {
        return Forbidden;
      }
      var k := CellKey(worker.id, logDate);
      if IsLocked(ctx.payrolls, worker.id, req.year, req.month) {
        return Locked(LockedDisplay(cells, k));
      }
      var existing := Lookup(cells, k);
      var project := if existing.Some? then existing.value.project else ctx.defaultProject;
      var oldHours := OldHours(existing);
      var wasOverwritten := false;
      var oldCreator: Option<UserId> := None;
      if existing.Some? && existing.value.createdBy != Some(ctx.actor.id) {
        wasOverwritten := true;
        oldCreator := existing.value.createdBy;
      }
      if oldHours != hours && existing.Some? {
        history := history + [HistoryEntry(ctx.actor.org, worker.id, logDate, oldHours, hours, ctx.actor.id)];
      }
      var log: Option<WorkLog> := None;
      if hours > 0 {
        log := Some(WorkLog(ctx.actor.org, project, hours, Some(ctx.actor.id)));
        cells := cells[k := log.value];
      } else if existing.Some? {
        cells := cells - {k};
      } else {
        assert cells - {k} == cells;
      }
      var warning := if wasOverwritten && oldHours != hours then Some(oldCreator) else None;
      outcome := Written(log, warning, hours > 0 && OnVacation(ctx.vacations, worker.id, logDate));
    }

    /** `timesheet_bulk_fill_view`: the same rules applied to every target in turn. */
    method BulkFill(req: BulkRequest, ctx: Context) returns (outcome: BulkOutcome)
      modifies this
      ensures (State(), outcome) == AfterBulkFill(old(State()), req, ctx)
    {
      if req.date.None? || !ValidDate(req.date.value) {
        return BulkBadRequest;
      }
      var logDate := req.date.value;
      if Before(ctx.today, logDate) {
        return BulkForbidden;
      }
      var parsed := ParseHours(req.input);
      if parsed.None? {
        return BulkBadRequest;
      }
      var hours := parsed.value;
      var targets := BulkTargets(ctx.roster, ctx.actor, req.selected);
      var existingLogs := cells;
      var skipped, closedSkipped, writes := 0, 0, [];
      ghost var start := Tally(State(), 0, 0, []);
      for i := 0 to |targets|
        invariant Tally(State(), skipped, closedSkipped, writes)
               == BulkFold(start, targets[..i], existingLogs, logDate, hours, ctx)
      {
        var worker := targets[i];
        assert targets[..i + 1][..i] == targets[..i];
        if !MayEdit(ctx.actor, worker) {
          skipped := skipped + 1;
          continue;
        }
        var k := CellKey(worker.id, logDate);
        var existing := Lookup(existingLogs, k);
        var oldHours := OldHours(existing);
        var wasOverwritten := false;
        var oldCreator: Option<UserId> := None;
        if existing.Some? && existing.value.createdBy != Some(ctx.actor.id) {
          wasOverwritten := true;
          oldCreator := existing.value.createdBy;
        }
        if IsLocked(ctx.payrolls, worker.id, logDate.year, logDate.month) {
          closedSkipped := closedSkipped + 1;
          continue;
        }
        if oldHours == hours {
          skipped := skipped + 1;
          continue;
        }
        if existing.Some? {
          history := history + [HistoryEntry(ctx.actor.org, worker.id, logDate, oldHours, hours, ctx.actor.id)];
        }
        var log: Option<WorkLog> := None;
        if hours > 0 {
          var project := if existing.Some? then existing.value.project else ctx.defaultProject;
          log := Some(WorkLog(ctx.actor.org, project, hours, Some(ctx.actor.id)));
          cells := cells[k := log.value];
        } else if existing.Some? {
          cells := cells - {k};
        }
        var warning := if wasOverwritten then Some(oldCreator) else None;
        writes := writes + [CellWrite(worker.id, log, warning,
                                      hours > 0 && OnVacation(ctx.vacations, worker.id, logDate))];
      }
      assert targets[..|targets|] == targets;
      outcome := Filled(skipped, closedSkipped, writes);
    }
  }

  // ---------------------------------------------------------------------------
  // Which workers the grid shows

  /**
   * The visibility selection after a grid request: the ids the checkbox
   * signals turn on when the request carries any, else the stored selection,
   * plus the actor's own worker profile. The result is also the new stored
   * selection.
   */
  function VisibleWorkers(signals: Option<map<WorkerId, bool>>, stored: set<WorkerId>,
                          profile: Option<WorkerId>): (r: set<WorkerId>)
    ensures profile.Some? ==> profile.value in r
    ensures signals.Some? ==> forall id :: id in r <==>
      (id in signals.value && signals.value[id]) || profile == Some(id)
    ensures signals.None? ==> forall id :: id in r <==> id in stored || profile == Some(id)
  {
    var base := if signals.Some? then (set id | id in signals.value && signals.value[id]) else stored;
    if profile.Some? then base + {profile.value} else base
  }

  /** The grid's order: the actor's own worker first, then by last and first name. */
  function GridKey(profile: Option<WorkerId>, w: Worker): SortKey {
    SortKey(if profile == Some(w.id) then 0 else 1, w.lastName, w.firstName)
  }

  /** The active workers the actor may edit (the worker picker's list), by name. */
  function SelectableWorkers(roster: seq<Worker>, actor: Actor): (r: seq<Worker>)
    ensures forall w :: w in r <==> w in roster && w.org == actor.org && w.isActive && MayEdit(actor, w)
    ensures multiset(r) == multiset(Filter(roster, (w: Worker) => w.org == actor.org && w.isActive && MayEdit(actor, w)))
    ensures forall i, j :: 0 <= i < j < |r| ==>
      KeyLe(SortKey(0, r[i].lastName, r[i].firstName), SortKey(0, r[j].lastName, r[j].firstName))
  {
    var all := Filter(roster, (w: Worker) => w.org == actor.org && w.isActive && MayEdit(actor, w));
    var r := SortByKey(all, (w: Worker) => SortKey(0, w.lastName, w.firstName));
    assert forall w :: w in r <==> w in multiset(r);
    assert forall w :: w in all <==> w in multiset(all);
    r
  }

  /** The grid's rows: the selectable workers that are visible or the actor's own. */
  function GridWorkers(roster: seq<Worker>, actor: Actor, visible: set<WorkerId>): (r: seq<Worker>)
    ensures forall w :: w in r <==>
      w in roster && w.org == actor.org && w.isActive && MayEdit(actor, w)
      && (w.id in visible || actor.profile == Some(w.id))
    ensures multiset(r) == multiset(Filter(
      Filter(roster, (w: Worker) => w.org == actor.org && w.isActive && MayEdit(actor, w)),
      (w: Worker) => w.id in visible || actor.profile == Some(w.id)))
    ensures forall i, j :: 0 <= i < j < |r| ==>
      KeyLe(GridKey(actor.profile, r[i]), GridKey(actor.profile, r[j]))
  {
    var all := Filter(roster, (w: Worker) => w.org == actor.org && w.isActive && MayEdit(actor, w));
    var shown := Filter(all, (w: Worker) => w.id in visible || actor.profile == Some(w.id));
    var r := SortByKey(shown, (w: Worker) => GridKey(actor.profile, w));
    forall w ensures w in r <==> w in shown {
      assert w in r <==> w in multiset(r);
      assert w in shown <==> w in multiset(shown);
    }
    r
  }

  /** When the actor's own worker is on the grid, it is the first row. */
  lemma OwnWorkerFirst(roster: seq<Worker>, actor: Actor, visible: set<WorkerId>, i: int)
    requires 0 <= i < |GridWorkers(roster, actor, visible)|
    requires actor.profile == Some(GridWorkers(roster, actor, visible)[i].id)
    ensures actor.profile == Some(GridWorkers(roster, actor, visible)[0].id)
  {
    var r := GridWorkers(roster, actor, visible);
    if i > 0 {
      assert KeyLe(GridKey(actor.profile, r[0]), GridKey(actor.profile, r[i]));
    }
  }
}
