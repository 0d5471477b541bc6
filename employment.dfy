/**
 * Employment periods (`Worker.save`): saving a worker keeps the worker's
 * EmploymentPeriod rows in step with its hire date and its active flag.
 * A new worker gets one period; a hire-date edit moves the start of one
 * period; a status change closes the open periods at today and, on
 * activation, opens a new one. When both the hire date and the status change
 * in one save, only the hire-date branch runs.
 */
module Employment {
  import opened Calendar
  import opened Records

  /** One EmploymentPeriod row; `end` is None while the period is open. */
  datatype Period = Period(start: Date, end: Option<Date>)

  /**
   * A Worker instance as `save` sees it: whether the row exists yet, the
   * values remembered when it was loaded or last saved (`_initial_is_active`,
   * `_initial_hired_at`), the current field values, the linked user
   * account's `is_active` flag (None when no account is linked) and the
   * worker's periods in creation order.
   */
  datatype WorkerState = WorkerState(
    persisted: bool,
    initialActive: bool, initialHired: Date,
    isActive: bool, hiredAt: Date,
    account: Option<bool>,
    periods: seq<Period>)

  /** Number of open periods. */
  function OpenCount(ps: seq<Period>): (n: nat)
    ensures n <= |ps|
  {
    if |ps| == 0 then 0
    else OpenCount(ps[..|ps|-1]) + (if ps[|ps|-1].end.None? then 1 else 0)
  }

  /** The invariant the tracker keeps: exactly one open period while active, none otherwise. */
  predicate Tracked(ps: seq<Period>, active: bool) {
    OpenCount(ps) == if active then 1 else 0
  }

  lemma {:induction false} OpenCountZero(ps: seq<Period>)
    ensures OpenCount(ps) == 0 <==> forall i :: 0 <= i < |ps| ==> ps[i].end.Some?
  {
    if |ps| > 0 {
      var init := ps[..|ps|-1];
      OpenCountZero(init);
      assert forall i :: 0 <= i < |init| ==> init[i] == ps[i];
    }
  }

  lemma {:induction false} OpenCountAppend(ps: seq<Period>, p: Period)
    ensures OpenCount(ps + [p]) == OpenCount(ps) + (if p.end.None? then 1 else 0)
  {
    assert (ps + [p])[..|ps|] == ps;
  }

  /** Moving the start of one period neither opens nor closes anything. */
  lemma {:induction false} OpenCountMoveStart(ps: seq<Period>, i: int, d: Date)
    requires 0 <= i < |ps|
    ensures OpenCount(ps[i := ps[i].(start := d)]) == OpenCount(ps)
    decreases |ps|
  {
    var qs := ps[i := ps[i].(start := d)];
    if i < |ps| - 1 {
      assert qs[..|qs|-1] == ps[..|ps|-1][i := ps[i].(start := d)];
      OpenCountMoveStart(ps[..|ps|-1], i, d);
    } else {
      assert qs[..|qs|-1] == ps[..|ps|-1];
    }
  }

  /** `filter(end_date__isnull=True).update(end_date=today)`: every open period ends today. */
  function CloseOpen(ps: seq<Period>, today: Date): (r: seq<Period>)
    ensures |r| == |ps|
    ensures forall i :: 0 <= i < |ps| ==>
      r[i].start == ps[i].start && r[i].end.Some? &&
      (ps[i].end.Some? ==> r[i].end == ps[i].end) &&
      (ps[i].end.None? ==> r[i].end == Some(today))
    ensures OpenCount(r) == 0
  {
    var r := seq(|ps|, i requires 0 <= i < |ps| =>
      if ps[i].end.None? then ps[i].(end := Some(today)) else ps[i]);
    OpenCountZero(r);
    r
  }

  /**
   * The period a hire-date edit moves: the first one starting on the old
   * hire date, else the earliest one (`order_by("start_date").first()`).
   */
  function MovedIndex(ps: seq<Period>, oldHired: Date): (i: nat)
    requires |ps| > 0
    ensures i < |ps|
    ensures (exists j :: 0 <= j < |ps| && ps[j].start == oldHired) ==>
      ps[i].start == oldHired && forall j :: 0 <= j < i ==> ps[j].start != oldHired
    ensures (forall j :: 0 <= j < |ps| ==> ps[j].start != oldHired) ==>
      forall j :: 0 <= j < |ps| ==> AtOrBefore(ps[i].start, ps[j].start)
  {
    match FirstStartingOn(ps, oldHired)
    case Some(i) => i
    case None => Earliest(ps)
  }

  /** `filter(start_date=d).first()`, in creation order. */
  function FirstStartingOn(ps: seq<Period>, d: Date): (r: Option<nat>)
    ensures r.Some? ==> (r.value < |ps| && ps[r.value].start == d &&
      forall j :: 0 <= j < r.value ==> ps[j].start != d)
    ensures r.None? <==> forall j :: 0 <= j < |ps| ==> ps[j].start != d
  {
    if |ps| == 0 then None
    else if ps[0].start == d then Some(0)
    else match FirstStartingOn(ps[1..], d)
      case None => None
      case Some(i) => Some(i + 1)
  }

  /** The period with the earliest start; on a tie, the one created first. */
  function Earliest(ps: seq<Period>): (i: nat)
    requires |ps| > 0
    ensures i < |ps|
    ensures forall j :: 0 <= j < |ps| ==> AtOrBefore(ps[i].start, ps[j].start)
    ensures forall j :: 0 <= j < i ==> Before(ps[i].start, ps[j].start)
  {
    if |ps| == 1 then 0
    else
      var j := Earliest(ps[..|ps|-1]);
      assert forall k :: 0 <= k < |ps| - 1 ==> ps[..|ps|-1][k] == ps[k];
      if Before(ps[|ps|-1].start, ps[j].start) then |ps| - 1 else j
  }

  /** The period a save creates for a new worker, or for one with no periods left. */
  function FirstPeriod(hiredAt: Date, active: bool): Period {
    Period(hiredAt, if active then None else Some(hiredAt))
  }

  /** The worker's periods after `save`, decided by the hire-date and status branches in that order. */
  function PeriodsAfterSave(s: WorkerState, today: Date): seq<Period> {
    if !s.persisted then s.periods + [FirstPeriod(s.hiredAt, s.isActive)]
    else if s.initialHired != s.hiredAt then
      if |s.periods| == 0 then [FirstPeriod(s.hiredAt, s.isActive)]
      else
        var i := MovedIndex(s.periods, s.initialHired);
        s.periods[i := s.periods[i].(start := s.hiredAt)]
    else if s.initialActive != s.isActive then
      if s.isActive then CloseOpen(s.periods, today) + [Period(MaxDate(today, s.hiredAt), None)]
      else CloseOpen(s.periods, today)
    else s.periods
  }

  /** The whole worker after `save(today)`. */
  function AfterSave(s: WorkerState, today: Date): (r: WorkerState)
    ensures r.persisted && r.isActive == s.isActive && r.hiredAt == s.hiredAt
    ensures r.initialActive == s.isActive && r.initialHired == s.hiredAt
    ensures r.account == if s.persisted && s.initialActive && !s.isActive && s.account.Some?
                         then Some(false) else s.account
  {
    var account := if s.persisted && s.initialActive && !s.isActive && s.account.Some?
                   then Some(false) else s.account;
    s.(persisted := true, initialActive := s.isActive, initialHired := s.hiredAt,
       account := account, periods := PeriodsAfterSave(s, today))
  }

  /** Creating a worker creates exactly one period starting at the hire date, open iff the worker is active. */
  lemma CreateStartsOnePeriod(s: WorkerState, today: Date)
    requires !s.persisted && s.periods == []
    ensures var r := AfterSave(s, today);
      && r.periods == [Period(s.hiredAt, if s.isActive then None else Some(s.hiredAt))]
      && Tracked(r.periods, r.isActive)
  {
    OpenCountAppend([], FirstPeriod(s.hiredAt, s.isActive));
  }

  /** Deactivation with the hire date unchanged closes every open period at today and deactivates the account. */
  lemma DeactivationClosesAll(s: WorkerState, today: Date)
    requires s.persisted && s.initialHired == s.hiredAt && s.initialActive && !s.isActive
    ensures var r := AfterSave(s, today);
      && |r.periods| == |s.periods|
      && (forall i :: 0 <= i < |s.periods| ==> (r.periods[i].start == s.periods[i].start &&
            r.periods[i].end == if s.periods[i].end.None? then Some(today) else s.periods[i].end))
      && Tracked(r.periods, false)
      && (s.account.Some? ==> r.account == Some(false))
  {
  }

  /** Activation with the hire date unchanged closes open periods at today and opens one at max(today, hire date). */
  lemma ActivationOpensOne(s: WorkerState, today: Date)
    requires s.persisted && s.initialHired == s.hiredAt && !s.initialActive && s.isActive
    ensures var r := AfterSave(s, today);
      && r.periods == CloseOpen(s.periods, today) + [Period(MaxDate(today, s.hiredAt), None)]
      && Tracked(r.periods, true)
      && r.account == s.account
  {
    OpenCountAppend(CloseOpen(s.periods, today), Period(MaxDate(today, s.hiredAt), None));
  }

  /**
   * A hire-date edit moves the start of exactly one period to the new date
   * (or creates the first one) and touches no end date, whether or not the
   * active flag changed too.
   */
  lemma HireDateMovesOneStart(s: WorkerState, today: Date)
    requires s.persisted && s.initialHired != s.hiredAt
    ensures |s.periods| == 0 ==>
      AfterSave(s, today).periods == [Period(s.hiredAt, if s.isActive then None else Some(s.hiredAt))]
    ensures |s.periods| > 0 ==>
      var r := AfterSave(s, today);
      var i := MovedIndex(s.periods, s.initialHired);
      && |r.periods| == |s.periods|
      && r.periods[i].start == s.hiredAt
      && (forall j :: 0 <= j < |s.periods| ==> r.periods[j].end == s.periods[j].end)
      && (forall j :: 0 <= j < |s.periods| && j != i ==> r.periods[j] == s.periods[j])
      && OpenCount(r.periods) == OpenCount(s.periods)
  {
    if |s.periods| > 0 {
      OpenCountMoveStart(s.periods, MovedIndex(s.periods, s.initialHired), s.hiredAt);
    }
  }

  /** A save that changes neither the hire date nor the status leaves the periods alone. */
  lemma UnchangedSaveKeepsPeriods(s: WorkerState, today: Date)
    requires s.persisted && s.initialHired == s.hiredAt && s.initialActive == s.isActive
    ensures AfterSave(s, today) == s
  {
  }

  /** Saving twice in a row: the second save changes nothing. */
  lemma SecondSaveIdle(s: WorkerState, today: Date, later: Date)
    ensures AfterSave(AfterSave(s, today), later) == AfterSave(s, today)
  {
    UnchangedSaveKeepsPeriods(AfterSave(s, today), later);
  }

  /**
   * Unless the hire date and the status change in the same save, saving keeps
   * exactly one open period for an active worker and none for an inactive one.
   */
  lemma SaveKeepsTracking(s: WorkerState, today: Date)
    requires !s.persisted ==> s.periods == []
    requires s.persisted ==> Tracked(s.periods, s.initialActive)
    requires !(s.persisted && s.initialHired != s.hiredAt && s.initialActive != s.isActive)
    ensures var r := AfterSave(s, today); Tracked(r.periods, r.isActive)
  {
    if !s.persisted {
      CreateStartsOnePeriod(s, today);
    } else if s.initialHired != s.hiredAt {
      HireDateMovesOneStart(s, today);
      if |s.periods| == 0 {
        OpenCountAppend([], FirstPeriod(s.hiredAt, s.isActive));
        assert [] + [FirstPeriod(s.hiredAt, s.isActive)] == [FirstPeriod(s.hiredAt, s.isActive)];
      }
    } else if s.initialActive != s.isActive {
      if s.isActive {
        ActivationOpensOne(s, today);
      }
    }
  }

  /**
   * The hire-date branch takes precedence: an active worker whose hire date
   * is edited and who is deactivated in the same save keeps an open period.
   */
  lemma HireDatePrecedence(s: WorkerState, today: Date)
    requires s == WorkerState(true, true, Date(2025, 3, 1), false, Date(2025, 2, 1),
                              Some(true), [Period(Date(2025, 3, 1), None)])
    ensures var r := AfterSave(s, today);
      && Tracked(s.periods, s.initialActive)
      && r.periods == [Period(Date(2025, 2, 1), None)]
      && !r.isActive && r.account == Some(false)
      && !Tracked(r.periods, r.isActive)
  {
    var one := [Period(Date(2025, 3, 1), None)];
    assert one[..0] == [];
    assert MovedIndex(one, Date(2025, 3, 1)) == 0;
    var moved := [Period(Date(2025, 2, 1), None)];
    assert moved[..0] == [];
  }

  /** A Worker instance whose `save` maintains its employment periods. */
  class WorkerRecord {
    var persisted: bool
    var initialActive: bool
    var initialHired: Date
    var isActive: bool
    var hiredAt: Date
    var account: Option<bool>
    var periods: seq<Period>

    function State(): WorkerState
      reads this
    {
      WorkerState(persisted, initialActive, initialHired, isActive, hiredAt, account, periods)
    }

    /** A worker that is not saved yet. */
    constructor (hiredAt: Date, isActive: bool, account: Option<bool>)
      ensures State() == WorkerState(false, isActive, hiredAt, isActive, hiredAt, account, [])
    {
      this.persisted := false;
      this.initialActive := isActive;
      this.initialHired := hiredAt;
      this.isActive := isActive;
      this.hiredAt := hiredAt;
      this.account := account;
      this.periods := [];
    }

    /** A worker loaded from the database: the remembered values are the stored ones. */
    constructor Load(hiredAt: Date, isActive: bool, account: Option<bool>, periods: seq<Period>)
      ensures State() == WorkerState(true, isActive, hiredAt, isActive, hiredAt, account, periods)
    {
      this.persisted := true;
      this.initialActive := isActive;
      this.initialHired := hiredAt;
      this.isActive := isActive;
      this.hiredAt := hiredAt;
      this.account := account;
      this.periods := periods;
    }

    method Save(today: Date)
      modifies this
      ensures State() == AfterSave(old(State()), today)
    {
      var isNew := !persisted;
      var oldActive := initialActive;
      var oldHired := initialHired;
      if !isNew && oldActive && !isActive && account.Some? {
        account := Some(false);
      }
      persisted := true;
      initialActive := isActive;
      initialHired := hiredAt;
      if isNew {
        periods := periods + [FirstPeriod(hiredAt, isActive)];
      } else if oldHired != hiredAt {
        if |periods| > 0 {
          var i := MovedIndex(periods, oldHired);
          periods := periods[i := periods[i].(start := hiredAt)];
        } else {
          periods := [FirstPeriod(hiredAt, isActive)];
        }
      } else if oldActive != isActive {
        periods := CloseOpen(periods, today);
        if isActive {
          periods := periods + [Period(MaxDate(today, hiredAt), None)];
        }
      }
    }
  }
}
