/**
 * Projects: the hours and expenses booked on a project, the project list
 * (the default project hidden, PLANNED before ACTIVE before COMPLETED, then
 * by name), the rule that an organization has at most one default project,
 * the refusal to delete it, and the month-by-month summary of a project.
 */
module Projects {
  import opened Calendar
  import opened Records
  import opened Lists

  datatype ProjectStatus = Planned | Active | Completed

  datatype Project = Project(id: ProjectId, org: OrgId, name: string, status: ProjectStatus, isDefault: bool)

  /** Hours logged on the project, from any worker; none gives 0. */
  function ProjectHours(logs: seq<LogRow>, p: ProjectId): Tenths {
    if |logs| == 0 then 0
    else
      var l := logs[|logs|-1];
      ProjectHours(logs[..|logs|-1], p) + (if l.project == Some(p) then l.hours else 0)
  }

  /** EXPENSE transactions booked on the project; refills and advances are not costs. */
  function ProjectExpense(txns: seq<Txn>, p: ProjectId): Grosze {
    if |txns| == 0 then 0
    else
      var t := txns[|txns|-1];
      ProjectExpense(txns[..|txns|-1], p) + (if t.project == Some(p) && t.kind == Expense then t.amount else 0)
  }

  datatype ProjectCosts = ProjectCosts(totalHours: Tenths, totalExpense: Grosze, totalProjectCost: Grosze)

  /** `annotate_project_costs`: the project's cost is its expenses, labour not included. */
  function Costs(logs: seq<LogRow>, txns: seq<Txn>, p: ProjectId): (c: ProjectCosts)
    ensures c.totalProjectCost == c.totalExpense
    ensures c.totalHours == ProjectHours(logs, p) && c.totalExpense == ProjectExpense(txns, p)
  {
    var expense := ProjectExpense(txns, p);
    ProjectCosts(ProjectHours(logs, p), expense, expense)
  }

  /** Booking a transaction raises a project's cost only when it is an expense of that project. */
  lemma CostAfterBooking(logs: seq<LogRow>, txns: seq<Txn>, t: Txn, p: ProjectId)
    ensures Costs(logs, txns + [t], p).totalProjectCost ==
      Costs(logs, txns, p).totalProjectCost + (if t.project == Some(p) && t.kind == Expense then t.amount else 0)
  {
    assert (txns + [t])[..|txns|] == txns;
  }

  /** Logging hours on one project leaves every other project's hours as they were. */
  lemma HoursAfterLogging(logs: seq<LogRow>, l: LogRow, p: ProjectId)
    ensures ProjectHours(logs + [l], p) == ProjectHours(logs, p) + (if l.project == Some(p) then l.hours else 0)
  {
    assert (logs + [l])[..|logs|] == logs;
  }

  /** The `status_order` of the list query. */
  function StatusOrder(s: ProjectStatus): int {
    match s
    case Planned => 1
    case Active => 2
    case Completed => 3
  }

  function ListKey(p: Project): SortKey {
    SortKey(StatusOrder(p.status), p.name, "")
  }

  /** `get_projects` without a search term. */
  function ListProjects(table: seq<Project>, org: OrgId): (r: seq<Project>)
    ensures forall p :: p in r <==> p in table && p.org == org && !p.isDefault
    ensures multiset(r) == multiset(Filter(table, (p: Project) => p.org == org && !p.isDefault))
    ensures forall i, j :: 0 <= i < j < |r| ==> KeyLe(ListKey(r[i]), ListKey(r[j]))
  {
    var shown := Filter(table, (p: Project) => p.org == org && !p.isDefault);
    var r := SortByKey(shown, ListKey);
    assert forall p :: p in r <==> p in multiset(r);
    assert forall p :: p in shown <==> p in multiset(shown);
    r
  }

  /** In the list, every planned project comes before every active one, and every active one before every completed one. */
  lemma ListByStatus(table: seq<Project>, org: OrgId, i: int, j: int)
    requires 0 <= i < j < |ListProjects(table, org)|
    ensures StatusOrder(ListProjects(table, org)[i].status) <= StatusOrder(ListProjects(table, org)[j].status)
  {
  }

  /** Two projects of equal status are listed by name. */
  lemma ListByName(table: seq<Project>, org: OrgId, i: int, j: int)
    requires 0 <= i < j < |ListProjects(table, org)|
    requires ListProjects(table, org)[i].status == ListProjects(table, org)[j].status
    ensures LexLe(ListProjects(table, org)[i].name, ListProjects(table, org)[j].name)
  {
    var name := ListProjects(table, org)[i].name;
    LexTotal(name, name);
  }

  /** No organization has two default projects. */
  predicate OneDefaultPerOrg(table: seq<Project>) {
    forall i, j :: 0 <= i < j < |table| && table[i].isDefault && table[j].isDefault ==>
      table[i].org != table[j].org
  }

  /** Project keys are unique and never 0. */
  predicate KeysValid(table: seq<Project>) {
    (forall i :: 0 <= i < |table| ==> table[i].id > 0) &&
    (forall i, j :: 0 <= i < j < |table| ==> table[i].id != table[j].id)
  }

  /** Every other default of the organization cleared, `exclude(pk=...)` sparing the row `spared`. */
  function ClearDefaults(table: seq<Project>, org: OrgId, spared: ProjectId): (r: seq<Project>)
    ensures |r| == |table|
    ensures forall i :: 0 <= i < |table| ==>
      r[i] == (if table[i].org == org && table[i].id != spared then table[i].(isDefault := false) else table[i])
  {
    seq(|table|, i requires 0 <= i < |table| =>
      if table[i].org == org && table[i].id != spared then table[i].(isDefault := false) else table[i])
  }

  /** The position of the project with key `id`. */
  function IndexOf(table: seq<Project>, id: ProjectId): (r: Option<nat>)
    ensures r.Some? ==> r.value < |table| && table[r.value].id == id
    ensures r.None? <==> forall i :: 0 <= i < |table| ==> table[i].id != id
  {
    if |table| == 0 then None
    else if table[0].id == id then Some(0)
    else match IndexOf(table[1..], id)
      case None => None
      case Some(i) => Some(i + 1)
  }

  /**
   * The table after `handle_project_form` saves project `p`: `edit` says
   * whether `p` is an existing row (with its key) or a new one (whose fresh
   * key `p.id` the database assigns).
   */
  function AfterSave(table: seq<Project>, p: Project, edit: bool): seq<Project>
    requires edit ==> IndexOf(table, p.id).Some?
  {
    var cleared := if p.isDefault then ClearDefaults(table, p.org, if edit then p.id else 0) else table;
    if edit then cleared[IndexOf(table, p.id).value := p] else cleared + [p]
  }

  /**
   * Saving a project keeps at most one default per organization, and a
   * project saved as default is then its organization's only default.
   */
  lemma SaveKeepsOneDefault(table: seq<Project>, p: Project, edit: bool)
    requires KeysValid(table) && OneDefaultPerOrg(table) && p.id > 0
    requires edit ==> IndexOf(table, p.id).Some?
    requires !edit ==> forall i :: 0 <= i < |table| ==> table[i].id != p.id
    ensures OneDefaultPerOrg(AfterSave(table, p, edit))
    ensures KeysValid(AfterSave(table, p, edit))
    ensures p in AfterSave(table, p, edit)
    ensures p.isDefault ==> forall q :: q in AfterSave(table, p, edit) && q.org == p.org && q.isDefault ==> q == p
  {
    var r := AfterSave(table, p, edit);
    var k := if edit then IndexOf(table, p.id).value else |table|;
    assert r[k] == p;
    forall i | 0 <= i < |r| && i != k
      ensures r[i].id == table[i].id && r[i].org == table[i].org
      ensures r[i].isDefault ==> table[i].isDefault
      ensures p.isDefault && r[i].org == p.org ==> !r[i].isDefault
    {
    }
    forall q | q in r && q.org == p.org && q.isDefault && p.isDefault ensures q == p {
      var i :| 0 <= i < |r| && r[i] == q;
    }
  }

  /** Removing a row keeps keys unique and below `bound`, and keeps one default per organization. */
  lemma RemoveKeepsValid(table: seq<Project>, i: int, bound: nat)
    requires 0 <= i < |table| && KeysValid(table) && OneDefaultPerOrg(table)
    requires forall k :: 0 <= k < |table| ==> table[k].id < bound
    ensures var r := table[..i] + table[i+1..];
      KeysValid(r) && OneDefaultPerOrg(r) && forall k :: 0 <= k < |r| ==> r[k].id < bound
  {
    var r := table[..i] + table[i+1..];
    assert forall k :: 0 <= k < |r| ==> r[k] == if k < i then table[k] else table[k + 1];
  }

  datatype DeleteOutcome = LoginRequired | NotFoundOrDefault | ProjectDeleted(p: Project)

  /** Summary of one month of a project. */
  datatype MonthSummary = MonthSummary(month: Date, totalHours: Tenths, totalExpense: Grosze)

  /** One row of a `values("month").annotate(Sum(...))` query: a month (its first day) and a total. */
  datatype MonthTotal = MonthTotal(month: Date, total: int)

  /** The total recorded for month `m` over the rows, 0 when none. */
  function TotalFor(rows: seq<MonthTotal>, m: Date): int {
    if |rows| == 0 then 0
    else TotalFor(rows[..|rows|-1], m) + (if rows[|rows|-1].month == m then rows[|rows|-1].total else 0)
  }

  predicate Mentions(rows: seq<MonthTotal>, m: Date) {
    exists i :: 0 <= i < |rows| && rows[i].month == m
  }

  /** `sorted(..., reverse=True)` on months: newest first. */
  function MonthKey(m: Date): SortKey {
    SortKey(-MonthIndex(m.year, m.month), "", "")
  }

  lemma MentionsPrefix(rows: seq<MonthTotal>, i: int, m: Date)
    requires 0 <= i < |rows|
    ensures Mentions(rows[..i+1], m) <==> Mentions(rows[..i], m) || rows[i].month == m
  {
    if Mentions(rows[..i+1], m) && rows[i].month != m {
      var k :| 0 <= k < i + 1 && rows[..i+1][k].month == m;
      assert rows[..i][k].month == m;
    }
    if Mentions(rows[..i], m) {
      var k :| 0 <= k < i && rows[..i][k].month == m;
      assert rows[..i+1][k].month == m;
    }
    if rows[i].month == m {
      assert rows[..i+1][i].month == m;
    }
  }

  /** The Project table, changed in place by the project views. */
  class ProjectBook {
    var table: seq<Project>
    var nextId: nat

    predicate Valid()
      reads this
    {
      KeysValid(table) && OneDefaultPerOrg(table) && nextId > 0 &&
      forall i :: 0 <= i < |table| ==> table[i].id < nextId
    }

    constructor ()
      ensures Valid() && table == []
    {
      table := [];
      nextId := 1;
    }

    /** `handle_project_form` for a new project of the organization, after a valid form. */
    method Create(org: OrgId, name: string, status: ProjectStatus, isDefault: bool) returns (p: Project)
      requires Valid()
      modifies this
      ensures Valid()
      ensures p.org == org && p.name == name && p.status == status && p.isDefault == isDefault
      ensures table == AfterSave(old(table), p, false)
    {
      p := Project(nextId, org, name, status, isDefault);
      SaveKeepsOneDefault(table, p, false);
      table := AfterSave(table, p, false);
      nextId := nextId + 1;
    }

    /** `handle_project_form` for an existing project, after a valid form; the organization does not change. */
    method Edit(id: ProjectId, name: string, status: ProjectStatus, isDefault: bool) returns (p: Project)
      requires Valid() && IndexOf(table, id).Some?
      modifies this
      ensures Valid()
      ensures p == old(table)[IndexOf(old(table), id).value].(name := name, status := status, isDefault := isDefault)
      ensures table == AfterSave(old(table), p, true)
    {
      var i := IndexOf(table, id).value;
      p := table[i].(name := name, status := status, isDefault := isDefault);
      SaveKeepsOneDefault(table, p, true);
      table := AfterSave(table, p, true);
    }

    /** `project_delete_view`: owners only, and never the default project. */
    method Delete(actor: Actor, id: ProjectId) returns (outcome: DeleteOutcome)
      requires Valid()
      modifies this
      ensures Valid()
      ensures outcome == LoginRequired <==> !actor.isOwner
      ensures !outcome.ProjectDeleted? ==> table == old(table)
      ensures outcome.ProjectDeleted? ==>
        && IndexOf(old(table), id).Some?
        && outcome.p == old(table)[IndexOf(old(table), id).value]
        && outcome.p.org == actor.org && !outcome.p.isDefault
        && table == old(table)[..IndexOf(old(table), id).value] + old(table)[IndexOf(old(table), id).value + 1..]
      ensures outcome == NotFoundOrDefault <==>
        && actor.isOwner
        && (|| IndexOf(old(table), id).None?
            || old(table)[IndexOf(old(table), id).value].org != actor.org
            || old(table)[IndexOf(old(table), id).value].isDefault)
    {
      if !actor.isOwner {
        return LoginRequired;
      }
      var found := IndexOf(table, id);
      if found.None? || table[found.value].org != actor.org || table[found.value].isDefault {
        return NotFoundOrDefault;
      }
      var i := found.value;
      outcome := ProjectDeleted(table[i]);
      RemoveKeepsValid(table, i, nextId);
      table := table[..i] + table[i+1..];
    }
  }

  /** One side of a month's entry in the summary dict: hours, or expenses. */
  function Part(v: (int, int), expense: bool): int {
    if expense then v.1 else v.0
  }

  /**
   * One loop of `project_detail_view` over a monthly query: each row's
   * month gets an entry (zeros on both sides) the first time it is seen,
   * in the dict's insertion order, and the row's total is added to one side.
   */
  method MergeMonths(rows: seq<MonthTotal>, totals0: map<Date, (int, int)>, order0: seq<Date>, expense: bool)
    returns (totals: map<Date, (int, int)>, order: seq<Date>)
    requires Distinct(order0) && forall m :: m in totals0 <==> m in order0
    ensures Distinct(order) && forall m :: m in totals <==> m in order
    ensures forall m :: m in totals <==> m in totals0 || Mentions(rows, m)
    ensures forall m :: m in totals ==>
      && Part(totals[m], expense) == (if m in totals0 then Part(totals0[m], expense) else 0) + TotalFor(rows, m)
      && Part(totals[m], !expense) == (if m in totals0 then Part(totals0[m], !expense) else 0)
  {
    totals, order := totals0, order0;
    for i := 0 to |rows|
      invariant Distinct(order) && forall m :: m in totals <==> m in order
      invariant forall m :: m in totals <==> m in totals0 || Mentions(rows[..i], m)
      invariant forall m :: m in totals ==>
        && Part(totals[m], expense) == (if m in totals0 then Part(totals0[m], expense) else 0) + TotalFor(rows[..i], m)
        && Part(totals[m], !expense) == (if m in totals0 then Part(totals0[m], !expense) else 0)
    {
      var m := rows[i].month;
      assert rows[..i+1][..i] == rows[..i];
      assert forall x :: (TotalFor(rows[..i+1], x) ==
        TotalFor(rows[..i], x) + (if x == m then rows[i].total else 0));
      forall x ensures Mentions(rows[..i+1], x) <==> Mentions(rows[..i], x) || x == m {
        MentionsPrefix(rows, i, x);
      }
      if m !in totals {
        NotMentionedTotal(rows[..i], m);
        totals := totals[m := (0, 0)];
        order := order + [m];
      }
      var v := totals[m];
      totals := totals[m := if expense then (v.0, v.1 + rows[i].total) else (v.0 + rows[i].total, v.1)];
    }
    assert rows[..|rows|] == rows;
  }

  /**
   * The month-by-month summary of `project_detail_view`: the months of the
   * hours query and of the expenses query merged, a month missing from one
   * side counting 0 there, newest month first.
   */
  method MonthlySummary(monthlyHours: seq<MonthTotal>, monthlyExpenses: seq<MonthTotal>)
    returns (summary: seq<MonthSummary>)
    ensures forall m :: (exists k :: 0 <= k < |summary| && summary[k].month == m) <==>
      Mentions(monthlyHours, m) || Mentions(monthlyExpenses, m)
    ensures forall k :: 0 <= k < |summary| ==>
      summary[k].totalHours == TotalFor(monthlyHours, summary[k].month) &&
      summary[k].totalExpense == TotalFor(monthlyExpenses, summary[k].month)
    ensures forall i, j :: 0 <= i < j < |summary| ==>
      summary[i].month != summary[j].month &&
      MonthIndex(summary[i].month.year, summary[i].month.month) >= MonthIndex(summary[j].month.year, summary[j].month.month)
  {
    var byHours, order0 := MergeMonths(monthlyHours, map[], [], false);
    var totals, order := MergeMonths(monthlyExpenses, byHours, order0, true);
    forall m | m in totals
      ensures totals[m] == (TotalFor(monthlyHours, m), TotalFor(monthlyExpenses, m))
    {
      if m !in byHours {
        NotMentionedTotal(monthlyHours, m);
      }
    }
    var months := SortByKey(order, MonthKey);
    NewestFirst(order, months);
    summary := SummaryRows(months, totals);
    forall m | Mentions(monthlyHours, m) || Mentions(monthlyExpenses, m)
      ensures exists k :: 0 <= k < |summary| && summary[k].month == m
    {
      var k :| 0 <= k < |months| && months[k] == m;
      assert summary[k].month == m;
    }
  }

  /** The sorted months are the dict's keys, each once, newest first. */
  lemma NewestFirst(order: seq<Date>, months: seq<Date>)
    requires Distinct(order) && months == SortByKey(order, MonthKey)
    ensures Distinct(months)
    ensures forall m :: m in months <==> m in order
    ensures forall i, j :: 0 <= i < j < |months| ==>
      MonthIndex(months[i].year, months[i].month) >= MonthIndex(months[j].year, months[j].month)
  {
    PermutationKeepsDistinct(order, months);
    assert forall m :: m in months <==> m in multiset(months);
    assert forall m :: m in order <==> m in multiset(order);
    forall i, j | 0 <= i < j < |months|
      ensures MonthIndex(months[i].year, months[i].month) >= MonthIndex(months[j].year, months[j].month)
    {
      assert KeyLe(MonthKey(months[i]), MonthKey(months[j]));
    }
  }

  /** The list comprehension over the sorted months. */
  function SummaryRows(months: seq<Date>, totals: map<Date, (int, int)>): (r: seq<MonthSummary>)
    requires forall m :: m in months ==> m in totals
    ensures |r| == |months|
    ensures forall k :: 0 <= k < |r| ==> r[k] == MonthSummary(months[k], totals[months[k]].0, totals[months[k]].1)
  {
    seq(|months|, k requires 0 <= k < |months| =>
      MonthSummary(months[k], totals[months[k]].0, totals[months[k]].1))
  }

  lemma {:induction false} NotMentionedTotal(rows: seq<MonthTotal>, m: Date)
    requires !Mentions(rows, m)
    ensures TotalFor(rows, m) == 0
  {
    if |rows| > 0 {
      var init := rows[..|rows|-1];
      forall k | 0 <= k < |init| ensures init[k].month != m {
        assert init[k] == rows[k];
      }
      NotMentionedTotal(init, m);
      assert rows[|rows|-1].month != m;
    }
  }
}
