/**
 * The vacation validator (`Vacation.clean`): a vacation must not end before
 * it starts and must not overlap, bounds included, another vacation of the
 * same worker. When an existing vacation is edited, its own row is not
 * counted as a conflict.
 */
module Vacations {
  import opened Calendar
  import opened Records
  import opened Lists

  datatype VacationCheck = StartAfterEnd | Overlapping | Accepted

  /** The two date ranges share at least one day. */
  predicate Overlap(a: Vacation, b: Vacation) {
    AtOrBefore(a.start, b.end) && AtOrBefore(b.start, a.end)
  }

  /**
   * `o` is a row the overlap query of `v` returns: same worker, an
   * overlapping range, and not `v` itself when `v` is already saved.
   */
  predicate Conflicts(o: Vacation, v: Vacation) {
    o.worker == v.worker && Overlap(o, v) && !(v.id.Some? && o.id == v.id)
  }

  /** `clean` against the saved vacations `table`. */
  function CheckVacation(v: Vacation, table: seq<Vacation>): (r: VacationCheck)
    ensures r == StartAfterEnd <==> Before(v.end, v.start)
    ensures r == Overlapping <==>
      !Before(v.end, v.start) && exists i :: 0 <= i < |table| && Conflicts(table[i], v)
    ensures r == Accepted <==>
      !Before(v.end, v.start) && forall i :: 0 <= i < |table| ==> !Conflicts(table[i], v)
  {
    if Before(v.end, v.start) then StartAfterEnd
    else
      var overlapping := Filter(table, (o: Vacation) => Conflicts(o, v));
      if |overlapping| > 0 then
        assert overlapping[0] in overlapping;
        Overlapping
      else
        assert forall i :: 0 <= i < |table| ==> table[i] in table;
        Accepted
  }

  /** No two saved vacations of the same worker overlap, and saved rows have distinct ids. */
  predicate Disjoint(table: seq<Vacation>) {
    forall i, j :: 0 <= i < j < |table| ==>
      table[i].id != table[j].id && (table[i].worker == table[j].worker ==> !Overlap(table[i], table[j]))
  }

  /** Saving a new vacation that `clean` accepted keeps the table disjoint. */
  lemma AcceptedInsertKeepsDisjoint(table: seq<Vacation>, v: Vacation, id: nat)
    requires Disjoint(table)
    requires v.id.None? && CheckVacation(v, table) == Accepted
    requires forall i :: 0 <= i < |table| ==> table[i].id != Some(id)
    ensures Disjoint(table + [v.(id := Some(id))])
  {
    var t := table + [v.(id := Some(id))];
    forall i, j | 0 <= i < j < |t|
      ensures t[i].id != t[j].id && (t[i].worker == t[j].worker ==> !Overlap(t[i], t[j]))
    {
      if j == |table| {
        assert !Conflicts(table[i], v);
      }
    }
  }

  /** Saving an edit of a saved vacation that `clean` accepted keeps the table disjoint. */
  lemma AcceptedEditKeepsDisjoint(table: seq<Vacation>, k: int, v: Vacation)
    requires Disjoint(table)
    requires 0 <= k < |table| && v.id == table[k].id && v.id.Some?
    requires CheckVacation(v, table) == Accepted
    ensures Disjoint(table[k := v])
  {
    var t := table[k := v];
    forall i, j | 0 <= i < j < |t|
      ensures t[i].id != t[j].id && (t[i].worker == t[j].worker ==> !Overlap(t[i], t[j]))
    {
      if i == k {
        assert !Conflicts(table[j], v);
      } else if j == k {
        assert !Conflicts(table[i], v);
      }
    }
  }

  /** In a disjoint table, no day of a worker is covered by two vacations. */
  lemma {:induction false} OneVacationPerDay(table: seq<Vacation>, worker: WorkerId, d: Date, i: int, j: int)
    requires Disjoint(table)
    requires 0 <= i < |table| && 0 <= j < |table|
    requires table[i].worker == worker && table[j].worker == worker
    requires AtOrBefore(table[i].start, d) && AtOrBefore(d, table[i].end)
    requires AtOrBefore(table[j].start, d) && AtOrBefore(d, table[j].end)
    ensures i == j
  {
    if i != j {
      var a, b := table[i], table[j];
      AtOrBeforeTransitive(a.start, d, b.end);
      AtOrBeforeTransitive(b.start, d, a.end);
      assert Overlap(a, b);
    }
  }

  lemma AtOrBeforeTransitive(a: Date, b: Date, c: Date)
    requires AtOrBefore(a, b) && AtOrBefore(b, c)
    ensures AtOrBefore(a, c)
  {
  }
}
