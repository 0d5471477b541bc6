/**
 * Sequence helpers shared by the list views: filtering a query result,
 * Python's `sorted`/`list.sort` by a key tuple and the database's ORDER BY,
 * modelled as an insertion sort under a total preorder, and the
 * character-by-character order of names.
 */
module Lists {

  /** The elements of `s` that satisfy `p`, in their original order. */
  function Filter<T(!new)>(s: seq<T>, p: T -> bool): (r: seq<T>)
    ensures forall x :: x in r <==> x in s && p(x)
    ensures |r| <= |s|
  {
    if s == [] then []
    else if p(s[0]) then [s[0]] + Filter(s[1..], p)
    else Filter(s[1..], p)
  }

  ghost predicate Total<T(!new)>(le: (T, T) -> bool) {
    forall a, b :: le(a, b) || le(b, a)
  }

  ghost predicate Transitive<T(!new)>(le: (T, T) -> bool) {
    forall a, b, c :: le(a, b) && le(b, c) ==> le(a, c)
  }

  predicate SortedBy<T>(s: seq<T>, le: (T, T) -> bool) {
    forall i, j :: 0 <= i < j < |s| ==> le(s[i], s[j])
  }

  /** Inserts `x` before the first element it does not come after. */
  function InsertBy<T>(x: T, s: seq<T>, le: (T, T) -> bool): (r: seq<T>)
    ensures multiset(r) == multiset(s) + multiset{x}
  {
    if s == [] then [x]
    else if le(x, s[0]) then [x] + s
    else
      assert s == [s[0]] + s[1..];
      [s[0]] + InsertBy(x, s[1..], le)
  }

  function SortBy<T>(s: seq<T>, le: (T, T) -> bool): (r: seq<T>)
    ensures multiset(r) == multiset(s)
  {
    if s == [] then []
    else
      assert s == [s[0]] + s[1..];
      InsertBy(s[0], SortBy(s[1..], le), le)
  }

  lemma {:induction false} InsertSorted<T(!new)>(x: T, s: seq<T>, le: (T, T) -> bool)
    requires Total(le) && Transitive(le) && SortedBy(s, le)
    ensures SortedBy(InsertBy(x, s, le), le)
  {
    if s != [] && !le(x, s[0]) {
      InsertSorted(x, s[1..], le);
      var r := InsertBy(x, s[1..], le);
      assert multiset(r) == multiset(s[1..]) + multiset{x};
      forall j | 0 <= j < |r| ensures le(s[0], r[j]) {
        assert r[j] in multiset(r);
        if r[j] != x {
          assert r[j] in multiset(s[1..]);
          var k :| 0 <= k < |s[1..]| && s[1..][k] == r[j];
          assert s[k + 1] == r[j];
        }
      }
    }
  }

  /** Insertion sort puts any sequence in order under a total preorder. */
  lemma {:induction false} SortSorted<T(!new)>(s: seq<T>, le: (T, T) -> bool)
    requires Total(le) && Transitive(le)
    ensures SortedBy(SortBy(s, le), le)
  {
    if s != [] {
      SortSorted(s[1..], le);
      InsertSorted(s[0], SortBy(s[1..], le), le);
    }
  }

  /** Character-by-character order of strings, a prefix first. */
  predicate LexLe(a: string, b: string)
    decreases |a|
  {
    |a| == 0 || (|b| > 0 && (a[0] < b[0] || (a[0] == b[0] && LexLe(a[1..], b[1..]))))
  }

  lemma {:induction false} LexTotal(a: string, b: string)
    ensures LexLe(a, b) || LexLe(b, a)
    decreases |a|
  {
    if |a| > 0 && |b| > 0 && a[0] == b[0] {
      LexTotal(a[1..], b[1..]);
    }
  }

  lemma {:induction false} LexTransitive(a: string, b: string, c: string)
    requires LexLe(a, b) && LexLe(b, c)
    ensures LexLe(a, c)
    decreases |a|
  {
    if |a| > 0 && a[0] == b[0] && b[0] == c[0] {
      LexTransitive(a[1..], b[1..], c[1..]);
    }
  }

  lemma {:induction false} LexAntisymmetric(a: string, b: string)
    requires LexLe(a, b) && LexLe(b, a)
    ensures a == b
    decreases |a|
  {
    if |a| > 0 {
      LexAntisymmetric(a[1..], b[1..]);
      assert a == [a[0]] + a[1..] && b == [b[0]] + b[1..];
    }
  }

  /** A sort key as the views build it: a number, then two names. */
  datatype SortKey = SortKey(rank: int, primary: string, secondary: string)

  /** Python's order on the tuple `(rank, primary, secondary)`. */
  predicate KeyLe(a: SortKey, b: SortKey) {
    a.rank < b.rank
    || (a.rank == b.rank
        && ((LexLe(a.primary, b.primary) && a.primary != b.primary)
            || (a.primary == b.primary && LexLe(a.secondary, b.secondary))))
  }

  lemma KeyLeTotal(a: SortKey, b: SortKey)
    ensures KeyLe(a, b) || KeyLe(b, a)
  {
    LexTotal(a.primary, b.primary);
    LexTotal(a.secondary, b.secondary);
  }

  lemma KeyLeTransitive(a: SortKey, b: SortKey, c: SortKey)
    requires KeyLe(a, b) && KeyLe(b, c)
    ensures KeyLe(a, c)
  {
    if a.rank == b.rank == c.rank {
      if LexLe(a.primary, b.primary) && LexLe(b.primary, c.primary) {
        LexTransitive(a.primary, b.primary, c.primary);
        if a.primary == c.primary {
          LexAntisymmetric(a.primary, b.primary);
        }
      }
      if a.primary == b.primary == c.primary {
        LexTransitive(a.secondary, b.secondary, c.secondary);
      }
    }
  }

  /** `sorted(s, key=key)`: a permutation of `s` in ascending key order. */
  function SortByKey<T(!new)>(s: seq<T>, key: T -> SortKey): (r: seq<T>)
    ensures multiset(r) == multiset(s)
    ensures forall i, j :: 0 <= i < j < |r| ==> KeyLe(key(r[i]), key(r[j]))
  {
    var le := (a: T, b: T) => KeyLe(key(a), key(b));
    assert Total(le) by {
      forall a: T, b: T ensures le(a, b) || le(b, a) {
        KeyLeTotal(key(a), key(b));
      }
    }
    assert Transitive(le) by {
      forall a: T, b: T, c: T | le(a, b) && le(b, c) ensures le(a, c) {
        KeyLeTransitive(key(a), key(b), key(c));
      }
    }
    SortSorted(s, le);
    SortBy(s, le)
  }
  /** No element occurs twice. */
  predicate Distinct<T(==)>(s: seq<T>) {
    forall i, j :: 0 <= i < j < |s| ==> s[i] != s[j]
  }

  lemma {:induction false} DistinctOnce<T>(s: seq<T>, x: T)
    requires Distinct(s)
    ensures multiset(s)[x] <= 1
  {
    if s != [] {
      assert s == [s[0]] + s[1..];
      DistinctOnce(s[1..], x);
      if s[0] == x {
        assert x !in s[1..];
      }
    }
  }

  /** A permutation of a sequence without repeats has no repeats either. */
  lemma PermutationKeepsDistinct<T>(s: seq<T>, r: seq<T>)
    requires Distinct(s) && multiset(r) == multiset(s)
    ensures Distinct(r)
  {
    forall i, j | 0 <= i < j < |r| ensures r[i] != r[j] {
      if r[i] == r[j] {
        var x := r[i];
        assert r == r[..j] + [r[j]] + r[j+1..];
        assert x in r[..j];
        assert multiset(r)[x] >= 2;
        DistinctOnce(s, x);
        assert false;
      }
    }
  }
}
