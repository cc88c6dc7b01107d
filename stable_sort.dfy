/** A stable insertion sort over a caller-supplied "sorts no later than" relation.

    It stands for every library sort the source relies on: `np.sort`, the
    multi-column `DataFrame.sort_values`, `list.sort(key=...)` and `sorted(key=...)`.
    Python's sorts and pandas' multi-column sort are stable: elements whose keys
    are equal keep their input order, which `SortPreservesClasses` states. */
module StableSort {

  /** `le` is total and transitive: a key comparison. */
  ghost predicate TotalPreorder<T(!new)>(le: (T, T) -> bool)
  {
    && (forall a, b :: le(a, b) || le(b, a))
    && (forall a, b, c :: le(a, b) && le(b, c) ==> le(a, c))
  }

  /** `le` also identifies elements with equal keys: the key is the whole element. */
  ghost predicate TotalOrder<T(!new)>(le: (T, T) -> bool)
  {
    && TotalPreorder(le)
    && (forall a, b :: le(a, b) && le(b, a) ==> a == b)
  }

  ghost predicate SortedBy<T>(s: seq<T>, le: (T, T) -> bool)
  {
    forall i, j :: 0 <= i < j < |s| ==> le(s[i], s[j])
  }

  /** Equal keys. */
  predicate Equiv<T>(le: (T, T) -> bool, a: T, b: T)
  {
    le(a, b) && le(b, a)
  }

  /** The elements of `s` whose key equals the key of `k`, in their order in `s`. */
  function ClassOf<T>(s: seq<T>, le: (T, T) -> bool, k: T): (r: seq<T>)
    ensures |r| <= |s|
  {
    if s == [] then []
    else (if Equiv(le, s[0], k) then [s[0]] else []) + ClassOf(s[1..], le, k)
  }

  /** Inserts `x` before the first element it does not sort after. */
  function Insert<T>(x: T, s: seq<T>, le: (T, T) -> bool): (r: seq<T>)
    ensures |r| == |s| + 1
    ensures multiset(r) == multiset(s) + multiset{x}
  {
    if s == [] then [x]
    else if le(x, s[0]) then [x] + s
    else
      assert s == [s[0]] + s[1..];
      [s[0]] + Insert(x, s[1..], le)
  }

  function Sort<T>(s: seq<T>, le: (T, T) -> bool): (r: seq<T>)
    ensures |r| == |s|
    ensures multiset(r) == multiset(s)
  {
    if s == [] then []
    else
      assert s == [s[0]] + s[1..];
      Insert(s[0], Sort(s[1..], le), le)
  }

  lemma {:induction false} InsertSorted<T(!new)>(x: T, s: seq<T>, le: (T, T) -> bool)
    requires TotalPreorder(le)
    requires SortedBy(s, le)
    ensures SortedBy(Insert(x, s, le), le)
  {
    if s != [] && !le(x, s[0]) {
      InsertSorted(x, s[1..], le);
      var r := Insert(x, s, le);
      var t := Insert(x, s[1..], le);
      assert r == [s[0]] + t;
      forall j | 0 < j < |r|
        ensures le(r[0], r[j])
      {
        assert r[j] == t[j - 1];
        assert r[j] in multiset(t);
        assert r[j] in multiset(s[1..]) + multiset{x};
        if r[j] == x {
          assert le(s[0], x);
        } else {
          assert r[j] in multiset(s[1..]);
          var k :| 0 <= k < |s[1..]| && s[1..][k] == r[j];
          assert s[k + 1] == r[j];
        }
      }
    }
  }

  /** The sort's output is ordered by `le`. */
  lemma {:induction false} SortSorted<T(!new)>(s: seq<T>, le: (T, T) -> bool)
    requires TotalPreorder(le)
    ensures SortedBy(Sort(s, le), le)
  {
    if s != [] {
      SortSorted(s[1..], le);
      InsertSorted(s[0], Sort(s[1..], le), le);
    }
  }

  lemma {:induction false} ClassOfAppend<T>(a: seq<T>, b: seq<T>, le: (T, T) -> bool, k: T)
    ensures ClassOf(a + b, le, k) == ClassOf(a, le, k) + ClassOf(b, le, k)
  {
    if a == [] {
      assert a + b == b;
    } else {
      var h := if Equiv(le, a[0], k) then [a[0]] else [];
      assert (a + b)[0] == a[0];
      assert (a + b)[1..] == a[1..] + b;
      assert ClassOf(a + b, le, k) == h + ClassOf(a[1..] + b, le, k);
      assert ClassOf(a, le, k) == h + ClassOf(a[1..], le, k);
      ClassOfAppend(a[1..], b, le, k);
      assert h + (ClassOf(a[1..], le, k) + ClassOf(b, le, k)) == (h + ClassOf(a[1..], le, k)) + ClassOf(b, le, k);
    }
  }

  /** An element that sorts strictly before `x` is not in the class of `x`. */
  lemma BeforeIsOutsideClass<T(!new)>(x: T, y: T, le: (T, T) -> bool, k: T)
    requires TotalPreorder(le)
    requires !le(x, y) && Equiv(le, x, k)
    ensures !Equiv(le, y, k)
  {
  }

  lemma ClassOfCons<T>(y: T, t: seq<T>, le: (T, T) -> bool, k: T)
    ensures ClassOf([y] + t, le, k) == (if Equiv(le, y, k) then [y] else []) + ClassOf(t, le, k)
  {
    assert ([y] + t)[0] == y;
    assert ([y] + t)[1..] == t;
  }

  lemma {:induction false} InsertClass<T(!new)>(x: T, s: seq<T>, le: (T, T) -> bool, k: T)
    requires TotalPreorder(le)
    ensures Equiv(le, x, k) ==> ClassOf(Insert(x, s, le), le, k) == [x] + ClassOf(s, le, k)
    ensures !Equiv(le, x, k) ==> ClassOf(Insert(x, s, le), le, k) == ClassOf(s, le, k)
  {
    if s == [] {
      assert Insert(x, s, le) == [x] + s;
      ClassOfCons(x, s, le, k);
    } else if le(x, s[0]) {
      assert Insert(x, s, le) == [x] + s;
      ClassOfCons(x, s, le, k);
    } else {
      InsertClass(x, s[1..], le, k);
      var t := Insert(x, s[1..], le);
      assert Insert(x, s, le) == [s[0]] + t;
      ClassOfCons(s[0], t, le, k);
      assert s == [s[0]] + s[1..];
      ClassOfCons(s[0], s[1..], le, k);
      if Equiv(le, x, k) {
        BeforeIsOutsideClass(x, s[0], le, k);
      }
    }
  }

  /** Stability: within each class of equal keys the input order survives. */
  lemma {:induction false} SortPreservesClasses<T(!new)>(s: seq<T>, le: (T, T) -> bool, k: T)
    requires TotalPreorder(le)
    ensures ClassOf(Sort(s, le), le, k) == ClassOf(s, le, k)
  {
    if s != [] {
      SortPreservesClasses(s[1..], le, k);
      InsertClass(s[0], Sort(s[1..], le), le, k);
    }
  }

  /** Two sorted permutations of each other start with the same element. */
  lemma SortedHeads<T(!new)>(a: seq<T>, b: seq<T>, le: (T, T) -> bool)
    requires TotalOrder(le)
    requires SortedBy(a, le) && SortedBy(b, le)
    requires multiset(a) == multiset(b) && a != []
    ensures b != [] && a[0] == b[0]
  {
    assert a[0] in multiset(b);
    var j :| 0 <= j < |b| && b[j] == a[0];
    assert b[0] in multiset(a);
    var i :| 0 <= i < |a| && a[i] == b[0];
    assert le(a[0], a[i]);
    assert le(b[0], b[j]);
  }

  lemma TailMultiset<T>(a: seq<T>, b: seq<T>)
    requires a != [] && b != [] && a[0] == b[0]
    requires multiset(a) == multiset(b)
    ensures multiset(a[1..]) == multiset(b[1..])
  {
    assert a == [a[0]] + a[1..];
    assert b == [b[0]] + b[1..];
    assert multiset(a) == multiset{a[0]} + multiset(a[1..]);
    assert multiset(b) == multiset{b[0]} + multiset(b[1..]);
    assert multiset(a[1..]) == multiset(a) - multiset{a[0]};
    assert multiset(b[1..]) == multiset(b) - multiset{b[0]};
  }

  lemma SortedTail<T>(a: seq<T>, le: (T, T) -> bool)
    requires SortedBy(a, le) && a != []
    ensures SortedBy(a[1..], le)
  {
    forall i, j | 0 <= i < j < |a[1..]|
      ensures le(a[1..][i], a[1..][j])
    {
      assert a[1..][i] == a[i + 1] && a[1..][j] == a[j + 1];
    }
  }

  /** Under a total order, a sorted permutation is unique. */
  lemma {:induction false} SortedUnique<T(!new)>(a: seq<T>, b: seq<T>, le: (T, T) -> bool)
    requires TotalOrder(le)
    requires SortedBy(a, le) && SortedBy(b, le)
    requires multiset(a) == multiset(b)
    ensures a == b
    decreases |a|
  {
    if a == [] {
      assert |b| == |multiset(b)| == |multiset(a)| == 0;
    } else {
      SortedHeads(a, b, le);
      TailMultiset(a, b);
      SortedTail(a, le);
      SortedTail(b, le);
      SortedUnique(a[1..], b[1..], le);
      assert a == [a[0]] + a[1..];
      assert b == [b[0]] + b[1..];
    }
  }

  /** Sorting under a total order depends only on the multiset of the input. */
  lemma SortDeterminedByMultiset<T(!new)>(a: seq<T>, b: seq<T>, le: (T, T) -> bool)
    requires TotalOrder(le)
    requires multiset(a) == multiset(b)
    ensures Sort(a, le) == Sort(b, le)
  {
    SortSorted(a, le);
    SortSorted(b, le);
    SortedUnique(Sort(a, le), Sort(b, le), le);
  }
}
