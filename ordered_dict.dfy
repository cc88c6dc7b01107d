/** Python dictionaries as the source uses them: insertion-ordered, one entry per
    key, `d.get(k, default)` and `d[k] = v` (which replaces the value in place
    when the key exists and appends the entry otherwise). */
module OrderedDict {

  function Keys<K, V>(d: seq<(K, V)>): (r: seq<K>)
    ensures |r| == |d|
    ensures forall i {:trigger r[i]} :: 0 <= i < |d| ==> r[i] == d[i].0
  {
    if d == [] then [] else [d[0].0] + Keys(d[1..])
  }

  predicate HasKey<K(==), V>(d: seq<(K, V)>, k: K)
  {
    k in Keys(d)
  }

  /** A dictionary: no key occurs twice. */
  ghost predicate UniqueKeys<K, V>(d: seq<(K, V)>)
  {
    forall i, j :: 0 <= i < j < |d| ==> d[i].0 != d[j].0
  }

  /** `d.get(k, dflt)`. */
  function Get<K(==), V>(d: seq<(K, V)>, k: K, dflt: V): V
  {
    if d == [] then dflt
    else if d[0].0 == k then d[0].1
    else Get(d[1..], k, dflt)
  }

  /** `d[k] = v`. */
  function Set<K(==), V>(d: seq<(K, V)>, k: K, v: V): (r: seq<(K, V)>)
    ensures |r| == (if HasKey(d, k) then |d| else |d| + 1)
  {
    if d == [] then [(k, v)]
    else if d[0].0 == k then [(k, v)] + d[1..]
    else [d[0]] + Set(d[1..], k, v)
  }

  // ---------------------------------------------------------------------------

  /** A present key's value is found by `get`; an absent key yields the default. */
  lemma {:induction false} GetFinds<K, V>(d: seq<(K, V)>, i: nat, dflt: V)
    requires UniqueKeys(d) && i < |d|
    ensures Get(d, d[i].0, dflt) == d[i].1
  {
    if i > 0 {
      GetFinds(d[1..], i - 1, dflt);
    }
  }

  lemma {:induction false} GetAbsent<K, V>(d: seq<(K, V)>, k: K, dflt: V)
    requires !HasKey(d, k)
    ensures Get(d, k, dflt) == dflt
  {
    if d != [] {
      assert Keys(d) == [d[0].0] + Keys(d[1..]);
      GetAbsent(d[1..], k, dflt);
    }
  }

  /** After `d[k] = v`, `d.get(k)` is `v` and every other key keeps its value. */
  lemma {:induction false} GetSet<K, V>(d: seq<(K, V)>, k: K, v: V, k': K, dflt: V)
    ensures Get(Set(d, k, v), k', dflt) == if k' == k then v else Get(d, k', dflt)
  {
    if d != [] && d[0].0 != k {
      GetSet(d[1..], k, v, k', dflt);
    }
  }

  /** `d[k] = v` keeps the key order: an existing key stays where it is, a new
      one goes last. */
  lemma {:induction false} SetKeys<K, V>(d: seq<(K, V)>, k: K, v: V)
    ensures Keys(Set(d, k, v)) == if HasKey(d, k) then Keys(d) else Keys(d) + [k]
  {
    if d != [] {
      assert Keys(d) == [d[0].0] + Keys(d[1..]);
      if d[0].0 != k {
        SetKeys(d[1..], k, v);
        assert Keys(Set(d, k, v)) == [d[0].0] + Keys(Set(d[1..], k, v));
      } else {
        assert Keys(Set(d, k, v)) == [k] + Keys(d[1..]);
      }
    }
  }

  /** A new key is appended at the end. */
  lemma {:induction false} SetNewKey<K, V>(d: seq<(K, V)>, k: K, v: V)
    requires !HasKey(d, k)
    ensures Set(d, k, v) == d + [(k, v)]
  {
    if d != [] {
      assert Keys(d) == [d[0].0] + Keys(d[1..]);
      SetNewKey(d[1..], k, v);
      assert [d[0]] + (d[1..] + [(k, v)]) == d + [(k, v)];
    }
  }

  /** `d[k] = v` on an existing key replaces the value at its first position. */
  lemma {:induction false} SetExistingKey<K, V>(d: seq<(K, V)>, i: nat, v: V)
    requires i < |d| && forall j :: 0 <= j < i ==> d[j].0 != d[i].0
    ensures Set(d, d[i].0, v) == d[i := (d[i].0, v)]
  {
    var k := d[i].0;
    if i == 0 {
      assert [(k, v)] + d[1..] == d[0 := (k, v)];
    } else {
      var t := d[1..];
      assert t[i - 1] == d[i];
      assert forall j :: 0 <= j < i - 1 ==> t[j] == d[j + 1];
      SetExistingKey(t, i - 1, v);
      ConsUpdate(d, i, (k, v));
    }
  }

  /** Updating the tail of `d` at `i - 1` is updating `d` at `i`. */
  lemma ConsUpdate<E>(d: seq<E>, i: nat, e: E)
    requires 0 < i < |d|
    ensures [d[0]] + d[1..][i - 1 := e] == d[i := e]
  {
  }

  /** Assignment keeps the keys unique. */
  lemma SetUnique<K, V>(d: seq<(K, V)>, k: K, v: V)
    requires UniqueKeys(d)
    ensures UniqueKeys(Set(d, k, v))
  {
    SetKeys(d, k, v);
    var r := Set(d, k, v);
    assert Keys(r) == if HasKey(d, k) then Keys(d) else Keys(d) + [k];
    forall i, j | 0 <= i < j < |r|
      ensures r[i].0 != r[j].0
    {
      assert r[i].0 == Keys(r)[i] && r[j].0 == Keys(r)[j];
      if !HasKey(d, k) && j == |d| {
        assert Keys(r)[i] == Keys(d)[i];
      }
    }
  }

  /** In a dictionary the last key does not occur before it. */
  lemma LastKeyIsNew<K, V>(d: seq<(K, V)>)
    requires UniqueKeys(d) && d != []
    ensures !HasKey(d[..|d| - 1], d[|d| - 1].0)
    ensures UniqueKeys(d[..|d| - 1])
  {
    var init := d[..|d| - 1];
    forall j | 0 <= j < |init|
      ensures Keys(init)[j] != d[|d| - 1].0
    {
      assert Keys(init)[j] == d[j].0;
    }
  }
}
