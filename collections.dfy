/**
 * Generic list helpers shared by the environments: projecting a list through a
 * key, Kotlin's `distinctBy` (which is also the key order of `groupBy`), and
 * the position of the first element carrying a key.
 */
module Collections {

  datatype Option<T> = None | Some(value: T)

  /** `list.map(f)`. */
  function Project<T, K>(s: seq<T>, f: T -> K): (r: seq<K>)
    ensures |r| == |s|
    ensures forall i :: 0 <= i < |s| ==> r[i] == f(s[i])
  {
    seq(|s|, i requires 0 <= i < |s| => f(s[i]))
  }

  /** No two elements of `s` are equal. */
  ghost predicate Distinct<K>(s: seq<K>)
  {
    forall i, j :: 0 <= i < j < |s| ==> s[i] != s[j]
  }

  /** The tail of a distinct sequence is distinct and misses its head. */
  lemma DistinctTail<K>(s: seq<K>, x: K)
    requires Distinct(s) && s != []
    ensures Distinct(s[1..]) && s[0] !in s[1..]
    ensures x in s <==> x == s[0] || x in s[1..]
  {
    forall i | 0 <= i < |s[1..]| ensures s[1..][i] != s[0] {
      assert s[1..][i] == s[i + 1];
    }
    assert s == [s[0]] + s[1..];
  }

  /**
   * `s.distinctBy(key)`: keeps the first element seen for every key, in the
   * order the keys first appear. Written from the end of the list, as the
   * left-to-right scan with a "seen" set that Kotlin performs.
   */
  function DistinctBy<T, K(==)>(s: seq<T>, key: T -> K): (r: seq<T>)
    ensures forall x :: x in r ==> x in s
    ensures forall x :: x in s ==> key(x) in Project(r, key)
    ensures Distinct(Project(r, key))
    decreases |s|
  {
    if s == [] then []
    else
      var init := s[..|s| - 1];
      var d := DistinctBy(init, key);
      assert forall x :: x in s ==> x in init || x == s[|s| - 1];
      if key(s[|s| - 1]) in Project(d, key) then d
      else
        assert Project(d + [s[|s| - 1]], key) == Project(d, key) + [key(s[|s| - 1])];
        d + [s[|s| - 1]]
  }

  /** Index of the first element of `s` whose key is `k`, or `|s|` when there is none. */
  function FirstIndex<T, K(==)>(s: seq<T>, key: T -> K, k: K): (i: nat)
    ensures i <= |s|
    ensures i < |s| ==> key(s[i]) == k
    ensures forall j :: 0 <= j < i ==> key(s[j]) != k
    decreases |s|
  {
    if s == [] then 0
    else
      var i := FirstIndex(s[..|s| - 1], key, k);
      if i < |s| - 1 then i
      else if key(s[|s| - 1]) == k then |s| - 1
      else |s|
  }

  /**
   * `distinctBy` keeps, for every key, exactly the first element carrying it,
   * and lists those elements in the order of their first appearance.
   */
  lemma DistinctByFirstAppearance<T, K>(s: seq<T>, key: T -> K)
    ensures var r := DistinctBy(s, key);
      forall i :: 0 <= i < |r| ==>
        FirstIndex(s, key, key(r[i])) < |s| && s[FirstIndex(s, key, key(r[i]))] == r[i]
    ensures var r := DistinctBy(s, key);
      forall i, j :: 0 <= i < j < |r| ==>
        FirstIndex(s, key, key(r[i])) < FirstIndex(s, key, key(r[j]))
  {
    var r := DistinctBy(s, key);
    forall i | 0 <= i < |r|
      ensures FirstIndex(s, key, key(r[i])) < |s| && s[FirstIndex(s, key, key(r[i]))] == r[i]
    {
      DistinctByFirst(s, key, i);
    }
    forall i, j | 0 <= i < j < |r|
      ensures FirstIndex(s, key, key(r[i])) < FirstIndex(s, key, key(r[j]))
    {
      DistinctByOrder(s, key, i, j);
    }
  }

  /** `distinctBy` on a list with one more element at the end. */
  lemma DistinctBySnoc<T, K>(s: seq<T>, key: T -> K)
    requires s != []
    ensures var init, x := s[..|s| - 1], s[|s| - 1];
      DistinctBy(s, key) ==
        if key(x) in Project(DistinctBy(init, key), key) then DistinctBy(init, key)
        else DistinctBy(init, key) + [x]
  {
  }

  lemma SplitLast<T>(s: seq<T>)
    requires s != []
    ensures s == s[..|s| - 1] + [s[|s| - 1]]
  {
  }

  lemma {:induction false} DistinctByFirst<T, K>(s: seq<T>, key: T -> K, i: nat)
    requires i < |DistinctBy(s, key)|
    ensures var r := DistinctBy(s, key);
      FirstIndex(s, key, key(r[i])) < |s| && s[FirstIndex(s, key, key(r[i]))] == r[i]
    decreases |s|
  {
    var n := |s| - 1;
    var init, x := s[..n], s[n];
    var d := DistinctBy(init, key);
    var r := DistinctBy(s, key);
    DistinctBySnoc(s, key);
    SplitLast(s);
    if i < |d| {
      assert r[i] == d[i];
      DistinctByFirst(init, key, i);
      FirstIndexExtend(init, x, key, key(d[i]));
    } else {
      assert r == d + [x] && r[i] == x;
      NewKeyIndex(init, x, key, d);
    }
  }

  lemma {:induction false} DistinctByOrder<T, K>(s: seq<T>, key: T -> K, i: nat, j: nat)
    requires i < j < |DistinctBy(s, key)|
    ensures var r := DistinctBy(s, key);
      FirstIndex(s, key, key(r[i])) < FirstIndex(s, key, key(r[j]))
    decreases |s|
  {
    var n := |s| - 1;
    var init, x := s[..n], s[n];
    var d := DistinctBy(init, key);
    var r := DistinctBy(s, key);
    DistinctBySnoc(s, key);
    SplitLast(s);
    assert r[i] == d[i];
    DistinctByFirst(init, key, i);
    FirstIndexExtend(init, x, key, key(d[i]));
    if j < |d| {
      assert r[j] == d[j];
      DistinctByOrder(init, key, i, j);
      DistinctByFirst(init, key, j);
      FirstIndexExtend(init, x, key, key(d[j]));
    } else {
      assert r == d + [x] && r[j] == x;
      NewKeyIndex(init, x, key, d);
    }
  }

  /** Appending an element does not move a key's first index that the prefix already had. */
  lemma FirstIndexExtend<T, K>(init: seq<T>, x: T, key: T -> K, k: K)
    requires FirstIndex(init, key, k) < |init|
    ensures FirstIndex(init + [x], key, k) == FirstIndex(init, key, k)
  {
    var s := init + [x];
    assert s[..|s| - 1] == init;
  }

  /** An element whose key the prefix never carried sits at the end of `distinctBy`. */
  lemma NewKeyIndex<T, K>(init: seq<T>, x: T, key: T -> K, d: seq<T>)
    requires d == DistinctBy(init, key) && key(x) !in Project(d, key)
    ensures FirstIndex(init + [x], key, key(x)) == |init|
  {
    var s := init + [x];
    assert s[..|s| - 1] == init;
    forall j | 0 <= j < |init| ensures key(init[j]) != key(x) {
      assert init[j] in init;
    }
  }
}
