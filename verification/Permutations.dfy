/** Reordering: what filtering, mapping and sorting do to sequences with the same elements. */
module Permutations {
  import opened Prelude
  import opened Aggregate

  function Without<T>(s: seq<T>, k: nat): seq<T>
    requires k < |s|
  {
    s[..k] + s[k + 1..]
  }

  lemma {:induction false} WithoutMultiset<T>(s: seq<T>, k: nat)
    requires k < |s|
    ensures multiset(s) == multiset(Without(s, k)) + multiset{s[k]}
    ensures multiset(Without(s, k)) == multiset(s) - multiset{s[k]}
  {
    assert s == s[..k] + [s[k]] + s[k + 1..];
  }

  lemma {:induction false} FilterWithout<T>(keep: T -> bool, s: seq<T>, k: nat)
    requires k < |s|
    ensures multiset(Filter(keep, s)) ==
            multiset(Filter(keep, Without(s, k))) + (if keep(s[k]) then multiset{s[k]} else multiset{})
  {
    assert s == s[..k] + ([s[k]] + s[k + 1..]);
    FilterAppend(keep, s[..k], [s[k]] + s[k + 1..]);
    FilterAppend(keep, s[..k], s[k + 1..]);
    assert ([s[k]] + s[k + 1..])[1..] == s[k + 1..];
  }

  /** Filtering two orders of the same elements keeps the same elements. */
  lemma {:induction false} FilterPermutes<T>(keep: T -> bool, a: seq<T>, b: seq<T>)
    requires multiset(a) == multiset(b)
    ensures multiset(Filter(keep, a)) == multiset(Filter(keep, b))
    decreases |a|
  {
    if a == [] {
      assert |multiset(b)| == 0;
    } else {
      assert a[0] in multiset(b);
      var k :| 0 <= k < |b| && b[k] == a[0];
      WithoutMultiset(a, 0);
      WithoutMultiset(b, k);
      FilterPermutes(keep, Without(a, 0), Without(b, k));
      FilterWithout(keep, a, 0);
      FilterWithout(keep, b, k);
    }
  }

  lemma {:induction false} SingletonMultiset<T>(s: seq<T>, x: T)
    requires multiset(s) == multiset{x}
    ensures s == [x]
  {
    assert |s| == |multiset(s)| == 1;
    assert s[0] in multiset(s);
  }

  lemma {:induction false} FilterMember<T>(keep: T -> bool, s: seq<T>, x: T)
    ensures x in Filter(keep, s) <==> x in s && keep(x)
  {
    if s != [] {
      FilterMember(keep, s[1..], x);
      assert s == [s[0]] + s[1..];
    }
  }

  lemma {:induction false} FilterNone<T>(keep: T -> bool, s: seq<T>)
    requires forall i :: 0 <= i < |s| ==> !keep(s[i])
    ensures Filter(keep, s) == []
  {
    if s != [] {
      FilterNone(keep, s[1..]);
    }
  }

  /** One element of the sequence passes the filter. */
  lemma {:induction false} FilterOne<T>(keep: T -> bool, s: seq<T>, k: nat)
    requires k < |s| && keep(s[k])
    requires forall i :: 0 <= i < |s| && i != k ==> !keep(s[i])
    ensures Filter(keep, s) == [s[k]]
  {
    assert s == s[..k] + ([s[k]] + s[k + 1..]);
    FilterAppend(keep, s[..k], [s[k]] + s[k + 1..]);
    FilterNone(keep, s[..k]);
    FilterNone(keep, s[k + 1..]);
    assert ([s[k]] + s[k + 1..])[1..] == s[k + 1..];
  }

  lemma {:induction false} FilterTwice<T>(first: T -> bool, second: T -> bool, both: T -> bool, s: seq<T>)
    requires forall i :: 0 <= i < |s| ==> (both(s[i]) <==> first(s[i]) && second(s[i]))
    ensures Filter(second, Filter(first, s)) == Filter(both, s)
  {
    if s != [] {
      FilterTwice(first, second, both, s[1..]);
      var rest := Filter(first, s[1..]);
      assert ([s[0]] + rest)[1..] == rest;
      assert [] + rest == rest;
      assert [] + Filter(second, rest) == Filter(second, rest);
      assert both(s[0]) <==> first(s[0]) && second(s[0]);
    }
  }

  // ---------------------------------------------------------------------------------------------------------
  // Sorting.

  predicate Sorted<T>(key: T -> int, s: seq<T>) {
    forall i, j :: 0 <= i < j < |s| ==> key(s[i]) <= key(s[j])
  }

  predicate StrictlySorted<T>(key: T -> int, s: seq<T>) {
    forall i, j :: 0 <= i < j < |s| ==> key(s[i]) < key(s[j])
  }

  lemma {:induction false} SortedCons<T>(key: T -> int, x: T, r: seq<T>)
    requires Sorted(key, r) && forall y :: y in multiset(r) ==> key(x) <= key(y)
    ensures Sorted(key, [x] + r)
  {
    forall j | 0 <= j < |r|
      ensures key(x) <= key(r[j])
    {
      assert r[j] in multiset(r);
    }
  }

  lemma {:induction false} HeadIsLeast<T>(key: T -> int, s: seq<T>, y: T)
    requires Sorted(key, s) && s != [] && y in multiset(s[1..])
    ensures key(s[0]) <= key(y)
  {
    var i :| 0 <= i < |s[1..]| && s[1..][i] == y;
    assert s[i + 1] == y;
  }

  lemma {:induction false} InsertByPermutes<T>(key: T -> int, x: T, s: seq<T>)
    ensures multiset(InsertBy(key, x, s)) == multiset(s) + multiset{x}
  {
    if s != [] && key(x) > key(s[0]) {
      InsertByPermutes(key, x, s[1..]);
      assert s == [s[0]] + s[1..];
    }
  }

  lemma {:induction false} InsertBySorted<T>(key: T -> int, x: T, s: seq<T>)
    requires Sorted(key, s)
    ensures Sorted(key, InsertBy(key, x, s))
  {
    if s != [] && key(x) > key(s[0]) {
      InsertBySorted(key, x, s[1..]);
      InsertByPermutes(key, x, s[1..]);
      forall y | y in multiset(InsertBy(key, x, s[1..]))
        ensures key(s[0]) <= key(y)
      {
        if y in multiset(s[1..]) {
          HeadIsLeast(key, s, y);
        }
      }
      SortedCons(key, s[0], InsertBy(key, x, s[1..]));
    }
  }

  lemma {:induction false} SortByPermutes<T>(key: T -> int, s: seq<T>)
    ensures multiset(SortBy(key, s)) == multiset(s)
    ensures Sorted(key, SortBy(key, s))
    ensures |SortBy(key, s)| == |s|
  {
    if s != [] {
      SortByPermutes(key, s[1..]);
      InsertByPermutes(key, s[0], SortBy(key, s[1..]));
      InsertBySorted(key, s[0], SortBy(key, s[1..]));
      assert s == [s[0]] + s[1..];
    }
    assert |SortBy(key, s)| == |multiset(SortBy(key, s))| == |multiset(s)| == |s|;
  }

  lemma {:induction false} LeastIsFirst<T>(key: T -> int, a: seq<T>, b: seq<T>)
    requires multiset(a) == multiset(b) && Sorted(key, a) && StrictlySorted(key, b) && a != [] && b != []
    ensures a[0] == b[0]
  {
    assert a[0] in multiset(b) && b[0] in multiset(a);
    var i :| 0 <= i < |b| && b[i] == a[0];
    var j :| 0 <= j < |a| && a[j] == b[0];
    assert key(a[0]) <= key(a[j]);
    assert forall m :: 0 < m < |b| ==> key(b[0]) < key(b[m]);
  }

  lemma {:induction false} TailMultiset<T>(s: seq<T>)
    requires s != []
    ensures multiset(s[1..]) == multiset(s) - multiset{s[0]}
  {
    assert s == [s[0]] + s[1..];
  }

  lemma {:induction false} SortedUnique<T>(key: T -> int, a: seq<T>, b: seq<T>)
    requires multiset(a) == multiset(b) && Sorted(key, a) && StrictlySorted(key, b)
    ensures a == b
    decreases |a|
  {
    assert |a| == |multiset(a)| == |multiset(b)| == |b|;
    if a != [] {
      LeastIsFirst(key, a, b);
      TailMultiset(a);
      TailMultiset(b);
      SortedUnique(key, a[1..], b[1..]);
      assert a == [a[0]] + a[1..] && b == [b[0]] + b[1..];
    }
  }

  /** Where the first element of one order sits in the other. */
  lemma {:induction false} FirstOf<T>(a: seq<T>, b: seq<T>) returns (k: nat)
    requires a != [] && multiset(a) == multiset(b)
    ensures k < |b| && b[k] == a[0]
    ensures multiset(a[1..]) == multiset(Without(b, k))
  {
    assert a[0] in multiset(b);
    k :| 0 <= k < |b| && b[k] == a[0];
    TailMultiset(a);
    WithoutMultiset(b, k);
  }

  /** Sorting any order of a strictly sorted sequence gives it back. */
  lemma {:induction false} SortByRestores<T>(key: T -> int, a: seq<T>, b: seq<T>)
    requires multiset(a) == multiset(b) && StrictlySorted(key, b)
    ensures SortBy(key, a) == b
  {
    SortByPermutes(key, a);
    SortedUnique(key, SortBy(key, a), b);
  }

  lemma {:induction false} SameMembers<T>(a: seq<T>, b: seq<T>, x: T)
    requires multiset(a) == multiset(b)
    ensures x in a <==> x in b
  {
    assert x in a <==> x in multiset(a);
    assert x in b <==> x in multiset(b);
  }

  // ---------------------------------------------------------------------------------------------------------
  // Sequences without repeated identifiers.

  predicate Distinct<T>(id: T -> Id, s: seq<T>) {
    forall i, j :: 0 <= i < j < |s| ==> id(s[i]) != id(s[j])
  }

  lemma {:induction false} DistinctCount<T>(id: T -> Id, s: seq<T>, x: T)
    requires Distinct(id, s)
    ensures multiset(s)[x] == if x in s then 1 else 0
  {
    if s != [] {
      assert s == [s[0]] + s[1..];
      DistinctCount(id, s[1..], x);
      forall j | 0 <= j < |s[1..]|
        ensures s[1..][j] != s[0]
      {
        assert id(s[0]) != id(s[j + 1]);
      }
    }
  }

  /** Two enumerations of the same elements are orders of each other. */
  lemma {:induction false} DistinctSameMembers<T(!new)>(id: T -> Id, a: seq<T>, b: seq<T>)
    requires Distinct(id, a) && Distinct(id, b)
    requires forall x :: x in a <==> x in b
    ensures multiset(a) == multiset(b)
  {
    forall x: T
      ensures multiset(a)[x] == multiset(b)[x]
    {
      DistinctCount(id, a, x);
      DistinctCount(id, b, x);
    }
  }

  lemma {:induction false} DistinctWithout<T(!new)>(id: T -> Id, s: seq<T>, k: nat)
    requires k < |s| && Distinct(id, s)
    ensures Distinct(id, Without(s, k))
    ensures forall x :: x in Without(s, k) ==> id(x) != id(s[k])
  {
    var w := Without(s, k);
    assert forall i :: 0 <= i < |w| ==> w[i] == if i < k then s[i] else s[i + 1];
  }

  lemma {:induction false} DistinctPermutes<T(!new)>(id: T -> Id, a: seq<T>, b: seq<T>)
    requires multiset(a) == multiset(b) && Distinct(id, a)
    ensures Distinct(id, b)
    decreases |a|
  {
    if b != [] {
      assert |a| == |multiset(a)| == |multiset(b)| == |b|;
      assert b[0] in multiset(a);
      var k :| 0 <= k < |a| && a[k] == b[0];
      WithoutMultiset(a, k);
      TailMultiset(b);
      DistinctWithout(id, a, k);
      DistinctPermutes(id, Without(a, k), b[1..]);
      forall j | 0 < j < |b|
        ensures id(b[0]) != id(b[j])
      {
        assert b[1..][j - 1] == b[j];
        SameMembers(Without(a, k), b[1..], b[j]);
      }
      DistinctCons(id, b);
    }
  }

  lemma {:induction false} DistinctCons<T>(id: T -> Id, s: seq<T>)
    requires s != [] && Distinct(id, s[1..])
    requires forall j :: 0 < j < |s| ==> id(s[0]) != id(s[j])
    ensures Distinct(id, s)
  {
    forall i, j | 0 <= i < j < |s|
      ensures id(s[i]) != id(s[j])
    {
      if i > 0 {
        assert id(s[1..][i - 1]) != id(s[1..][j - 1]);
      }
    }
  }

  function Ids<T>(id: T -> Id, s: seq<T>): set<Id> {
    set i | 0 <= i < |s| :: id(s[i])
  }

  lemma {:induction false} DistinctIdsCount<T>(id: T -> Id, s: seq<T>)
    requires Distinct(id, s)
    ensures |Ids(id, s)| == |s|
  {
    if s != [] {
      var n := |s| - 1;
      DistinctIdsCount(id, s[..n]);
      assert Ids(id, s) == Ids(id, s[..n]) + {id(s[n])} by {
        forall x | x in Ids(id, s)
          ensures x in Ids(id, s[..n]) + {id(s[n])}
        {
          var i :| 0 <= i < |s| && id(s[i]) == x;
          if i < n {
            assert id(s[..n][i]) == x;
          }
        }
        forall x | x in Ids(id, s[..n])
          ensures x in Ids(id, s)
        {
          var i :| 0 <= i < n && id(s[..n][i]) == x;
          assert id(s[i]) == x;
        }
      }
      assert id(s[n]) !in Ids(id, s[..n]);
    }
  }
}
