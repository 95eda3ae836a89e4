/** Leaving entries out of a list and inserting them again. */
module Selection {
  import opened Ranges

  /** Python's `list.insert`: beyond the end it appends. */
  function InsertAt<T>(s: seq<T>, at: nat, x: T): seq<T> {
    if at > |s| then s + [x] else s[..at] + [x] + s[at..]
  }

  /** The entries whose index is in no range. */
  ghost function Without<T>(s: seq<T>, rs: seq<Range>): seq<T> {
    if s == [] then [] else Without(s[..|s| - 1], rs) + if InSome(rs, |s| - 1) then [] else [s[|s| - 1]]
  }

  /** Their indices. */
  ghost function Kept(n: nat, rs: seq<Range>): seq<nat> {
    if n == 0 then [] else Kept(n - 1, rs) + if InSome(rs, n - 1) then [] else [n - 1]
  }

  lemma WithoutNone<T>(rs: seq<Range>)
    ensures Without<T>([], rs) == []
  {
  }

  lemma WithoutAdd<T>(s: seq<T>, x: T, rs: seq<Range>)
    ensures Without(s + [x], rs) == Without(s, rs) + if InSome(rs, |s|) then [] else [x]
  {
    assert (s + [x])[..|s|] == s;
    hide InSome;
  }

  lemma Last<T>(s: seq<T>) returns (less: seq<T>, x: T)
    requires s != []
    ensures s == less + [x] && |s| == |less| + 1
  {
    less, x := s[..|s| - 1], s[|s| - 1];
  }

  lemma {:induction false} WithoutSame<T>(s: seq<T>, rs: seq<Range>, qs: seq<Range>)
    requires forall i: nat :: i < |s| ==> (InSome(rs, i) <==> InSome(qs, i))
    ensures Without(s, rs) == Without(s, qs)
    decreases |s|
  {
    hide *;
    WithoutNone<T>(rs);
    WithoutNone<T>(qs);
    if s != [] {
      var less, x := Last(s);
      WithoutSame(less, rs, qs);
      WithoutAdd(less, x, rs);
      WithoutAdd(less, x, qs);
    }
  }

  /** Nothing is left out before the first range. */
  lemma {:induction false} WithoutNothing<T>(s: seq<T>, rs: seq<Range>)
    requires forall i: nat :: i < |s| ==> !InSome(rs, i)
    ensures Without(s, rs) == s
    decreases |s|
  {
    hide *;
    WithoutNone<T>(rs);
    if s != [] {
      var less, x := Last(s);
      WithoutNothing(less, rs);
      WithoutAdd(less, x, rs);
    }
  }

  lemma {:induction false} WithoutPrefix<T>(s: seq<T>, rs: seq<Range>, m: nat)
    requires m <= |s| && forall i: nat :: i < m ==> !InSome(rs, i)
    ensures |Without(s, rs)| >= m
    decreases |s|
  {
    if m == |s| {
      WithoutNothing(s, rs);
    } else {
      var less, x := Last(s);
      hide *;
      WithoutPrefix(less, rs, m);
      WithoutAdd(less, x, rs);
    }
  }

  lemma SliceMore<T>(s: seq<T>, m: nat, t: seq<T>)
    requires m <= |s|
    ensures (s + t)[..m] == s[..m] && (s + t)[m..] == s[m..] + t
  {
  }

  lemma Regroup<T>(a: seq<T>, b: seq<T>, c: seq<T>)
    ensures a + (b + c) == a + b + c
  {
  }

  lemma InsertIs<T>(s: seq<T>, m: nat, x: T)
    requires m <= |s|
    ensures InsertAt(s, m, x) == s[..m] + [x] + s[m..]
  {
  }

  lemma InsertMore<T>(s: seq<T>, m: nat, x: T, t: seq<T>)
    requires m <= |s|
    ensures InsertAt(s + t, m, x) == InsertAt(s, m, x) + t
  {
    hide *;
    SliceMore(s, m, t);
    InsertIs(s, m, x);
    InsertIs(s + t, m, x);
    Regroup(s[..m] + [x], s[m..], t);
  }

  lemma InsertEnd<T>(s: seq<T>, x: T)
    ensures InsertAt(s, |s|, x) == s + [x]
  {
  }

  /** Inserting the first missing entry at its own index puts it back. */
  lemma {:induction false} InsertSmallest<T>(s: seq<T>, rs: seq<Range>, qs: seq<Range>, m: nat)
    requires m < |s| && (forall i: nat :: i < m ==> !InSome(rs, i)) && InSome(rs, m) && !InSome(qs, m)
    requires forall i: nat :: i < |s| && i != m ==> (InSome(rs, i) <==> InSome(qs, i))
    ensures InsertAt(Without(s, rs), m, s[m]) == Without(s, qs)
    decreases |s|
  {
    hide *;
    var less, x := Last(s);
    WithoutAdd(less, x, rs);
    WithoutAdd(less, x, qs);
    if m == |less| {
      WithoutNothing(less, rs);
      WithoutNothing(less, qs);
      InsertEnd(less, x);
      assert Without(less, rs) + [] == less;
    } else {
      InsertSmallest(less, rs, qs, m);
      WithoutPrefix(less, rs, m);
      InsertMore(Without(less, rs), m, s[m], if InSome(rs, |less|) then [] else [x]);
    }
  }

  lemma {:induction false} WithoutAt<T>(s: seq<T>, rs: seq<Range>, k: nat)
    requires k < |Kept(|s|, rs)|
    ensures |Without(s, rs)| == |Kept(|s|, rs)| && Kept(|s|, rs)[k] < |s|
    ensures Without(s, rs)[k] == s[Kept(|s|, rs)[k]]
    decreases |s|
  {
    WithoutSize(s, rs);
    if s != [] {
      var less, x := Last(s);
      WithoutSize(less, rs);
      assert Kept(|s|, rs) == Kept(|less|, rs) + if InSome(rs, |less|) then [] else [|less|];
      hide *;
      WithoutAdd(less, x, rs);
      if k < |Kept(|less|, rs)| { WithoutAt(less, rs, k); }
    }
  }

  lemma {:induction false} WithoutSize<T>(s: seq<T>, rs: seq<Range>)
    ensures |Without(s, rs)| == |Kept(|s|, rs)|
    decreases |s|
  {
    if s != [] {
      WithoutSize(s[..|s| - 1], rs);
      hide InSome;
    }
  }

  lemma KeptNext(n: nat, rs: seq<Range>)
    ensures Kept(0, rs) == []
    ensures Kept(n + 1, rs) == Kept(n, rs) + if InSome(rs, n) then [] else [n]
  {
    hide InSome;
  }

  lemma {:induction false} KeptMember(n: nat, rs: seq<Range>, i: nat)
    ensures i in Kept(n, rs) <==> i < n && !InSome(rs, i)
  {
    KeptNext(if n > 0 then n - 1 else 0, rs);
    hide *;
    if n > 0 { KeptMember(n - 1, rs, i); }
  }

  lemma {:induction false} KeptIncreases(n: nat, rs: seq<Range>)
    ensures Increasing(Kept(n, rs))
  {
    if n > 0 {
      KeptIncreases(n - 1, rs);
      var less := Kept(n - 1, rs);
      forall i | i in less ensures i < n - 1 { KeptMember(n - 1, rs, i); }
      IncreasingMore(less, n - 1);
      KeptNext(n - 1, rs);
      hide Kept, Increasing;
    }
  }

  // ----- sorting --------------------------------------------------------------

  ghost predicate Sorted(s: seq<nat>) {
    forall a, b :: 0 <= a < b < |s| ==> s[a] <= s[b]
  }

  lemma InsertSorted(r: seq<nat>, j: nat, x: nat)
    requires Sorted(r) && j <= |r| && (j > 0 ==> r[j - 1] <= x) && forall k :: j <= k < |r| ==> x < r[k]
    ensures Sorted(r[..j] + [x] + r[j..])
  {
    var s := r[..j] + [x] + r[j..];
    assert forall k :: 0 <= k < |s| ==> s[k] == if k < j then r[k] else if k == j then x else r[k - 1];
    assert forall k :: 0 <= k < j ==> r[k] <= r[j - 1];
  }

  lemma InsertCounts(r: seq<nat>, j: nat, x: nat, s: seq<nat>)
    requires j <= |r| && multiset(r) == multiset(s)
    ensures multiset(r[..j] + [x] + r[j..]) == multiset(s + [x])
  {
    assert r == r[..j] + r[j..];
  }

  lemma SortedNone()
    ensures Sorted([])
  {
  }

  /** Python's `sorted`. */
  method SortedList(s: seq<nat>) returns (r: seq<nat>)
    ensures Sorted(r) && multiset(r) == multiset(s)
  {
    hide *;
    r := [];
    SortedNone();
    for i := 0 to |s|
      invariant Sorted(r) && multiset(r) == multiset(s[..i])
    {
      var j := |r|;
      while j > 0 && r[j - 1] > s[i]
        invariant 0 <= j <= |r|
        invariant forall k :: j <= k < |r| ==> s[i] < r[k]
      {
        j := j - 1;
      }
      assert s[..i + 1] == s[..i] + [s[i]];
      InsertSorted(r, j, s[i]);
      InsertCounts(r, j, s[i], s[..i]);
      r := r[..j] + [s[i]] + r[j..];
    }
    assert s[..|s|] == s;
  }

  lemma {:induction false} IncreasingCount(s: seq<nat>, x: nat)
    requires Increasing(s)
    ensures multiset(s)[x] == if x in s then 1 else 0
    decreases |s|
  {
    if s != [] {
      var less, y := Last(s);
      IncreasingParts(less, [y]);
      assert y in [y];
      hide Increasing;
      IncreasingCount(less, x);
    }
  }

  lemma SortedLast(s: seq<nat>, x: nat)
    requires Sorted(s + [x])
    ensures Sorted(s) && forall y :: y in s + [x] ==> y <= x
  {
    var all := s + [x];
    forall a, b | 0 <= a < b < |s| ensures s[a] <= s[b] { assert all[a] <= all[b]; }
    forall y | y in all ensures y <= x { var k :| 0 <= k < |all| && all[k] == y; assert x == all[|s|]; }
  }

  lemma DropLast(s: seq<nat>, t: seq<nat>, x: nat)
    requires multiset(s + [x]) == multiset(t + [x])
    ensures multiset(s) == multiset(t)
  {
    assert multiset(s) == multiset(s + [x]) - multiset{x};
    assert multiset(t) == multiset(t + [x]) - multiset{x};
  }

  lemma SameSize(s: seq<nat>, t: seq<nat>)
    requires multiset(s) == multiset(t)
    ensures |s| == |t| && forall x :: x in s <==> x in t
  {
    assert |s| == |multiset(s)| && |t| == |multiset(t)|;
    assert forall x :: x in s <==> x in multiset(s);
    assert forall x :: x in t <==> x in multiset(t);
  }

  /** There is one way to sort. */
  lemma {:induction false} SortedUnique(s: seq<nat>, t: seq<nat>)
    requires Sorted(s) && Sorted(t) && multiset(s) == multiset(t)
    ensures s == t
    decreases |s|
  {
    hide *;
    SameSize(s, t);
    if s != [] {
      var less, x := Last(s);
      var more, y := Last(t);
      SortedLast(less, x);
      SortedLast(more, y);
      assert x in s && y in t;
      DropLast(less, more, x);
      SortedUnique(less, more);
    }
  }

  lemma IncreasingSorted(s: seq<nat>)
    requires Increasing(s)
    ensures Sorted(s)
  {
  }

  /** Sorting two disjoint increasing lists that together hold the kept indices
      gives these in order. */
  lemma SortedKept(s: seq<nat>, t: seq<nat>, r: seq<nat>, n: nat, rs: seq<Range>)
    requires Increasing(s) && Increasing(t) && (forall i :: i in s ==> i !in t)
    requires forall i: nat :: (i in s || i in t) <==> (i < n && !InSome(rs, i))
    requires Sorted(r) && multiset(r) == multiset(s + t)
    ensures r == Kept(n, rs)
  {
    KeptIncreases(n, rs);
    IncreasingSorted(Kept(n, rs));
    forall i: nat ensures multiset(s + t)[i] == multiset(Kept(n, rs))[i] {
      IncreasingCount(s, i);
      IncreasingCount(t, i);
      IncreasingCount(Kept(n, rs), i);
      KeptMember(n, rs, i);
    }
    hide Kept, InSome, Increasing, Sorted;
    SortedUnique(r, Kept(n, rs));
  }
}
