/** Cutting a list of indices into ranges of consecutive ones. */
module Ranges {

  datatype Range = Range(first: nat, last: nat)

  function Expand(r: Range): seq<nat> {
    if r.first <= r.last then seq(r.last - r.first + 1, k requires 0 <= k => r.first + k) else []
  }

  function ExpandAll(rs: seq<Range>): seq<nat> {
    if rs == [] then [] else ExpandAll(rs[..|rs| - 1]) + Expand(rs[|rs| - 1])
  }

  /** A range stretches as long as its span is at most `limit`, so that in the
      end it spans at most `limit + 1`. */
  ghost predicate Bounded(r: Range, limit: int) {
    r.first == r.last || (r.first < r.last && r.last - r.first <= limit + 1)
  }

  /** Between two neighbours there is a gap, or the first is full. */
  ghost predicate Apart(r: Range, s: Range, limit: int) {
    s.first != r.last + 1 || r.last - r.first > limit
  }

  /** `rs` cuts `indices` into consecutive stretches, no sooner than it has to. */
  ghost predicate Cut(indices: seq<nat>, limit: int, rs: seq<Range>) {
    && ExpandAll(rs) == indices
    && (forall k :: 0 <= k < |rs| ==> Bounded(rs[k], limit))
    && (forall k :: 0 <= k < |rs| - 1 ==> Apart(rs[k], rs[k + 1], limit))
  }

  function Wide(r: Range): seq<Range> { if r.last > r.first then [r] else [] }

  function Narrow(r: Range): seq<nat> { if r.last > r.first then [] else [r.first] }

  function Longer(rs: seq<Range>): seq<Range> {
    if rs == [] then []
    else
      Longer(rs[..|rs| - 1]) + Wide(rs[|rs| - 1])
  }

  function Alone(rs: seq<Range>): seq<nat> {
    if rs == [] then []
    else
      Alone(rs[..|rs| - 1]) + Narrow(rs[|rs| - 1])
  }

  lemma AddOne(rs: seq<Range>, r: Range)
    ensures ExpandAll(rs + [r]) == ExpandAll(rs) + Expand(r)
    ensures Longer(rs + [r]) == Longer(rs) + Wide(r)
    ensures Alone(rs + [r]) == Alone(rs) + Narrow(r)
  {
    assert (rs + [r])[..|rs|] == rs;
    hide Wide, Narrow, Expand;
  }

  lemma NoRanges()
    ensures ExpandAll([]) == [] && Longer([]) == [] && Alone([]) == []
  {
  }

  lemma Unsnoc(rs: seq<Range>) returns (less: seq<Range>, r: Range)
    requires rs != []
    ensures rs == less + [r] && |less| < |rs|
  {
    less, r := rs[..|rs| - 1], rs[|rs| - 1];
  }

  lemma Width(r: Range)
    ensures if r.last > r.first then Wide(r) == [r] && Narrow(r) == [] else Wide(r) == [] && Narrow(r) == [r.first]
  {
  }

  lemma CutParts(indices: seq<nat>, limit: int, rs: seq<Range>)
    ensures Cut(indices, limit, rs) <==>
      && ExpandAll(rs) == indices
      && (forall k :: 0 <= k < |rs| ==> Bounded(rs[k], limit))
      && (forall k :: 0 <= k < |rs| - 1 ==> Apart(rs[k], rs[k + 1], limit))
  {
  }

  lemma ExpandMore(r: Range, i: nat)
    requires r.first <= r.last && i == r.last + 1
    ensures Expand(Range(r.first, i)) == Expand(r) + [i]
  {
  }

  lemma StretchBounds(r: Range, i: nat, limit: int)
    requires Bounded(r, limit) && i == r.last + 1 && r.last - r.first <= limit
    ensures Bounded(Range(r.first, i), limit) && r.first <= r.last
    ensures forall q :: Apart(q, r, limit) == Apart(q, Range(r.first, i), limit)
  {
  }

  /** The next index stretches the last range. */
  lemma Stretch(indices: seq<nat>, limit: int, rs: seq<Range>, r: Range, i: nat)
    requires Cut(indices, limit, rs + [r]) && i == r.last + 1 && r.last - r.first <= limit
    ensures Cut(indices + [i], limit, rs + [Range(r.first, i)])
  {
    hide *;
    var s := Range(r.first, i);
    var before, after := rs + [r], rs + [s];
    CutParts(indices, limit, before);
    AddOne(rs, r);
    AddOne(rs, s);
    assert Bounded(before[|rs|], limit);
    StretchBounds(r, i, limit);
    ExpandMore(r, i);
    assert ExpandAll(after) == indices + [i];
    forall k | 0 <= k < |after| ensures Bounded(after[k], limit) {
      if k < |rs| { assert Bounded(before[k], limit); }
    }
    forall k | 0 <= k < |after| - 1 ensures Apart(after[k], after[k + 1], limit) {
      assert Apart(before[k], before[k + 1], limit);
    }
    CutParts(indices + [i], limit, after);
  }

  /** The next index begins a new range. */
  lemma Begin(indices: seq<nat>, limit: int, rs: seq<Range>, r: Range, i: nat)
    requires Cut(indices, limit, rs + [r]) && !(i == r.last + 1 && r.last - r.first <= limit)
    ensures Cut(indices + [i], limit, rs + [r] + [Range(i, i)])
  {
    var before := rs + [r];
    var after := before + [Range(i, i)];
    AddOne(before, Range(i, i));
    assert Expand(Range(i, i)) == [i];
    forall k | 0 <= k < |after| ensures Bounded(after[k], limit) {
      if k < |before| { assert Bounded(before[k], limit); }
    }
    forall k | 0 <= k < |after| - 1 ensures Apart(after[k], after[k + 1], limit) {
      if k < |rs| { assert Apart(before[k], before[k + 1], limit); }
    }
  }

  lemma First(i: nat, limit: int)
    ensures Cut([i], limit, [Range(i, i)])
  {
    AddOne([], Range(i, i));
    assert [] + [Range(i, i)] == [Range(i, i)];
    assert Expand(Range(i, i)) == [i];
  }

  lemma LastIsOrdered(indices: seq<nat>, limit: int, rs: seq<Range>, r: Range)
    requires Cut(indices, limit, rs + [r])
    ensures r.first <= r.last
  {
    assert Bounded((rs + [r])[|rs|], limit);
  }

  /** Extracts consecutive ranges, and the single indices between them. */
  method ExtractRanges(indices: seq<nat>, limit: int) returns (ranges: seq<Range>, singles: seq<nat>)
    ensures exists cut :: Cut(indices, limit, cut) && ranges == Longer(cut) && singles == Alone(cut)
  {
    hide *;
    ranges, singles := [], [];
    NoRanges();
    CutParts([], limit, []);
    if indices == [] { return; }
    var first, last := indices[0], indices[0];
    First(first, limit);
    assert indices[..1] == [first];
    ghost var done: seq<Range> := [];
    assert done + [Range(first, last)] == [Range(first, last)];
    for n := 1 to |indices|
      invariant 0 <= first && 0 <= last
      invariant Cut(indices[..n], limit, done + [Range(first, last)])
      invariant ranges == Longer(done) && singles == Alone(done)
    {
      var i := indices[n];
      assert indices[..n + 1] == indices[..n] + [i];
      LastIsOrdered(indices[..n], limit, done, Range(first, last));
      if i == last + 1 && last - first <= limit {
        Stretch(indices[..n], limit, done, Range(first, last), i);
        last := i;
      } else {
        Begin(indices[..n], limit, done, Range(first, last), i);
        AddOne(done, Range(first, last));
        Width(Range(first, last));
        if last > first {
          ranges := ranges + [Range(first, last)];
        } else {
          singles := singles + [first];
        }
        done := done + [Range(first, last)];
        first, last := i, i;
      }
    }
    assert indices[..|indices|] == indices;
    AddOne(done, Range(first, last));
    Width(Range(first, last));
    ghost var cut := done + [Range(first, last)];
    if last > first {
      ranges := ranges + [Range(first, last)];
    } else {
      singles := singles + [first];
    }
    assert Cut(indices, limit, cut) && ranges == Longer(cut) && singles == Alone(cut);
  }

  // ----- what a cut promises --------------------------------------------------

  ghost predicate Holds(r: Range, i: nat) { r.first <= i <= r.last }

  ghost predicate InSome(rs: seq<Range>, i: nat) {
    exists k :: 0 <= k < |rs| && Holds(rs[k], i)
  }

  ghost predicate Increasing(s: seq<nat>) {
    forall a, b :: 0 <= a < b < |s| ==> s[a] < s[b]
  }

  /** The ranges lie one after the other. */
  ghost predicate Ascending(rs: seq<Range>) {
    && (forall k :: 0 <= k < |rs| ==> rs[k].first <= rs[k].last)
    && (forall a, b :: 0 <= a < b < |rs| ==> rs[a].last < rs[b].first)
  }

  lemma ExpandHolds(r: Range, i: nat)
    ensures i in Expand(r) <==> Holds(r, i)
  {
    if Holds(r, i) { assert Expand(r)[i - r.first] == i; }
  }

  lemma InSomeAdd(rs: seq<Range>, r: Range, i: nat)
    ensures InSome(rs + [r], i) <==> InSome(rs, i) || Holds(r, i)
  {
    if InSome(rs, i) {
      var k :| 0 <= k < |rs| && Holds(rs[k], i);
      assert Holds((rs + [r])[k], i);
    }
    if Holds(r, i) { assert Holds((rs + [r])[|rs|], i); }
  }

  lemma {:induction false} ExpandAllHolds(rs: seq<Range>, i: nat)
    ensures i in ExpandAll(rs) <==> InSome(rs, i)
  {
    if rs != [] {
      var less, r := rs[..|rs| - 1], rs[|rs| - 1];
      assert rs == less + [r];
      ExpandAllHolds(less, i);
      InSomeAdd(less, r, i);
      ExpandHolds(r, i);
    }
  }

  lemma IncreasingParts(s: seq<nat>, t: seq<nat>)
    requires Increasing(s + t)
    ensures Increasing(s) && forall i, j :: i in s && j in t ==> i < j
  {
    forall a, b | 0 <= a < b < |s| ensures s[a] < s[b] { assert (s + t)[a] < (s + t)[b]; }
    forall i, j | i in s && j in t ensures i < j {
      var a :| 0 <= a < |s| && s[a] == i;
      var b :| 0 <= b < |t| && t[b] == j;
      assert (s + t)[a] < (s + t)[|s| + b];
    }
  }

  /** The ranges of increasing indices are disjoint and in order. */
  lemma {:induction false} CutAscends(rs: seq<Range>, limit: int)
    requires Increasing(ExpandAll(rs)) && forall k :: 0 <= k < |rs| ==> Bounded(rs[k], limit)
    ensures Ascending(rs)
  {
    if rs != [] {
      var less, r := rs[..|rs| - 1], rs[|rs| - 1];
      assert rs == less + [r];
      IncreasingParts(ExpandAll(less), Expand(r));
      forall k | 0 <= k < |less| ensures Bounded(less[k], limit) { assert Bounded(rs[k], limit); }
      CutAscends(less, limit);
      ExpandHolds(r, r.first);
      forall a | 0 <= a < |less| ensures less[a].last < r.first {
        assert Holds(less[a], less[a].last);
        ExpandAllHolds(less, less[a].last);
      }
    }
  }

  lemma NotEarlier(rs: seq<Range>, r: Range, i: nat)
    requires Ascending(rs + [r]) && Holds(r, i)
    ensures !InSome(rs, i)
  {
    forall k | 0 <= k < |rs| ensures !Holds(rs[k], i) {
      assert (rs + [r])[k].last < (rs + [r])[|rs|].first;
    }
  }

  lemma AscendingInit(rs: seq<Range>, r: Range)
    requires Ascending(rs + [r])
    ensures Ascending(rs) && r.first <= r.last && forall q :: q in rs ==> q.last < r.first
  {
    var all := rs + [r];
    forall a, b | 0 <= a < b < |rs| ensures rs[a].last < rs[b].first { assert all[a].last < all[b].first; }
    forall a | 0 <= a < |rs| ensures rs[a].first <= rs[a].last < r.first {
      assert all[a].first <= all[a].last < all[|rs|].first;
    }
    assert all[|rs|].first <= all[|rs|].last;
  }

  lemma HoldsOne(r: Range, i: nat)
    requires r.first <= r.last
    ensures r.last <= r.first ==> (Holds(r, i) <==> i == r.first)
  {
  }

  lemma NoneHolds(i: nat)
    ensures !InSome([], i)
  {
  }

  /** Every index of the cut is in a longer range or alone, never both. */
  lemma {:induction false} LongerOrAlone(rs: seq<Range>, i: nat)
    requires Ascending(rs)
    ensures InSome(rs, i) <==> InSome(Longer(rs), i) || i in Alone(rs)
    ensures !(InSome(Longer(rs), i) && i in Alone(rs))
    decreases |rs|
  {
    hide *;
    NoRanges();
    NoneHolds(i);
    if rs != [] {
      var less, r := Unsnoc(rs);
      AddOne(less, r);
      AscendingInit(less, r);
      LongerOrAlone(less, i);
      InSomeAdd(less, r, i);
      Width(r);
      InSomeAdd(Longer(less), r, i);
      HoldsOne(r, i);
      assert Longer(less) + [] == Longer(less) && Alone(less) + [] == Alone(less);
      if Holds(r, i) { NotEarlier(less, r, i); }
    }
  }

  lemma {:induction false} LongerMember(rs: seq<Range>, r: Range)
    ensures r in Longer(rs) <==> r in rs && r.last > r.first
    decreases |rs|
  {
    hide *;
    if rs == [] {
      NoRanges();
    } else {
      var less, q := Unsnoc(rs);
      AddOne(less, q);
      Width(q);
      LongerMember(less, r);
    }
  }

  lemma {:induction false} AloneSubset(rs: seq<Range>, i: nat)
    requires i in Alone(rs)
    ensures exists r :: r in rs && r.first == i && r.last <= i
    decreases |rs|
  {
    hide *;
    NoRanges();
    if rs != [] {
      var less, q := Unsnoc(rs);
      AddOne(less, q);
      Width(q);
      if i in Alone(less) {
        AloneSubset(less, i);
        var r :| r in less && r.first == i && r.last <= i;
        assert r in rs && r.first == i && r.last <= i;
      } else {
        assert q in rs && q.first == i && q.last <= i;
      }
    }
  }

  lemma AscendingMore(rs: seq<Range>, r: Range)
    requires Ascending(rs) && r.first <= r.last && forall q :: q in rs ==> q.last < r.first
    ensures Ascending(rs + [r])
  {
    assert forall k :: 0 <= k < |rs| ==> rs[k] in rs;
  }

  lemma IncreasingNone()
    ensures Increasing([])
  {
  }

  lemma IncreasingMore(s: seq<nat>, i: nat)
    requires Increasing(s) && forall j :: j in s ==> j < i
    ensures Increasing(s + [i])
  {
    assert forall k :: 0 <= k < |s| ==> s[k] in s;
  }

  lemma OrderedMember(rs: seq<Range>, r: Range)
    requires Ascending(rs) && r in rs
    ensures r.first <= r.last
  {
  }

  /** The ranges and the singles each keep their order. */
  lemma {:induction false} LongerAscends(rs: seq<Range>)
    requires Ascending(rs)
    ensures Ascending(Longer(rs)) && Increasing(Alone(rs))
    decreases |rs|
  {
    if rs == [] {
      NoRanges();
    } else {
      hide *;
      var less, r := Unsnoc(rs);
      AddOne(less, r);
      AscendingInit(less, r);
      LongerAscends(less);
      Width(r);
      if r.last > r.first {
        forall x | x in Longer(less) ensures x.last < r.first { LongerMember(less, x); }
        AscendingMore(Longer(less), r);
        assert Alone(rs) == Alone(less);
      } else {
        forall i | i in Alone(less) ensures i < r.first {
          AloneSubset(less, i);
          var x :| x in less && x.first == i;
          OrderedMember(less, x);
        }
        IncreasingMore(Alone(less), r.first);
        assert Longer(rs) == Longer(less);
      }
    }
  }

  lemma LongerBounded(rs: seq<Range>, limit: int, r: Range)
    requires r in Longer(rs) && forall k :: 0 <= k < |rs| ==> Bounded(rs[k], limit)
    ensures r.first < r.last && r.last - r.first <= limit + 1
  {
    LongerMember(rs, r);
    var k :| 0 <= k < |rs| && rs[k] == r;
    assert Bounded(rs[k], limit);
  }

  /** For increasing indices the ranges and the singles are a partition, each in
      order; a range has at least two indices and spans at most `limit + 1`. */
  lemma ExtractedPartition(indices: seq<nat>, limit: int, cut: seq<Range>, i: nat)
    requires Increasing(indices) && Cut(indices, limit, cut)
    ensures i in indices <==> InSome(Longer(cut), i) || i in Alone(cut)
    ensures !(InSome(Longer(cut), i) && i in Alone(cut))
    ensures Ascending(Longer(cut)) && Increasing(Alone(cut))
    ensures forall r :: r in Longer(cut) ==> r.first < r.last && r.last - r.first <= limit + 1
  {
    CutAscends(cut, limit);
    ExpandAllHolds(cut, i);
    LongerOrAlone(cut, i);
    LongerAscends(cut);
    forall r | r in Longer(cut) ensures r.first < r.last && r.last - r.first <= limit + 1 { LongerBounded(cut, limit, r); }
  }

  // ----- there is only one cut ------------------------------------------------

  lemma {:induction false} ExpandFirst(r: Range, rs: seq<Range>)
    ensures ExpandAll([r] + rs) == Expand(r) + ExpandAll(rs)
    decreases |rs|
  {
    hide *;
    NoRanges();
    if rs == [] {
      AddOne([], r);
      assert [r] + rs == [] + [r];
    } else {
      var less, q := Unsnoc(rs);
      ExpandFirst(r, less);
      AddOne(less, q);
      AddOne([r] + less, q);
      assert [r] + rs == [r] + less + [q];
    }
  }

  lemma CutSome(indices: seq<nat>, limit: int, rs: seq<Range>)
    requires Cut(indices, limit, rs) && indices != []
    ensures rs != []
  {
  }

  lemma Uncons(rs: seq<Range>) returns (r: Range, more: seq<Range>)
    requires rs != []
    ensures rs == [r] + more && |more| < |rs| && r == rs[0]
  {
    r, more := rs[0], rs[1..];
  }

  /** The first range of a cut, and the cut of what is left. */
  lemma CutFirst(indices: seq<nat>, limit: int, r: Range, more: seq<Range>)
    requires Cut(indices, limit, [r] + more)
    ensures r.first <= r.last && r.last - r.first + 1 <= |indices| && Bounded(r, limit) && indices[0] == r.first
    ensures forall k :: 0 <= k <= r.last - r.first ==> indices[k] == r.first + k
    ensures Cut(indices[r.last - r.first + 1..], limit, more)
    ensures more != [] ==> Apart(r, more[0], limit)
  {
    var rs := [r] + more;
    assert Bounded(rs[0], limit);
    ExpandFirst(r, more);
    assert |Expand(r)| == r.last - r.first + 1;
    assert indices == Expand(r) + ExpandAll(more);
    forall k | 0 <= k < |more| ensures Bounded(more[k], limit) { assert Bounded(rs[k + 1], limit); }
    forall k | 0 <= k < |more| - 1 ensures Apart(more[k], more[k + 1], limit) {
      assert Apart(rs[k + 1], rs[k + 1 + 1], limit);
    }
    if more != [] { assert Apart(rs[0], rs[0 + 1], limit); }
  }

  lemma FullIsLongest(r: Range, s: Range, q: Range, limit: int)
    requires r.first <= r.last && Apart(r, s, limit) && s.first == r.last + 1
    requires Bounded(q, limit) && q.first == r.first
    ensures q.last <= r.last
  {
  }

  /** No cut has a shorter first range than another. */
  lemma NotShorter(indices: seq<nat>, limit: int, r: Range, rs: seq<Range>, q: Range, qs: seq<Range>)
    requires Cut(indices, limit, [r] + rs) && Cut(indices, limit, [q] + qs)
    ensures q.last <= r.last && r.first == q.first
  {
    hide *;
    CutFirst(indices, limit, r, rs);
    CutFirst(indices, limit, q, qs);
    if r.last < q.last {
      var m := r.last - r.first + 1;
      assert indices[m] == q.first + m;
      CutSome(indices[m..], limit, rs);
      var s, more := Uncons(rs);
      CutFirst(indices[m..], limit, s, more);
      FullIsLongest(r, s, q, limit);
    }
  }

  /** The conditions leave no choice: they determine the cut. */
  lemma {:induction false} CutUnique(indices: seq<nat>, limit: int, rs: seq<Range>, qs: seq<Range>)
    requires Cut(indices, limit, rs) && Cut(indices, limit, qs)
    ensures rs == qs
    decreases |rs|
  {
    hide *;
    if rs == [] {
      CutNothing(indices, limit, rs);
      CutNothing(indices, limit, qs);
    } else {
      CutNothing(indices, limit, rs);
      CutNothing(indices, limit, qs);
      var r, more := Uncons(rs);
      var q, less := Uncons(qs);
      NotShorter(indices, limit, r, more, q, less);
      NotShorter(indices, limit, q, less, r, more);
      CutFirst(indices, limit, r, more);
      CutFirst(indices, limit, q, less);
      CutUnique(indices[r.last - r.first + 1..], limit, more, less);
    }
  }

  lemma CutNothing(indices: seq<nat>, limit: int, rs: seq<Range>)
    requires Cut(indices, limit, rs)
    ensures rs == [] <==> indices == []
  {
    NoRanges();
    if rs != [] {
      var r, more := Uncons(rs);
      CutFirst(indices, limit, r, more);
    }
  }

  /** A range may hold two indices more than the limit says. */
  lemma LimitExceeded(limit: nat)
    ensures Cut(Expand(Range(0, limit + 1)), limit, [Range(0, limit + 1)])
    ensures |Expand(Range(0, limit + 1))| == limit + 2
  {
    AddOne([], Range(0, limit + 1));
    assert [] + [Range(0, limit + 1)] == [Range(0, limit + 1)];
  }

  /** Ranges that follow each other in value follow each other in the list. */
  lemma NextRange(rs: seq<Range>, r: Range, s: Range) returns (k: nat)
    requires Ascending(rs) && r in rs && s in rs && s.first == r.last + 1
    ensures k + 1 < |rs| && rs[k] == r && rs[k + 1] == s
  {
    k :| k < |rs| && rs[k] == r;
    var j: nat :| j < |rs| && rs[j] == s;
    assert k + 1 < |rs| && rs[k].last < rs[k + 1].first <= rs[k + 1].last;
  }

  lemma ApartAt(indices: seq<nat>, limit: int, cut: seq<Range>, k: nat)
    requires Cut(indices, limit, cut) && k + 1 < |cut|
    ensures Apart(cut[k], cut[k + 1], limit)
  {
  }

  /** Of two consecutive indices one at least is in a range, unless the limit is
      negative. */
  lemma NotBothAlone(indices: seq<nat>, limit: int, cut: seq<Range>, i: nat)
    requires Increasing(indices) && Cut(indices, limit, cut) && limit >= 0
    ensures !(i in Alone(cut) && i + 1 in Alone(cut))
  {
    CutAscends(cut, limit);
    hide Cut, Increasing, Alone, Ascending;
    if i in Alone(cut) && i + 1 in Alone(cut) {
      AloneSubset(cut, i);
      AloneSubset(cut, i + 1);
      var r :| r in cut && r.first == i && r.last <= i;
      var s :| s in cut && s.first == i + 1 && s.last <= i + 1;
      OrderedMember(cut, r);
      var k := NextRange(cut, r, s);
      ApartAt(indices, limit, cut, k);
    }
  }

  // ----- when the limit holds ---------------------------------------------------

  /** From position `k` on there are `w + 1` consecutive indices. */
  predicate LongRun(indices: seq<nat>, w: nat, k: nat) {
    k + w < |indices| && indices[k + w] == indices[k] + w
  }

  ghost predicate NoLongRun(indices: seq<nat>, w: nat) {
    forall k: nat :: !LongRun(indices, w, k)
  }

  function Size(r: Range): int { r.last - r.first + 1 }

  ghost predicate AtMost(rs: seq<Range>, w: int) {
    forall r :: r in rs ==> Size(r) <= w
  }

  lemma {:induction false} IncreasingBy(s: seq<nat>, i: nat, j: nat)
    requires Increasing(s) && i <= j < |s|
    ensures s[j] >= s[i] + (j - i)
    decreases j
  {
    if i < j { IncreasingBy(s, i, j - 1); }
  }

  /** Between two ends that are as far apart in value as in position, all indices are
      consecutive. */
  lemma AllConsecutive(s: seq<nat>, w: nat, k: nat, m: nat)
    requires Increasing(s) && LongRun(s, w, k) && k <= m <= k + w
    ensures s[m] == s[k] + (m - k)
  {
    IncreasingBy(s, k, m);
    IncreasingBy(s, m, k + w);
  }

  lemma LongRunLater(s: seq<nat>, w: nat, k: nat, m: nat)
    requires m <= |s|
    ensures LongRun(s[m..], w, k) == LongRun(s, w, k + m)
  {
  }

  lemma IncreasingRest(s: seq<nat>, m: nat)
    requires Increasing(s) && m <= |s|
    ensures Increasing(s[m..])
  {
  }

  /** A run that begins in the first range, which has room for no more than `w`, leaves
      it: the range would have been stretched. */
  lemma FirstHoldsRun(indices: seq<nat>, limit: int, r: Range, more: seq<Range>, w: nat, k: nat)
    requires Increasing(indices) && Cut(indices, limit, [r] + more) && 1 <= w <= limit + 1
    requires Size(r) <= w && k < Size(r)
    ensures !LongRun(indices, w, k)
  {
    if LongRun(indices, w, k) {
      var m := Size(r);
      hide Cut, Increasing;
      CutFirst(indices, limit, r, more);
      AllConsecutive(indices, w, k, m);
      CutSome(indices[m..], limit, more);
      var s, rest := Uncons(more);
      CutFirst(indices[m..], limit, s, rest);
    }
  }

  lemma AtMostFirst(r: Range, more: seq<Range>, w: int)
    ensures AtMost([r] + more, w) <==> Size(r) <= w && AtMost(more, w)
  {
    if AtMost([r] + more, w) {
      assert r in [r] + more;
      forall x | x in more ensures Size(x) <= w { assert x in [r] + more; }
    }
  }

  lemma NoLongRunRest(s: seq<nat>, w: nat, m: nat)
    requires m <= |s| && NoLongRun(s, w)
    ensures NoLongRun(s[m..], w)
  {
    hide LongRun;
    forall k: nat ensures !LongRun(s[m..], w, k) { LongRunLater(s, w, k, m); }
  }

  lemma NoLongRunJoin(s: seq<nat>, w: nat, m: nat)
    requires m <= |s| && NoLongRun(s[m..], w) && forall k: nat :: k < m ==> !LongRun(s, w, k)
    ensures NoLongRun(s, w)
  {
    hide LongRun;
    forall k: nat ensures !LongRun(s, w, k) {
      if k >= m { var i: nat := k - m; LongRunLater(s, w, i, m); }
    }
  }

  lemma NothingRuns(w: nat)
    ensures NoLongRun([], w) && AtMost([], w)
  {
  }

  lemma LongAtOnce(indices: seq<nat>, limit: int, r: Range, more: seq<Range>, w: nat)
    requires Cut(indices, limit, [r] + more) && Size(r) > w
    ensures LongRun(indices, w, 0)
  {
    hide Cut;
    CutFirst(indices, limit, r, more);
  }

  /** No range of the cut has more than `w` indices exactly when the list has no more
      than `w` consecutive indices anywhere. */
  lemma {:induction false} CutAtMostIff(indices: seq<nat>, limit: int, cut: seq<Range>, w: nat)
    requires Increasing(indices) && Cut(indices, limit, cut) && 1 <= w <= limit + 1
    ensures AtMost(cut, w) <==> NoLongRun(indices, w)
    decreases |cut|
  {
    hide Increasing, Cut, LongRun, AtMost, NoLongRun, Bounded;
    CutNothing(indices, limit, cut);
    if cut == [] {
      NothingRuns(w);
    } else {
      var r, more := Uncons(cut);
      CutFirst(indices, limit, r, more);
      var m := Size(r);
      IncreasingRest(indices, m);
      CutAtMostIff(indices[m..], limit, more, w);
      AtMostFirst(r, more, w);
      if m > w {
        LongAtOnce(indices, limit, r, more, w);
        LongRunIs(indices, w, 0);
      } else if AtMost(more, w) {
        forall k: nat | k < m ensures !LongRun(indices, w, k) { FirstHoldsRun(indices, limit, r, more, w, k); }
        NoLongRunJoin(indices, w, m);
      } else if NoLongRun(indices, w) {
        NoLongRunRest(indices, w, m);
      }
    }
  }

  lemma LongRunIs(indices: seq<nat>, w: nat, k: nat)
    requires LongRun(indices, w, k)
    ensures !NoLongRun(indices, w)
  {
  }

  /** The ranges returned have at most `limit` indices, as their documentation says, if
      and only if the list nowhere has more consecutive indices than that.  A limit of
      zero allows no two consecutive indices, and below zero there are no ranges. */
  lemma LimitHoldsIff(indices: seq<nat>, limit: int, cut: seq<Range>)
    requires Increasing(indices) && Cut(indices, limit, cut)
    ensures AtMost(Longer(cut), limit) <==> limit < 0 || NoLongRun(indices, if limit == 0 then 1 else limit)
  {
    forall r ensures r in Longer(cut) <==> r in cut && r.last > r.first { LongerMember(cut, r); }
    if limit < 0 {
      if Longer(cut) != [] { LongerBounded(cut, limit, Longer(cut)[0]); }
    } else {
      var w := if limit == 0 then 1 else limit;
      CutAtMostIff(indices, limit, cut, w);
      hide Longer, Cut, Increasing, NoLongRun;
      if AtMost(Longer(cut), limit) {
        forall r | r in cut ensures Size(r) <= w { assert r.last > r.first ==> r in Longer(cut); }
      }
    }
  }
}
