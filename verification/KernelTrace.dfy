/** Loading a recorded iteration: each record is hung below the kernel it waits
    for.  First as a step on values, then as the program does it, on linked
    objects. */
module KernelTrace {
  import opened KernelTree

  datatype Record = Record(kind: int, start: real, length: real)

  /** Why a trace is refused.  The numbers are those of the program's messages;
      NoParent stands for following the parent of the head, which is null. */
  datatype Status = Ok | InvalidType0 | InvalidType1 | InvalidTime2 | NoParent

  datatype Loaded = Loaded(status: Status, nodes: seq<Node>)

  const HEAD := Node(KERNEL, 0.0, 0.0, -1, [])

  // ----- the step on values -------------------------------------------------

  /** Two kernels that wait for the same kernel are of different types. */
  ghost predicate SiblingsDiffer(t: seq<Node>)
    requires Rooted(t)
  {
    forall p, i, j :: 0 <= p < |t| && 0 <= i < j < |t[p].next| ==> t[t[p].next[i]].kind != t[t[p].next[j]].kind
  }

  ghost predicate CanAdd(t: seq<Node>, p: nat, kind: int)
    requires Rooted(t) && p < |t|
  {
    forall i :: 0 <= i < |t[p].next| ==> t[t[p].next[i]].kind != kind
  }

  ghost function Attach(t: seq<Node>, p: nat, r: Record): seq<Node>
    requires p < |t|
  {
    t[p := t[p].(next := t[p].next + [|t|])] + [Node(r.kind, r.start, r.length, p, [])]
  }

  /** The last of the first `n` children of `p` that has ended by `start`, or -1. */
  ghost function LastEnded(t: seq<Node>, p: nat, start: real, n: nat): (j: int)
    requires Rooted(t) && p < |t| && n <= |t[p].next|
    ensures -1 <= j < n
    ensures j >= 0 ==> t[t[p].next[j]].End() <= start
    ensures forall i :: j < i < n ==> t[t[p].next[i]].End() > start
  {
    if n == 0 then -1
    else if t[t[p].next[n - 1]].End() <= start then n - 1
    else LastEnded(t, p, start, n - 1)
  }

  /** Hangs a record below the last kernel if that has ended, else below the
      last brother that has, else below the parent.  A record whose type the
      parent already has is dropped. */
  ghost function Place(t: seq<Node>, r: Record): Loaded
    requires Rooted(t)
  {
    var last := |t| - 1;
    if t[last].End() <= r.start then
      if CanAdd(t, last, r.kind) then Loaded(Ok, Attach(t, last, r)) else Loaded(InvalidType0, t)
    else if t[last].parent == -1 then Loaded(NoParent, t)
    else
      var par := t[last].parent;
      var j := LastEnded(t, par, r.start, |t[par].next|);
      if j >= 0 then
        var bro := t[par].next[j];
        if CanAdd(t, bro, r.kind) then Loaded(Ok, Attach(t, bro, r)) else Loaded(InvalidType1, t)
      else if t[par].End() > r.start then Loaded(InvalidTime2, t)
      else if CanAdd(t, par, r.kind) then Loaded(Ok, Attach(t, par, r))
      else Loaded(Ok, t)
  }

  ghost function Build(records: seq<Record>): (l: Loaded)
    ensures Rooted(l.nodes)
  {
    if records == [] then Loaded(Ok, [HEAD])
    else
      var l := Build(records[..|records| - 1]);
      if l.status != Ok then l
      else
        PlaceRooted(l.nodes, records[|records| - 1]);
        Place(l.nodes, records[|records| - 1])
  }

  ghost function Tail(length: real): Record { Record(KERNEL, length, 0.0) }

  /** The whole trace: the records, then an empty kernel at the end of the
      iteration, hung below the last kernel without looking at the time. */
  ghost function Load(records: seq<Record>, length: real): Loaded {
    var l := Build(records);
    if l.status != Ok then l else Loaded(Ok, Attach(l.nodes, |l.nodes| - 1, Tail(length)))
  }

  // ----- what loading keeps -------------------------------------------------

  /** An old kernel keeps everything but, for `p`, one more child. */
  lemma AttachAt(t: seq<Node>, p: nat, r: Record, k: nat)
    requires p < |t| && k < |t|
    ensures |Attach(t, p, r)| == |t| + 1
    ensures Attach(t, p, r)[k] == if k == p then t[p].(next := t[p].next + [|t|]) else t[k]
    ensures Attach(t, p, r)[|t|] == Node(r.kind, r.start, r.length, p, [])
  {
  }

  lemma AttachParent(t: seq<Node>, p: nat, r: Record, k: nat)
    requires Rooted(t) && p < |t| && 0 < k <= |t|
    ensures |Attach(t, p, r)| == |t| + 1
    ensures 0 <= Attach(t, p, r)[k].parent < k
    ensures k in Attach(t, p, r)[Attach(t, p, r)[k].parent].next
  {
    var u := Attach(t, p, r);
    if k < |t| {
      AttachAt(t, p, r, k);
      AttachAt(t, p, r, t[k].parent);
      assert k in t[t[k].parent].next;
    } else {
      AttachAt(t, p, r, p);
      assert u[p].next[|t[p].next|] == |t|;
    }
  }

  lemma AttachChild(t: seq<Node>, p: nat, r: Record, q: nat, j: nat)
    requires Rooted(t) && p < |t| && q <= |t| && |Attach(t, p, r)| == |t| + 1 && j < |Attach(t, p, r)[q].next|
    ensures var u := Attach(t, p, r); 0 < u[q].next[j] < |u| && u[u[q].next[j]].parent == q
    ensures forall i :: 0 <= i < j ==> Attach(t, p, r)[q].next[i] != Attach(t, p, r)[q].next[j]
  {
    AttachAt(t, p, r, p);
    if q < |t| {
      AttachAt(t, p, r, q);
      if j < |t[q].next| { AttachAt(t, p, r, t[q].next[j]); }
    }
  }

  lemma AttachRooted(t: seq<Node>, p: nat, r: Record)
    requires Rooted(t) && p < |t|
    ensures Rooted(Attach(t, p, r))
  {
    var u := Attach(t, p, r);
    AttachAt(t, p, r, 0);
    assert t[0].parent == -1;
    hide Attach;
    forall k: nat | 0 < k < |u| ensures 0 <= u[k].parent < k && k in u[u[k].parent].next { AttachParent(t, p, r, k); }
    forall q: nat, j: nat | q < |u| && j < |u[q].next|
      ensures 0 < u[q].next[j] < |u| && u[u[q].next[j]].parent == q
      ensures forall i :: 0 <= i < j ==> u[q].next[i] != u[q].next[j]
    {
      AttachChild(t, p, r, q, j);
    }
  }

  lemma PlaceRooted(t: seq<Node>, r: Record)
    requires Rooted(t)
    ensures Rooted(Place(t, r).nodes)
  {
    var l := Place(t, r);
    if l.nodes != t {
      var p: nat :| p < |t| && l.nodes == Attach(t, p, r);
      AttachRooted(t, p, r);
    }
  }

  /** The link above kernel `k` respects time. */
  ghost predicate LinkOrdered(t: seq<Node>, k: nat)
    requires k < |t| && 0 <= t[k].parent < |t|
  {
    t[t[k].parent].End() <= t[k].start
  }

  lemma AttachLink(t: seq<Node>, p: nat, r: Record, k: nat, u: seq<Node>)
    requires Rooted(t) && p < |t| && 0 < k < |t| && u == Attach(t, p, r) && |u| == |t| + 1
    ensures 0 <= t[k].parent < |t| && u[k].parent == t[k].parent && LinkOrdered(u, k) == LinkOrdered(t, k)
  {
    assert t[k].parent < k;
    hide Rooted;
    AttachAt(t, p, r, k);
    AttachAt(t, p, r, t[k].parent);
  }

  lemma AttachNewLink(t: seq<Node>, p: nat, r: Record, u: seq<Node>)
    requires p < |t| && u == Attach(t, p, r) && |u| == |t| + 1
    ensures u[|t|].parent == p && LinkOrdered(u, |t|) == (t[p].End() <= r.start)
  {
    AttachAt(t, p, r, p);
    hide Attach;
  }

  lemma OrderedLinks(t: seq<Node>)
    requires Rooted(t)
    ensures forall k: nat :: 0 < k < |t| ==> 0 <= t[k].parent < |t|
    ensures Ordered(t) <==> forall k: nat :: 0 < k < |t| ==> LinkOrdered(t, k)
  {
    assert forall k: nat :: 0 < k < |t| ==> t[k].parent < k;
    if forall k: nat :: 0 < k < |t| ==> LinkOrdered(t, k) {
      forall k | 0 < k < |t| ensures t[t[k].parent].End() <= t[k].start { assert LinkOrdered(t, k); }
    }
  }

  lemma AttachOrdered(t: seq<Node>, p: nat, r: Record)
    requires Rooted(t) && p < |t|
    ensures Rooted(Attach(t, p, r))
    ensures Ordered(Attach(t, p, r)) <==> Ordered(t) && t[p].End() <= r.start
  {
    hide *;
    AttachRooted(t, p, r);
    AttachAt(t, p, r, p);
    var u := Attach(t, p, r);
    OrderedLinks(t);
    OrderedLinks(u);
    forall k: nat | 0 < k < |t| ensures LinkOrdered(u, k) == LinkOrdered(t, k) { AttachLink(t, p, r, k, u); }
    AttachNewLink(t, p, r, u);
  }

  lemma AttachDifferAt(t: seq<Node>, p: nat, r: Record, q: nat, i: nat, j: nat)
    requires Rooted(t) && p < |t| && SiblingsDiffer(t) && CanAdd(t, p, r.kind)
    requires |Attach(t, p, r)| == |t| + 1 && q <= |t| && i < j < |Attach(t, p, r)[q].next|
    requires Attach(t, p, r)[q].next[i] <= |t| && Attach(t, p, r)[q].next[j] <= |t|
    ensures var u := Attach(t, p, r); u[u[q].next[i]].kind != u[u[q].next[j]].kind
  {
    AttachAt(t, p, r, p);
    assert q < |t|;
    AttachAt(t, p, r, q);
    assert t[q].next[i] < |t|;
    AttachAt(t, p, r, t[q].next[i]);
    if j < |t[q].next| {
      assert t[q].next[j] < |t|;
      AttachAt(t, p, r, t[q].next[j]);
    }
  }

  lemma AttachDiffer(t: seq<Node>, p: nat, r: Record)
    requires Rooted(t) && p < |t| && SiblingsDiffer(t) && CanAdd(t, p, r.kind)
    ensures Rooted(Attach(t, p, r)) && SiblingsDiffer(Attach(t, p, r))
  {
    AttachRooted(t, p, r);
    var u := Attach(t, p, r);
    hide Attach, SiblingsDiffer, CanAdd;
    forall q: nat, i: nat, j: nat | q < |u| && i < j < |u[q].next|
      ensures u[u[q].next[i]].kind != u[u[q].next[j]].kind
    {
      AttachAt(t, p, r, p);
      AttachDifferAt(t, p, r, q, i, j);
    }
    AllDiffer(u);
  }

  lemma AllDiffer(u: seq<Node>)
    requires Rooted(u)
    requires forall q: nat, i: nat, j: nat :: q < |u| && i < j < |u[q].next| ==> u[u[q].next[i]].kind != u[u[q].next[j]].kind
    ensures SiblingsDiffer(u)
  {
  }

  lemma ChildIsLater(t: seq<Node>, p: nat, j: nat)
    requires Rooted(t) && p < |t| && j < |t[p].next|
    ensures p < t[p].next[j] < |t|
  {
  }

  /** The last kernel never has a child, so nothing is refused below it. */
  lemma LastIsLeaf(t: seq<Node>)
    requires Rooted(t)
    ensures t[|t| - 1].next == []
  {
    assert |t| > 0;
    hide Rooted;
    if t[|t| - 1].next != [] { ChildIsLater(t, |t| - 1, 0); }
  }

  lemma PlaceAttaches(t: seq<Node>, r: Record)
    requires Rooted(t)
    ensures var l := Place(t, r);
      l.nodes == t || exists p: nat :: p < |t| && l.nodes == Attach(t, p, r) && CanAdd(t, p, r.kind) && t[p].End() <= r.start
  {
    hide Attach, CanAdd;
  }

  /** When a record is refused. */
  lemma PlaceStatus(t: seq<Node>, r: Record)
    requires Rooted(t)
    ensures Place(t, r).status != InvalidType0
    ensures Place(t, r).status == NoParent <==> |t| == 1 && t[0].End() > r.start
    ensures Place(t, r).status == Ok && t[|t| - 1].End() <= r.start ==> |Place(t, r).nodes| > |t|
  {
    LastIsLeaf(t);
  }

  /** One record keeps the tree, its order in time and the difference of brothers. */
  lemma PlaceKeeps(t: seq<Node>, r: Record)
    requires Rooted(t) && Ordered(t) && SiblingsDiffer(t)
    ensures var l := Place(t, r); Rooted(l.nodes) && Ordered(l.nodes) && SiblingsDiffer(l.nodes)
  {
    PlaceAttaches(t, r);
    var l := Place(t, r);
    hide Rooted, Ordered, SiblingsDiffer, Place;
    if l.nodes != t {
      var p: nat :| p < |t| && l.nodes == Attach(t, p, r) && CanAdd(t, p, r.kind) && t[p].End() <= r.start;
      AttachOrdered(t, p, r);
      AttachDiffer(t, p, r);
    }
  }

  // ----- whole traces -------------------------------------------------------

  lemma {:induction false} BuildKeeps(records: seq<Record>)
    ensures Ordered(Build(records).nodes) && SiblingsDiffer(Build(records).nodes)
  {
    if records != [] {
      BuildKeeps(records[..|records| - 1]);
      var l := Build(records[..|records| - 1]);
      if l.status == Ok { PlaceKeeps(l.nodes, records[|records| - 1]); }
    }
  }

  /** After the first record the last kernel is no longer the head. */
  lemma {:induction false} BuildStatus(records: seq<Record>)
    ensures Build(records).status != InvalidType0
    ensures Build(records).status == NoParent <==> records != [] && records[0].start < 0.0
    ensures Build(records).nodes[0].End() == 0.0
    ensures records != [] && Build(records).status == Ok ==> |Build(records).nodes| > 1
  {
    if records != [] {
      var before := records[..|records| - 1];
      BuildStatus(before);
      var l := Build(before);
      if l.status == Ok {
        PlaceStatus(l.nodes, records[|records| - 1]);
        PlaceAttaches(l.nodes, records[|records| - 1]);
      }
      hide Place, Rooted;
      assert before != [] ==> before[0] == records[0];
    }
  }

  /** The parent of the head is followed exactly when the first record starts
      before time zero; the complaint about the last kernel's child never occurs. */
  lemma NullParentIffNegativeStart(records: seq<Record>, length: real)
    ensures Load(records, length).status == NoParent <==> records != [] && records[0].start < 0.0
    ensures Load(records, length).status != InvalidType0
  {
    BuildStatus(records);
  }

  function Content(n: Node): Record { Record(n.kind, n.start, n.length) }

  ghost predicate Subsequence(s: seq<Node>, r: seq<Record>)
    decreases |r|
  {
    if s == [] then true
    else if r == [] then false
    else if Content(s[|s| - 1]) == r[|r| - 1] && Subsequence(s[..|s| - 1], r[..|r| - 1]) then true
    else Subsequence(s, r[..|r| - 1])
  }

  lemma SameContent(s: seq<Node>, u: seq<Node>, r: seq<Record>)
    requires |s| == |u| && forall i :: 0 <= i < |s| ==> Content(s[i]) == Content(u[i])
    ensures Subsequence(s, r) == Subsequence(u, r)
    decreases |r|
  {
    if s != [] && r != [] {
      SameContent(s[..|s| - 1], u[..|u| - 1], r[..|r| - 1]);
      SameContent(s, u, r[..|r| - 1]);
    }
  }

  lemma AttachInOrder(t: seq<Node>, p: nat, r: Record, u: seq<Node>, before: seq<Record>)
    requires p < |t| && u == Attach(t, p, r) && Subsequence(t[1..], before)
    ensures Subsequence(u[1..], before + [r])
  {
    AttachAt(t, p, r, p);
    var all := before + [r];
    assert all[..|all| - 1] == before;
    assert u[1..][..|u[1..]| - 1] == u[1..|t|];
    forall i | 0 <= i < |t| - 1 ensures Content(u[1..|t|][i]) == Content(t[1..][i]) { AttachAt(t, p, r, i + 1); }
    hide Attach;
    SameContent(u[1..|t|], t[1..], before);
  }

  lemma DropInOrder(s: seq<Node>, r: Record, before: seq<Record>)
    requires Subsequence(s, before)
    ensures Subsequence(s, before + [r])
  {
    assert (before + [r])[..|before|] == before;
  }

  /** What the last record of a trace did. */
  lemma BuildStep(records: seq<Record>, before: seq<Record>, r: Record) returns (p: nat)
    requires Build(records).status == Ok && records == before + [r]
    ensures Build(before).status == Ok && |Build(before).nodes| > 0
    ensures p < |Build(before).nodes|
    ensures Build(records).nodes == Build(before).nodes || Build(records).nodes == Attach(Build(before).nodes, p, r)
  {
    assert before == records[..|records| - 1] && r == records[|records| - 1];
    var t := Build(before).nodes;
    PlaceAttaches(t, r);
    hide Place, Attach, CanAdd;
    p := 0;
    if Build(records).nodes != t { p :| p < |t| && Build(records).nodes == Attach(t, p, r); }
  }

  lemma BuildNothing()
    ensures Build([]) == Loaded(Ok, [HEAD])
  {
  }

  lemma Unsnoc(records: seq<Record>) returns (before: seq<Record>, r: Record)
    requires records != []
    ensures records == before + [r] && |before| < |records|
  {
    before, r := records[..|records| - 1], records[|records| - 1];
  }

  lemma NothingInOrder(records: seq<Record>)
    ensures Subsequence([], records)
  {
  }

  /** The loaded kernels are records of the trace, in their order. */
  lemma {:induction false} LoadedInOrder(records: seq<Record>)
    requires Build(records).status == Ok
    ensures |Build(records).nodes| > 0 && Subsequence(Build(records).nodes[1..], records)
    decreases |records|
  {
    hide *;
    if records == [] {
      BuildNothing();
      NothingInOrder(records);
      assert Build(records).nodes[1..] == [];
    } else {
      var before, r := Unsnoc(records);
      var p := BuildStep(records, before, r);
      LoadedInOrder(before);
      var t, u := Build(before).nodes, Build(records).nodes;
      AttachAt(t, p, r, p);
      if u != t { AttachInOrder(t, p, r, u, before); } else { DropInOrder(t[1..], r, before); }
    }
  }

  lemma {:induction false} SubsequenceMember(s: seq<Node>, r: seq<Record>, n: Node)
    requires Subsequence(s, r) && n in s
    ensures Content(n) in r
    decreases |r|
  {
    if r != [] {
      if Content(s[|s| - 1]) == r[|r| - 1] && Subsequence(s[..|s| - 1], r[..|r| - 1]) {
        if n in s[..|s| - 1] { SubsequenceMember(s[..|s| - 1], r[..|r| - 1], n); }
      } else {
        SubsequenceMember(s, r[..|r| - 1], n);
      }
    }
  }

  lemma {:induction false} BuildHead(records: seq<Record>)
    requires Build(records).status == Ok
    ensures |Build(records).nodes| > 0 && Content(Build(records).nodes[0]) == Content(HEAD)
    decreases |records|
  {
    hide Build, Attach;
    if records == [] {
      BuildNothing();
    } else {
      var before, r := Unsnoc(records);
      var p := BuildStep(records, before, r);
      BuildHead(before);
      AttachAt(Build(before).nodes, p, r, 0);
    }
  }

  lemma LoadForm(records: seq<Record>, length: real, b: seq<Node>)
    requires Load(records, length).status == Ok && b == Build(records).nodes && |b| > 0
    ensures Load(records, length).nodes == Attach(b, |b| - 1, Tail(length))
    ensures Build(records).status == Ok && Rooted(b)
  {
    hide Attach, Rooted;
  }

  lemma LastAddable(t: seq<Node>, kind: int)
    requires Rooted(t) && |t| > 0
    ensures CanAdd(t, |t| - 1, kind)
  {
    LastIsLeaf(t);
    hide Rooted;
  }

  lemma TailEnds(t: seq<Node>, length: real)
    requires |t| > 0
    ensures var u := Attach(t, |t| - 1, Tail(length));
      |u| == |t| + 1 && u[|t|].End() == length && u[0].start == t[0].start
  {
    AttachAt(t, |t| - 1, Tail(length), 0);
    hide Attach;
  }

  lemma BuildOk(records: seq<Record>, length: real)
    requires Load(records, length).status == Ok
    ensures Build(records).status == Ok
  {
    hide Build, Attach;
  }

  /** A loaded trace is a tree in which brothers differ.  All its links respect
      time but, perhaps, the one to the closing kernel: that one does exactly
      when the last recorded kernel ends within the iteration. */
  lemma LoadedIsTree(records: seq<Record>, length: real)
    requires Load(records, length).status == Ok
    ensures |Build(records).nodes| > 0
    ensures var t := Load(records, length).nodes;
      && Rooted(t) && SiblingsDiffer(t)
      && t[|t| - 1].End() == length && t[0].start == 0.0
      && (Ordered(t) <==> Build(records).nodes[|Build(records).nodes| - 1].End() <= length)
  {
    hide *;
    BuildOk(records, length);
    BuildKeeps(records);
    BuildHead(records);
    var b := Build(records).nodes;
    HeadStarts(b[0]);
    TailIs(length);
    LoadForm(records, length, b);
    LastAddable(b, KERNEL);
    AttachOrdered(b, |b| - 1, Tail(length));
    AttachDiffer(b, |b| - 1, Tail(length));
    TailEnds(b, length);
  }

  lemma HeadStarts(n: Node)
    requires Content(n) == Content(HEAD)
    ensures n.start == 0.0
  {
  }

  lemma TailIs(length: real)
    ensures Tail(length) == Record(KERNEL, length, 0.0)
  {
  }

  /** Between its head and its closing kernel a loaded trace holds records only. */
  lemma LoadedIsRecorded(records: seq<Record>, length: real, k: nat)
    requires Load(records, length).status == Ok && 0 < k < |Load(records, length).nodes| - 1
    ensures Content(Load(records, length).nodes[k]) in records
  {
    var b := Build(records).nodes;
    LoadedInOrder(records);
    AttachAt(b, |b| - 1, Tail(length), k);
    assert b[1..][k - 1] == b[k];
    hide Build, Subsequence;
    SubsequenceMember(b[1..], records, b[k]);
  }
}
