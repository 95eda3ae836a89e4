/** Loading a trace as the program does: kernels are objects that point to their
    parent and to those that wait for them. */
module TraceLoader {
  import opened KernelTree
  import opened KernelTrace

  class Kernel {
    const appid: int
    var kind: int
    var start: real
    var length: real
    var end: real
    var next: seq<Kernel>
    var parent: Kernel?

    constructor (appid: int, kind: int, start: real, length: real)
      ensures this.appid == appid && this.kind == kind && this.start == start && this.length == length
      ensures this.end == start + length && next == [] && parent == null
    {
      this.appid, this.kind, this.start, this.length := appid, kind, start, length;
      this.end := start + length;
      this.next, this.parent := [], null;
    }

    method SetParent(k: Kernel)
      modifies this`parent
      ensures parent == k
    {
      parent := k;
    }

    /** Refuses a second kernel of the same type. */
    method AddNextKernel(k: Kernel) returns (added: bool)
      modifies this`next
      ensures added <==> forall i :: 0 <= i < |old(next)| ==> old(next)[i].kind != k.kind
      ensures next == if added then old(next) + [k] else old(next)
    {
      for i := 0 to |next|
        invariant next == old(next)
        invariant forall j :: 0 <= j < i ==> next[j].kind != k.kind
      {
        if k.kind == next[i].kind { return false; }
      }
      next := next + [k];
      return true;
    }
  }

  /** The `i`-th object is the `i`-th node, its pointers those of the node. */
  ghost predicate Mirrors(ks: seq<Kernel>, t: seq<Node>, i: nat)
    requires i < |ks| == |t|
    reads ks[i]
  {
    && ks[i].kind == t[i].kind && ks[i].start == t[i].start && ks[i].length == t[i].length && ks[i].end == t[i].End()
    && (if 0 <= t[i].parent < |ks| then ks[i].parent == ks[t[i].parent] else ks[i].parent == null)
    && |ks[i].next| == |t[i].next|
    && forall j :: 0 <= j < |t[i].next| ==> t[i].next[j] < |ks| && ks[i].next[j] == ks[t[i].next[j]]
  }

  ghost predicate Represents(ks: seq<Kernel>, t: seq<Node>)
    reads ks
  {
    && |ks| == |t|
    && (forall i, j :: 0 <= i < j < |ks| ==> ks[i] != ks[j])
    && (forall i :: 0 <= i < |ks| ==> Mirrors(ks, t, i))
  }

  lemma ChildKinds(ks: seq<Kernel>, t: seq<Node>, p: nat)
    requires Rooted(t) && Represents(ks, t) && p < |t|
    ensures |ks[p].next| == |t[p].next|
    ensures forall i :: 0 <= i < |t[p].next| ==>
      t[p].next[i] < |t| && ks[p].next[i] == ks[t[p].next[i]] && ks[p].next[i].kind == t[t[p].next[i]].kind
  {
    assert Mirrors(ks, t, p);
    hide Rooted;
    forall i | 0 <= i < |t[p].next| ensures t[p].next[i] < |t| && ks[p].next[i].kind == t[t[p].next[i]].kind {
      assert Mirrors(ks, t, t[p].next[i]);
    }
  }

  lemma OldMirrors(ks: seq<Kernel>, t: seq<Node>, p: nat, k: Kernel, r: Record, i: nat)
    requires i < |ks| == |t| && p < |t| && i != p && Mirrors(ks, t, i) && t[i].parent < |t|
    ensures |Attach(t, p, r)| == |ks| + 1 && Mirrors(ks + [k], Attach(t, p, r), i)
  {
    AttachAt(t, p, r, i);
  }

  lemma ParentMirrors(ks: seq<Kernel>, t: seq<Node>, p: nat, k: Kernel, r: Record, next: seq<Kernel>)
    requires p < |ks| == |t| && t[p].parent < |t|
    requires ks[p].kind == t[p].kind && ks[p].start == t[p].start && ks[p].length == t[p].length && ks[p].end == t[p].End()
    requires if 0 <= t[p].parent then ks[p].parent == ks[t[p].parent] else ks[p].parent == null
    requires ks[p].next == next + [k] && |next| == |t[p].next|
    requires forall j :: 0 <= j < |next| ==> t[p].next[j] < |ks| && next[j] == ks[t[p].next[j]]
    ensures |Attach(t, p, r)| == |ks| + 1 && Mirrors(ks + [k], Attach(t, p, r), p)
  {
    AttachAt(t, p, r, p);
    hide Attach;
  }

  lemma NewMirrors(ks: seq<Kernel>, t: seq<Node>, p: nat, k: Kernel, r: Record)
    requires |ks| == |t| && p < |t|
    requires k.kind == r.kind && k.start == r.start && k.length == r.length && k.end == r.start + r.length && k.next == []
    requires k.parent == ks[p]
    ensures |Attach(t, p, r)| == |ks| + 1 && Mirrors(ks + [k], Attach(t, p, r), |ks|)
  {
    AttachAt(t, p, r, p);
  }

  lemma ParentsInRange(t: seq<Node>)
    requires Rooted(t)
    ensures forall i :: 0 <= i < |t| ==> t[i].parent < |t|
  {
    forall i | 0 <= i < |t| ensures t[i].parent < |t| { if i > 0 { assert t[i].parent < i; } }
  }

  lemma CanAddIs(t: seq<Node>, p: nat, kind: int)
    requires Rooted(t) && p < |t| && forall i :: 0 <= i < |t[p].next| ==> t[p].next[i] < |t|
    ensures CanAdd(t, p, kind) <==> forall i :: 0 <= i < |t[p].next| ==> t[t[p].next[i]].kind != kind
  {
  }

  lemma RepresentsParts(ks: seq<Kernel>, t: seq<Node>)
    ensures Represents(ks, t) <==>
      && |ks| == |t|
      && (forall i, j :: 0 <= i < j < |ks| ==> ks[i] != ks[j])
      && (forall i :: 0 <= i < |ks| ==> Mirrors(ks, t, i))
  {
  }

  lemma AllMirror(ks: seq<Kernel>, t: seq<Node>, p: nat)
    requires Represents(ks, t) && p < |t|
    ensures |ks| == |t| && (forall i {:trigger ks[i]} :: 0 <= i < |ks| && i != p ==> ks[i] != ks[p])
    ensures forall i :: 0 <= i < |ks| ==> Mirrors(ks, t, i)
  {
    hide Mirrors;
  }

  lemma MirrorsAt(ks: seq<Kernel>, t: seq<Node>, p: nat)
    requires p < |ks| == |t| && Mirrors(ks, t, p)
    ensures ks[p].kind == t[p].kind && ks[p].start == t[p].start && ks[p].length == t[p].length && ks[p].end == t[p].End()
    ensures if 0 <= t[p].parent < |ks| then ks[p].parent == ks[t[p].parent] else ks[p].parent == null
    ensures |ks[p].next| == |t[p].next|
    ensures forall j :: 0 <= j < |t[p].next| ==> t[p].next[j] < |ks| && ks[p].next[j] == ks[t[p].next[j]]
  {
  }

  lemma LongerDistinct(ks: seq<Kernel>, k: Kernel)
    requires k !in ks && forall i, j :: 0 <= i < j < |ks| ==> ks[i] != ks[j]
    ensures forall i, j :: 0 <= i < j < |ks + [k]| ==> (ks + [k])[i] != (ks + [k])[j]
  {
  }

  /** Links a fresh kernel below `par`, unless a kernel of its type is there. */
  method Link(par: Kernel, k: Kernel, ghost ks: seq<Kernel>, ghost t: seq<Node>, ghost p: nat, ghost r: Record)
      returns (added: bool)
    requires Rooted(t) && Represents(ks, t) && p < |t| == |ks| && par == ks[p] && k !in ks
    requires k.kind == r.kind && k.start == r.start && k.length == r.length && k.end == r.start + r.length && k.next == []
    modifies par`next, k`parent
    ensures added <==> CanAdd(t, p, r.kind)
    ensures added ==> Represents(ks + [k], Attach(t, p, r))
    ensures !added ==> Represents(ks, t)
  {
    hide *;
    ChildKinds(ks, t, p);
    CanAddIs(t, p, r.kind);
    ParentsInRange(t);
    RepresentsParts(ks, t);
    AllMirror(ks, t, p);
    MirrorsAt(ks, t, p);
    ghost var next := par.next;
    k.SetParent(par);
    assert forall i: nat :: i < |ks| ==> Mirrors(ks, t, i);
    added := par.AddNextKernel(k);
    assert forall i: nat :: i < |ks| && i != p ==> Mirrors(ks, t, i);
    if added {
      NewMirrors(ks, t, p, k, r);
      ParentMirrors(ks, t, p, k, r, next);
      forall i: nat | i < |ks| ensures Mirrors(ks + [k], Attach(t, p, r), i) {
        if i != p { OldMirrors(ks, t, p, k, r, i); }
      }
      LongerDistinct(ks, k);
      RepresentsParts(ks + [k], Attach(t, p, r));
    } else {
      RepresentsParts(ks, t);
    }
  }

  lemma Links(ks: seq<Kernel>, t: seq<Node>, i: nat)
    requires Represents(ks, t) && i < |t|
    ensures |ks| == |t| && ks[i].end == t[i].End()
    ensures if 0 <= t[i].parent < |ks| then ks[i].parent == ks[t[i].parent] else ks[i].parent == null
    ensures |ks[i].next| == |t[i].next|
    ensures forall j :: 0 <= j < |t[i].next| ==> t[i].next[j] < |ks| && ks[i].next[j] == ks[t[i].next[j]]
  {
    assert Mirrors(ks, t, i);
  }

  lemma ParentIs(t: seq<Node>, i: nat)
    requires Rooted(t) && i < |t|
    ensures t[i].parent == -1 <==> i == 0
    ensures i > 0 ==> 0 <= t[i].parent < i
  {
    if i > 0 { assert t[i].parent < i; }
  }

  /** The search for a brother stops where `LastEnded` does. */
  lemma SearchStops(t: seq<Node>, p: nat, start: real, j: int)
    requires Rooted(t) && p < |t| && -1 <= j < |t[p].next|
    requires j >= 0 ==> t[p].next[j] < |t| && t[t[p].next[j]].End() <= start
    requires forall i :: j < i < |t[p].next| ==> t[p].next[i] < |t| && t[t[p].next[i]].End() > start
    ensures LastEnded(t, p, start, |t[p].next|) == j
  {
  }

  // the four ways `Place` can go

  lemma PlaceBelowLast(t: seq<Node>, r: Record)
    requires Rooted(t) && |t| > 0 && t[|t| - 1].End() <= r.start
    ensures Place(t, r) == if CanAdd(t, |t| - 1, r.kind) then Loaded(Ok, Attach(t, |t| - 1, r)) else Loaded(InvalidType0, t)
  {
    hide CanAdd, Attach;
  }

  lemma PlaceNowhere(t: seq<Node>, r: Record)
    requires Rooted(t) && |t| > 0 && t[|t| - 1].End() > r.start && t[|t| - 1].parent == -1
    ensures Place(t, r) == Loaded(NoParent, t)
  {
  }

  lemma PlaceBelowBrother(t: seq<Node>, r: Record, p: nat, j: int, b: nat)
    requires Rooted(t) && |t| > 0 && t[|t| - 1].End() > r.start && t[|t| - 1].parent == p < |t|
    requires j == LastEnded(t, p, r.start, |t[p].next|) && 0 <= j < |t[p].next| && b == t[p].next[j] < |t|
    ensures Place(t, r) == if CanAdd(t, b, r.kind) then Loaded(Ok, Attach(t, b, r)) else Loaded(InvalidType1, t)
  {
    hide CanAdd, Attach;
  }

  lemma PlaceBelowParent(t: seq<Node>, r: Record, p: nat)
    requires Rooted(t) && |t| > 0 && t[|t| - 1].End() > r.start && t[|t| - 1].parent == p < |t|
    requires LastEnded(t, p, r.start, |t[p].next|) == -1
    ensures Place(t, r) ==
      if t[p].End() > r.start then Loaded(InvalidTime2, t)
      else if CanAdd(t, p, r.kind) then Loaded(Ok, Attach(t, p, r)) else Loaded(Ok, t)
  {
    hide CanAdd, Attach;
  }

  /** Searches the children of `par` backwards for one that has ended. */
  method FindBrother(par: Kernel, start: real, ghost ks: seq<Kernel>, ghost t: seq<Node>, ghost p: nat) returns (j: int)
    requires Rooted(t) && Represents(ks, t) && p < |t| == |ks| && par == ks[p]
    ensures j == LastEnded(t, p, start, |t[p].next|) && -1 <= j < |t[p].next| == |par.next|
    ensures j >= 0 ==> t[p].next[j] < |ks| && par.next[j] == ks[t[p].next[j]]
  {
    hide *;
    Links(ks, t, p);
    j := |par.next| - 1;
    while j >= 0
      invariant -1 <= j < |par.next|
      invariant forall i :: j < i < |t[p].next| ==> t[p].next[i] < |t| && t[t[p].next[i]].End() > start
    {
      Links(ks, t, t[p].next[j]);
      if par.next[j].end <= start {
        SearchStops(t, p, start, j);
        return;
      }
      j := j - 1;
    }
    SearchStops(t, p, start, j);
  }

  /** Hangs the new kernel below `par`. */
  method Hang(par: Kernel, r: Record, appid: int, ghost ks: seq<Kernel>, ghost t: seq<Node>, ghost p: nat)
      returns (added: bool, k: Kernel, ghost newKs: seq<Kernel>)
    requires Rooted(t) && Represents(ks, t) && p < |t| == |ks| && par == ks[p]
    modifies par`next
    ensures fresh(k) && newKs == ks + [k]
    ensures added <==> CanAdd(t, p, r.kind)
    ensures added ==> Represents(newKs, Attach(t, p, r)) && |Attach(t, p, r)| == |newKs|
    ensures !added ==> Represents(ks, t)
  {
    k := new Kernel(appid, r.kind, r.start, r.length);
    added := Link(par, k, ks, t, p, r);
    newKs := ks + [k];
    AttachAt(t, p, r, p);
    hide Represents, Attach, CanAdd;
  }

  /** One record of the trace is read. */
  method AddRecord(appid: int, r: Record, last: Kernel, ghost ks: seq<Kernel>, ghost t: seq<Node>)
      returns (status: Status, newLast: Kernel, ghost newKs: seq<Kernel>)
    requires Rooted(t) && Represents(ks, t) && |ks| == |t| > 0 && last == ks[|t| - 1]
    modifies ks
    ensures status == Place(t, r).status
    ensures ks <= newKs && fresh(newKs[|ks|..])
    ensures status == Ok ==>
      Represents(newKs, Place(t, r).nodes) && |newKs| == |Place(t, r).nodes| > 0 && newLast == newKs[|newKs| - 1]
  {
    hide *;
    ghost var n := |t| - 1;
    Links(ks, t, n);
    ParentIs(t, n);
    var added, k;
    status, newLast, newKs := Ok, last, ks;
    if last.end <= r.start {
      PlaceBelowLast(t, r);
      added, k, newKs := Hang(last, r, appid, ks, t, n);
      if added { newLast := k; } else { status := InvalidType0; }
    } else if last.parent == null {
      PlaceNowhere(t, r);
      status := NoParent;
    } else {
      var par := last.parent;
      ghost var p: nat := t[n].parent;
      Links(ks, t, p);
      var j := FindBrother(par, r.start, ks, t, p);
      if j >= 0 {
        PlaceBelowBrother(t, r, p, j, t[p].next[j]);
        added, k, newKs := Hang(par.next[j], r, appid, ks, t, t[p].next[j]);
        if added { newLast := k; } else { status := InvalidType1; }
      } else {
        PlaceBelowParent(t, r, p);
        if par.end > r.start {
          status := InvalidTime2;
        } else {
          added, k, newKs := Hang(par, r, appid, ks, t, p);
          if added { newLast := k; } else { newKs := ks; }
        }
      }
    }
  }

  lemma OneKernel(k: Kernel)
    requires k.kind == KERNEL && k.start == 0.0 && k.length == 0.0 && k.end == 0.0 && k.next == [] && k.parent == null
    ensures Represents([k], [HEAD])
  {
    assert Mirrors([k], [HEAD], 0);
  }

  lemma BuildNext(records: seq<Record>, i: nat)
    requires i < |records| && Build(records[..i]).status == Ok
    ensures |Build(records[..i]).nodes| > 0
    ensures Build(records[..i + 1]) == Place(Build(records[..i]).nodes, records[i])
  {
    assert records[..i + 1][..i] == records[..i];
    hide Place;
  }

  lemma {:induction false} BuildStops(records: seq<Record>, i: nat)
    requires i <= |records| && Build(records[..i]).status != Ok
    ensures Build(records).status == Build(records[..i]).status
    decreases |records| - i
  {
    if i < |records| {
      assert records[..i + 1][..i] == records[..i];
      BuildStops(records, i + 1);
    } else {
      assert records[..i] == records;
    }
  }

  lemma LoadStatus(records: seq<Record>, length: real)
    ensures Load(records, length).status == Build(records).status
    ensures Build(records).status == Ok ==>
      |Build(records).nodes| > 0
      && Load(records, length).nodes == Attach(Build(records).nodes, |Build(records).nodes| - 1, Tail(length))
      && CanAdd(Build(records).nodes, |Build(records).nodes| - 1, KERNEL)
  {
    if Build(records).status == Ok { LastIsLeaf(Build(records).nodes); }
    hide Attach;
  }

  /** Reads one app's trace into linked kernels: afterwards these are the tree
      that `Load` describes, between its first and its last kernel. */
  method LoadTrace(appid: int, records: seq<Record>, length: real)
      returns (status: Status, first: Kernel, last: Kernel, ghost ks: seq<Kernel>)
    ensures status == Load(records, length).status
    ensures fresh(ks)
    ensures status == Ok ==>
      && Represents(ks, Load(records, length).nodes)
      && |ks| > 0 && first == ks[0] && last == ks[|ks| - 1]
  {
    hide Represents, Build, Load, Rooted, Place, Attach, CanAdd, Tail;
    var head := new Kernel(appid, KERNEL, 0.0, 0.0);
    first, last, ks := head, head, [head];
    status := Ok;
    OneKernel(head);
    BuildNothing();
    LoadStatus(records, length);
    for i := 0 to |records|
      invariant status == Ok == Build(records[..i]).status
      invariant |ks| == |Build(records[..i]).nodes| > 0 && Represents(ks, Build(records[..i]).nodes)
      invariant first == ks[0] && last == ks[|ks| - 1]
      invariant fresh(ks)
    {
      BuildNext(records, i);
      ghost var newKs;
      status, last, newKs := AddRecord(appid, records[i], last, ks, Build(records[..i]).nodes);
      assert newKs == ks + newKs[|ks|..];
      if status != Ok {
        BuildStops(records, i + 1);
        ks := newKs;
        return;
      }
      assert ks[0] == newKs[0];
      ks := newKs;
    }
    assert records[..|records|] == records;
    ghost var t := Build(records).nodes;
    var added, tail, all := Hang(last, Record(KERNEL, length, 0.0), appid, ks, t, |t| - 1);
    assert Record(KERNEL, length, 0.0) == Tail(length) by { TailIs(length); }
    last, ks := tail, all;
  }
}
