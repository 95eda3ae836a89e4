/** What every turn of the simulator's loop keeps, whatever the event times are:
    the queue holds exactly the kernels that may be in flight, and the counters
    count it. */
module ColocationStructure {
  import opened Bags
  import opened KernelTree
  import opened Colocation

  function Is(a: int, k: int): Event -> bool { (e: Event) => e.app == a && e.kernel == k }

  function Of(a: int): Event -> bool { (e: Event) => e.app == a }

  function RunningOf(t: int): Event -> bool { (e: Event) => e.running && e.kind == t }

  function Bit(b: bool): nat { if b then 1 else 0 }

  /** A kernel is in flight in the current iteration: what it waits for has
      finished and it has not. */
  ghost predicate Live(apps: seq<App>, done: seq<set<nat>>, a: nat, k: nat)
    requires a < |apps| == |done| && k < |apps[a].nodes|
  {
    k !in done[a] && (k == 0 || apps[a].nodes[k].parent in done[a])
  }

  ghost predicate DoneClosed(apps: seq<App>, done: seq<set<nat>>)
    requires |apps| == |done|
  {
    forall a, k: nat :: 0 <= a < |apps| && k in done[a] ==>
      k < |apps[a].nodes| && (k > 0 ==> apps[a].nodes[k].parent in done[a])
  }

  ghost predicate QueueExact(apps: seq<App>, q: multiset<Event>, done: seq<set<nat>>)
    requires |apps| == |done|
  {
    forall a: nat, k: nat :: a < |apps| && k < |apps[a].nodes| ==>
      Count(Is(a, k), q) == Bit(Live(apps, done, a, k))
  }

  ghost predicate Counted(apps: seq<App>, s: State)
    requires Sized(apps, s)
  {
    && (forall a :: 0 <= a < |apps| ==> s.ac[a] == Count(Of(a), s.evtq))
    && (forall t :: 1 <= t <= 3 ==> s.count[t] == Count(RunningOf(t), s.evtq))
    && s.count[0] == 0 && s.count[1] <= 1
  }

  ghost predicate Tallied(apps: seq<App>, max: real, s: State)
    requires Sized(apps, s)
  {
    && (forall a :: 0 <= a < |apps| ==> 1 <= s.loop[a] <= Loops(max, apps[a]))
    && (forall a, k :: 0 <= a < |apps| && 0 <= k < |apps[a].nodes| ==>
          s.fin[a][k] == Loops(max, apps[a]) - s.loop[a] + Bit(k in s.done[a]))
  }

  ghost predicate Structural(apps: seq<App>, max: real, s: State)
  {
    && Sized(apps, s)
    && DoneClosed(apps, s.done)
    && QueueExact(apps, s.evtq, s.done)
    && Counted(apps, s)
    && Tallied(apps, max, s)
  }

  /** Between turns an app with nothing in flight has no iteration left. */
  ghost predicate Settled(s: State)
    requires |s.ac| == |s.loop|
  {
    forall a :: 0 <= a < |s.ac| && s.ac[a] == 0 ==> s.loop[a] == 1
  }

  ghost predicate SameCounts(q: multiset<Event>, r: multiset<Event>) {
    && (forall a, k :: Count(Is(a, k), q) == Count(Is(a, k), r))
    && (forall a :: Count(Of(a), q) == Count(Of(a), r))
    && (forall t :: Count(RunningOf(t), q) == Count(RunningOf(t), r))
  }

  lemma RescaleSameCounts(q: multiset<Event>, kind: int, now: real, num: int, den: int)
    requires den != 0
    ensures SameCounts(Image(Rescale(kind, now, num, den), q), q)
  {
    var f := Rescale(kind, now, num, den);
    forall a, k ensures Count(Is(a, k), Image(f, q)) == Count(Is(a, k), q) { CountImage(Is(a, k), Is(a, k), f, q); }
    forall a ensures Count(Of(a), Image(f, q)) == Count(Of(a), q) { CountImage(Of(a), Of(a), f, q); }
    forall t ensures Count(RunningOf(t), Image(f, q)) == Count(RunningOf(t), q) {
      CountImage(RunningOf(t), RunningOf(t), f, q);
    }
  }

  lemma SameCountsAdd(q: multiset<Event>, r: multiset<Event>, e: Event)
    requires SameCounts(q, r)
    ensures SameCounts(multiset{e} + q, r + multiset{e})
  {
    assert multiset{e} + q == q + multiset{e};
    forall a, k ensures Count(Is(a, k), q + multiset{e}) == Count(Is(a, k), r + multiset{e}) {
      CountAdd(Is(a, k), q, e); CountAdd(Is(a, k), r, e);
    }
    forall a ensures Count(Of(a), q + multiset{e}) == Count(Of(a), r + multiset{e}) {
      CountAdd(Of(a), q, e); CountAdd(Of(a), r, e);
    }
    forall t ensures Count(RunningOf(t), q + multiset{e}) == Count(RunningOf(t), r + multiset{e}) {
      CountAdd(RunningOf(t), q, e); CountAdd(RunningOf(t), r, e);
    }
  }

  /** Only the counts of the queue matter. */
  lemma StructuralTransfer(apps: seq<App>, max: real, s: State, q: multiset<Event>)
    requires Structural(apps, max, s) && SameCounts(q, s.evtq)
    requires forall e :: e in q ==> EventOf(apps, e)
    ensures Structural(apps, max, s.(evtq := q))
  {
  }

  /** An event in the queue belongs to a live kernel. */
  lemma InFlightIsLive(apps: seq<App>, q: multiset<Event>, done: seq<set<nat>>, e: Event)
    requires AllShaped(apps) && |done| == |apps| && QueueExact(apps, q, done) && e in q && EventOf(apps, e)
    ensures Live(apps, done, e.app, e.kernel)
  {
    CountPick(Is(e.app, e.kernel), q, e);
  }

  lemma EventInRange(apps: seq<App>, s: State, e: Event)
    requires Sized(apps, s) && e in s.evtq
    ensures 1 <= e.kind <= 3 && |s.count| == 4
    ensures e.app < |apps| && Shaped(apps[e.app]) && e.kernel < |apps[e.app].nodes|
  {
    assert EventOf(apps, e) && Shaped(apps[e.app]);
    hide AllShaped, Shaped;
  }

  lemma SwapExact(apps: seq<App>, s: State, e: Event, f: Event)
    requires |s.done| == |apps| && QueueExact(apps, s.evtq, s.done) && e in s.evtq
    requires f.app == e.app && f.kernel == e.kernel
    ensures QueueExact(apps, s.evtq - multiset{e} + multiset{f}, s.done)
  {
    hide Live, Count;
    forall a: nat, k: nat | a < |apps| && k < |apps[a].nodes|
      ensures Count(Is(a, k), s.evtq - multiset{e} + multiset{f}) == Bit(Live(apps, s.done, a, k))
    {
      CountReplace(Is(a, k), s.evtq, e, f);
    }
  }

  lemma SwapCounted(apps: seq<App>, s: State, e: Event, f: Event, s': State)
    requires Sized(apps, s) && Counted(apps, s) && e in s.evtq && f.app == e.app && f.kind == e.kind && 1 <= e.kind <= 3
    requires s'.evtq == s.evtq - multiset{e} + multiset{f} && s'.ac == s.ac && |s.count| == 4
    requires s'.count == s.count[e.kind := s.count[e.kind] + Bit(f.running) - Bit(e.running)]
    requires s'.count[1] <= 1 && Sized(apps, s')
    ensures Counted(apps, s')
  {
    hide AllShaped, EventOf, Count;
    forall a | 0 <= a < |apps| ensures s'.ac[a] == Count(Of(a), s'.evtq) { CountReplace(Of(a), s.evtq, e, f); }
    forall t | 1 <= t <= 3 ensures s'.count[t] == Count(RunningOf(t), s'.evtq) {
      CountReplace(RunningOf(t), s.evtq, e, f);
    }
  }

  lemma SwapSized(apps: seq<App>, s: State, e: Event, f: Event, s': State)
    requires Sized(apps, s) && e in s.evtq
    requires f.app == e.app && f.kernel == e.kernel && f.kind == e.kind && f.length == e.length
    requires s' == s.(evtq := s.evtq - multiset{e} + multiset{f}, kSch := s'.kSch, count := s'.count) && |s'.count| == 4
    ensures Sized(apps, s') && 1 <= e.kind <= 3 && |s.count| == 4
  {
    hide Shaped;
    assert EventOf(apps, e) && EventOf(apps, f);
    hide EventOf;
  }

  lemma SwapTallied(apps: seq<App>, max: real, s: State, s': State)
    requires Sized(apps, s) && Sized(apps, s') && Tallied(apps, max, s)
    requires s'.loop == s.loop && s'.fin == s.fin && s'.done == s.done
    ensures Tallied(apps, max, s')
  {
    hide AllShaped, EventOf, Loops;
  }

  lemma StructuralParts(apps: seq<App>, max: real, s: State)
    ensures Structural(apps, max, s) <==>
      Sized(apps, s) && DoneClosed(apps, s.done) && QueueExact(apps, s.evtq, s.done)
      && Counted(apps, s) && Tallied(apps, max, s)
    ensures Sized(apps, s) ==> |s.done| == |apps| && |s.count| == 4
  {
    hide AllShaped, DoneClosed, QueueExact, Counted, Tallied;
  }

  /** Replacing an event by another of the same kernel. */
  lemma SwapKeeps(apps: seq<App>, max: real, s: State, e: Event, f: Event, s': State)
    requires Structural(apps, max, s) && e in s.evtq
    requires f.app == e.app && f.kernel == e.kernel && f.kind == e.kind && f.length == e.length
    requires s' == s.(evtq := s.evtq - multiset{e} + multiset{f}, kSch := s'.kSch,
                      count := s.count[e.kind := s.count[e.kind] + Bit(f.running) - Bit(e.running)])
    requires s'.count[1] <= 1
    ensures Structural(apps, max, s')
  {
    hide *;
    StructuralParts(apps, max, s);
    EventInRange(apps, s, e);
    SwapSized(apps, s, e, f, s');
    SwapExact(apps, s, e, f);
    SwapCounted(apps, s, e, f, s');
    SwapTallied(apps, max, s, s');
    StructuralParts(apps, max, s');
  }

  lemma StartKernelKeeps(apps: seq<App>, max: real, s: State, e: Event)
    requires Structural(apps, max, s) && e in s.evtq && !e.running && e.kind == 1 && s.count[1] == 0
    ensures Structural(apps, max, StartKernel(s, e))
  {
    SwapKeeps(apps, max, s, e, e.(running := true, time := s.now + e.length), StartKernel(s, e));
  }

  lemma RetryKeeps(apps: seq<App>, max: real, s: State, e: Event)
    requires Structural(apps, max, s) && e in s.evtq && !e.running
    ensures Structural(apps, max, Retry(s, e))
  {
    assert s.count[e.kind := s.count[e.kind]] == s.count;
    SwapKeeps(apps, max, s, e, e.(time := RetryTime(e, s.now, s.kSch)), Retry(s, e));
  }

  /** A copy starts running at any time `run.time`, and the rest of its channel
      is rescaled. */
  lemma JoinKeeps(apps: seq<App>, max: real, s: State, e: Event, run: Event, c: int)
    requires Structural(apps, max, s) && e in s.evtq && !e.running && 2 <= e.kind <= 3
    requires run == e.(running := true, time := run.time) && c == s.count[e.kind] + 1 && c >= 1
    ensures Structural(apps, max, s.(count := s.count[e.kind := c], evtq := s.evtq - multiset{e} + multiset{run}))
    ensures c > 1 ==>
      Structural(apps, max, s.(count := s.count[e.kind := c],
        evtq := multiset{run} + Image(Rescale(e.kind, s.now, c, c - 1), s.evtq - multiset{e})))
  {
    assert EventOf(apps, run);
    var rest := s.evtq - multiset{e};
    var s1 := s.(count := s.count[e.kind := c], evtq := rest + multiset{run});
    SwapKeeps(apps, max, s, e, run, s1);
    if c > 1 {
      hide Count, Image, Rooted, AllShaped, DoneClosed, QueueExact, Counted, Tallied, SameCounts, EventOf, Rescale, RescaledTime;
      RescaleSameCounts(rest, e.kind, s.now, c, c - 1);
      var fast := Image(Rescale(e.kind, s.now, c, c - 1), rest);
      SameCountsAdd(fast, rest, run);
      RescaledSized(apps, rest, e.kind, s.now, c, c - 1);
      StructuralTransfer(apps, max, s1, multiset{run} + fast);
    }
  }

  lemma StartCopyForm(s: State, e: Event, c: int, run: Event)
    requires |s.count| == 4 && 2 <= e.kind <= 3 && s.count[e.kind] >= 0
    requires c == s.count[e.kind] + 1 && run == e.(running := true, time := CopyEnd(s.now, e.length, c))
    ensures StartCopy(s, e) == s.(count := s.count[e.kind := c],
      evtq := if c == 1 then s.evtq - multiset{e} + multiset{run}
              else multiset{run} + Image(Rescale(e.kind, s.now, c, c - 1), s.evtq - multiset{e}))
  {
    hide Image, Rescale, CopyEnd;
  }

  lemma StartCopyKeeps(apps: seq<App>, max: real, s: State, e: Event)
    requires Structural(apps, max, s) && e in s.evtq && !e.running && e.kind != 1
    ensures Structural(apps, max, StartCopy(s, e))
  {
    assert EventOf(apps, e) && s.count[e.kind] == Count(RunningOf(e.kind), s.evtq);
    var c := s.count[e.kind] + 1;
    assert 2 <= e.kind <= 3 && c >= 1 && |s.count| == 4;
    hide *;
    var run := e.(running := true, time := CopyEnd(s.now, e.length, c));
    StartCopyForm(s, e, c, run);
    JoinKeeps(apps, max, s, e, run, c);
  }

  // ----- finishing ----------------------------------------------------------

  lemma PrefixMember<T>(s: seq<T>, n: nat, x: T)
    requires 0 < n <= |s|
    ensures x in s[..n] <==> x in s[..n - 1] || x == s[n - 1]
  {
    assert s[..n] == s[..n - 1] + [s[n - 1]];
  }

  lemma NextDistinct(app: App, k: nat, n: nat)
    requires Shaped(app) && k < |app.nodes| && 0 < n <= |app.nodes[k].next|
    ensures app.nodes[k].next[n - 1] !in app.nodes[k].next[..n - 1]
  {
  }

  lemma ChildNamed(app: App, a: nat, k: nat, i: nat, now: real, a': int, k': int)
    requires Shaped(app) && k < |app.nodes| && i < |app.nodes[k].next|
    ensures Is(a', k')(ChildEvent(app, a, k, i, now)) == (a' == a && k' == app.nodes[k].next[i])
  {
    hide Rooted, HostTime;
  }

  lemma ChildrenNone(app: App, a: nat, k: nat, now: real, p: Event -> bool)
    requires Shaped(app) && k < |app.nodes|
    ensures Count(p, Children(app, a, k, now, 0)) == 0
  {
    hide Shaped;
  }

  /** Each child is submitted once, and nothing else is. */
  lemma {:induction false} ChildrenExact(app: App, a: nat, k: nat, now: real, n: nat, a': int, k': int)
    requires Shaped(app) && k < |app.nodes| && n <= |app.nodes[k].next|
    ensures Count(Is(a', k'), Children(app, a, k, now, n)) == Bit(a' == a && k' in app.nodes[k].next[..n])
  {
    hide *;
    if n > 0 {
      var c := ChildEvent(app, a, k, n - 1, now);
      NextDistinct(app, k, n);
      ChildNamed(app, a, k, n - 1, now, a', k');
      ChildrenExact(app, a, k, now, n - 1, a', k');
      ChildrenAdd(app, a, k, now, n);
      CountAdd(Is(a', k'), Children(app, a, k, now, n - 1), c);
      BitSplit(app.nodes[k].next, n, k', a' == a);
    } else {
      ChildrenNone(app, a, k, now, Is(a', k'));
      BitIs(a' == a && k' in app.nodes[k].next[..n]);
    }
  }

  lemma BitSplit(s: seq<int>, n: nat, x: int, b: bool)
    requires 0 < n <= |s| && s[n - 1] !in s[..n - 1]
    ensures Bit(b && x in s[..n]) == Bit(b && x in s[..n - 1]) + (if b && x == s[n - 1] then 1 else 0)
  {
    PrefixMember(s, n, x);
  }

  lemma ChildrenAdd(app: App, a: nat, k: nat, now: real, n: nat)
    requires Shaped(app) && k < |app.nodes| && 0 < n <= |app.nodes[k].next|
    ensures Children(app, a, k, now, n) == Children(app, a, k, now, n - 1) + multiset{ChildEvent(app, a, k, n - 1, now)}
  {
  }

  lemma {:induction false} ChildrenOf(app: App, a: nat, k: nat, now: real, n: nat, a': int)
    requires Shaped(app) && k < |app.nodes| && n <= |app.nodes[k].next|
    ensures Count(Of(a'), Children(app, a, k, now, n)) == if a' == a then n else 0
  {
    if n > 0 {
      var c := ChildEvent(app, a, k, n - 1, now);
      assert c.app == a;
      hide Count, Image, Rooted, ChildEvent;
      ChildrenOf(app, a, k, now, n - 1, a');
      CountAdd(Of(a'), Children(app, a, k, now, n - 1), c);
    }
  }

  lemma ChildrenSubmitted(app: App, a: nat, k: nat, now: real, n: nat, t: int)
    requires Shaped(app) && k < |app.nodes| && n <= |app.nodes[k].next|
    ensures Count(RunningOf(t), Children(app, a, k, now, n)) == 0
  {
    forall x | x in Children(app, a, k, now, n) ensures !RunningOf(t)(x) { ChildrenMember(app, a, k, now, n, x); }
    CountZero(RunningOf(t), Children(app, a, k, now, n));
  }

  lemma ReleaseCount(p: Event -> bool, q: multiset<Event>, e: Event, kids: multiset<Event>)
    requires e in q
    ensures Count(p, q - multiset{e} + kids) == Count(p, q) - Bit(p(e)) + Count(p, kids)
  {
    CountPick(p, q, e);
    CountUnion(p, q - multiset{e}, kids);
  }

  /** Finishing a live kernel makes it not live and its children live. */
  lemma LiveAfterFinish(apps: seq<App>, done: seq<set<nat>>, b: nat, j: nat, a: nat, k: nat)
    requires AllShaped(apps) && |done| == |apps| && DoneClosed(apps, done)
    requires b < |apps| && j < |apps[b].nodes| && Live(apps, done, b, j)
    requires a < |apps| && k < |apps[a].nodes|
    ensures Bit(Live(apps, done[b := done[b] + {j}], a, k))
         == Bit(Live(apps, done, a, k)) - Bit(a == b && k == j) + Bit(a == b && k in apps[b].nodes[j].next)
  {
    if a == b {
      var t := apps[b].nodes;
      assert Shaped(apps[b]);
      assert t[j].parent < j;
      if k > 0 {
        assert k in t[j].next <==> t[k].parent == j;
      } else {
        assert k !in t[j].next;
      }
    }
  }

  lemma WholePrefix<T>(s: seq<T>)
    ensures s[..|s|] == s
  {
  }

  lemma IsOne(e: Event, a: int, k: int)
    ensures Is(a, k)(e) == (a == e.app && k == e.kernel)
  {
  }

  lemma ReleaseDone(apps: seq<App>, s: State, e: Event, r: State)
    requires Sized(apps, s) && e in s.evtq && r == Release(apps, s, e) && |s.done| == |apps| && e.app < |apps|
    ensures r.done == s.done[e.app := s.done[e.app] + {e.kernel}]
  {
    hide AllShaped, EventOf, Children;
  }

  lemma ReleaseOne(apps: seq<App>, s: State, e: Event, r: State, a: nat, k: nat)
    requires AllShaped(apps) && Sized(apps, s) && e in s.evtq && r == Release(apps, s, e)
    requires |s.done| == |r.done| == |apps| && DoneClosed(apps, s.done)
    requires e.app < |apps| && e.kernel < |apps[e.app].nodes| && Live(apps, s.done, e.app, e.kernel)
    requires a < |apps| && k < |apps[a].nodes| && Count(Is(a, k), s.evtq) == Bit(Live(apps, s.done, a, k))
    ensures Count(Is(a, k), r.evtq) == Bit(Live(apps, r.done, a, k))
  {
    hide *;
    var next := apps[e.app].nodes[e.kernel].next;
    WholePrefix(next);
    IsOne(e, a, k);
    ReleaseDone(apps, s, e, r);
    ReleaseParts(apps, s, e, r, |next|);
    ReleaseCount(Is(a, k), s.evtq, e, Children(apps[e.app], e.app, e.kernel, s.now, |next|));
    ChildrenExact(apps[e.app], e.app, e.kernel, s.now, |next|, a, k);
    LiveAfterFinish(apps, s.done, e.app, e.kernel, a, k);
  }

  lemma ReleaseQueueExact(apps: seq<App>, s: State, e: Event)
    requires Sized(apps, s) && DoneClosed(apps, s.done) && QueueExact(apps, s.evtq, s.done) && e in s.evtq
    ensures QueueExact(apps, Release(apps, s, e).evtq, Release(apps, s, e).done)
  {
    var r := Release(apps, s, e);
    assert EventOf(apps, e) && |r.done| == |apps|;
    InFlightIsLive(apps, s.evtq, s.done, e);
    hide DoneClosed, Live, Release, AllShaped, Sized, Count;
    forall a: nat, k: nat | a < |apps| && k < |apps[a].nodes|
      ensures Count(Is(a, k), r.evtq) == Bit(Live(apps, r.done, a, k))
    {
      ReleaseOne(apps, s, e, r, a, k);
    }
  }

  lemma ReleaseDoneClosed(apps: seq<App>, s: State, e: Event)
    requires Sized(apps, s) && DoneClosed(apps, s.done) && QueueExact(apps, s.evtq, s.done) && e in s.evtq
    ensures DoneClosed(apps, Release(apps, s, e).done)
  {
    InFlightIsLive(apps, s.evtq, s.done, e);
  }

  /** The variables that releasing a kernel changes. */
  lemma ReleaseParts(apps: seq<App>, s: State, e: Event, r: State, n: nat)
    requires Sized(apps, s) && e in s.evtq && r == Release(apps, s, e)
    requires e.app < |apps| ==> e.kernel < |apps[e.app].nodes| && n == |apps[e.app].nodes[e.kernel].next|
    ensures e.app < |apps| == |s.ac| && e.kernel < |apps[e.app].nodes| && Shaped(apps[e.app]) && 1 <= e.kind <= 3
    ensures |s.count| == 4 && |r.ac| == |apps|
    ensures r.evtq == s.evtq - multiset{e} + Children(apps[e.app], e.app, e.kernel, s.now, n)
    ensures r.count == s.count[e.kind := s.count[e.kind] - 1]
    ensures r.ac == s.ac[e.app := s.ac[e.app] - 1 + n]
    ensures r.kSch == (if e.kind == 1 then 0.0 else s.kSch) && r.now == s.now
  {
    assert EventOf(apps, e) && Shaped(apps[e.app]);
    hide AllShaped, EventOf, Children, Shaped;
  }

  lemma CountedAc(apps: seq<App>, s: State, a: nat)
    requires Sized(apps, s) && Counted(apps, s) && a < |apps|
    ensures |s.ac| == |apps| && s.ac[a] == Count(Of(a), s.evtq)
  {
    hide AllShaped, EventOf;
  }

  lemma CountedRunning(apps: seq<App>, s: State, t: int)
    requires Sized(apps, s) && Counted(apps, s) && 1 <= t <= 3
    ensures |s.count| == 4 && s.count[t] == Count(RunningOf(t), s.evtq)
  {
    hide AllShaped, EventOf;
  }

  lemma ReleaseAc(apps: seq<App>, s: State, e: Event, a: nat)
    requires Sized(apps, s) && Counted(apps, s) && e in s.evtq && a < |apps|
    requires e.app < |apps| && e.kernel < |apps[e.app].nodes|
    ensures |Release(apps, s, e).ac| == |apps| && Release(apps, s, e).ac[a] == Count(Of(a), Release(apps, s, e).evtq)
  {
    var n := |apps[e.app].nodes[e.kernel].next|;
    assert Of(a)(e) == (e.app == a);
    hide *;
    ReleaseParts(apps, s, e, Release(apps, s, e), n);
    CountedAc(apps, s, a);
    ReleaseCount(Of(a), s.evtq, e, Children(apps[e.app], e.app, e.kernel, s.now, n));
    BitIs(e.app == a);
    ChildrenOf(apps[e.app], e.app, e.kernel, s.now, n, a);
  }

  lemma BitIs(b: bool)
    ensures Bit(b) == if b then 1 else 0
  {
  }

  lemma ReleaseRunning(apps: seq<App>, s: State, e: Event, t: int)
    requires Sized(apps, s) && Counted(apps, s) && e in s.evtq && e.running && 1 <= t <= 3
    requires e.app < |apps| && e.kernel < |apps[e.app].nodes|
    ensures |Release(apps, s, e).count| == 4
    ensures Release(apps, s, e).count[t] == Count(RunningOf(t), Release(apps, s, e).evtq)
  {
    var n := |apps[e.app].nodes[e.kernel].next|;
    assert RunningOf(t)(e) == (e.kind == t);
    hide *;
    ReleaseParts(apps, s, e, Release(apps, s, e), n);
    CountedRunning(apps, s, t);
    ReleaseCount(RunningOf(t), s.evtq, e, Children(apps[e.app], e.app, e.kernel, s.now, n));
    BitIs(e.kind == t);
    ChildrenSubmitted(apps[e.app], e.app, e.kernel, s.now, n, t);
  }

  lemma CountedCaps(apps: seq<App>, s: State)
    requires Sized(apps, s) && Counted(apps, s)
    ensures |s.count| == 4 && s.count[0] == 0 && s.count[1] <= 1
  {
    hide AllShaped, EventOf, Count;
  }

  lemma ReleaseCounted(apps: seq<App>, s: State, e: Event)
    requires Sized(apps, s) && Counted(apps, s) && e in s.evtq && e.running
    requires Sized(apps, Release(apps, s, e))
    ensures Counted(apps, Release(apps, s, e))
  {
    var r := Release(apps, s, e);
    assert EventOf(apps, e) && Shaped(apps[e.app]);
    hide Count, AllShaped, EventOf, Children, Release, RunningOf, Of;
    ReleaseParts(apps, s, e, r, |apps[e.app].nodes[e.kernel].next|);
    CountedRunning(apps, s, 1);
    CountedCaps(apps, s);
    forall a: nat | a < |apps| ensures r.ac[a] == Count(Of(a), r.evtq) { ReleaseAc(apps, s, e, a); }
    forall t | 1 <= t <= 3 ensures r.count[t] == Count(RunningOf(t), r.evtq) { ReleaseRunning(apps, s, e, t); }
  }

  lemma ReleaseTallied(apps: seq<App>, max: real, s: State, e: Event)
    requires Sized(apps, s) && Tallied(apps, max, s) && QueueExact(apps, s.evtq, s.done) && e in s.evtq
    requires Sized(apps, Release(apps, s, e))
    ensures Tallied(apps, max, Release(apps, s, e))
  {
    InFlightIsLive(apps, s.evtq, s.done, e);
    assert EventOf(apps, e);
    hide Count, Image, Rooted, Loops, QueueExact, Children;
  }

  lemma ReleaseKeeps(apps: seq<App>, max: real, s: State, e: Event)
    requires Structural(apps, max, s) && e in s.evtq && e.running
    ensures Structural(apps, max, Release(apps, s, e))
  {
    ReleaseSized(apps, s, e);
    ReleaseQueueExact(apps, s, e);
    ReleaseDoneClosed(apps, s, e);
    ReleaseCounted(apps, s, e);
    ReleaseTallied(apps, max, s, e);
    hide Count, Image, Rooted, AllShaped, DoneClosed, QueueExact, Counted, Tallied, Release;
  }

  lemma SpeedUpKeeps(apps: seq<App>, max: real, s: State, kind: int)
    requires Structural(apps, max, s) && 1 <= kind <= 3
    ensures Structural(apps, max, SpeedUp(s, kind))
  {
    hide Count, Image, Rooted, AllShaped, DoneClosed, QueueExact, Counted, Tallied, SameCounts;
    if kind != 1 && s.count[kind] >= 1 {
      SpeedUpSized(apps, s, kind);
      RescaleSameCounts(s.evtq, kind, s.now, s.count[kind], s.count[kind] + 1);
      StructuralTransfer(apps, max, s, SpeedUp(s, kind).evtq);
    }
  }

  /** With nothing of an app in flight, its whole iteration has finished. */
  lemma IterationOver(apps: seq<App>, max: real, s: State, a: nat)
    requires Structural(apps, max, s) && a < |apps| && s.ac[a] == 0
    ensures forall k :: 0 <= k < |apps[a].nodes| ==> k in s.done[a]
  {
    forall k: nat | k < |apps[a].nodes| ensures !Live(apps, s.done, a, k) {
      CountMono(Is(a, k), Of(a), s.evtq);
    }
    assert Shaped(apps[a]);
    var k: nat := 0;
    while k < |apps[a].nodes|
      invariant k <= |apps[a].nodes|
      invariant forall j :: 0 <= j < k ==> j in s.done[a]
    {
      assert !Live(apps, s.done, a, k);
      k := k + 1;
    }
  }

  lemma RestartExact(apps: seq<App>, s: State, a: nat, e: Event)
    requires Sized(apps, s) && QueueExact(apps, s.evtq, s.done) && a < |apps|
    requires forall k: nat :: k < |apps[a].nodes| ==> k in s.done[a]
    requires e.app == a && e.kernel == 0 && !e.running && EventOf(apps, e)
    ensures QueueExact(apps, s.evtq + multiset{e}, s.done[a := {}])
  {
    hide Count, Rooted;
    forall b: nat, k: nat | b < |apps| && k < |apps[b].nodes|
      ensures Count(Is(b, k), s.evtq + multiset{e}) == Bit(Live(apps, s.done[a := {}], b, k))
    {
      CountAdd(Is(b, k), s.evtq, e);
      assert b == a ==> !Live(apps, s.done, b, k);
    }
  }

  lemma RestartCounted(apps: seq<App>, s: State, e: Event, r: State)
    requires Sized(apps, s) && Counted(apps, s) && !e.running && Sized(apps, r) && e.app < |apps|
    requires r.evtq == s.evtq + multiset{e} && r.ac == s.ac[e.app := s.ac[e.app] + 1] && r.count == s.count
    ensures Counted(apps, r)
  {
    hide Count, AllShaped;
    forall b | 0 <= b < |apps| ensures r.ac[b] == Count(Of(b), r.evtq) { CountAdd(Of(b), s.evtq, e); }
    forall t | 1 <= t <= 3 ensures r.count[t] == Count(RunningOf(t), r.evtq) { CountAdd(RunningOf(t), s.evtq, e); }
  }

  lemma RestartTallied(apps: seq<App>, max: real, s: State, a: nat, r: State)
    requires Sized(apps, s) && Tallied(apps, max, s) && Sized(apps, r) && a < |apps| && s.loop[a] > 1
    requires forall k: nat :: k < |apps[a].nodes| ==> k in s.done[a]
    requires r.loop == s.loop[a := s.loop[a] - 1] && r.done == s.done[a := {}] && r.fin == s.fin
    ensures Tallied(apps, max, r) && (DoneClosed(apps, s.done) ==> DoneClosed(apps, r.done))
  {
    hide Loops, Rooted, EventOf;
  }

  /** The state just after an app begins another iteration. */
  lemma RestartKeeps(apps: seq<App>, max: real, s: State, a: nat)
    requires Structural(apps, max, s) && a < |apps| && s.ac[a] == 0 && s.loop[a] > 1
    ensures Structural(apps, max, Renew(apps, s, a))
  {
    IterationOver(apps, max, s, a);
    assert Shaped(apps[a]);
    var e := Submit(a, 0, Head(apps[a]), Head(apps[a]).start + s.now);
    var r := Renew(apps, s, a);
    hide Count, Loops, Counted, QueueExact, Tallied, DoneClosed;
    assert r == s.(evtq := s.evtq + multiset{e}, loop := s.loop[a := s.loop[a] - 1], ac := s.ac[a := s.ac[a] + 1],
                   base := s.base[a := s.now], done := s.done[a := {}]);
    assert Sized(apps, r);
    hide Rooted, AllShaped, DoneClosed, QueueExact, Counted, Tallied, EventOf, Renew;
    RestartExact(apps, s, a, e);
    RestartCounted(apps, s, e, r);
    RestartTallied(apps, max, s, a, r);
  }

  lemma RenewSettles(apps: seq<App>, s: State, a: nat)
    requires Sized(apps, s) && a < |apps| && s.loop[a] >= 1 && s.ac[a] >= 0
    requires forall b :: 0 <= b < |apps| && b != a && s.ac[b] == 0 ==> s.loop[b] == 1
    ensures Settled(Renew(apps, s, a))
  {
    hide AllShaped, EventOf;
  }

  lemma RenewKeeps(apps: seq<App>, max: real, s: State, a: nat)
    requires Structural(apps, max, s) && a < |apps|
    ensures Structural(apps, max, Renew(apps, s, a))
  {
    if s.ac[a] == 0 && s.loop[a] > 1 {
      RestartKeeps(apps, max, s, a);
    } else {
      hide AllShaped, EventOf, Count, Loops, Live;
    }
  }

  lemma ReleaseSettled(apps: seq<App>, s: State, e: Event)
    requires Sized(apps, s) && Settled(s) && e in s.evtq
    ensures forall b :: 0 <= b < |apps| && b != e.app && Release(apps, s, e).ac[b] == 0
              ==> Release(apps, s, e).loop[b] == 1
  {
    hide AllShaped, Children;
  }

  lemma FinishKeeps(apps: seq<App>, max: real, s: State, e: Event)
    requires Structural(apps, max, s) && Settled(s) && e in s.evtq && e.running
    ensures Structural(apps, max, Finish(apps, s, e)) && Settled(Finish(apps, s, e))
  {
    var s1 := Release(apps, s, e);
    ReleaseKeeps(apps, max, s, e);
    ReleaseSettled(apps, s, e);
    assert EventOf(apps, e) && Shaped(apps[e.app]);
    SpeedUpKeeps(apps, max, s1, e.kind);
    var s2 := SpeedUp(s1, e.kind);
    assert s2.ac == s1.ac && s2.loop == s1.loop;
    RenewKeeps(apps, max, s2, e.app);
    assert s2.loop[e.app] >= 1 && s2.ac[e.app] >= 0;
    hide Structural, Release, SpeedUp, Renew;
    RenewSettles(apps, s2, e.app);
  }

  // ----- a whole turn -------------------------------------------------------

  lemma StructuralNext(apps: seq<App>, max: real, s: State, e: Event)
    requires Structural(apps, max, s) && Settled(s) && e in s.evtq
    ensures Structural(apps, max, Next(apps, s, e)) && Settled(Next(apps, s, e))
  {
    var s0 := s.(now := e.time);
    if e.running { FinishKeeps(apps, max, s0, e); }
    else if e.kind != 1 {
      StartCopyKeeps(apps, max, s0, e);
      assert Settled(StartCopy(s0, e));
    }
    else if s.count[1] == 0 { StartKernelKeeps(apps, max, s0, e); }
    else { RetryKeeps(apps, max, s0, e); }
  }

  lemma HeadsStep(apps: seq<App>, n: nat)
    requires AllShaped(apps) && 0 < n <= |apps|
    ensures Shaped(apps[n - 1])
    ensures Heads(apps, n) == Heads(apps, n - 1) + multiset{Submit(n - 1, 0, Head(apps[n - 1]), Head(apps[n - 1]).start)}
  {
    assert Shaped(apps[n - 1]);
    hide Shaped;
  }

  lemma HeadsNone(apps: seq<App>)
    requires AllShaped(apps)
    ensures Heads(apps, 0) == multiset{}
  {
  }

  lemma {:induction false} HeadsCount(apps: seq<App>, n: nat, p: Event -> bool, a: int)
    requires AllShaped(apps) && n <= |apps|
    requires forall e: Event {:trigger p(e)} :: !e.running && e.kernel == 0 ==> p(e) == (e.app == a)
    ensures Count(p, Heads(apps, n)) == Bit(0 <= a < n)
  {
    if n == 0 {
      HeadsNone(apps);
    } else {
      HeadsCount(apps, n - 1, p, a);
      HeadsStep(apps, n);
      var e := Submit(n - 1, 0, Head(apps[n - 1]), Head(apps[n - 1]).start);
      assert p(e) == (n - 1 == a);
      BitIs(0 <= a < n);
      BitIs(0 <= a < n - 1);
      hide *;
      CountAdd(p, Heads(apps, n - 1), e);
    }
  }

  lemma {:induction false} HeadsIdle(apps: seq<App>, n: nat, p: Event -> bool)
    requires AllShaped(apps) && n <= |apps|
    requires forall e: Event {:trigger p(e)} :: !e.running && e.kernel == 0 ==> !p(e)
    ensures Count(p, Heads(apps, n)) == 0
  {
    if n == 0 {
      HeadsNone(apps);
    } else {
      HeadsIdle(apps, n - 1, p);
      HeadsStep(apps, n);
      var e := Submit(n - 1, 0, Head(apps[n - 1]), Head(apps[n - 1]).start);
      assert !p(e);
      hide *;
      CountAdd(p, Heads(apps, n - 1), e);
    }
  }

  lemma {:induction false} HeadsMember(apps: seq<App>, n: nat, x: Event)
    requires AllShaped(apps) && n <= |apps| && x in Heads(apps, n)
    ensures x.app < n && Shaped(apps[x.app]) && x == Submit(x.app, 0, Head(apps[x.app]), Head(apps[x.app]).start)
  {
    HeadsNone(apps);
    if n > 0 {
      HeadsStep(apps, n);
      hide AllShaped, Shaped, Heads;
      if x in Heads(apps, n - 1) { HeadsMember(apps, n - 1, x); }
    }
  }

  lemma HeadsEvents(apps: seq<App>, x: Event)
    requires AllShaped(apps) && x in Heads(apps, |apps|)
    ensures EventOf(apps, x)
  {
    HeadsMember(apps, |apps|, x);
  }

  lemma HeadsExact(apps: seq<App>, a: int, k: int, t: int)
    requires AllShaped(apps)
    ensures Count(Is(a, k), Heads(apps, |apps|)) == Bit(0 <= a < |apps| && k == 0)
    ensures Count(Of(a), Heads(apps, |apps|)) == Bit(0 <= a < |apps|)
    ensures Count(RunningOf(t), Heads(apps, |apps|)) == 0
  {
    hide AllShaped, Heads, Count;
    if k == 0 { HeadsCount(apps, |apps|, Is(a, k), a); } else { HeadsIdle(apps, |apps|, Is(a, k)); }
    HeadsCount(apps, |apps|, Of(a), a);
    HeadsIdle(apps, |apps|, RunningOf(t));
  }

  lemma InitLive(apps: seq<App>, done: seq<set<nat>>, a: nat, k: nat)
    requires AllShaped(apps) && |done| == |apps| && a < |apps| && k < |apps[a].nodes| && done[a] == {}
    ensures Live(apps, done, a, k) <==> k == 0
  {
    hide AllShaped;
  }

  lemma InitParts(apps: seq<App>, max: real, rt: seq<real>, s: State)
    requires AllShaped(apps) && |rt| == |apps| && s == Init(apps, max, rt)
    ensures s.evtq == Heads(apps, |apps|) && s.count == [0, 0, 0, 0] && s.kSch == 0.0 && s.now == 0.0 && s.rt == rt
    ensures |s.ac| == |s.loop| == |s.base| == |s.done| == |s.fin| == |apps|
    ensures forall a :: 0 <= a < |apps| ==> s.ac[a] == 1 && s.base[a] == 0.0 && s.done[a] == {}
    ensures forall a :: 0 <= a < |apps| ==> |s.fin[a]| == |apps[a].nodes|
    ensures forall a, k :: 0 <= a < |apps| && 0 <= k < |apps[a].nodes| ==> s.fin[a][k] == 0
    ensures forall a {:trigger Shaped(apps[a])} :: 0 <= a < |apps| ==> Shaped(apps[a]) && s.loop[a] == Loops(max, apps[a])
  {
    hide Shaped, Heads, Loops;
  }

  lemma InitTallied(apps: seq<App>, max: real, rt: seq<real>, s: State)
    requires AllShaped(apps) && |rt| == |apps| && s == Init(apps, max, rt) && Sized(apps, s)
    ensures Tallied(apps, max, s)
  {
    InitParts(apps, max, rt, s);
    hide Init, EventOf, AllShaped;
    forall a | 0 <= a < |apps| ensures 1 <= s.loop[a] == Loops(max, apps[a]) { assert Shaped(apps[a]); }
    hide Loops, Shaped;
  }

  lemma InitSized(apps: seq<App>, max: real, rt: seq<real>, s: State)
    requires AllShaped(apps) && |rt| == |apps| && s == Init(apps, max, rt)
    ensures Sized(apps, s)
  {
    InitParts(apps, max, rt, s);
    hide Init, EventOf, AllShaped, Heads;
    forall e | e in s.evtq ensures EventOf(apps, e) { HeadsEvents(apps, e); }
  }

  lemma StructuralInit(apps: seq<App>, max: real, rt: seq<real>)
    requires AllShaped(apps) && |rt| == |apps|
    ensures Structural(apps, max, Init(apps, max, rt)) && Settled(Init(apps, max, rt))
  {
    var s := Init(apps, max, rt);
    InitParts(apps, max, rt, s);
    InitSized(apps, max, rt, s);
    InitTallied(apps, max, rt, s);
    hide AllShaped, Init, Count, Heads, Live, Tallied, Sized;
    forall a: nat, k: nat | a < |apps| && k < |apps[a].nodes|
      ensures Count(Is(a, k), s.evtq) == Bit(Live(apps, s.done, a, k))
    {
      HeadsExact(apps, a, k, 1);
      InitLive(apps, s.done, a, k);
    }
    forall a | 0 <= a < |apps| ensures s.ac[a] == Count(Of(a), s.evtq) { HeadsExact(apps, a, 0, 1); }
    forall t | 1 <= t <= 3 ensures s.count[t] == Count(RunningOf(t), s.evtq) { HeadsExact(apps, 0, 0, t); }
  }

  // ----- the parts of a turn --------------------------------------------------

  lemma ShapedAt(apps: seq<App>, a: nat)
    requires AllShaped(apps) && a < |apps|
    ensures Shaped(apps[a])
  {
  }

  lemma RescaleIs(e: Event, kind: int, now: real, num: int, den: int)
    requires den != 0
    ensures Rescale(kind, now, num, den)(e)
         == if e.kind == kind && e.running then e.(time := RescaledTime(e.time, now, num, den)) else e
  {
  }

  /** A running event is counted on its channel. */
  lemma RunningCounted(apps: seq<App>, s: State, e: Event)
    requires Sized(apps, s) && Counted(apps, s) && e in s.evtq && e.running
    ensures s.count[e.kind] >= 1
  {
    assert EventOf(apps, e) && Shaped(apps[e.app]);
    CountPick(RunningOf(e.kind), s.evtq, e);
  }

  /** An uncounted channel has nothing running on it. */
  lemma LonelyChannel(apps: seq<App>, s: State, t: int)
    requires Sized(apps, s) && Counted(apps, s) && 1 <= t <= 3
    ensures s.count[t] == 0 ==> forall x :: x in s.evtq && x.kind == t ==> !x.running
  {
    CountZero(RunningOf(t), s.evtq);
    forall x | x in s.evtq && x.kind == t && s.count[t] == 0 ensures !x.running { assert !RunningOf(t)(x); }
  }

  lemma SizedParts(apps: seq<App>, max: real, s: State)
    requires Structural(apps, max, s)
    ensures Sized(apps, s) && Steppable(apps, s) && Counted(apps, s) && |s.count| == 4 && |s.loop| == |apps|
    ensures forall a :: 0 <= a < |apps| ==> s.loop[a] >= 1
  {
    hide AllShaped, QueueExact, Loops;
  }

  lemma SpeedUpForm(s: State, kind: int, c: int)
    requires |s.count| == 4 && 1 <= kind <= 3 && c == s.count[kind] && (kind == 1 ==> c == 0)
    ensures SpeedUp(s, kind) == if c >= 1 then s.(evtq := Image(Rescale(kind, s.now, c, c + 1), s.evtq)) else s
  {
    hide Image, Rescale;
  }

  lemma RenewForm(apps: seq<App>, s: State, a: nat, r: State)
    requires Sized(apps, s) && a < |apps| && r == Renew(apps, s, a)
    ensures s.ac[a] != 0 ==> r == s
    ensures |r.ac| == |s.ac| && forall b :: 0 <= b < |s.ac| && b != a ==> r.ac[b] == s.ac[b]
    ensures s.ac[a] == 0 && s.loop[a] > 1 ==> r.rt == s.rt
    ensures s.ac[a] == 0 && s.loop[a] > 1 ==>
      |r.base| == |r.loop| == |r.ac| == |apps| && r.base[a] == s.now && r.loop[a] == s.loop[a] - 1 && r.ac[a] == 1
    ensures s.ac[a] == 0 && s.loop[a] <= 1 ==> r == s.(rt := s.rt[a := s.now])
  {
    hide AllShaped, EventOf;
  }

  lemma FinishForm(apps: seq<App>, s: State, e: Event, r: State, u: State)
    requires Sized(apps, s) && e in s.evtq && r == Release(apps, s, e) && |r.count| == 4 && 1 <= e.kind <= 3
    requires u == SpeedUp(r, e.kind)
    ensures u.base == s.base && u.loop == s.loop && u.rt == s.rt && u.now == s.now && u.done == r.done && u.base == r.base
    ensures r.now == s.now && u.ac == r.ac && |u.ac| == |s.ac| && forall b :: 0 <= b < |s.ac| && b != e.app ==> u.ac[b] == s.ac[b]
  {
    hide AllShaped, Children, Image, Rescale;
  }

  lemma FinishIs(apps: seq<App>, s: State, e: Event, r: State, u: State, v: State)
    requires Steppable(apps, s) && e in s.evtq && r == Release(apps, s, e) && Sized(apps, r)
    requires |r.count| == 4 && 1 <= e.kind <= 3 && u == SpeedUp(r, e.kind) && Sized(apps, u) && e.app < |apps|
    requires v == Finish(apps, s, e)
    ensures v == Renew(apps, u, e.app)
  {
    hide AllShaped, Release, SpeedUp, Renew;
  }

  lemma Ticked(apps: seq<App>, max: real, s: State, t: real)
    requires Structural(apps, max, s) && Settled(s)
    ensures Structural(apps, max, s.(now := t)) && Settled(s.(now := t)) && Sized(apps, s.(now := t))
  {
    hide AllShaped, QueueExact, Loops;
  }

  lemma FinishClock(apps: seq<App>, s: State, e: Event)
    requires Steppable(apps, s) && e in s.evtq
    ensures Finish(apps, s, e).now == s.now
  {
    hide AllShaped, Children, Image, Rescale;
  }

  lemma StartRecord(apps: seq<App>, s: State, e: Event, r: State)
    requires |s.count| == 4 && (e.kind != 1 ==> 2 <= e.kind <= 3 && s.count[e.kind] >= 0)
    requires r == if e.kind != 1 then StartCopy(s, e) else if s.count[1] == 0 then StartKernel(s, e) else Retry(s, e)
    ensures r.base == s.base && r.loop == s.loop && r.rt == s.rt && r.ac == s.ac && r.done == s.done && r.now == s.now
  {
    hide Image, Rescale;
  }
}
