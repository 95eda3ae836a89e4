/** Two exact statements about whole runs: when the clock moves forward, and
    how long an app takes that has the machine to itself. */
module ColocationTheorems {
  import opened Bags
  import opened KernelTree
  import opened Colocation
  import opened ColocationStructure
  import opened ColocationSchedule
  import opened ColocationTiming
  import opened ColocationRuns

  // ----- the clock ----------------------------------------------------------

  /** All that `Timed` asks, except that kernels start after what they wait for. */
  ghost predicate Sane(app: App)
    requires Shaped(app)
  {
    && (forall k :: 0 <= k < |app.nodes| ==> app.nodes[k].length >= 0.0)
    && app.nodes[0].start >= 0.0
    && app.nodes[|app.nodes| - 1].End() == app.length
    && app.slow > -1.0
  }

  ghost predicate AllSane(apps: seq<App>)
    requires AllShaped(apps)
  {
    forall a {:trigger Sane(apps[a])} :: 0 <= a < |apps| ==> Sane(apps[a])
  }

  ghost predicate AllOrdered(apps: seq<App>)
    requires AllShaped(apps)
  {
    forall a :: 0 <= a < |apps| ==> (assert Shaped(apps[a]); Ordered(apps[a].nodes))
  }

  ghost predicate ClockAdvances(run: seq<State>) {
    forall i :: 0 <= i < |run| - 1 ==> run[i].now <= run[i + 1].now
  }

  lemma NextClock(apps: seq<App>, s: State, e: Event)
    requires Steppable(apps, s) && e in s.evtq
    ensures Next(apps, s, e).now == e.time
  {
    var s0 := s.(now := e.time);
    KindInRange(apps, s, e);
    hide Image, Rescale, Children, AllShaped, EventOf;
    if e.running { FinishClock(apps, s0, e); }
  }

  lemma KindInRange(apps: seq<App>, s: State, e: Event)
    requires Steppable(apps, s) && e in s.evtq
    ensures 1 <= e.kind <= 3 && s.count[e.kind] >= 0
    ensures e.app < |apps| && Shaped(apps[e.app]) && e.kernel < |apps[e.app].nodes|
  {
    EventInRange(apps, s, e);
    hide Sized;
  }

  lemma StartFin(s: State, e: Event)
    requires |s.count| == 4 && 1 <= e.kind <= 3 && s.count[e.kind] >= 0 && e in s.evtq
    ensures e.kind != 1 ==> StartCopy(s, e).fin == s.fin
    ensures StartKernel(s, e).fin == s.fin && Retry(s, e).fin == s.fin
  {
    hide Image, Rescale;
  }

  /** A turn changes the tally of one kernel at most, and only by finishing it. */
  lemma OnlyFinishTallies(apps: seq<App>, s: State, e: Event, a: nat, k: nat)
    requires Steppable(apps, s) && e in s.evtq && a < |apps| && k < |apps[a].nodes|
    requires a < |s.fin| && k < |s.fin[a]|
    requires a < |Next(apps, s, e).fin| && k < |Next(apps, s, e).fin[a]| && Next(apps, s, e).fin[a][k] != s.fin[a][k]
    ensures e.running && e.app == a && e.kernel == k
  {
    hide *;
    var s0, v := s.(now := e.time), Next(apps, s, e);
    NextForm(apps, s, e, s0, v);
    StepSized(apps, s0);
    StartFin(s0, e);
    EventInRange(apps, s0, e);
    var r := Release(apps, s0, e);
    ReleaseSized(apps, s0, e);
    ReleaseCounters(apps, s0, e);
    SpeedUpSized(apps, r, e.kind);
    if e.running {
      FinishIs(apps, s0, e, r, SpeedUp(r, e.kind), v);
      SameFin(apps, s0, e, r, SpeedUp(r, e.kind));
      ReleaseFin(apps, s0, e);
    }
  }

  lemma NothingTallied(apps: seq<App>, max: real, run: seq<State>, a: nat, k: nat)
    requires IsRun(apps, max, run) && a < |apps| && k < |apps[a].nodes|
    ensures a < |run[0].fin| && k < |run[0].fin[a]| && run[0].fin[a][k] == 0
  {
    hide Shaped, Heads;
  }

  lemma FinSized(apps: seq<App>, s: State, a: nat, k: nat)
    requires Steppable(apps, s) && a < |apps| && k < |apps[a].nodes|
    ensures a < |s.fin| && k < |s.fin[a]|
  {
  }

  lemma {:induction false} FirstFinish(apps: seq<App>, max: real, run: seq<State>, n: nat, a: nat, k: nat)
      returns (i: nat, e: Event)
    requires IsRun(apps, max, run) && n < |run| && a < |apps| && k < |apps[a].nodes|
    requires a < |run[n].fin| && k < |run[n].fin[a]| && run[n].fin[a][k] > 0
    ensures i < n && Steppable(apps, run[i]) && Top(run[i].evtq, e) && e in run[i].evtq
    ensures run[i + 1] == Next(apps, run[i], e)
    ensures e.running && e.app == a && e.kernel == k
  {
    hide IsRun, Steppable, Top, Next;
    NothingTallied(apps, max, run, a, k);
    i := n - 1;
    e := TurnAt(apps, max, run, i);
    FinSized(apps, run[i], a, k);
    FinSized(apps, run[i + 1], a, k);
    if run[i].fin[a][k] > 0 {
      i, e := FirstFinish(apps, max, run, i, a, k);
    } else {
      OnlyFinishTallies(apps, run[i], e, a, k);
    }
  }

  lemma ReleasedChild(apps: seq<App>, s: State, e: Event, j: nat, r: State)
    requires Sized(apps, s) && e in s.evtq && r == Release(apps, s, e) && e.app < |apps| && Shaped(apps[e.app])
    requires e.kernel < |apps[e.app].nodes| && j < |apps[e.app].nodes[e.kernel].next|
    ensures ChildEvent(apps[e.app], e.app, e.kernel, j, s.now) in r.evtq
    ensures !ChildEvent(apps[e.app], e.app, e.kernel, j, s.now).running
    ensures |r.count| == 4 && Sized(apps, r)
  {
    var c := ChildEvent(apps[e.app], e.app, e.kernel, j, s.now);
    ChildrenMember(apps[e.app], e.app, e.kernel, s.now, |apps[e.app].nodes[e.kernel].next|, c);
    ReleaseSized(apps, s, e);
    hide AllShaped, Shaped, Children;
  }

  lemma SpeedUpLeaves(r: State, kind: int, c: Event)
    requires |r.count| == 4 && 1 <= kind <= 3 && c in r.evtq && !c.running
    ensures c in SpeedUp(r, kind).evtq
  {
    if kind != 1 && r.count[kind] >= 1 {
      var f := Rescale(kind, r.now, r.count[kind], r.count[kind] + 1);
      assert f(c) == c;
      ImageMember(f, r.evtq, c);
    }
  }

  /** The children of a finished kernel are in the queue after the turn. */
  lemma ChildQueued(apps: seq<App>, s: State, e: Event, j: nat)
    requires Steppable(apps, s) && e in s.evtq && e.running
    requires e.app < |apps| && Shaped(apps[e.app]) && e.kernel < |apps[e.app].nodes| && j < |apps[e.app].nodes[e.kernel].next|
    ensures ChildEvent(apps[e.app], e.app, e.kernel, j, e.time) in Next(apps, s, e).evtq
  {
    KindInRange(apps, s, e);
    var s0 := s.(now := e.time);
    assert Steppable(apps, s0);
    assert Next(apps, s, e) == Finish(apps, s0, e);
    var r := Release(apps, s0, e);
    ReleasedChild(apps, s0, e, j, r);
    var u := SpeedUp(r, e.kind);
    SpeedUpSized(apps, r, e.kind);
    SpeedUpLeaves(r, e.kind, ChildEvent(apps[e.app], e.app, e.kernel, j, e.time));
    hide Next, Release, SpeedUp, Sized, Steppable, Shaped, ChildEvent;
    FinishIs(apps, s0, e, r, u, Finish(apps, s0, e));
    RenewQueueGrows(apps, u, e.app);
  }

  lemma RenewQueueGrows(apps: seq<App>, s: State, a: nat)
    requires Sized(apps, s) && a < |apps|
    ensures s.evtq <= Renew(apps, s, a).evtq
  {
    hide AllShaped, EventOf;
  }

  lemma NegativeGap(gap: real, slow: real)
    requires gap < 0.0 && slow > -1.0
    ensures HostTime(gap, slow) < 0.0
  {
    assert (0.0 - gap) * (1.0 + slow) > 0.0;
  }

  lemma ChildLink(app: App, k: nat) returns (p: nat, j: nat)
    requires Shaped(app) && 0 < k < |app.nodes|
    ensures p < k && p == app.nodes[k].parent && j < |app.nodes[p].next| && app.nodes[p].next[j] == k
  {
    p := app.nodes[k].parent;
    j :| j < |app.nodes[p].next| && app.nodes[p].next[j] == k;
  }

  /** An event in the past turns the clock back. */
  lemma PastTurnsBack(apps: seq<App>, max: real, run: seq<State>, i: nat, c: Event)
    requires IsRun(apps, max, run) && Complete(run) && i < |run| && c in run[i].evtq && c.time < run[i].now
    ensures !ClockAdvances(run)
  {
    assert i < |run| - 1;
    hide IsRun, Steppable, Next;
    var t := TurnAt(apps, max, run, i);
    NextClock(apps, run[i], t);
    assert run[i + 1].now < run[i].now;
  }

  /** In a complete run every kernel finishes at some turn. */
  lemma EventuallyFinishes(apps: seq<App>, max: real, run: seq<State>, a: nat, k: nat) returns (i: nat, e: Event)
    requires IsRun(apps, max, run) && Complete(run) && a < |apps| && k < |apps[a].nodes|
    ensures i < |run| - 1 && Steppable(apps, run[i]) && e in run[i].evtq && run[i + 1] == Next(apps, run[i], e)
    ensures e.running && e.app == a && e.kernel == k
  {
    var n := |run| - 1;
    assert n >= 0;
    hide IsRun, Complete, Next, Top, AllShaped, Sized, Structural, Steppable;
    ReplayedInFull(apps, max, run, a, k);
    SizedParts(apps, max, run[n]);
    FinSized(apps, run[n], a, k);
    i, e := FirstFinish(apps, max, run, n, a, k);
  }

  /** A kernel that starts before what it waits for has ended turns the clock back. */
  lemma DisorderTurnsBack(apps: seq<App>, max: real, run: seq<State>, a: nat, k: nat, p: nat, j: nat)
    requires IsRun(apps, max, run) && Complete(run) && a < |apps| && Shaped(apps[a]) && apps[a].slow > -1.0
    requires k < |apps[a].nodes| && p < |apps[a].nodes| && j < |apps[a].nodes[p].next| && apps[a].nodes[p].next[j] == k
    requires apps[a].nodes[p].End() > apps[a].nodes[k].start
    ensures !ClockAdvances(run)
  {
    hide IsRun, Complete, Shaped, Next, HostTime, ClockAdvances, Steppable;
    var i, e := EventuallyFinishes(apps, max, run, a, p);
    ChildQueued(apps, run[i], e, j);
    NegativeGap(apps[a].nodes[k].start - apps[a].nodes[p].End(), apps[a].slow);
    NextClock(apps, run[i], e);
    PastTurnsBack(apps, max, run, i + 1, ChildEvent(apps[a], a, p, j, e.time));
  }

  /** Over a complete run the clock moves forward if, and only if, every kernel
      was recorded to start after the one it waits for. */
  lemma ClockAdvancesIffOrdered(apps: seq<App>, max: real, run: seq<State>)
    requires IsRun(apps, max, run) && Complete(run) && AllSane(apps)
    ensures ClockAdvances(run) <==> AllOrdered(apps)
  {
    if AllOrdered(apps) {
      assert AllTimed(apps) by {
        forall a | 0 <= a < |apps| ensures Shaped(apps[a]) && Timed(apps[a]) { assert Shaped(apps[a]) && Sane(apps[a]); }
      }
      hide AllShaped, AllTimed, AllSane, AllOrdered, IsRun;
      forall i | 0 <= i < |run| - 1 ensures run[i].now <= run[i + 1].now { ClockForward(apps, max, run, i, i + 1); }
    } else {
      var a :| 0 <= a < |apps| && (assert Shaped(apps[a]); !Ordered(apps[a].nodes));
      assert Shaped(apps[a]);
      var k :| 0 < k < |apps[a].nodes| && !(apps[a].nodes[apps[a].nodes[k].parent].End() <= apps[a].nodes[k].start);
      assert Sane(apps[a]);
      var p, j := ChildLink(apps[a], k);
      hide AllShaped, Shaped, AllSane, AllOrdered, IsRun, Complete;
      DisorderTurnsBack(apps, max, run, a, k, p, j);
    }
  }

  // ----- a lone chain -------------------------------------------------------

  /** Every kernel has at most one child. */
  ghost predicate Chain(app: App) {
    forall k :: 0 <= k < |app.nodes| ==> |app.nodes[k].next| <= 1
  }

  lemma ChainNext(app: App, k: nat, j: nat)
    requires Chain(app) && k < |app.nodes| && j < |app.nodes[k].next|
    ensures j == 0
  {
  }

  lemma {:induction false} ChainParent(app: App, k: nat)
    requires Shaped(app) && Chain(app) && 0 < k < |app.nodes|
    ensures app.nodes[k].parent == k - 1
    decreases k
  {
    hide *;
    var p, j := ChildLink(app, k);
    ChainNext(app, p, j);
    if p + 1 < k {
      var q, i := ChildLink(app, p + 1);
      ChainNext(app, q, i);
      ChainParent(app, p + 1);
    }
  }

  /** Only the last kernel of a chain has no child. */
  lemma ChainEnd(app: App, k: nat)
    requires Shaped(app) && Chain(app) && k < |app.nodes| && app.nodes[k].next == []
    ensures k == |app.nodes| - 1
  {
    hide *;
    if k < |app.nodes| - 1 {
      var p, j := ChildLink(app, k + 1);
      ChainParent(app, k + 1);
    }
  }

  /** When kernel `k` of a chain begins if nobody is in its way: what the host does
      between two kernels is slowed down, the kernels are not. */
  function Begins(app: App, k: nat): real
    requires k < |app.nodes|
    decreases k, 0
  {
    if k == 0 then app.nodes[0].start
    else Finishes(app, k - 1) + HostTime(app.nodes[k].start - app.nodes[k - 1].End(), app.slow)
  }

  function Finishes(app: App, k: nat): real
    requires k < |app.nodes|
    decreases k, 1
  {
    Begins(app, k) + app.nodes[k].length
  }

  /** The time of one iteration. */
  function Period(app: App): real
    requires |app.nodes| > 0
  {
    Finishes(app, |app.nodes| - 1)
  }

  /** What the host does up to kernel `k`, as recorded. */
  function Gaps(app: App, k: nat): real
    requires k < |app.nodes|
  {
    if k == 0 then 0.0 else Gaps(app, k - 1) + (app.nodes[k].start - app.nodes[k - 1].End())
  }

  /** The recorded length of the first `n` kernels. */
  function KernelTime(app: App, n: nat): real
    requires n <= |app.nodes|
  {
    if n == 0 then 0.0 else KernelTime(app, n - 1) + app.nodes[n - 1].length
  }

  /** The host's share is what is left of the recording without the kernels. */
  lemma {:induction false} GapsAre(app: App, k: nat)
    requires k < |app.nodes|
    ensures Gaps(app, k) == app.nodes[k].start - app.nodes[0].start - KernelTime(app, k)
  {
    if k > 0 { GapsAre(app, k - 1); }
  }

  lemma HostTimeIs(x: real, y: real, slow: real)
    ensures HostTime(x + y, slow) == HostTime(x, slow) + HostTime(y, slow)
    ensures HostTime(0.0, slow) == 0.0 && HostTime(x, 0.0) == x
  {
  }

  /** The host's share of an iteration is stretched by the slowdown, the rest of it
      is not. */
  lemma {:induction false} FinishesStretched(app: App, k: nat)
    requires k < |app.nodes|
    ensures Finishes(app, k) == app.nodes[k].End() - Gaps(app, k) + HostTime(Gaps(app, k), app.slow)
  {
    HostTimeIs(0.0, 0.0, app.slow);
    if k > 0 {
      FinishesStretched(app, k - 1);
      HostTimeIs(Gaps(app, k - 1), app.nodes[k].start - app.nodes[k - 1].End(), app.slow);
    }
    hide HostTime;
  }

  lemma HostTimeBeyond(x: real, slow: real)
    ensures HostTime(x, slow) - x == x * slow
  {
  }

  /** An iteration of a lone chain lasts as long as recorded, but for the host's
      share, which is stretched. */
  lemma PeriodStretched(app: App)
    requires |app.nodes| > 0 && app.nodes[|app.nodes| - 1].End() == app.length
    ensures Period(app) == app.length + Gaps(app, |app.nodes| - 1) * app.slow
    ensures app.slow == 0.0 ==> Period(app) == app.length
  {
    FinishesStretched(app, |app.nodes| - 1);
    HostTimeIs(Gaps(app, |app.nodes| - 1), 0.0, app.slow);
    HostTimeBeyond(Gaps(app, |app.nodes| - 1), app.slow);
    hide Finishes, Gaps, HostTime;
  }

  predicate OnTime(app: App, base: real, e: Event)
    requires e.kernel < |app.nodes|
  {
    e.time == base + if e.running then Finishes(app, e.kernel) else Begins(app, e.kernel)
  }

  /** A lone chain has one event in flight, and it is exactly on time. */
  ghost predicate Exact(app: App, max: real, s: State)
    requires Shaped(app)
  {
    && Sized([app], s)
    && |s.evtq| <= 1
    && (forall e :: e in s.evtq ==> OnTime(app, s.base[0], e))
    && s.base[0] == Elapsed(Loops(max, app) - s.loop[0], Period(app))
    && (s.ac[0] == 0 ==> s.rt[0] == Elapsed(Loops(max, app), Period(app)))
  }

  lemma Single(q: multiset<Event>, e: Event)
    requires e in q && |q| <= 1
    ensures q == multiset{e}
  {
    assert |q - multiset{e}| == 0;
    assert q - multiset{e} == multiset{};
  }

  lemma SingleCount(p: Event -> bool, e: Event)
    ensures Count(p, multiset{e}) == Bit(p(e))
  {
    assert multiset{} + multiset{e} == multiset{e};
    CountAdd(p, multiset{}, e);
  }

  /** Alone in the queue, a submitted event starts at once. */
  lemma LoneStartForm(s: State, e: Event, run: Event, r: State)
    requires |s.count| == 4 && 1 <= e.kind <= 3 && s.count[e.kind] == 0 && s.evtq == multiset{e}
    requires run == e.(running := true, time := s.now + e.length)
    requires r == if e.kind != 1 then StartCopy(s, e) else if s.count[1] == 0 then StartKernel(s, e) else Retry(s, e)
    ensures r == s.(evtq := multiset{run}, count := s.count[e.kind := 1], kSch := r.kSch)
  {
    assert multiset{e} - multiset{e} == multiset{};
    assert multiset{} + multiset{run} == multiset{run};
    assert CopyEnd(s.now, e.length, 1) == s.now + e.length;
    hide CopyEnd, Image, Rescale;
  }

  lemma StartedOnTime(app: App, base: real, e: Event, run: Event)
    requires e.kernel < |app.nodes| && e.length == app.nodes[e.kernel].length && !e.running && OnTime(app, base, e)
    requires run == e.(running := true, time := e.time + e.length)
    ensures OnTime(app, base, run)
  {
    hide Begins;
  }

  lemma ExactSwap(app: App, max: real, s: State, run: Event, r: State)
    requires Shaped(app) && Exact(app, max, s) && Sized([app], r) && run.kernel < |app.nodes| && OnTime(app, s.base[0], run)
    requires r == s.(evtq := multiset{run}, count := r.count, kSch := r.kSch)
    ensures Exact(app, max, r)
  {
    hide Shaped, Sized, Loops, OnTime, Period, Elapsed;
  }

  lemma ExactOne(app: App, max: real, s: State, e: Event)
    requires Shaped(app) && Exact(app, max, s) && e in s.evtq
    ensures |s.base| == 1 && e.kernel < |app.nodes| && e.length == app.nodes[e.kernel].length && OnTime(app, s.base[0], e)
  {
    assert EventOf([app], e);
    hide Shaped, OnTime, Loops, Period, Elapsed;
  }

  /** The event that replaces the lone one when it starts running. */
  lemma ExactStart(app: App, max: real, s: State, e: Event, r: State)
    requires Shaped(app) && Exact(app, max, s) && Sized([app], s) && Steppable([app], s) && Counted([app], s)
    requires s.evtq == multiset{e} && e.time == s.now && !e.running && r == Next([app], s, e) && Sized([app], r)
    ensures Exact(app, max, r)
  {
    var run := e.(running := true, time := s.now + e.length);
    assert !RunningOf(e.kind)(e);
    hide *;
    EventInRange([app], s, e);
    CountedRunning([app], s, e.kind);
    SingleCount(RunningOf(e.kind), e);
    BitIs(false);
    assert s.(now := e.time) == s;
    NextForm([app], s, e, s, r);
    LoneStartForm(s, e, run, r);
    ExactOne(app, max, s, e);
    StartedOnTime(app, s.base[0], e, run);
    ExactSwap(app, max, s, run, r);
  }

  lemma OnlyChild(app: App, k: nat, now: real)
    requires Shaped(app) && k < |app.nodes|
    ensures Children(app, 0, k, now, 0) == multiset{}
    ensures |app.nodes[k].next| == 1 ==> Children(app, 0, k, now, 1) == multiset{ChildEvent(app, 0, k, 0, now)}
  {
    if |app.nodes[k].next| == 1 { ChildrenAdd(app, 0, k, now, 1); }
  }

  lemma ReleaseLone(app: App, s: State, e: Event, r: State)
    requires Shaped(app) && Sized([app], s) && Counted([app], s) && s.evtq == multiset{e} && e.running
    requires r == Release([app], s, e) && |app.nodes[e.kernel].next| <= 1
    ensures e.app == 0 && |r.count| == 4 && 1 <= e.kind <= 3 && r.count[e.kind] == 0 && r.now == s.now
    ensures r.base == s.base && r.loop == s.loop && r.rt == s.rt && |r.ac| == 1
    ensures r.ac[0] == |app.nodes[e.kernel].next|
    ensures app.nodes[e.kernel].next == [] ==> r.evtq == multiset{}
    ensures app.nodes[e.kernel].next != [] ==> r.evtq == multiset{ChildEvent(app, 0, e.kernel, 0, s.now)}
  {
    assert EventOf([app], e);
    assert s.count[e.kind] == Count(RunningOf(e.kind), multiset{e}) && s.ac[0] == Count(Of(0), multiset{e});
    SingleCount(RunningOf(e.kind), e);
    SingleCount(Of(0), e);
    assert multiset{e} - multiset{e} == multiset{};
    var n := |app.nodes[e.kernel].next|;
    var kids := Children(app, 0, e.kernel, s.now, n);
    OnlyChild(app, e.kernel, s.now);
    assert r.evtq == multiset{e} - multiset{e} + kids;
    hide Shaped, Sized, Counted, Count, Children, ChildEvent;
  }

  /** The child of kernel `k` of a chain is the next kernel. */
  lemma ChildIsNext(app: App, k: nat)
    requires Shaped(app) && Chain(app) && k < |app.nodes| && app.nodes[k].next != []
    ensures k + 1 < |app.nodes| && app.nodes[k].next[0] == k + 1
  {
    var c := app.nodes[k].next[0];
    assert 0 < c < |app.nodes| && app.nodes[c].parent == k;
    hide Shaped, Chain;
    ChainParent(app, c);
  }

  lemma ChildEventIs(app: App, k: nat, now: real, c: Event)
    requires Shaped(app) && k < |app.nodes| && app.nodes[k].next != [] && c == ChildEvent(app, 0, k, 0, now)
    ensures c.kernel == app.nodes[k].next[0] < |app.nodes| && !c.running
    ensures c.time == now + HostTime(app.nodes[c.kernel].start - app.nodes[k].End(), app.slow)
  {
    hide HostTime;
  }

  lemma NextOnTime(app: App, k: nat, now: real, base: real, c: Event)
    requires k + 1 < |app.nodes| && now == base + Finishes(app, k) && c.kernel == k + 1 && !c.running
    requires c.time == now + HostTime(app.nodes[k + 1].start - app.nodes[k].End(), app.slow)
    ensures OnTime(app, base, c)
  {
    hide HostTime, Finishes;
  }

  lemma ChildOnTime(app: App, k: nat, now: real, base: real)
    requires Shaped(app) && Chain(app) && k < |app.nodes| && app.nodes[k].next != []
    requires now == base + Finishes(app, k)
    ensures ChildEvent(app, 0, k, 0, now).kernel < |app.nodes|
    ensures OnTime(app, base, ChildEvent(app, 0, k, 0, now))
  {
    hide *;
    ChildIsNext(app, k);
    var c := ChildEvent(app, 0, k, 0, now);
    ChildEventIs(app, k, now, c);
    NextOnTime(app, k, now, base, c);
  }

  /** The only child takes over. */
  lemma ExactChild(app: App, max: real, s: State, v: State, c: Event)
    requires Shaped(app) && Exact(app, max, s) && Sized([app], v) && v.evtq == multiset{c}
    requires v.base == s.base && v.loop == s.loop && v.ac[0] == 1
    requires c.kernel < |app.nodes| && OnTime(app, s.base[0], c)
    ensures Exact(app, max, v)
  {
    hide Shaped, EventOf, Loops, Elapsed, OnTime;
  }

  lemma HeadOnTime(app: App, now: real, h: Event)
    requires Shaped(app) && h == Submit(0, 0, Head(app), Head(app).start + now)
    ensures h.kernel < |app.nodes| && OnTime(app, now, h)
  {
    assert |app.nodes| > 0;
    hide Rooted;
  }

  /** The end of the chain, on time, ends the iteration on time. */
  lemma ExactLeaf(app: App, max: real, s: State, r: State, v: State)
    requires Shaped(app) && Exact(app, max, s) && Sized([app], r) && Sized([app], v) && v == Renew([app], r, 0)
    requires r.evtq == multiset{} && r.ac[0] == 0 && r.base == s.base && r.loop == s.loop && r.loop[0] >= 1
    requires r.now == s.base[0] + Period(app)
    ensures Exact(app, max, v)
  {
    ElapsedNext(Loops(max, app) - s.loop[0], Period(app));
    var h := Submit(0, 0, Head(app), Head(app).start + r.now);
    HeadOnTime(app, r.now, h);
    assert multiset{} + multiset{h} == multiset{h};
    assert [app][0] == app;
    hide Shaped, EventOf, Loops, Elapsed, OnTime, Period;
  }

  lemma ExactFinish(app: App, max: real, s: State, e: Event, r: State, v: State)
    requires Shaped(app) && Chain(app) && |app.nodes| > 0
    requires Exact(app, max, s) && Counted([app], s) && Steppable([app], s) && Sized([app], s)
    requires s.evtq == multiset{e} && e.time == s.now && e.running && e.kernel < |app.nodes| && OnTime(app, s.base[0], e)
    requires |s.loop| == 1 && s.loop[0] >= 1
    requires r == Release([app], s, e) && Sized([app], r) && v == Finish([app], s, e) && Sized([app], v)
    ensures Exact(app, max, v)
  {
    assert |app.nodes[e.kernel].next| <= 1;
    var k := e.kernel;
    if app.nodes[k].next == [] {
      ChainEnd(app, k);
      assert Period(app) == Finishes(app, k);
    }
    assert s.now == s.base[0] + Finishes(app, k);
    hide *;
    ReleaseLone(app, s, e, r);
    NoSpeedUpNeeded(r, e.kind);
    FinishIs([app], s, e, r, r, v);
    RenewForm([app], r, 0, v);
    if app.nodes[k].next != [] {
      ChildOnTime(app, k, s.now, s.base[0]);
      ExactChild(app, max, s, v, ChildEvent(app, 0, k, 0, s.now));
    } else {
      ExactLeaf(app, max, s, r, v);
    }
  }

  lemma NoSpeedUpNeeded(r: State, kind: int)
    requires |r.count| == 4 && 1 <= kind <= 3 && r.count[kind] == 0
    ensures SpeedUp(r, kind) == r
  {
  }

  lemma ExactInit(app: App, max: real, rt: seq<real>)
    requires Shaped(app) && AllShaped([app]) && |rt| == 1 && Sized([app], Init([app], max, rt))
    ensures Exact(app, max, Init([app], max, rt))
  {
    var h := Submit(0, 0, Head(app), Head(app).start);
    assert Heads([app], 0) == multiset{} && Heads([app], 1) == Heads([app], 0) + multiset{h};
    assert Head(app).start + 0.0 == Head(app).start;
    HeadOnTime(app, 0.0, h);
    ElapsedNext(0, Period(app));
    hide Shaped, Elapsed, OnTime, Loops, Period;
  }

  lemma {:induction false} ReachableExact(app: App, max: real, run: seq<State>, i: nat)
    requires Shaped(app) && Chain(app) && IsRun([app], max, run) && i < |run|
    ensures Exact(app, max, run[i])
  {
    hide IsRun, Structural, Chain, Shaped, Next, Settled, Exact;
    ReachableStructure([app], max, run, i);
    SizedParts([app], max, run[i]);
    if i == 0 {
      InitOf([app], max, run);
      ExactInit(app, max, run[0].rt);
    } else {
      ReachableExact(app, max, run, i - 1);
      ReachableStructure([app], max, run, i - 1);
      SizedParts([app], max, run[i - 1]);
      NextOf([app], max, run, i);
      var e := TurnAt([app], max, run, i - 1);
      ExactTurn(app, max, run[i - 1], e, run[i]);
    }
  }

  lemma InitOf(apps: seq<App>, max: real, run: seq<State>)
    requires IsRun(apps, max, run)
    ensures |run| > 0 && AllShaped(apps) && |run[0].rt| == |apps| && run[0] == Init(apps, max, run[0].rt)
  {
  }

  lemma NextOf(apps: seq<App>, max: real, run: seq<State>, i: nat)
    requires IsRun(apps, max, run) && 0 < i < |run|
    ensures i - 1 < |run| - 1
  {
  }

  /** Exactness does not look at the clock. */
  lemma ExactTick(app: App, max: real, s: State, t: real)
    requires Shaped(app) && Exact(app, max, s)
    ensures Exact(app, max, s.(now := t))
  {
    hide Shaped, EventOf, Loops, Elapsed, Period, OnTime;
  }

  lemma ExactLone(app: App, max: real, s: State)
    requires Shaped(app) && Exact(app, max, s)
    ensures |s.evtq| <= 1
  {
  }

  /** A turn begins by setting the clock. */
  lemma NextTick(apps: seq<App>, s: State, e: Event)
    requires Steppable(apps, s) && e in s.evtq
    ensures Steppable(apps, s.(now := e.time)) && e in s.(now := e.time).evtq
    ensures Next(apps, s, e) == Next(apps, s.(now := e.time), e)
  {
    var s0 := s.(now := e.time);
    assert s0.(now := e.time) == s0;
    hide AllShaped, EventOf, Finish, StartCopy, StartKernel, Retry;
  }

  lemma ExactTurn(app: App, max: real, s: State, e: Event, r: State)
    requires Shaped(app) && Chain(app) && Exact(app, max, s) && Structural([app], max, s) && Settled(s) && Steppable([app], s)
    requires e in s.evtq && r == Next([app], s, e) && Sized([app], r)
    ensures Exact(app, max, r)
  {
    hide *;
    var s0 := s.(now := e.time);
    Ticked([app], max, s, e.time);
    SizedParts([app], max, s0);
    ExactTick(app, max, s, e.time);
    NextTick([app], s, e);
    ExactLone(app, max, s);
    Single(s.evtq, e);
    ExactOne(app, max, s0, e);
    if e.running {
      FinishParts([app], max, s0, e, r);
      ExactFinish(app, max, s0, e, Release([app], s0, e), r);
    } else {
      ExactStart(app, max, s0, e, r);
    }
  }

  lemma FinishParts(apps: seq<App>, max: real, s: State, e: Event, r: State)
    requires Structural(apps, max, s) && Steppable(apps, s) && e in s.evtq && e.running && e.time == s.now
    requires r == Next(apps, s, e)
    ensures r == Finish(apps, s, e) && Sized(apps, Release(apps, s, e))
  {
    assert s.(now := e.time) == s;
    ReleaseSized(apps, s, e);
    hide Structural, AllShaped, Finish, Release;
  }

  /** A lone app whose kernels form a chain takes exactly as long as its iterations
      with the host's share stretched by the slowdown. */
  lemma LoneChainIsExact(app: App, max: real, run: seq<State>)
    requires Shaped(app) && |app.nodes| > 0 && Chain(app) && IsRun([app], max, run) && Complete(run)
    ensures |run[|run| - 1].rt| == 1 && run[|run| - 1].rt[0] == Elapsed(Loops(max, app), Period(app))
  {
    InitOf([app], max, run);
    var s := run[|run| - 1];
    assert s.evtq == multiset{};
    hide *;
    ReachableStructure([app], max, run, |run| - 1);
    ReachableExact(app, max, run, |run| - 1);
    SizedParts([app], max, s);
    ExactRuntime(app, max, s);
  }

  lemma ExactRuntime(app: App, max: real, s: State)
    requires Shaped(app) && |app.nodes| > 0 && Exact(app, max, s) && Sized([app], s) && Counted([app], s)
    requires s.evtq == multiset{}
    ensures |s.rt| == 1 && s.rt[0] == Elapsed(Loops(max, app), Period(app))
  {
    assert s.ac[0] == Count(Of(0), s.evtq) == 0;
    hide Shaped, Loops, Sized, Counted, Period, Elapsed;
  }

  lemma ElapsedOrder(l: int, x: real, y: real)
    requires l >= 1
    ensures Elapsed(l, x) >= Elapsed(l, y) <==> x >= y
  {
    assert Elapsed(l, x) - Elapsed(l, y) == l as real * (x - y);
    if x < y { assert l as real * (y - x) >= y - x; }
  }

  /** A lone chain takes no less time than it was recorded to if, and only if, the
      slowdown does not act on a negative share of the host.  That share, which the
      recording gives, is negative where kernels start before what they wait for has
      ended by more than the host's pauses make up for. */
  lemma LoneChainNotSpedUpIff(app: App, max: real, run: seq<State>)
    requires Shaped(app) && Chain(app) && IsRun([app], max, run) && Complete(run)
    requires |app.nodes| > 0 && app.nodes[|app.nodes| - 1].End() == app.length
    ensures |run[|run| - 1].rt| == 1
    ensures run[|run| - 1].rt[0] >= Elapsed(Loops(max, app), app.length)
      <==> Gaps(app, |app.nodes| - 1) * app.slow >= 0.0
  {
    hide *;
    LoneChainIsExact(app, max, run);
    PeriodStretched(app);
    LoopsPositive(max, app);
    ElapsedOrder(Loops(max, app), Period(app), app.length);
  }

  lemma LoopsPositive(max: real, app: App)
    requires Shaped(app)
    ensures Loops(max, app) >= 1
  {
  }
}
