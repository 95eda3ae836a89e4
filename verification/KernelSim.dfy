/** The co-location simulator as the program runs it: a loop over a priority
    queue and a few counters, held against the state machine of Colocation. */
module KernelSim {
  import opened Bags
  import opened KernelTree
  import opened Colocation
  import opened ColocationStructure
  import opened ColocationSchedule
  import opened ColocationTiming
  import opened ColocationRuns
  import opened ColocationTheorems

  lemma {:induction false} HasTop(evtq: multiset<Event>) returns (e: Event)
    requires evtq != multiset{}
    ensures Top(evtq, e)
    decreases |evtq|
  {
    var x :| x in evtq;
    var rest := evtq - multiset{x};
    if rest == multiset{} {
      e := x;
      assert forall y :: y in evtq ==> y == x || y in rest;
    } else {
      var f := HasTop(rest);
      e := if x.time <= f.time then x else f;
      assert forall y :: y in evtq ==> y == x || y in rest;
    }
  }

  /** `priority_queue::top`: some event of least time. */
  method Earliest(evtq: multiset<Event>) returns (e: Event)
    requires evtq != multiset{}
    ensures Top(evtq, e)
  {
    ghost var f := HasTop(evtq);
    e :| e in evtq && forall x :: x in evtq ==> e.time <= x.time;
  }

  lemma MoveOne(f: Event -> Event, from: multiset<Event>, to: multiset<Event>, e: Event)
    requires e in from
    ensures to + Image(f, from) == to + multiset{f(e)} + Image(f, from - multiset{e})
  {
    hide *;
    ImagePick(f, from, e);
  }

  lemma NothingToMove(f: Event -> Event)
    ensures Image(f, multiset{}) == multiset{}
  {
  }

  lemma TopIn(evtq: multiset<Event>, e: Event)
    requires Top(evtq, e)
    ensures e in evtq
  {
  }

  /** Moves the queue through a second one, rescaling the running copies of one
      kind, and back. */
  method RescaleQueue(evtq: multiset<Event>, evtq2: multiset<Event>, kind: int, now: real, num: int, den: int)
      returns (q: multiset<Event>)
    requires den != 0
    ensures q == evtq2 + Image(Rescale(kind, now, num, den), evtq)
  {
    hide *;
    ghost var f := Rescale(kind, now, num, den);
    ghost var goal := evtq2 + Image(f, evtq);
    var from, to := evtq, evtq2;
    while from != multiset{}
      invariant to + Image(f, from) == goal
      decreases |from|
    {
      var e := Earliest(from);
      TopIn(from, e);
      RescaleIs(e, kind, now, num, den);
      MoveOne(f, from, to, e);
      from := from - multiset{e};
      if e.kind == kind && e.running {
        to := to + multiset{e.(time := RescaledTime(e.time, now, num, den))};
      } else {
        to := to + multiset{e};
      }
    }
    NothingToMove(f);
    q := multiset{};
    while to != multiset{}
      invariant q + to == goal
      decreases |to|
    {
      var e := Earliest(to);
      TopIn(to, e);
      q := q + multiset{e};
      to := to - multiset{e};
    }
  }

  lemma ChildInRange(app: App, k: nat, i: nat)
    requires Shaped(app) && k < |app.nodes| && i < |app.nodes[k].next|
    ensures app.nodes[k].next[i] < |app.nodes|
  {
  }

  lemma NoChildren(app: App, a: nat, k: nat, now: real)
    requires Shaped(app) && k < |app.nodes|
    ensures Children(app, a, k, now, 0) == multiset{}
  {
  }

  lemma ChildIs(app: App, a: nat, k: nat, i: nat, now: real, e: Event)
    requires Shaped(app) && k < |app.nodes| && i < |app.nodes[k].next| && app.nodes[k].next[i] < |app.nodes|
    requires var c := app.nodes[k].next[i];
      e == Submit(a, c, app.nodes[c], now + HostTime(app.nodes[c].start - app.nodes[k].End(), app.slow))
    ensures e == ChildEvent(app, a, k, i, now)
  {
  }

  lemma AddOne(q: multiset<Event>, kids: multiset<Event>, more: multiset<Event>, e: Event)
    requires more == kids + multiset{e}
    ensures q + kids + multiset{e} == q + more
  {
  }

  /** The children of the finished kernel are submitted one by one. */
  method SubmitChildren(apps: seq<App>, a: nat, k: nat, now: real, evtq: multiset<Event>, ac: array<int>)
      returns (q: multiset<Event>)
    requires a < |apps| == ac.Length && Shaped(apps[a]) && k < |apps[a].nodes|
    modifies ac
    ensures q == evtq + Children(apps[a], a, k, now, |apps[a].nodes[k].next|)
    ensures ac[..] == old(ac[..])[a := old(ac[a]) + |apps[a].nodes[k].next|]
  {
    hide *;
    var node := apps[a].nodes[k];
    NoChildren(apps[a], a, k, now);
    q := evtq;
    for i := 0 to |node.next|
      invariant q == evtq + Children(apps[a], a, k, now, i)
      invariant ac[a] == old(ac[a]) + i
      invariant forall b :: 0 <= b < ac.Length && b != a ==> ac[b] == old(ac[b])
    {
      ChildInRange(apps[a], k, i);
      var cur := apps[a].nodes[node.next[i]];
      var newEvt := Submit(a, node.next[i], cur, now + HostTime(cur.start - node.End(), apps[a].slow));
      ChildIs(apps[a], a, k, i, now, newEvt);
      ChildrenAdd(apps[a], a, k, now, i + 1);
      AddOne(evtq, Children(apps[a], a, k, now, i), Children(apps[a], a, k, now, i + 1), newEvt);
      q := q + multiset{newEvt};
      ac[a] := ac[a] + 1;
    }
  }

  /** A submitted kernel is on top of the queue. */
  method SubmittedKernel(ghost s: State, e: Event, queue: multiset<Event>, count: array<int>, sched: real, now: real)
      returns (evtq: multiset<Event>, kSch: real)
    requires |s.count| == 4 && s.evtq == queue && s.count == count[..] && s.kSch == sched && s.now == now
    requires e in queue && e.kind == 1 && !e.running
    modifies count
    ensures var r := if s.count[1] == 0 then StartKernel(s, e) else Retry(s, e);
      evtq == r.evtq && count[..] == r.count && kSch == r.kSch
  {
    kSch := sched;
    if count[1] == 0 {
      count[1] := count[1] + 1;
      var newEvt := e.(running := true, time := now + e.length);
      kSch := newEvt.time;
      evtq := queue - multiset{e} + multiset{newEvt};
    } else {
      var newEvt := e.(time := e.time + (kSch - now) + EPSILON);
      evtq := queue - multiset{e} + multiset{newEvt};
    }
  }

  /** A submitted copy is on top of the queue. */
  method SubmittedCopy(ghost s: State, e: Event, queue: multiset<Event>, count: array<int>, now: real)
      returns (evtq: multiset<Event>)
    requires |s.count| == 4 && s.evtq == queue && s.count == count[..] && s.now == now
    requires e in queue && 2 <= e.kind <= 3 && !e.running && s.count[e.kind] >= 0
    modifies count
    ensures evtq == StartCopy(s, e).evtq && count[..] == StartCopy(s, e).count
  {
    ghost var c := s.count[e.kind] + 1;
    count[e.kind] := count[e.kind] + 1;
    assert count[e.kind] == c;
    var newEvt := e.(running := true, time := CopyEnd(now, e.length, count[e.kind]));
    hide Image, Rescale, CopyEnd, StartCopy;
    StartCopyForm(s, e, c, newEvt);
    evtq := queue - multiset{e};
    if count[e.kind] == 1 {
      evtq := evtq + multiset{newEvt};
    } else {
      evtq := RescaleQueue(evtq, multiset{newEvt}, e.kind, now, count[e.kind], count[e.kind] - 1);
    }
  }

  /** A running event on top of the queue is done. */
  method Finished(apps: seq<App>, ghost s: State, e: Event, queue: multiset<Event>, count: array<int>, sched: real,
                  now: real, ac: array<int>)
      returns (evtq: multiset<Event>, kSch: real)
    requires Sized(apps, s) && s.evtq == queue && s.count == count[..] && s.kSch == sched && s.ac == ac[..] && s.now == now
    requires e in queue && e.running && ac != count && e.app < |apps| && Shaped(apps[e.app])
    requires e.kernel < |apps[e.app].nodes| && 1 <= e.kind <= 3 && |s.count| == 4
    requires Release(apps, s, e).count[1] == 0 || e.kind != 1
    modifies count, ac
    ensures var u := SpeedUp(Release(apps, s, e), e.kind);
      evtq == u.evtq && count[..] == u.count && kSch == u.kSch && ac[..] == u.ac
  {
    hide *;
    ghost var r := Release(apps, s, e);
    ghost var n := |apps[e.app].nodes[e.kernel].next|;
    ReleaseParts(apps, s, e, r, n);
    kSch := sched;
    ac[e.app] := ac[e.app] - 1;
    if e.kind == 1 {
      count[1] := count[1] - 1;
      kSch := 0.0;
    } else {
      count[e.kind] := count[e.kind] - 1;
    }
    evtq := SubmitChildren(apps, e.app, e.kernel, now, queue - multiset{e}, ac);
    assert ac[..] == r.ac && count[..] == r.count && evtq == r.evtq;
    SpeedUpForm(r, e.kind, count[e.kind]);
    if e.kind != 1 && count[e.kind] >= 1 {
      evtq := RescaleQueue(evtq, multiset{}, e.kind, now, count[e.kind], count[e.kind] + 1);
    }
  }

  /** An app with nothing in flight starts over or is finished. */
  method RenewApp(apps: seq<App>, ghost s: State, a: nat, queue: multiset<Event>, ac: array<int>, loop: array<int>,
                  rt: array<real>, now: real)
      returns (evtq: multiset<Event>)
    requires Sized(apps, s) && a < |apps| && Shaped(apps[a]) && ac != loop
    requires s.evtq == queue && s.ac == ac[..] && s.loop == loop[..] && s.rt == rt[..] && s.now == now
    requires |s.ac| == |s.loop| == |s.rt| == |apps|
    modifies ac, loop, rt
    ensures var r := Renew(apps, s, a);
      evtq == r.evtq && ac[..] == r.ac && loop[..] == r.loop && rt[..] == r.rt
  {
    hide Sized, Shaped;
    evtq := queue;
    if ac[a] == 0 {
      if loop[a] > 1 {
        var cur := Head(apps[a]);
        evtq := evtq + multiset{Submit(a, 0, cur, cur.start + now)};
        loop[a] := loop[a] - 1;
        ac[a] := ac[a] + 1;
      } else {
        rt[a] := now;
      }
    }
  }

  lemma Extend(apps: seq<App>, max: real, run: seq<State>, e: Event, r: State)
    requires IsRun(apps, max, run) && Steppable(apps, run[|run| - 1]) && Top(run[|run| - 1].evtq, e)
    requires e in run[|run| - 1].evtq && r == Next(apps, run[|run| - 1], e)
    ensures IsRun(apps, max, run + [r])
  {
    hide AllShaped, Init, Next, Steppable, Top;
    var longer := run + [r];
    forall i | 0 <= i < |longer| - 1 ensures Turn(apps, longer[i], longer[i + 1]) {
      if i < |run| - 1 { assert Turn(apps, run[i], run[i + 1]); }
    }
  }

  lemma StartRun(apps: seq<App>, max: real, s: State)
    requires AllShaped(apps) && |s.rt| == |apps| && s == Init(apps, max, s.rt)
    ensures IsRun(apps, max, [s])
  {
    hide AllShaped, Init;
  }

  lemma NextIs(apps: seq<App>, s: State, e: Event, s0: State)
    requires Steppable(apps, s) && e in s.evtq && s0 == s.(now := e.time)
    ensures Steppable(apps, s0) && e.app < |apps| && Shaped(apps[e.app]) && e.kernel < |apps[e.app].nodes|
    ensures 1 <= e.kind <= 3 && |s.count| == 4 && s.count[e.kind] >= 0
    ensures |s.ac| == |s.loop| == |s.rt| == |apps|
    ensures Sized(apps, s0)
    ensures Next(apps, s, e) ==
      if e.running then Finish(apps, s0, e)
      else if e.kind != 1 then StartCopy(s0, e)
      else if s0.count[1] == 0 then StartKernel(s0, e) else Retry(s0, e)
  {
    hide Finish, StartCopy, StartKernel, Retry;
  }

  lemma StartedIs(s: State, e: Event)
    requires |s.count| == 4 && 1 <= e.kind <= 3 && s.count[e.kind] >= 0
    ensures e.kind != 1 ==>
      StartCopy(s, e) == s.(evtq := StartCopy(s, e).evtq, count := StartCopy(s, e).count)
    ensures StartKernel(s, e) ==
      s.(evtq := StartKernel(s, e).evtq, count := StartKernel(s, e).count, kSch := StartKernel(s, e).kSch)
    ensures Retry(s, e) == s.(evtq := Retry(s, e).evtq)
  {
    hide Image, Rescale;
  }

  lemma ReleaseRest(apps: seq<App>, s: State, e: Event, r: State)
    requires Sized(apps, s) && e in s.evtq && r == Release(apps, s, e)
    ensures r.loop == s.loop && r.rt == s.rt && r.now == s.now
  {
    hide AllShaped, Children;
  }

  lemma SpeedUpRest(r: State, kind: int)
    requires |r.count| == 4 && 1 <= kind <= 3
    ensures SpeedUp(r, kind) == r.(evtq := SpeedUp(r, kind).evtq)
  {
    hide Image, Rescale;
  }

  lemma RenewRest(apps: seq<App>, u: State, a: nat)
    requires Sized(apps, u) && a < |apps|
    ensures var w := Renew(apps, u, a); w.count == u.count && w.kSch == u.kSch && w.now == u.now
    ensures |u.ac| == |u.loop| == |u.rt| == |apps|
  {
    hide AllShaped, EventOf;
  }

  /** What `Finish` leaves of the variables that its parts do not mention. */
  lemma FinishedIs(apps: seq<App>, max: real, s: State, e: Event, r: State, u: State, v: State)
    requires Structural(apps, max, s) && Steppable(apps, s) && e in s.evtq && e.running
    requires 1 <= e.kind <= 3 && e.app < |apps|
    requires r == Release(apps, s, e) && |r.count| == 4 && u == SpeedUp(r, e.kind) && v == Finish(apps, s, e)
    ensures Sized(apps, r) && Sized(apps, u) && (e.kind == 1 ==> r.count[1] == 0)
    ensures u.loop == s.loop && u.rt == s.rt && u.now == s.now && |u.ac| == |u.loop| == |u.rt| == |apps|
    ensures v == Renew(apps, u, e.app) && v.count == u.count && v.kSch == u.kSch && v.now == u.now
  {
    hide *;
    SizedParts(apps, max, s);
    ReleaseSized(apps, s, e);
    SpeedUpSized(apps, r, e.kind);
    if e.kind == 1 {
      RunningCounted(apps, s, e);
      CountedCaps(apps, s);
    }
    EventInRange(apps, s, e);
    ReleaseParts(apps, s, e, r, |apps[e.app].nodes[e.kernel].next|);
    ReleaseRest(apps, s, e, r);
    SpeedUpRest(r, e.kind);
    FinishIs(apps, s, e, r, u, v);
    RenewRest(apps, u, e.app);
  }

  /** The first `n` apps have one kernel in flight and all their iterations ahead. */
  ghost predicate Counters(apps: seq<App>, max: real, loop: seq<int>, ac: seq<int>, n: nat) {
    && n <= |apps| == |loop| == |ac|
    && forall a: nat :: a < n ==> Counter(apps, max, loop, ac, a)
  }

  ghost predicate Counter(apps: seq<App>, max: real, loop: seq<int>, ac: seq<int>, a: nat)
    requires a < |apps| == |loop| == |ac|
  {
    Shaped(apps[a]) && ac[a] == 1 && AsManyAsFit(loop[a], max, apps[a].length)
  }

  lemma CountersNone(apps: seq<App>, max: real, loop: seq<int>, ac: seq<int>)
    requires |apps| == |loop| == |ac|
    ensures Counters(apps, max, loop, ac, 0)
  {
  }

  lemma CountersStep(apps: seq<App>, max: real, loop: seq<int>, ac: seq<int>, n: nat, l: int)
    requires AllShaped(apps) && n < |apps| && Counters(apps, max, loop, ac, n)
    requires AsManyAsFit(l, max, apps[n].length)
    ensures Counters(apps, max, loop[n := l], ac[n := 1], n + 1)
  {
    ShapedAt(apps, n);
    hide Shaped, AllShaped, AsManyAsFit;
    var newLoop, newAc := loop[n := l], ac[n := 1];
    forall a: nat | a < n + 1 ensures Counter(apps, max, newLoop, newAc, a) {
      if a < n { assert Counter(apps, max, loop, ac, a); }
    }
  }

  lemma LoopCount(apps: seq<App>, max: real, i: nat) returns (l: int)
    requires AllShaped(apps) && i < |apps|
    ensures apps[i].length != 0.0 && Shaped(apps[i]) && AsManyAsFit(l, max, apps[i].length)
    ensures l == var n := Truncate(max / apps[i].length); if n < 1 then 1 else n
  {
    assert Shaped(apps[i]);
    hide Rooted;
    l := Iterations(max, apps[i].length);
    IterationsFit(max, apps[i].length, l);
    hide AsManyAsFit;
  }

  /** Submits the head of every app and sets up its counters. */
  method SetUp(apps: seq<App>, max: real, loop: array<int>, ac: array<int>) returns (evtq: multiset<Event>)
    requires AllShaped(apps) && loop.Length == ac.Length == |apps| && loop != ac
    modifies loop, ac
    ensures evtq == Heads(apps, |apps|) && Counters(apps, max, loop[..], ac[..], |apps|)
  {
    hide *;
    evtq := multiset{};
    HeadsNone(apps);
    CountersNone(apps, max, loop[..], ac[..]);
    for i := 0 to |apps|
      invariant evtq == Heads(apps, i) && Counters(apps, max, loop[..], ac[..], i)
    {
      ghost var l := LoopCount(apps, max, i);
      HeadsStep(apps, i + 1);
      CountersStep(apps, max, loop[..], ac[..], i, l);
      ghost var was := loop[..];
      var cur := Head(apps[i]);
      evtq := evtq + multiset{Submit(i, 0, cur, cur.start)};
      ac[i] := 1;
      loop[i] := Truncate(max / apps[i].length);
      if loop[i] < 1 { loop[i] := 1; }
      assert loop[..] == was[i := l];
    }
  }

  /** One turn of the loop, on the program's variables. */
  method TakeTurn(apps: seq<App>, ghost max: real, ghost s: State, e: Event, queue: multiset<Event>, count: array<int>,
                  sched: real, ac: array<int>, loop: array<int>, rt: array<real>)
      returns (evtq: multiset<Event>, kSch: real)
    requires Structural(apps, max, s) && Steppable(apps, s) && e in s.evtq
    requires s.evtq == queue && s.count == count[..] && s.kSch == sched
    requires s.ac == ac[..] && s.loop == loop[..] && s.rt == rt[..]
    requires count != ac && count != loop && ac != loop
    modifies count, ac, loop, rt
    ensures var r := Next(apps, s, e);
      && evtq == r.evtq && count[..] == r.count && kSch == r.kSch && e.time == r.now
      && ac[..] == r.ac && loop[..] == r.loop && rt[..] == r.rt
  {
    hide *;
    var now := e.time;
    ghost var s0 := s.(now := now);
    NextIs(apps, s, e, s0);
    SameStructure(apps, max, s, now);
    if !e.running {
      StartedIs(s0, e);
      kSch := sched;
      if e.kind == 1 {
        evtq, kSch := SubmittedKernel(s0, e, queue, count, sched, now);
      } else {
        evtq := SubmittedCopy(s0, e, queue, count, now);
      }
    } else {
      ghost var r := Release(apps, s0, e);
      ReleaseCounters(apps, s0, e);
      ghost var u := SpeedUp(r, e.kind);
      FinishedIs(apps, max, s0, e, r, u, Finish(apps, s0, e));
      evtq, kSch := Finished(apps, s0, e, queue, count, sched, now, ac);
      evtq := RenewApp(apps, u, e.app, evtq, ac, loop, rt, now);
    }
  }

  lemma SameStructure(apps: seq<App>, max: real, s: State, t: real)
    requires Structural(apps, max, s)
    ensures Structural(apps, max, s.(now := t))
  {
    hide AllShaped, QueueExact, Loops;
  }

  /** The report is the time beyond the recording, in percent of it. */
  predicate Reported(app: App, max: real, runtime: real, slowdown: real) {
    app.length > 0.0 ==>
      var whole := Elapsed(Iterations(max, app.length), app.length);
      slowdown * whole == (runtime - whole) * 100.0
  }

  /** The app was not faster than its recording. */
  predicate NotSpedUp(app: App, max: real, runtime: real, slowdown: real) {
    app.slow >= 0.0 && app.length > 0.0 ==>
      runtime >= Elapsed(Iterations(max, app.length), app.length) && slowdown >= 0.0
  }

  /** Alone on the machine, a chain of kernels takes its iterations with the host's
      share stretched, and no longer. */
  ghost predicate ExactIfAlone(apps: seq<App>, max: real, runtimes: seq<real>, slowdown: seq<real>)
    requires |runtimes| == |slowdown| == |apps|
  {
    |apps| == 1 && |apps[0].nodes| > 0 && apps[0].length > 0.0 && Chain(apps[0]) ==>
      && runtimes[0] == Elapsed(Iterations(max, apps[0].length), Period(apps[0]))
      && (apps[0].slow == 0.0 && apps[0].nodes[|apps[0].nodes| - 1].End() == apps[0].length ==> slowdown[0] == 0.0)
  }

  /** Every kernel of every app has finished as often as the app's iteration fits into
      `max`. */
  ghost predicate Replayed(apps: seq<App>, max: real, s: State) {
    && |s.fin| == |apps| && (forall a :: 0 <= a < |apps| ==> |s.fin[a]| == |apps[a].nodes|)
    && forall a, k :: 0 <= a < |apps| && 0 <= k < |apps[a].nodes| ==> AsManyAsFit(s.fin[a][k], max, apps[a].length)
  }

  lemma AllReplayed(apps: seq<App>, max: real, run: seq<State>)
    requires IsRun(apps, max, run) && Complete(run) && AllShaped(apps) && |run| > 0
    ensures Replayed(apps, max, run[|run| - 1])
  {
    var s := run[|run| - 1];
    hide IsRun, Complete;
    ReachableStructure(apps, max, run, |run| - 1);
    FinSizes(apps, max, s);
    hide Structural, AllShaped, Settled;
    forall a: nat, k: nat | a < |apps| && k < |apps[a].nodes| ensures AsManyAsFit(s.fin[a][k], max, apps[a].length) {
      ReplayedInFull(apps, max, run, a, k);
      AppParts(apps, max, a);
      hide Loops, Shaped, AsManyAsFit, Iterations;
      IterationsFit(max, apps[a].length, s.fin[a][k]);
    }
  }

  lemma FinSizes(apps: seq<App>, max: real, s: State)
    requires Structural(apps, max, s)
    ensures |s.fin| == |apps| && forall a :: 0 <= a < |apps| ==> |s.fin[a]| == |apps[a].nodes|
  {
    hide AllShaped, QueueExact, Loops;
  }

  /** Simulates the co-location of all apps and reports how much each was slowed
      down, in percent of its recorded time.  The simulation ends for all apps whose
      kernels form trees, and for every order in which events of the same time leave
      the queue. */
  method SimColocation(apps: seq<App>, max: real)
      returns (runtimes: seq<real>, slowdown: seq<real>, now: real, ghost run: seq<State>)
    requires AllShaped(apps)
    ensures IsRun(apps, max, run) && Complete(run) && run[|run| - 1].rt == runtimes && run[|run| - 1].now == now
    ensures |runtimes| == |slowdown| == |apps|
    ensures Replayed(apps, max, run[|run| - 1])
    ensures forall a: nat :: a < |apps| ==> TimeOfEnd(apps, run, a, runtimes[a])
    ensures forall a :: 0 <= a < |apps| ==> Reported(apps[a], max, runtimes[a], slowdown[a])
    ensures AllTimed(apps) ==> forall a :: 0 <= a < |apps| ==> NotSpedUp(apps[a], max, runtimes[a], slowdown[a])
    ensures ExactIfAlone(apps, max, runtimes, slowdown)
  {
    hide *;
    var n := |apps|;
    var count := new int[4](i => 0);
    var loop, ac, rt := new int[n], new int[n], new real[n];
    var kSch := 0.0;
    now := 0.0;
    var evtq := SetUp(apps, max, loop, ac);

    ghost var s := Init(apps, max, rt[..]);
    InitIs(apps, max, rt[..], evtq, count[..], loop[..], ac[..]);
    StructuralInit(apps, max, rt[..]);
    ScheduledInit(apps, max, rt[..]);
    TodoNotNegative(apps, max, s);
    StartRun(apps, max, s);
    run := [s];
    while evtq != multiset{}
      invariant s.evtq == evtq && s.count == count[..] && s.kSch == kSch && s.now == now
      invariant s.ac == ac[..] && s.loop == loop[..] && s.rt == rt[..]
      invariant IsRun(apps, max, run) && |run| > 0 && s == run[|run| - 1]
      invariant Structural(apps, max, s) && Settled(s) && Scheduled(s) && Todo(apps, max, s) >= 0
      decreases Todo(apps, max, s), Count(Submitted(), evtq), Count(Waiting(kSch), evtq)
    {
      var e := Earliest(evtq);
      TopIn(evtq, e);
      SizedParts(apps, max, s);
      ghost var r := Next(apps, s, e);
      StructuralNext(apps, max, s, e);
      ScheduledNext(apps, max, s, e);
      TurnDescends(apps, max, s, e);
      Descent(apps, max, r, s);
      TodoNotNegative(apps, max, r);
      Extend(apps, max, run, e, r);
      evtq, kSch := TakeTurn(apps, max, s, e, evtq, count, kSch, ac, loop, rt);
      now := e.time;
      NextClock(apps, s, e);
      s := r;
      run := run + [r];
    }
    CompleteRun(run);
    runtimes := rt[..];
    LastRt(apps, max, run);
    AllReplayed(apps, max, run);
    forall a: nat | a < |apps| ensures TimeOfEnd(apps, run, a, runtimes[a]) { RuntimesAreSet(apps, max, run, a); }
    slowdown := Report(apps, max, run, runtimes);
  }

  lemma InitIs(apps: seq<App>, max: real, rt: seq<real>, evtq: multiset<Event>, count: seq<int>, loop: seq<int>, ac: seq<int>)
    requires AllShaped(apps) && |rt| == |apps| && evtq == Heads(apps, |apps|) && Counters(apps, max, loop, ac, |apps|)
    requires |count| == 4 && forall t :: 0 <= t < 4 ==> count[t] == 0
    ensures var s := Init(apps, max, rt);
      && s.evtq == evtq && s.count == count && s.kSch == 0.0 && s.now == 0.0
      && s.ac == ac && s.loop == loop && s.rt == rt
  {
    var s := Init(apps, max, rt);
    InitParts(apps, max, rt, s);
    hide Init, AllShaped;
    forall a | 0 <= a < |apps| ensures loop[a] == s.loop[a] && ac[a] == s.ac[a] {
      assert Counter(apps, max, loop, ac, a);
      assert Shaped(apps[a]);
      IterationsFit(max, apps[a].length, loop[a]);
      hide Rooted, Iterations, AsManyAsFit;
    }
    hide Shaped, Loops, Heads, Counters;
  }

  lemma Descent(apps: seq<App>, max: real, r: State, s: State)
    requires AllShaped(apps) && Before(apps, max, r, s)
    ensures Todo(apps, max, r) <= Todo(apps, max, s)
    ensures Todo(apps, max, r) == Todo(apps, max, s) ==> Count(Submitted(), r.evtq) <= Count(Submitted(), s.evtq)
    ensures Todo(apps, max, r) == Todo(apps, max, s) && Count(Submitted(), r.evtq) == Count(Submitted(), s.evtq) ==>
      r.kSch == s.kSch && Count(Waiting(r.kSch), r.evtq) < Count(Waiting(s.kSch), s.evtq)
  {
    hide Todo, Count, AllShaped;
  }

  lemma LastRt(apps: seq<App>, max: real, run: seq<State>)
    requires IsRun(apps, max, run)
    ensures |run| > 0 && |run[|run| - 1].rt| == |apps|
  {
    ReachableStructure(apps, max, run, |run| - 1);
    hide AllShaped, QueueExact, Loops, Init;
  }

  lemma CompleteRun(run: seq<State>)
    requires |run| > 0 && run[|run| - 1].evtq == multiset{}
    ensures Complete(run)
  {
  }

  function Percent(runtime: real, whole: real): real
    requires whole != 0.0
  {
    (runtime / whole - 1.0) * 100.0
  }

  lemma PercentIs(runtime: real, whole: real)
    requires whole > 0.0
    ensures Percent(runtime, whole) * whole == (runtime - whole) * 100.0
    ensures runtime >= whole ==> Percent(runtime, whole) >= 0.0
    ensures runtime == whole ==> Percent(runtime, whole) == 0.0
  {
    assert runtime / whole * whole == runtime;
    if runtime >= whole { assert runtime / whole >= 1.0; }
  }

  lemma WholePositive(l: int, length: real)
    requires l >= 1 && length > 0.0
    ensures Elapsed(l, length) > 0.0
  {
    assert l as real * length >= length;
  }

  lemma AppParts(apps: seq<App>, max: real, i: nat)
    requires AllShaped(apps) && i < |apps|
    ensures Shaped(apps[i]) && apps[i].length > 0.0 && |apps[i].nodes| > 0
    ensures Loops(max, apps[i]) == Iterations(max, apps[i].length) >= 1
    ensures |apps| == 1 ==> apps == [apps[i]]
  {
    assert Shaped(apps[i]);
  }

  lemma ReportedIf(app: App, max: real, runtime: real, slowdown: real, whole: real)
    requires app.length > 0.0 && whole == Elapsed(Iterations(max, app.length), app.length)
    requires slowdown * whole == (runtime - whole) * 100.0
    ensures Reported(app, max, runtime, slowdown)
    ensures (app.slow >= 0.0 ==> runtime >= whole && slowdown >= 0.0) ==> NotSpedUp(app, max, runtime, slowdown)
  {
    hide Iterations, Elapsed;
  }

  lemma AloneIs(apps: seq<App>, max: real, run: seq<State>, runtimes: seq<real>, slowdown: seq<real>)
    requires IsRun(apps, max, run) && Complete(run) && AllShaped(apps) && |run| > 0
    requires |runtimes| == |slowdown| == |apps| && run[|run| - 1].rt == runtimes
    requires forall a :: 0 <= a < |apps| ==> Reported(apps[a], max, runtimes[a], slowdown[a])
    ensures ExactIfAlone(apps, max, runtimes, slowdown)
  {
    if |apps| == 1 && Chain(apps[0]) {
      AppParts(apps, max, 0);
      LoneChainIsExact(apps[0], max, run);
      if apps[0].nodes[|apps[0].nodes| - 1].End() == apps[0].length { PeriodStretched(apps[0]); }
      assert Reported(apps[0], max, runtimes[0], slowdown[0]);
      hide *;
      var whole := Elapsed(Loops(max, apps[0]), apps[0].length);
      WholePositive(Loops(max, apps[0]), apps[0].length);
      AloneIf(apps, max, runtimes, slowdown, whole);
    } else {
      hide IsRun, Complete, Chain;
    }
  }

  lemma AloneIf(apps: seq<App>, max: real, runtimes: seq<real>, slowdown: seq<real>, whole: real)
    requires |runtimes| == |slowdown| == |apps| == 1 && |apps[0].nodes| > 0 && apps[0].length > 0.0
    requires whole == Elapsed(Iterations(max, apps[0].length), apps[0].length) > 0.0
    requires runtimes[0] == Elapsed(Iterations(max, apps[0].length), Period(apps[0]))
    requires apps[0].slow == 0.0 && apps[0].nodes[|apps[0].nodes| - 1].End() == apps[0].length ==>
      Period(apps[0]) == apps[0].length
    requires Reported(apps[0], max, runtimes[0], slowdown[0])
    ensures ExactIfAlone(apps, max, runtimes, slowdown)
  {
    assert slowdown[0] * whole == (runtimes[0] - whole) * 100.0;
    hide Iterations, Elapsed, Period, Chain, Reported;
  }

  /** The table printed at the end. */
  method Report(apps: seq<App>, max: real, ghost run: seq<State>, runtimes: seq<real>) returns (slowdown: seq<real>)
    requires IsRun(apps, max, run) && Complete(run) && AllShaped(apps) && |run| > 0
    requires |runtimes| == |apps| && run[|run| - 1].rt == runtimes
    ensures |slowdown| == |apps|
    ensures forall a :: 0 <= a < |apps| ==> Reported(apps[a], max, runtimes[a], slowdown[a])
    ensures AllTimed(apps) ==> forall a :: 0 <= a < |apps| ==> NotSpedUp(apps[a], max, runtimes[a], slowdown[a])
    ensures ExactIfAlone(apps, max, runtimes, slowdown)
  {
    hide *;
    slowdown := [];
    for i := 0 to |apps|
      invariant |slowdown| == i
      invariant forall a :: 0 <= a < i ==> Reported(apps[a], max, runtimes[a], slowdown[a])
      invariant AllTimed(apps) ==> forall a :: 0 <= a < i ==> NotSpedUp(apps[a], max, runtimes[a], slowdown[a])
    {
      AppParts(apps, max, i);
      var l := Iterations(max, apps[i].length);
      var whole := Elapsed(l, apps[i].length);
      WholePositive(l, apps[i].length);
      if AllTimed(apps) && apps[i].slow >= 0.0 { NotFaster(apps, max, run, i); }
      PercentIs(runtimes[i], whole);
      ReportedIf(apps[i], max, runtimes[i], Percent(runtimes[i], whole), whole);
      slowdown := slowdown + [Percent(runtimes[i], whole)];
    }
    AloneIs(apps, max, run, runtimes, slowdown);
  }

  lemma NotFaster(apps: seq<App>, max: real, run: seq<State>, a: nat)
    requires IsRun(apps, max, run) && AllTimed(apps) && Complete(run) && a < |apps| && apps[a].slow >= 0.0
    requires Shaped(apps[a]) && |run| > 0 && |run[|run| - 1].rt| == |apps|
    ensures run[|run| - 1].rt[a] >= Elapsed(Loops(max, apps[a]), apps[a].length)
  {
    NoSpeedUp(apps, max, run, a);
    hide IsRun, AllTimed, Complete, Loops, Shaped;
  }
}
