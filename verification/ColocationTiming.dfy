/** The clock of the simulator: it never runs backwards, and no kernel finishes
    earlier than its recorded end, measured from the start of its iteration. */
module ColocationTiming {
  import opened Bags
  import opened KernelTree
  import opened Colocation
  import opened ColocationStructure
  import opened ColocationSchedule

  /** The event is no earlier than the recording: a submitted kernel against its
      start, a running one against its end.  A copy that shares its channel with
      `c` in all still has `c` times the recorded rest ahead of it. */
  predicate NotEarly(n: Node, base: real, now: real, c: int, e: Event) {
    if !e.running then e.time >= base + n.start
    else if e.kind == 1 then e.time >= base + n.End()
    else e.time - now >= c as real * (base + n.End() - now)
  }

  /** What the queue keeps of every event: it lies ahead and is not early.  `c`
      counts the event's channel. */
  predicate EventTimed(app: App, base: real, now: real, c: int, e: Event)
    requires e.kernel < |app.nodes|
  {
    && e.time >= now
    && (app.slow >= 0.0 ==> NotEarly(app.nodes[e.kernel], base, now, c, e))
  }

  ghost predicate QueueTimed(apps: seq<App>, s: State)
    requires Sized(apps, s)
  {
    forall e :: e in s.evtq ==> EventTimed(apps[e.app], s.base[e.app], s.now, s.count[e.kind], e)
  }

  ghost predicate FinishedNotEarly(apps: seq<App>, s: State)
    requires Sized(apps, s)
  {
    forall a, k: nat :: 0 <= a < |apps| && apps[a].slow >= 0.0 && k in s.done[a] && k < |apps[a].nodes| ==>
      s.now >= s.base[a] + apps[a].nodes[k].End()
  }

  /** Iteration by iteration no app is ahead of its recording. */
  ghost predicate BasesNotEarly(apps: seq<App>, max: real, s: State)
    requires Sized(apps, s)
  {
    forall a :: 0 <= a < |apps| && apps[a].slow >= 0.0 ==> IterationNotEarly(apps, max, s, a)
  }

  /** The length of `n` iterations. */
  function Elapsed(n: int, length: real): real { n as real * length }

  lemma ElapsedNext(n: int, length: real)
    ensures Elapsed(0, length) == 0.0 && Elapsed(n + 1, length) == Elapsed(n, length) + length
  {
  }

  ghost predicate IterationNotEarly(apps: seq<App>, max: real, s: State, a: int)
    requires Sized(apps, s) && 0 <= a < |apps|
  {
    s.base[a] >= Elapsed(Loops(max, apps[a]) - s.loop[a], apps[a].length)
  }

  ghost predicate RuntimeNotEarly(apps: seq<App>, max: real, s: State, a: int)
    requires Sized(apps, s) && 0 <= a < |apps|
  {
    apps[a].slow >= 0.0 && s.ac[a] == 0 ==> s.rt[a] >= Elapsed(Loops(max, apps[a]), apps[a].length)
  }

  ghost predicate RuntimesNotEarly(apps: seq<App>, max: real, s: State)
    requires Sized(apps, s)
  {
    forall a :: 0 <= a < |apps| ==> RuntimeNotEarly(apps, max, s, a)
  }

  ghost predicate Timing(apps: seq<App>, max: real, s: State) {
    && Sized(apps, s)
    && QueueTimed(apps, s) && FinishedNotEarly(apps, s)
    && BasesNotEarly(apps, max, s) && RuntimesNotEarly(apps, max, s)
  }

  // ----- one event ----------------------------------------------------------

  /** Time passes, up to the event. */
  lemma NotEarlyAdvance(n: Node, base: real, now: real, later: real, c: int, e: Event)
    requires NotEarly(n, base, now, c, e) && now <= later && (e.running && e.kind != 1 ==> c >= 1)
    ensures NotEarly(n, base, later, c, e)
  {
    if e.running && e.kind != 1 {
      var d := later - now;
      var r := base + n.End() - now;
      assert c as real * (r - d) == c as real * r - c as real * d;
      assert c as real * d >= d;
    }
  }

  lemma ScaleBound(x: real, r: real, num: int, den: int)
    requires den >= 1 && num >= 0 && x >= den as real * r
    ensures x * num as real / den as real >= num as real * r
  {
    var y := x / den as real;
    assert y >= r;
    assert x * num as real / den as real == y * num as real;
    assert y * num as real >= r * num as real;
  }

  lemma ScaleNotNegative(x: real, num: int, den: int)
    requires den >= 1 && num >= 0 && x >= 0.0
    ensures x * num as real / den as real >= 0.0
  {
    ScaleBound(x, 0.0, num, den);
  }

  lemma NotEarlyRescale(n: Node, base: real, now: real, num: int, den: int, e: Event)
    requires den >= 1 && num >= 0 && e.running && e.kind != 1 && NotEarly(n, base, now, den, e)
    ensures NotEarly(n, base, now, num, e.(time := RescaledTime(e.time, now, num, den)))
  {
    ScaleBound(e.time - now, base + n.End() - now, num, den);
  }

  lemma NotEarlyJoin(n: Node, base: real, c: int, e: Event, now: real)
    requires NotEarly(n, base, now, 0, e) && !e.running && e.time == now && e.kind != 1 && e.length == n.length && c >= 1
    ensures NotEarly(n, base, now, c, e.(running := true, time := CopyEnd(now, e.length, c)))
  {
    var r := base + n.End() - now;
    assert r <= e.length;
    assert c as real * r <= c as real * e.length;
  }

  lemma NotEarlyFinish(n: Node, base: real, c: int, e: Event)
    requires e.running && NotEarly(n, base, e.time, c, e) && (e.kind != 1 ==> c >= 1)
    ensures e.time >= base + n.End()
  {
    if e.kind != 1 {
      var r := base + n.End() - e.time;
      assert r == c as real * r / c as real;
    }
  }

  lemma GapStretches(gap: real, slow: real)
    requires gap >= 0.0 && slow >= -1.0
    ensures gap * (1.0 + slow) >= 0.0 && (slow >= 0.0 ==> gap * (1.0 + slow) >= gap)
  {
    assert gap * (1.0 + slow) == gap + gap * slow;
    if slow >= 0.0 { assert gap * slow >= 0.0; }
    else { assert gap * slow >= gap * -1.0; }
  }

  lemma SubmittedTimed(app: App, base: real, now: real, c: int, x: Event, gap: real)
    requires x.kernel < |app.nodes| && !x.running && gap >= 0.0 && app.slow >= -1.0
    requires x.time == now + HostTime(gap, app.slow)
    requires app.slow >= 0.0 ==> now + gap >= base + app.nodes[x.kernel].start
    ensures EventTimed(app, base, now, c, x)
  {
    GapStretches(gap, app.slow);
  }

  lemma ChildGap(app: App, k: nat, i: nat)
    requires Shaped(app) && Timed(app) && k < |app.nodes| && i < |app.nodes[k].next|
    ensures app.nodes[app.nodes[k].next[i]].start >= app.nodes[k].End() && app.slow >= -1.0
  {
    var j := app.nodes[k].next[i];
    assert app.nodes[j].parent == k && 0 < j < |app.nodes|;
  }

  /** The host's part between a kernel and its child. */
  lemma ChildTimed(app: App, a: nat, k: nat, i: nat, now: real, base: real, c: int)
    requires Shaped(app) && Timed(app) && k < |app.nodes| && i < |app.nodes[k].next|
    requires app.slow >= 0.0 ==> now >= base + app.nodes[k].End()
    ensures EventTimed(app, base, now, c, ChildEvent(app, a, k, i, now))
  {
    ChildGap(app, k, i);
    var x := ChildEvent(app, a, k, i, now);
    assert x.kernel < |app.nodes|;
    hide Shaped, Timed, Rooted, EventTimed, HostTime;
    SubmittedTimed(app, base, now, c, x, app.nodes[x.kernel].start - app.nodes[k].End());
  }

  // ----- the queue ----------------------------------------------------------

  lemma EventAdvance(app: App, base: real, now: real, later: real, c: int, e: Event)
    requires e.kernel < |app.nodes| && EventTimed(app, base, now, c, e)
    requires now <= later <= e.time && (e.running ==> c >= 1)
    ensures EventTimed(app, base, later, c, e)
  {
    if app.slow >= 0.0 { NotEarlyAdvance(app.nodes[e.kernel], base, now, later, c, e); }
  }

  lemma AdvanceQueue(apps: seq<App>, s: State, e: Event)
    requires Sized(apps, s) && Counted(apps, s) && QueueTimed(apps, s) && Top(s.evtq, e)
    ensures QueueTimed(apps, s.(now := e.time))
  {
    hide AllShaped, Counted, EventTimed;
    assert s.now <= e.time by { AheadOfClock(apps, s, e); }
    forall x | x in s.evtq ensures EventTimed(apps[x.app], s.base[x.app], e.time, s.count[x.kind], x) {
      if x.running { RunningCounted(apps, s, x); }
      EventAdvance(apps[x.app], s.base[x.app], s.now, e.time, s.count[x.kind], x);
    }
  }

  lemma AheadOfClock(apps: seq<App>, s: State, e: Event)
    requires Sized(apps, s) && QueueTimed(apps, s) && e in s.evtq
    ensures s.now <= e.time
  {
    assert EventTimed(apps[e.app], s.base[e.app], s.now, s.count[e.kind], e);
  }

  /** The record of iterations looks only at these variables. */
  lemma SameRecord(apps: seq<App>, max: real, s: State, r: State)
    requires Timing(apps, max, s) && Sized(apps, r) && QueueTimed(apps, r)
    requires r.base == s.base && r.loop == s.loop && r.rt == s.rt && r.ac == s.ac && r.done == s.done && r.now >= s.now
    ensures Timing(apps, max, r)
  {
    hide Sized, QueueTimed, Loops;
    forall b | 0 <= b < |apps| && apps[b].slow >= 0.0 ensures IterationNotEarly(apps, max, r, b) {
      assert IterationNotEarly(apps, max, s, b);
    }
    forall b | 0 <= b < |apps| ensures RuntimeNotEarly(apps, max, r, b) {
      assert RuntimeNotEarly(apps, max, s, b);
    }
  }

  lemma AdvanceTimed(apps: seq<App>, max: real, s: State, e: Event)
    requires Sized(apps, s) && Counted(apps, s) && Timing(apps, max, s) && Top(s.evtq, e)
    requires Sized(apps, s.(now := e.time))
    ensures Timing(apps, max, s.(now := e.time))
  {
    assert QueueTimed(apps, s) && e in s.evtq;
    hide *;
    AdvanceQueue(apps, s, e);
    AheadOfClock(apps, s, e);
    SameRecord(apps, max, s, s.(now := e.time));
  }

  // ----- one turn -----------------------------------------------------------

  lemma StartedTimed(app: App, base: real, now: real, c: int, c': int, e: Event)
    requires e.kernel < |app.nodes| && EventTimed(app, base, now, c, e)
    requires !e.running && e.kind == 1 && e.time == now && e.length == app.nodes[e.kernel].length && e.length >= 0.0
    ensures EventTimed(app, base, now, c', e.(running := true, time := now + e.length))
  {
  }

  lemma StartKernelQueue(apps: seq<App>, s: State, e: Event)
    requires Sized(apps, s) && Counted(apps, s) && QueueTimed(apps, s) && AllTimed(apps)
    requires e in s.evtq && e.time == s.now && !e.running && e.kind == 1 && s.count[1] == 0
    requires Sized(apps, StartKernel(s, e))
    ensures QueueTimed(apps, StartKernel(s, e))
  {
    LonelyChannel(apps, s, 1);
    assert EventOf(apps, e) && Shaped(apps[e.app]) && Timed(apps[e.app]);
    assert e.length >= 0.0;
    var r := StartKernel(s, e);
    hide Counted, AllShaped, AllTimed, Shaped, Timed, EventTimed;
    forall x | x in r.evtq ensures EventTimed(apps[x.app], r.base[x.app], r.now, r.count[x.kind], x) {
      if x == e.(running := true, time := s.now + e.length) {
        StartedTimed(apps[e.app], s.base[e.app], s.now, s.count[1], r.count[1], e);
      } else {
        assert x in s.evtq;
        if x.kind == 1 { RecountSubmitted(apps[x.app], s.base[x.app], s.now, s.count[1], r.count[1], x); }
      }
    }
  }

  /** A submitted event does not look at the counters. */
  lemma RecountSubmitted(app: App, base: real, now: real, c: int, c': int, x: Event)
    requires x.kernel < |app.nodes| && EventTimed(app, base, now, c, x) && !x.running
    ensures EventTimed(app, base, now, c', x)
  {
  }

  lemma LaterTimed(app: App, base: real, now: real, c: int, x: Event, t: real)
    requires x.kernel < |app.nodes| && EventTimed(app, base, now, c, x) && !x.running && t >= x.time
    ensures EventTimed(app, base, now, c, x.(time := t))
  {
  }

  lemma RetryQueue(apps: seq<App>, s: State, e: Event)
    requires Sized(apps, s) && Counted(apps, s) && QueueTimed(apps, s) && |s.count| == 4 && s.count[1] > 0 && Scheduled(s)
    requires Top(s.evtq, e) && e.time == s.now && !e.running
    requires Sized(apps, Retry(s, e))
    ensures QueueTimed(apps, Retry(s, e))
  {
    RetryGoesPast(apps, s, e);
    var r := Retry(s, e);
    hide AllShaped, Counted, Scheduled, RetryTime, EventTimed;
    LaterTimed(apps[e.app], s.base[e.app], s.now, s.count[e.kind], e, RetryTime(e, s.now, s.kSch));
  }

  // copies

  lemma JoinedTimed(app: App, base: real, now: real, c: int, c': int, e: Event)
    requires e.kernel < |app.nodes| && EventTimed(app, base, now, c, e) && c' >= 1
    requires !e.running && e.kind != 1 && e.time == now && e.length == app.nodes[e.kernel].length && e.length >= 0.0
    ensures EventTimed(app, base, now, c', e.(running := true, time := CopyEnd(now, e.length, c')))
  {
    assert e.length * c' as real >= 0.0;
    if app.slow >= 0.0 { NotEarlyJoin(app.nodes[e.kernel], base, c', e, now); }
  }

  lemma RescaledTimed(app: App, base: real, now: real, num: int, den: int, e: Event)
    requires e.kernel < |app.nodes| && EventTimed(app, base, now, den, e) && den >= 1 && num >= 1
    requires e.kind != 1
    ensures EventTimed(app, base, now, num, Rescale(e.kind, now, num, den)(e))
  {
    if e.running {
      ScaleNotNegative(e.time - now, num, den);
      if app.slow >= 0.0 { NotEarlyRescale(app.nodes[e.kernel], base, now, num, den, e); }
    }
  }

  lemma TimedAt(apps: seq<App>, s: State, x: Event)
    requires Sized(apps, s) && QueueTimed(apps, s) && x in s.evtq
    ensures |s.base| == |apps| && |s.count| == 4 && 1 <= x.kind <= 3
    ensures EventOf(apps, x) && x.app < |apps| && x.kernel < |apps[x.app].nodes|
    ensures EventTimed(apps[x.app], s.base[x.app], s.now, s.count[x.kind], x)
  {
    EventInRange(apps, s, x);
    hide AllShaped, EventTimed;
  }

  /** What `QueueTimed` asks of one event. */
  ghost predicate TimedIn(apps: seq<App>, s: State, x: Event) {
    && x.app < |apps| == |s.base| && x.kernel < |apps[x.app].nodes| && 1 <= x.kind <= 3 && |s.count| == 4
    && EventTimed(apps[x.app], s.base[x.app], s.now, s.count[x.kind], x)
  }

  lemma AllTimedIn(apps: seq<App>, s: State)
    requires Sized(apps, s) && forall x :: x in s.evtq ==> TimedIn(apps, s, x)
    ensures QueueTimed(apps, s)
  {
    hide Sized, EventTimed;
    forall x | x in s.evtq ensures EventTimed(apps[x.app], s.base[x.app], s.now, s.count[x.kind], x) {
      assert TimedIn(apps, s, x);
    }
  }

  /** Rescaling a whole channel from `den` sharers to `num`. */
  lemma ChannelRescaled(apps: seq<App>, s: State, q: multiset<Event>, kind: int, num: int, den: int, y: Event)
    requires Sized(apps, s) && QueueTimed(apps, s) && q <= s.evtq && 2 <= kind <= 3
    requires |s.count| == 4 && s.count[kind] == den >= 1 && num >= 1
    requires y in Image(Rescale(kind, s.now, num, den), q)
    ensures TimedIn(apps, s.(count := s.count[kind := num]), y)
  {
    var f := Rescale(kind, s.now, num, den);
    ImageMember(f, q, y);
    hide *;
    var x :| x in q && f(x) == y;
    TimedAt(apps, s, x);
    RescaleIs(x, kind, s.now, num, den);
    if x.kind == kind {
      RescaledTimed(apps[x.app], s.base[x.app], s.now, num, den, x);
    }
    InChannel(apps, s.(count := s.count[kind := num]), y);
  }

  lemma InChannel(apps: seq<App>, s: State, y: Event)
    requires y.app < |apps| == |s.base| && y.kernel < |apps[y.app].nodes| && 1 <= y.kind <= 3 && |s.count| == 4
    requires EventTimed(apps[y.app], s.base[y.app], s.now, s.count[y.kind], y)
    ensures TimedIn(apps, s, y)
  {
  }

  /** An event that the joining copy leaves where it is. */
  lemma StaysTimed(apps: seq<App>, s: State, x: Event, kind: int, c: int)
    requires Sized(apps, s) && QueueTimed(apps, s) && x in s.evtq && 1 <= kind <= 3 && |s.count| == 4
    requires x.kind == kind ==> !x.running
    ensures TimedIn(apps, s.(count := s.count[kind := c]), x)
  {
    hide *;
    TimedAt(apps, s, x);
    if x.kind == kind {
      RecountSubmitted(apps[x.app], s.base[x.app], s.now, s.count[x.kind], c, x);
    }
    InChannel(apps, s.(count := s.count[kind := c]), x);
  }

  lemma JoinerTimed(apps: seq<App>, s: State, e: Event, c: int, run: Event)
    requires Sized(apps, s) && QueueTimed(apps, s) && AllShaped(apps) && AllTimed(apps)
    requires e in s.evtq && e.time == s.now && !e.running && e.kind != 1 && c >= 1 && |s.count| == 4 && 1 <= e.kind <= 3
    requires run == e.(running := true, time := CopyEnd(s.now, e.length, c))
    ensures TimedIn(apps, s.(count := s.count[e.kind := c]), run)
  {
    assert EventOf(apps, e) && Shaped(apps[e.app]) && Timed(apps[e.app]);
    assert e.length == apps[e.app].nodes[e.kernel].length >= 0.0;
    hide *;
    TimedAt(apps, s, e);
    JoinedTimed(apps[e.app], s.base[e.app], s.now, s.count[e.kind], c, e);
    InChannel(apps, s.(count := s.count[e.kind := c]), run);
  }

  lemma SameTimedIn(apps: seq<App>, s: State, r: State, x: Event)
    requires TimedIn(apps, s, x) && r.base == s.base && r.now == s.now && r.kSch == s.kSch && r.count == s.count
    ensures TimedIn(apps, r, x)
  {
    hide EventTimed;
  }

  lemma StartCopyQueue(apps: seq<App>, s: State, e: Event)
    requires Sized(apps, s) && Counted(apps, s) && QueueTimed(apps, s) && AllShaped(apps) && AllTimed(apps)
    requires e in s.evtq && e.time == s.now && !e.running && 2 <= e.kind <= 3 && |s.count| == 4 && s.count[e.kind] >= 0
    requires Sized(apps, StartCopy(s, e))
    ensures QueueTimed(apps, StartCopy(s, e))
  {
    hide *;
    var c := s.count[e.kind] + 1;
    var run := e.(running := true, time := CopyEnd(s.now, e.length, c));
    var r := StartCopy(s, e);
    StartCopyForm(s, e, c, run);
    LonelyChannel(apps, s, e.kind);
    JoinerTimed(apps, s, e, c, run);
    var s1 := s.(count := s.count[e.kind := c]);
    forall x | x in r.evtq ensures TimedIn(apps, r, x) {
      if x != run {
        if c > 1 {
          ChannelRescaled(apps, s, s.evtq - multiset{e}, e.kind, c, c - 1, x);
        } else {
          StaysTimed(apps, s, x, e.kind, c);
        }
      }
      SameTimedIn(apps, s1, r, x);
    }
    AllTimedIn(apps, r);
  }

  // finishing

  lemma {:induction false} ChildrenTimed(apps: seq<App>, a: nat, k: nat, now: real, base: real, c: int, x: Event)
    requires a < |apps| && Shaped(apps[a]) && Timed(apps[a]) && k < |apps[a].nodes|
    requires x in Children(apps[a], a, k, now, |apps[a].nodes[k].next|)
    requires apps[a].slow >= 0.0 ==> now >= base + apps[a].nodes[k].End()
    ensures x.app == a && x.kernel < |apps[a].nodes| && EventTimed(apps[a], base, now, c, x)
  {
    var n := |apps[a].nodes[k].next|;
    ChildrenMember(apps[a], a, k, now, n, x);
    var i: nat :| i < n && x == ChildEvent(apps[a], a, k, i, now);
    ChildTimed(apps[a], a, k, i, now, base, c);
  }

  lemma FinishOnTime(apps: seq<App>, s: State, e: Event)
    requires Sized(apps, s) && Counted(apps, s) && QueueTimed(apps, s) && e in s.evtq && e.time == s.now && e.running
    ensures apps[e.app].slow >= 0.0 ==> s.now >= s.base[e.app] + apps[e.app].nodes[e.kernel].End()
  {
    RunningCounted(apps, s, e);
    hide AllShaped, Counted;
    assert EventTimed(apps[e.app], s.base[e.app], s.now, s.count[e.kind], e);
    if apps[e.app].slow >= 0.0 {
      NotEarlyFinish(apps[e.app].nodes[e.kernel], s.base[e.app], s.count[e.kind], e);
    }
  }

  /** The released queue, before the counters are looked at again. */
  ghost function Recalled(s: State, r: State): State {
    r.(count := s.count, kSch := s.kSch)
  }

  lemma ReleaseQueue(apps: seq<App>, s: State, e: Event)
    requires Sized(apps, s) && Counted(apps, s) && QueueTimed(apps, s) && AllTimed(apps)
    requires e in s.evtq && e.time == s.now && e.running
    requires Sized(apps, Recalled(s, Release(apps, s, e)))
    ensures QueueTimed(apps, Recalled(s, Release(apps, s, e)))
  {
    FinishOnTime(apps, s, e);
    assert EventOf(apps, e) && Shaped(apps[e.app]) && Timed(apps[e.app]);
    var r := Recalled(s, Release(apps, s, e));
    hide AllShaped, Counted, EventTimed, Children, Shaped, Timed;
    forall x | x in r.evtq ensures EventTimed(apps[x.app], r.base[x.app], r.now, r.count[x.kind], x) {
      if x !in s.evtq {
        ChildrenTimed(apps, e.app, e.kernel, s.now, s.base[e.app], s.count[x.kind], x);
      }
    }
  }

  /** Copies are left: they speed up, from `c + 1` sharers to `c`. */
  lemma SpeedUpShared(apps: seq<App>, s: State, u: State, kind: int, c: int)
    requires Sized(apps, s) && QueueTimed(apps, s) && 2 <= kind <= 3 && |s.count| == 4 && s.count[kind] == c + 1 && c >= 1
    requires u == s.(count := s.count[kind := c], evtq := Image(Rescale(kind, s.now, c, c + 1), s.evtq))
    requires Sized(apps, u)
    ensures QueueTimed(apps, u)
  {
    hide *;
    forall x | x in u.evtq ensures TimedIn(apps, u, x) {
      ChannelRescaled(apps, s, s.evtq, kind, c, c + 1, x);
      SameTimedIn(apps, s.(count := s.count[kind := c]), u, x);
    }
    AllTimedIn(apps, u);
  }

  /** Nothing is left running: submitted events do not look at the counters. */
  lemma SpeedUpIdle(apps: seq<App>, s: State, r: State, kind: int)
    requires Sized(apps, s) && QueueTimed(apps, s) && 1 <= kind <= 3
    requires r == s.(count := s.count[kind := 0], kSch := r.kSch) && (kind != 1 ==> r.kSch == s.kSch)
    requires Sized(apps, r) && forall x :: x in s.evtq && x.kind == kind ==> !x.running
    ensures QueueTimed(apps, r)
  {
    hide AllShaped, EventTimed;
    forall x | x in r.evtq ensures EventTimed(apps[x.app], r.base[x.app], r.now, r.count[x.kind], x) {
      if x.kind == kind {
        RecountSubmitted(apps[x.app], s.base[x.app], s.now, s.count[kind], 0, x);
      }
    }
  }

  lemma RestoreCounts(apps: seq<App>, s: State, e: Event, r: State)
    requires Sized(apps, s) && Counted(apps, s) && e in s.evtq && r == Release(apps, s, e)
    ensures 1 <= e.kind <= 3 && |s.count| == 4 && (e.kind == 1 ==> s.count[1] <= 1)
    ensures r == Recalled(s, r).(count := s.count[e.kind := s.count[e.kind] - 1], kSch := r.kSch)
    ensures Recalled(s, r).count == s.count && Recalled(s, r).evtq == r.evtq && Recalled(s, r).kSch == s.kSch
    ensures e.kind != 1 ==> r.kSch == s.kSch
    ensures Sized(apps, Recalled(s, r)) == Sized(apps, r)
  {
    hide AllShaped, Children, Count;
  }

  lemma FinishQueue(apps: seq<App>, s: State, e: Event, r: State, u: State)
    requires Sized(apps, s) && Counted(apps, s) && QueueTimed(apps, s) && AllShaped(apps) && AllTimed(apps)
    requires e in s.evtq && e.time == s.now && e.running
    requires r == Release(apps, s, e) && Sized(apps, r) && Counted(apps, r)
    requires |r.count| == 4 && 1 <= e.kind <= 3
    requires u == SpeedUp(r, e.kind) && Sized(apps, u)
    ensures QueueTimed(apps, u)
  {
    hide *;
    RestoreCounts(apps, s, e, r);
    ReleaseQueue(apps, s, e);
    RunningCounted(apps, s, e);
    LonelyChannel(apps, r, e.kind);
    var r0 := Recalled(s, r);
    var c := r.count[e.kind];
    assert c == s.count[e.kind] - 1;
    SpeedUpForm(r, e.kind, c);
    if c >= 1 {
      SpeedUpShared(apps, r0, u, e.kind, c);
    } else {
      SpeedUpIdle(apps, r0, r, e.kind);
    }
  }

  // the iterations

  lemma ReleaseFinished(apps: seq<App>, s: State, e: Event)
    requires Sized(apps, s) && Counted(apps, s) && QueueTimed(apps, s) && FinishedNotEarly(apps, s)
    requires e in s.evtq && e.time == s.now && e.running && Sized(apps, Release(apps, s, e))
    ensures FinishedNotEarly(apps, Release(apps, s, e))
  {
    FinishOnTime(apps, s, e);
    hide AllShaped, Counted, QueueTimed, Children;
  }

  lemma LastIsDone(apps: seq<App>, s: State, a: nat)
    requires Sized(apps, s) && FinishedNotEarly(apps, s) && AllTimed(apps) && a < |apps| && apps[a].slow >= 0.0
    requires forall k :: 0 <= k < |apps[a].nodes| ==> k in s.done[a]
    ensures s.now >= s.base[a] + apps[a].length
  {
    assert Shaped(apps[a]) && Timed(apps[a]);
    var last := |apps[a].nodes| - 1;
    assert last in s.done[a];
    hide AllShaped, AllTimed, EventOf;
  }

  /** An iteration that is over lasted at least as long as it was recorded. */
  lemma IterationLasted(apps: seq<App>, max: real, s: State, a: nat)
    requires Structural(apps, max, s) && Sized(apps, s) && AllShaped(apps) && FinishedNotEarly(apps, s) && AllTimed(apps)
    requires a < |apps| && Shaped(apps[a]) && |s.ac| == |s.base| == |s.loop| == |s.done| == |apps|
    requires s.ac[a] == 0 && apps[a].slow >= 0.0
    requires s.base[a] >= Elapsed(Loops(max, apps[a]) - s.loop[a], apps[a].length)
    ensures s.now >= s.base[a] + apps[a].length
    ensures s.now >= Elapsed(Loops(max, apps[a]) - s.loop[a] + 1, apps[a].length)
  {
    hide *;
    IterationOver(apps, max, s, a);
    LastIsDone(apps, s, a);
    ElapsedNext(Loops(max, apps[a]) - s.loop[a], apps[a].length);
  }

  lemma RenewQueue(apps: seq<App>, max: real, s: State, a: nat)
    requires Structural(apps, max, s) && QueueTimed(apps, s) && AllTimed(apps) && a < |apps|
    requires Sized(apps, Renew(apps, s, a))
    ensures QueueTimed(apps, Renew(apps, s, a))
  {
    var r := Renew(apps, s, a);
    if s.ac[a] == 0 && s.loop[a] > 1 {
      assert Shaped(apps[a]) && Timed(apps[a]);
      var e := Submit(a, 0, Head(apps[a]), Head(apps[a]).start + s.now);
      assert EventTimed(apps[a], s.now, s.now, r.count[e.kind], e);
      CountZero(Of(a), s.evtq);
      assert forall x :: x in s.evtq ==> x.app != a by {
        forall x | x in s.evtq ensures x.app != a { assert !Of(a)(x); }
      }
      hide Structural, AllTimed, AllShaped, Shaped, Timed, EventTimed;
    } else {
      hide Structural, AllTimed, AllShaped, EventTimed;
    }
  }

  lemma RenewFinished(apps: seq<App>, s: State, a: nat)
    requires Sized(apps, s) && FinishedNotEarly(apps, s) && a < |apps| && Sized(apps, Renew(apps, s, a))
    ensures FinishedNotEarly(apps, Renew(apps, s, a))
  {
    hide AllShaped, EventOf;
  }

  lemma RenewOthers(apps: seq<App>, max: real, s: State, a: nat)
    requires Sized(apps, s) && a < |apps| && Sized(apps, Renew(apps, s, a))
    ensures forall b :: 0 <= b < |apps| && b != a ==>
      && IterationNotEarly(apps, max, Renew(apps, s, a), b) == IterationNotEarly(apps, max, s, b)
      && RuntimeNotEarly(apps, max, Renew(apps, s, a), b) == RuntimeNotEarly(apps, max, s, b)
  {
    hide AllShaped, EventOf, Loops;
  }

  lemma RenewSelf(apps: seq<App>, max: real, s: State, a: nat, r: State)
    requires Structural(apps, max, s) && FinishedNotEarly(apps, s) && AllShaped(apps) && AllTimed(apps)
    requires Sized(apps, s) && a < |apps| && apps[a].slow >= 0.0 && r == Renew(apps, s, a) && Sized(apps, r)
    requires IterationNotEarly(apps, max, s, a) && 1 <= s.loop[a]
    ensures IterationNotEarly(apps, max, r, a) && RuntimeNotEarly(apps, max, r, a)
  {
    ShapedAt(apps, a);
    hide Structural, FinishedNotEarly, AllShaped, AllTimed, Renew, Loops, Elapsed;
    RenewForm(apps, s, a, r);
    if s.ac[a] == 0 { IterationLasted(apps, max, s, a); }
  }

  lemma RenewTimed(apps: seq<App>, max: real, s: State, a: nat, r: State)
    requires Structural(apps, max, s) && Sized(apps, s) && AllShaped(apps) && AllTimed(apps)
    requires QueueTimed(apps, s) && FinishedNotEarly(apps, s) && BasesNotEarly(apps, max, s)
    requires a < |apps| && r == Renew(apps, s, a) && Sized(apps, r) && 1 <= s.loop[a]
    requires forall b :: 0 <= b < |apps| && b != a ==> RuntimeNotEarly(apps, max, s, b)
    ensures Timing(apps, max, r)
  {
    hide Structural, Sized, QueueTimed, FinishedNotEarly, AllShaped, AllTimed, Renew, RuntimeNotEarly, IterationNotEarly;
    RenewQueue(apps, max, s, a);
    RenewFinished(apps, s, a);
    RenewOthers(apps, max, s, a);
    if apps[a].slow >= 0.0 { RenewSelf(apps, max, s, a, r); }
    else { RuntimeIfSlow(apps, max, r, a); }
  }

  lemma RuntimeIfSlow(apps: seq<App>, max: real, s: State, a: nat)
    requires Sized(apps, s) && a < |apps| && apps[a].slow < 0.0
    ensures RuntimeNotEarly(apps, max, s, a)
  {
  }

  lemma SameIterations(apps: seq<App>, max: real, s: State, u: State)
    requires Sized(apps, s) && Sized(apps, u) && u.base == s.base && u.loop == s.loop && BasesNotEarly(apps, max, s)
    ensures BasesNotEarly(apps, max, u)
  {
    hide Loops, EventOf, Shaped;
    forall b | 0 <= b < |apps| && apps[b].slow >= 0.0 ensures IterationNotEarly(apps, max, u, b) {
      assert IterationNotEarly(apps, max, s, b);
    }
  }

  lemma SameRuntimes(apps: seq<App>, max: real, s: State, u: State, a: nat)
    requires Sized(apps, s) && Sized(apps, u) && u.rt == s.rt && RuntimesNotEarly(apps, max, s)
    requires |u.ac| == |s.ac| && forall b :: 0 <= b < |s.ac| && b != a ==> u.ac[b] == s.ac[b]
    ensures forall b :: 0 <= b < |apps| && b != a ==> RuntimeNotEarly(apps, max, u, b)
  {
    hide Loops, EventOf, Shaped;
    forall b | 0 <= b < |apps| && b != a ensures RuntimeNotEarly(apps, max, u, b) {
      assert RuntimeNotEarly(apps, max, s, b);
    }
  }

  lemma SameFinished(apps: seq<App>, r: State, u: State)
    requires Sized(apps, r) && Sized(apps, u) && FinishedNotEarly(apps, r)
    requires u.base == r.base && u.done == r.done && u.now == r.now
    ensures FinishedNotEarly(apps, u)
  {
    hide EventOf, Shaped;
  }

  /** Releasing and speeding up leave the record of iterations alone. */
  lemma FinishRecord(apps: seq<App>, max: real, s: State, e: Event, r: State, u: State)
    requires Sized(apps, s) && e in s.evtq && r == Release(apps, s, e) && Sized(apps, r) && 1 <= e.kind <= 3
    requires |r.count| == 4 && u == SpeedUp(r, e.kind) && Sized(apps, u)
    requires BasesNotEarly(apps, max, s) && RuntimesNotEarly(apps, max, s) && FinishedNotEarly(apps, r)
    ensures BasesNotEarly(apps, max, u) && FinishedNotEarly(apps, u)
    ensures forall b :: 0 <= b < |apps| && b != e.app ==> RuntimeNotEarly(apps, max, u, b)
  {
    hide *;
    FinishForm(apps, s, e, r, u);
    SameIterations(apps, max, s, u);
    SameRuntimes(apps, max, s, u, e.app);
    SameFinished(apps, r, u);
  }

  /** The parts of the two invariants. */
  lemma Parts(apps: seq<App>, max: real, s: State)
    requires Structural(apps, max, s) && Timing(apps, max, s)
    ensures Steppable(apps, s) && Counted(apps, s) && AllShaped(apps) && |s.count| == 4
    ensures forall e :: e in s.evtq ==> EventOf(apps, e) && 1 <= e.kind <= 3 && s.loop[e.app] >= 1 && s.count[e.kind] >= 0
    ensures QueueTimed(apps, s) && FinishedNotEarly(apps, s) && BasesNotEarly(apps, max, s)
    ensures Sized(apps, s) && RuntimesNotEarly(apps, max, s)
  {
    hide AllShaped, QueueExact, QueueTimed, FinishedNotEarly, BasesNotEarly, RuntimesNotEarly, Loops;
  }

  lemma FinishTimed(apps: seq<App>, max: real, s: State, e: Event, v: State)
    requires Structural(apps, max, s) && Settled(s) && Timing(apps, max, s) && AllShaped(apps) && AllTimed(apps)
    requires e in s.evtq && e.time == s.now && e.running
    requires v == Finish(apps, s, e)
    ensures Timing(apps, max, v)
  {
    hide *;
    Parts(apps, max, s);
    var r := Release(apps, s, e);
    ReleaseKeeps(apps, max, s, e);
    SizedParts(apps, max, r);
    var u := SpeedUp(r, e.kind);
    SpeedUpKeeps(apps, max, r, e.kind);
    SizedParts(apps, max, u);
    assert EventOf(apps, e);
    EventInRange(apps, s, e);
    RenewKeeps(apps, max, u, e.app);
    FinishIs(apps, s, e, r, u, v);
    SizedParts(apps, max, v);
    FinishQueue(apps, s, e, r, u);
    ReleaseFinished(apps, s, e);
    FinishRecord(apps, max, s, e, r, u);
    RenewTimed(apps, max, u, e.app, v);
  }

  /** One turn of the loop keeps the clock and everything measured by it. */
  lemma TimingNext(apps: seq<App>, max: real, s: State, e: Event)
    requires Structural(apps, max, s) && Settled(s) && Timing(apps, max, s) && AllShaped(apps) && AllTimed(apps)
    requires Scheduled(s) && Top(s.evtq, e)
    ensures Timing(apps, max, Next(apps, s, e)) && Next(apps, s, e).now == e.time >= s.now
  {
    hide Structural, Settled, Scheduled, Timing, AllShaped, AllTimed, Steppable, Counted, QueueTimed, Image, Rescale,
      Finish, StartCopy, StartKernel, Retry;
    Parts(apps, max, s);
    AheadOfClock(apps, s, e);
    var s0 := s.(now := e.time);
    Ticked(apps, max, s, e.time);
    TickScheduled(s, e.time);
    AdvanceTimed(apps, max, s, e);
    StructuralNext(apps, max, s, e);
    var r := Next(apps, s, e);
    SizedParts(apps, max, r);
    Parts(apps, max, s0);
    if e.running { FinishTimed(apps, max, s0, e, r); FinishClock(apps, s0, e); }
    else {
      if e.kind != 1 { StartCopyQueue(apps, s0, e); }
      else if s.count[1] == 0 { StartKernelQueue(apps, s0, e); }
      else { RetryQueue(apps, s0, e); }
      StartRecord(apps, s0, e, r);
      SameRecord(apps, max, s0, r);
    }
  }

  lemma HeadTimed(app: App, a: nat, c: int)
    requires Shaped(app) && Timed(app)
    ensures EventTimed(app, 0.0, 0.0, c, Submit(a, 0, Head(app), Head(app).start))
  {
  }

  lemma NothingFinished(apps: seq<App>, s: State)
    requires Sized(apps, s) && forall a :: 0 <= a < |apps| ==> s.done[a] == {}
    ensures FinishedNotEarly(apps, s)
  {
    hide AllShaped, EventOf;
  }

  lemma FirstIteration(apps: seq<App>, max: real, s: State, a: nat)
    requires Sized(apps, s) && a < |apps| && s.base[a] == 0.0 && s.ac[a] == 1
    requires Shaped(apps[a]) && s.loop[a] == Loops(max, apps[a])
    ensures IterationNotEarly(apps, max, s, a) && RuntimeNotEarly(apps, max, s, a)
  {
    ElapsedNext(0, apps[a].length);
    hide AllShaped, EventOf, Loops, Rooted, Elapsed;
  }

  lemma NobodyEarly(apps: seq<App>, max: real, s: State)
    requires Sized(apps, s)
    requires forall a :: 0 <= a < |apps| ==> IterationNotEarly(apps, max, s, a) && RuntimeNotEarly(apps, max, s, a)
    ensures BasesNotEarly(apps, max, s) && RuntimesNotEarly(apps, max, s)
  {
    hide Sized, IterationNotEarly, RuntimeNotEarly;
  }

  lemma InitRecord(apps: seq<App>, max: real, rt: seq<real>, s: State)
    requires AllShaped(apps) && |rt| == |apps| && s == Init(apps, max, rt) && Sized(apps, s)
    ensures s.now == 0.0 && s.evtq == Heads(apps, |apps|)
    ensures |s.base| == |apps| && forall a :: 0 <= a < |apps| ==> s.base[a] == 0.0
    ensures FinishedNotEarly(apps, s) && BasesNotEarly(apps, max, s) && RuntimesNotEarly(apps, max, s)
  {
    hide *;
    InitParts(apps, max, rt, s);
    NothingFinished(apps, s);
    forall a: nat | a < |apps| ensures IterationNotEarly(apps, max, s, a) && RuntimeNotEarly(apps, max, s, a) {
      assert Shaped(apps[a]) by { ShapedAt(apps, a); }
      FirstIteration(apps, max, s, a);
    }
    NobodyEarly(apps, max, s);
  }

  lemma HeadsTimed(apps: seq<App>, s: State)
    requires AllShaped(apps) && AllTimed(apps) && Sized(apps, s)
    requires s.now == 0.0 && s.evtq == Heads(apps, |apps|) && forall a :: 0 <= a < |apps| ==> s.base[a] == 0.0
    ensures QueueTimed(apps, s)
  {
    hide Shaped, EventTimed, Heads;
    forall x | x in s.evtq ensures EventTimed(apps[x.app], s.base[x.app], s.now, s.count[x.kind], x) {
      HeadsMember(apps, |apps|, x);
      assert Timed(apps[x.app]);
      HeadTimed(apps[x.app], x.app, s.count[x.kind]);
    }
  }

  lemma TimingInit(apps: seq<App>, max: real, rt: seq<real>)
    requires AllShaped(apps) && AllTimed(apps) && |rt| == |apps|
    ensures Timing(apps, max, Init(apps, max, rt))
  {
    var s := Init(apps, max, rt);
    StructuralInit(apps, max, rt);
    SizedParts(apps, max, s);
    hide Structural, Init, Sized, QueueTimed, FinishedNotEarly, BasesNotEarly, RuntimesNotEarly, AllShaped, AllTimed;
    InitRecord(apps, max, rt, s);
    HeadsTimed(apps, s);
  }
}
