/** The finish times that the simulator keeps rescaling refine an ideal shared
    channel, on which each of `n` copies progresses at rate 1/n. */
module ProcessorSharing {
  import opened Bags
  import opened Colocation
  import opened ColocationStructure
  import opened ColocationTiming
  import opened ColocationRuns
  import opened ColocationTheorems

  // ----- the ideal channel --------------------------------------------------

  /** A copy on the channel and how much of it, alone, would still be to do. */
  datatype Job = Job(app: nat, kernel: nat, rest: real)

  function Served(share: real): Job -> Job {
    (j: Job) => j.(rest := j.rest - share)
  }

  /** Time `d` passes: everybody gets an equal share of it. */
  ghost function Serve(channel: multiset<Job>, d: real): multiset<Job> {
    if channel == multiset{} then channel else Image(Served(d / |channel| as real), channel)
  }

  ghost function TotalRest(channel: multiset<Job>): real
    decreases |channel|
  {
    if channel == multiset{} then 0.0
    else
      var j :| j in channel;
      j.rest + TotalRest(channel - multiset{j})
  }

  lemma {:induction false} TotalRestPick(m: multiset<Job>, y: Job)
    requires y in m
    ensures TotalRest(m) == y.rest + TotalRest(m - multiset{y})
    decreases |m|
  {
    var x :| x in m && TotalRest(m) == x.rest + TotalRest(m - multiset{x});
    hide *;
    if x != y {
      RemoveSwap(m, x, y);
      TotalRestPick(m - multiset{x}, y);
      TotalRestPick(m - multiset{y}, x);
    }
  }

  lemma ImageRest(f: Job -> Job, m: multiset<Job>, y: Job)
    requires y in m
    ensures TotalRest(Image(f, m)) == f(y).rest + TotalRest(Image(f, m - multiset{y}))
  {
    hide *;
    ImagePick(f, m, y);
    TotalRestPick(Image(f, m), f(y));
    assert Image(f, m) - multiset{f(y)} == Image(f, m - multiset{y});
  }

  lemma {:induction false} ServedRest(m: multiset<Job>, share: real)
    ensures TotalRest(Image(Served(share), m)) == TotalRest(m) - Elapsed(|m|, share)
    decreases |m|
  {
    if m == multiset{} {
      ElapsedNext(0, share);
    } else {
      var y :| y in m;
      var less := m - multiset{y};
      assert Served(share)(y).rest == y.rest - share && |m| == |less| + 1;
      ServedRest(less, share);
      ElapsedNext(|less|, share);
      hide *;
      ImageRest(Served(share), m, y);
      TotalRestPick(m, y);
    }
  }

  lemma DivideMultiply(n: nat, d: real)
    requires n > 0
    ensures n as real * (d / n as real) == d
  {
  }

  /** A busy channel works at rate exactly 1, whoever is on it. */
  lemma ServeConservesRate(channel: multiset<Job>, d: real)
    requires channel != multiset{}
    ensures TotalRest(Serve(channel, d)) == TotalRest(channel) - d
  {
    hide TotalRest, Image, Served;
    assert |channel| > 0;
    ServedRest(channel, d / |channel| as real);
    DivideMultiply(|channel|, d);
  }

  // ----- the simulator's channel --------------------------------------------

  /** What a copy that shares its channel with `c` in all has left, alone. */
  function Rest(time: real, now: real, c: int): real {
    if c == 0 then 0.0 else (time - now) / c as real
  }

  function JobOf(now: real, c: int): Event -> Job {
    (e: Event) => Job(e.app, e.kernel, Rest(e.time, now, c))
  }

  ghost function Channel(s: State, t: int): multiset<Job>
    requires |s.count| == 4 && 1 <= t <= 3
  {
    Image(JobOf(s.now, s.count[t]), Filter(RunningOf(t), s.evtq))
  }

  /** What the turn that handles `e` does to the ideal channel `t`: time passes,
      then the copy joins, leaves, or concerns another channel. */
  ghost function IdealTurn(channel: multiset<Job>, e: Event, t: int, elapsed: real): multiset<Job> {
    var served := Serve(channel, elapsed);
    if e.kind != t then served
    else if e.running then served - multiset{Job(e.app, e.kernel, 0.0)}
    else served + multiset{Job(e.app, e.kernel, e.length)}
  }

  // arithmetic

  lemma RestServed(time: real, now: real, later: real, c: int)
    requires c >= 1
    ensures Rest(time, now, c) - (later - now) / c as real == Rest(time, later, c)
  {
  }

  lemma DivideTwice(x: real, num: int, den: int)
    requires num >= 1 && den >= 1
    ensures x * num as real / den as real / num as real == x / den as real
  {
    var y := x / den as real;
    assert x * num as real / den as real == y * num as real;
    assert y * num as real / num as real == y;
  }

  lemma RestRescaled(time: real, now: real, num: int, den: int)
    requires num >= 1 && den >= 1
    ensures Rest(RescaledTime(time, now, num, den), now, num) == Rest(time, now, den)
  {
    var x := time - now;
    assert RescaledTime(time, now, num, den) - now == x * num as real / den as real;
    DivideTwice(x, num, den);
  }

  lemma RestJoined(now: real, length: real, c: int)
    requires c >= 1
    ensures Rest(CopyEnd(now, length, c), now, c) == length
  {
    assert length * c as real / c as real == length;
  }

  /** Rescaling keeps the order in which copies will finish, and finishes none
      of them before now. */
  lemma RescaleKeepsOrder(x: real, y: real, now: real, num: int, den: int)
    requires num >= 1 && den >= 1
    ensures x <= y <==> RescaledTime(x, now, num, den) <= RescaledTime(y, now, num, den)
    ensures x >= now <==> RescaledTime(x, now, num, den) >= now
  {
    var k := num as real / den as real;
    assert k > 0.0;
    assert (x - now) * num as real / den as real == (x - now) * k;
    assert (y - now) * num as real / den as real == (y - now) * k;
    Scale(x - now, y - now, k);
    Scale(0.0, x - now, k);
  }

  lemma Scale(x: real, y: real, k: real)
    requires k > 0.0
    ensures x <= y <==> x * k <= y * k
  {
    if x <= y { assert (y - x) * k >= 0.0; } else { assert (x - y) * k > 0.0; }
  }

  // one turn, seen from the channel

  lemma ChannelSize(apps: seq<App>, s: State, t: int)
    requires Sized(apps, s) && Counted(apps, s) && 1 <= t <= 3
    ensures |Filter(RunningOf(t), s.evtq)| == |Channel(s, t)| == s.count[t]
  {
    FilterSize(RunningOf(t), s.evtq);
    ImageSize(JobOf(s.now, s.count[t]), Filter(RunningOf(t), s.evtq));
  }

  lemma JobServed(x: Event, now: real, later: real, c: int)
    requires c >= 1
    ensures Served((later - now) / c as real)(JobOf(now, c)(x)) == JobOf(later, c)(x)
  {
    RestServed(x.time, now, later, c);
    hide Rest;
  }

  lemma ServeBusy(channel: multiset<Job>, d: real, c: int)
    requires |channel| == c >= 1
    ensures Serve(channel, d) == Image(Served(d / c as real), channel)
  {
    assert channel != multiset{};
    hide Image, Served;
  }

  lemma ServeIdle(channel: multiset<Job>, d: real)
    requires |channel| == 0
    ensures channel == multiset{} && Serve(channel, d) == multiset{}
  {
    assert channel == multiset{};
  }

  /** Time passing on the ideal channel is the clock moving on the simulator's. */
  lemma AdvanceServes(apps: seq<App>, s: State, t: int, later: real)
    requires Sized(apps, s) && Counted(apps, s) && 1 <= t <= 3 && |s.count| == 4
    ensures Serve(Channel(s, t), later - s.now) == Channel(s.(now := later), t)
  {
    hide *;
    ChannelSize(apps, s, t);
    var c := s.count[t];
    var f := Filter(RunningOf(t), s.evtq);
    ChannelIs(s, t);
    ChannelIs(s.(now := later), t);
    ImageSize(JobOf(later, c), f);
    if c == 0 {
      ServeIdle(Channel(s, t), later - s.now);
      ServeIdle(Image(JobOf(later, c), f), 0.0);
    } else {
      var share := (later - s.now) / c as real;
      forall x | x in f ensures Served(share)(JobOf(s.now, c)(x)) == JobOf(later, c)(x) { JobServed(x, s.now, later, c); }
      ServeBusy(Channel(s, t), later - s.now, c);
      ImageCompose(JobOf(s.now, c), Served(share), JobOf(later, c), f);
    }
  }

  /** Two queues with the same copies running on channel `t`. */
  lemma SameChannel(s: State, r: State, t: int)
    requires |s.count| == 4 && |r.count| == 4 && 1 <= t <= 3
    requires r.now == s.now && r.count[t] == s.count[t] && Filter(RunningOf(t), r.evtq) == Filter(RunningOf(t), s.evtq)
    ensures Channel(r, t) == Channel(s, t)
  {
  }

  lemma OtherSwap(q: multiset<Event>, e: Event, f: Event, t: int)
    requires e in q && !RunningOf(t)(e) && !RunningOf(t)(f)
    ensures Filter(RunningOf(t), q - multiset{e} + multiset{f}) == Filter(RunningOf(t), q)
  {
    FilterPick(RunningOf(t), q, e);
    FilterAdd(RunningOf(t), q - multiset{e}, f);
  }

  /** Rescaling another channel is not seen on this one. */
  lemma OtherRescale(q: multiset<Event>, t: int, kind: int, now: real, num: int, den: int)
    requires t != kind && den != 0
    ensures Filter(RunningOf(t), Image(Rescale(kind, now, num, den), q)) == Filter(RunningOf(t), q)
  {
    var f := Rescale(kind, now, num, den);
    FilterImage(RunningOf(t), f, q);
    forall x | x in Filter(RunningOf(t), q) ensures f(x) == x { FilterMember(RunningOf(t), q, x); }
    ImageIdentity(f, Filter(RunningOf(t), q));
  }

  /** Rescaling a channel together with its count leaves all that remains unchanged. */
  lemma OwnRescale(q: multiset<Event>, t: int, now: real, num: int, den: int)
    requires num >= 1 && den >= 1
    ensures Image(JobOf(now, num), Filter(RunningOf(t), Image(Rescale(t, now, num, den), q)))
         == Image(JobOf(now, den), Filter(RunningOf(t), q))
  {
    var f, p := Rescale(t, now, num, den), RunningOf(t);
    FilterImage(p, f, q);
    forall x | x in Filter(p, q) ensures JobOf(now, num)(f(x)) == JobOf(now, den)(x) {
      FilterMember(p, q, x);
      RestRescaled(x.time, now, num, den);
    }
    hide Filter, Image;
    ImageCompose(f, JobOf(now, num), JobOf(now, den), Filter(p, q));
  }

  /** A copy among others, at the level of the queue. */
  lemma JoinShared(rest: multiset<Event>, run: Event, t: int, now: real, c: int)
    requires c > 1 && RunningOf(t)(run)
    ensures Image(JobOf(now, c), Filter(RunningOf(t), multiset{run} + Image(Rescale(t, now, c, c - 1), rest)))
         == Image(JobOf(now, c - 1), Filter(RunningOf(t), rest)) + multiset{JobOf(now, c)(run)}
  {
    hide *;
    var fast := Image(Rescale(t, now, c, c - 1), rest);
    FilterAdd(RunningOf(t), fast, run);
    assert multiset{run} + fast == fast + multiset{run};
    ImageAdd(JobOf(now, c), Filter(RunningOf(t), fast), run);
    OwnRescale(rest, t, now, c, c - 1);
  }

  lemma JoinAlone(rest: multiset<Event>, run: Event, t: int, now: real)
    requires RunningOf(t)(run) && |Filter(RunningOf(t), rest)| == 0
    ensures Image(JobOf(now, 1), Filter(RunningOf(t), rest + multiset{run}))
         == Image(JobOf(now, 0), Filter(RunningOf(t), rest)) + multiset{JobOf(now, 1)(run)}
  {
    hide *;
    FilterAdd(RunningOf(t), rest, run);
    ImageAdd(JobOf(now, 1), Filter(RunningOf(t), rest), run);
    EmptyChannels(rest, t, now);
  }

  lemma CopyJoins(apps: seq<App>, s: State, e: Event, c: int, run: Event, r: State)
    requires Sized(apps, s) && Counted(apps, s) && |s.count| == 4
    requires e in s.evtq && !e.running && 2 <= e.kind <= 3
    requires c == s.count[e.kind] + 1 && c >= 1 && run == e.(running := true, time := CopyEnd(s.now, e.length, c))
    requires r == StartCopy(s, e)
    ensures |r.count| == 4 && Channel(r, e.kind) == Channel(s, e.kind) + multiset{Job(e.app, e.kernel, e.length)}
  {
    var t, rest := e.kind, s.evtq - multiset{e};
    RestJoined(s.now, e.length, c);
    assert RunningOf(t)(run) && !RunningOf(t)(e) && JobOf(s.now, c)(run) == Job(e.app, e.kernel, e.length);
    hide *;
    StartCopyForm(s, e, c, run);
    FilterPick(RunningOf(t), s.evtq, e);
    ChannelSize(apps, s, t);
    ChannelIs(s, t);
    ChannelIs(r, t);
    if c == 1 { JoinAlone(rest, run, t, s.now); } else { JoinShared(rest, run, t, s.now, c); }
  }

  lemma ChannelIs(s: State, t: int)
    requires |s.count| == 4 && 1 <= t <= 3
    ensures Channel(s, t) == Image(JobOf(s.now, s.count[t]), Filter(RunningOf(t), s.evtq))
  {
  }

  /** The finished event leaves, its children are not running yet. */
  lemma ReleaseFilter(apps: seq<App>, s: State, e: Event, t: int)
    requires Sized(apps, s) && e in s.evtq && 1 <= t <= 3
    ensures Filter(RunningOf(t), Release(apps, s, e).evtq) == Filter(RunningOf(t), s.evtq - multiset{e})
  {
    var n := |apps[e.app].nodes[e.kernel].next|;
    var kids := Children(apps[e.app], e.app, e.kernel, s.now, n);
    assert Shaped(apps[e.app]);
    ChildrenSubmitted(apps[e.app], e.app, e.kernel, s.now, n, t);
    hide Shaped, Children;
    FilterSize(RunningOf(t), kids);
    FilterUnion(RunningOf(t), s.evtq - multiset{e}, kids);
    assert Filter(RunningOf(t), kids) == multiset{};
  }

  lemma RenewQueueIs(apps: seq<App>, s: State, a: nat, e: Event, r: State)
    requires Sized(apps, s) && a < |apps| && r == Renew(apps, s, a)
    requires e == Submit(a, 0, Head(apps[a]), Head(apps[a]).start + s.now)
    ensures r.count == s.count && r.now == s.now && (r.evtq == s.evtq || r.evtq == s.evtq + multiset{e})
  {
    hide AllShaped, EventOf;
  }

  lemma RenewFilter(apps: seq<App>, s: State, a: nat, t: int)
    requires Sized(apps, s) && a < |apps| && 1 <= t <= 3 && Shaped(apps[a])
    ensures Filter(RunningOf(t), Renew(apps, s, a).evtq) == Filter(RunningOf(t), s.evtq)
    ensures Renew(apps, s, a).count == s.count && Renew(apps, s, a).now == s.now
  {
    var e := Submit(a, 0, Head(apps[a]), Head(apps[a]).start + s.now);
    assert !RunningOf(t)(e);
    hide *;
    RenewQueueIs(apps, s, a, e, Renew(apps, s, a));
    FilterAdd(RunningOf(t), s.evtq, e);
  }

  lemma ReleaseForm(apps: seq<App>, s: State, e: Event, r: State)
    requires Sized(apps, s) && Counted(apps, s) && e in s.evtq && r == Release(apps, s, e)
    ensures |s.count| == 4 && r.now == s.now && 1 <= e.kind <= 3 && e.app < |apps| && Shaped(apps[e.app])
    ensures r.count == s.count[e.kind := s.count[e.kind] - 1] && (e.kind == 1 ==> r.count[1] <= 0)
  {
    assert Shaped(apps[e.app]);
    hide AllShaped, Children, Count;
  }

  /** Removing a copy that is done from an ideal channel. */
  lemma JobLeaves(q: multiset<Event>, e: Event, c: int)
    requires e in q && e.running && c >= 1
    ensures Image(JobOf(e.time, c), Filter(RunningOf(e.kind), q - multiset{e}))
         == Image(JobOf(e.time, c), Filter(RunningOf(e.kind), q)) - multiset{Job(e.app, e.kernel, 0.0)}
    ensures Job(e.app, e.kernel, 0.0) in Image(JobOf(e.time, c), Filter(RunningOf(e.kind), q))
  {
    var p, job := RunningOf(e.kind), JobOf(e.time, c);
    assert p(e) && job(e) == Job(e.app, e.kernel, 0.0);
    hide *;
    FilterPick(p, q, e);
    ImageAdd(job, Filter(p, q - multiset{e}), e);
  }

  lemma CopyLeaves(apps: seq<App>, s: State, e: Event, r: State, u: State)
    requires Sized(apps, s) && Counted(apps, s) && |s.count| == 4 && e in s.evtq && e.running && e.time == s.now
    requires 2 <= e.kind <= 3
    requires r == Release(apps, s, e) && |r.count| == 4 && u == SpeedUp(r, e.kind)
    requires Sized(apps, r) && Counted(apps, r)
    ensures |u.count| == 4 && Channel(u, e.kind) == Channel(s, e.kind) - multiset{Job(e.app, e.kernel, 0.0)}
    ensures Job(e.app, e.kernel, 0.0) in Channel(s, e.kind)
  {
    hide *;
    RunningCounted(apps, s, e);
    var t, c := e.kind, s.count[e.kind];
    JobLeaves(s.evtq, e, c);
    ReleaseFilter(apps, s, e, t);
    ReleaseForm(apps, s, e, r);
    ChannelSize(apps, r, t);
    SpeedUpForm(r, t, c - 1);
    ChannelIs(s, t);
    ChannelIs(u, t);
    if c > 1 {
      OwnRescale(r.evtq, t, s.now, c - 1, c);
    } else {
      EmptyChannels(r.evtq, t, s.now);
    }
  }

  lemma EmptyChannels(q: multiset<Event>, t: int, now: real)
    requires |Filter(RunningOf(t), q)| == 0
    ensures Image(JobOf(now, 0), Filter(RunningOf(t), q)) == multiset{}
    ensures Image(JobOf(now, 1), Filter(RunningOf(t), q)) == multiset{}
  {
    assert Filter(RunningOf(t), q) == multiset{};
  }

  lemma SpeedUpOther(r: State, kind: int, t: int)
    requires |r.count| == 4 && 1 <= kind <= 3 && kind != t
    ensures SpeedUp(r, kind).count == r.count && SpeedUp(r, kind).now == r.now
    ensures Filter(RunningOf(t), SpeedUp(r, kind).evtq) == Filter(RunningOf(t), r.evtq)
  {
    hide Image, Rescale, Filter;
    if kind != 1 && r.count[kind] >= 1 {
      OtherRescale(r.evtq, t, kind, r.now, r.count[kind], r.count[kind] + 1);
    }
  }

  /** A kernel or copy of another kind finishes. */
  lemma OtherFinishes(apps: seq<App>, s: State, e: Event, r: State, u: State, t: int)
    requires Sized(apps, s) && Counted(apps, s) && |s.count| == 4 && e in s.evtq && e.running
    requires 2 <= t <= 3 && e.kind != t && 1 <= e.kind <= 3
    requires r == Release(apps, s, e) && |r.count| == 4 && u == SpeedUp(r, e.kind)
    ensures |u.count| == 4 && u.now == s.now && u.count[t] == s.count[t]
    ensures Filter(RunningOf(t), u.evtq) == Filter(RunningOf(t), s.evtq)
  {
    assert !RunningOf(t)(e);
    hide *;
    FilterPick(RunningOf(t), s.evtq, e);
    ReleaseFilter(apps, s, e, t);
    ReleaseForm(apps, s, e, r);
    SpeedUpOther(r, e.kind, t);
  }

  lemma FinishRefines(apps: seq<App>, max: real, s: State, e: Event, t: int, v: State)
    requires Structural(apps, max, s) && Settled(s) && Sized(apps, s) && Counted(apps, s) && Steppable(apps, s)
    requires |s.count| == 4 && e in s.evtq && e.running && e.time == s.now && 2 <= t <= 3 && v == Finish(apps, s, e)
    ensures |v.count| == 4
    ensures e.kind != t ==> Channel(v, t) == Channel(s, t)
    ensures e.kind == t ==> Channel(v, t) == Channel(s, t) - multiset{Job(e.app, e.kernel, 0.0)}
    ensures e.kind == t ==> Job(e.app, e.kernel, 0.0) in Channel(s, t)
  {
    hide *;
    var r := Release(apps, s, e);
    ReleaseKeeps(apps, max, s, e);
    SizedParts(apps, max, r);
    ReleaseForm(apps, s, e, r);
    var u := SpeedUp(r, e.kind);
    SpeedUpKeeps(apps, max, r, e.kind);
    SizedParts(apps, max, u);
    FinishIs(apps, s, e, r, u, v);
    RenewFilter(apps, u, e.app, t);
    if e.kind == t {
      CopyLeaves(apps, s, e, r, u);
    } else {
      OtherFinishes(apps, s, e, r, u, t);
      SameChannel(s, u, t);
    }
    SameChannel(u, v, t);
  }

  /** Joining another channel, or the GPU, is not seen on this one. */
  lemma OtherStarts(apps: seq<App>, s: State, e: Event, t: int, r: State)
    requires |s.count| == 4 && e in s.evtq && !e.running && 1 <= e.kind <= 3 && s.count[e.kind] >= 0
    requires 2 <= t <= 3 && e.kind != t
    requires r == if e.kind != 1 then StartCopy(s, e) else if s.count[1] == 0 then StartKernel(s, e) else Retry(s, e)
    ensures |r.count| == 4 && Channel(r, t) == Channel(s, t)
  {
    if e.kind != 1 {
      OtherCopyStarts(s, e, t, r);
    } else {
      var f := if s.count[1] == 0 then e.(running := true, time := s.now + e.length)
               else e.(time := RetryTime(e, s.now, s.kSch));
      KernelStarts(s, e, r, f);
      assert !RunningOf(t)(e) && !RunningOf(t)(f);
      hide *;
      OtherSwap(s.evtq, e, f, t);
      SameChannel(s, r, t);
    }
  }

  lemma KernelStarts(s: State, e: Event, r: State, f: Event)
    requires |s.count| == 4 && e in s.evtq && e.kind == 1
    requires r == if s.count[1] == 0 then StartKernel(s, e) else Retry(s, e)
    requires f == if s.count[1] == 0 then e.(running := true, time := s.now + e.length)
                  else e.(time := RetryTime(e, s.now, s.kSch))
    ensures r.evtq == s.evtq - multiset{e} + multiset{f} && |r.count| == 4 && r.now == s.now
    ensures forall t :: 2 <= t <= 3 ==> r.count[t] == s.count[t]
  {
  }

  lemma OtherCopyStarts(s: State, e: Event, t: int, r: State)
    requires |s.count| == 4 && e in s.evtq && !e.running && 2 <= e.kind <= 3 && s.count[e.kind] >= 0
    requires 2 <= t <= 3 && e.kind != t && r == StartCopy(s, e)
    ensures |r.count| == 4 && Channel(r, t) == Channel(s, t)
  {
    hide *;
    var c := s.count[e.kind] + 1;
    var run := e.(running := true, time := CopyEnd(s.now, e.length, c));
    StartCopyForm(s, e, c, run);
    OtherJoin(s.evtq, e, run, t, s.now, c);
    SameChannel(s, r, t);
  }

  lemma OtherJoin(q: multiset<Event>, e: Event, run: Event, t: int, now: real, c: int)
    requires e in q && e.kind == run.kind != t && c >= 1
    ensures Filter(RunningOf(t), q - multiset{e} + multiset{run}) == Filter(RunningOf(t), q)
    ensures c > 1 ==>
      Filter(RunningOf(t), multiset{run} + Image(Rescale(e.kind, now, c, c - 1), q - multiset{e})) == Filter(RunningOf(t), q)
  {
    OtherSwap(q, e, run, t);
    FilterPick(RunningOf(t), q, e);
    if c > 1 {
      OtherRescale(q - multiset{e}, t, e.kind, now, c, c - 1);
      var fast := Image(Rescale(e.kind, now, c, c - 1), q - multiset{e});
      hide Filter, Image, Rescale;
      FilterAdd(RunningOf(t), fast, run);
      assert multiset{run} + fast == fast + multiset{run};
    }
  }

  /** The whole event loop refines the ideal channels: on either of them, what
      the simulator does in one turn is what an ideal shared channel does when
      the same time passes and the same copy joins or, with nothing left to do,
      leaves.  No other copy's remaining work is touched. */
  lemma TurnRefinesSharing(apps: seq<App>, max: real, s: State, e: Event, t: int)
    requires Structural(apps, max, s) && Settled(s) && e in s.evtq && 2 <= t <= 3
    ensures |s.count| == 4 && |Next(apps, s, e).count| == 4
    ensures Channel(Next(apps, s, e), t) == IdealTurn(Channel(s, t), e, t, e.time - s.now)
    ensures e.kind == t && e.running ==> Job(e.app, e.kernel, 0.0) in Serve(Channel(s, t), e.time - s.now)
    ensures |Channel(s, t)| == s.count[t]
  {
    hide Structural, Settled, Sized, Counted, Filter, Image, Rescale, StartCopy, StartKernel, Retry, Finish, Channel, Serve,
      Steppable;
    SizedParts(apps, max, s);
    ChannelSize(apps, s, t);
    AdvanceServes(apps, s, t, e.time);
    var s0 := s.(now := e.time);
    Ticked(apps, max, s, e.time);
    SizedParts(apps, max, s0);
    KindInRange(apps, s, e);
    var r := Next(apps, s, e);
    if e.running {
      FinishRefines(apps, max, s0, e, t, r);
    } else if e.kind == t {
      var c := s.count[t] + 1;
      CopyJoins(apps, s0, e, c, e.(running := true, time := CopyEnd(e.time, e.length, c)), r);
    } else {
      OtherStarts(apps, s0, e, t, r);
    }
  }
}
