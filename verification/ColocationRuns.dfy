/** Whole runs of the simulator: they end, they replay every iteration in full,
    and they never make an app faster than its recording. */
module ColocationRuns {
  import opened Bags
  import opened KernelTree
  import opened Colocation
  import opened ColocationStructure
  import opened ColocationSchedule
  import opened ColocationTiming

  /** One turn of the loop; which of several earliest events is on top is left open. */
  ghost predicate Turn(apps: seq<App>, s: State, r: State) {
    Steppable(apps, s) && exists e :: Top(s.evtq, e) && r == Next(apps, s, e)
  }

  ghost predicate IsRun(apps: seq<App>, max: real, run: seq<State>) {
    && AllShaped(apps)
    && |run| > 0
    && |run[0].rt| == |apps| && run[0] == Init(apps, max, run[0].rt)
    && forall i :: 0 <= i < |run| - 1 ==> Turn(apps, run[i], run[i + 1])
  }

  ghost predicate Complete(run: seq<State>)
    requires |run| > 0
  {
    run[|run| - 1].evtq == multiset{}
  }

  // ----- every reachable state ----------------------------------------------

  lemma {:induction false} ReachableStructure(apps: seq<App>, max: real, run: seq<State>, i: nat)
    requires IsRun(apps, max, run) && i < |run|
    ensures Structural(apps, max, run[i]) && Settled(run[i])
  {
    hide Structural, Settled, Init, Next, Steppable, AllShaped;
    if i == 0 {
      StructuralInit(apps, max, run[0].rt);
    } else {
      ReachableStructure(apps, max, run, i - 1);
      assert Turn(apps, run[i - 1], run[i - 1 + 1]);
      var e :| Top(run[i - 1].evtq, e) && run[i] == Next(apps, run[i - 1], e);
      StructuralNext(apps, max, run[i - 1], e);
    }
  }

  /** In every reachable state `k_sch` is when the running kernel ends. */
  lemma {:induction false} ReachableSchedule(apps: seq<App>, max: real, run: seq<State>, i: nat)
    requires IsRun(apps, max, run) && i < |run|
    ensures Scheduled(run[i])
  {
    hide Structural, Settled, Init, Next, Steppable, AllShaped, Scheduled;
    if i == 0 {
      ScheduledInit(apps, max, run[0].rt);
    } else {
      ReachableSchedule(apps, max, run, i - 1);
      ReachableStructure(apps, max, run, i - 1);
      assert Turn(apps, run[i - 1], run[i - 1 + 1]);
      var e :| Top(run[i - 1].evtq, e) && run[i] == Next(apps, run[i - 1], e);
      ScheduledNext(apps, max, run[i - 1], e);
    }
  }

  lemma {:induction false} ReachableTiming(apps: seq<App>, max: real, run: seq<State>, i: nat)
    requires IsRun(apps, max, run) && AllTimed(apps) && i < |run|
    ensures Timing(apps, max, run[i])
  {
    hide Structural, Settled, Init, Next, Steppable, AllShaped, Scheduled, Timing, AllTimed;
    if i == 0 {
      TimingInit(apps, max, run[0].rt);
    } else {
      ReachableTiming(apps, max, run, i - 1);
      ReachableStructure(apps, max, run, i - 1);
      assert Turn(apps, run[i - 1], run[i - 1 + 1]);
      var e :| Top(run[i - 1].evtq, e) && run[i] == Next(apps, run[i - 1], e);
      ReachableSchedule(apps, max, run, i - 1);
      TimingNext(apps, max, run[i - 1], e);
    }
  }

  lemma {:induction false} ClockForward(apps: seq<App>, max: real, run: seq<State>, i: nat, j: nat)
    requires IsRun(apps, max, run) && AllTimed(apps) && i <= j < |run|
    ensures run[i].now <= run[j].now
  {
    hide Structural, Settled, Init, Next, Steppable, AllShaped, Scheduled, Timing, AllTimed;
    if i < j {
      ClockForward(apps, max, run, i, j - 1);
      ReachableTiming(apps, max, run, j - 1);
      ReachableStructure(apps, max, run, j - 1);
      assert Turn(apps, run[j - 1], run[j - 1 + 1]);
      var e :| Top(run[j - 1].evtq, e) && run[j] == Next(apps, run[j - 1], e);
      ReachableSchedule(apps, max, run, j - 1);
      TimingNext(apps, max, run[j - 1], e);
    }
  }

  /** The turn taken at position `i` of a run. */
  lemma TurnAt(apps: seq<App>, max: real, run: seq<State>, i: nat) returns (e: Event)
    requires IsRun(apps, max, run) && i < |run| - 1
    ensures Steppable(apps, run[i]) && Steppable(apps, run[i + 1])
    ensures Top(run[i].evtq, e) && e in run[i].evtq && run[i + 1] == Next(apps, run[i], e)
  {
    ReachableStructure(apps, max, run, i);
    ReachableStructure(apps, max, run, i + 1);
    SizedParts(apps, max, run[i]);
    SizedParts(apps, max, run[i + 1]);
    assert Turn(apps, run[i], run[i + 1]);
    hide Structural, Next, Steppable, AllShaped, Init;
    e :| Top(run[i].evtq, e) && run[i + 1] == Next(apps, run[i], e);
  }

  // ----- when an app ends ---------------------------------------------------

  predicate Busy(s: State, a: nat) { a < |s.ac| && s.ac[a] > 0 }

  /** Nothing of app `a` is in flight, and the program keeps `t` as its time. */
  predicate Ended(s: State, a: nat, t: real) {
    a < |s.ac| && a < |s.rt| && s.ac[a] == 0 && s.rt[a] == t
  }

  /** The event finishes app `a`: it is the only one that the app has in flight, no
      kernel waits for it, and the iteration is the app's last. */
  ghost predicate FinishesApp(apps: seq<App>, s: State, e: Event, a: nat)
    requires Sized(apps, s) && a < |apps| && e in s.evtq
  {
    e.running && e.app == a && apps[a].nodes[e.kernel].next == [] && s.ac[a] == 1 && s.loop[a] == 1
  }

  /** The turn does not concern app `a`. */
  predicate Untouched(s: State, r: State, a: nat) {
    && a < |s.ac| && a < |r.ac| && a < |s.rt| && a < |r.rt|
    && r.ac[a] == s.ac[a] && r.rt[a] == s.rt[a]
  }

  /** The turn concerns app `a`, which goes on or is finished by it. */
  ghost predicate Touched(apps: seq<App>, s: State, e: Event, r: State, a: nat)
    requires Sized(apps, s) && a < |apps| && e in s.evtq
  {
    Busy(s, a) && (Busy(r, a) || (FinishesApp(apps, s, e, a) && Ended(r, a, r.now)))
  }

  /** What renewing does to the counters and times. */
  lemma RenewEnds(apps: seq<App>, u: State, a: nat, v: State)
    requires Sized(apps, u) && a < |apps| && v == Renew(apps, u, a) && a < |u.ac| == |u.loop| && u.ac[a] >= 0
    ensures forall b: nat :: b < |apps| && b != a ==> Untouched(u, v, b)
    ensures Busy(v, a) || (u.ac[a] == 0 && u.loop[a] <= 1 && Ended(v, a, u.now))
  {
    hide AllShaped, EventOf;
  }

  lemma UntouchedFrom(s: State, u: State, v: State, a: nat)
    requires Untouched(u, v, a) && a < |s.ac| && s.ac[a] == u.ac[a] && s.rt == u.rt
    ensures Untouched(s, v, a)
  {
  }

  lemma SizedLengths(apps: seq<App>, s: State)
    requires Sized(apps, s)
    ensures |s.ac| == |s.loop| == |s.rt| == |apps| && |s.count| == 4
  {
  }

  lemma LoopsAhead(apps: seq<App>, max: real, s: State, a: nat)
    requires Structural(apps, max, s) && Sized(apps, s) && a < |apps| == |s.loop|
    ensures s.loop[a] >= 1
  {
    hide AllShaped, QueueExact, Counted, Loops;
  }

  /** An event in the queue is counted for its app. */
  lemma InFlightIsBusy(apps: seq<App>, s: State, e: Event)
    requires Sized(apps, s) && Counted(apps, s) && e in s.evtq && e.app < |apps|
    ensures Busy(s, e.app)
  {
    assert Of(e.app)(e);
    hide *;
    CountedAc(apps, s, e.app);
    CountPick(Of(e.app), s.evtq, e);
    BusyIf(s, e.app);
  }

  lemma BusyIf(s: State, a: nat)
    ensures Busy(s, a) <==> a < |s.ac| && s.ac[a] > 0
  {
  }

  lemma FinishesIf(apps: seq<App>, s: State, e: Event, n: nat, v: State)
    requires Sized(apps, s) && e in s.evtq && e.running && |s.ac| == |s.loop| == |apps|
    requires e.app < |apps| && e.kernel < |apps[e.app].nodes| && n == |apps[e.app].nodes[e.kernel].next|
    requires Busy(s, e.app) && s.loop[e.app] >= 1 && v.now == s.now
    requires Busy(v, e.app) || (s.ac[e.app] - 1 + n == 0 && s.loop[e.app] <= 1 && Ended(v, e.app, s.now))
    ensures Touched(apps, s, e, v, e.app)
  {
    hide AllShaped, EventOf;
  }

  /** Finishing an event concerns its app and no other. */
  lemma FinishEnds(apps: seq<App>, max: real, s: State, e: Event, v: State, a: nat)
    requires Structural(apps, max, s) && Steppable(apps, s) && Sized(apps, s) && e in s.evtq && e.running
    requires v == Finish(apps, s, e) && e.app < |apps| && a < |apps|
    ensures if a == e.app then Touched(apps, s, e, v, a) else Untouched(s, v, a)
  {
    hide *;
    SizedParts(apps, max, s);
    EventInRange(apps, s, e);
    InFlightIsBusy(apps, s, e);
    var r, n := Release(apps, s, e), |apps[e.app].nodes[e.kernel].next|;
    ReleaseParts(apps, s, e, r, n);
    ReleaseSized(apps, s, e);
    var u := SpeedUp(r, e.kind);
    SpeedUpSized(apps, r, e.kind);
    FinishForm(apps, s, e, r, u);
    FinishIs(apps, s, e, r, u, v);
    FinishClock(apps, s, e);
    SizedLengths(apps, s);
    SizedLengths(apps, u);
    BusyIf(s, e.app);
    RenewEnds(apps, u, e.app, v);
    if a == e.app {
      LoopsAhead(apps, max, s, a);
      FinishesIf(apps, s, e, n, v);
    } else {
      UntouchedFrom(s, u, v, a);
    }
  }

  /** A turn leaves an app alone, or the app was busy and stays so unless the turn
      finishes its last event. */
  lemma TurnEnds(apps: seq<App>, max: real, s: State, e: Event, r: State, a: nat)
    requires Structural(apps, max, s) && Settled(s) && Steppable(apps, s) && Sized(apps, s) && e in s.evtq
    requires r == Next(apps, s, e) && a < |apps|
    ensures Untouched(s, r, a) || Touched(apps, s, e, r, a)
  {
    hide *;
    var s0 := s.(now := e.time);
    Ticked(apps, max, s, e.time);
    SizedParts(apps, max, s0);
    NextForm(apps, s, e, s0, r);
    if e.running {
      EventInRange(apps, s0, e);
      FinishEnds(apps, max, s0, e, r, a);
      TouchedTicked(apps, s, e, s0, r, a);
    } else {
      StartRecord(apps, s0, e, r);
      SizedLengths(apps, s0);
      SameUntouched(s, r, a);
    }
  }

  lemma SameUntouched(s: State, r: State, a: nat)
    requires a < |s.ac| == |s.rt| && r.ac == s.ac && r.rt == s.rt
    ensures Untouched(s, r, a)
  {
  }

  lemma TouchedTicked(apps: seq<App>, s: State, e: Event, s0: State, r: State, a: nat)
    requires Sized(apps, s) && Sized(apps, s0) && e in s.evtq && s0 == s.(now := e.time) && a < |apps|
    ensures Touched(apps, s0, e, r, a) == Touched(apps, s, e, r, a) && Untouched(s0, r, a) == Untouched(s, r, a)
  {
    hide AllShaped, EventOf;
  }

  /** Up to state `i` app `a` has been busy. */
  predicate BusySince(run: seq<State>, a: nat, i: nat)
    requires i < |run|
  {
    forall k :: 0 <= k <= i ==> Busy(run[k], a)
  }

  /** The turn from `s` to `r` finishes app `a`. */
  ghost predicate LastTurn(apps: seq<App>, s: State, r: State, a: nat)
    requires Steppable(apps, s) && a < |apps|
  {
    exists e :: Top(s.evtq, e) && FinishesApp(apps, s, e, a) && r == Next(apps, s, e)
  }

  /** The `j`-th turn finishes app `a`.  Before, the app is busy; from then to state `i`
      its time is the clock of that turn. */
  ghost predicate EndsInTurn(apps: seq<App>, run: seq<State>, a: nat, j: nat, i: nat)
    requires i < |run|
  {
    && 0 < j <= i && a < |apps| && BusySince(run, a, j - 1)
    && Steppable(apps, run[j - 1]) && LastTurn(apps, run[j - 1], run[j], a)
    && forall k :: j <= k <= i ==> Ended(run[k], a, run[j].now)
  }

  ghost predicate HasEnded(apps: seq<App>, run: seq<State>, a: nat, i: nat)
    requires i < |run|
  {
    exists j: nat :: EndsInTurn(apps, run, a, j, i)
  }

  lemma BusyAtFirst(apps: seq<App>, max: real, run: seq<State>, a: nat)
    requires IsRun(apps, max, run) && a < |apps|
    ensures |run| > 0 && BusySince(run, a, 0)
  {
    hide AllShaped, Heads;
  }

  lemma {:induction false} BusyUntilEnd(apps: seq<App>, max: real, run: seq<State>, i: nat, a: nat)
    requires IsRun(apps, max, run) && i < |run| && a < |apps|
    ensures BusySince(run, a, i) || HasEnded(apps, run, a, i)
  {
    hide *;
    if i == 0 {
      BusyAtFirst(apps, max, run, a);
    } else {
      BusyUntilEnd(apps, max, run, i - 1, a);
      EndStep(apps, max, run, i, a);
    }
  }

  lemma EndStep(apps: seq<App>, max: real, run: seq<State>, i: nat, a: nat)
    requires IsRun(apps, max, run) && 0 < i < |run| && a < |apps|
    requires BusySince(run, a, i - 1) || HasEnded(apps, run, a, i - 1)
    ensures BusySince(run, a, i) || HasEnded(apps, run, a, i)
  {
    hide *;
    ReachableStructure(apps, max, run, i - 1);
    SizedParts(apps, max, run[i - 1]);
    var e := TurnAt(apps, max, run, i - 1);
    TurnEnds(apps, max, run[i - 1], e, run[i], a);
    if BusySince(run, a, i - 1) {
      BusyStep(apps, run, i, e, a);
    } else {
      EndedStep(apps, run, i, e, a);
    }
  }

  lemma BusyStep(apps: seq<App>, run: seq<State>, i: nat, e: Event, a: nat)
    requires 0 < i < |run| && a < |apps| && BusySince(run, a, i - 1)
    requires Steppable(apps, run[i - 1]) && Sized(apps, run[i - 1]) && Top(run[i - 1].evtq, e) && e in run[i - 1].evtq
    requires run[i] == Next(apps, run[i - 1], e)
    requires Untouched(run[i - 1], run[i], a) || Touched(apps, run[i - 1], e, run[i], a)
    ensures BusySince(run, a, i) || HasEnded(apps, run, a, i)
  {
    hide Steppable, Sized, Next, Top, FinishesApp, Ended;
    assert Busy(run[i - 1], a);
    assert Busy(run[i], a) || EndsInTurn(apps, run, a, i, i);
  }

  lemma EndedStep(apps: seq<App>, run: seq<State>, i: nat, e: Event, a: nat)
    requires 0 < i < |run| && HasEnded(apps, run, a, i - 1)
    requires Sized(apps, run[i - 1]) && e in run[i - 1].evtq
    requires Untouched(run[i - 1], run[i], a) || Touched(apps, run[i - 1], e, run[i], a)
    ensures HasEnded(apps, run, a, i)
  {
    hide Steppable, Sized, LastTurn, FinishesApp;
    var last := i - 1;
    var j: nat :| EndsInTurn(apps, run, a, j, last);
    assert Ended(run[last], a, run[j].now);
    assert EndsInTurn(apps, run, a, j, i);
  }

  /** An app has nothing in flight if, and only if, a turn has finished it; its time is
      the clock of that turn.  This asks nothing of the event times. */
  lemma RuntimeIsSet(apps: seq<App>, max: real, run: seq<State>, i: nat, a: nat)
    requires IsRun(apps, max, run) && i < |run| && a < |apps|
    ensures a < |run[i].ac| && a < |run[i].rt|
    ensures run[i].ac[a] == 0 <==> exists j: nat :: EndsInTurn(apps, run, a, j, i) && run[i].rt[a] == run[j].now
  {
    BusyUntilEnd(apps, max, run, i, a);
    hide IsRun, Steppable, LastTurn;
    if BusySince(run, a, i) {
      assert Busy(run[i], a);
      ReachableLengths(apps, max, run, i);
    } else {
      var j: nat :| EndsInTurn(apps, run, a, j, i);
      assert Ended(run[i], a, run[j].now);
    }
  }

  lemma ReachableLengths(apps: seq<App>, max: real, run: seq<State>, i: nat)
    requires IsRun(apps, max, run) && i < |run|
    ensures |run[i].ac| == |run[i].rt| == |apps|
  {
    hide *;
    ReachableStructure(apps, max, run, i);
    SizedParts(apps, max, run[i]);
    SizedLengths(apps, run[i]);
  }

  /** What the program reports as an app's time is when the app's last event finished. */
  ghost predicate TimeOfEnd(apps: seq<App>, run: seq<State>, a: nat, t: real)
    requires |run| > 0
  {
    exists j: nat :: EndsInTurn(apps, run, a, j, |run| - 1) && t == run[j].now
  }

  // ----- the end of a run ---------------------------------------------------

  lemma NothingInFlight(apps: seq<App>, max: real, s: State, a: nat)
    requires Structural(apps, max, s) && s.evtq == multiset{} && a < |apps|
    ensures s.ac[a] == 0
  {
    hide AllShaped, QueueExact, Loops;
    assert s.ac[a] == Count(Of(a), s.evtq);
  }

  /** When the queue is empty the time of every app has been set. */
  lemma RuntimesAreSet(apps: seq<App>, max: real, run: seq<State>, a: nat)
    requires IsRun(apps, max, run) && Complete(run) && a < |apps|
    ensures |run| > 0 && a < |run[|run| - 1].rt| && TimeOfEnd(apps, run, a, run[|run| - 1].rt[a])
  {
    var s := run[|run| - 1];
    assert s.evtq == multiset{};
    hide IsRun, Complete, EndsInTurn;
    ReachableStructure(apps, max, run, |run| - 1);
    NothingInFlight(apps, max, s, a);
    hide Structural, Settled;
    RuntimeIsSet(apps, max, run, |run| - 1, a);
  }

  /** When the queue is empty every kernel has been replayed in every iteration. */
  lemma ReplayedInFull(apps: seq<App>, max: real, run: seq<State>, a: nat, k: nat)
    requires IsRun(apps, max, run) && Complete(run) && a < |apps| && k < |apps[a].nodes|
    ensures Structural(apps, max, run[|run| - 1]) && run[|run| - 1].fin[a][k] == Loops(max, apps[a]) >= 1
  {
    var s := run[|run| - 1];
    ReachableStructure(apps, max, run, |run| - 1);
    NothingInFlight(apps, max, s, a);
    IterationOver(apps, max, s, a);
    assert s.loop[a] == 1;
    hide AllShaped, QueueExact, DoneClosed, Init, Counted;
    assert Shaped(apps[a]);
  }

  /** No app is sped up by its neighbours. */
  lemma NoSpeedUp(apps: seq<App>, max: real, run: seq<State>, a: nat)
    requires IsRun(apps, max, run) && AllTimed(apps) && Complete(run) && a < |apps| && apps[a].slow >= 0.0
    ensures Structural(apps, max, run[|run| - 1])
    ensures run[|run| - 1].rt[a] >= Loops(max, apps[a]) as real * apps[a].length
  {
    var s := run[|run| - 1];
    ReachableStructure(apps, max, run, |run| - 1);
    ReachableTiming(apps, max, run, |run| - 1);
    NothingInFlight(apps, max, s, a);
    Parts(apps, max, s);
    hide Structural, Timing, AllTimed, IsRun, Loops, AllShaped;
    assert RuntimeNotEarly(apps, max, s, a);
  }

  // ----- termination --------------------------------------------------------

  ghost function Sum(s: seq<int>): int {
    if s == [] then 0 else s[0] + Sum(s[1..])
  }

  ghost function Sum2(s: seq<seq<int>>): int {
    if s == [] then 0 else Sum(s[0]) + Sum2(s[1..])
  }

  lemma {:induction false} SumBump(s: seq<int>, i: nat)
    requires i < |s|
    ensures Sum(s[i := s[i] + 1]) == Sum(s) + 1
  {
    var t := s[i := s[i] + 1];
    if i > 0 {
      assert t[1..] == s[1..][i - 1 := s[1..][i - 1] + 1];
      SumBump(s[1..], i - 1);
    } else {
      assert t[1..] == s[1..];
    }
  }

  lemma {:induction false} Sum2Bump(s: seq<seq<int>>, i: nat, j: nat)
    requires i < |s| && j < |s[i]|
    ensures Sum2(s[i := s[i][j := s[i][j] + 1]]) == Sum2(s) + 1
  {
    var t := s[i := s[i][j := s[i][j] + 1]];
    if i > 0 {
      assert t[1..] == s[1..][i - 1 := s[1..][i - 1][j := s[1..][i - 1][j] + 1]];
      Sum2Bump(s[1..], i - 1, j);
    } else {
      assert t[1..] == s[1..];
      SumBump(s[0], j);
    }
  }

  lemma {:induction false} SumMono(s: seq<int>, t: seq<int>)
    requires |s| == |t| && forall i :: 0 <= i < |s| ==> s[i] <= t[i]
    ensures Sum(s) <= Sum(t)
  {
    if s != [] { SumMono(s[1..], t[1..]); }
  }

  lemma {:induction false} Sum2Mono(s: seq<seq<int>>, t: seq<seq<int>>)
    requires |s| == |t| && forall i :: 0 <= i < |s| ==> |s[i]| == |t[i]|
    requires forall i, j :: 0 <= i < |s| && 0 <= j < |s[i]| ==> s[i][j] <= t[i][j]
    ensures Sum2(s) <= Sum2(t)
  {
    if s != [] {
      SumMono(s[0], t[0]);
      Sum2Mono(s[1..], t[1..]);
    }
  }

  ghost function Goal(apps: seq<App>, max: real): seq<seq<int>>
    requires AllShaped(apps)
  {
    seq(|apps|, a requires 0 <= a < |apps| => seq(|apps[a].nodes|, k => Loops(max, apps[a])))
  }

  /** How many kernel executions are still to finish. */
  ghost function Todo(apps: seq<App>, max: real, s: State): int
    requires AllShaped(apps)
  {
    Sum2(Goal(apps, max)) - Sum2(s.fin)
  }

  lemma TodoNotNegative(apps: seq<App>, max: real, s: State)
    requires AllShaped(apps) && Structural(apps, max, s)
    ensures Todo(apps, max, s) >= 0
  {
    hide Loops, Shaped, QueueExact, Counted, DoneClosed;
    Sum2Mono(s.fin, Goal(apps, max));
  }

  function Submitted(): Event -> bool { (e: Event) => !e.running }

  /** Kernels that will find the GPU busy with the kernel that ends at `kSch`. */
  function Waiting(kSch: real): Event -> bool { (e: Event) => !e.running && e.kind == 1 && e.time <= kSch }

  ghost predicate Before(apps: seq<App>, max: real, r: State, s: State)
    requires AllShaped(apps)
  {
    || Todo(apps, max, r) < Todo(apps, max, s)
    || (Todo(apps, max, r) == Todo(apps, max, s) && Count(Submitted(), r.evtq) < Count(Submitted(), s.evtq))
    || (Todo(apps, max, r) == Todo(apps, max, s) && Count(Submitted(), r.evtq) == Count(Submitted(), s.evtq)
        && r.kSch == s.kSch && Count(Waiting(r.kSch), r.evtq) < Count(Waiting(s.kSch), s.evtq))
  }

  lemma StartCopySubmitted(s: State, e: Event, c: int, run: Event)
    requires |s.count| == 4 && 2 <= e.kind <= 3 && s.count[e.kind] >= 0 && e in s.evtq && !e.running
    requires c == s.count[e.kind] + 1 && run == e.(running := true, time := CopyEnd(s.now, e.length, c))
    ensures Count(Submitted(), StartCopy(s, e).evtq) == Count(Submitted(), s.evtq) - 1
    ensures StartCopy(s, e).fin == s.fin
  {
    var p, rest := Submitted(), s.evtq - multiset{e};
    assert p(e) && !p(run);
    hide *;
    StartCopyForm(s, e, c, run);
    CountPick(p, s.evtq, e);
    CountAdd(p, rest, run);
    if c > 1 {
      RescaleSubmitted(rest, e.kind, s.now, c, c - 1);
      CountAddFront(p, Image(Rescale(e.kind, s.now, c, c - 1), rest), run);
    }
  }

  lemma CountAddFront(p: Event -> bool, q: multiset<Event>, x: Event)
    requires !p(x)
    ensures Count(p, multiset{x} + q) == Count(p, q)
  {
    assert multiset{x} + q == q + multiset{x};
    CountAdd(p, q, x);
  }

  lemma RescaleSubmitted(q: multiset<Event>, kind: int, now: real, num: int, den: int)
    requires den != 0
    ensures Count(Submitted(), Image(Rescale(kind, now, num, den), q)) == Count(Submitted(), q)
  {
    CountImage(Submitted(), Submitted(), Rescale(kind, now, num, den), q);
  }

  lemma SameFin(apps: seq<App>, s: State, e: Event, r: State, u: State)
    requires Sized(apps, s) && e in s.evtq && r == Release(apps, s, e) && |r.count| == 4 && 1 <= e.kind <= 3
    requires u == SpeedUp(r, e.kind) && Sized(apps, u) && e.app < |apps|
    ensures Renew(apps, u, e.app).fin == r.fin
  {
    hide AllShaped, EventOf, Release, Image, Rescale;
  }

  lemma ReleaseFin(apps: seq<App>, s: State, e: Event)
    requires Sized(apps, s) && e in s.evtq
    ensures e.app < |s.fin| && e.kernel < |s.fin[e.app]|
    ensures Release(apps, s, e).fin == s.fin[e.app := s.fin[e.app][e.kernel := s.fin[e.app][e.kernel] + 1]]
  {
    assert EventOf(apps, e);
    hide AllShaped, Children;
  }

  lemma StepSized(apps: seq<App>, s: State)
    requires Steppable(apps, s)
    ensures Sized(apps, s)
  {
    hide Sized;
  }

  lemma ReleaseCounters(apps: seq<App>, s: State, e: Event)
    requires Sized(apps, s) && e in s.evtq
    ensures |Release(apps, s, e).count| == 4
  {
    hide AllShaped, Children;
  }

  lemma FinishTodo(apps: seq<App>, s: State, e: Event)
    requires Steppable(apps, s) && e in s.evtq
    ensures Sum2(Finish(apps, s, e).fin) == Sum2(s.fin) + 1
  {
    hide *;
    StepSized(apps, s);
    EventInRange(apps, s, e);
    var r := Release(apps, s, e);
    ReleaseSized(apps, s, e);
    ReleaseCounters(apps, s, e);
    var u := SpeedUp(r, e.kind);
    SpeedUpSized(apps, r, e.kind);
    FinishIs(apps, s, e, r, u, Finish(apps, s, e));
    SameFin(apps, s, e, r, u);
    ReleaseFin(apps, s, e);
    Sum2Bump(s.fin, e.app, e.kernel);
  }

  lemma SubmittedStarts(s: State, e: Event, r: State)
    requires |s.count| == 4 && e in s.evtq && !e.running && r == StartKernel(s, e)
    ensures Count(Submitted(), r.evtq) == Count(Submitted(), s.evtq) - 1 && r.fin == s.fin
  {
    CountReplace(Submitted(), s.evtq, e, e.(running := true, time := s.now + e.length));
    hide Count;
  }

  lemma SubmittedRetries(s: State, e: Event, r: State)
    requires e in s.evtq && !e.running && e.kind == 1 && e.time == s.now <= s.kSch && r == Retry(s, e)
    requires RetryTime(e, s.now, s.kSch) > s.kSch
    ensures Count(Submitted(), r.evtq) == Count(Submitted(), s.evtq) && r.fin == s.fin && r.kSch == s.kSch
    ensures Count(Waiting(r.kSch), r.evtq) < Count(Waiting(s.kSch), s.evtq)
  {
    hide RetryTime;
    var f := e.(time := RetryTime(e, s.now, s.kSch));
    CountReplace(Submitted(), s.evtq, e, f);
    CountReplace(Waiting(s.kSch), s.evtq, e, f);
    hide Count;
  }

  /** Every turn of the loop brings its end nearer, whatever the event times are. */
  lemma TurnDescends(apps: seq<App>, max: real, s: State, e: Event)
    requires AllShaped(apps) && Structural(apps, max, s) && Settled(s) && Scheduled(s)
    requires Steppable(apps, s) && Top(s.evtq, e) && e in s.evtq
    ensures Before(apps, max, Next(apps, s, e), s)
  {
    hide *;
    var s0, r := s.(now := e.time), Next(apps, s, e);
    NextForm(apps, s, e, s0, r);
    Ticked(apps, max, s, e.time);
    SizedParts(apps, max, s0);
    TickScheduled(s, e.time);
    if e.running {
      FinishTodo(apps, s0, e);
      TodoDrops(apps, max, s, r);
    } else {
      if e.kind != 1 {
        var c := s.count[e.kind] + 1;
        StartCopySubmitted(s0, e, c, e.(running := true, time := CopyEnd(s0.now, e.length, c)));
      } else if s.count[1] == 0 {
        SubmittedStarts(s0, e, r);
      } else {
        RetryGoesPast(apps, s0, e);
        SubmittedRetries(s0, e, r);
      }
      TodoSame(apps, max, s, r);
    }
    BeforeIf(apps, max, r, s);
  }

  lemma BeforeIf(apps: seq<App>, max: real, r: State, s: State)
    requires AllShaped(apps)
    requires Todo(apps, max, r) == Todo(apps, max, s) - 1
      || (Todo(apps, max, r) == Todo(apps, max, s) && Count(Submitted(), r.evtq) == Count(Submitted(), s.evtq) - 1)
      || (Todo(apps, max, r) == Todo(apps, max, s) && Count(Submitted(), r.evtq) == Count(Submitted(), s.evtq)
          && r.kSch == s.kSch && Count(Waiting(r.kSch), r.evtq) < Count(Waiting(s.kSch), s.evtq))
    ensures Before(apps, max, r, s)
  {
  }

  lemma TodoDrops(apps: seq<App>, max: real, s: State, r: State)
    requires AllShaped(apps) && Sum2(r.fin) == Sum2(s.fin) + 1
    ensures Todo(apps, max, r) == Todo(apps, max, s) - 1
  {
  }

  lemma TodoSame(apps: seq<App>, max: real, s: State, r: State)
    requires AllShaped(apps) && r.fin == s.fin
    ensures Todo(apps, max, r) == Todo(apps, max, s)
  {
  }
}
