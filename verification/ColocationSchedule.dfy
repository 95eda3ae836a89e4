/** Whatever the event times are, `k_sch` is when the running kernel ends.  This is
    why a kernel put off to just after it makes progress. */
module ColocationSchedule {
  import opened Bags
  import opened KernelTree
  import opened Colocation
  import opened ColocationStructure

  /** A kernel that is running ends at `k_sch`. */
  predicate OnSchedule(kSch: real, e: Event) {
    e.running && e.kind == 1 ==> e.time == kSch
  }

  ghost predicate Scheduled(s: State) {
    forall e :: e in s.evtq ==> OnSchedule(s.kSch, e)
  }

  lemma NextForm(apps: seq<App>, s: State, e: Event, s0: State, r: State)
    requires Steppable(apps, s) && e in s.evtq && s0 == s.(now := e.time) && r == Next(apps, s, e)
    ensures Steppable(apps, s0) && |s0.count| == 4 && 1 <= e.kind <= 3 && s0.count[e.kind] >= 0
    ensures r ==
      if e.running then Finish(apps, s0, e)
      else if e.kind != 1 then StartCopy(s0, e)
      else if s0.count[1] == 0 then StartKernel(s0, e) else Retry(s0, e)
  {
    hide Finish, StartCopy, StartKernel, Retry;
    EventInRange(apps, s, e);
    hide AllShaped, EventOf;
  }

  lemma ScheduledAt(s: State, e: Event)
    requires Scheduled(s) && e in s.evtq
    ensures OnSchedule(s.kSch, e)
  {
  }

  /** Rescaling copies does not touch kernels. */
  lemma RescaleScheduled(q: multiset<Event>, kSch: real, kind: int, now: real, num: int, den: int)
    requires kind != 1 && den != 0 && forall e :: e in q ==> OnSchedule(kSch, e)
    ensures forall e :: e in Image(Rescale(kind, now, num, den), q) ==> OnSchedule(kSch, e)
  {
    forall y | y in Image(Rescale(kind, now, num, den), q) ensures OnSchedule(kSch, y) {
      ImageMember(Rescale(kind, now, num, den), q, y);
      var x :| x in q && Rescale(kind, now, num, den)(x) == y;
      RescaleIs(x, kind, now, num, den);
      hide Image, Rescale, RescaledTime;
    }
  }

  /** With no kernel running `k_sch` does not matter. */
  lemma NobodyScheduled(apps: seq<App>, s: State, kSch: real, e: Event)
    requires Sized(apps, s) && Counted(apps, s) && |s.count| == 4 && s.count[1] == 0 && e in s.evtq
    ensures OnSchedule(kSch, e)
  {
    LonelyChannel(apps, s, 1);
    hide AllShaped, Counted;
  }

  lemma StartKernelScheduled(apps: seq<App>, s: State, e: Event)
    requires Sized(apps, s) && Counted(apps, s) && |s.count| == 4 && s.count[1] == 0 && e in s.evtq
    ensures Scheduled(StartKernel(s, e))
  {
    var r := StartKernel(s, e);
    hide Sized, Counted;
    forall x | x in r.evtq ensures OnSchedule(r.kSch, x) {
      if x in s.evtq { NobodyScheduled(apps, s, r.kSch, x); }
    }
  }

  lemma RetryScheduled(s: State, e: Event)
    requires Scheduled(s) && e in s.evtq && !e.running
    ensures Scheduled(Retry(s, e))
  {
    hide RetryTime;
  }

  lemma StartCopyScheduled(s: State, e: Event)
    requires Scheduled(s) && |s.count| == 4 && 2 <= e.kind <= 3 && s.count[e.kind] >= 0 && e in s.evtq
    ensures Scheduled(StartCopy(s, e))
  {
    var c := s.count[e.kind] + 1;
    var run := e.(running := true, time := CopyEnd(s.now, e.length, c));
    var r, rest := StartCopy(s, e), s.evtq - multiset{e};
    assert OnSchedule(s.kSch, run);
    hide *;
    StartCopyForm(s, e, c, run);
    forall x | x in rest ensures OnSchedule(s.kSch, x) { ScheduledAt(s, x); }
    if c > 1 { RescaleScheduled(rest, s.kSch, e.kind, s.now, c, c - 1); }
    ScheduledIf(r);
  }

  lemma ChildScheduled(app: App, a: nat, k: nat, now: real, n: nat, kSch: real, x: Event)
    requires Shaped(app) && k < |app.nodes| && n <= |app.nodes[k].next| && x in Children(app, a, k, now, n)
    ensures OnSchedule(kSch, x)
  {
    ChildrenMember(app, a, k, now, n, x);
    hide Shaped, Children;
  }

  lemma ReleaseScheduled(apps: seq<App>, s: State, e: Event, r: State)
    requires Sized(apps, s) && Scheduled(s) && e in s.evtq && r == Release(apps, s, e)
    requires Sized(apps, r) && Counted(apps, r) && |r.count| == 4 && (e.kind == 1 ==> r.count[1] == 0)
    ensures Scheduled(r)
  {
    hide *;
    EventInRange(apps, s, e);
    var n := |apps[e.app].nodes[e.kernel].next|;
    ReleaseParts(apps, s, e, r, n);
    forall x | x in r.evtq ensures OnSchedule(r.kSch, x) {
      if e.kind == 1 {
        NobodyScheduled(apps, r, r.kSch, x);
      } else if x in s.evtq {
        ScheduledAt(s, x);
      } else {
        ChildScheduled(apps[e.app], e.app, e.kernel, s.now, n, r.kSch, x);
      }
    }
    ScheduledIf(r);
  }

  lemma ScheduledIf(s: State)
    requires forall e :: e in s.evtq ==> OnSchedule(s.kSch, e)
    ensures Scheduled(s)
  {
  }

  lemma SpeedUpScheduled(s: State, kind: int)
    requires Scheduled(s) && |s.count| == 4 && 1 <= kind <= 3
    ensures Scheduled(SpeedUp(s, kind))
  {
    if kind != 1 && s.count[kind] >= 1 {
      RescaleScheduled(s.evtq, s.kSch, kind, s.now, s.count[kind], s.count[kind] + 1);
    }
    hide Image, Rescale;
  }

  lemma RenewScheduled(apps: seq<App>, s: State, a: nat)
    requires Sized(apps, s) && Scheduled(s) && a < |apps|
    ensures Scheduled(Renew(apps, s, a))
  {
    hide AllShaped, EventOf;
  }

  lemma FinishScheduled(apps: seq<App>, max: real, s: State, e: Event)
    requires Structural(apps, max, s) && Steppable(apps, s) && Scheduled(s) && e in s.evtq && e.running
    ensures Scheduled(Finish(apps, s, e))
  {
    hide *;
    SizedParts(apps, max, s);
    EventInRange(apps, s, e);
    var r := Release(apps, s, e);
    ReleaseKeeps(apps, max, s, e);
    SizedParts(apps, max, r);
    ReleaseParts(apps, s, e, r, |apps[e.app].nodes[e.kernel].next|);
    if e.kind == 1 {
      CountedCaps(apps, s);
      RunningCounted(apps, s, e);
    }
    ReleaseScheduled(apps, s, e, r);
    SpeedUpScheduled(r, e.kind);
    SpeedUpSized(apps, r, e.kind);
    FinishIs(apps, s, e, r, SpeedUp(r, e.kind), Finish(apps, s, e));
    RenewScheduled(apps, SpeedUp(r, e.kind), e.app);
  }

  /** Every turn keeps the schedule. */
  lemma ScheduledNext(apps: seq<App>, max: real, s: State, e: Event)
    requires Structural(apps, max, s) && Settled(s) && Steppable(apps, s) && Scheduled(s) && e in s.evtq
    ensures Scheduled(Next(apps, s, e))
  {
    hide *;
    SizedParts(apps, max, s);
    var s0 := s.(now := e.time);
    Ticked(apps, max, s, e.time);
    SizedParts(apps, max, s0);
    NextForm(apps, s, e, s0, Next(apps, s, e));
    TickScheduled(s, e.time);
    if e.running {
      FinishScheduled(apps, max, s0, e);
    } else if e.kind != 1 {
      StartCopyScheduled(s0, e);
    } else if s0.count[1] == 0 {
      StartKernelScheduled(apps, s0, e);
    } else {
      RetryScheduled(s0, e);
    }
  }

  lemma TickScheduled(s: State, t: real)
    requires Scheduled(s)
    ensures Scheduled(s.(now := t))
  {
  }

  lemma ScheduledInit(apps: seq<App>, max: real, rt: seq<real>)
    requires AllShaped(apps) && |rt| == |apps|
    ensures Scheduled(Init(apps, max, rt))
  {
    var s := Init(apps, max, rt);
    InitParts(apps, max, rt, s);
    hide Init, Heads, AllShaped, Loops, Shaped;
    forall x | x in s.evtq ensures OnSchedule(s.kSch, x) { HeadsMember(apps, |apps|, x); }
  }

  /** A kernel that finds the GPU busy is put off to just after the running kernel
      ends, which is not before now: the running kernel is in the queue. */
  lemma RetryGoesPast(apps: seq<App>, s: State, e: Event)
    requires Sized(apps, s) && Counted(apps, s) && |s.count| == 4 && s.count[1] > 0 && Scheduled(s)
    requires Top(s.evtq, e) && e.time == s.now
    ensures RetryTime(e, s.now, s.kSch) == s.kSch + 0.00001 > s.kSch >= s.now
  {
    CountedRunning(apps, s, 1);
    CountZero(RunningOf(1), s.evtq);
    var x :| x in s.evtq && RunningOf(1)(x);
    hide Sized, Counted;
    assert OnSchedule(s.kSch, x);
  }
}
