/** A reusable barrier for threads: a counter of waiting threads and a generation
    that tells a real release from a spurious wakeup. */
module ThreadBarrier {

  /** The fields of the barrier. */
  datatype Fields = Fields(parties: nat, waiting: nat, generation: nat, broken: bool)

  // ----- what happens under the lock --------------------------------------------------

  /** A thread that arrives is the last of its generation. */
  predicate Completes(b: Fields) {
    !b.broken && b.waiting + 1 == b.parties
  }

  /** A thread that waits for the end of a generation may leave. */
  predicate Opened(b: Fields, gen: nat) { gen != b.generation }

  function Arrive(b: Fields): Fields {
    if b.broken then b
    else if Completes(b) then b.(waiting := 0, generation := b.generation + 1)
    else b.(waiting := b.waiting + 1)
  }

  function Abort(b: Fields): Fields {
    if b.waiting > 0 then b.(generation := b.generation + 1, broken := true) else b.(broken := true)
  }

  class Barrier {
    const parties: nat
    var waiting: nat
    var generation: nat
    var broken: bool

    constructor (parties: nat)
      ensures Value() == Fields(parties, 0, 0, false)
    {
      this.parties := parties;
      waiting, generation, broken := 0, 0, false;
    }

    function Value(): Fields
      reads this
    {
      Fields(parties, waiting, generation, broken)
    }

    /** `wait`, up to the first test of its loop: whether the thread has to sleep,
        in which generation, and whether all sleepers are notified. */
    method WaitBegin() returns (gen: nat, sleeps: bool, notified: bool)
      modifies this
      ensures Value() == Arrive(old(Value())) && gen == old(generation)
      ensures notified <==> Completes(old(Value()))
      ensures sleeps <==> !old(broken) && !notified
    {
      gen := generation;
      sleeps, notified := false, false;
      if broken { return; }
      waiting := waiting + 1;
      if waiting == parties {
        waiting := 0;
        generation := generation + 1;
        notified := true;
      }
      sleeps := gen == generation;
    }

    /** `wait`, after waking up: the loop's test. */
    method WaitAgain(gen: nat) returns (sleeps: bool)
      ensures sleeps <==> !Opened(Value(), gen)
    {
      sleeps := gen == generation;
    }

    method AbortAll() returns (notified: bool)
      modifies this
      ensures Value() == Abort(old(Value())) && (notified <==> old(waiting) > 0)
    {
      notified := false;
      if waiting > 0 {
        generation := generation + 1;
        notified := true;
      }
      broken := true;
    }
  }

  // ----- threads ------------------------------------------------------------------------

  /** A thread is outside of `wait`, or sleeps in it, or has been woken up and will
      look at the generation again. */
  datatype Condition = Free | Asleep(gen: nat) | Awake(gen: nat)

  /** `entered` and `left` count the thread's calls of `wait` and its returns, on a
      barrier that is not broken. */
  datatype Thread = Thread(condition: Condition, entered: nat, left: nat)

  /** `arrived` counts, by generation, the threads that arrived in it. */
  datatype System = System(fields: Fields, threads: seq<Thread>, arrived: seq<nat>)

  datatype Step = Enter(t: nat) | Wake(t: nat) | Look(t: nat) | Disable

  function WakeUp(x: Thread): Thread {
    if x.condition.Asleep? then x.(condition := Awake(x.condition.gen)) else x
  }

  function NotifyAll(threads: seq<Thread>): seq<Thread> {
    seq(|threads|, t requires 0 <= t < |threads| => WakeUp(threads[t]))
  }

  ghost predicate Enabled(s: System, step: Step) {
    match step
    case Enter(t) => t < |s.threads| && s.threads[t].condition.Free?
    case Wake(t) => t < |s.threads| && s.threads[t].condition.Asleep?
    case Look(t) => t < |s.threads| && s.threads[t].condition.Awake?
    case Disable => true
  }

  /** A woken thread may leave. */
  predicate Released(s: System, t: nat)
    requires t < |s.threads|
  {
    s.threads[t].condition.Awake? && Opened(s.fields, s.threads[t].condition.gen)
  }

  ghost function Do(s: System, step: Step): System
    requires Enabled(s, step) && |s.arrived| == s.fields.generation + 1
  {
    var b := s.fields;
    match step
    case Enter(t) =>
      var x := s.threads[t];
      if b.broken then s
      else
        var counted := s.arrived[b.generation := s.arrived[b.generation] + 1];
        if Completes(b) then
          System(Arrive(b), NotifyAll(s.threads[t := x.(entered := x.entered + 1, left := x.left + 1)]), counted + [0])
        else
          System(Arrive(b), s.threads[t := x.(condition := Asleep(b.generation), entered := x.entered + 1)], counted)
    case Wake(t) => s.(threads := s.threads[t := WakeUp(s.threads[t])])
    case Look(t) =>
      var x := s.threads[t];
      if Released(s, t) then s.(threads := s.threads[t := x.(condition := Free, left := x.left + 1)])
      else s.(threads := s.threads[t := x.(condition := Asleep(x.condition.gen))])
    case Disable =>
      if b.waiting > 0 then System(Abort(b), NotifyAll(s.threads), s.arrived + [0])
      else s.(fields := Abort(b))
  }

  ghost function Init(parties: nat, n: nat): System {
    System(Fields(parties, 0, 0, false), seq(n, t => Thread(Free, 0, 0)), [0])
  }

  // ----- counting the blocked -------------------------------------------------------------

  predicate BlockedIn(x: Thread, gen: nat) {
    !x.condition.Free? && x.condition.gen == gen
  }

  /** How many of the first `n` threads are blocked in a generation. */
  ghost function Blocked(threads: seq<Thread>, gen: nat, n: nat): nat
    requires n <= |threads|
  {
    if n == 0 then 0 else Blocked(threads, gen, n - 1) + if BlockedIn(threads[n - 1], gen) then 1 else 0
  }

  lemma {:induction false} BlockedSame(s: seq<Thread>, t: seq<Thread>, gen: nat, n: nat)
    requires n <= |s| == |t| && forall k: nat :: k < n ==> BlockedIn(s[k], gen) == BlockedIn(t[k], gen)
    ensures Blocked(s, gen, n) == Blocked(t, gen, n)
  {
    hide BlockedIn;
    if n > 0 { BlockedSame(s, t, gen, n - 1); }
  }

  lemma {:induction false} BlockedMore(s: seq<Thread>, t: seq<Thread>, gen: nat, n: nat, at: nat)
    requires at < n <= |s| == |t| && !BlockedIn(s[at], gen) && BlockedIn(t[at], gen)
    requires forall k: nat :: k < n && k != at ==> BlockedIn(s[k], gen) == BlockedIn(t[k], gen)
    ensures Blocked(t, gen, n) == Blocked(s, gen, n) + 1
  {
    hide BlockedIn;
    if at == n - 1 { BlockedSame(s, t, gen, n - 1); } else { BlockedMore(s, t, gen, n - 1, at); }
  }

  lemma {:induction false} BlockedNone(s: seq<Thread>, gen: nat, n: nat)
    requires n <= |s|
    ensures Blocked(s, gen, n) == 0 <==> forall k: nat :: k < n ==> !BlockedIn(s[k], gen)
  {
    hide BlockedIn;
    if n > 0 { BlockedNone(s, gen, n - 1); }
  }

  lemma {:induction false} BlockedAtMost(s: seq<Thread>, gen: nat, n: nat)
    requires n <= |s|
    ensures Blocked(s, gen, n) <= n
    ensures Blocked(s, gen, n) == n ==> forall k: nat :: k < n ==> BlockedIn(s[k], gen)
  {
    hide BlockedIn;
    if n > 0 { BlockedAtMost(s, gen, n - 1); }
  }

  /** All but one are blocked. */
  lemma {:induction false} AllOthersBlocked(s: seq<Thread>, gen: nat, n: nat, at: nat, k: nat)
    requires at < n <= |s| && !BlockedIn(s[at], gen) && Blocked(s, gen, n) + 1 == n && k < n && k != at
    ensures BlockedIn(s[k], gen)
  {
    hide BlockedIn;
    BlockedAtMost(s, gen, n - 1);
    if at < n - 1 && k < n - 1 { AllOthersBlocked(s, gen, n - 1, at, k); }
  }

  // ----- what every step keeps --------------------------------------------------------------

  /** Nobody sleeps in a past generation, and nobody is in a future one. */
  ghost predicate InTime(x: Thread, generation: nat) {
    && (x.condition.Asleep? ==> x.condition.gen == generation)
    && (x.condition.Awake? ==> x.condition.gen <= generation)
  }

  /** While the barrier works, `waiting` counts the threads blocked in the current
      generation, fewer than all parties, and every past generation was complete.
      Once it is disabled nobody is blocked in the current generation. */
  ghost predicate Inv(s: System) {
    var b := s.fields;
    && b.parties > 0 && |s.arrived| == b.generation + 1
    && (forall t :: 0 <= t < |s.threads| ==> InTime(s.threads[t], b.generation))
    && (!b.broken ==>
          && b.waiting == Blocked(s.threads, b.generation, |s.threads|) < b.parties
          && s.arrived[b.generation] == b.waiting
          && forall g :: 0 <= g < b.generation ==> s.arrived[g] == b.parties)
    && (b.broken ==> forall t :: 0 <= t < |s.threads| ==> !BlockedIn(s.threads[t], b.generation))
  }

  lemma InvInit(parties: nat, n: nat)
    requires parties > 0
    ensures Inv(Init(parties, n))
  {
    BlockedNone(Init(parties, n).threads, 0, n);
  }

  lemma NotifiedInTime(threads: seq<Thread>, generation: nat)
    requires forall t :: 0 <= t < |threads| ==> InTime(threads[t], generation)
    ensures forall t :: 0 <= t < |threads| ==>
      InTime(NotifyAll(threads)[t], generation + 1) && !BlockedIn(NotifyAll(threads)[t], generation + 1)
  {
    forall t | 0 <= t < |threads|
      ensures InTime(NotifyAll(threads)[t], generation + 1) && !BlockedIn(NotifyAll(threads)[t], generation + 1)
    {
      assert InTime(threads[t], generation);
    }
  }

  lemma EnterKeeps(s: System, t: nat)
    requires Inv(s) && Enabled(s, Enter(t))
    ensures Inv(Do(s, Enter(t)))
  {
    var b, x := s.fields, s.threads[t];
    if !b.broken {
      if Completes(b) {
        var threads := s.threads[t := x.(entered := x.entered + 1, left := x.left + 1)];
        NotifiedInTime(threads, b.generation);
        BlockedNone(NotifyAll(threads), b.generation + 1, |threads|);
        hide Blocked, InTime, NotifyAll;
      } else {
        var threads := s.threads[t := x.(condition := Asleep(b.generation), entered := x.entered + 1)];
        BlockedMore(s.threads, threads, b.generation, |threads|, t);
        hide Blocked;
      }
    }
  }

  lemma WakeKeeps(s: System, t: nat)
    requires Inv(s) && Enabled(s, Wake(t))
    ensures Inv(Do(s, Wake(t)))
  {
    var threads := s.threads[t := WakeUp(s.threads[t])];
    BlockedSame(s.threads, threads, s.fields.generation, |threads|);
    hide Blocked;
  }

  lemma LookKeeps(s: System, t: nat)
    requires Inv(s) && Enabled(s, Look(t))
    ensures Inv(Do(s, Look(t)))
  {
    var r := Do(s, Look(t));
    assert InTime(s.threads[t], s.fields.generation);
    BlockedSame(s.threads, r.threads, s.fields.generation, |s.threads|);
    hide Blocked;
  }

  lemma DisableKeeps(s: System)
    requires Inv(s)
    ensures Inv(Do(s, Disable))
  {
    var b := s.fields;
    if b.waiting > 0 {
      NotifiedInTime(s.threads, b.generation);
    } else if !b.broken {
      BlockedNone(s.threads, b.generation, |s.threads|);
    }
    hide Blocked, NotifyAll, InTime;
  }

  /** Every atomic step of every thread keeps the invariant. */
  lemma StepKeeps(s: System, step: Step)
    requires Inv(s) && Enabled(s, step)
    ensures Inv(Do(s, step))
  {
    hide Inv, Enabled, Do;
    match step
    case Enter(t) => EnterKeeps(s, t);
    case Wake(t) => WakeKeeps(s, t);
    case Look(t) => LookKeeps(s, t);
    case Disable => DisableKeeps(s);
  }

  /** A thread leaves before all parties have arrived in its generation only when
      the barrier has been disabled. */
  lemma LeavesWhenComplete(s: System, t: nat)
    requires Inv(s) && t < |s.threads| && Released(s, t)
    ensures s.threads[t].condition.gen < s.fields.generation
    ensures s.fields.broken || s.arrived[s.threads[t].condition.gen] == s.fields.parties
  {
    assert InTime(s.threads[t], s.fields.generation);
    hide Blocked;
  }

  /** After the barrier is disabled nobody is blocked: who sleeps has been woken up,
      who is awake may leave, and who arrives does not stop. */
  lemma DisabledReleases(s: System, t: nat)
    requires Inv(s) && s.fields.broken && t < |s.threads|
    ensures !s.threads[t].condition.Asleep?
    ensures s.threads[t].condition.Awake? ==> Released(s, t)
    ensures s.threads[t].condition.Free? ==> Enabled(s, Enter(t)) && Do(s, Enter(t)) == s
  {
    assert InTime(s.threads[t], s.fields.generation) && !BlockedIn(s.threads[t], s.fields.generation);
    hide Blocked;
  }

  // ----- as many threads as parties -------------------------------------------------------

  /** The thread's calls and returns against the generation. */
  ghost predicate InStep(x: Thread, generation: nat) {
    match x.condition
    case Free => x.entered == x.left == generation
    case Asleep(g) => x.entered == g + 1 && x.left == g == generation
    case Awake(g) => x.entered == g + 1 && x.left == g && g <= generation <= g + 1
  }

  ghost predicate Synced(s: System) {
    && |s.threads| == s.fields.parties
    && (!s.fields.broken ==> forall t :: 0 <= t < |s.threads| ==> InStep(s.threads[t], s.fields.generation))
  }

  lemma EnterSynced(s: System, t: nat)
    requires Inv(s) && Synced(s) && Enabled(s, Enter(t)) && !s.fields.broken
    ensures Synced(Do(s, Enter(t)))
  {
    var b, x := s.fields, s.threads[t];
    var r := Do(s, Enter(t));
    assert InStep(x, b.generation);
    forall k: nat | k < |s.threads| ensures InStep(r.threads[k], r.fields.generation) {
      assert InStep(s.threads[k], b.generation);
      if Completes(b) && k != t {
        AllOthersBlocked(s.threads, b.generation, |s.threads|, t, k);
      }
      hide Blocked, Inv;
    }
  }

  /** With as many threads as parties every thread takes part in every generation. */
  lemma StepSynced(s: System, step: Step)
    requires Inv(s) && Synced(s) && Enabled(s, step)
    ensures Synced(Do(s, step))
  {
    if step.Enter? && !s.fields.broken {
      EnterSynced(s, step.t);
    } else {
      hide Blocked, NotifyAll;
      if !step.Disable? {
        assert !s.fields.broken ==> InStep(s.threads[step.t], s.fields.generation) && InTime(s.threads[step.t], s.fields.generation);
      }
    }
  }

  /** No thread has returned from `wait` more often than any other has called it. */
  lemma NobodyAhead(s: System, t: nat, u: nat)
    requires Synced(s) && !s.fields.broken && t < |s.threads| && u < |s.threads|
    ensures s.threads[t].left <= s.threads[u].entered <= s.threads[u].left + 1
  {
    assert InStep(s.threads[t], s.fields.generation) && InStep(s.threads[u], s.fields.generation);
  }

  // ----- whole runs -------------------------------------------------------------------------

  ghost predicate Moves(s: System, r: System) {
    |s.arrived| == s.fields.generation + 1 && exists step :: Enabled(s, step) && r == Do(s, step)
  }

  ghost predicate IsRun(parties: nat, n: nat, run: seq<System>) {
    && |run| > 0 && run[0] == Init(parties, n)
    && forall i :: 0 <= i < |run| - 1 ==> Moves(run[i], run[i + 1])
  }

  lemma {:induction false} RunKeeps(parties: nat, n: nat, run: seq<System>, i: nat)
    requires IsRun(parties, n, run) && parties > 0 && i < |run|
    ensures Inv(run[i]) && run[i].fields.parties == parties && |run[i].threads| == n
    ensures n == parties ==> Synced(run[i])
  {
    if i == 0 {
      InvInit(parties, n);
    } else {
      RunKeeps(parties, n, run, i - 1);
      assert Moves(run[i - 1], run[i - 1 + 1]);
      var step :| Enabled(run[i - 1], step) && run[i] == Do(run[i - 1], step);
      StepKeeps(run[i - 1], step);
      if n == parties { StepSynced(run[i - 1], step); }
      StepSizes(run[i - 1], step);
      hide Do, Inv, Enabled, Synced;
    }
  }

  lemma StepSizes(s: System, step: Step)
    requires Enabled(s, step) && |s.arrived| == s.fields.generation + 1
    ensures Do(s, step).fields.parties == s.fields.parties && |Do(s, step).threads| == |s.threads|
  {
  }

  /** In every run of as many threads as parties, spurious wakeups included and as
      long as the barrier is not disabled: a thread returns from its k-th `wait`
      only after every thread has called it k times. */
  lemma Synchronizes(parties: nat, run: seq<System>, i: nat, t: nat, u: nat)
    requires IsRun(parties, parties, run) && parties > 0 && i < |run| && t < parties && u < parties
    requires !run[i].fields.broken
    ensures |run[i].threads| == parties && run[i].threads[t].left <= run[i].threads[u].entered
  {
    RunKeeps(parties, parties, run, i);
    hide IsRun, Inv, Synced;
    NobodyAhead(run[i], t, u);
  }
}
