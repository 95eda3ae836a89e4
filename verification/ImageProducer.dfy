/** Two threads over one barrier: the main thread consumes a batch per step, the
    producer puts a group of batches whenever the main thread has consumed one. */
module ImageProducer {
  import opened Arithmetic
  import opened ThreadBarrier

  // ----- the two threads ----------------------------------------------------------------

  /** Where the main thread is: it consumes, notifies the producer, perhaps waits
      at the barrier, and in the end is done, disables the barrier and joins. */
  datatype Main = Consuming | Notifying | MainArriving | MainWaiting | Aborting | Joining | Ended

  /** The producer's loop: test for the end, put, wait. */
  datatype Producer = Testing | Putting | Arriving | Waiting | Exited

  /** `consumed` counts batches, `puts` groups of batches, `latePuts` those put
      after the main thread was done. */
  datatype State = State(
    barrier: System, main: Main, producer: Producer,
    numGets: nat, consumed: nat, puts: nat, done: bool, latePuts: nat)

  datatype Move =
    | Consume | Notify | MainArrive | MainWake | MainLook | SetDone | AbortBarrier | Join
    | Test | Put | Arrive | ProducerWake | ProducerLook

  const MAIN := 0
  const PRODUCER := 1

  /** The producer has put one group before its thread is started. */
  ghost function Start(): State {
    State(Init(2, 2), Consuming, Testing, 0, 0, 1, false, 0)
  }

  /** Batches that are put and not yet consumed. */
  function Staged(group: nat, s: State): int {
    Times(s.puts, group) - s.consumed
  }

  predicate ShouldPut(group: nat, numGets: nat)
    requires group > 0
  {
    (numGets + 1) % group == 0
  }

  ghost predicate Wired(s: State) {
    |s.barrier.threads| == 2 && |s.barrier.arrived| == s.barrier.fields.generation + 1
  }

  predicate Free(s: State, t: nat)
    requires t < |s.barrier.threads|
  {
    s.barrier.threads[t].condition.Free?
  }

  ghost predicate CanMove(group: nat, s: State, move: Move) {
    && Wired(s)
    && match move
       case Consume => s.main == Consuming && Staged(group, s) > 0
       case Notify => s.main == Notifying
       case MainArrive => s.main == MainArriving && Enabled(s.barrier, Enter(MAIN))
       case MainWake => s.main == MainWaiting && Enabled(s.barrier, Wake(MAIN))
       case MainLook => s.main == MainWaiting && Enabled(s.barrier, Look(MAIN))
       case SetDone => s.main == Consuming
       case AbortBarrier => s.main == Aborting
       case Join => s.main == Joining && s.producer == Exited
       case Test => s.producer == Testing
       case Put => s.producer == Putting
       case Arrive => s.producer == Arriving && Enabled(s.barrier, Enter(PRODUCER))
       case ProducerWake => s.producer == Waiting && Enabled(s.barrier, Wake(PRODUCER))
       case ProducerLook => s.producer == Waiting && Enabled(s.barrier, Look(PRODUCER))
  }

  /** The main thread's step at the barrier: once through, it counts the batch. */
  ghost function MainAt(s: State, r: System): State
    requires |r.threads| == 2
  {
    if r.threads[MAIN].condition.Free?
    then s.(barrier := r, main := Consuming, numGets := s.numGets + 1)
    else s.(barrier := r, main := MainWaiting)
  }

  ghost function ProducerAt(s: State, r: System): State
    requires |r.threads| == 2
  {
    s.(barrier := r, producer := if r.threads[PRODUCER].condition.Free? then Testing else Waiting)
  }

  ghost function BarrierStep(s: State, step: Step): (r: System)
    requires Wired(s) && Enabled(s.barrier, step)
    ensures |r.threads| == 2
  {
    StepSizes(s.barrier, step);
    Do(s.barrier, step)
  }

  ghost function After(group: nat, s: State, move: Move): State
    requires CanMove(group, s, move) && group > 0
  {
    match move
    case Consume => s.(main := Notifying, consumed := s.consumed + 1)
    case Notify =>
      if ShouldPut(group, s.numGets) then s.(main := MainArriving)
      else s.(main := Consuming, numGets := s.numGets + 1)
    case MainArrive => MainAt(s, BarrierStep(s, Enter(MAIN)))
    case MainWake => s.(barrier := BarrierStep(s, Wake(MAIN)))
    case MainLook => MainAt(s, BarrierStep(s, Look(MAIN)))
    case SetDone => s.(main := Aborting, done := true)
    case AbortBarrier => s.(main := Joining, barrier := BarrierStep(s, Disable))
    case Join => s.(main := Ended)
    case Test => s.(producer := if s.done then Exited else Putting)
    case Put => s.(producer := Arriving, puts := s.puts + 1, latePuts := s.latePuts + if s.done then 1 else 0)
    case Arrive => ProducerAt(s, BarrierStep(s, Enter(PRODUCER)))
    case ProducerWake => s.(barrier := BarrierStep(s, Wake(PRODUCER)))
    case ProducerLook => ProducerAt(s, BarrierStep(s, Look(PRODUCER)))
  }

  // ----- arithmetic ---------------------------------------------------------------------

  /** In the `m`-th group the last batch is the one whose number is a multiple. */
  lemma LastOfGroup(m: nat, group: nat, x: nat)
    requires group > 0 && Times(m, group) < x <= Times(m + 1, group)
    ensures x % group == 0 <==> x == Times(m + 1, group)
  {
    TimesNext(m, group);
    assert Times(m, group) == group * m && Times(m + 1, group) == group * (m + 1);
    hide Times;
    if x == Times(m + 1, group) { ModIs(x, group, m + 1, 0); } else { ModIs(x, group, m, x - Times(m, group)); }
  }

  // ----- the invariant ------------------------------------------------------------------

  /** How far the main thread is, in terms of its calls of `wait`. */
  ghost predicate MainLinked(group: nat, s: State, entered: nat) {
    match s.main
    case Consuming => s.consumed == s.numGets && Times(entered, group) <= s.numGets < Times(entered + 1, group) && !s.done
    case Notifying => s.consumed == s.numGets + 1 && Times(entered, group) <= s.numGets < Times(entered + 1, group) && !s.done
    case MainArriving => s.consumed == s.numGets + 1 == Times(entered + 1, group) && !s.done
    case MainWaiting => s.consumed == s.numGets + 1 == Times(entered, group) && !s.done
    case Aborting => s.consumed == s.numGets && Times(entered, group) <= s.numGets < Times(entered + 1, group) && s.done
    case _ => false
  }

  ghost predicate ProducerLinked(s: State, entered: nat) {
    match s.producer
    case Arriving => s.puts == 2 + entered
    case Exited => s.puts == 1 + entered && s.done
    case _ => s.puts == 1 + entered
  }

  ghost predicate BarrierOk(b: System) {
    Inv(b) && Synced(b) && b.fields.parties == 2
  }

  ghost predicate Placed(s: State)
    requires |s.barrier.threads| == 2
  {
    && (Free(s, MAIN) <==> s.main != MainWaiting)
    && (Free(s, PRODUCER) <==> s.producer != Waiting)
  }

  ghost predicate Late(s: State) {
    && s.latePuts <= 1
    && (!s.done || s.producer == Putting ==> s.latePuts == 0)
  }

  ghost predicate Bounded(group: nat, s: State) {
    && Staged(group, s) <= 2 * group
    && (s.producer == Putting ==> Staged(group, s) + group <= 2 * group)
  }

  ghost predicate Ok(group: nat, s: State) {
    && Wired(s) && BarrierOk(s.barrier) && Placed(s) && Late(s) && Bounded(group, s)
    && (!s.barrier.fields.broken ==>
          MainLinked(group, s, s.barrier.threads[MAIN].entered) && ProducerLinked(s, s.barrier.threads[PRODUCER].entered))
    && (s.barrier.fields.broken ==> s.done && (s.main == Joining || s.main == Ended))
  }

  /** While the barrier works, there are at most two groups, and one more for who
      is about to put. */
  lemma LinkedBounded(group: nat, s: State)
    requires Wired(s) && BarrierOk(s.barrier) && Placed(s) && !s.barrier.fields.broken
    requires MainLinked(group, s, s.barrier.threads[MAIN].entered)
    requires ProducerLinked(s, s.barrier.threads[PRODUCER].entered)
    ensures Bounded(group, s)
    ensures s.main == Consuming && group > 0 ==> Staged(group, s) > 0
  {
    var m, p := s.barrier.threads[MAIN], s.barrier.threads[PRODUCER];
    NobodyAhead(s.barrier, MAIN, PRODUCER);
    NobodyAhead(s.barrier, PRODUCER, MAIN);
    assert InStep(m, s.barrier.fields.generation) && InStep(p, s.barrier.fields.generation);
    TimesNext(m.entered, group);
    TimesNext(m.entered + 1, group);
    TimesNext(s.puts, group);
    TimesMono(m.left + 1, s.puts, group);
    assert s.puts <= m.entered + 2 && (s.producer == Putting ==> s.puts <= m.entered + 1);
    TimesMono(s.puts, m.entered + 2, group);
    if s.producer == Putting { TimesMono(s.puts, m.entered + 1, group); }
    hide Times, Inv, Synced;
  }

  lemma OkStart(group: nat)
    requires group > 0
    ensures Ok(group, Start())
  {
    InvInit(2, 2);
    TimesNext(0, group);
    hide Times;
  }

  // ----- steps at the barrier -----------------------------------------------------------

  lemma BarrierKeeps(s: State, step: Step)
    requires Wired(s) && BarrierOk(s.barrier) && Enabled(s.barrier, step)
    ensures BarrierOk(BarrierStep(s, step)) && Wired(s.(barrier := BarrierStep(s, step)))
  {
    StepKeeps(s.barrier, step);
    StepSynced(s.barrier, step);
    StepSizes(s.barrier, step);
    hide Synced, Do, Enabled, Blocked;
  }

  /** What a step of thread `t` does to the two threads. */
  lemma EnterEffect(s: State, t: nat, o: nat)
    requires Wired(s) && BarrierOk(s.barrier) && t < 2 && o == 1 - t && Enabled(s.barrier, Enter(t))
    requires !s.barrier.fields.broken
    ensures var r := BarrierStep(s, Enter(t));
      && r.threads[t].entered == s.barrier.threads[t].entered + 1 && r.threads[o].entered == s.barrier.threads[o].entered
      && r.threads[o].condition.Free? == s.barrier.threads[o].condition.Free? && !r.fields.broken
  {
    hide Inv, Synced;
  }

  lemma BrokenEnterEffect(s: State, t: nat)
    requires Wired(s) && t < 2 && Enabled(s.barrier, Enter(t)) && s.barrier.fields.broken
    ensures BarrierStep(s, Enter(t)) == s.barrier
  {
  }

  lemma WakeEffect(s: State, t: nat, o: nat)
    requires Wired(s) && t < 2 && o == 1 - t && Enabled(s.barrier, Wake(t))
    ensures var r := BarrierStep(s, Wake(t));
      && r.threads[t].entered == s.barrier.threads[t].entered && r.threads[o] == s.barrier.threads[o]
      && !r.threads[t].condition.Free? && r.fields == s.barrier.fields
  {
  }

  lemma LookEffect(s: State, t: nat, o: nat)
    requires Wired(s) && t < 2 && o == 1 - t && Enabled(s.barrier, Look(t))
    ensures var r := BarrierStep(s, Look(t));
      && r.threads[t].entered == s.barrier.threads[t].entered && r.threads[o] == s.barrier.threads[o]
      && r.fields == s.barrier.fields
  {
  }

  lemma DisableEffect(s: State, t: nat)
    requires Wired(s) && t < 2
    ensures var r := BarrierStep(s, Disable);
      r.fields.broken && r.threads[t].condition.Free? == s.barrier.threads[t].condition.Free?
  {
  }

  // ----- every move keeps the invariant -------------------------------------------------

  lemma OkIf(group: nat, s: State)
    requires Wired(s) && BarrierOk(s.barrier) && Placed(s) && Late(s) && !s.barrier.fields.broken
    requires MainLinked(group, s, s.barrier.threads[MAIN].entered)
    requires ProducerLinked(s, s.barrier.threads[PRODUCER].entered)
    ensures Ok(group, s)
  {
    LinkedBounded(group, s);
    hide BarrierOk, Bounded, MainLinked, ProducerLinked, Placed, Late;
  }

  lemma ConsumeKeeps(group: nat, s: State)
    requires group > 0 && Ok(group, s) && CanMove(group, s, Consume)
    ensures Ok(group, After(group, s, Consume))
  {
    hide BarrierOk, Times;
    OkIf(group, After(group, s, Consume));
  }

  lemma NotifyKeeps(group: nat, s: State)
    requires group > 0 && Ok(group, s) && CanMove(group, s, Notify)
    ensures Ok(group, After(group, s, Notify))
  {
    LastOfGroup(s.barrier.threads[MAIN].entered, group, s.numGets + 1);
    hide BarrierOk, Times;
    OkIf(group, After(group, s, Notify));
  }

  lemma MainArriveKeeps(group: nat, s: State)
    requires group > 0 && Ok(group, s) && CanMove(group, s, MainArrive)
    ensures Ok(group, After(group, s, MainArrive))
  {
    var m := s.barrier.threads[MAIN].entered;
    BarrierKeeps(s, Enter(MAIN));
    EnterEffect(s, MAIN, PRODUCER);
    TimesNext(m + 1, group);
    hide BarrierOk, Times, BarrierStep, Enabled;
    OkIf(group, After(group, s, MainArrive));
  }

  lemma MainWakeKeeps(group: nat, s: State)
    requires group > 0 && Ok(group, s) && CanMove(group, s, MainWake)
    ensures Ok(group, After(group, s, MainWake))
  {
    BarrierKeeps(s, Wake(MAIN));
    WakeEffect(s, MAIN, PRODUCER);
    hide BarrierOk, Times, BarrierStep, Enabled;
    OkIf(group, After(group, s, MainWake));
  }

  lemma MainLookKeeps(group: nat, s: State)
    requires group > 0 && Ok(group, s) && CanMove(group, s, MainLook)
    ensures Ok(group, After(group, s, MainLook))
  {
    BarrierKeeps(s, Look(MAIN));
    LookEffect(s, MAIN, PRODUCER);
    TimesNext(s.barrier.threads[MAIN].entered, group);
    hide BarrierOk, Times, BarrierStep, Enabled;
    OkIf(group, After(group, s, MainLook));
  }

  lemma SetDoneKeeps(group: nat, s: State)
    requires group > 0 && Ok(group, s) && CanMove(group, s, SetDone)
    ensures Ok(group, After(group, s, SetDone))
  {
    hide BarrierOk, Times;
    OkIf(group, After(group, s, SetDone));
  }

  lemma AbortKeeps(group: nat, s: State)
    requires group > 0 && Ok(group, s) && CanMove(group, s, AbortBarrier)
    ensures Ok(group, After(group, s, AbortBarrier))
  {
    BarrierKeeps(s, Disable);
    DisableEffect(s, MAIN);
    DisableEffect(s, PRODUCER);
    hide BarrierOk, Times, BarrierStep;
  }

  lemma TestKeeps(group: nat, s: State)
    requires group > 0 && Ok(group, s) && CanMove(group, s, Test)
    ensures Ok(group, After(group, s, Test))
  {
    hide BarrierOk, Times;
    if !s.barrier.fields.broken { OkIf(group, After(group, s, Test)); }
  }

  lemma PutKeeps(group: nat, s: State)
    requires group > 0 && Ok(group, s) && CanMove(group, s, Put)
    ensures Ok(group, After(group, s, Put))
  {
    TimesNext(s.puts, group);
    hide BarrierOk, Times;
    if !s.barrier.fields.broken { OkIf(group, After(group, s, Put)); }
  }

  lemma ArriveKeeps(group: nat, s: State)
    requires group > 0 && Ok(group, s) && CanMove(group, s, Move.Arrive)
    ensures Ok(group, After(group, s, Move.Arrive))
  {
    BarrierKeeps(s, Enter(PRODUCER));
    if s.barrier.fields.broken {
      BrokenEnterEffect(s, PRODUCER);
      hide BarrierOk, Times, BarrierStep;
    } else {
      EnterEffect(s, PRODUCER, MAIN);
      hide BarrierOk, Times, BarrierStep, Enabled;
      OkIf(group, After(group, s, Move.Arrive));
    }
  }

  lemma ProducerWakeKeeps(group: nat, s: State)
    requires group > 0 && Ok(group, s) && CanMove(group, s, ProducerWake)
    ensures Ok(group, After(group, s, ProducerWake))
  {
    BarrierKeeps(s, Wake(PRODUCER));
    WakeEffect(s, PRODUCER, MAIN);
    hide BarrierOk, Times, BarrierStep, Enabled;
    if !s.barrier.fields.broken { OkIf(group, After(group, s, ProducerWake)); }
  }

  lemma ProducerLookKeeps(group: nat, s: State)
    requires group > 0 && Ok(group, s) && CanMove(group, s, ProducerLook)
    ensures Ok(group, After(group, s, ProducerLook))
  {
    BarrierKeeps(s, Look(PRODUCER));
    LookEffect(s, PRODUCER, MAIN);
    hide BarrierOk, Times, BarrierStep, Enabled;
    if !s.barrier.fields.broken { OkIf(group, After(group, s, ProducerLook)); }
  }

  lemma JoinKeeps(group: nat, s: State)
    requires group > 0 && Ok(group, s) && CanMove(group, s, Join)
    ensures Ok(group, After(group, s, Join))
  {
    hide BarrierOk, Times;
  }

  lemma MoveKeeps(group: nat, s: State, move: Move)
    requires group > 0 && Ok(group, s) && CanMove(group, s, move)
    ensures Ok(group, After(group, s, move))
  {
    hide Ok, CanMove, After;
    match move
    case Consume => ConsumeKeeps(group, s);
    case Notify => NotifyKeeps(group, s);
    case MainArrive => MainArriveKeeps(group, s);
    case MainWake => MainWakeKeeps(group, s);
    case MainLook => MainLookKeeps(group, s);
    case SetDone => SetDoneKeeps(group, s);
    case AbortBarrier => AbortKeeps(group, s);
    case Join => JoinKeeps(group, s);
    case Test => TestKeeps(group, s);
    case Put => PutKeeps(group, s);
    case Arrive => ArriveKeeps(group, s);
    case ProducerWake => ProducerWakeKeeps(group, s);
    case ProducerLook => ProducerLookKeeps(group, s);
  }

  // ----- whole runs ---------------------------------------------------------------------

  ghost predicate Moves(group: nat, s: State, r: State)
    requires group > 0
  {
    exists move :: CanMove(group, s, move) && r == After(group, s, move)
  }

  ghost predicate IsRun(group: nat, run: seq<State>)
    requires group > 0
  {
    && |run| > 0 && run[0] == Start()
    && forall i :: 0 <= i < |run| - 1 ==> Moves(group, run[i], run[i + 1])
  }

  lemma {:induction false} RunKeeps(group: nat, run: seq<State>, i: nat)
    requires group > 0 && IsRun(group, run) && i < |run|
    ensures Ok(group, run[i])
  {
    hide Ok, After, Start;
    if i == 0 {
      OkStart(group);
    } else {
      RunKeeps(group, run, i - 1);
      assert Moves(group, run[i - 1], run[i - 1 + 1]);
      var move :| CanMove(group, run[i - 1], move) && run[i] == After(group, run[i - 1], move);
      hide CanMove;
      MoveKeeps(group, run[i - 1], move);
    }
  }

  /** In every run: whenever the main thread wants a batch there is one, never more
      than two groups are unconsumed, and after the main thread is done the
      producer puts at most once more. */
  lemma ProducesInTime(group: nat, run: seq<State>, i: nat)
    requires group > 0 && IsRun(group, run) && i < |run|
    ensures run[i].main == Consuming ==> Staged(group, run[i]) > 0 && CanMove(group, run[i], Consume)
    ensures Staged(group, run[i]) <= 2 * group
    ensures run[i].latePuts <= 1
  {
    RunKeeps(group, run, i);
    var s := run[i];
    if s.main == Consuming { LinkedBounded(group, s); }
    hide IsRun, BarrierOk, Times;
  }

  // ----- the end ------------------------------------------------------------------------

  /** How many steps the producer still makes, once the barrier is disabled. */
  function StepsLeft(p: Producer): nat {
    match p
    case Putting => 4
    case Arriving => 3
    case Waiting => 2
    case Testing => 1
    case Exited => 0
  }

  predicate OfProducer(move: Move) {
    move.Test? || move.Put? || move.Arrive? || move.ProducerWake? || move.ProducerLook?
  }

  /** `join` returns: once the barrier is disabled the producer can always step
      until it has exited, and every step it makes brings that nearer. */
  lemma JoinReturns(group: nat, s: State) returns (move: Move)
    requires group > 0 && Ok(group, s) && s.barrier.fields.broken && s.producer != Exited
    ensures OfProducer(move) && CanMove(group, s, move)
    ensures forall m :: OfProducer(m) && CanMove(group, s, m) ==> StepsLeft(After(group, s, m).producer) < StepsLeft(s.producer)
  {
    DisabledReleases(s.barrier, PRODUCER);
    if s.producer == Arriving { BrokenEnterEffect(s, PRODUCER); }
    if s.producer == Waiting { ReleasedLeaves(s, PRODUCER); }
    hide Inv, Synced, BarrierStep, Released;
    move := match s.producer case Putting => Put case Arriving => Move.Arrive case Waiting => ProducerLook case _ => Test;
  }

  lemma ReleasedLeaves(s: State, t: nat)
    requires Wired(s) && t < 2 && Released(s.barrier, t)
    ensures Enabled(s.barrier, Look(t)) && !Enabled(s.barrier, Wake(t)) && BarrierStep(s, Look(t)).threads[t].condition.Free?
  {
  }

  /** A thread in `wait` may leave, or the other one is not blocked there too. */
  lemma NotBothBlocked(s: State)
    requires Wired(s) && BarrierOk(s.barrier) && !s.barrier.fields.broken
    ensures !BlockedIn(s.barrier.threads[MAIN], s.barrier.fields.generation)
      || !BlockedIn(s.barrier.threads[PRODUCER], s.barrier.fields.generation)
  {
    var ts, g := s.barrier.threads, s.barrier.fields.generation;
    assert Blocked(ts, g, 2) == Blocked(ts, g, 1) + if BlockedIn(ts[1], g) then 1 else 0;
    assert Blocked(ts, g, 1) == Blocked(ts, g, 0) + if BlockedIn(ts[0], g) then 1 else 0;
  }

  /** Neither wakes up for nothing, nor looks and goes back to sleep. */
  ghost predicate Proper(s: State, move: Move)
    requires Wired(s)
  {
    && !move.MainWake? && !move.ProducerWake?
    && (move.MainLook? ==> Released(s.barrier, MAIN)) && (move.ProducerLook? ==> Released(s.barrier, PRODUCER))
  }

  lemma UnblockedIsReleased(s: State, t: nat)
    requires Wired(s) && BarrierOk(s.barrier) && t < 2 && !Free(s, t)
    requires !BlockedIn(s.barrier.threads[t], s.barrier.fields.generation)
    ensures Released(s.barrier, t) && Enabled(s.barrier, Look(t))
  {
    assert InTime(s.barrier.threads[t], s.barrier.fields.generation);
    hide Blocked, Synced;
  }

  /** The two threads never deadlock: until both have ended, one of them can make
      a real step, spurious wakeups aside. */
  lemma SomebodyCanMove(group: nat, s: State) returns (move: Move)
    requires group > 0 && Ok(group, s) && !(s.main == Ended && s.producer == Exited)
    ensures CanMove(group, s, move) && Proper(s, move)
  {
    hide BarrierOk, Times, Released;
    if s.barrier.fields.broken {
      if s.producer == Exited {
        move := Join;
      } else {
        DisabledProper(s);
        move := match s.producer case Putting => Put case Arriving => Move.Arrive case Waiting => ProducerLook case _ => Test;
      }
    } else {
      NotBothBlocked(s);
      if s.main != MainWaiting {
        if s.main == Consuming { LinkedBounded(group, s); }
        move := match s.main case Consuming => Consume case Notifying => Notify case MainArriving => MainArrive case _ => AbortBarrier;
      } else if !BlockedIn(s.barrier.threads[MAIN], s.barrier.fields.generation) {
        UnblockedIsReleased(s, MAIN);
        move := MainLook;
      } else {
        if s.producer == Waiting { UnblockedIsReleased(s, PRODUCER); }
        move := match s.producer case Putting => Put case Arriving => Move.Arrive case Waiting => ProducerLook case _ => Test;
      }
    }
  }

  lemma DisabledProper(s: State)
    requires Wired(s) && BarrierOk(s.barrier) && s.barrier.fields.broken
    ensures !Free(s, PRODUCER) ==> Released(s.barrier, PRODUCER) && Enabled(s.barrier, Look(PRODUCER))
  {
    DisabledReleases(s.barrier, PRODUCER);
    hide Inv, Synced;
  }

  // ----- the threads come to an end -----------------------------------------------------

  /** How many steps both threads still make, once the barrier is disabled. */
  function Remaining(s: State): nat {
    StepsLeft(s.producer) + if s.main == Joining then 1 else 0
  }

  lemma StaysDisabled(s: System, step: Step)
    requires Enabled(s, step) && |s.arrived| == s.fields.generation + 1 && s.fields.broken
    ensures Do(s, step).fields.broken
  {
  }

  /** After the barrier is disabled a producer's step concerns nothing else. */
  lemma DisabledProducer(group: nat, s: State, move: Move)
    requires group > 0 && CanMove(group, s, move) && OfProducer(move) && s.barrier.fields.broken
    ensures After(group, s, move).main == s.main && After(group, s, move).barrier.fields.broken
    ensures s.producer != Exited
  {
    if move.Arrive? { StaysDisabled(s.barrier, Enter(PRODUCER)); }
    if move.ProducerWake? { StaysDisabled(s.barrier, Wake(PRODUCER)); }
    if move.ProducerLook? { StaysDisabled(s.barrier, Look(PRODUCER)); }
    hide Do, Enabled;
  }

  lemma OnlyJoinLeft(group: nat, s: State, move: Move)
    requires group > 0 && Ok(group, s) && CanMove(group, s, move) && !OfProducer(move) && s.barrier.fields.broken
    ensures move == Join && After(group, s, move) == s.(main := Ended) && s.main == Joining
  {
    hide BarrierOk, Times, Enabled;
  }

  lemma DisabledDescends(group: nat, s: State, move: Move)
    requires group > 0 && Ok(group, s) && CanMove(group, s, move) && s.barrier.fields.broken
    ensures After(group, s, move).barrier.fields.broken && Remaining(After(group, s, move)) < Remaining(s)
  {
    hide Ok, CanMove, After;
    if OfProducer(move) {
      DisabledProducer(group, s, move);
      var m := JoinReturns(group, s);
    } else {
      OnlyJoinLeft(group, s, move);
    }
  }

  lemma {:induction false} DisabledSteps(group: nat, run: seq<State>, i: nat, j: nat)
    requires group > 0 && IsRun(group, run) && i <= j < |run| && run[i].barrier.fields.broken
    ensures run[j].barrier.fields.broken && j - i + Remaining(run[j]) <= Remaining(run[i])
  {
    hide Ok, After, Start, CanMove, Remaining;
    if i < j {
      DisabledSteps(group, run, i, j - 1);
      RunKeeps(group, run, j - 1);
      assert Moves(group, run[j - 1], run[j - 1 + 1]);
      var move :| CanMove(group, run[j - 1], move) && run[j] == After(group, run[j - 1], move);
      DisabledDescends(group, run[j - 1], move);
    }
  }

  ghost predicate Stuck(group: nat, s: State) {
    forall move :: !CanMove(group, s, move)
  }

  /** `done` returns: in every run, from when the barrier is disabled, there are at most
      five more steps, and where no step is left both threads have ended. */
  lemma BothThreadsEnd(group: nat, run: seq<State>, i: nat)
    requires group > 0 && IsRun(group, run) && i < |run| && run[i].barrier.fields.broken
    ensures |run| - 1 - i <= Remaining(run[i]) <= 5
    ensures Stuck(group, run[|run| - 1]) ==>
      run[|run| - 1].main == Ended && run[|run| - 1].producer == Exited
  {
    DisabledSteps(group, run, i, |run| - 1);
    RunKeeps(group, run, |run| - 1);
    var s := run[|run| - 1];
    hide Ok, IsRun, CanMove, Proper;
    if !(s.main == Ended && s.producer == Exited) { var move := SomebodyCanMove(group, s); }
  }
}
