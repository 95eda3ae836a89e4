/** The step barrier between workers: one bounded queue of anonymous tokens per
    worker.  In every round a worker adds a token to each other queue and takes
    as many tokens as there are other workers from its own. */
module SyncQueues {
  import opened Arithmetic

  // ----- the operations a worker groups into its barrier ----------------------

  datatype Op = NoOp | Enqueue(queue: nat) | DequeueMany(count: nat)

  function Entry(task: nat, i: nat): Op { if i == task then NoOp else Enqueue(i) }

  function Entries(task: nat, n: nat): seq<Op> { seq(n, (i: nat) => Entry(task, i)) }

  lemma EntriesNext(task: nat, n: nat)
    ensures Entries(task, 0) == [] && Entries(task, n + 1) == Entries(task, n) + [Entry(task, n)]
  {
  }

  /** One entry for every queue, then draining the worker's own. */
  ghost function GroupOps(task: nat, workers: nat): seq<Op>
    requires task < workers
  {
    Entries(task, workers) + [DequeueMany(workers - 1)]
  }

  /** How many tokens these operations add to queue `v`. */
  ghost function Gives(ops: seq<Op>, v: nat): nat { multiset(ops)[Enqueue(v)] }

  /** How many tokens they take from the worker's own queue. */
  ghost function Takes(ops: seq<Op>): nat {
    if ops == [] then 0
    else
      var last := ops[|ops| - 1];
      Takes(ops[..|ops| - 1]) + if last.DequeueMany? then last.count else 0
  }

  class Benchmark {
    const numWorkers: nat
    const taskIndex: nat
    const devices: nat
    var syncQueueCounter: nat

    constructor (numWorkers: nat, taskIndex: nat, devices: nat)
      requires taskIndex < numWorkers && devices > 0
      ensures this.numWorkers == numWorkers && this.taskIndex == taskIndex && this.devices == devices
      ensures syncQueueCounter == 0
    {
      this.numWorkers, this.taskIndex, this.devices := numWorkers, taskIndex, devices;
      syncQueueCounter := 0;
    }

    /** Builds the barrier of one place in the program.  Its queues live on the
        next of the devices, in turn. */
    method AddSyncQueuesAndBarrier() returns (device: nat, ops: seq<Op>)
      requires taskIndex < numWorkers && devices > 0
      modifies this`syncQueueCounter
      ensures syncQueueCounter == old(syncQueueCounter) + 1
      ensures device == syncQueueCounter % devices
      ensures ops == GroupOps(taskIndex, numWorkers) && |ops| == numWorkers + 1
      ensures forall v: nat :: multiset(ops)[Enqueue(v)] == if v < numWorkers && v != taskIndex then 1 else 0
      ensures forall k: nat :: multiset(ops)[DequeueMany(k)] == if k == numWorkers - 1 then 1 else 0
    {
      syncQueueCounter := syncQueueCounter + 1;
      device := syncQueueCounter % devices;
      ops := [];
      for i := 0 to numWorkers
        invariant |ops| == i
        invariant forall j :: 0 <= j < i ==> ops[j] == Entry(taskIndex, j)
      {
        if i == taskIndex {
          ops := ops + [NoOp];
        } else {
          ops := ops + [Enqueue(i)];
        }
      }
      ops := ops + [DequeueMany(numWorkers - 1)];
      assert ops == GroupOps(taskIndex, numWorkers);
      hide *;
      OpsAre(taskIndex, numWorkers);
    }
  }

  lemma AddOp(ops: seq<Op>, op: Op, x: Op)
    ensures multiset(ops + [op])[x] == multiset(ops)[x] + if x == op then 1 else 0
    ensures Takes(ops + [op]) == Takes(ops) + if op.DequeueMany? then op.count else 0
  {
    assert (ops + [op])[..|ops|] == ops;
  }

  /** How often an operation is among the first `n` entries. */
  function Occurs(task: nat, n: nat, x: Op): nat {
    match x
    case NoOp => if task < n then 1 else 0
    case Enqueue(v) => if v < n && v != task then 1 else 0
    case DequeueMany(_) => 0
  }

  lemma OccursNext(task: nat, n: nat, x: Op)
    ensures Occurs(task, n + 1, x) == Occurs(task, n, x) + if x == Entry(task, n) then 1 else 0
    ensures Occurs(task, 0, x) == 0 && !Entry(task, n).DequeueMany?
  {
  }

  lemma NoOps(x: Op)
    ensures var ops: seq<Op> := []; multiset(ops)[x] == 0 && Takes(ops) == 0
  {
  }

  lemma {:induction false} EntriesAre(task: nat, n: nat, x: Op)
    ensures multiset(Entries(task, n))[x] == Occurs(task, n, x) && Takes(Entries(task, n)) == 0
  {
    hide *;
    EntriesNext(task, if n > 0 then n - 1 else 0);
    OccursNext(task, if n > 0 then n - 1 else 0, x);
    if n > 0 {
      EntriesAre(task, n - 1, x);
      AddOp(Entries(task, n - 1), Entry(task, n - 1), x);
    } else {
      NoOps(x);
    }
  }

  /** Each other queue is given exactly one token, and the own queue no token. */
  lemma GivesAre(task: nat, workers: nat, v: nat)
    requires task < workers
    ensures Gives(GroupOps(task, workers), v) == if v < workers && v != task then 1 else 0
  {
    var entries := Entries(task, workers);
    EntriesAre(task, workers, Enqueue(v));
    AddOp(entries, DequeueMany(workers - 1), Enqueue(v));
    hide Entries, Takes;
  }

  lemma TakesAre(task: nat, workers: nat)
    requires task < workers
    ensures Takes(GroupOps(task, workers)) == workers - 1
  {
    var entries := Entries(task, workers);
    EntriesAre(task, workers, NoOp);
    AddOp(entries, DequeueMany(workers - 1), NoOp);
    hide Entries, Takes;
  }

  /** There is one operation that takes, and it takes one token for each other worker. */
  lemma TakesOnce(task: nat, workers: nat, k: nat)
    requires task < workers
    ensures multiset(GroupOps(task, workers))[DequeueMany(k)] == if k == workers - 1 then 1 else 0
  {
    var entries := Entries(task, workers);
    EntriesAre(task, workers, DequeueMany(k));
    AddOp(entries, DequeueMany(workers - 1), DequeueMany(k));
    hide Entries, Takes;
  }

  lemma OpsAre(task: nat, workers: nat)
    requires task < workers
    ensures |GroupOps(task, workers)| == workers + 1
    ensures forall v: nat :: multiset(GroupOps(task, workers))[Enqueue(v)] == if v < workers && v != task then 1 else 0
    ensures forall k: nat :: multiset(GroupOps(task, workers))[DequeueMany(k)] == if k == workers - 1 then 1 else 0
  {
    forall v: nat ensures multiset(GroupOps(task, workers))[Enqueue(v)] == if v < workers && v != task then 1 else 0 {
      GivesAre(task, workers, v);
    }
    forall k: nat ensures multiset(GroupOps(task, workers))[DequeueMany(k)] == if k == workers - 1 then 1 else 0 {
      TakesOnce(task, workers, k);
    }
  }

  // ----- the protocol ---------------------------------------------------------

  /** `round` counts completed rounds.  In the current one: is the work that the
      barrier waits for done, how many tokens each queue has been given, and how many
      have been taken. */
  datatype Worker = Worker(round: nat, worked: bool, sent: multiset<nat>, drained: nat)

  datatype State = State(workers: seq<Worker>, queue: seq<nat>)

  datatype Step = Work(w: nat) | Give(w: nat, v: nat) | Take(w: nat, k: nat) | Complete(w: nat)

  ghost function Init(n: nat): State {
    State(seq(n, w => Worker(0, false, multiset{}, 0)), seq(n, w => 0))
  }

  /** Nothing orders the tokens given in one round, and tokens may be taken before
      the work is done.  Taking waits for tokens, giving for room: a queue holds
      no more than `n`.  Every worker takes part in `rounds` rounds. */
  ghost predicate Enabled(n: nat, rounds: nat, s: State, step: Step) {
    && |s.workers| == |s.queue| == n && step.w < n
    && var x := s.workers[step.w];
    && x.round < rounds
    && match step
       case Work(w) => !x.worked
       case Give(w, v) => x.worked && v < n && x.sent[v] < Gives(GroupOps(w, n), v) && s.queue[v] < n
       case Take(w, k) => 1 <= k <= s.queue[w] && x.drained + k <= Takes(GroupOps(w, n))
       case Complete(w) =>
         && x.worked && (forall v: nat :: Gives(GroupOps(w, n), v) <= x.sent[v])
         && Takes(GroupOps(w, n)) <= x.drained
  }

  ghost predicate Fits(s: State, step: Step) {
    && step.w < |s.workers| == |s.queue|
    && (step.Give? ==> step.v < |s.queue|)
    && (step.Take? ==> step.k <= s.queue[step.w])
  }

  ghost function Do(s: State, step: Step): State
    requires Fits(s, step)
  {
    var x := s.workers[step.w];
    match step
    case Work(w) => s.(workers := s.workers[w := x.(worked := true)])
    case Give(w, v) => s.(workers := s.workers[w := x.(sent := x.sent + multiset{v})], queue := s.queue[v := s.queue[v] + 1])
    case Take(w, k) => s.(workers := s.workers[w := x.(drained := x.drained + k)], queue := s.queue[w := s.queue[w] - k])
    case Complete(w) => s.(workers := s.workers[w := Worker(x.round + 1, false, multiset{}, 0)])
  }

  // ----- counting tokens ------------------------------------------------------

  /** The tokens a worker has given to queue `w` in all its rounds. */
  ghost function Given(x: Worker, w: nat): nat {
    x.round + x.sent[w]
  }

  /** The tokens that queue `w` got from the first `n` workers, without its own. */
  ghost function Arrived(ws: seq<Worker>, w: nat, n: nat): nat
    requires n <= |ws|
  {
    if n == 0 then 0 else Arrived(ws, w, n - 1) + if n - 1 == w then 0 else Given(ws[n - 1], w)
  }

  /** How many of the first `n` workers are not `w`. */
  function Others(n: nat, w: nat): nat { if w < n then n - 1 else n }

  lemma {:induction false} ArrivedSame(ws: seq<Worker>, vs: seq<Worker>, w: nat, n: nat)
    requires n <= |ws| == |vs| && forall v: nat :: v < n && v != w ==> Given(ws[v], w) == Given(vs[v], w)
    ensures Arrived(ws, w, n) == Arrived(vs, w, n)
  {
    if n > 0 { ArrivedSame(ws, vs, w, n - 1); }
  }

  lemma {:induction false} ArrivedMore(ws: seq<Worker>, vs: seq<Worker>, w: nat, u: nat, n: nat)
    requires u < n <= |ws| == |vs| && u != w && Given(vs[u], w) == Given(ws[u], w) + 1
    requires forall v: nat :: v < n && v != w && v != u ==> Given(ws[v], w) == Given(vs[v], w)
    ensures Arrived(vs, w, n) == Arrived(ws, w, n) + 1
  {
    if u == n - 1 { ArrivedSame(ws, vs, w, n - 1); } else { ArrivedMore(ws, vs, w, u, n - 1); }
  }

  lemma {:induction false} ArrivedAtMost(ws: seq<Worker>, w: nat, n: nat, k: nat)
    requires n <= |ws| && forall v: nat :: v < n && v != w ==> Given(ws[v], w) <= k
    ensures Arrived(ws, w, n) <= Times(Others(n, w), k)
  {
    TimesNext(if n > 0 then Others(n - 1, w) else 0, k);
    hide Times, Given;
    if n > 0 { ArrivedAtMost(ws, w, n - 1, k); }
  }

  lemma {:induction false} ArrivedAtLeast(ws: seq<Worker>, w: nat, n: nat, k: nat)
    requires n <= |ws| && forall v: nat :: v < n && v != w ==> Given(ws[v], w) >= k
    ensures Arrived(ws, w, n) >= Times(Others(n, w), k)
  {
    TimesNext(if n > 0 then Others(n - 1, w) else 0, k);
    hide Times, Given;
    if n > 0 { ArrivedAtLeast(ws, w, n - 1, k); }
  }

  /** If nobody gave more than `k` and all together gave `k` each, everybody gave
      exactly `k`. */
  lemma {:induction false} EverybodyGave(ws: seq<Worker>, w: nat, n: nat, k: nat, v: nat)
    requires n <= |ws| && forall v: nat :: v < n && v != w ==> Given(ws[v], w) <= k
    requires Arrived(ws, w, n) >= Times(Others(n, w), k)
    requires v < n && v != w
    ensures Given(ws[v], w) == k
  {
    TimesNext(Others(n - 1, w), k);
    hide Times, Given;
    ArrivedAtMost(ws, w, n - 1, k);
    if v < n - 1 { EverybodyGave(ws, w, n - 1, k, v); }
  }

  // ----- the invariant --------------------------------------------------------

  ghost predicate WorkerOk(n: nat, w: nat, x: Worker) {
    && (forall v :: v in x.sent ==> v < n && v != w && x.worked && x.sent[v] == 1)
    && x.drained + 1 <= n
  }

  /** No token is lost: what is in the queue and what its owner took is what the
      others gave. */
  ghost predicate Balanced(n: nat, s: State, w: nat)
    requires |s.workers| == |s.queue| == n && w < n
  {
    s.queue[w] + Times(n - 1, s.workers[w].round) + s.workers[w].drained == Arrived(s.workers, w, n)
  }

  /** The rounds for which a worker has done its work. */
  ghost function RoundsWorked(x: Worker): nat { x.round + if x.worked then 1 else 0 }

  /** Nobody has completed a round that `y` has not worked for. */
  ghost predicate Behind(x: Worker, y: Worker) {
    x.round <= RoundsWorked(y)
  }

  ghost predicate Inv(n: nat, s: State) {
    && |s.workers| == |s.queue| == n
    && (forall w: nat :: w < n ==> WorkerOk(n, w, s.workers[w]))
    && (forall w: nat :: w < n ==> Balanced(n, s, w))
    && (forall w: nat :: w < n ==> s.queue[w] <= n)
    && (forall u: nat, v: nat :: u < n && v < n ==> Behind(s.workers[u], s.workers[v]))
  }

  lemma InvInit(n: nat)
    ensures Inv(n, Init(n))
  {
    var s := Init(n);
    forall w: nat | w < n ensures Balanced(n, s, w) {
      ArrivedAtMost(s.workers, w, n, 0);
    }
  }

  lemma OwnUnchanged(n: nat, s: State, w: nat, x: Worker, v: nat)
    requires |s.workers| == |s.queue| == n && w < n && v < n && Balanced(n, s, v)
    requires forall u: nat :: u != w ==> Given(x, u) == Given(s.workers[w], u)
    requires v == w ==> x.round == s.workers[w].round && x.drained == s.workers[w].drained
    ensures Balanced(n, s.(workers := s.workers[w := x]), v)
  {
    var t := s.(workers := s.workers[w := x]);
    ArrivedSame(s.workers, t.workers, v, n);
    hide Given, Times, Arrived;
  }

  lemma WorkKeeps(n: nat, rounds: nat, s: State, w: nat)
    requires Inv(n, s) && Enabled(n, rounds, s, Work(w))
    ensures Inv(n, Do(s, Work(w)))
  {
    var x := s.workers[w].(worked := true);
    forall v: nat | v < n ensures Balanced(n, Do(s, Work(w)), v) { OwnUnchanged(n, s, w, x, v); }
    hide Balanced;
  }

  lemma GiveBalances(n: nat, s: State, w: nat, v: nat, u: nat)
    requires |s.workers| == |s.queue| == n && w < n && v < n && v != w && u < n && Balanced(n, s, u)
    requires v !in s.workers[w].sent
    ensures Balanced(n, Do(s, Give(w, v)), u)
  {
    var t := Do(s, Give(w, v));
    if u == v { ArrivedMore(s.workers, t.workers, v, w, n); } else { ArrivedSame(s.workers, t.workers, u, n); }
    hide Times, Arrived, Given;
  }

  lemma GiveKeeps(n: nat, rounds: nat, s: State, w: nat, v: nat)
    requires Inv(n, s) && Enabled(n, rounds, s, Give(w, v))
    ensures Inv(n, Do(s, Give(w, v)))
  {
    GivesAre(w, n, v);
    hide GroupOps;
    forall u: nat | u < n ensures Balanced(n, Do(s, Give(w, v)), u) { GiveBalances(n, s, w, v, u); }
    hide Balanced;
  }

  lemma TakeBalances(n: nat, s: State, w: nat, k: nat, u: nat)
    requires |s.workers| == |s.queue| == n && w < n && u < n && k <= s.queue[w] && Balanced(n, s, u)
    ensures Balanced(n, Do(s, Take(w, k)), u)
  {
    var t := Do(s, Take(w, k));
    ArrivedSame(s.workers, t.workers, u, n);
    hide Times, Arrived, Given;
  }

  lemma TakeKeeps(n: nat, rounds: nat, s: State, w: nat, k: nat)
    requires Inv(n, s) && Enabled(n, rounds, s, Take(w, k))
    ensures Inv(n, Do(s, Take(w, k)))
  {
    TakesAre(w, n);
    hide GroupOps;
    forall u: nat | u < n ensures Balanced(n, Do(s, Take(w, k)), u) { TakeBalances(n, s, w, k, u); }
    hide Balanced;
  }

  /** The first worker to complete a round has a token of this round from every
      other worker, although the tokens do not tell. */
  lemma FirstToComplete(n: nat, s: State, w: nat, v: nat)
    requires Inv(n, s) && w < n && v < n && v != w && s.workers[w].drained + 1 == n
    requires forall u: nat :: u < n ==> s.workers[u].round <= s.workers[w].round
    ensures s.workers[v].round == s.workers[w].round && s.workers[v].worked
  {
    var r := s.workers[w].round;
    assert Balanced(n, s, w);
    TimesMore(n - 1, r);
    hide Times, Balanced, Behind;
    EverybodyGave(s.workers, w, n, r + 1, v);
    assert WorkerOk(n, v, s.workers[v]);
  }

  lemma CompletedBehind(n: nat, rounds: nat, s: State, w: nat, v: nat)
    requires Inv(n, s) && Enabled(n, rounds, s, Complete(w)) && v < n && v != w
    ensures s.workers[w].round + 1 <= RoundsWorked(s.workers[v])
  {
    TakesAre(w, n);
    hide GroupOps, Balanced;
    if u: nat :| u < n && s.workers[u].round > s.workers[w].round {
      assert Behind(s.workers[u], s.workers[v]);
    } else {
      FirstToComplete(n, s, w, v);
    }
  }

  /** What a worker has given in all its rounds stays the same when it completes one. */
  lemma CompletedGiven(n: nat, rounds: nat, s: State, w: nat, v: nat)
    requires Inv(n, s) && Enabled(n, rounds, s, Complete(w)) && v < n
    ensures |s.workers| == |s.queue| == n && w < n && s.workers[w].drained + 1 == n && Balanced(n, s, v)
    ensures v != w ==> Given(Worker(s.workers[w].round + 1, false, multiset{}, 0), v) == Given(s.workers[w], v)
  {
    GivesAre(w, n, v);
    TakesAre(w, n);
    assert WorkerOk(n, w, s.workers[w]) && Gives(GroupOps(w, n), v) <= s.workers[w].sent[v];
    hide GroupOps, Gives, Takes, Balanced, Behind;
  }

  /** Completing turns the tokens of the round into tokens of completed rounds. */
  lemma CompleteBalances(n: nat, s: State, w: nat, v: nat)
    requires |s.workers| == |s.queue| == n && w < n && v < n && s.workers[w].drained + 1 == n && Balanced(n, s, v)
    requires v != w ==> Given(Worker(s.workers[w].round + 1, false, multiset{}, 0), v) == Given(s.workers[w], v)
    ensures Balanced(n, Do(s, Complete(w)), v)
  {
    var t := Do(s, Complete(w));
    hide Given, Times, Arrived;
    ArrivedSame(s.workers, t.workers, v, n);
    TimesMore(n - 1, s.workers[w].round);
  }

  lemma CompleteKeeps(n: nat, rounds: nat, s: State, w: nat)
    requires Inv(n, s) && Enabled(n, rounds, s, Complete(w))
    ensures Inv(n, Do(s, Complete(w)))
  {
    var x, t := s.workers[w], Do(s, Complete(w));
    forall v: nat | v < n ensures Balanced(n, t, v) {
      CompletedGiven(n, rounds, s, w, v);
      CompleteBalances(n, s, w, v);
    }
    forall v: nat | v < n && v != w ensures x.round + 1 <= RoundsWorked(s.workers[v]) {
      CompletedBehind(n, rounds, s, w, v);
    }
    hide Balanced, GroupOps, Enabled;
    forall u: nat, v: nat | u < n && v < n ensures Behind(t.workers[u], t.workers[v]) {
      assert Behind(s.workers[u], s.workers[v]);
    }
  }

  /** Every step of every worker keeps the invariant. */
  lemma StepKeeps(n: nat, rounds: nat, s: State, step: Step)
    requires Inv(n, s) && Enabled(n, rounds, s, step)
    ensures Inv(n, Do(s, step))
  {
    hide Inv, Enabled, Do;
    match step
    case Work(w) => WorkKeeps(n, rounds, s, w);
    case Give(w, v) => GiveKeeps(n, rounds, s, w, v);
    case Take(w, k) => TakeKeeps(n, rounds, s, w, k);
    case Complete(w) => CompleteKeeps(n, rounds, s, w);
  }

  // ----- whole runs -----------------------------------------------------------

  ghost predicate Moves(n: nat, rounds: nat, s: State, t: State) {
    exists step :: Enabled(n, rounds, s, step) && t == Do(s, step)
  }

  ghost predicate Stuck(n: nat, rounds: nat, s: State) {
    forall step :: !Enabled(n, rounds, s, step)
  }

  /** Everybody has completed every round, and no token is left over. */
  ghost predicate AllDone(n: nat, rounds: nat, s: State) {
    && |s.workers| == |s.queue| == n
    && forall w: nat {:trigger s.workers[w]} :: w < n ==> s.workers[w].round == rounds && s.queue[w] == 0
  }

  ghost predicate IsRun(n: nat, rounds: nat, run: seq<State>) {
    && |run| > 0 && run[0] == Init(n)
    && forall i :: 0 <= i < |run| - 1 ==> Moves(n, rounds, run[i], run[i + 1])
  }

  lemma RunStep(n: nat, rounds: nat, run: seq<State>, i: nat) returns (step: Step)
    requires IsRun(n, rounds, run) && 0 < i < |run|
    ensures Enabled(n, rounds, run[i - 1], step) && Fits(run[i - 1], step) && run[i] == Do(run[i - 1], step)
  {
    assert Moves(n, rounds, run[i - 1], run[i - 1 + 1]);
    step :| Enabled(n, rounds, run[i - 1], step) && run[i] == Do(run[i - 1], step);
    hide Do, GroupOps;
  }

  lemma {:induction false} RunKeeps(n: nat, rounds: nat, run: seq<State>, i: nat)
    requires IsRun(n, rounds, run) && i < |run|
    ensures Inv(n, run[i])
  {
    hide Inv, Enabled, Do, Init, Fits;
    if i == 0 {
      InvInit(n);
    } else {
      RunKeeps(n, rounds, run, i - 1);
      var step := RunStep(n, rounds, run, i);
      StepKeeps(n, rounds, run[i - 1], step);
    }
  }

  /** The barrier is safe: once any worker has completed a round, every worker has
      done its work of that round.  So no worker is ever more than one round ahead. */
  lemma BarrierSafe(n: nat, rounds: nat, run: seq<State>, i: nat, u: nat, v: nat)
    requires IsRun(n, rounds, run) && i < |run| && u < n && v < n
    ensures |run[i].workers| == n
    ensures RoundsWorked(run[i].workers[v]) >= run[i].workers[u].round
    ensures run[i].workers[u].round <= run[i].workers[v].round + 1
  {
    RunKeeps(n, rounds, run, i);
    hide IsRun, Balanced;
    assert Behind(run[i].workers[u], run[i].workers[v]);
  }

  // ----- no deadlock ----------------------------------------------------------

  /** A worker that has taken all its tokens of the round has room in its queue. */
  lemma DrainedHasRoom(n: nat, s: State, w: nat)
    requires Inv(n, s) && w < n && s.workers[w].drained + 1 == n
    ensures s.queue[w] < n
  {
    var r := s.workers[w].round;
    assert Balanced(n, s, w);
    forall v: nat | v < n && v != w ensures Given(s.workers[v], w) <= r + 2 {
      assert Behind(s.workers[v], s.workers[w]) && WorkerOk(n, v, s.workers[v]);
    }
    if forall v: nat :: v < n && v != w ==> Given(s.workers[v], w) <= r + 2 {
      TimesMore(n - 1, r);
      TimesMore(n - 1, r + 1);
      hide Times, Balanced, Given;
      ArrivedAtMost(s.workers, w, n, r + 2);
    }
  }

  /** When nobody is behind `w`, and all who are level with it have given their
      tokens, it finds all the tokens it still has to take. */
  lemma TokensAreThere(n: nat, s: State, w: nat)
    requires Inv(n, s) && w < n
    requires forall v: nat :: v < n ==> s.workers[v].round >= s.workers[w].round
    requires forall v: nat :: v < n && v != w && s.workers[v].round == s.workers[w].round ==> w in s.workers[v].sent
    ensures s.queue[w] >= n - 1 - s.workers[w].drained >= 0
  {
    var r := s.workers[w].round;
    assert Balanced(n, s, w) && WorkerOk(n, w, s.workers[w]);
    assert forall v: nat :: v < n && v != w ==> Given(s.workers[v], w) >= r + 1;
    TimesMore(n - 1, r);
    hide Times, Balanced, Given, Inv;
    ArrivedAtLeast(s.workers, w, n, r + 1);
  }

  /** Nobody takes part in more rounds than there are. */
  ghost predicate Capped(rounds: nat, s: State) {
    forall w: nat :: w < |s.workers| ==>
      && s.workers[w].round <= rounds
      && (s.workers[w].round == rounds ==> s.workers[w] == Worker(rounds, false, multiset{}, 0))
  }

  /** A worker that has taken part in all its rounds has nothing left in its queue. */
  lemma FinishedIsEmpty(n: nat, rounds: nat, s: State, w: nat)
    requires Inv(n, s) && Capped(rounds, s) && w < n && s.workers[w].round == rounds
    ensures s.queue[w] == 0
  {
    assert Balanced(n, s, w);
    assert forall v: nat :: v < n && v != w ==> Given(s.workers[v], w) <= rounds;
    hide Times, Balanced, Given, Inv;
    ArrivedAtMost(s.workers, w, n, rounds);
  }

  lemma {:induction false} Hindmost(ws: seq<Worker>, n: nat) returns (m: nat)
    requires 0 < n <= |ws|
    ensures m < n && forall v: nat :: v < n ==> ws[m].round <= ws[v].round
  {
    if n == 1 {
      m := 0;
    } else {
      m := Hindmost(ws, n - 1);
      if ws[n - 1].round < ws[m].round { m := n - 1; }
    }
  }

  lemma CanTake(n: nat, rounds: nat, s: State, w: nat)
    requires Inv(n, s) && w < n && s.workers[w].round < rounds
    requires s.queue[w] >= n - 1 - s.workers[w].drained > 0
    ensures Enabled(n, rounds, s, Take(w, n - 1 - s.workers[w].drained))
  {
    TakesAre(w, n);
    hide GroupOps, Inv;
  }

  /** Giving a token waits, if at all, for a worker that can take all it needs. */
  lemma CanGive(n: nat, rounds: nat, s: State, w: nat, v: nat) returns (step: Step)
    requires Inv(n, s) && Capped(rounds, s) && w < n && v < n && v != w
    requires s.workers[w].round < rounds && s.workers[w].worked && v !in s.workers[w].sent
    ensures Enabled(n, rounds, s, step)
    ensures step.Take? ==> step.k + s.workers[step.w].drained == n - 1
  {
    GivesAre(w, n, v);
    hide GroupOps, Balanced, Behind;
    if s.queue[v] < n {
      step := Give(w, v);
    } else {
      if s.workers[v].round == rounds { FinishedIsEmpty(n, rounds, s, v); }
      assert WorkerOk(n, v, s.workers[v]);
      if s.workers[v].drained + 1 == n { DrainedHasRoom(n, s, v); }
      CanTake(n, rounds, s, v);
      step := Take(v, n - 1 - s.workers[v].drained);
    }
  }

  lemma CanComplete(n: nat, rounds: nat, s: State, w: nat)
    requires Inv(n, s) && w < n && s.workers[w].round < rounds && s.workers[w].worked
    requires s.workers[w].drained + 1 == n && forall v: nat :: v < n && v != w ==> v in s.workers[w].sent
    ensures Enabled(n, rounds, s, Complete(w))
  {
    TakesAre(w, n);
    forall v: nat ensures Gives(GroupOps(w, n), v) <= s.workers[w].sent[v] { GivesAre(w, n, v); }
    hide GroupOps, Inv;
  }

  /** The barrier never deadlocks: as long as some worker has rounds ahead, some
      worker can move.  Tokens never have to be taken one by one. */
  lemma SomebodyCanMove(n: nat, rounds: nat, s: State, w: nat) returns (step: Step)
    requires Inv(n, s) && Capped(rounds, s) && w < n && s.workers[w].round < rounds
    ensures Enabled(n, rounds, s, step)
    ensures step.Take? ==> step.k + s.workers[step.w].drained == n - 1
  {
    var m := Hindmost(s.workers, n);
    var r := s.workers[m].round;
    assert r < rounds;
    hide Balanced, Behind, GroupOps, Capped;
    if v: nat :| v < n && s.workers[v].round == r && !s.workers[v].worked {
      step := Work(v);
    } else if v: nat, u: nat :| v < n && u < n && u != v && s.workers[v].round == r && u !in s.workers[v].sent {
      step := CanGive(n, rounds, s, v, u);
    } else {
      TokensAreThere(n, s, m);
      if s.workers[m].drained + 1 < n {
        CanTake(n, rounds, s, m);
        step := Take(m, n - 1 - s.workers[m].drained);
      } else {
        CanComplete(n, rounds, s, m);
        step := Complete(m);
      }
    }
  }

  // ----- every run ends -------------------------------------------------------

  ghost function Progress(x: Worker): nat {
    (if x.worked then 1 else 0) + |x.sent| + x.drained
  }

  /** A bound on the steps a worker still has to make. */
  ghost function Left(n: nat, rounds: nat, x: Worker): int {
    if x.round <= rounds then Times(rounds - x.round, 2 * n) - Progress(x) else 0
  }

  ghost function Remaining(n: nat, rounds: nat, ws: seq<Worker>): int {
    if ws == [] then 0 else Left(n, rounds, ws[0]) + Remaining(n, rounds, ws[1..])
  }

  lemma {:induction false} SmallBag(n: nat, m: multiset<nat>)
    requires forall v :: v in m ==> v < n && m[v] == 1
    ensures |m| <= n
  {
    if n > 0 {
      var less := m - multiset{n - 1};
      assert forall v :: v in less ==> v in m && v != n - 1;
      SmallBag(n - 1, less);
    } else {
      assert m == multiset{};
    }
  }

  lemma SentBound(n: nat, w: nat, x: Worker)
    requires w < n && WorkerOk(n, w, x)
    ensures |x.sent| <= n - 1 && Progress(x) < 2 * n
  {
    SmallBag(n, x.sent + multiset{w});
  }

  lemma {:induction false} RemainingUpdate(n: nat, rounds: nat, ws: seq<Worker>, w: nat, x: Worker)
    requires w < |ws|
    ensures Remaining(n, rounds, ws[w := x]) == Remaining(n, rounds, ws) - Left(n, rounds, ws[w]) + Left(n, rounds, x)
  {
    hide Left;
    if w > 0 {
      RemainingUpdate(n, rounds, ws[1..], w - 1, x);
      assert ws[w := x][1..] == ws[1..][w - 1 := x];
    } else {
      assert ws[w := x][1..] == ws[1..];
    }
  }

  /** What a step leaves of its worker. */
  lemma StepWorker(n: nat, rounds: nat, s: State, step: Step) returns (x: Worker)
    requires Inv(n, s) && Enabled(n, rounds, s, step)
    ensures step.w < n == |s.workers| && s.workers[step.w].round < rounds && Do(s, step).workers == s.workers[step.w := x]
    ensures x == Worker(s.workers[step.w].round + 1, false, multiset{}, 0)
      || (x.round == s.workers[step.w].round && Progress(x) > Progress(s.workers[step.w]))
  {
    hide GroupOps, Balanced, Behind;
    x := Do(s, step).workers[step.w];
  }

  lemma StepShrinks(n: nat, rounds: nat, s: State, step: Step)
    requires Inv(n, s) && Enabled(n, rounds, s, step)
    ensures Remaining(n, rounds, Do(s, step).workers) < Remaining(n, rounds, s.workers)
  {
    var w := step.w;
    var x := StepWorker(n, rounds, s, step);
    assert WorkerOk(n, w, s.workers[w]);
    SentBound(n, w, s.workers[w]);
    RemainingUpdate(n, rounds, s.workers, w, x);
    TimesNext(rounds - s.workers[w].round - 1, 2 * n);
    hide Inv, Enabled, Do, Times, Remaining;
  }

  lemma StepCaps(n: nat, rounds: nat, s: State, step: Step)
    requires Inv(n, s) && Enabled(n, rounds, s, step) && Capped(rounds, s)
    ensures Capped(rounds, Do(s, step))
  {
    var x := StepWorker(n, rounds, s, step);
    hide Inv, Enabled, Do, Progress;
  }

  lemma {:induction false} RemainingInit(n: nat, rounds: nat, ws: seq<Worker>)
    requires forall w :: 0 <= w < |ws| ==> ws[w] == Worker(0, false, multiset{}, 0)
    ensures Remaining(n, rounds, ws) == Times(|ws|, Times(rounds, 2 * n))
  {
    if ws == [] {
      TimesNext(0, Times(rounds, 2 * n));
    } else {
      RemainingInit(n, rounds, ws[1..]);
      TimesNext(|ws| - 1, Times(rounds, 2 * n));
      hide Times;
    }
  }

  lemma {:induction false} RemainingNotNegative(n: nat, rounds: nat, ws: seq<Worker>)
    requires forall w :: 0 <= w < |ws| ==> Left(n, rounds, ws[w]) >= 0
    ensures Remaining(n, rounds, ws) >= 0
  {
    hide Left;
    if ws != [] { RemainingNotNegative(n, rounds, ws[1..]); }
  }

  lemma LeftNotNegative(n: nat, rounds: nat, s: State, w: nat)
    requires Inv(n, s) && Capped(rounds, s) && w < n
    ensures Left(n, rounds, s.workers[w]) >= 0
  {
    var x := s.workers[w];
    assert WorkerOk(n, w, x);
    SentBound(n, w, x);
    if x.round < rounds { TimesNext(rounds - x.round - 1, 2 * n); }
    hide Times, Inv;
  }

  lemma {:induction false} RunShrinks(n: nat, rounds: nat, run: seq<State>, i: nat)
    requires IsRun(n, rounds, run) && i < |run|
    ensures Inv(n, run[i]) && Capped(rounds, run[i])
    ensures Remaining(n, rounds, run[i].workers) + i <= Times(n, Times(rounds, 2 * n))
  {
    hide Inv, Enabled, Do, Capped, Remaining, Times, Fits;
    RunKeeps(n, rounds, run, i);
    if i == 0 {
      RemainingInit(n, rounds, Init(n).workers);
      InitCapped(n, rounds);
    } else {
      RunShrinks(n, rounds, run, i - 1);
      var step := RunStep(n, rounds, run, i);
      StepShrinks(n, rounds, run[i - 1], step);
      StepCaps(n, rounds, run[i - 1], step);
    }
  }

  lemma InitCapped(n: nat, rounds: nat)
    ensures Capped(rounds, Init(n))
  {
  }

  /** Every run ends, after at most `2n` steps of each worker in each round, and it
      ends with every round completed by everybody and all queues empty. */
  lemma EveryRoundCompletes(n: nat, rounds: nat, run: seq<State>)
    requires IsRun(n, rounds, run)
    ensures |run| <= 1 + Times(n, Times(rounds, 2 * n))
    ensures Stuck(n, rounds, run[|run| - 1]) ==> AllDone(n, rounds, run[|run| - 1])
  {
    var s := run[|run| - 1];
    RunShrinks(n, rounds, run, |run| - 1);
    RunLeft(n, rounds, s);
    InvSizes(n, s);
    hide Inv, Enabled, Remaining, Times, IsRun, Capped;
    if Stuck(n, rounds, s) {
      forall w: nat | w < n ensures s.workers[w].round == rounds && s.queue[w] == 0 {
        RoundCap(rounds, s, w);
        if s.workers[w].round < rounds {
          var step := SomebodyCanMove(n, rounds, s, w);
        }
        FinishedIsEmpty(n, rounds, s, w);
      }
    }
  }

  lemma InvSizes(n: nat, s: State)
    requires Inv(n, s)
    ensures |s.workers| == |s.queue| == n
  {
    hide Balanced, Behind, WorkerOk;
  }

  lemma RoundCap(rounds: nat, s: State, w: nat)
    requires Capped(rounds, s) && w < |s.workers|
    ensures s.workers[w].round <= rounds
  {
  }

  lemma RunLeft(n: nat, rounds: nat, s: State)
    requires Inv(n, s) && Capped(rounds, s)
    ensures Remaining(n, rounds, s.workers) >= 0
  {
    InvSizes(n, s);
    hide Inv, Capped, Left, Remaining;
    forall w | 0 <= w < |s.workers| ensures Left(n, rounds, s.workers[w]) >= 0 { LeftNotNegative(n, rounds, s, w); }
    RemainingNotNegative(n, rounds, s.workers);
  }

  // ----- why the counting is needed -------------------------------------------

  function Three(a: Worker, b: Worker, c: Worker, p: nat, q: nat, r: nat): State {
    State([a, b, c], [p, q, r])
  }

  lemma Extend(n: nat, rounds: nat, run: seq<State>, step: Step, t: State)
    requires IsRun(n, rounds, run) && Enabled(n, rounds, run[|run| - 1], step) && Fits(run[|run| - 1], step)
    requires t == Do(run[|run| - 1], step)
    ensures IsRun(n, rounds, run + [t])
  {
    var longer := run + [t];
    hide Enabled, Do, Init;
    forall i | 0 <= i < |longer| - 1 ensures Moves(n, rounds, longer[i], longer[i + 1]) {
      if i < |run| - 1 { assert Moves(n, rounds, run[i], run[i + 1]); }
    }
  }

  lemma StartsRun(n: nat, rounds: nat, run: seq<State>)
    requires run == [Init(n)]
    ensures IsRun(n, rounds, run)
  {
  }

  lemma Worked(s: State, w: nat, t: State)
    requires |s.workers| == |s.queue| == 3 && w < 3 && s.workers[w].round < 2 && !s.workers[w].worked
    requires t.queue == s.queue && t.workers == s.workers[w := s.workers[w].(worked := true)]
    ensures Enabled(3, 2, s, Work(w)) && Fits(s, Work(w)) && t == Do(s, Work(w))
  {
    hide GroupOps;
  }

  lemma Gave(s: State, w: nat, v: nat, sent: multiset<nat>, t: State)
    requires |s.workers| == |s.queue| == 3 && w < 3 && v < 3 && v != w && s.workers[w].round < 2 && s.workers[w].worked
    requires v !in s.workers[w].sent && s.queue[v] < 3
    requires t.queue == s.queue[v := s.queue[v] + 1]
    requires t.workers == s.workers[w := s.workers[w].(sent := sent)] && sent == s.workers[w].sent + multiset{v}
    ensures Enabled(3, 2, s, Give(w, v)) && Fits(s, Give(w, v)) && t == Do(s, Give(w, v))
  {
    GivesAre(w, 3, v);
    hide GroupOps;
  }

  lemma TookBoth(s: State, w: nat, t: State)
    requires |s.workers| == |s.queue| == 3 && w < 3 && s.workers[w].round < 2 && s.workers[w].drained == 0
    requires s.queue[w] == 2 && t.queue == s.queue[w := 0] && t.workers == s.workers[w := s.workers[w].(drained := 2)]
    ensures Enabled(3, 2, s, Take(w, 2)) && Fits(s, Take(w, 2)) && t == Do(s, Take(w, 2))
  {
    TakesAre(w, 3);
    hide GroupOps;
  }

  lemma Completed(s: State, w: nat, t: State)
    requires |s.workers| == |s.queue| == 3 && w < 3 && s.workers[w].round < 2 && s.workers[w].worked
    requires s.workers[w].drained == 2 && forall v: nat :: v < 3 && v != w ==> v in s.workers[w].sent
    requires t.queue == s.queue && t.workers == s.workers[w := Worker(s.workers[w].round + 1, false, multiset{}, 0)]
    ensures Enabled(3, 2, s, Complete(w)) && Fits(s, Complete(w)) && t == Do(s, Complete(w))
  {
    TakesAre(w, 3);
    forall v: nat ensures Gives(GroupOps(w, 3), v) <= s.workers[w].sent[v] { GivesAre(w, 3, v); }
    hide GroupOps;
  }

  /** Everybody works; worker 0 gives both its tokens, the others one to it. */
  lemma FirstTokens() returns (run: seq<State>)
    ensures IsRun(3, 2, run) && |run| > 0
    ensures run[|run| - 1] ==
      Three(Worker(0, true, multiset{1, 2}, 0), Worker(0, true, multiset{0}, 0), Worker(0, true, multiset{0}, 0), 2, 1, 1)
  {
    hide IsRun, Enabled, Do, Fits;
    var idle, ready, gave0 := Worker(0, false, multiset{}, 0), Worker(0, true, multiset{}, 0), Worker(0, true, multiset{0}, 0);
    var gave1, both := Worker(0, true, multiset{1}, 0), Worker(0, true, multiset{1, 2}, 0);
    var s0 := Three(idle, idle, idle, 0, 0, 0);
    assert Init(3) == s0;
    run := [s0];
    StartsRun(3, 2, run);
    var s1, s2, s3 := Three(ready, idle, idle, 0, 0, 0), Three(gave1, idle, idle, 0, 1, 0), Three(both, idle, idle, 0, 1, 1);
    Worked(s0, 0, s1);
    Gave(s1, 0, 1, multiset{1}, s2);
    Gave(s2, 0, 2, multiset{1, 2}, s3);
    var s4, s5 := Three(both, ready, idle, 0, 1, 1), Three(both, gave0, idle, 1, 1, 1);
    Worked(s3, 1, s4);
    Gave(s4, 1, 0, multiset{0}, s5);
    var s6, s7 := Three(both, gave0, ready, 1, 1, 1), Three(both, gave0, gave0, 2, 1, 1);
    Worked(s5, 2, s6);
    Gave(s6, 2, 0, multiset{0}, s7);
    hide *;
    Extend(3, 2, run, Work(0), s1); run := run + [s1];
    Extend(3, 2, run, Give(0, 1), s2); run := run + [s2];
    Extend(3, 2, run, Give(0, 2), s3); run := run + [s3];
    Extend(3, 2, run, Work(1), s4); run := run + [s4];
    Extend(3, 2, run, Give(1, 0), s5); run := run + [s5];
    Extend(3, 2, run, Work(2), s6); run := run + [s6];
    Extend(3, 2, run, Give(2, 0), s7); run := run + [s7];
  }

  /** Tokens do not say who gave them or in which round: here worker 1 has taken
      both its tokens of the first round, and both came from worker 0, which is
      in its second round already.  Worker 2 has given it none. */
  lemma TokensStandIn() returns (run: seq<State>)
    ensures IsRun(3, 2, run) && |run| > 0 && |run[|run| - 1].workers| == 3
    ensures var ws := run[|run| - 1].workers;
      ws[1].drained == 2 && ws[1].round == 0 && 1 !in ws[2].sent && ws[2].round == 0
  {
    hide IsRun, Enabled, Do, Fits;
    run := FirstTokens();
    var gave0, s7 := Worker(0, true, multiset{0}, 0), run[|run| - 1];
    var s8, s9 := Three(Worker(0, true, multiset{1, 2}, 2), gave0, gave0, 0, 1, 1), Three(Worker(1, false, multiset{}, 0), gave0, gave0, 0, 1, 1);
    TookBoth(s7, 0, s8);
    Completed(s8, 0, s9);
    var s10, s11 := Three(Worker(1, true, multiset{}, 0), gave0, gave0, 0, 1, 1), Three(Worker(1, true, multiset{1}, 0), gave0, gave0, 0, 2, 1);
    Worked(s9, 0, s10);
    Gave(s10, 0, 1, multiset{1}, s11);
    var s12 := Three(Worker(1, true, multiset{1}, 0), Worker(0, true, multiset{0}, 2), gave0, 0, 0, 1);
    TookBoth(s11, 1, s12);
    assert s12.workers[1].drained == 2 && s12.workers[1].round == 0 && 1 !in s12.workers[2].sent && s12.workers[2].round == 0;
    assert |s12.workers| == 3;
    hide *;
    Extend(3, 2, run, Take(0, 2), s8); run := run + [s8];
    Extend(3, 2, run, Complete(0), s9); run := run + [s9];
    Extend(3, 2, run, Work(0), s10); run := run + [s10];
    Extend(3, 2, run, Give(0, 1), s11); run := run + [s11];
    Extend(3, 2, run, Take(1, 2), s12); run := run + [s12];
  }
}
