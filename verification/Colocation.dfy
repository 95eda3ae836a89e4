/** The co-location simulator as a state machine: what one turn of its event
    loop does to the variables of the loop. */
module Colocation {
  import opened KernelTree
  import opened Bags

  datatype App = App(length: real, slow: real, nodes: seq<Node>)

  /** An entry of the event queue.  `running` is the source's status 2, its
      negation status 1 (submitted). */
  datatype Event = Event(app: nat, kernel: nat, kind: int, length: real, running: bool, time: real)

  /** The variables of the event loop, then three that only record history:
      when each app began its current iteration, which kernels have finished in
      it, and how often each kernel has finished in all. */
  datatype State = State(
    evtq: multiset<Event>, count: seq<int>, kSch: real, ac: seq<int>, loop: seq<int>, rt: seq<real>, now: real,
    base: seq<real>, done: seq<set<nat>>, fin: seq<seq<nat>>)

  const EPSILON := 0.00001

  /** A loaded app: its kernels form a tree and are of known types. */
  ghost predicate Shaped(app: App) {
    && Rooted(app.nodes)
    && app.length > 0.0
    && forall k :: 0 <= k < |app.nodes| ==> 1 <= app.nodes[k].kind <= 3
  }

  /** C's conversion of a double to an int. */
  function Truncate(x: real): int {
    if x >= 0.0 then x.Floor else -((-x).Floor)
  }

  /** How often an iteration of the given length is replayed: as often as it
      fits into `max`, but at least once. */
  function Iterations(max: real, length: real): int
    requires length != 0.0
  {
    var l := Truncate(max / length);
    if l < 1 then 1 else l
  }

  /** `l` iterations of this length fit into `max`, and no more do; one is run even if
      none does. */
  predicate AsManyAsFit(l: int, max: real, length: real) {
    l >= 1 && (l > 1 ==> l as real * length <= max) && max < (l + 1) as real * length
  }

  lemma ProductOrder(x: real, y: real, length: real)
    requires length > 0.0
    ensures x <= y <==> x * length <= y * length
  {
    assert (y - x) * length == y * length - x * length;
    if x <= y { assert (y - x) * length >= 0.0; } else { assert (x - y) * length > 0.0; }
  }

  /** An app is given as many iterations as fit. */
  lemma IterationsFit(max: real, length: real, l: int)
    requires length > 0.0
    ensures l == Iterations(max, length) <==> AsManyAsFit(l, max, length)
  {
    var x := max / length;
    assert x * length == max;
    ProductOrder(l as real, x, length);
    ProductOrder((l + 1) as real, x, length);
    ProductOrder(2.0, x, length);
    assert Truncate(x) <= 0 || Truncate(x) as real <= x < (Truncate(x) + 1) as real;
    if l >= 2 { ProductOrder(2.0, l as real, length); }
  }

  function Loops(max: real, app: App): int
    requires Shaped(app)
  {
    Iterations(max, app.length)
  }

  function Submit(a: nat, k: nat, n: Node, time: real): Event {
    Event(a, k, n.kind, n.length, false, time)
  }

  ghost predicate Top(evtq: multiset<Event>, e: Event) {
    e in evtq && forall x :: x in evtq ==> e.time <= x.time
  }

  // ----- what the source asks of its input ---------------------------------

  /** Durations are not negative, the trace begins at or after time zero, its
      last kernel is the empty one that closes the iteration, and the host
      never runs backwards. */
  ghost predicate Timed(app: App)
    requires Shaped(app)
  {
    && (forall k :: 0 <= k < |app.nodes| ==> app.nodes[k].length >= 0.0)
    && app.nodes[0].start >= 0.0
    && app.nodes[|app.nodes| - 1].End() == app.length
    && app.slow >= -1.0
    && Ordered(app.nodes)
  }

  ghost predicate AllShaped(apps: seq<App>) {
    forall a {:trigger Shaped(apps[a])} :: 0 <= a < |apps| ==> Shaped(apps[a])
  }

  ghost predicate AllTimed(apps: seq<App>)
    requires AllShaped(apps)
  {
    forall a {:trigger Timed(apps[a])} :: 0 <= a < |apps| ==> Timed(apps[a])
  }

  function Head(app: App): Node
    requires Shaped(app)
  {
    app.nodes[0]
  }

  // ----- the start state ----------------------------------------------------

  /** The first `n` apps have submitted their head. */
  ghost function Heads(apps: seq<App>, n: nat): multiset<Event>
    requires AllShaped(apps) && n <= |apps|
  {
    if n == 0 then multiset{}
    else Heads(apps, n - 1) + multiset{Submit(n - 1, 0, Head(apps[n - 1]), Head(apps[n - 1]).start)}
  }

  ghost function Init(apps: seq<App>, max: real, rt: seq<real>): State
    requires AllShaped(apps) && |rt| == |apps|
  {
    State(
      Heads(apps, |apps|), [0, 0, 0, 0], 0.0,
      seq(|apps|, a => 1),
      seq(|apps|, a requires 0 <= a < |apps| => Loops(max, apps[a])),
      rt, 0.0,
      seq(|apps|, a => 0.0),
      seq(|apps|, a => {}),
      seq(|apps|, a requires 0 <= a < |apps| => seq(|apps[a].nodes|, k => 0)))
  }

  // ----- one turn of the loop -----------------------------------------------

  ghost predicate Sized(apps: seq<App>, s: State) {
    && AllShaped(apps)
    && |s.count| == 4
    && |s.ac| == |s.loop| == |s.rt| == |s.base| == |s.done| == |s.fin| == |apps|
    && (forall a :: 0 <= a < |apps| ==> |s.fin[a]| == |apps[a].nodes|)
    && (forall e :: e in s.evtq ==> EventOf(apps, e))
  }

  /** The event carries what `setKernel` copied from its kernel. */
  ghost predicate EventOf(apps: seq<App>, e: Event)
    requires AllShaped(apps)
  {
    && e.app < |apps|
    && e.kernel < |apps[e.app].nodes|
    && e.kind == apps[e.app].nodes[e.kernel].kind && 1 <= e.kind <= 3
    && e.length == apps[e.app].nodes[e.kernel].length
  }

  /** The GPU is free: the kernel runs alone until `now + length`. */
  ghost function StartKernel(s: State, e: Event): State
    requires |s.count| == 4
  {
    var run := e.(running := true, time := s.now + e.length);
    s.(evtq := s.evtq - multiset{e} + multiset{run}, count := s.count[1 := s.count[1] + 1], kSch := run.time)
  }

  function RetryTime(e: Event, now: real, kSch: real): real {
    e.time + (kSch - now) + EPSILON
  }

  /** The GPU is busy: try again just after the running kernel ends. */
  ghost function Retry(s: State, e: Event): State {
    s.(evtq := s.evtq - multiset{e} + multiset{e.(time := RetryTime(e, s.now, s.kSch))})
  }

  function RescaledTime(time: real, now: real, num: int, den: int): real
    requires den != 0
  {
    (time - now) * num as real / den as real + now
  }

  /** Stretches (or shrinks) what is left of a running copy of the given kind. */
  function Rescale(kind: int, now: real, num: int, den: int): Event -> Event
    requires den != 0
  {
    (e: Event) => if e.kind == kind && e.running then e.(time := RescaledTime(e.time, now, num, den)) else e
  }

  /** A copy among `n` on its channel takes `n` times its length. */
  function CopyEnd(now: real, length: real, n: int): real {
    now + length * n as real
  }

  /** A copy joins its channel, and slows down the copies already there. */
  ghost function StartCopy(s: State, e: Event): State
    requires |s.count| == 4 && 2 <= e.kind <= 3 && s.count[e.kind] >= 0
  {
    var c := s.count[e.kind] + 1;
    var run := e.(running := true, time := CopyEnd(s.now, e.length, c));
    var rest := s.evtq - multiset{e};
    s.(count := s.count[e.kind := c],
       evtq := if c == 1 then rest + multiset{run}
               else multiset{run} + Image(Rescale(e.kind, s.now, c, c - 1), rest))
  }

  /** The host takes `gap` to get from one kernel to the next, slowed down. */
  function HostTime(gap: real, slow: real): real {
    gap * (1.0 + slow)
  }

  /** The child of a finished kernel asks to run. */
  function ChildEvent(app: App, a: nat, k: nat, i: nat, now: real): Event
    requires Shaped(app) && k < |app.nodes| && i < |app.nodes[k].next|
  {
    var c := app.nodes[k].next[i];
    Submit(a, c, app.nodes[c], now + HostTime(app.nodes[c].start - app.nodes[k].End(), app.slow))
  }

  /** A child asks to run when the host has had its recorded share, stretched. */
  lemma ChildAfter(app: App, a: nat, k: nat, i: nat, now: real)
    requires Shaped(app) && k < |app.nodes| && i < |app.nodes[k].next|
    ensures var e, child := ChildEvent(app, a, k, i, now), app.nodes[app.nodes[k].next[i]];
      var host := child.start - (app.nodes[k].start + app.nodes[k].length);
      && e.app == a && e.kernel == app.nodes[k].next[i] && !e.running
      && e.kind == child.kind && e.length == child.length
      && e.time - now == host + host * app.slow
  {
    hide Rooted;
  }

  ghost function Children(app: App, a: nat, k: nat, now: real, n: nat): multiset<Event>
    requires Shaped(app) && k < |app.nodes| && n <= |app.nodes[k].next|
  {
    if n == 0 then multiset{}
    else Children(app, a, k, now, n - 1) + multiset{ChildEvent(app, a, k, n - 1, now)}
  }

  /** The finished event leaves and the kernels that waited for it are submitted. */
  ghost function Release(apps: seq<App>, s: State, e: Event): State
    requires Sized(apps, s) && e in s.evtq
  {
    var n := |apps[e.app].nodes[e.kernel].next|;
    s.(evtq := s.evtq - multiset{e} + Children(apps[e.app], e.app, e.kernel, s.now, n),
       count := s.count[e.kind := s.count[e.kind] - 1],
       kSch := if e.kind == 1 then 0.0 else s.kSch,
       ac := s.ac[e.app := s.ac[e.app] - 1 + n],
       done := s.done[e.app := s.done[e.app] + {e.kernel}],
       fin := s.fin[e.app := s.fin[e.app][e.kernel := s.fin[e.app][e.kernel] + 1]])
  }

  /** The copies left on a channel speed up. */
  ghost function SpeedUp(s: State, kind: int): State
    requires |s.count| == 4 && 1 <= kind <= 3
  {
    if kind != 1 && s.count[kind] >= 1
    then s.(evtq := Image(Rescale(kind, s.now, s.count[kind], s.count[kind] + 1), s.evtq))
    else s
  }

  /** An app with nothing in flight starts its next iteration or is finished. */
  ghost function Renew(apps: seq<App>, s: State, a: nat): State
    requires Sized(apps, s) && a < |apps|
  {
    if s.ac[a] != 0 then s
    else if s.loop[a] > 1 then
      var head := Head(apps[a]);
      s.(evtq := s.evtq + multiset{Submit(a, 0, head, head.start + s.now)},
         loop := s.loop[a := s.loop[a] - 1],
         ac := s.ac[a := s.ac[a] + 1],
         base := s.base[a := s.now],
         done := s.done[a := {}])
    else s.(rt := s.rt[a := s.now])
  }

  ghost predicate Steppable(apps: seq<App>, s: State) {
    Sized(apps, s) && forall t :: 0 <= t < 4 ==> s.count[t] >= 0
  }

  ghost function Finish(apps: seq<App>, s: State, e: Event): State
    requires Steppable(apps, s) && e in s.evtq
  {
    var s1 := Release(apps, s, e);
    var s2 := SpeedUp(s1, e.kind);
    ReleaseSized(apps, s, e);
    SpeedUpSized(apps, s1, e.kind);
    Renew(apps, s2, e.app)
  }

  /** One turn of the event loop, with `e` on top of the queue. */
  ghost function Next(apps: seq<App>, s: State, e: Event): State
    requires Steppable(apps, s) && e in s.evtq
  {
    var s0 := s.(now := e.time);
    if e.running then Finish(apps, s0, e)
    else if e.kind != 1 then StartCopy(s0, e)
    else if s.count[1] == 0 then StartKernel(s0, e)
    else Retry(s0, e)
  }

  // ----- every event in the queue stays an event of some kernel -------------

  lemma {:induction false} ChildrenMember(app: App, a: nat, k: nat, now: real, n: nat, x: Event)
    requires Shaped(app) && k < |app.nodes| && n <= |app.nodes[k].next|
    ensures x in Children(app, a, k, now, n) <==> exists i: nat :: i < n && x == ChildEvent(app, a, k, i, now)
  {
    if n > 0 { ChildrenMember(app, a, k, now, n - 1, x); }
  }

  lemma ReleaseSized(apps: seq<App>, s: State, e: Event)
    requires Sized(apps, s) && e in s.evtq
    ensures Sized(apps, Release(apps, s, e))
  {
    var r := Release(apps, s, e);
    var n := |apps[e.app].nodes[e.kernel].next|;
    forall x | x in r.evtq ensures EventOf(apps, x) {
      if x !in s.evtq { ChildrenMember(apps[e.app], e.app, e.kernel, s.now, n, x); }
    }
  }

  lemma RescaledSized(apps: seq<App>, q: multiset<Event>, kind: int, now: real, num: int, den: int)
    requires den != 0 && AllShaped(apps) && forall e :: e in q ==> EventOf(apps, e)
    ensures forall e :: e in Image(Rescale(kind, now, num, den), q) ==> EventOf(apps, e)
  {
    forall x | x in Image(Rescale(kind, now, num, den), q) ensures EventOf(apps, x) {
      ImageMember(Rescale(kind, now, num, den), q, x);
    }
  }

  lemma SpeedUpSized(apps: seq<App>, s: State, kind: int)
    requires Sized(apps, s) && 1 <= kind <= 3
    ensures Sized(apps, SpeedUp(s, kind))
  {
    if kind != 1 && s.count[kind] >= 1 {
      RescaledSized(apps, s.evtq, kind, s.now, s.count[kind], s.count[kind] + 1);
    }
  }
}
