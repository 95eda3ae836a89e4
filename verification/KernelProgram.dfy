/** From traces to simulations: what loading guarantees is what simulating
    needs, but for one link. */
module KernelProgram {
  import opened KernelTree
  import opened KernelTrace
  import opened Colocation
  import opened ColocationStructure
  import opened ColocationTiming
  import opened ColocationRuns
  import opened ColocationTheorems

  /** One application: its trace, the length of its iteration and how much the
      host slows it down. */
  datatype Input = Input(records: seq<Record>, length: real, slow: real)

  /** Records are kernels and copies of non-negative duration. */
  ghost predicate Measured(input: Input) {
    && (forall r :: r in input.records ==> 1 <= r.kind <= 3 && r.length >= 0.0)
    && input.length > 0.0 && input.slow > -1.0
  }

  ghost function AppOf(input: Input): App {
    App(input.length, input.slow, Load(input.records, input.length).nodes)
  }

  /** The last recorded kernel ends within the iteration. */
  ghost predicate EndsInside(input: Input)
    requires Rooted(Build(input.records).nodes)
  {
    var t := Build(input.records).nodes;
    t[|t| - 1].End() <= input.length
  }

  lemma LoadedMeasured(input: Input, k: nat)
    requires Measured(input) && Load(input.records, input.length).status == Ok
    requires k < |Load(input.records, input.length).nodes|
    ensures var n := Load(input.records, input.length).nodes[k]; 1 <= n.kind <= 3 && n.length >= 0.0
  {
    hide Load, Build;
    LoadedEnds(input.records, input.length);
    var t := Load(input.records, input.length).nodes;
    if 0 < k < |t| - 1 {
      LoadedIsRecorded(input.records, input.length, k);
      assert Content(t[k]) in input.records;
    }
  }

  lemma LoadedApp(input: Input)
    requires Measured(input) && Load(input.records, input.length).status == Ok
    ensures Shaped(AppOf(input)) && Sane(AppOf(input))
    ensures Ordered(AppOf(input).nodes) <==> EndsInside(input)
  {
    hide Load, Build, Ordered, Rooted, SiblingsDiffer;
    var t := AppOf(input).nodes;
    LoadedIsTree(input.records, input.length);
    LoadedEnds(input.records, input.length);
    forall k: nat | k < |t| ensures 1 <= t[k].kind <= 3 && t[k].length >= 0.0 { LoadedMeasured(input, k); }
  }

  /** The head is an empty kernel at time zero, the last one at the end of the iteration. */
  lemma LoadedEnds(records: seq<Record>, length: real)
    requires Load(records, length).status == Ok
    ensures var t := Load(records, length).nodes;
      |t| > 0 && Content(t[0]) == Record(1, 0.0, 0.0) && Content(t[|t| - 1]) == Record(1, length, 0.0)
  {
    BuildHead(records);
    var b := Build(records).nodes;
    hide Build;
    AttachAt(b, |b| - 1, Tail(length), 0);
  }

  /** For traces the program accepts, the simulated clock never runs backwards
      exactly when every app's last recorded kernel ends within its iteration:
      the one thing loading does not check. */
  lemma ClockAdvancesIffTracesEndInside(inputs: seq<Input>, max: real, run: seq<State>)
    requires forall a :: 0 <= a < |inputs| ==>
      Measured(inputs[a]) && Load(inputs[a].records, inputs[a].length).status == Ok
    requires IsRun(seq(|inputs|, a requires 0 <= a < |inputs| => AppOf(inputs[a])), max, run) && Complete(run)
    ensures ClockAdvances(run) <==> forall a :: 0 <= a < |inputs| ==> EndsInside(inputs[a])
  {
    var apps := seq(|inputs|, a requires 0 <= a < |inputs| => AppOf(inputs[a]));
    assert AllShaped(apps);
    forall a | 0 <= a < |inputs| ensures Shaped(apps[a]) && Sane(apps[a]) && (Ordered(apps[a].nodes) <==> EndsInside(inputs[a])) {
      LoadedApp(inputs[a]);
    }
    hide Load, IsRun, Complete, Shaped, Sane, EndsInside, ClockAdvances, Measured, AppOf, Ordered;
    assert AllSane(apps);
    ClockAdvancesIffOrdered(apps, max, run);
  }

  /** One kernel of ten seconds in an iteration of five. */
  const OVERLONG := Input([Record(KERNEL, 0.0, 10.0)], 5.0, 1.0)

  /** The head, the recorded kernel and the empty kernel that closes the iteration. */
  function Overlong(): App {
    App(5.0, 1.0, [HEAD.(next := [1]), Node(KERNEL, 0.0, 10.0, 0, [2]), Node(KERNEL, 5.0, 0.0, 1, [])])
  }

  lemma OverlongBuild(r: Record, t: seq<Node>)
    requires r == Record(KERNEL, 0.0, 10.0) && t == [HEAD.(next := [1]), Node(KERNEL, 0.0, 10.0, 0, [])]
    ensures Build([r]) == Loaded(Ok, t)
  {
    assert [r][..0] == [];
    var l := Build([]);
    assert l == Loaded(Ok, [HEAD]);
    assert HEAD.next + [1] == [1];
    assert Attach([HEAD], 0, r) == t;
    assert Place(l.nodes, r) == Loaded(Ok, t);
  }

  lemma OverlongLoad(r: Record, t: seq<Node>)
    requires r == Record(KERNEL, 0.0, 10.0) && t == [HEAD.(next := [1]), Node(KERNEL, 0.0, 10.0, 0, [])]
    requires Build([r]) == Loaded(Ok, t)
    ensures Load([r], 5.0) == Loaded(Ok, Overlong().nodes)
  {
    assert [] + [2] == [2];
    assert Attach(t, 1, Tail(5.0)) == Overlong().nodes;
    hide Build, Attach;
  }

  lemma OverlongLoaded()
    ensures Measured(OVERLONG) && Load(OVERLONG.records, OVERLONG.length).status == Ok && AppOf(OVERLONG) == Overlong()
  {
    var r, t := Record(KERNEL, 0.0, 10.0), [HEAD.(next := [1]), Node(KERNEL, 0.0, 10.0, 0, [])];
    assert OVERLONG == Input([r], 5.0, 1.0) && Overlong() == App(5.0, 1.0, Overlong().nodes);
    hide *;
    OverlongBuild(r, t);
    OverlongLoad(r, t);
    OverlongMeasured(r);
    OverlongApp(r, Overlong());
  }

  lemma OverlongMeasured(r: Record)
    requires r == Record(KERNEL, 0.0, 10.0)
    ensures Measured(Input([r], 5.0, 1.0))
  {
  }

  lemma OverlongApp(r: Record, app: App)
    requires Load([r], 5.0) == Loaded(Ok, app.nodes) && app.length == 5.0 && app.slow == 1.0
    ensures AppOf(Input([r], 5.0, 1.0)) == app
  {
    hide Load;
  }

  lemma OverlongChain()
    ensures Chain(Overlong())
  {
  }

  lemma OverlongPeriod(app: App)
    requires app == Overlong()
    ensures |app.nodes| == 3 && Period(app) == 0.0
  {
    assert |app.nodes| == 3 && app.nodes[0].start == app.nodes[0].length == app.nodes[1].start == 0.0;
    assert app.nodes[1].length == 10.0 && app.nodes[2].start == 5.0 && app.nodes[2].length == 0.0;
    assert HostTime(0.0, app.slow) == 0.0 && HostTime(-5.0, app.slow) == -10.0;
    hide HostTime, Overlong;
    assert Finishes(app, 0) == 0.0;
    assert Finishes(app, 1) == 10.0;
    assert Finishes(app, 2) == 0.0;
  }

  lemma NoTime(l: int)
    ensures Elapsed(l, 0.0) == 0.0
  {
  }

  /** The program loads this trace and reports that the app, whose host takes twice as
      long as recorded, finishes in no time. */
  lemma OverlongSpedUp(max: real, run: seq<State>)
    requires IsRun([Overlong()], max, run) && Complete(run)
    ensures Measured(OVERLONG) && Load(OVERLONG.records, OVERLONG.length).status == Ok && AppOf(OVERLONG) == Overlong()
    ensures |run[|run| - 1].rt| == 1 && run[|run| - 1].rt[0] == 0.0
  {
    hide *;
    OverlongLoaded();
    LoadedApp(OVERLONG);
    OverlongChain();
    OverlongPeriod(Overlong());
    LoneChainIsExact(Overlong(), max, run);
    NoTime(Loops(max, Overlong()));
  }
}
