/** Putting the reduction off by one run: concatenated tensors pass through
    staging areas, which return in one run what was put in the run before. */
module Deferral {
  import opened Tensors
  import opened BatchPacking
  import opened ReduceAlgorithms
  import opened BatchAllReduce
  import opened Results

  /** One first-in first-out staging area for every device and tensor. */
  class Staging {
    var queues: seq<seq<seq<Tensor>>>

    constructor (sizes: seq<nat>)
      ensures |queues| == |sizes|
      ensures forall d :: 0 <= d < |sizes| ==> |queues[d]| == sizes[d]
      ensures forall d, k :: 0 <= d < |sizes| && 0 <= k < sizes[d] ==> queues[d][k] == []
    {
      queues := seq(|sizes|, d requires 0 <= d < |sizes| => seq(sizes[d], k => []));
    }

    method Put(d: nat, k: nat, t: Tensor)
      requires d < |queues| && k < |queues[d]|
      modifies this
      ensures queues == old(queues)[d := old(queues)[d][k := old(queues)[d][k] + [t]]]
    {
      queues := queues[d := queues[d][k := queues[d][k] + [t]]];
    }

    /** Takes the value put first; with none it would wait. */
    method Get(d: nat, k: nat) returns (t: Tensor)
      requires d < |queues| && k < |queues[d]| && queues[d][k] != []
      modifies this
      ensures t == old(queues)[d][k][0]
      ensures queues == old(queues)[d := old(queues)[d][k := old(queues)[d][k][1..]]]
    {
      t := queues[d][k][0];
      queues := queues[d := queues[d][k := queues[d][k][1..]]];
    }
  }

  // ----- one exchange -----------------------------------------------------------------

  /** Every area holds one value, `staged`. */
  ghost predicate HoldsRow(row: seq<seq<Tensor>>, staged: seq<Tensor>) {
    |row| == |staged| && forall k :: 0 <= k < |row| ==> row[k] == [staged[k]]
  }

  ghost predicate HoldsRows(rows: seq<seq<seq<Tensor>>>, staged: seq<seq<Tensor>>) {
    |rows| == |staged| && forall d :: 0 <= d < |rows| ==> HoldsRow(rows[d], staged[d])
  }

  /** The tensors of one device are exchanged for those of the run before.  Whether
      a tensor is put before the other is got, or after, is left open. */
  method Exchange(staging: Staging, d: nat, ts: seq<Tensor>, putFirst: nat -> bool, ghost staged: seq<Tensor>)
      returns (got: seq<Tensor>)
    requires d < |staging.queues| && HoldsRow(staging.queues[d], staged) && |ts| == |staged|
    modifies staging
    ensures got == staged
    ensures |staging.queues| == |old(staging.queues)| && HoldsRow(staging.queues[d], ts)
    ensures forall e :: 0 <= e < |staging.queues| && e != d ==> staging.queues[e] == old(staging.queues)[e]
  {
    got := [];
    for k := 0 to |ts|
      invariant got == staged[..k]
      invariant |staging.queues| == |old(staging.queues)| && |staging.queues[d]| == |ts|
      invariant forall i :: 0 <= i < k ==> staging.queues[d][i] == [ts[i]]
      invariant forall i :: k <= i < |ts| ==> staging.queues[d][i] == [staged[i]]
      invariant forall e :: 0 <= e < |staging.queues| && e != d ==> staging.queues[e] == old(staging.queues)[e]
    {
      var t;
      if putFirst(k) {
        staging.Put(d, k, ts[k]);
        t := staging.Get(d, k);
      } else {
        t := staging.Get(d, k);
        staging.Put(d, k, ts[k]);
      }
      got := got + [t];
    }
  }

  // ----- zeros --------------------------------------------------------------------------

  function Zero(t: Tensor): Tensor { t.(data := seq(|t.data|, j => 0.0)) }

  function Zeros(ts: seq<Tensor>): seq<Tensor> {
    seq(|ts|, i requires 0 <= i < |ts| => Zero(ts[i]))
  }

  function AllZeros(devices: seq<seq<Tensor>>): seq<seq<Tensor>> {
    seq(|devices|, d requires 0 <= d < |devices| => Zeros(devices[d]))
  }

  lemma ZerosForm(ts: seq<Tensor>)
    ensures SameForms(Zeros(ts), ts) && (SoundAll(ts) ==> SoundAll(Zeros(ts)))
  {
    hide Elements;
    if SoundAll(ts) {
      forall i | 0 <= i < |ts| ensures Sound(Zeros(ts)[i]) { assert Sound(ts[i]); }
    }
  }

  lemma {:induction false} FlatZeros(ts: seq<Tensor>)
    ensures |Flat(Zeros(ts))| == |Flat(ts)| && forall j :: 0 <= j < |Flat(ts)| ==> Flat(Zeros(ts))[j] == 0.0
  {
    if ts != [] {
      FlatZeros(ts[1..]);
      assert Zeros(ts)[1..] == Zeros(ts[1..]);
    }
  }

  /** Concatenated zeros are the zeros of what is concatenated. */
  lemma ZerosConcatenated(n: nat, ts: seq<Tensor>)
    requires CanPack(n, ts)
    ensures CanPack(n, Zeros(ts)) && Concatenated(n, Zeros(ts)) == Zeros(Concatenated(n, ts))
  {
    ZerosForm(ts);
    SameCanPack(n, Zeros(ts), ts);
    if n > 0 {
      FlatZeros(ts);
      assert Flat(Zeros(ts)) == Zero(Vector(ts[0].dtype, Flat(ts))).data;
      hide Flat, AllSound;
    }
  }

  lemma {:induction false} SumOfZeros(ts: seq<Tensor>, j: nat)
    requires forall t :: t in ts ==> j < |t.data| && t.data[j] == 0.0
    ensures SumAt(ts, j) == 0.0
  {
    if ts != [] { SumOfZeros(ts[..|ts| - 1], j); }
  }

  lemma ZerosIsomorphic(devices: seq<seq<Tensor>>)
    requires Isomorphic(devices)
    ensures Isomorphic(AllZeros(devices)) && |AllZeros(devices)| == |devices| && AllZeros(devices)[0] == Zeros(devices[0])
  {
    hide SameForms, Zeros;
    forall d | 0 <= d < |devices| ensures SameForms(Zeros(devices[d]), Zeros(devices[0])) {
      assert SameForms(devices[d], devices[0]);
      ZerosForm(devices[d]);
      ZerosForm(devices[0]);
      FormsChain(Zeros(devices[d]), devices[d], devices[0]);
      FormsBack(Zeros(devices[d]), Zeros(devices[0]), devices[0]);
    }
  }

  lemma FormsChain(s: seq<Tensor>, t: seq<Tensor>, u: seq<Tensor>)
    requires SameForms(s, t) && SameForms(t, u)
    ensures SameForms(s, u)
  {
    forall i | 0 <= i < |s| ensures SameForm(s[i], u[i]) { assert SameForm(s[i], t[i]) && SameForm(t[i], u[i]); }
  }

  lemma ColumnZero(devices: seq<seq<Tensor>>, i: nat, j: nat, t: Tensor)
    requires Isomorphic(devices) && i < |devices[0]| && j < |devices[0][i].data| && Isomorphic(AllZeros(devices))
    requires |AllZeros(devices)[0]| == |devices[0]|
    requires forall d :: 0 <= d < |AllZeros(devices)| ==> i < |AllZeros(devices)[d]|
    requires t in Column(AllZeros(devices), i)
    ensures j < |t.data| && t.data[j] == 0.0
  {
    var d :| 0 <= d < |devices| && t == AllZeros(devices)[d][i];
    assert SameForms(devices[d], devices[0]) && SameForm(devices[d][i], devices[0][i]);
    assert t == Zero(devices[d][i]);
  }

  /** Nothing but zeros add up to zeros. */
  lemma ReducedZeros(devices: seq<seq<Tensor>>)
    requires Isomorphic(devices)
    ensures Isomorphic(AllZeros(devices)) && Reduced(AllZeros(devices)) == Zeros(devices[0])
  {
    ZerosIsomorphic(devices);
    var zeros := AllZeros(devices);
    var r := Reduced(zeros);
    assert SameForms(r, zeros[0]);
    SameParts(r, Zeros(devices[0]));
    forall i: nat | i < |r| ensures r[i] == Zeros(devices[0])[i] {
      assert SameForm(r[i], Zeros(devices[0])[i]);
      forall j: nat | j < |r[i].data| ensures r[i].data[j] == 0.0 {
        ReducedAt(zeros, i, j);
        forall t | t in Column(zeros, i) ensures j < |t.data| && t.data[j] == 0.0 { ColumnZero(devices, i, j, t); }
        hide Reduced, AllZeros, Zeros;
        SumOfZeros(Column(zeros, i), j);
      }
      assert r[i].data == Zeros(devices[0])[i].data;
    }
  }

  // ----- whole runs ---------------------------------------------------------------------

  ghost predicate Matches(devices: seq<seq<Tensor>>, form: seq<seq<Tensor>>) {
    |devices| == |form| && forall d :: 0 <= d < |devices| ==> SameForms(devices[d], form[d])
  }

  /** The concatenated tensors of all devices. */
  ghost function ConcatenatedAll(n: nat, devices: seq<seq<Tensor>>): seq<seq<Tensor>>
    requires CanPackAll(n, devices)
  {
    seq(|devices|, d requires 0 <= d < |devices| => Concatenated(n, devices[d]))
  }

  /** Every staging area holds one value: the tensors of `staged`, concatenated. */
  ghost predicate Holds(staging: Staging, n: nat, staged: seq<seq<Tensor>>)
    reads staging
  {
    CanPackAll(n, staged) && HoldsRows(staging.queues, ConcatenatedAll(n, staged))
  }

  lemma ConcatenatedAllIs(n: nat, devices: seq<seq<Tensor>>, concatenated: seq<seq<Tensor>>)
    requires CanPackAll(n, devices)
    ensures AllConcatenated(n, devices, concatenated) <==> concatenated == ConcatenatedAll(n, devices)
    ensures |ConcatenatedAll(n, devices)| == |devices|
  {
    hide CanPack, Concatenated, Isomorphic;
  }

  lemma SameCount(n: nat, s: seq<Tensor>, t: seq<Tensor>)
    requires SameForms(s, t) && CanPack(n, s) && CanPack(n, t)
    ensures |Concatenated(n, s)| == |Concatenated(n, t)|
  {
    hide Flat;
  }

  lemma ConcatenatedCounts(n: nat, s: seq<seq<Tensor>>, t: seq<seq<Tensor>>, d: nat)
    requires CanPackAll(n, s) && CanPackAll(n, t) && Matches(s, t) && d < |s|
    ensures |s| == |t| == |ConcatenatedAll(n, s)| == |ConcatenatedAll(n, t)|
    ensures |ConcatenatedAll(n, s)[d]| == |ConcatenatedAll(n, t)[d]|
  {
    SameCount(n, s[d], t[d]);
    hide Concatenated, SameForms, Isomorphic;
  }

  lemma ReadyForBoth(packers: seq<TensorPacker>, n: nat, s: seq<seq<Tensor>>, t: seq<seq<Tensor>>)
    requires Ready(packers, n, s) && Matches(s, t)
    ensures Ready(packers, n, t)
  {
    forall d | 0 <= d < |t| ensures packers[d].numSplits == n && packers[d].Remembers(t[d]) {
      assert packers[d].Remembers(s[d]) && SameForms(s[d], t[d]);
      SameShapes(s[d], t[d]);
      hide SameForms, Shapes, Widths;
    }
  }

  lemma RowsIf(rows: seq<seq<seq<Tensor>>>, staged: seq<seq<Tensor>>)
    requires |rows| == |staged| && forall d :: 0 <= d < |rows| ==> HoldsRow(rows[d], staged[d])
    ensures HoldsRows(rows, staged)
  {
  }

  lemma HoldsIs(staging: Staging, n: nat, staged: seq<seq<Tensor>>)
    ensures Holds(staging, n, staged) <==> CanPackAll(n, staged) && HoldsRows(staging.queues, ConcatenatedAll(n, staged))
  {
  }

  lemma ReducibleSize(n: nat, devices: seq<seq<Tensor>>)
    requires Batchable(n, devices)
    ensures CanPackAll(n, devices) && |devices| > 0
  {
    hide Reducible, CanPack;
  }

  /** One run of the session: the tensors go into the staging areas, and those of
      the run before are reduced. */
  method Run(staging: Staging, alg: Algorithm, n: nat, devices: seq<seq<Tensor>>, putFirst: (nat, nat) -> bool,
             ghost staged: seq<seq<Tensor>>)
      returns (result: Result<seq<seq<Tensor>>>)
    requires Batchable(n, devices) && Batchable(n, staged) && Matches(devices, staged) && Holds(staging, n, staged)
    modifies staging
    ensures Holds(staging, n, devices)
    ensures result.Err? <==> Fails(alg, |devices|)
    ensures result.Ok? ==>
      && Isomorphic(Counted(alg, staged))
      && Shared(result.value, |devices|, Reduced(Counted(alg, staged)))
  {
    hide *;
    ReducibleSize(n, devices);
    ReducibleSize(n, staged);
    ConcatenatedCounts(n, devices, staged, 0);
    HoldsIs(staging, n, staged);
    RowsSize(staging.queues, ConcatenatedAll(n, staged));
    var packers, concatenated := Concatenate(n, devices);
    ConcatenatedAllIs(n, devices, concatenated);
    var got: seq<seq<Tensor>> := [];
    for d := 0 to |concatenated|
      invariant got == ConcatenatedAll(n, staged)[..d] && |staging.queues| == |devices|
      invariant forall e :: 0 <= e < d ==> HoldsRow(staging.queues[e], concatenated[e])
      invariant forall e :: d <= e < |devices| ==> HoldsRow(staging.queues[e], ConcatenatedAll(n, staged)[e])
      invariant Ready(packers, n, devices)
    {
      ConcatenatedCounts(n, devices, staged, d);
      var ts := Exchange(staging, d, concatenated[d], (k: nat) => putFirst(d, k), ConcatenatedAll(n, staged)[d]);
      got := got + [ts];
    }
    RowsIf(staging.queues, concatenated);
    HoldsIs(staging, n, devices);
    assert got == ConcatenatedAll(n, staged);
    ConcatenatedAllIs(n, staged, got);
    ReadyForBoth(packers, n, devices, staged);
    result := FinishReduce(alg, n, packers, got, staged);
  }

  lemma RowsSize(rows: seq<seq<seq<Tensor>>>, staged: seq<seq<Tensor>>)
    requires HoldsRows(rows, staged)
    ensures |rows| == |staged| && forall d :: 0 <= d < |rows| ==> HoldsRow(rows[d], staged[d])
  {
    hide HoldsRow;
  }

  lemma ZerosBatchable(n: nat, devices: seq<seq<Tensor>>)
    requires Batchable(n, devices)
    ensures Batchable(n, AllZeros(devices)) && Matches(devices, AllZeros(devices)) && |AllZeros(devices)| == |devices|
    ensures forall d :: 0 <= d < |devices| ==>
      CanPack(n, devices[d]) && CanPack(n, AllZeros(devices)[d]) && AllZeros(devices)[d] == Zeros(devices[d])
  {
    ZerosIsomorphic(devices);
    hide Isomorphic, Zeros, CanPack, SameForms;
    forall d | 0 <= d < |devices|
      ensures SoundAll(Zeros(devices[d])) && CanPack(n, Zeros(devices[d])) && SameForms(devices[d], Zeros(devices[d]))
    {
      ZerosForm(devices[d]);
      SameCanPack(n, Zeros(devices[d]), devices[d]);
      FormsTurn(Zeros(devices[d]), devices[d]);
    }
    ZerosForm(devices[0]);
    SameLength(Zeros(devices[0]), devices[0]);
  }

  lemma FormsTurn(s: seq<Tensor>, t: seq<Tensor>)
    requires SameForms(s, t)
    ensures SameForms(t, s)
  {
    forall i | 0 <= i < |s| ensures SameForm(t[i], s[i]) { assert SameForm(s[i], t[i]); }
  }

  /** Run once before the first: puts zeros into all staging areas. */
  method WarmUp(n: nat, form: seq<seq<Tensor>>) returns (staging: Staging)
    requires Batchable(n, form)
    ensures fresh(staging) && Holds(staging, n, AllZeros(form))
  {
    hide *;
    ReducibleSize(n, form);
    ZerosBatchable(n, form);
    ReducibleSize(n, AllZeros(form));
    var packers, concatenated := Concatenate(n, form);
    ConcatenatedAllIs(n, form, concatenated);
    staging := new Staging(seq(|concatenated|, d requires 0 <= d < |concatenated| => |concatenated[d]|));
    for d := 0 to |concatenated|
      invariant |staging.queues| == |concatenated| && fresh(staging)
      invariant forall e :: 0 <= e < d ==> HoldsRow(staging.queues[e], Zeros(concatenated[e]))
      invariant forall e :: d <= e < |concatenated| ==>
        |staging.queues[e]| == |concatenated[e]| && forall k :: 0 <= k < |concatenated[e]| ==> staging.queues[e][k] == []
    {
      for k := 0 to |concatenated[d]|
        invariant |staging.queues| == |concatenated| && |staging.queues[d]| == |concatenated[d]| && fresh(staging)
        invariant forall e :: 0 <= e < d ==> HoldsRow(staging.queues[e], Zeros(concatenated[e]))
        invariant forall i :: 0 <= i < k ==> staging.queues[d][i] == [Zero(concatenated[d][i])]
        invariant forall i :: k <= i < |concatenated[d]| ==> staging.queues[d][i] == []
        invariant forall e :: d < e < |concatenated| ==>
          |staging.queues[e]| == |concatenated[e]| && forall k :: 0 <= k < |concatenated[e]| ==> staging.queues[e][k] == []
      {
        staging.Put(d, k, Zero(concatenated[d][k]));
        assert [] + [Zero(concatenated[d][k])] == [Zero(concatenated[d][k])];
      }
      ZeroRow(staging.queues[d], concatenated[d]);
    }
    ZerosConcatenatedAll(n, form);
    forall d | 0 <= d < |concatenated|
      ensures HoldsRow(staging.queues[d], ConcatenatedAll(n, AllZeros(form))[d])
    {
      assert concatenated[d] == ConcatenatedAll(n, form)[d];
    }
    RowsIf(staging.queues, ConcatenatedAll(n, AllZeros(form)));
    HoldsIs(staging, n, AllZeros(form));
  }

  lemma ZeroRow(row: seq<seq<Tensor>>, ts: seq<Tensor>)
    requires |row| == |ts| && forall i :: 0 <= i < |ts| ==> row[i] == [Zero(ts[i])]
    ensures HoldsRow(row, Zeros(ts))
  {
  }

  lemma ZerosConcatenatedAll(n: nat, form: seq<seq<Tensor>>)
    requires Batchable(n, form) && CanPackAll(n, form) && CanPackAll(n, AllZeros(form))
    ensures |ConcatenatedAll(n, AllZeros(form))| == |form| == |ConcatenatedAll(n, form)|
    ensures forall d :: 0 <= d < |form| ==> ConcatenatedAll(n, AllZeros(form))[d] == Zeros(ConcatenatedAll(n, form)[d])
  {
    ZerosBatchable(n, form);
    hide Batchable, CanPackAll, Concatenated, Zeros;
    forall d | 0 <= d < |form| ensures Concatenated(n, AllZeros(form)[d]) == Zeros(Concatenated(n, form[d])) {
      ZerosConcatenated(n, form[d]);
    }
  }

  /** What a run returns: the first zeros, every later one the reduction of the
      inputs of the run before it. */
  ghost predicate Delayed(alg: Algorithm, form: seq<seq<Tensor>>, inputs: seq<seq<seq<Tensor>>>, r: nat, result: seq<seq<Tensor>>)
    requires Isomorphic(form) && r < |inputs|
  {
    if r == 0 then Shared(result, |form|, Zeros(form[0]))
    else Isomorphic(Counted(alg, inputs[r - 1])) && Shared(result, |form|, Reduced(Counted(alg, inputs[r - 1])))
  }

  ghost predicate Inputs(n: nat, form: seq<seq<Tensor>>, inputs: seq<seq<seq<Tensor>>>) {
    Batchable(n, form) && forall r :: 0 <= r < |inputs| ==> Batchable(n, inputs[r]) && Matches(inputs[r], form)
  }

  lemma InputsAt(n: nat, form: seq<seq<Tensor>>, inputs: seq<seq<seq<Tensor>>>, r: nat)
    requires Inputs(n, form, inputs) && r < |inputs|
    ensures Batchable(n, inputs[r]) && Matches(inputs[r], form) && |inputs[r]| == |form|
  {
    hide Batchable, SameForms;
  }

  lemma AlikeBoth(s: seq<seq<Tensor>>, t: seq<seq<Tensor>>, form: seq<seq<Tensor>>)
    requires Matches(s, form) && Matches(t, form)
    ensures Matches(s, t)
  {
    hide SameForms;
    forall d | 0 <= d < |s| ensures SameForms(s[d], t[d]) { FormsBack(s[d], t[d], form[d]); }
  }

  lemma AlikeZeros(s: seq<seq<Tensor>>, form: seq<seq<Tensor>>)
    requires Matches(s, form) && Matches(form, AllZeros(form))
    ensures Matches(s, AllZeros(form))
  {
    hide SameForms, Zeros;
    forall d | 0 <= d < |s| ensures SameForms(s[d], AllZeros(form)[d]) { FormsChain(s[d], form[d], AllZeros(form)[d]); }
  }

  lemma ZerosReduced(alg: Algorithm, n: nat, form: seq<seq<Tensor>>)
    requires Batchable(n, form) && !Fails(alg, |form|)
    ensures Isomorphic(form) && Isomorphic(Counted(alg, AllZeros(form)))
    ensures Reduced(Counted(alg, AllZeros(form))) == Zeros(form[0])
  {
    CountedPacked(alg, n, form);
    ReducedZeros(Counted(alg, form));
    ReducibleIs(form);
    assert Counted(alg, AllZeros(form)) == AllZeros(Counted(alg, form));
    hide *;
  }

  lemma InputsForm(n: nat, form: seq<seq<Tensor>>, inputs: seq<seq<seq<Tensor>>>)
    requires Inputs(n, form, inputs)
    ensures Batchable(n, form) && Isomorphic(form)
  {
    ReducibleIs(form);
    hide Reducible, CanPackAll, Matches;
  }

  /** A whole session, in which any area may put before it gets or get before it
      puts, differently in every run: the first run returns zeros, and every later
      one exactly the reduction of what the run before it was given. */
  method Session(alg: Algorithm, n: nat, form: seq<seq<Tensor>>, inputs: seq<seq<seq<Tensor>>>,
                 putFirst: (nat, nat, nat) -> bool)
      returns (results: seq<seq<seq<Tensor>>>, staging: Staging)
    requires Inputs(n, form, inputs) && !Fails(alg, |form|)
    ensures |results| == |inputs| && Isomorphic(form)
    ensures forall r: nat :: r < |inputs| ==> Delayed(alg, form, inputs, r, results[r])
    ensures Holds(staging, n, if inputs == [] then AllZeros(form) else inputs[|inputs| - 1])
  {
    hide *;
    InputsForm(n, form, inputs);
    ZerosBatchable(n, form);
    ZerosReduced(alg, n, form);
    staging := WarmUp(n, form);
    results := [];
    ghost var staged := AllZeros(form);
    for r := 0 to |inputs|
      invariant |results| == r && fresh(staging)
      invariant forall q: nat :: q < r ==> Delayed(alg, form, inputs, q, results[q])
      invariant staged == if r == 0 then AllZeros(form) else inputs[r - 1]
      invariant Holds(staging, n, staged) && Batchable(n, staged)
    {
      InputsAt(n, form, inputs, r);
      if r == 0 {
        AlikeZeros(inputs[r], form);
      } else {
        InputsAt(n, form, inputs, r - 1);
        AlikeBoth(inputs[r], inputs[r - 1], form);
      }
      var result := Run(staging, alg, n, inputs[r], (d: nat, k: nat) => putFirst(r, d, k), staged);
      DelayedIf(alg, form, inputs, r, result.value, staged);
      results := results + [result.value];
      staged := inputs[r];
    }
  }

  lemma DelayedIf(alg: Algorithm, form: seq<seq<Tensor>>, inputs: seq<seq<seq<Tensor>>>, r: nat,
                  result: seq<seq<Tensor>>, staged: seq<seq<Tensor>>)
    requires Isomorphic(form) && r < |inputs| && staged == if r == 0 then AllZeros(form) else inputs[r - 1]
    requires Isomorphic(Counted(alg, staged)) && Shared(result, |form|, Reduced(Counted(alg, staged)))
    requires r == 0 ==> Reduced(Counted(alg, staged)) == Zeros(form[0])
    ensures Delayed(alg, form, inputs, r, result)
  {
    hide Reduced, Isomorphic, Zeros;
  }

  // ----- the control dependencies -------------------------------------------------------

  /** The put operations that a result waits for. */
  function PutDeps<Op>(n: nat, putOps: seq<Op>, i: nat): seq<Op>
    requires n == 0 ==> i < |putOps|
  {
    if n == 0 then [putOps[i]] else putOps
  }

  /** Every tensor waits for exactly one put operation, for every number of splits: its
      own, or that of the one concatenated tensor. */
  lemma OnePutEach<Op>(n: nat, ts: seq<Tensor>, putOps: seq<Op>, i: nat)
    requires CanPack(n, ts) && |putOps| == |Concatenated(n, ts)| && i < |ts|
    ensures (n == 0 ==> i < |putOps|) && |putOps| > 0
    ensures PutDeps(n, putOps, i) == [putOps[if n == 0 then i else 0]]
  {
    hide Flat;
  }

  /** Every put operation is run with some result. */
  lemma EveryPutAwaited<Op>(n: nat, ts: seq<Tensor>, putOps: seq<Op>, k: nat)
    requires CanPack(n, ts) && |putOps| == |Concatenated(n, ts)| && k < |putOps|
    ensures exists i: nat :: i < |ts| && (n == 0 ==> i < |putOps|) && putOps[k] in PutDeps(n, putOps, i)
  {
    assert k < |ts| && putOps[k] in PutDeps(n, putOps, k);
    hide Flat;
  }
}
