/** The ways in which the devices' tensors are reduced. */
module ReduceAlgorithms {
  import opened Arithmetic
  import opened Results
  import opened Tensors
  import opened GradientPacking
  import opened GradientReduction
  import opened GradientAllReduce

  datatype Topology = DGX1 | GCP_V100 | Unknown

  datatype Algorithm =
    | CopyToDevice
    | HierarchicalCopy(topology: Topology)
    | AllReduceSpec(maxBytes: int, maxGroup: int)

  const NO_VARIABLE := -2

  ghost predicate SoundAll(ts: seq<Tensor>) {
    forall i :: 0 <= i < |ts| ==> Sound(ts[i])
  }

  /** Isomorphic devices, each with at least one tensor. */
  ghost predicate Reducible(devices: seq<seq<Tensor>>) {
    Isomorphic(devices) && |devices[0]| > 0 && forall d :: 0 <= d < |devices| ==> SoundAll(devices[d])
  }

  /** Every device gets the same tensors. */
  ghost predicate Shared(result: seq<seq<Tensor>>, devices: nat, ts: seq<Tensor>) {
    |result| == devices && forall d :: 0 <= d < devices ==> result[d] == ts
  }

  /** Hierarchical copying refuses what it has no pairs of main devices for, and
      a single device, of which it cannot make two groups. */
  predicate Fails(alg: Algorithm, devices: nat) {
    match alg
    case HierarchicalCopy(DGX1) => devices < 2
    case HierarchicalCopy(GCP_V100) => devices != 8
    case HierarchicalCopy(Unknown) => true
    case _ => false
  }

  /** The devices that a reduction takes into account: hierarchical copying makes
      two groups of equal size and leaves the last of an odd number out. */
  function Counted<T>(alg: Algorithm, devices: seq<T>): seq<T> {
    if alg.HierarchicalCopy? then devices[..|devices| / 2 * 2] else devices
  }

  // ----- copying ------------------------------------------------------------------

  lemma ReducedIs(devices: seq<seq<Tensor>>, i: nat)
    requires Isomorphic(devices) && i < |devices[0]|
    ensures (forall d :: 0 <= d < |devices| ==> i < |devices[d]|) && |Column(devices, i)| == |devices| > 0
    ensures forall t :: t in Column(devices, i) ==> |t.data| == |Column(devices, i)[0].data|
    ensures |Reduced(devices)| == |devices[0]| && Reduced(devices)[i] == SumAcross(Column(devices, i))
  {
    ColumnFits(devices, i);
    hide SumAcross;
  }

  lemma IsomorphicSome(devices: seq<seq<Tensor>>)
    requires Isomorphic(devices)
    ensures |devices| > 0 && |Reduced(devices)| == |devices[0]|
  {
  }

  /** Sums each tensor on one device, from where all fetch it. */
  method ReduceByCopying(devices: seq<seq<Tensor>>) returns (result: seq<seq<Tensor>>)
    requires Isomorphic(devices)
    ensures Shared(result, |devices|, Reduced(devices))
  {
    hide *;
    IsomorphicSome(devices);
    var reduced: seq<Tensor> := [];
    for i := 0 to |devices[0]|
      invariant reduced == Reduced(devices)[..i]
    {
      ReducedIs(devices, i);
      reduced := reduced + [SumAcross(Column(devices, i))];
    }
    assert reduced == Reduced(devices);
    result := seq(|devices|, d => reduced);
    SharedIf(result, |devices|, reduced);
  }

  lemma SharedIf(result: seq<seq<Tensor>>, devices: nat, ts: seq<Tensor>)
    requires |result| == devices && forall d :: 0 <= d < devices ==> result[d] == ts
    ensures Shared(result, devices, ts)
  {
  }

  // ----- hierarchical copying -------------------------------------------------------

  const PAIRS: seq<(nat, nat)> := [(0, 5), (2, 7), (5, 0), (7, 2)]

  /** On which two devices the two groups are summed for tensor `i`. */
  function MainDevices(topology: Topology, i: nat, devices: nat): Result<(nat, nat)>
    requires devices > 0
  {
    match topology
    case DGX1 => Ok((i % devices, (i + devices / 2) % devices))
    case GCP_V100 => if devices != 8 then Err("only eight devices are supported") else Ok(PAIRS[i % 4])
    case Unknown => Err("unsupported network topology")
  }

  lemma HalfTurn(i: nat, g: nat)
    requires g > 0
    ensures i % (2 * g) < g <==> (i + g) % (2 * g) >= g
  {
    var m, q := i % (2 * g), i / (2 * g);
    assert i == 2 * g * q + m;
    if m < g {
      ModIs(i + g, 2 * g, q, m + g);
    } else {
      assert i + g == 2 * g * (q + 1) + (m - g);
      ModIs(i + g, 2 * g, q + 1, m - g);
    }
  }

  /** With an even number of devices each group is summed on a device of its own. */
  lemma MainDevicesApart(topology: Topology, i: nat, g: nat)
    requires g > 0 && MainDevices(topology, i, 2 * g).Ok?
    ensures var mains := MainDevices(topology, i, 2 * g).value;
      mains.0 < 2 * g && mains.1 < 2 * g && (mains.0 < g <==> mains.1 >= g)
  {
    if topology == DGX1 { HalfTurn(i, g); }
  }

  lemma ShiftedRemainder(q: nat, r: nat, h: nat, n: nat)
    requires r < n && h < n
    ensures (n * q + r + h) % n == if r + h < n then r + h else r + h - n
  {
    if r + h < n {
      ModIs(n * q + r + h, n, q, r + h);
    } else {
      assert n * q + r + h == n * (q + 1) + (r + h - n);
      ModIs(n * q + r + h, n, q + 1, r + h - n);
    }
  }

  /** On one topology the tensors use all devices in turn as the first main device, the
      second is half of the devices away. */
  lemma MainDevicesInTurn(i: nat, j: nat, n: nat)
    requires n > 0
    ensures MainDevices(DGX1, i, n).Ok? && MainDevices(DGX1, j, n).Ok?
    ensures var m, k := MainDevices(DGX1, i, n).value, MainDevices(DGX1, j, n).value;
      && m.0 < n && m.1 < n && (m.1 == m.0 + n / 2 || m.1 == m.0 + n / 2 - n)
      && (m.0 == k.0 <==> i % n == j % n) && (i < n ==> m.0 == i)
  {
    ShiftedRemainder(i / n, i % n, n / 2, n);
    assert i == n * (i / n) + i % n;
    if i < n { ModIs(i, n, 0, i); }
  }

  /** On the other they use the two linked pairs in turn, each in both directions. */
  lemma LinkedPairsInTurn(i: nat, j: nat)
    ensures MainDevices(GCP_V100, i, 8).Ok? && MainDevices(GCP_V100, j, 8).Ok?
    ensures var m, k := MainDevices(GCP_V100, i, 8).value, MainDevices(GCP_V100, j, 8).value;
      && (m == (0, 5) || m == (5, 0) || m == (2, 7) || m == (7, 2))
      && (m == k <==> i % 4 == j % 4) && (i == 0 ==> m == (0, 5)) && (i == 1 ==> m == (2, 7))
      && (j == i + 2 ==> k == (m.1, m.0))
  {
    var r, s := i % 4, j % 4;
    assert r < 4 && s < 4;
    assert PAIRS[0] == (0, 5) && PAIRS[1] == (2, 7) && PAIRS[2] == (5, 0) && PAIRS[3] == (7, 2);
  }

  lemma {:induction false} SumAtAppend(s: seq<Tensor>, t: seq<Tensor>, j: nat)
    requires forall x :: x in s + t ==> j < |x.data|
    ensures (forall x :: x in s ==> j < |x.data|) && (forall x :: x in t ==> j < |x.data|)
    ensures SumAt(s + t, j) == SumAt(s, j) + SumAt(t, j)
    decreases |t|
  {
    assert forall x :: x in s ==> x in s + t;
    assert forall x :: x in t ==> x in s + t;
    if t == [] {
      assert s + t == s;
    } else {
      assert (s + t)[..|s + t| - 1] == s + t[..|t| - 1];
      SumAtAppend(s, t[..|t| - 1], j);
    }
  }

  lemma SumAtPair(a: Tensor, b: Tensor, j: nat)
    requires j < |a.data| && j < |b.data|
    ensures SumAt([a, b], j) == a.data[j] + b.data[j]
  {
    assert [a, b][..1] == [a] && [a][..0] == [];
    assert SumAt([a], j) == SumAt([], j) + a.data[j];
  }

  ghost predicate Equals(ts: seq<Tensor>, n: nat) {
    forall t :: t in ts ==> |t.data| == n
  }

  /** Two group sums add up to the sum over both groups, in either order. */
  lemma SumOfSums(s: seq<Tensor>, t: seq<Tensor>, n: nat, first: seq<Tensor>, second: seq<Tensor>)
    requires |s| > 0 && |t| > 0 && Equals(s + t, n) && s[0].dtype == t[0].dtype && s[0].shape == t[0].shape
    requires (first == s && second == t) || (first == t && second == s)
    ensures Equals(s, n) && Equals(t, n) && |SumAcross(first).data| == |SumAcross(second).data| == n
    ensures SumAcross([SumAcross(first), SumAcross(second)]) == SumAcross(s + t)
  {
    assert forall x :: x in s ==> x in s + t;
    assert forall x :: x in t ==> x in s + t;
    assert s[0] in s + t && t[0] in s + t && (s + t)[0] == s[0];
    var a, b := SumAcross(first), SumAcross(second);
    var total, all := SumAcross([a, b]), SumAcross(s + t);
    forall j: nat | j < n ensures total.data[j] == all.data[j] {
      SumAtPair(a, b, j);
      SumAtAppend(s, t, j);
      hide SumAt;
    }
    hide SumAt, Equals;
    assert total.data == all.data;
  }

  lemma CountedIsomorphic(devices: seq<seq<Tensor>>, m: nat)
    requires Isomorphic(devices) && 0 < m <= |devices|
    ensures Isomorphic(devices[..m]) && |devices[..m][0]| == |devices[0]|
  {
    assert devices[..m][0] == devices[0];
    hide SameForms;
  }

  lemma ColumnPrefix(devices: seq<seq<Tensor>>, m: nat, i: nat)
    requires Isomorphic(devices) && 0 < m <= |devices| && i < |devices[0]|
    ensures (forall d :: 0 <= d < |devices| ==> i < |devices[d]|)
    ensures (forall d :: 0 <= d < m ==> i < |devices[..m][d]|)
    ensures |Column(devices, i)| == |devices| && Column(devices[..m], i) == Column(devices, i)[..m]
    ensures Equals(Column(devices, i), |devices[0][i].data|)
    ensures forall d :: 0 <= d < |devices| ==>
      Column(devices, i)[d].dtype == devices[0][i].dtype && Column(devices, i)[d].shape == devices[0][i].shape
  {
    ColumnFits(devices, i);
    hide Isomorphic, SameForms;
    forall d | 0 <= d < |devices| ensures Column(devices, i)[d].dtype == devices[0][i].dtype
      ensures Column(devices, i)[d].shape == devices[0][i].shape
    {
      assert Column(devices, i)[d] in Column(devices, i);
    }
  }

  lemma EqualsPart(ts: seq<Tensor>, n: nat, lo: nat, hi: nat)
    requires Equals(ts, n) && lo <= hi <= |ts|
    ensures Equals(ts[lo..hi], n)
    ensures lo < hi ==> |SumAcross(ts[lo..hi]).data| == n
  {
    hide SumAt;
  }

  lemma Halves(ts: seq<Tensor>, g: nat)
    requires 2 * g <= |ts|
    ensures ts[..2 * g] == ts[..g] + ts[g..g + g] && ts[0..0 + g] == ts[..g]
  {
  }

  lemma EqualsIs(ts: seq<Tensor>, n: nat)
    requires Equals(ts, n)
    ensures forall t :: t in ts ==> |t.data| == n
  {
  }

  /** One tensor: sums each of two groups, then the two sums. */
  method ReduceGroups(column: seq<Tensor>, g: nat, main: nat, ghost n: nat) returns (total: Tensor)
    requires 0 < g && 2 * g <= |column| && Equals(column, n)
    requires forall d :: 0 <= d < |column| ==> column[d].dtype == column[0].dtype && column[d].shape == column[0].shape
    ensures Equals(column[..2 * g], n) && total == SumAcross(column[..2 * g])
  {
    hide *;
    var begin0, begin1 := 0, g;
    if main >= g { begin0, begin1 := g, 0; }
    EqualsPart(column, n, begin0, begin0 + g);
    EqualsPart(column, n, begin1, begin1 + g);
    EqualsPart(column, n, 0, 2 * g);
    Halves(column, g);
    EqualsIs(column[begin0..begin0 + g], n);
    EqualsIs(column[begin1..begin1 + g], n);
    SumOfSums(column[..g], column[g..g + g], n, column[begin0..begin0 + g], column[begin1..begin1 + g]);
    var group0 := SumAcross(column[begin0..begin0 + g]);
    var group1 := SumAcross(column[begin1..begin1 + g]);
    total := SumAcross([group0, group1]);
    assert column[0..2 * g] == column[..2 * g];
  }

  lemma ReducedCounted(devices: seq<seq<Tensor>>, m: nat, i: nat, total: Tensor)
    requires Isomorphic(devices) && 0 < m <= |devices| && i < |devices[0]| && Isomorphic(devices[..m])
    requires forall d :: 0 <= d < |devices| ==> i < |devices[d]|
    requires m <= |Column(devices, i)| && Equals(Column(devices, i)[..m], |devices[0][i].data|)
    requires total == SumAcross(Column(devices, i)[..m])
    ensures |Reduced(devices[..m])| == |devices[0]| && Reduced(devices[..m])[i] == total
  {
    assert |devices[..m][0]| == |devices[0]|;
    ReducedIs(devices[..m], i);
    ColumnPrefix(devices, m, i);
    hide Reduced, SumAcross, Column, Isomorphic;
  }

  /** Hierarchical copying.  Every device is served by the root of its own group. */
  method ReduceHierarchically(devices: seq<seq<Tensor>>, topology: Topology) returns (result: Result<seq<seq<Tensor>>>)
    requires Reducible(devices)
    ensures result.Err? <==> Fails(HierarchicalCopy(topology), |devices|)
    ensures result.Ok? ==>
      && Isomorphic(devices[..|devices| / 2 * 2])
      && Shared(result.value, |devices|, Reduced(devices[..|devices| / 2 * 2]))
  {
    ReducibleIs(devices);
    hide *;
    var numDevices := |devices|;
    var g := numDevices / 2;
    FailsIs(topology, numDevices, 0);
    if g > 0 { CountedIsomorphic(devices, 2 * g); IsomorphicSome(devices[..2 * g]); }
    ghost var total := if g > 0 then Reduced(devices[..2 * g]) else [];
    var rows: seq<seq<Tensor>> := [];
    for i := 0 to |devices[0]|
      invariant |rows| == i && (i > 0 ==> !Fails(HierarchicalCopy(topology), numDevices) && |total| == |devices[0]|)
      invariant forall k :: 0 <= k < i ==> |rows[k]| == numDevices && forall j :: 0 <= j < numDevices ==> rows[k][j] == total[k]
    {
      FailsIs(topology, numDevices, i);
      var mains := MainDevices(topology, i, numDevices);
      if mains.Err? { return Err(mains.message); }
      if g == 0 { return Err("add_n needs at least one tensor"); }
      ColumnPrefix(devices, 2 * g, i);
      var sum := ReduceGroups(Column(devices, i), g, mains.value.0, |devices[0][i].data|);
      ReducedCounted(devices, 2 * g, i, sum);
      var bcast0, bcast1 := sum, sum;
      var row: seq<Tensor> := [];
      for j := 0 to numDevices
        invariant |row| == j && forall e :: 0 <= e < j ==> row[e] == sum
      {
        row := row + [if (mains.value.0 < g) == (j < g) then bcast0 else bcast1];
      }
      rows := rows + [row];
    }
    var value := seq(numDevices, j requires 0 <= j < numDevices => seq(|rows|, k requires 0 <= k < |rows| => rows[k][j]));
    forall j | 0 <= j < numDevices ensures value[j] == total { assert |value[j]| == |total|; }
    SharedIf(value, numDevices, total);
    result := Ok(value);
  }

  lemma ReducibleIs(devices: seq<seq<Tensor>>)
    requires Reducible(devices)
    ensures Isomorphic(devices) && |devices| > 0 && |devices[0]| > 0
  {
    hide SoundAll;
  }

  lemma FailsIs(topology: Topology, devices: nat, i: nat)
    requires devices > 0
    ensures Fails(HierarchicalCopy(topology), devices) <==>
      MainDevices(topology, i, devices).Err? || devices / 2 == 0
  {
  }

  // ----- when hierarchical copying is exact -----------------------------------------

  ghost predicate AllZero(ts: seq<Tensor>) {
    forall i, j :: 0 <= i < |ts| && 0 <= j < |ts[i].data| ==> ts[i].data[j] == 0.0
  }

  lemma LastCounts(devices: seq<seq<Tensor>>, i: nat, j: nat)
    requires Isomorphic(devices) && |devices| > 1 && i < |devices[0]| && j < |devices[0][i].data|
    requires Isomorphic(devices[..|devices| - 1])
    ensures i < |devices[|devices| - 1]| && j < |devices[|devices| - 1][i].data|
    ensures i < |Reduced(devices)| == |Reduced(devices[..|devices| - 1])|
    ensures j < |Reduced(devices)[i].data| == |Reduced(devices[..|devices| - 1])[i].data|
    ensures Reduced(devices)[i].data[j] == Reduced(devices[..|devices| - 1])[i].data[j] + devices[|devices| - 1][i].data[j]
  {
    var m := |devices| - 1;
    assert SameForm(devices[m][i], devices[0][i]);
    assert devices[..m][0] == devices[0];
    ReducedAt(devices, i, j);
    ReducedAt(devices[..m], i, j);
    ColumnPrefix(devices, m, i);
    hide Reduced, Isomorphic;
    assert Column(devices, i)[m] == devices[m][i];
  }

  /** With an odd number of devices hierarchical copying gives the sum over all of
      them if, and only if, the last has nothing but zeros to add. */
  lemma OddIsExactIffLastIsZero(devices: seq<seq<Tensor>>, topology: Topology)
    requires Isomorphic(devices) && |devices| > 1 && |devices| % 2 == 1
    ensures Isomorphic(Counted(HierarchicalCopy(topology), devices))
    ensures Reduced(Counted(HierarchicalCopy(topology), devices)) == Reduced(devices) <==> AllZero(devices[|devices| - 1])
  {
    var m := |devices| - 1;
    assert |devices| / 2 * 2 == m;
    CountedIsomorphic(devices, m);
    var part, all, last := Reduced(devices[..m]), Reduced(devices), devices[m];
    assert SameForms(all, devices[0]) && SameForms(part, devices[..m][0]) && SameForms(last, devices[0]);
    assert devices[..m][0] == devices[0];
    SameParts(all, devices[0]);
    SameParts(part, devices[0]);
    SameParts(last, devices[0]);
    forall i: nat, j: nat | i < |last| && j < |last[i].data|
      ensures all[i].data[j] == part[i].data[j] + last[i].data[j]
    {
      LastCounts(devices, i, j);
    }
    hide Reduced, Isomorphic;
    if AllZero(last) {
      forall i | 0 <= i < |all| ensures all[i] == part[i] {
        assert SameForm(all[i], devices[0][i]) && SameForm(part[i], devices[0][i]);
        assert all[i].data == part[i].data;
      }
      assert all == part;
    } else {
      var i: nat, j: nat :| i < |last| && j < |last[i].data| && last[i].data[j] != 0.0;
      assert all[i].data[j] != part[i].data[j];
    }
  }

  /** With more than one device hierarchical copying gives the sum over all of them if,
      and only if, their number is even or the last has nothing but zeros to add. */
  lemma HierarchicalIsExactIff(devices: seq<seq<Tensor>>, topology: Topology)
    requires Isomorphic(devices) && |devices| > 1
    ensures Isomorphic(Counted(HierarchicalCopy(topology), devices))
    ensures Reduced(Counted(HierarchicalCopy(topology), devices)) == Reduced(devices)
      <==> |devices| % 2 == 0 || AllZero(devices[|devices| - 1])
  {
    if |devices| % 2 == 0 {
      assert Counted(HierarchicalCopy(topology), devices) == devices;
      hide Reduced, Isomorphic;
    } else {
      hide Reduced, Isomorphic, AllZero;
      OddIsExactIffLastIsZero(devices, topology);
    }
  }

  // ----- reducing as gradients ---------------------------------------------------------

  function AsTower(ts: seq<Tensor>): Tower {
    seq(|ts|, i requires 0 <= i < |ts| => GradVar(ts[i], NO_VARIABLE))
  }

  lemma AsTowers(devices: seq<seq<Tensor>>, towers: seq<Tower>)
    requires Reducible(devices) && |towers| == |devices| && forall d :: 0 <= d < |devices| ==> towers[d] == AsTower(devices[d])
    ensures AllGrads(towers) == devices && Alike(towers) && towers[0] != []
  {
    forall d | 0 <= d < |devices| ensures Grads(towers[d]) == devices[d] && SoundTower(towers[d]) {
      assert SoundAll(devices[d]);
      hide Sound;
    }
    assert AllGrads(towers) == devices;
    hide SoundTower, SoundAll, Grads, AllGrads;
    forall d | 0 <= d < |devices| ensures |towers[d]| == |towers[0]| {
      assert SameForms(devices[d], devices[0]);
    }
  }

  lemma TowerReduced(devices: seq<seq<Tensor>>, towers: seq<Tower>, d: nat)
    requires Isomorphic(devices) && AllGrads(towers) == devices && Alike(towers) && d < |towers|
    ensures Grads(ReducedTower(towers, d)) == Reduced(devices)
  {
    ReducedTowerParts(towers, d);
    hide AllGrads, Reduced, ReducedTower, Grads;
  }

  /** Reduces the tensors as gradients without variables. */
  method ReduceAsGradients(devices: seq<seq<Tensor>>, maxBytes: int, maxGroup: int) returns (result: seq<seq<Tensor>>)
    requires Reducible(devices)
    ensures Isomorphic(devices) && Shared(result, |devices|, Reduced(devices))
  {
    ReducibleIs(devices);
    hide *;
    var towers := seq(|devices|, d requires 0 <= d < |devices| => AsTower(devices[d]));
    AsTowers(devices, towers);
    var reduced := SumGradientsAllReduce(towers, maxBytes, maxGroup, 1);
    forall d: nat | d < |towers| ensures Grads(ReducedTower(towers, d)) == Reduced(devices) {
      TowerReduced(devices, towers, d);
    }
    result := seq(|reduced|, d requires 0 <= d < |reduced| => Grads(reduced[d]));
    SharedIf(result, |devices|, Reduced(devices));
  }

  /** Whatever the algorithm: every device gets the sums over the devices counted. */
  method DoBatchAllReduce(alg: Algorithm, devices: seq<seq<Tensor>>) returns (result: Result<seq<seq<Tensor>>>)
    requires Reducible(devices)
    ensures result.Err? <==> Fails(alg, |devices|)
    ensures result.Ok? ==>
      && Isomorphic(Counted(alg, devices))
      && Shared(result.value, |devices|, Reduced(Counted(alg, devices)))
  {
    ReducibleIs(devices);
    hide Reduced, Shared, Isomorphic, Reducible;
    match alg
    case CopyToDevice =>
      var value := ReduceByCopying(devices);
      result := Ok(value);
    case HierarchicalCopy(topology) =>
      result := ReduceHierarchically(devices, topology);
    case AllReduceSpec(maxBytes, maxGroup) =>
      var value := ReduceAsGradients(devices, maxBytes, maxGroup);
      result := Ok(value);
  }
}
