/** Small gradients are packed together before they are reduced over all devices
    and unpacked afterwards. */
module GradientPacking {
  import opened Tensors
  import opened Ranges
  import opened Selection

  const FLOAT32 := 1
  const PLACEHOLDER := -1

  /** A gradient and the number of the variable it is for. */
  datatype GradVar = GradVar(grad: Tensor, variable: int)

  /** What is needed to restore a packed range. */
  datatype GradPack = GradPack(indices: seq<nat>, variables: seq<int>, shapes: seq<seq<nat>>)

  type Tower = seq<GradVar>

  function Grads(tower: Tower): seq<Tensor> {
    seq(|tower|, i requires 0 <= i < |tower| => tower[i].grad)
  }

  function Variables(tower: Tower): seq<int> {
    seq(|tower|, i requires 0 <= i < |tower| => tower[i].variable)
  }

  ghost function AllGrads(towers: seq<Tower>): seq<seq<Tensor>> {
    seq(|towers|, d requires 0 <= d < |towers| => Grads(towers[d]))
  }

  /** Ranges of at least two indices below `n`, one after the other. */
  ghost predicate Packable(rs: seq<Range>, n: nat) {
    Ascending(rs) && forall k :: 0 <= k < |rs| ==> rs[k].first < rs[k].last < n
  }

  // ----- what packing is for ----------------------------------------------------

  /** Every gradient replaced by the sum over all towers, beside its own variable. */
  ghost function ReducedTower(towers: seq<Tower>, d: nat): Tower
    requires Isomorphic(AllGrads(towers)) && d < |towers|
  {
    WithGrads(towers[d], Reduced(AllGrads(towers)))
  }

  function WithGrads(tower: Tower, grads: seq<Tensor>): Tower {
    seq(|tower|, i requires 0 <= i < |tower| => if i < |grads| then GradVar(grads[i], tower[i].variable) else tower[i])
  }

  // ----- packing one tower ------------------------------------------------------

  function Slice<T>(s: seq<T>, r: Range): seq<T>
    requires r.first <= r.last < |s|
  {
    s[r.first..r.last + 1]
  }

  function PackedTensor(ts: seq<Tensor>, r: Range): Tensor
    requires r.first <= r.last < |ts|
  {
    var data := Flat(Slice(ts, r));
    Tensor(ts[r.first].dtype, [|data|], data)
  }

  ghost function PackOf(tower: Tower, r: Range): GradPack
    requires r.first <= r.last < |tower|
  {
    GradPack(Expand(r), Variables(Slice(tower, r)), Shapes(Grads(Slice(tower, r))))
  }

  ghost function PackOne(tower: Tower, r: Range): GradVar
    requires r.first <= r.last < |tower|
  {
    GradVar(PackedTensor(Grads(tower), r), PLACEHOLDER)
  }

  /** The packed ranges in front, then what is not packed. */
  ghost function PackTower(tower: Tower, rs: seq<Range>): Tower
    requires Packable(rs, |tower|)
  {
    seq(|rs|, k requires 0 <= k < |rs| => PackOne(tower, rs[k])) + Without(tower, rs)
  }

  ghost function PacksOf(tower: Tower, rs: seq<Range>): seq<GradPack>
    requires Packable(rs, |tower|)
  {
    seq(|rs|, k requires 0 <= k < |rs| => PackOf(tower, rs[k]))
  }

  // ----- unpacking one tower ----------------------------------------------------

  ghost predicate Unpackable(gv: GradVar, p: GradPack) {
    && |p.indices| == |p.variables| == |p.shapes|
    && Total(Widths(p.shapes)) == |gv.grad.data|
  }

  function UnpackOne(gv: GradVar, p: GradPack): seq<GradVar>
    requires Unpackable(gv, p)
  {
    var ts := Restore(gv.grad.dtype, gv.grad.data, p.shapes);
    seq(|p.shapes|, i requires 0 <= i < |p.shapes| => GradVar(ts[i], p.variables[i]))
  }

  /** The first `m` members are inserted at their indices. */
  ghost function InsertMembers(tower: Tower, indices: seq<nat>, members: Tower, m: nat): Tower
    requires m <= |indices| && m <= |members|
  {
    if m == 0 then tower else InsertAt(InsertMembers(tower, indices, members, m - 1), indices[m - 1], members[m - 1])
  }

  ghost predicate AllUnpackable(tower: Tower, ps: seq<GradPack>) {
    |ps| <= |tower| && forall k :: 0 <= k < |ps| ==> Unpackable(tower[k], ps[k])
  }

  /** The first `n` packs are taken apart. */
  ghost function UnpackFirst(tower: Tower, ps: seq<GradPack>, n: nat): Tower
    requires AllUnpackable(tower, ps) && n <= |ps|
  {
    if n == 0 then tower[|ps|..]
    else
      InsertMembers(UnpackFirst(tower, ps, n - 1), ps[n - 1].indices, UnpackOne(tower[n - 1], ps[n - 1]), |ps[n - 1].indices|)
  }

  ghost function UnpackTower(tower: Tower, ps: seq<GradPack>): Tower
    requires AllUnpackable(tower, ps)
  {
    UnpackFirst(tower, ps, |ps|)
  }

  // ----- unpacking undoes packing -------------------------------------------------

  ghost predicate SoundTower(tower: Tower) {
    forall i :: 0 <= i < |tower| ==> Sound(tower[i].grad)
  }

  /** All members of a range are of the type of its first. */
  ghost predicate OneType(tower: Tower, r: Range)
    requires r.first <= r.last < |tower|
  {
    forall i :: r.first <= i <= r.last ==> tower[i].grad.dtype == tower[r.first].grad.dtype
  }

  ghost predicate OneTypeEach(tower: Tower, rs: seq<Range>)
    requires Packable(rs, |tower|)
  {
    forall k :: 0 <= k < |rs| ==> OneType(tower, rs[k])
  }

  lemma GradsSlice(tower: Tower, r: Range)
    requires r.first <= r.last < |tower|
    ensures Slice(Grads(tower), r) == Grads(Slice(tower, r))
  {
  }

  /** A packed range gives back its members. */
  lemma UnpackPackOne(tower: Tower, r: Range)
    requires r.first <= r.last < |tower| && SoundTower(tower) && OneType(tower, r)
    ensures Unpackable(PackOne(tower, r), PackOf(tower, r))
    ensures UnpackOne(PackOne(tower, r), PackOf(tower, r)) == Slice(tower, r)
  {
    var part := Slice(tower, r);
    var dtype := tower[r.first].grad.dtype;
    GradsSlice(tower, r);
    assert AllSound(Grads(part), dtype) by {
      hide Elements;
      forall i | 0 <= i < |part| ensures Sound(Grads(part)[i]) && Grads(part)[i].dtype == dtype {
        assert part[i] == tower[r.first + i] && Sound(tower[r.first + i].grad);
      }
    }
    RestoreFlat(Grads(part), dtype);
    hide Elements, Flat, Restore, Total, SoundTower;
    assert |Expand(r)| == |part|;
  }

  ghost function Behind(r: Range, j: nat, rs: seq<Range>): seq<Range> {
    [Range(r.first + j, r.last)] + rs
  }

  lemma BehindHolds(r: Range, j: nat, rs: seq<Range>, i: nat)
    ensures InSome(Behind(r, j, rs), i) <==> r.first + j <= i <= r.last || InSome(rs, i)
  {
    var all := Behind(r, j, rs);
    if InSome(rs, i) {
      var k :| 0 <= k < |rs| && Holds(rs[k], i);
      assert Holds(all[k + 1], i);
    }
    if r.first + j <= i <= r.last { assert Holds(all[0], i); }
  }

  lemma LaterOnly(rs: seq<Range>, last: nat, i: nat)
    requires (forall q :: q in rs ==> last < q.first) && InSome(rs, i)
    ensures i > last
  {
    var k :| 0 <= k < |rs| && Holds(rs[k], i);
    assert rs[k] in rs;
  }

  lemma BehindNext(r: Range, j: nat, rs: seq<Range>, i: nat)
    requires r.first + j <= r.last && forall q :: q in rs ==> r.last < q.first
    ensures i < r.first + j ==> !InSome(Behind(r, j, rs), i)
    ensures i == r.first + j ==> InSome(Behind(r, j, rs), i) && !InSome(Behind(r, j + 1, rs), i)
    ensures i != r.first + j ==> (InSome(Behind(r, j, rs), i) <==> InSome(Behind(r, j + 1, rs), i))
  {
    hide *;
    BehindHolds(r, j, rs, i);
    BehindHolds(r, j + 1, rs, i);
    if InSome(rs, i) { LaterOnly(rs, r.last, i); }
  }

  /** The first member still missing goes back to its index. */
  lemma InsertMember(tower: Tower, r: Range, j: nat, rs: seq<Range>)
    requires r.first + j <= r.last < |tower| && forall q :: q in rs ==> r.last < q.first
    ensures InsertAt(Without(tower, Behind(r, j, rs)), r.first + j, tower[r.first + j])
         == Without(tower, Behind(r, j + 1, rs))
  {
    hide *;
    var now, next := Behind(r, j, rs), Behind(r, j + 1, rs);
    forall i: nat
      ensures i < r.first + j ==> !InSome(now, i)
      ensures i == r.first + j ==> InSome(now, i) && !InSome(next, i)
      ensures i != r.first + j ==> (InSome(now, i) <==> InSome(next, i))
    {
      BehindNext(r, j, rs, i);
    }
    BehindNext(r, j, rs, r.first + j);
    InsertSmallest(tower, now, next, r.first + j);
  }

  lemma MembersNext(tower: Tower, indices: seq<nat>, members: Tower, m: nat)
    requires m < |indices| && m < |members|
    ensures InsertMembers(tower, indices, members, 0) == tower
    ensures InsertMembers(tower, indices, members, m + 1)
         == InsertAt(InsertMembers(tower, indices, members, m), indices[m], members[m])
  {
    hide InsertAt;
  }

  lemma ExpandAt(r: Range, j: nat)
    requires r.first + j <= r.last
    ensures |Expand(r)| == r.last - r.first + 1 && Expand(r)[j] == r.first + j
  {
  }

  lemma SliceAt<T>(s: seq<T>, r: Range, j: nat)
    requires r.first <= r.last < |s| && r.first + j <= r.last
    ensures |Slice(s, r)| == r.last - r.first + 1 && Slice(s, r)[j] == s[r.first + j]
  {
  }

  lemma {:induction false} InsertRange(tower: Tower, r: Range, m: nat, rs: seq<Range>)
    requires r.first <= r.last < |tower| && (forall q :: q in rs ==> r.last < q.first)
    requires m <= r.last - r.first + 1 == |Expand(r)| == |Slice(tower, r)|
    ensures InsertMembers(Without(tower, Behind(r, 0, rs)), Expand(r), Slice(tower, r), m)
         == Without(tower, Behind(r, m, rs))
  {
    hide *;
    var start := Without(tower, Behind(r, 0, rs));
    if m == 0 {
      MembersNext(start, Expand(r), Slice(tower, r), 0);
    } else {
      InsertRange(tower, r, m - 1, rs);
      MembersNext(start, Expand(r), Slice(tower, r), m - 1);
      ExpandAt(r, m - 1);
      SliceAt(tower, r, m - 1);
      InsertMember(tower, r, m - 1, rs);
    }
  }

  /** When a range is complete only the later ones are missing. */
  lemma RangeComplete(tower: Tower, r: Range, rs: seq<Range>)
    requires r.first <= r.last < |tower|
    ensures Without(tower, Behind(r, 0, rs)) == Without(tower, [r] + rs)
    ensures Without(tower, Behind(r, r.last - r.first + 1, rs)) == Without(tower, rs)
  {
    assert Behind(r, 0, rs) == [r] + rs;
    forall i: nat ensures InSome(Behind(r, r.last - r.first + 1, rs), i) <==> InSome(rs, i) {
      BehindHolds(r, r.last - r.first + 1, rs, i);
    }
    hide InSome, Behind;
    WithoutSame(tower, Behind(r, r.last - r.first + 1, rs), rs);
  }

  lemma PackTowerAt(tower: Tower, rs: seq<Range>, k: nat)
    requires Packable(rs, |tower|) && k < |rs|
    ensures |PacksOf(tower, rs)| == |rs| <= |PackTower(tower, rs)|
    ensures rs[k].first < rs[k].last < |tower| && PackTower(tower, rs)[k] == PackOne(tower, rs[k])
    ensures PacksOf(tower, rs)[k] == PackOf(tower, rs[k])
    ensures forall j :: k < j < |rs| ==> rs[k].last < rs[j].first
  {
    hide PackOne, PackOf, Without;
  }

  lemma PackTowerEnd(tower: Tower, rs: seq<Range>)
    requires Packable(rs, |tower|)
    ensures |PacksOf(tower, rs)| == |rs| <= |PackTower(tower, rs)|
    ensures PackTower(tower, rs)[|rs|..] == Without(tower, rs)
  {
    hide PackOne, PackOf, Without;
  }

  lemma PackedUnpackable(tower: Tower, rs: seq<Range>)
    requires Packable(rs, |tower|) && SoundTower(tower) && OneTypeEach(tower, rs)
    ensures AllUnpackable(PackTower(tower, rs), PacksOf(tower, rs))
  {
    PackTowerEnd(tower, rs);
    forall k: nat | k < |rs| ensures Unpackable(PackTower(tower, rs)[k], PacksOf(tower, rs)[k]) {
      PackTowerAt(tower, rs, k);
      assert OneType(tower, rs[k]);
      hide *;
      UnpackPackOne(tower, rs[k]);
    }
    hide PackTower, PacksOf, Unpackable;
  }

  lemma UnpackNext(tower: Tower, ps: seq<GradPack>, n: nat)
    requires AllUnpackable(tower, ps) && n < |ps|
    ensures Unpackable(tower[n], ps[n]) && |UnpackOne(tower[n], ps[n])| == |ps[n].indices|
    ensures UnpackFirst(tower, ps, n + 1)
         == InsertMembers(UnpackFirst(tower, ps, n), ps[n].indices, UnpackOne(tower[n], ps[n]), |ps[n].indices|)
  {
    hide InsertMembers, Restore;
  }

  lemma UnpackNone(tower: Tower, ps: seq<GradPack>)
    requires AllUnpackable(tower, ps)
    ensures UnpackFirst(tower, ps, 0) == tower[|ps|..]
  {
    hide Unpackable;
  }

  lemma SoundRange(tower: Tower, rs: seq<Range>, k: nat)
    requires Packable(rs, |tower|) && OneTypeEach(tower, rs) && k < |rs|
    ensures rs[k].first < rs[k].last < |tower| && OneType(tower, rs[k])
    ensures rs[k..] == [rs[k]] + rs[k + 1..] && forall q :: q in rs[k + 1..] ==> rs[k].last < q.first
  {
    hide OneType;
  }

  lemma PackIndices(tower: Tower, r: Range)
    requires r.first <= r.last < |tower|
    ensures PackOf(tower, r).indices == Expand(r) && |Expand(r)| == r.last - r.first + 1 == |Slice(tower, r)|
  {
  }

  /** The packs taken apart so far are back in their places. */
  lemma {:induction false} UnpackedSoFar(tower: Tower, rs: seq<Range>, n: nat)
    requires Packable(rs, |tower|) && SoundTower(tower) && OneTypeEach(tower, rs) && n <= |rs|
    ensures AllUnpackable(PackTower(tower, rs), PacksOf(tower, rs)) && |PacksOf(tower, rs)| == |rs|
    ensures UnpackFirst(PackTower(tower, rs), PacksOf(tower, rs), n) == Without(tower, rs[n..])
  {
    hide *;
    PackedUnpackable(tower, rs);
    PackTowerEnd(tower, rs);
    var packed, ps := PackTower(tower, rs), PacksOf(tower, rs);
    if n == 0 {
      UnpackNone(packed, ps);
      assert rs[0..] == rs;
    } else {
      var r, more := rs[n - 1], rs[n..];
      UnpackedSoFar(tower, rs, n - 1);
      UnpackNext(packed, ps, n - 1);
      PackTowerAt(tower, rs, n - 1);
      SoundRange(tower, rs, n - 1);
      UnpackPackOne(tower, r);
      PackIndices(tower, r);
      RangeComplete(tower, r, more);
      InsertRange(tower, r, |Expand(r)|, more);
    }
  }

  lemma NothingMissing(tower: Tower)
    ensures Without(tower, []) == tower
  {
    WithoutNothing(tower, []);
  }

  /** Unpacking undoes packing: every gradient is back at its index, with its
      shape and its variable. */
  lemma UnpackPack(tower: Tower, rs: seq<Range>)
    requires Packable(rs, |tower|) && SoundTower(tower) && OneTypeEach(tower, rs)
    ensures AllUnpackable(PackTower(tower, rs), PacksOf(tower, rs))
    ensures UnpackTower(PackTower(tower, rs), PacksOf(tower, rs)) == tower
  {
    UnpackedSoFar(tower, rs, |rs|);
    assert rs[|rs|..] == [];
    NothingMissing(tower);
    hide Without, UnpackFirst, AllUnpackable, PackTower, PacksOf;
  }

  // ----- packing commutes with reducing -----------------------------------------

  /** What packing does to the gradients alone. */
  ghost function PackTensors(ts: seq<Tensor>, rs: seq<Range>): seq<Tensor>
    requires Packable(rs, |ts|)
  {
    seq(|rs|, k requires 0 <= k < |rs| => PackedTensor(ts, rs[k])) + Without(ts, rs)
  }

  lemma {:induction false} WithoutGrads(tower: Tower, rs: seq<Range>)
    ensures Grads(Without(tower, rs)) == Without(Grads(tower), rs)
    decreases |tower|
  {
    hide InSome;
    if tower != [] {
      WithoutGrads(tower[..|tower| - 1], rs);
      assert Grads(tower)[..|tower| - 1] == Grads(tower[..|tower| - 1]);
    }
  }

  lemma PackTowerGrads(tower: Tower, rs: seq<Range>)
    requires Packable(rs, |tower|)
    ensures |Grads(tower)| == |tower| && Grads(PackTower(tower, rs)) == PackTensors(Grads(tower), rs)
  {
    WithoutGrads(tower, rs);
    hide Without, PackedTensor;
  }

  lemma SameSlice(s: seq<Tensor>, t: seq<Tensor>, r: Range)
    requires SameForms(s, t) && r.first <= r.last < |s|
    ensures SameForms(Slice(s, r), Slice(t, r))
    ensures SameForm(PackedTensor(s, r), PackedTensor(t, r))
  {
    forall i | 0 <= i < |Slice(s, r)| ensures SameForm(Slice(s, r)[i], Slice(t, r)[i]) {
      assert SameForm(s[r.first + i], t[r.first + i]);
    }
    assert SameForm(s[r.first], t[r.first]);
    SameSizes(Slice(s, r), Slice(t, r));
    hide Flat;
  }

  /** A packed element comes from the same place in tensors of the same forms. */
  lemma PackedFrom(ts: seq<Tensor>, form: seq<Tensor>, rs: seq<Range>, k: nat, p: nat, i: nat, j: nat)
    requires SameForms(ts, form) && Packable(rs, |form|) && k < |rs| && p < |PackedTensor(form, rs[k]).data|
    requires p < Total(Sizes(Slice(form, rs[k])))
    requires (i, j) == (rs[k].first + Place(Sizes(Slice(form, rs[k])), p).0, Place(Sizes(Slice(form, rs[k])), p).1)
    ensures Moved(ts, PackTensors(ts, rs), i, j, k, p)
  {
    var r := rs[k];
    SameSlice(ts, form, r);
    SameSizes(Slice(ts, r), Slice(form, r));
    FlatAt(Slice(ts, r), p);
    hide Flat, Place, Total, Sizes, SameForms, Without;
  }

  lemma KeptFrom(ts: seq<Tensor>, form: seq<Tensor>, rs: seq<Range>, k: nat, p: nat)
    requires SameForms(ts, form) && Packable(rs, |form|) && k < |Kept(|form|, rs)|
    requires Kept(|form|, rs)[k] < |form| && p < |form[Kept(|form|, rs)[k]].data|
    ensures Moved(ts, PackTensors(ts, rs), Kept(|form|, rs)[k], p, |rs| + k, p)
  {
    WithoutAt(ts, rs, k);
    assert SameForm(ts[Kept(|form|, rs)[k]], form[Kept(|form|, rs)[k]]);
    hide Without, Kept, SameForms, PackedTensor;
  }

  lemma PackTensorsParts(ts: seq<Tensor>, rs: seq<Range>)
    requires Packable(rs, |ts|)
    ensures |PackTensors(ts, rs)| == |rs| + |Kept(|ts|, rs)|
    ensures forall k :: 0 <= k < |rs| ==>
      rs[k].first < rs[k].last < |ts| && PackTensors(ts, rs)[k] == PackedTensor(ts, rs[k])
    ensures forall k :: 0 <= k < |Kept(|ts|, rs)| ==>
      Kept(|ts|, rs)[k] < |ts| && PackTensors(ts, rs)[|rs| + k] == ts[Kept(|ts|, rs)[k]]
  {
    WithoutSize(ts, rs);
    hide Kept, Without, PackedTensor;
    forall k: nat | k < |Kept(|ts|, rs)|
      ensures Kept(|ts|, rs)[k] < |ts| && PackTensors(ts, rs)[|rs| + k] == ts[Kept(|ts|, rs)[k]]
    {
      WithoutAt(ts, rs, k);
    }
  }

  lemma SamePacked(s: seq<Tensor>, t: seq<Tensor>, rs: seq<Range>)
    requires SameForms(s, t) && Packable(rs, |s|)
    ensures SameForms(PackTensors(s, rs), PackTensors(t, rs))
  {
    PackTensorsParts(s, rs);
    PackTensorsParts(t, rs);
    var a, b := PackTensors(s, rs), PackTensors(t, rs);
    assert |a| == |b|;
    hide Kept, PackTensors, Packable;
    forall k: nat | k < |a| ensures SameForm(a[k], b[k]) {
      if k < |rs| {
        SameSlice(s, t, rs[k]);
      } else {
        var i := Kept(|s|, rs)[k - |rs|];
        assert PackTensors(s, rs)[|rs| + (k - |rs|)] == s[i];
        assert PackTensors(t, rs)[|rs| + (k - |rs|)] == t[i];
        assert SameForm(s[i], t[i]);
      }
    }
  }

  /** The towers' gradients packed. */
  ghost function PackAll(devices: seq<seq<Tensor>>, rs: seq<Range>): seq<seq<Tensor>>
    requires Isomorphic(devices) && Packable(rs, |devices[0]|)
  {
    seq(|devices|, d requires 0 <= d < |devices| => PackTensors(devices[d], rs))
  }

  lemma PackAllAt(devices: seq<seq<Tensor>>, rs: seq<Range>)
    requires Isomorphic(devices) && Packable(rs, |devices[0]|)
    ensures |PackAll(devices, rs)| == |devices| > 0 && Isomorphic(PackAll(devices, rs))
    ensures forall d :: 0 <= d < |devices| ==>
      SameForms(devices[d], devices[0]) && Packable(rs, |devices[d]|) && PackAll(devices, rs)[d] == PackTensors(devices[d], rs)
    ensures SameForms(Reduced(devices), devices[0]) && Packable(rs, |Reduced(devices)|)
  {
    hide SameForms, PackTensors, Packable, Reduced;
    forall d | 0 <= d < |devices| ensures |devices[d]| == |devices[0]| {
      assert SameForms(devices[d], devices[0]);
      SameLength(devices[d], devices[0]);
    }
    forall d | 0 <= d < |devices| ensures SameForms(PackTensors(devices[d], rs), PackTensors(devices[0], rs)) {
      assert SameForms(devices[d], devices[0]);
      SamePacked(devices[d], devices[0], rs);
    }
    assert SameForms(Reduced(devices), devices[0]);
    SameLength(Reduced(devices), devices[0]);
  }

  lemma PackedCarried(devices: seq<seq<Tensor>>, rs: seq<Range>, k: nat, p: nat)
    requires Isomorphic(devices) && Packable(rs, |devices[0]|) && Packable(rs, |Reduced(devices)|)
    requires k < |PackTensors(devices[0], rs)| && p < |PackTensors(devices[0], rs)[k].data|
    ensures Carried(devices, PackAll(devices, rs), PackTensors(Reduced(devices), rs), k, p)
  {
    var form, all := devices[0], PackAll(devices, rs);
    PackAllAt(devices, rs);
    PackTensorsParts(form, rs);
    hide Packable, PackTensors, PackAll, SameForms, Reduced, Isomorphic, Kept, Moved, Place, Sizes, PackedTensor;
    var i: nat, j: nat;
    if k < |rs| {
      var part := Slice(form, rs[k]);
      PackedSize(form, rs[k]);
      var at := Place(Sizes(part), p);
      i, j := rs[k].first + at.0, at.1;
      forall d | 0 <= d < |devices| ensures Moved(devices[d], all[d], i, j, k, p) {
        PackedFrom(devices[d], form, rs, k, p, i, j);
      }
      PackedFrom(Reduced(devices), form, rs, k, p, i, j);
    } else {
      var n := k - |rs|;
      assert PackTensors(form, rs)[|rs| + n] == form[Kept(|form|, rs)[n]];
      i, j := Kept(|form|, rs)[n], p;
      forall d | 0 <= d < |devices| ensures Moved(devices[d], all[d], i, j, k, p) {
        KeptFrom(devices[d], form, rs, n, p);
      }
      KeptFrom(Reduced(devices), form, rs, n, p);
    }
    assert MovedAll(devices, all, i, j, k, p);
  }

  lemma PackedSize(ts: seq<Tensor>, r: Range)
    requires r.first <= r.last < |ts|
    ensures |PackedTensor(ts, r).data| == Total(Sizes(Slice(ts, r)))
  {
    FlatSize(Slice(ts, r));
    hide Flat, Total;
  }

  /** Reducing packed gradients gives the packed reduction. */
  lemma PackingCommutes(devices: seq<seq<Tensor>>, rs: seq<Range>)
    requires Isomorphic(devices) && Packable(rs, |devices[0]|)
    ensures Isomorphic(PackAll(devices, rs)) && Packable(rs, |Reduced(devices)|)
    ensures Reduced(PackAll(devices, rs)) == PackTensors(Reduced(devices), rs)
  {
    hide *;
    PackAllAt(devices, rs);
    var all, total := PackAll(devices, rs), PackTensors(Reduced(devices), rs);
    SamePacked(Reduced(devices), devices[0], rs);
    SameParts(total, all[0]);
    forall k: nat, p: nat | k < |total| && p < |total[k].data| ensures Carried(devices, all, total, k, p) {
      PackedCarried(devices, rs, k, p);
    }
    MovingCommutes(devices, all, total);
  }
}
