/** Reducing all gradients of all towers, with small ones packed on the way. */
module GradientReduction {
  import opened Tensors
  import opened Ranges
  import opened Selection
  import opened GradientPacking

  /** Towers hold gradients of the same types and shapes. */
  ghost predicate Alike(towers: seq<Tower>) {
    && |towers| > 0 && Isomorphic(AllGrads(towers))
    && forall d :: 0 <= d < |towers| ==> |towers[d]| == |towers[0]| && SoundTower(towers[d])
  }

  // ----- packing cannot be seen in the result -------------------------------------

  lemma TowerEqual(s: Tower, t: Tower)
    requires Grads(s) == Grads(t) && Variables(s) == Variables(t)
    ensures s == t
  {
    assert |s| == |Grads(s)| && |t| == |Grads(t)|;
    forall i | 0 <= i < |s| ensures s[i] == t[i] {
      assert Grads(s)[i] == Grads(t)[i] && Variables(s)[i] == Variables(t)[i];
    }
  }

  lemma WithGradsParts(tower: Tower, grads: seq<Tensor>)
    requires |grads| == |tower|
    ensures Grads(WithGrads(tower, grads)) == grads && Variables(WithGrads(tower, grads)) == Variables(tower)
  {
  }

  lemma {:induction false} WithoutVariables(tower: Tower, rs: seq<Range>)
    ensures Variables(Without(tower, rs)) == Without(Variables(tower), rs)
    decreases |tower|
  {
    hide InSome;
    if tower != [] {
      WithoutVariables(tower[..|tower| - 1], rs);
      assert Variables(tower)[..|tower| - 1] == Variables(tower[..|tower| - 1]);
    }
  }

  lemma PackTowerVariables(tower: Tower, rs: seq<Range>)
    requires Packable(rs, |tower|)
    ensures Variables(PackTower(tower, rs)) == seq(|rs|, k => PLACEHOLDER) + Without(Variables(tower), rs)
  {
    WithoutVariables(tower, rs);
    hide Without, PackedTensor;
  }

  lemma SliceGrads(tower: Tower, r: Range)
    requires r.first <= r.last < |tower|
    ensures Grads(Slice(tower, r)) == Slice(Grads(tower), r) && Variables(Slice(tower, r)) == Slice(Variables(tower), r)
    ensures |Grads(tower)| == |Variables(tower)| == |tower|
  {
  }

  /** What a pack remembers is not changed by reducing. */
  lemma SamePack(s: Tower, t: Tower, r: Range)
    requires SameForms(Grads(s), Grads(t)) && Variables(s) == Variables(t) && r.first <= r.last < |s| == |t|
    ensures PackOf(s, r) == PackOf(t, r)
  {
    SliceGrads(s, r);
    SliceGrads(t, r);
    SameSlice(Grads(s), Grads(t), r);
    SameShapes(Grads(Slice(s, r)), Grads(Slice(t, r)));
    hide Slice, Grads, Variables, SameForms, Shapes;
  }

  lemma SamePacks(s: Tower, t: Tower, rs: seq<Range>)
    requires SameForms(Grads(s), Grads(t)) && Variables(s) == Variables(t) && |s| == |t| && Packable(rs, |s|)
    ensures PacksOf(s, rs) == PacksOf(t, rs)
  {
    hide SameForms, Grads, Variables, PackOf;
    forall k | 0 <= k < |rs| ensures PackOf(s, rs[k]) == PackOf(t, rs[k]) { SamePack(s, t, rs[k]); }
  }

  lemma GradAlike(s: Tower, t: Tower, i: nat)
    requires SameForms(Grads(s), Grads(t)) && i < |s| == |t|
    ensures SameForm(s[i].grad, t[i].grad)
  {
    assert SameForm(Grads(s)[i], Grads(t)[i]);
  }

  lemma SameSound(s: Tower, t: Tower, rs: seq<Range>)
    requires SameForms(Grads(s), Grads(t)) && |s| == |t| && SoundTower(t) && Packable(rs, |t|) && OneTypeEach(t, rs)
    ensures SoundTower(s) && OneTypeEach(s, rs)
  {
    forall i: nat | i < |s| ensures Sound(s[i].grad) && s[i].grad.dtype == t[i].grad.dtype {
      GradAlike(s, t, i);
      assert Sound(t[i].grad);
    }
    hide SameForms, Grads, Sound;
    forall k | 0 <= k < |rs| ensures OneType(s, rs[k]) {
      assert OneType(t, rs[k]);
    }
  }

  /** All towers packed. */
  ghost function PackTowers(towers: seq<Tower>, rs: seq<Range>): seq<Tower>
    requires forall d :: 0 <= d < |towers| ==> Packable(rs, |towers[d]|)
  {
    seq(|towers|, d requires 0 <= d < |towers| => PackTower(towers[d], rs))
  }

  lemma AlikeParts(towers: seq<Tower>, d: nat)
    requires Alike(towers) && d < |towers|
    ensures |AllGrads(towers)| == |towers| && AllGrads(towers)[d] == Grads(towers[d]) && Isomorphic(AllGrads(towers))
    ensures SameForms(AllGrads(towers)[d], AllGrads(towers)[0]) && |towers[d]| == |towers[0]| == |AllGrads(towers)[0]|
    ensures |Grads(towers[d])| == |towers[d]| && SoundTower(towers[d])
  {
    hide SameForms, SoundTower;
  }

  lemma PackTowersGrads(towers: seq<Tower>, rs: seq<Range>)
    requires Alike(towers) && Packable(rs, |towers[0]|)
    ensures |AllGrads(towers)[0]| == |towers[0]| && Isomorphic(AllGrads(towers))
    ensures forall d :: 0 <= d < |towers| ==> Packable(rs, |towers[d]|)
    ensures AllGrads(PackTowers(towers, rs)) == PackAll(AllGrads(towers), rs)
  {
    AlikeParts(towers, 0);
    hide Packable, PackTower, PackTensors;
    forall d | 0 <= d < |towers| ensures |Grads(towers[d])| == |towers[d]| == |towers[0]|
      ensures Packable(rs, |towers[d]|) && Grads(PackTower(towers[d], rs)) == PackTensors(Grads(towers[d]), rs)
    {
      AlikeParts(towers, d);
      PackTowerGrads(towers[d], rs);
    }
  }

  lemma ReducedTowerParts(towers: seq<Tower>, d: nat)
    requires Alike(towers) && d < |towers| && Isomorphic(AllGrads(towers))
    ensures Grads(ReducedTower(towers, d)) == Reduced(AllGrads(towers))
    ensures Variables(ReducedTower(towers, d)) == Variables(towers[d]) && |ReducedTower(towers, d)| == |towers[d]|
    ensures SameForms(Grads(ReducedTower(towers, d)), Grads(towers[d]))
  {
    AlikeParts(towers, d);
    SameLength(Reduced(AllGrads(towers)), AllGrads(towers)[0]);
    WithGradsParts(towers[d], Reduced(AllGrads(towers)));
    hide SameForms, Reduced, Grads, Variables, WithGrads, AllGrads;
    FormsBack(Reduced(AllGrads(towers)), Grads(towers[d]), AllGrads(towers)[0]);
  }

  lemma SizeOfPacked(tower: Tower, rs: seq<Range>, total: seq<Tensor>)
    requires Packable(rs, |tower|) && |total| == |tower| && Packable(rs, |total|)
    ensures |PackTower(tower, rs)| == |PackTensors(total, rs)|
  {
    PackTowerGrads(tower, rs);
    assert |Grads(PackTower(tower, rs))| == |PackTower(tower, rs)|;
    PackTensorsParts(total, rs);
    PackTensorsParts(Grads(tower), rs);
    hide PackTower, PackTensors, Kept, Grads;
  }

  /** A reduced packed tower is the reduced tower, packed. */
  lemma ReducedPacked(towers: seq<Tower>, rs: seq<Range>, d: nat)
    requires Alike(towers) && Packable(rs, |towers[0]|) && d < |towers| && Isomorphic(AllGrads(towers))
    ensures forall d :: 0 <= d < |towers| ==> Packable(rs, |towers[d]|)
    ensures |PackTowers(towers, rs)| == |towers| && Isomorphic(AllGrads(PackTowers(towers, rs)))
    ensures |ReducedTower(towers, d)| == |towers[d]|
    ensures ReducedTower(PackTowers(towers, rs), d) == PackTower(ReducedTower(towers, d), rs)
  {
    PackTowersGrads(towers, rs);
    var packed, x := PackTowers(towers, rs), ReducedTower(towers, d);
    assert packed[d] == PackTower(towers[d], rs);
    assert ReducedTower(packed, d) == WithGrads(packed[d], Reduced(AllGrads(packed))) by {
      hide WithGrads, Reduced;
      PackingCommutes(AllGrads(towers), rs);
    }
    hide *;
    AlikeParts(towers, d);
    ReducedTowerParts(towers, d);
    PackingCommutes(AllGrads(towers), rs);
    PackTowerGrads(x, rs);
    PackTowerVariables(x, rs);
    PackTowerVariables(towers[d], rs);
    SizeOfPacked(towers[d], rs, Reduced(AllGrads(towers)));
    WithGradsParts(packed[d], Reduced(AllGrads(packed)));
    TowerEqual(ReducedTower(packed, d), PackTower(x, rs));
  }

  /** Packing is invisible: unpacking the reduction of the packed towers gives the
      reduction of the towers themselves, every gradient at its original index,
      in its original shape and beside its original variable. */
  lemma PackingInvisible(towers: seq<Tower>, rs: seq<Range>, d: nat)
    requires Alike(towers) && Packable(rs, |towers[0]|) && OneTypeEach(towers[0], rs) && d < |towers|
    ensures forall d :: 0 <= d < |towers| ==> Packable(rs, |towers[d]|)
    ensures |PackTowers(towers, rs)| == |towers|
    ensures Isomorphic(AllGrads(towers)) && Isomorphic(AllGrads(PackTowers(towers, rs)))
    ensures AllUnpackable(ReducedTower(PackTowers(towers, rs), d), PacksOf(towers[d], rs))
    ensures UnpackTower(ReducedTower(PackTowers(towers, rs), d), PacksOf(towers[d], rs)) == ReducedTower(towers, d)
  {
    hide *;
    AlikeParts(towers, d);
    AlikeParts(towers, 0);
    var x := ReducedTower(towers, d);
    ReducedPacked(towers, rs, d);
    ReducedTowerParts(towers, d);
    SamePacks(x, towers[d], rs);
    SameSound(towers[d], towers[0], rs);
    SameSound(x, towers[d], rs);
    UnpackPack(x, rs);
  }
}
