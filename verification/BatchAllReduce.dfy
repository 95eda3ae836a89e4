/** Batch all-reduce: pack on every device, reduce, unpack.  Then the same with
    the reduction put off by one run. */
module BatchAllReduce {
  import opened Tensors
  import opened BatchPacking
  import opened ReduceAlgorithms
  import opened Results

  /** Packs and unpacks the tensors of one device; it remembers their shapes. */
  class TensorPacker {
    const numSplits: nat
    var origShapes: seq<seq<nat>>
    var origSizes: seq<nat>

    constructor (numSplits: nat)
      ensures this.numSplits == numSplits
    {
      this.numSplits := numSplits;
      this.origShapes, this.origSizes := [], [];
    }

    /** It remembers the shapes of these tensors. */
    ghost predicate Remembers(ts: seq<Tensor>)
      reads this
    {
      numSplits > 0 ==> origShapes == Shapes(ts) && origSizes == Widths(Shapes(ts))
    }

    method MaybeConcatTensors(ts: seq<Tensor>) returns (r: seq<Tensor>)
      requires CanPack(numSplits, ts)
      modifies this
      ensures r == Concatenated(numSplits, ts) && Remembers(ts)
    {
      if numSplits == 0 { return ts; }
      origShapes := Shapes(ts);
      origSizes := Widths(origShapes);
      r := [Vector(ts[0].dtype, Flat(ts))];
    }

    method MaybeSplitTensors(ts: seq<Tensor>) returns (r: Result<seq<Tensor>>)
      ensures r.Err? <==> numSplits > 0 && |ts| != 1
      ensures r.Ok? ==> r.value == if numSplits == 0 then ts else SplitUp(numSplits, ts[0])
      ensures r.Ok? && numSplits > 0 ==> EvenPacks(r.value, numSplits, ts[0])
    {
      if numSplits == 0 { return Ok(ts); }
      if |ts| != 1 { return Err("tensors must be concatenated before splitting"); }
      var sizes := PackSizes(|ts[0].data|, numSplits);
      PackSizesTotal(|ts[0].data|, numSplits);
      var pieces := Split(ts[0].data, sizes);
      var packs := seq(numSplits, k requires 0 <= k < numSplits => Vector(ts[0].dtype, pieces[k]));
      SplitUpEven(numSplits, ts[0]);
      hide PackSizes, Split, EvenPacks;
      r := Ok(packs);
    }

    method UndoMaybeSplitTensors(packs: seq<Tensor>) returns (r: seq<Tensor>)
      requires numSplits > 0 ==> |packs| > 0
      ensures r == if numSplits == 0 then packs else [Vector(packs[0].dtype, Flat(packs))]
    {
      if numSplits == 0 { return packs; }
      r := [Vector(packs[0].dtype, Flat(packs))];
    }

    method UndoMaybeConcatTensors(ts: seq<Tensor>) returns (r: Result<seq<Tensor>>)
      requires numSplits > 0 && |ts| == 1 ==> origSizes == Widths(origShapes) && Total(origSizes) == |ts[0].data|
      ensures r.Err? <==> numSplits > 0 && |ts| != 1
      ensures r.Ok? ==> r.value == if numSplits == 0 then ts else Restore(ts[0].dtype, ts[0].data, origShapes)
    {
      if numSplits == 0 { return Ok(ts); }
      if |ts| != 1 { return Err("splitting must be undone before concatenating"); }
      var pieces := Split(ts[0].data, origSizes);
      var shapes := origShapes;
      var restored := seq(|shapes|, i requires 0 <= i < |shapes| => Tensor(ts[0].dtype, shapes[i], pieces[i]));
      r := Ok(restored);
    }
  }

  // ----- packing, reducing, unpacking -----------------------------------------------

  /** What the batch asks of its tensors. */
  ghost predicate Batchable(n: nat, devices: seq<seq<Tensor>>) {
    Reducible(devices) && CanPackAll(n, devices)
  }

  lemma SplitIsPacked(n: nat, ts: seq<Tensor>)
    requires CanPack(n, ts)
    ensures n > 0 ==> |Concatenated(n, ts)| == 1 && Packed(n, ts) == SplitUp(n, Concatenated(n, ts)[0])
    ensures n == 0 ==> Packed(n, ts) == Concatenated(n, ts)
  {
    hide SplitUp;
  }

  lemma PackedSound(n: nat, ts: seq<Tensor>)
    requires CanPack(n, ts) && |ts| > 0 && SoundAll(ts)
    ensures SoundAll(Packed(n, ts)) && |Packed(n, ts)| > 0
  {
    if n > 0 {
      var t := Vector(ts[0].dtype, Flat(ts));
      hide Flat, SplitUp, PackSizes;
      forall k | 0 <= k < n ensures Sound(SplitUp(n, t)[k]) {
        SplitUpAt(n, t, k);
        OneDimension(PackSizes(|t.data|, n)[k]);
      }
      SplitUpAt(n, t, 0);
    }
  }

  lemma OneDimension(n: nat)
    ensures Elements([n]) == n
  {
    assert [n][1..] == [];
    assert Elements([]) == 1;
  }

  lemma PackedReducible(n: nat, devices: seq<seq<Tensor>>)
    requires Batchable(n, devices)
    ensures |devices| > 0 && CanPackAll(n, devices) && Reducible(PackedAll(n, devices))
  {
    PackedAllParts(n, devices);
    hide Packed, SoundAll, SameForms, CanPack, Isomorphic;
    forall d | 0 <= d < |devices| ensures SoundAll(Packed(n, devices[d])) && |Packed(n, devices[d])| > 0 {
      assert SoundAll(devices[d]);
      LongEnough(devices, d);
      PackedSound(n, devices[d]);
    }
  }

  lemma LongEnough(devices: seq<seq<Tensor>>, d: nat)
    requires Isomorphic(devices) && d < |devices|
    ensures |devices[d]| == |devices[0]|
  {
    assert SameForms(devices[d], devices[0]);
  }

  /** Leaving devices out before packing or after is the same. */
  lemma CountedPacked(alg: Algorithm, n: nat, devices: seq<seq<Tensor>>)
    requires Batchable(n, devices) && !Fails(alg, |devices|)
    ensures Isomorphic(Counted(alg, devices)) && CanPackAll(n, Counted(alg, devices))
    ensures |Counted(alg, devices)| > 0 && Counted(alg, devices)[0] == devices[0]
    ensures Counted(alg, PackedAll(n, devices)) == PackedAll(n, Counted(alg, devices))
  {
    if alg.HierarchicalCopy? { CountedIsomorphic(devices, |devices| / 2 * 2); }
    hide Packed, CanPack, Isomorphic;
  }

  /** Unpacking the reduced packs gives the reduced tensors. */
  lemma UnpackedReduced(alg: Algorithm, n: nat, devices: seq<seq<Tensor>>, d: nat, packs: seq<Tensor>)
    requires Batchable(n, devices) && !Fails(alg, |devices|) && d < |devices|
    requires Isomorphic(Counted(alg, PackedAll(n, devices))) && packs == Reduced(Counted(alg, PackedAll(n, devices)))
    ensures Isomorphic(Counted(alg, devices)) && |packs| > 0
    ensures CanUnpack(n, packs, Shapes(devices[d]))
    ensures Unpacked(n, packs, Shapes(devices[d])) == Reduced(Counted(alg, devices))
  {
    var counted := Counted(alg, devices);
    CountedPacked(alg, n, devices);
    BatchPacking.PackingCommutes(n, counted);
    PackedAllParts(n, counted);
    var r := Reduced(counted);
    assert SameForms(r, counted[0]) && SameForms(devices[d], devices[0]);
    SameLength(r, counted[0]);
    ReducibleIs(devices);
    hide *;
    FormsBack(devices[d], r, devices[0]);
    SameShapes(devices[d], r);
    UnpackPack(n, r);
    NonemptyPacked(n, r);
  }

  lemma NonemptyPacked(n: nat, ts: seq<Tensor>)
    requires CanPack(n, ts) && |ts| > 0
    ensures |Packed(n, ts)| > 0
  {
    if n > 0 {
      SplitUpAt(n, Vector(ts[0].dtype, Flat(ts)), 0);
      hide SplitUp, Flat;
    }
  }

  lemma UnpackParts(n: nat, packs: seq<Tensor>, shapes: seq<seq<nat>>)
    requires CanUnpack(n, packs, shapes)
    ensures n == 0 ==> Unpacked(n, packs, shapes) == packs
    ensures n > 0 ==> |packs| > 0 && Total(Widths(shapes)) == |Flat(packs)|
    ensures n > 0 ==> var v := Vector(packs[0].dtype, Flat(packs));
      v.data == Flat(packs) && v.dtype == packs[0].dtype && Unpacked(n, packs, shapes) == Restore(v.dtype, v.data, shapes)
  {
    hide Restore, Flat;
  }

  /** The packers of all devices, each with the shapes of its tensors. */
  ghost predicate Ready(packers: seq<TensorPacker>, n: nat, devices: seq<seq<Tensor>>)
    reads packers
  {
    |packers| == |devices| && forall d :: 0 <= d < |packers| ==> packers[d].numSplits == n && packers[d].Remembers(devices[d])
  }

  lemma ReadyAt(packers: seq<TensorPacker>, n: nat, devices: seq<seq<Tensor>>, d: nat)
    requires Ready(packers, n, devices) && d < |devices|
    ensures |packers| == |devices| && packers[d].numSplits == n
    ensures n > 0 ==> packers[d].origShapes == Shapes(devices[d]) && packers[d].origSizes == Widths(Shapes(devices[d]))
  {
    assert packers[d].Remembers(devices[d]);
  }

  /** The concatenated tensors of all devices. */
  ghost predicate AllConcatenated(n: nat, devices: seq<seq<Tensor>>, concatenated: seq<seq<Tensor>>) {
    && CanPackAll(n, devices) && |concatenated| == |devices|
    && forall d :: 0 <= d < |devices| ==> CanPack(n, devices[d]) && concatenated[d] == Concatenated(n, devices[d])
  }

  lemma ConcatenatedAt(n: nat, devices: seq<seq<Tensor>>, concatenated: seq<seq<Tensor>>, d: nat)
    requires AllConcatenated(n, devices, concatenated) && d < |devices|
    ensures |concatenated| == |devices| && CanPack(n, devices[d]) && concatenated[d] == Concatenated(n, devices[d])
  {
    hide CanPackAll, CanPack, Concatenated;
  }

  lemma PackedAllIs(n: nat, devices: seq<seq<Tensor>>, all: seq<seq<Tensor>>)
    requires CanPackAll(n, devices) && |all| == |devices|
    requires forall d :: 0 <= d < |devices| ==> CanPack(n, devices[d]) && all[d] == Packed(n, devices[d])
    ensures all == PackedAll(n, devices)
  {
    hide CanPack, Packed;
  }

  lemma BatchableIs(n: nat, devices: seq<seq<Tensor>>)
    requires Batchable(n, devices)
    ensures CanPackAll(n, devices) && |devices| > 0
  {
    hide Reducible, CanPack;
  }

  /** Splits the concatenated tensors, reduces the packs and restores the tensors. */
  method FinishReduce(alg: Algorithm, n: nat, packers: seq<TensorPacker>, concatenated: seq<seq<Tensor>>,
                      ghost devices: seq<seq<Tensor>>)
      returns (result: Result<seq<seq<Tensor>>>)
    requires Batchable(n, devices) && Ready(packers, n, devices) && AllConcatenated(n, devices, concatenated)
    ensures result.Err? <==> Fails(alg, |devices|)
    ensures result.Ok? ==>
      && Isomorphic(Counted(alg, devices))
      && Shared(result.value, |devices|, Reduced(Counted(alg, devices)))
  {
    hide *;
    BatchableIs(n, devices);
    ReadyAt(packers, n, devices, 0);
    ConcatenatedAt(n, devices, concatenated, 0);
    var packed: seq<seq<Tensor>> := [];
    for d := 0 to |packers|
      invariant |packed| == d
      invariant forall e :: 0 <= e < d ==> CanPack(n, devices[e]) && packed[e] == Packed(n, devices[e])
    {
      ReadyAt(packers, n, devices, d);
      ConcatenatedAt(n, devices, concatenated, d);
      SplitIsPacked(n, devices[d]);
      var packs := packers[d].MaybeSplitTensors(concatenated[d]);
      packed := packed + [packs.value];
    }
    PackedAllIs(n, devices, packed);
    PackedReducible(n, devices);
    PackedLength(n, devices);
    var reduced := DoBatchAllReduce(alg, packed);
    if reduced.Err? { return reduced; }
    ghost var packs := Reduced(Counted(alg, packed));
    SharedIs(reduced.value, |devices|, packs);
    UnpackedReduced(alg, n, devices, 0, packs);
    var unpacked: seq<seq<Tensor>> := [];
    for d := 0 to |packers|
      invariant |unpacked| == d && forall e :: 0 <= e < d ==> unpacked[e] == Reduced(Counted(alg, devices))
    {
      ReadyAt(packers, n, devices, d);
      UnpackedReduced(alg, n, devices, d, packs);
      UnpackParts(n, packs, Shapes(devices[d]));
      var whole := packers[d].UndoMaybeSplitTensors(reduced.value[d]);
      var restored := packers[d].UndoMaybeConcatTensors(whole);
      unpacked := unpacked + [restored.value];
    }
    SharedIf(unpacked, |devices|, Reduced(Counted(alg, devices)));
    result := Ok(unpacked);
  }

  lemma PackedLength(n: nat, devices: seq<seq<Tensor>>)
    requires CanPackAll(n, devices)
    ensures |PackedAll(n, devices)| == |devices|
  {
    hide CanPack, Packed;
  }

  lemma SharedIs(result: seq<seq<Tensor>>, devices: nat, ts: seq<Tensor>)
    requires Shared(result, devices, ts)
    ensures |result| == devices && forall d :: 0 <= d < devices ==> result[d] == ts
  {
  }

  /** Concatenates the tensors of every device, each with a packer of its own. */
  method Concatenate(n: nat, devices: seq<seq<Tensor>>) returns (packers: seq<TensorPacker>, concatenated: seq<seq<Tensor>>)
    requires CanPackAll(n, devices)
    ensures fresh(packers)
    ensures Ready(packers, n, devices) && AllConcatenated(n, devices, concatenated)
  {
    hide CanPack, Concatenated, Isomorphic;
    packers, concatenated := [], [];
    for d := 0 to |devices|
      invariant |packers| == |concatenated| == d && fresh(packers)
      invariant forall e :: 0 <= e < d ==> packers[e].numSplits == n && packers[e].Remembers(devices[e])
      invariant forall e :: 0 <= e < d ==> CanPack(n, devices[e]) && concatenated[e] == Concatenated(n, devices[e])
    {
      var packer := new TensorPacker(n);
      var ts := packer.MaybeConcatTensors(devices[d]);
      packers, concatenated := packers + [packer], concatenated + [ts];
    }
  }

  /** For every number of splits and every algorithm: every device gets, for each
      tensor, the sum over the devices that the algorithm counts. */
  method BatchAllReduce(alg: Algorithm, devices: seq<seq<Tensor>>, numSplits: nat) returns (result: Result<seq<seq<Tensor>>>)
    requires Batchable(numSplits, devices)
    ensures result.Err? <==> Fails(alg, |devices|)
    ensures result.Ok? ==>
      && Isomorphic(Counted(alg, devices))
      && Shared(result.value, |devices|, Reduced(Counted(alg, devices)))
  {
    hide *;
    BatchableIs(numSplits, devices);
    var packers, concatenated := Concatenate(numSplits, devices);
    result := FinishReduce(alg, numSplits, packers, concatenated, devices);
  }
}
