/** All tensors of a device concatenated and split into a few packs of nearly
    equal size, and back. */
module BatchPacking {
  import opened Tensors

  /** All tensors of one type. */
  ghost predicate Uniform(ts: seq<Tensor>) {
    |ts| > 0 && AllSound(ts, ts[0].dtype)
  }

  /** Zero splits mean that nothing is concatenated at all; concatenating needs
      tensors, of one type. */
  ghost predicate CanPack(n: nat, ts: seq<Tensor>) {
    n > 0 ==> Uniform(ts)
  }

  function Quotient(total: nat, n: nat): nat
    requires n > 0
  {
    total / n
  }

  /** Equal sizes but for the last, which takes what is left over. */
  function SplitSizes(total: nat, n: nat): seq<int>
    requires n > 0
  {
    var size := Quotient(total, n);
    seq(n - 1, k => size) + [total - size * (n - 1)]
  }

  function Repeat(x: nat, n: nat): seq<nat> {
    seq(n, k => x)
  }

  lemma {:induction false} TotalRepeat(x: nat, n: nat, last: nat)
    ensures Total(Repeat(x, n) + [last]) == x * n + last
  {
    var sizes := Repeat(x, n) + [last];
    if n > 0 {
      TotalRepeat(x, n - 1, last);
      assert sizes[1..] == Repeat(x, n - 1) + [last];
      assert x * n == x * (n - 1) + x;
    } else {
      assert sizes == [last] && sizes[1..] == [];
    }
  }

  lemma QuotientBound(total: nat, n: nat)
    requires n > 0
    ensures Quotient(total, n) * (n - 1) <= total
  {
    var q := total / n;
    assert q * n <= total;
    assert q * (n - 1) == q * n - q;
  }

  /** The packs share out the whole; the last is at least as large as the others. */
  lemma SplitSizesTotal(total: nat, n: nat)
    requires n > 0
    ensures forall k :: 0 <= k < n ==> SplitSizes(total, n)[k] >= 0
    ensures |SplitSizes(total, n)| == n && Total(AsNats(SplitSizes(total, n))) == total
  {
    var size := Quotient(total, n);
    QuotientBound(total, n);
    var last: nat := total - size * (n - 1);
    TotalRepeat(size, n - 1, last);
    assert AsNats(SplitSizes(total, n)) == Repeat(size, n - 1) + [last];
  }

  function AsNats(s: seq<int>): (r: seq<nat>)
  {
    seq(|s|, k requires 0 <= k < |s| => if s[k] >= 0 then s[k] else 0)
  }

  function PackSizes(total: nat, n: nat): seq<nat>
    requires n > 0
  {
    AsNats(SplitSizes(total, n))
  }

  lemma PackSizesTotal(total: nat, n: nat)
    requires n > 0
    ensures |PackSizes(total, n)| == n && Total(PackSizes(total, n)) == total
  {
    SplitSizesTotal(total, n);
  }

  /** All sizes but the last are the same; the last is no smaller, and larger by less
      than there are sizes. */
  lemma SplitSizesEven(total: nat, n: nat, k: nat)
    requires n > 0 && k < n
    ensures |PackSizes(total, n)| == n
    ensures var size, last := PackSizes(total, n)[0], PackSizes(total, n)[n - 1];
      && size <= last < size + n
      && (k < n - 1 ==> PackSizes(total, n)[k] == size)
  {
    QuotientBound(total, n);
    assert total == n * (total / n) + total % n;
    assert total - Quotient(total, n) * (n - 1) == Quotient(total, n) + total % n;
  }

  // ----- packing one device ---------------------------------------------------------

  function Vector(dtype: nat, data: seq<real>): Tensor {
    Tensor(dtype, [|data|], data)
  }

  ghost function Concatenated(n: nat, ts: seq<Tensor>): seq<Tensor>
    requires CanPack(n, ts)
  {
    if n == 0 then ts else [Vector(ts[0].dtype, Flat(ts))]
  }

  ghost function SplitUp(n: nat, t: Tensor): seq<Tensor>
    requires n > 0
  {
    PackSizesTotal(|t.data|, n);
    var pieces := Split(t.data, PackSizes(|t.data|, n));
    seq(n, k requires 0 <= k < n => Vector(t.dtype, pieces[k]))
  }

  ghost function Packed(n: nat, ts: seq<Tensor>): seq<Tensor>
    requires CanPack(n, ts)
  {
    if n == 0 then ts else SplitUp(n, Vector(ts[0].dtype, Flat(ts)))
  }

  ghost predicate CanUnpack(n: nat, packs: seq<Tensor>, shapes: seq<seq<nat>>) {
    n > 0 ==> |packs| > 0 && Total(Widths(shapes)) == |Flat(packs)|
  }

  ghost function Unpacked(n: nat, packs: seq<Tensor>, shapes: seq<seq<nat>>): seq<Tensor>
    requires CanUnpack(n, packs, shapes)
  {
    if n == 0 then packs else Restore(packs[0].dtype, Flat(packs), shapes)
  }

  lemma {:induction false} FlatConcat(ts: seq<Tensor>, pieces: seq<seq<real>>)
    requires |pieces| == |ts| && forall i :: 0 <= i < |ts| ==> ts[i].data == pieces[i]
    ensures Flat(ts) == Concat(pieces)
  {
    if ts != [] { FlatConcat(ts[1..], pieces[1..]); }
  }

  lemma FlatSplitUp(n: nat, t: Tensor)
    requires n > 0
    ensures |SplitUp(n, t)| == n && Flat(SplitUp(n, t)) == t.data && SplitUp(n, t)[0].dtype == t.dtype
  {
    PackSizesTotal(|t.data|, n);
    var pieces := Split(t.data, PackSizes(|t.data|, n));
    ConcatSplit(t.data, PackSizes(|t.data|, n));
    hide Split, Concat, PackSizes, Flat;
    FlatConcat(SplitUp(n, t), pieces);
  }

  /** The packs are vectors that share out the data in order, all equally long but for
      the last, which is no shorter, and longer by less than there are packs. */
  ghost predicate EvenPacks(packs: seq<Tensor>, n: nat, t: Tensor) {
    && |packs| == n > 0 && Flat(packs) == t.data
    && (forall k :: 0 <= k < n ==> packs[k].dtype == t.dtype && packs[k].shape == [|packs[k].data|])
    && (forall k :: 0 <= k < n - 1 ==> |packs[k].data| == |packs[0].data|)
    && |packs[0].data| <= |packs[n - 1].data| < |packs[0].data| + n
  }

  lemma SplitUpEven(n: nat, t: Tensor)
    requires n > 0
    ensures EvenPacks(SplitUp(n, t), n, t)
  {
    FlatSplitUp(n, t);
    hide SplitUp, Flat, PackSizes;
    forall k: nat | k < n
      ensures var packs := SplitUp(n, t);
        && |packs| == n && packs[k].dtype == t.dtype && packs[k].shape == [|packs[k].data|]
        && (k < n - 1 ==> |packs[k].data| == |packs[0].data|)
    {
      SplitUpAt(n, t, k);
      SplitUpAt(n, t, 0);
      SplitSizesEven(|t.data|, n, k);
    }
    SplitUpAt(n, t, 0);
    SplitUpAt(n, t, n - 1);
    SplitSizesEven(|t.data|, n, 0);
  }

  /** Unpacking undoes packing, for every number of splits. */
  lemma UnpackPack(n: nat, ts: seq<Tensor>)
    requires CanPack(n, ts)
    ensures CanUnpack(n, Packed(n, ts), Shapes(ts)) && Unpacked(n, Packed(n, ts), Shapes(ts)) == ts
  {
    if n > 0 {
      FlatSplitUp(n, Vector(ts[0].dtype, Flat(ts)));
      RestoreFlat(ts, ts[0].dtype);
      hide SplitUp, Flat, Restore, AllSound;
    }
  }

  // ----- packing commutes with reducing ---------------------------------------------

  lemma SplitUpAt(n: nat, t: Tensor, k: nat)
    requires n > 0 && k < n
    ensures |PackSizes(|t.data|, n)| == n && |SplitUp(n, t)| == n
    ensures SplitUp(n, t)[k].dtype == t.dtype && SplitUp(n, t)[k].shape == [PackSizes(|t.data|, n)[k]]
    ensures |SplitUp(n, t)[k].data| == PackSizes(|t.data|, n)[k]
  {
    PackSizesTotal(|t.data|, n);
    hide PackSizes;
  }

  lemma SplitUpElement(n: nat, t: Tensor, k: nat, p: nat)
    requires n > 0 && k < n && |PackSizes(|t.data|, n)| == n && p < PackSizes(|t.data|, n)[k]
    ensures |SplitUp(n, t)| == n && p < |SplitUp(n, t)[k].data|
    ensures Offset(PackSizes(|t.data|, n), k) + p < |t.data|
    ensures SplitUp(n, t)[k].data[p] == t.data[Offset(PackSizes(|t.data|, n), k) + p]
  {
    PackSizesTotal(|t.data|, n);
    SplitAt(t.data, PackSizes(|t.data|, n), k, p);
    hide PackSizes, Offset, Split;
  }

  lemma SamePacked(n: nat, s: seq<Tensor>, t: seq<Tensor>)
    requires SameForms(s, t) && CanPack(n, s) && CanPack(n, t)
    ensures SameForms(Packed(n, s), Packed(n, t))
  {
    if n > 0 {
      SameSizes(s, t);
      assert SameForm(s[0], t[0]);
      var a, b := Vector(s[0].dtype, Flat(s)), Vector(t[0].dtype, Flat(t));
      hide SplitUp, Flat, PackSizes;
      SplitUpAt(n, a, 0);
      SplitUpAt(n, b, 0);
      forall k | 0 <= k < n ensures SameForm(SplitUp(n, a)[k], SplitUp(n, b)[k]) {
        SplitUpAt(n, a, k);
        SplitUpAt(n, b, k);
      }
    }
  }

  lemma PackedIs(n: nat, ts: seq<Tensor>)
    requires n > 0 && CanPack(n, ts)
    ensures |ts| > 0 && Packed(n, ts) == SplitUp(n, Vector(ts[0].dtype, Flat(ts)))
    ensures Vector(ts[0].dtype, Flat(ts)).data == Flat(ts)
  {
    hide SplitUp, Flat;
  }

  lemma MovedIf(from: seq<Tensor>, to: seq<Tensor>, i: nat, j: nat, k: nat, p: nat)
    requires i < |from| && j < |from[i].data| && k < |to| && p < |to[k].data| && to[k].data[p] == from[i].data[j]
    ensures Moved(from, to, i, j, k, p)
  {
  }

  /** Where element `p` of pack `k` comes from, in tensors of the given sizes. */
  lemma PackedFrom(n: nat, ts: seq<Tensor>, sizes: seq<nat>, total: nat, k: nat, p: nat, at: (nat, nat))
    requires n > 0 && CanPack(n, ts) && Sizes(ts) == sizes && Total(sizes) == total && k < n
    requires |PackSizes(total, n)| == n && p < PackSizes(total, n)[k]
    requires Offset(PackSizes(total, n), k) + p < total && at == Place(sizes, Offset(PackSizes(total, n), k) + p)
    ensures Moved(ts, Packed(n, ts), at.0, at.1, k, p)
  {
    hide *;
    FlatSize(ts);
    PackedIs(n, ts);
    SplitUpElement(n, Vector(ts[0].dtype, Flat(ts)), k, p);
    FlatAt(ts, Offset(PackSizes(total, n), k) + p);
    MovedIf(ts, Packed(n, ts), at.0, at.1, k, p);
  }

  ghost predicate CanPackAll(n: nat, devices: seq<seq<Tensor>>) {
    Isomorphic(devices) && forall d :: 0 <= d < |devices| ==> CanPack(n, devices[d])
  }

  ghost function PackedAll(n: nat, devices: seq<seq<Tensor>>): seq<seq<Tensor>>
    requires CanPackAll(n, devices)
  {
    seq(|devices|, d requires 0 <= d < |devices| => Packed(n, devices[d]))
  }

  lemma SameCanPack(n: nat, s: seq<Tensor>, t: seq<Tensor>)
    requires SameForms(s, t) && CanPack(n, t)
    ensures CanPack(n, s)
  {
    hide Elements;
    if n > 0 {
      forall i | 0 <= i < |s| ensures Sound(s[i]) && s[i].dtype == s[0].dtype {
        assert SameForm(s[i], t[i]) && SameForm(s[0], t[0]) && Sound(t[i]);
      }
    }
  }

  lemma PackedAllParts(n: nat, devices: seq<seq<Tensor>>)
    requires CanPackAll(n, devices)
    ensures |PackedAll(n, devices)| == |devices| > 0 && Isomorphic(PackedAll(n, devices)) && Isomorphic(devices)
    ensures forall d :: 0 <= d < |devices| ==>
      CanPack(n, devices[d]) && SameForms(devices[d], devices[0]) && PackedAll(n, devices)[d] == Packed(n, devices[d])
    ensures SameForms(Reduced(devices), devices[0]) && CanPack(n, Reduced(devices))
  {
    SameCanPack(n, Reduced(devices), devices[0]);
    hide SameForms, Packed, CanPack, Reduced;
    forall d | 0 <= d < |devices| ensures SameForms(Packed(n, devices[d]), Packed(n, devices[0])) {
      SamePacked(n, devices[d], devices[0]);
    }
  }

  lemma NoneMoved(ts: seq<Tensor>, k: nat, p: nat)
    requires k < |ts| && p < |ts[k].data|
    ensures CanPack(0, ts) && Moved(ts, Packed(0, ts), k, p, k, p)
  {
  }

  lemma PackedElements(n: nat, ts: seq<Tensor>, k: nat)
    requires n > 0 && CanPack(n, ts) && k < |Packed(n, ts)|
    ensures Total(Sizes(ts)) == |Flat(ts)| && |Packed(n, ts)| == n == |PackSizes(|Flat(ts)|, n)|
    ensures |Packed(n, ts)[k].data| == PackSizes(|Flat(ts)|, n)[k]
  {
    FlatSize(ts);
    var t := Vector(ts[0].dtype, Flat(ts));
    SplitUpAt(n, t, 0);
    hide SplitUp, Flat, PackSizes;
    SplitUpAt(n, t, k);
  }

  lemma PackPlace(n: nat, ts: seq<Tensor>, k: nat, p: nat)
    requires n > 0 && CanPack(n, ts) && k < |Packed(n, ts)| && p < |Packed(n, ts)[k].data|
    ensures |PackSizes(|Flat(ts)|, n)| == n && k < n && Total(Sizes(ts)) == |Flat(ts)|
    ensures p < PackSizes(|Flat(ts)|, n)[k] && Offset(PackSizes(|Flat(ts)|, n), k) + p < |Flat(ts)|
  {
    PackedElements(n, ts, k);
    SplitUpElement(n, Vector(ts[0].dtype, Flat(ts)), k, p);
    hide Packed, PackSizes, Flat, SplitUp, Offset;
  }

  lemma CarriedBy(from: seq<seq<Tensor>>, to: seq<seq<Tensor>>, total: seq<Tensor>, i: nat, j: nat, k: nat, p: nat)
    requires Isomorphic(from) && |to| == |from| && Moved(Reduced(from), total, i, j, k, p)
    requires forall d :: 0 <= d < |from| ==> Moved(from[d], to[d], i, j, k, p)
    ensures Carried(from, to, total, k, p)
  {
    hide Moved, Reduced, Isomorphic;
    assert MovedAll(from, to, i, j, k, p);
  }

  lemma PackedCarried(n: nat, devices: seq<seq<Tensor>>, k: nat, p: nat)
    requires CanPackAll(n, devices) && Isomorphic(devices) && CanPack(n, Reduced(devices)) && |devices| > 0
    requires CanPack(n, devices[0]) && k < |Packed(n, devices[0])| && p < |Packed(n, devices[0])[k].data|
    ensures Carried(devices, PackedAll(n, devices), Packed(n, Reduced(devices)), k, p)
  {
    hide *;
    var all, total := PackedAll(n, devices), Packed(n, Reduced(devices));
    PackedAllParts(n, devices);
    if n == 0 {
      NoPacking(devices, k, p);
      CarriedBy(devices, all, total, k, p, k, p);
    } else {
      var form := devices[0];
      PackPlace(n, form, k, p);
      var size := |Flat(form)|;
      var at := Place(Sizes(form), Offset(PackSizes(size, n), k) + p);
      forall d | 0 <= d < |devices| ensures Moved(devices[d], all[d], at.0, at.1, k, p) {
        SameSizes(devices[d], form);
        PackedFrom(n, devices[d], Sizes(form), size, k, p, at);
      }
      SameSizes(Reduced(devices), form);
      PackedFrom(n, Reduced(devices), Sizes(form), size, k, p, at);
      CarriedBy(devices, all, total, at.0, at.1, k, p);
    }
  }

  lemma NoPacking(devices: seq<seq<Tensor>>, k: nat, p: nat)
    requires CanPackAll(0, devices) && Isomorphic(devices) && CanPack(0, Reduced(devices)) && CanPack(0, devices[0])
    requires k < |Packed(0, devices[0])| && p < |Packed(0, devices[0])[k].data|
    ensures |PackedAll(0, devices)| == |devices|
    ensures forall d :: 0 <= d < |devices| ==> Moved(devices[d], PackedAll(0, devices)[d], k, p, k, p)
    ensures Moved(Reduced(devices), Packed(0, Reduced(devices)), k, p, k, p)
  {
    assert devices[0] == Packed(0, devices[0]);
    assert SameForms(Reduced(devices), devices[0]);
    assert SameForm(Reduced(devices)[k], devices[0][k]);
    hide Reduced;
    NoneMoved(Reduced(devices), k, p);
    forall d | 0 <= d < |devices| ensures Moved(devices[d], PackedAll(0, devices)[d], k, p, k, p) {
      assert SameForms(devices[d], devices[0]);
      assert SameForm(devices[d][k], devices[0][k]);
      NoneMoved(devices[d], k, p);
    }
  }

  /** Reducing the packs gives the packs of the reduction. */
  lemma PackingCommutes(n: nat, devices: seq<seq<Tensor>>)
    requires CanPackAll(n, devices)
    ensures Isomorphic(devices) && Isomorphic(PackedAll(n, devices)) && CanPack(n, Reduced(devices))
    ensures Reduced(PackedAll(n, devices)) == Packed(n, Reduced(devices))
  {
    hide *;
    PackedAllParts(n, devices);
    var all, total := PackedAll(n, devices), Packed(n, Reduced(devices));
    SamePacked(n, Reduced(devices), devices[0]);
    SameParts(total, all[0]);
    forall k: nat, p: nat | k < |total| && p < |total[k].data| ensures Carried(devices, all, total, k, p) {
      PackedCarried(n, devices, k, p);
    }
    MovingCommutes(devices, all, total);
  }
}
