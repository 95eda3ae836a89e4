/** Tensors, their flat layout and their elementwise sum over devices. */
module Tensors {

  datatype Tensor = Tensor(dtype: nat, shape: seq<nat>, data: seq<real>)

  function Elements(shape: seq<nat>): nat {
    if shape == [] then 1 else shape[0] * Elements(shape[1..])
  }

  /** The number of elements is the product of the dimensions. */
  lemma {:induction false} ElementsProduct(s: seq<nat>, t: seq<nat>, n: nat)
    ensures Elements([]) == 1 && Elements([n]) == n
    ensures Elements(s + t) == Elements(s) * Elements(t)
  {
    assert [n][1..] == [];
    if s == [] {
      assert s + t == t;
    } else {
      ElementsProduct(s[1..], t, n);
      assert (s + t)[1..] == s[1..] + t;
      Associates(s[0], Elements(s[1..]), Elements(t));
    }
  }

  lemma Associates(x: nat, y: nat, z: nat)
    ensures x * (y * z) == x * y * z
  {
  }

  /** A tensor holds as many values as its shape says. */
  ghost predicate Sound(t: Tensor) {
    |t.data| == Elements(t.shape)
  }

  ghost predicate SameForm(s: Tensor, t: Tensor) {
    s.dtype == t.dtype && s.shape == t.shape && |s.data| == |t.data|
  }

  ghost predicate SameForms(s: seq<Tensor>, t: seq<Tensor>) {
    |s| == |t| && forall i :: 0 <= i < |s| ==> SameForm(s[i], t[i])
  }

  /** All devices hold tensors of the same types and shapes. */
  ghost predicate Isomorphic(devices: seq<seq<Tensor>>) {
    |devices| > 0 && forall d :: 0 <= d < |devices| ==> SameForms(devices[d], devices[0])
  }

  lemma SameParts(s: seq<Tensor>, t: seq<Tensor>)
    requires SameForms(s, t)
    ensures |s| == |t| && forall k :: 0 <= k < |s| ==> |s[k].data| == |t[k].data|
  {
    forall k | 0 <= k < |s| ensures |s[k].data| == |t[k].data| { assert SameForm(s[k], t[k]); }
  }

  lemma FormsBack(s: seq<Tensor>, t: seq<Tensor>, u: seq<Tensor>)
    requires SameForms(s, u) && SameForms(t, u)
    ensures SameForms(s, t)
  {
    forall i | 0 <= i < |s| ensures SameForm(s[i], t[i]) { assert SameForm(s[i], u[i]) && SameForm(t[i], u[i]); }
  }

  lemma SameLength(s: seq<Tensor>, t: seq<Tensor>)
    requires SameForms(s, t)
    ensures |s| == |t|
  {
  }

  // ----- sums -----------------------------------------------------------------

  function SumAt(ts: seq<Tensor>, j: nat): real
    requires forall t :: t in ts ==> j < |t.data|
  {
    if ts == [] then 0.0 else SumAt(ts[..|ts| - 1], j) + ts[|ts| - 1].data[j]
  }

  /** The elementwise sum of tensors of one form. */
  function SumAcross(ts: seq<Tensor>): Tensor
    requires |ts| > 0 && forall t :: t in ts ==> |t.data| == |ts[0].data|
  {
    Tensor(ts[0].dtype, ts[0].shape, seq(|ts[0].data|, j requires 0 <= j < |ts[0].data| => SumAt(ts, j)))
  }

  function Column<T>(rows: seq<seq<T>>, i: nat): seq<T>
    requires forall d :: 0 <= d < |rows| ==> i < |rows[d]|
  {
    seq(|rows|, d requires 0 <= d < |rows| => rows[d][i])
  }

  lemma ColumnFits(devices: seq<seq<Tensor>>, i: nat)
    requires Isomorphic(devices) && i < |devices[0]|
    ensures forall d :: 0 <= d < |devices| ==> i < |devices[d]|
    ensures |Column(devices, i)| == |devices|
    ensures forall t :: t in Column(devices, i) ==> SameForm(t, devices[0][i]) && |t.data| == |Column(devices, i)[0].data|
  {
    assert forall d :: 0 <= d < |devices| ==> SameForm(devices[d][i], devices[0][i]);
  }

  /** What every reduction promises: tensor `i` of the result is the sum of all
      the devices' tensors `i`. */
  ghost function Reduced(devices: seq<seq<Tensor>>): (r: seq<Tensor>)
    requires Isomorphic(devices)
    ensures SameForms(r, devices[0])
  {
    seq(|devices[0]|, i requires 0 <= i < |devices[0]| => (ColumnFits(devices, i); SumAcross(Column(devices, i))))
  }

  lemma ReducedAt(devices: seq<seq<Tensor>>, i: nat, j: nat)
    requires Isomorphic(devices) && i < |devices[0]| && j < |devices[0][i].data|
    ensures |Reduced(devices)| == |devices[0]| && |Reduced(devices)[i].data| == |devices[0][i].data|
    ensures (forall d :: 0 <= d < |devices| ==> i < |devices[d]|) && forall t :: t in Column(devices, i) ==> j < |t.data|
    ensures Reduced(devices)[i].data[j] == SumAt(Column(devices, i), j)
  {
    ColumnFits(devices, i);
  }

  /** A sum looks at the summed elements only. */
  lemma {:induction false} SumSame(s: seq<Tensor>, t: seq<Tensor>, i: nat, j: nat)
    requires |s| == |t| && (forall x :: x in s ==> i < |x.data|) && (forall x :: x in t ==> j < |x.data|)
    requires forall d :: 0 <= d < |s| ==> s[d].data[i] == t[d].data[j]
    ensures SumAt(s, i) == SumAt(t, j)
  {
    if s != [] {
      SumSame(s[..|s| - 1], t[..|t| - 1], i, j);
    }
  }

  /** Element `p` of tensor `k` is, on every device, element `j` of tensor `i`. */
  ghost predicate Moved(from: seq<Tensor>, to: seq<Tensor>, i: nat, j: nat, k: nat, p: nat) {
    && i < |from| && j < |from[i].data| && k < |to| && p < |to[k].data|
    && to[k].data[p] == from[i].data[j]
  }

  ghost predicate MovedAll(from: seq<seq<Tensor>>, to: seq<seq<Tensor>>, i: nat, j: nat, k: nat, p: nat) {
    |from| == |to| && forall d :: 0 <= d < |from| ==> Moved(from[d], to[d], i, j, k, p)
  }

  /** The element comes from one and the same place on all devices and in the
      reduced tensors. */
  ghost predicate Carried(from: seq<seq<Tensor>>, to: seq<seq<Tensor>>, total: seq<Tensor>, k: nat, p: nat)
    requires Isomorphic(from)
  {
    exists i: nat, j: nat :: MovedAll(from, to, i, j, k, p) && Moved(Reduced(from), total, i, j, k, p)
  }

  lemma CarriedSum(from: seq<seq<Tensor>>, to: seq<seq<Tensor>>, total: seq<Tensor>, k: nat, p: nat)
    requires Isomorphic(from) && Isomorphic(to) && SameForms(total, to[0]) && k < |total| && p < |total[k].data|
    requires Carried(from, to, total, k, p)
    ensures |Reduced(to)| == |total| && p < |Reduced(to)[k].data|
    ensures Reduced(to)[k].data[p] == total[k].data[p]
  {
    var i: nat, j: nat :| MovedAll(from, to, i, j, k, p) && Moved(Reduced(from), total, i, j, k, p);
    assert Moved(from[0], to[0], i, j, k, p);
    ReducedAt(from, i, j);
    ReducedAt(to, k, p);
    hide Reduced, SumAt, SameForms, Isomorphic;
    forall d | 0 <= d < |from| ensures Column(to, k)[d].data[p] == Column(from, i)[d].data[j] {
      assert Moved(from[d], to[d], i, j, k, p);
    }
    SumSame(Column(to, k), Column(from, i), p, j);
  }

  /** Moving elements about, in the same way on every device, commutes with
      reducing. */
  lemma MovingCommutes(from: seq<seq<Tensor>>, to: seq<seq<Tensor>>, total: seq<Tensor>)
    requires Isomorphic(from) && Isomorphic(to) && SameForms(total, to[0])
    requires forall k: nat, p: nat :: k < |total| && p < |total[k].data| ==> Carried(from, to, total, k, p)
    ensures Reduced(to) == total
  {
    var r := Reduced(to);
    assert SameForms(r, to[0]);
    hide Isomorphic, Carried, Reduced;
    forall k: nat | k < |total| ensures r[k] == total[k] {
      assert SameForm(r[k], to[0][k]) && SameForm(total[k], to[0][k]);
      forall p: nat | p < |total[k].data| ensures r[k].data[p] == total[k].data[p] {
        CarriedSum(from, to, total, k, p);
      }
      assert r[k].data == total[k].data;
    }
  }

  // ----- the flat layout ------------------------------------------------------

  /** All tensors flattened and concatenated. */
  function Flat(ts: seq<Tensor>): seq<real> {
    if ts == [] then [] else ts[0].data + Flat(ts[1..])
  }

  function Sizes(ts: seq<Tensor>): seq<nat> {
    seq(|ts|, i requires 0 <= i < |ts| => |ts[i].data|)
  }

  function Total(sizes: seq<nat>): nat {
    if sizes == [] then 0 else sizes[0] + Total(sizes[1..])
  }

  /** `tf.split`: consecutive pieces of the given sizes. */
  function Split(data: seq<real>, sizes: seq<nat>): (pieces: seq<seq<real>>)
    requires Total(sizes) == |data|
    ensures |pieces| == |sizes| && forall i :: 0 <= i < |sizes| ==> |pieces[i]| == sizes[i]
  {
    if sizes == [] then [] else [data[..sizes[0]]] + Split(data[sizes[0]..], sizes[1..])
  }

  /** `tf.concat`. */
  function Concat(pieces: seq<seq<real>>): seq<real> {
    if pieces == [] then [] else pieces[0] + Concat(pieces[1..])
  }

  lemma {:induction false} ConcatSplit(data: seq<real>, sizes: seq<nat>)
    requires Total(sizes) == |data|
    ensures Concat(Split(data, sizes)) == data
  {
    if sizes != [] {
      ConcatSplit(data[sizes[0]..], sizes[1..]);
      assert Split(data, sizes)[1..] == Split(data[sizes[0]..], sizes[1..]);
      assert data == data[..sizes[0]] + data[sizes[0]..];
    }
  }

  lemma {:induction false} FlatSize(ts: seq<Tensor>)
    ensures Total(Sizes(ts)) == |Flat(ts)|
  {
    if ts != [] {
      FlatSize(ts[1..]);
      assert Sizes(ts)[1..] == Sizes(ts[1..]);
    }
  }

  lemma {:induction false} SplitFlat(ts: seq<Tensor>, i: nat)
    requires i < |ts|
    ensures Total(Sizes(ts)) == |Flat(ts)|
    ensures Split(Flat(ts), Sizes(ts))[i] == ts[i].data
  {
    FlatSize(ts);
    var rest := ts[1..];
    assert Sizes(ts)[1..] == Sizes(rest);
    assert Flat(ts)[..|ts[0].data|] == ts[0].data && Flat(ts)[|ts[0].data|..] == Flat(rest);
    FlatSize(rest);
    if i > 0 { SplitFlat(rest, i - 1); }
  }

  /** Where the flat layout keeps its element `p`: tensor and element. */
  function Place(sizes: seq<nat>, p: nat): (at: (nat, nat))
    requires p < Total(sizes)
    ensures at.0 < |sizes| && at.1 < sizes[at.0]
  {
    if p < sizes[0] then (0, p)
    else
      var at := Place(sizes[1..], p - sizes[0]);
      (at.0 + 1, at.1)
  }

  lemma {:induction false} FlatAt(ts: seq<Tensor>, p: nat)
    requires p < |Flat(ts)|
    ensures p < Total(Sizes(ts)) && |Sizes(ts)| == |ts|
    ensures var at := Place(Sizes(ts), p);
      at.0 < |ts| && at.1 < |ts[at.0].data| && Flat(ts)[p] == ts[at.0].data[at.1]
  {
    FlatSize(ts);
    assert Sizes(ts)[1..] == Sizes(ts[1..]);
    if p >= |ts[0].data| {
      FlatAt(ts[1..], p - |ts[0].data|);
    }
  }

  /** Where piece `k` of a split starts. */
  function Offset(sizes: seq<nat>, k: nat): nat
    requires k <= |sizes|
  {
    if k == 0 then 0 else sizes[0] + Offset(sizes[1..], k - 1)
  }

  lemma {:induction false} SplitAt(data: seq<real>, sizes: seq<nat>, k: nat, p: nat)
    requires Total(sizes) == |data| && k < |sizes| && p < sizes[k]
    ensures Offset(sizes, k) + p < |data|
    ensures Split(data, sizes)[k][p] == data[Offset(sizes, k) + p]
  {
    if k > 0 { SplitAt(data[sizes[0]..], sizes[1..], k - 1, p); }
  }

  lemma SameSizes(s: seq<Tensor>, t: seq<Tensor>)
    requires SameForms(s, t)
    ensures Sizes(s) == Sizes(t) && |Flat(s)| == |Flat(t)|
  {
    forall i | 0 <= i < |s| ensures |s[i].data| == |t[i].data| { assert SameForm(s[i], t[i]); }
    assert Sizes(s) == Sizes(t);
    FlatSize(s);
    FlatSize(t);
  }

  // ----- restoring tensors from flat data ---------------------------------------

  function Widths(shapes: seq<seq<nat>>): seq<nat> {
    seq(|shapes|, i requires 0 <= i < |shapes| => Elements(shapes[i]))
  }

  function Shapes(ts: seq<Tensor>): seq<seq<nat>> {
    seq(|ts|, i requires 0 <= i < |ts| => ts[i].shape)
  }

  /** Splits flat data and gives the pieces their shapes. */
  function Restore(dtype: nat, data: seq<real>, shapes: seq<seq<nat>>): seq<Tensor>
    requires Total(Widths(shapes)) == |data|
  {
    var pieces := Split(data, Widths(shapes));
    seq(|shapes|, i requires 0 <= i < |shapes| => Tensor(dtype, shapes[i], pieces[i]))
  }

  ghost predicate AllSound(ts: seq<Tensor>, dtype: nat) {
    forall i :: 0 <= i < |ts| ==> Sound(ts[i]) && ts[i].dtype == dtype
  }

  /** Restoring undoes flattening. */
  lemma RestoreFlat(ts: seq<Tensor>, dtype: nat)
    requires AllSound(ts, dtype)
    ensures Total(Widths(Shapes(ts))) == |Flat(ts)|
    ensures Restore(dtype, Flat(ts), Shapes(ts)) == ts
  {
    FlatSize(ts);
    hide Elements;
    assert Widths(Shapes(ts)) == Sizes(ts);
    forall i: nat | i < |ts| ensures Restore(dtype, Flat(ts), Shapes(ts))[i] == ts[i] {
      SplitFlat(ts, i);
      assert Sound(ts[i]);
    }
  }

  lemma SameShapes(s: seq<Tensor>, t: seq<Tensor>)
    requires SameForms(s, t)
    ensures Shapes(s) == Shapes(t)
  {
    forall i | 0 <= i < |s| ensures s[i].shape == t[i].shape { assert SameForm(s[i], t[i]); }
  }
}
