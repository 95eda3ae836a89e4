/** The program's loops that pack, reduce and unpack gradients. */
module GradientAllReduce {
  import opened Arithmetic
  import opened Tensors
  import opened Ranges
  import opened Selection
  import opened GradientPacking
  import opened GradientReduction

  /** The dictionary of packs, by tower and position in the packed tower. */
  class Packing {
    var entries: map<(nat, nat), GradPack>

    constructor ()
      ensures entries == map[]
    {
      entries := map[];
    }
  }

  // ----- one range ----------------------------------------------------------------

  lemma {:induction false} ConcatFlat(ts: seq<Tensor>, pieces: seq<seq<real>>)
    requires |pieces| == |ts| && forall i :: 0 <= i < |ts| ==> pieces[i] == ts[i].data
    ensures Concat(pieces) == Flat(ts)
  {
    if ts != [] { ConcatFlat(ts[1..], pieces[1..]); }
  }

  lemma IndicesAre(r: Range, i: nat)
    requires r.first + i <= r.last + 1
    ensures Expand(r) == seq(r.last + 1 - r.first, k requires 0 <= k => r.first + k)
  {
    assert r.first <= r.last || Expand(r) == [];
  }

  /** Concatenates a range of gradients and notes how to restore them. */
  method PackRange(key: (nat, nat), packing: Packing, tower: Tower, r: Range) returns (t: Tensor)
    requires r.first <= r.last < |tower|
    modifies packing
    ensures packing.entries == old(packing.entries)[key := PackOf(tower, r)]
    ensures t == PackedTensor(Grads(tower), r)
  {
    var toPack := tower[r.first..r.last + 1];
    var members: seq<seq<real>>, variables: seq<int>, shapes: seq<seq<nat>> := [], [], [];
    for i := 0 to |toPack|
      invariant |members| == |variables| == |shapes| == i
      invariant forall k :: 0 <= k < i ==>
        members[k] == toPack[k].grad.data && variables[k] == toPack[k].variable && shapes[k] == toPack[k].grad.shape
    {
      variables := variables + [toPack[i].variable];
      shapes := shapes + [toPack[i].grad.shape];
      members := members + [toPack[i].grad.data];
    }
    ghost var part := Slice(tower, r);
    assert variables == Variables(part) && shapes == Shapes(Grads(part));
    IndicesAre(r, 0);
    packing.entries := packing.entries[key := GradPack(Expand(r), variables, shapes)];
    var data := Concat(members);
    ConcatFlat(Grads(part), members);
    GradsSlice(tower, r);
    t := Tensor(toPack[0].grad.dtype, [|data|], data);
  }

  /** Splits a packed gradient into its members, beside their variables. */
  method UnpackGradTuple(gv: GradVar, p: GradPack) returns (members: Tower)
    requires Unpackable(gv, p)
    ensures members == UnpackOne(gv, p)
  {
    var splits := Split(gv.grad.data, Widths(p.shapes));
    members := [];
    for i := 0 to |splits|
      invariant |members| == i && |splits| == |p.shapes|
      invariant forall k :: 0 <= k < i ==> members[k] == GradVar(Tensor(gv.grad.dtype, p.shapes[k], splits[k]), p.variables[k])
    {
      members := members + [GradVar(Tensor(gv.grad.dtype, p.shapes[i], splits[i]), p.variables[i])];
    }
  }

  // ----- which gradients are packed -------------------------------------------------

  predicate Small(t: Tensor, maxBytes: int) {
    t.dtype == FLOAT32 && 4 * Elements(t.shape) <= maxBytes
  }

  ghost function SmallOnes(tower: Tower, n: nat, maxBytes: int): seq<nat>
    requires n <= |tower|
  {
    if n == 0 then []
    else SmallOnes(tower, n - 1, maxBytes) + if Small(tower[n - 1].grad, maxBytes) then [n - 1] else []
  }

  lemma {:induction false} SmallMember(tower: Tower, n: nat, maxBytes: int, i: nat)
    requires n <= |tower|
    ensures i in SmallOnes(tower, n, maxBytes) <==> i < n && Small(tower[i].grad, maxBytes)
  {
    if n > 0 {
      hide Small;
      SmallMember(tower, n - 1, maxBytes, i);
    }
  }

  lemma SmallNext(tower: Tower, n: nat, maxBytes: int)
    requires n < |tower|
    ensures SmallOnes(tower, n + 1, maxBytes) == SmallOnes(tower, n, maxBytes)
      || SmallOnes(tower, n + 1, maxBytes) == SmallOnes(tower, n, maxBytes) + [n]
  {
    hide Small;
  }

  lemma {:induction false} SmallIncreases(tower: Tower, n: nat, maxBytes: int)
    requires n <= |tower|
    ensures Increasing(SmallOnes(tower, n, maxBytes))
  {
    if n > 0 {
      SmallNext(tower, n - 1, maxBytes);
      hide *;
      SmallIncreases(tower, n - 1, maxBytes);
      var less := SmallOnes(tower, n - 1, maxBytes);
      forall i | i in less ensures i < n - 1 { SmallMember(tower, n - 1, maxBytes, i); }
      IncreasingMore(less, n - 1);
    } else {
      IncreasingNone();
    }
  }

  /** The packed ranges are the longer ranges of small gradients of the first tower. */
  ghost predicate Selected(tower: Tower, maxBytes: int, maxGroup: int, cut: seq<Range>, rs: seq<Range>) {
    Cut(SmallOnes(tower, |tower|, maxBytes), maxGroup, cut) && rs == Longer(cut)
  }

  lemma SelectedSmall(tower: Tower, maxBytes: int, maxGroup: int, cut: seq<Range>, rs: seq<Range>, i: nat)
    requires Selected(tower, maxBytes, maxGroup, cut, rs)
    ensures InSome(rs, i) ==> i < |tower| && Small(tower[i].grad, maxBytes)
    ensures i in Alone(cut) ==> i < |tower| && Small(tower[i].grad, maxBytes) && !InSome(rs, i)
    ensures i < |tower| && Small(tower[i].grad, maxBytes) ==> InSome(rs, i) || i in Alone(cut)
    ensures Ascending(rs) && Increasing(Alone(cut)) && forall r :: r in rs ==> r.first < r.last
  {
    SmallIncreases(tower, |tower|, maxBytes);
    SmallMember(tower, |tower|, maxBytes, i);
    hide *;
    SelectedIs(tower, maxBytes, maxGroup, cut, rs);
    ExtractedPartition(SmallOnes(tower, |tower|, maxBytes), maxGroup, cut, i);
  }

  lemma SelectedIs(tower: Tower, maxBytes: int, maxGroup: int, cut: seq<Range>, rs: seq<Range>)
    requires Selected(tower, maxBytes, maxGroup, cut, rs)
    ensures Cut(SmallOnes(tower, |tower|, maxBytes), maxGroup, cut) && rs == Longer(cut)
  {
  }

  lemma MemberHolds(rs: seq<Range>, k: nat, i: nat)
    requires k < |rs| && rs[k].first <= i <= rs[k].last
    ensures InSome(rs, i)
  {
    assert Holds(rs[k], i);
  }

  lemma SmallType(t: Tensor, maxBytes: int)
    requires Small(t, maxBytes)
    ensures t.dtype == FLOAT32
  {
  }

  lemma SelectedMember(tower: Tower, maxBytes: int, maxGroup: int, cut: seq<Range>, rs: seq<Range>, k: nat, i: nat)
    requires Selected(tower, maxBytes, maxGroup, cut, rs) && k < |rs| && rs[k].first <= i <= rs[k].last
    ensures i < |tower| && tower[i].grad.dtype == FLOAT32
  {
    hide *;
    MemberHolds(rs, k, i);
    SelectedSmall(tower, maxBytes, maxGroup, cut, rs, i);
    SmallType(tower[i].grad, maxBytes);
  }

  lemma SelectedPackable(tower: Tower, maxBytes: int, maxGroup: int, cut: seq<Range>, rs: seq<Range>)
    requires Selected(tower, maxBytes, maxGroup, cut, rs)
    ensures Packable(rs, |tower|) && OneTypeEach(tower, rs)
  {
    SelectedSmall(tower, maxBytes, maxGroup, cut, rs, 0);
    hide Selected, InSome, Small, Ascending;
    forall k: nat | k < |rs| ensures rs[k].first < rs[k].last < |tower| {
      assert rs[k] in rs;
      SelectedMember(tower, maxBytes, maxGroup, cut, rs, k, rs[k].last);
    }
    forall k: nat | k < |rs| ensures OneType(tower, rs[k]) {
      forall i: nat | rs[k].first <= i <= rs[k].last ensures tower[i].grad.dtype == tower[rs[k].first].grad.dtype {
        SelectedMember(tower, maxBytes, maxGroup, cut, rs, k, i);
        SelectedMember(tower, maxBytes, maxGroup, cut, rs, k, rs[k].first);
      }
    }
  }

  // ----- the limit, in terms of the data ----------------------------------------

  /** A gradient of four-byte numbers that takes up no more than `maxBytes`. */
  predicate WithinBytes(t: Tensor, maxBytes: int) {
    t.dtype == FLOAT32 && 4 * |t.data| <= maxBytes
  }

  /** Nothing but gradients within the limit is packed; of two such neighbours one at
      least is, unless groups may hold less than nothing. */
  ghost predicate PacksWithinBytes(tower: Tower, maxBytes: int, maxGroup: int, rs: seq<Range>) {
    && (forall i: nat :: InSome(rs, i) ==> i < |tower| && WithinBytes(tower[i].grad, maxBytes))
    && (maxGroup >= 0 ==> forall i: nat {:trigger InSome(rs, i)} ::
          i + 1 < |tower| && WithinBytes(tower[i].grad, maxBytes) && WithinBytes(tower[i + 1].grad, maxBytes) ==>
            InSome(rs, i) || InSome(rs, i + 1))
  }

  lemma SmallIs(tower: Tower, maxBytes: int, i: nat)
    requires SoundTower(tower) && i < |tower|
    ensures Small(tower[i].grad, maxBytes) <==> WithinBytes(tower[i].grad, maxBytes)
  {
    assert Sound(Grads(tower)[i]);
    hide Elements;
  }

  lemma SelectedNeighbours(tower: Tower, maxBytes: int, maxGroup: int, cut: seq<Range>, rs: seq<Range>, i: nat)
    requires Selected(tower, maxBytes, maxGroup, cut, rs) && maxGroup >= 0 && i + 1 < |tower|
    requires Small(tower[i].grad, maxBytes) && Small(tower[i + 1].grad, maxBytes)
    ensures InSome(rs, i) || InSome(rs, i + 1)
  {
    hide *;
    SelectedSmall(tower, maxBytes, maxGroup, cut, rs, i);
    SelectedSmall(tower, maxBytes, maxGroup, cut, rs, i + 1);
    SelectedIs(tower, maxBytes, maxGroup, cut, rs);
    SmallIncreases(tower, |tower|, maxBytes);
    NotBothAlone(SmallOnes(tower, |tower|, maxBytes), maxGroup, cut, i);
  }

  lemma SelectedWithinBytes(tower: Tower, maxBytes: int, maxGroup: int, cut: seq<Range>, rs: seq<Range>)
    requires SoundTower(tower) && Selected(tower, maxBytes, maxGroup, cut, rs)
    ensures PacksWithinBytes(tower, maxBytes, maxGroup, rs)
  {
    hide SoundTower, Selected, InSome, Small, WithinBytes;
    forall i: nat | InSome(rs, i) ensures i < |tower| && WithinBytes(tower[i].grad, maxBytes) {
      SelectedSmall(tower, maxBytes, maxGroup, cut, rs, i);
      SmallIs(tower, maxBytes, i);
    }
    if maxGroup >= 0 {
      forall i: nat | i + 1 < |tower| && WithinBytes(tower[i].grad, maxBytes) && WithinBytes(tower[i + 1].grad, maxBytes)
        ensures InSome(rs, i) || InSome(rs, i + 1)
      {
        SmallIs(tower, maxBytes, i);
        SmallIs(tower, maxBytes, i + 1);
        SelectedNeighbours(tower, maxBytes, maxGroup, cut, rs, i);
      }
    }
  }

  // ----- packing all towers -----------------------------------------------------

  type Entries = map<(nat, nat), GradPack>

  /** The packs of the first `n` ranges of tower `d` are noted. */
  ghost function Note(entries: Entries, d: nat, tower: Tower, rs: seq<Range>, n: nat): Entries
    requires Packable(rs, |tower|) && n <= |rs|
  {
    if n == 0 then entries else Note(entries, d, tower, rs, n - 1)[(d, n - 1) := PackOf(tower, rs[n - 1])]
  }

  /** The packs of the first `m` towers. */
  ghost function Notes(towers: seq<Tower>, rs: seq<Range>, m: nat): Entries
    requires m <= |towers| && forall d :: 0 <= d < |towers| ==> Packable(rs, |towers[d]|)
  {
    if m == 0 then map[] else Note(Notes(towers, rs, m - 1), m - 1, towers[m - 1], rs, |rs|)
  }

  /** The first `n` packed ranges of a tower. */
  ghost function Front(tower: Tower, rs: seq<Range>, n: nat): Tower
    requires Packable(rs, |tower|) && n <= |rs|
  {
    seq(n, k requires 0 <= k < n => PackOne(tower, rs[k]))
  }

  lemma FrontNext(tower: Tower, rs: seq<Range>, n: nat)
    requires Packable(rs, |tower|) && n < |rs|
    ensures rs[n].first < rs[n].last < |tower| && |Front(tower, rs, n)| == n
    ensures Front(tower, rs, n + 1) == Front(tower, rs, n) + [GradVar(PackedTensor(Grads(tower), rs[n]), PLACEHOLDER)]
  {
    hide PackedTensor, Grads, Ascending;
  }

  lemma NoteNext(entries: Entries, d: nat, tower: Tower, rs: seq<Range>, n: nat)
    requires Packable(rs, |tower|) && n < |rs|
    ensures rs[n].first <= rs[n].last < |tower|
    ensures Note(entries, d, tower, rs, 0) == entries
    ensures Note(entries, d, tower, rs, n + 1) == Note(entries, d, tower, rs, n)[(d, n) := PackOf(tower, rs[n])]
  {
    hide PackOf, Ascending;
  }

  lemma PackTowerIs(tower: Tower, rs: seq<Range>, rest: Tower)
    requires Packable(rs, |tower|) && rest == Without(tower, rs)
    ensures Front(tower, rs, |rs|) + rest == PackTower(tower, rs)
  {
    hide PackOne, Without;
    assert Front(tower, rs, |rs|) == seq(|rs|, k requires 0 <= k < |rs| => PackOne(tower, rs[k]));
  }

  lemma FrontNone(tower: Tower, rs: seq<Range>)
    requires Packable(rs, |tower|)
    ensures Front(tower, rs, 0) == []
  {
  }

  lemma NoteNone(entries: Entries, d: nat, tower: Tower, rs: seq<Range>)
    requires Packable(rs, |tower|)
    ensures Note(entries, d, tower, rs, 0) == entries
  {
  }

  /** Packs one tower: its ranges first, then what is left of it. */
  method PackInto(packing: Packing, d: nat, tower: Tower, rs: seq<Range>, large: seq<nat>) returns (packed: Tower)
    requires Packable(rs, |tower|) && large == Kept(|tower|, rs)
    modifies packing
    ensures packed == PackTower(tower, rs)
    ensures packing.entries == Note(old(packing.entries), d, tower, rs, |rs|)
  {
    hide *;
    packed := [];
    FrontNone(tower, rs);
    NoteNone(packing.entries, d, tower, rs);
    for n := 0 to |rs|
      invariant packed == Front(tower, rs, n) && packing.entries == Note(old(packing.entries), d, tower, rs, n)
    {
      FrontNext(tower, rs, n);
      NoteNext(old(packing.entries), d, tower, rs, n);
      var t := PackRange((d, |packed|), packing, tower, rs[n]);
      packed := packed + [GradVar(t, PLACEHOLDER)];
    }
    var rest: Tower := [];
    WithoutSize(tower, rs);
    for i := 0 to |large|
      invariant rest == Without(tower, rs)[..i]
      invariant packing.entries == Note(old(packing.entries), d, tower, rs, |rs|)
    {
      WithoutAt(tower, rs, i);
      rest := rest + [tower[large[i]]];
    }
    assert Without(tower, rs)[..|large|] == Without(tower, rs);
    PackTowerIs(tower, rs, rest);
    packed := packed + rest;
  }

  lemma SortedLarge(tower: Tower, maxBytes: int, maxGroup: int, cut: seq<Range>, rs: seq<Range>, large: seq<nat>, sorted: seq<nat>)
    requires Selected(tower, maxBytes, maxGroup, cut, rs)
    requires Increasing(large) && forall i: nat :: i in large <==> i < |tower| && !Small(tower[i].grad, maxBytes)
    requires Sorted(sorted) && multiset(sorted) == multiset(large + Alone(cut))
    ensures sorted == Kept(|tower|, rs)
  {
    hide *;
    SelectedSmall(tower, maxBytes, maxGroup, cut, rs, 0);
    forall i: nat
      ensures i in large ==> i !in Alone(cut)
      ensures (i in large || i in Alone(cut)) <==> (i < |tower| && !InSome(rs, i))
    {
      SelectedSmall(tower, maxBytes, maxGroup, cut, rs, i);
    }
    SortedKept(large, Alone(cut), sorted, |tower|, rs);
  }

  /** Separates the small gradients of a tower from the large ones. */
  method SmallAndLarge(tower: Tower, maxBytes: int) returns (small: seq<nat>, large: seq<nat>)
    ensures small == SmallOnes(tower, |tower|, maxBytes)
    ensures Increasing(large) && forall i: nat :: i in large <==> i < |tower| && !Small(tower[i].grad, maxBytes)
  {
    small, large := [], [];
    hide Small, Elements, Increasing;
    IncreasingNone();
    for n := 0 to |tower|
      invariant small == SmallOnes(tower, n, maxBytes)
      invariant Increasing(large) && forall i: nat :: i in large <==> i < n && !Small(tower[i].grad, maxBytes)
    {
      if Small(tower[n].grad, maxBytes) {
        small := small + [n];
      } else {
        IncreasingMore(large, n);
        large := large + [n];
      }
    }
  }

  lemma AlikePackable(towers: seq<Tower>, rs: seq<Range>)
    requires Alike(towers) && Packable(rs, |towers[0]|)
    ensures forall d :: 0 <= d < |towers| ==> |towers[d]| == |towers[0]| && Packable(rs, |towers[d]|)
  {
    hide Packable, SoundTower, Isomorphic, AllGrads;
  }

  lemma PackTowersNext(towers: seq<Tower>, rs: seq<Range>, m: nat)
    requires m < |towers| && forall d :: 0 <= d < |towers| ==> Packable(rs, |towers[d]|)
    ensures |PackTowers(towers, rs)| == |towers|
    ensures PackTowers(towers, rs)[..m + 1] == PackTowers(towers, rs)[..m] + [PackTower(towers[m], rs)]
    ensures Notes(towers, rs, m + 1) == Note(Notes(towers, rs, m), m, towers[m], rs, |rs|)
  {
    hide Packable, PackTower, Note;
  }

  lemma PackTowersEnds(towers: seq<Tower>, rs: seq<Range>)
    requires forall d :: 0 <= d < |towers| ==> Packable(rs, |towers[d]|)
    ensures |PackTowers(towers, rs)| == |towers| && PackTowers(towers, rs)[..|towers|] == PackTowers(towers, rs)
    ensures PackTowers(towers, rs)[..0] == [] && Notes(towers, rs, 0) == map[]
  {
    hide Packable, PackTower;
  }

  /** Packs the small gradients that lie together in the first tower, in every
      tower.  Without any the towers stay as they are. */
  method PackSmallTensors(towers: seq<Tower>, maxBytes: int, maxGroup: int)
      returns (packed: seq<Tower>, packing: Packing?, ghost rs: seq<Range>)
    requires Alike(towers)
    ensures Packable(rs, |towers[0]|) && OneTypeEach(towers[0], rs)
    ensures exists cut :: Selected(towers[0], maxBytes, maxGroup, cut, rs)
    ensures PacksWithinBytes(towers[0], maxBytes, maxGroup, rs)
    ensures rs == [] ==> packed == towers && packing == null
    ensures rs != [] ==>
      && (forall d :: 0 <= d < |towers| ==> Packable(rs, |towers[d]|))
      && packed == PackTowers(towers, rs)
      && packing != null && fresh(packing) && packing.entries == Notes(towers, rs, |towers|)
  {
    NotEmpty(towers);
    hide *;
    var small, large := SmallAndLarge(towers[0], maxBytes);
    var ranges, singles := ExtractRanges(small, maxGroup);
    ghost var cut :| Cut(small, maxGroup, cut) && ranges == Longer(cut) && singles == Alone(cut);
    rs := ranges;
    assert Selected(towers[0], maxBytes, maxGroup, cut, rs) by { SelectedIf(towers[0], maxBytes, maxGroup, cut); }
    SelectedPackable(towers[0], maxBytes, maxGroup, cut, rs);
    AlikeSound(towers, 0);
    SelectedWithinBytes(towers[0], maxBytes, maxGroup, cut, rs);
    AlikePackable(towers, rs);
    var sorted := SortedList(large + singles);
    SortedLarge(towers[0], maxBytes, maxGroup, cut, rs, large, sorted);
    packed, packing := towers, null;
    if |ranges| > 0 {
      var p := new Packing();
      packed := [];
      PackTowersEnds(towers, rs);
      for d := 0 to |towers|
        invariant packed == PackTowers(towers, rs)[..d] && p.entries == Notes(towers, rs, d)
      {
        PackTowersNext(towers, rs, d);
        var tower := PackInto(p, d, towers[d], ranges, sorted);
        packed := packed + [tower];
      }
      packing := p;
    }
  }

  lemma NotEmpty(towers: seq<Tower>)
    requires Alike(towers)
    ensures |towers| > 0
  {
  }

  lemma AlikeSound(towers: seq<Tower>, d: nat)
    requires Alike(towers) && d < |towers|
    ensures SoundTower(towers[d])
  {
    hide SoundTower, Isomorphic, AllGrads;
  }

  lemma SelectedIf(tower: Tower, maxBytes: int, maxGroup: int, cut: seq<Range>)
    requires Cut(SmallOnes(tower, |tower|, maxBytes), maxGroup, cut)
    ensures Selected(tower, maxBytes, maxGroup, cut, Longer(cut))
  {
  }

  // ----- looking packs up -------------------------------------------------------

  lemma {:induction false} NoteAt(entries: Entries, d: nat, tower: Tower, rs: seq<Range>, n: nat, e: nat, k: nat)
    requires Packable(rs, |tower|) && n <= |rs|
    ensures var now := Note(entries, d, tower, rs, n);
      && ((e, k) in now <==> (e == d && k < n) || (e, k) in entries)
      && (e == d && k < n ==> rs[k].first <= rs[k].last < |tower| && now[(e, k)] == PackOf(tower, rs[k]))
      && (!(e == d && k < n) && (e, k) in entries ==> now[(e, k)] == entries[(e, k)])
  {
    hide PackOf, Ascending;
    if n > 0 { NoteAt(entries, d, tower, rs, n - 1, e, k); }
  }

  lemma {:induction false} NoteSize(entries: Entries, d: nat, tower: Tower, rs: seq<Range>, n: nat)
    requires Packable(rs, |tower|) && n <= |rs| && forall k: nat :: (d, k) !in entries
    ensures |Note(entries, d, tower, rs, n)| == |entries| + n
  {
    hide PackOf, Ascending;
    if n > 0 {
      NoteSize(entries, d, tower, rs, n - 1);
      NoteAt(entries, d, tower, rs, n - 1, d, n - 1);
    }
  }

  lemma {:induction false} NotesAt(towers: seq<Tower>, rs: seq<Range>, m: nat, d: nat, k: nat)
    requires m <= |towers| && forall d :: 0 <= d < |towers| ==> Packable(rs, |towers[d]|)
    ensures (d, k) in Notes(towers, rs, m) <==> d < m && k < |rs|
    ensures d < m && k < |rs| ==>
      rs[k].first <= rs[k].last < |towers[d]| && Notes(towers, rs, m)[(d, k)] == PackOf(towers[d], rs[k])
  {
    PackTowersEnds(towers, rs);
    hide *;
    if m > 0 {
      PackTowersNext(towers, rs, m - 1);
      NoteAt(Notes(towers, rs, m - 1), m - 1, towers[m - 1], rs, |rs|, d, k);
      NotesAt(towers, rs, m - 1, d, k);
    }
  }

  lemma {:induction false} NotesSize(towers: seq<Tower>, rs: seq<Range>, m: nat)
    requires m <= |towers| && forall d :: 0 <= d < |towers| ==> Packable(rs, |towers[d]|)
    ensures |Notes(towers, rs, m)| == Times(m, |rs|)
  {
    PackTowersEnds(towers, rs);
    TimesNext(if m > 0 then m - 1 else 0, |rs|);
    hide *;
    if m > 0 {
      NotesSize(towers, rs, m - 1);
      PackTowersNext(towers, rs, m - 1);
      var d, before := m - 1, Notes(towers, rs, m - 1);
      forall k: nat ensures (d, k) !in before { NotesAt(towers, rs, m - 1, d, k); }
      NoteSize(before, d, towers[d], rs, |rs|);
    }
  }

  /** The packs noted for tower `d`, in order. */
  ghost function PacksFor(entries: Entries, d: nat, n: nat): seq<GradPack>
    requires forall k: nat :: k < n ==> (d, k) in entries
  {
    seq(n, k requires 0 <= k < n => entries[(d, k)])
  }

  lemma NotedPacks(towers: seq<Tower>, rs: seq<Range>, d: nat)
    requires d < |towers| && forall d :: 0 <= d < |towers| ==> Packable(rs, |towers[d]|)
    ensures forall k: nat :: k < |rs| ==> (d, k) in Notes(towers, rs, |towers|)
    ensures PacksFor(Notes(towers, rs, |towers|), d, |rs|) == PacksOf(towers[d], rs)
  {
    forall k: nat | k < |rs|
      ensures rs[k].first <= rs[k].last < |towers[d]|
      ensures (d, k) in Notes(towers, rs, |towers|) && Notes(towers, rs, |towers|)[(d, k)] == PackOf(towers[d], rs[k])
    {
      NotesAt(towers, rs, |towers|, d, k);
    }
    hide Notes, PackOf, Ascending;
  }

  // ----- unpacking ----------------------------------------------------------------

  /** What unpacking one tower asks for. */
  ghost predicate Unpacks(entries: Entries, d: nat, tower: Tower, n: nat) {
    && (forall k: nat :: k < n ==> (d, k) in entries)
    && AllUnpackable(tower, PacksFor(entries, d, n))
  }

  lemma UnpacksAt(entries: Entries, d: nat, tower: Tower, n: nat, k: nat)
    requires Unpacks(entries, d, tower, n) && k < n
    ensures (forall k: nat :: k < n ==> (d, k) in entries) && AllUnpackable(tower, PacksFor(entries, d, n))
    ensures k < |tower| && |PacksFor(entries, d, n)| == n <= |tower| && entries[(d, k)] == PacksFor(entries, d, n)[k]
    ensures Unpackable(tower[k], entries[(d, k)])
  {
    hide Unpackable;
  }

  lemma UnpacksAll(entries: Entries, d: nat, tower: Tower, n: nat)
    requires Unpacks(entries, d, tower, n)
    ensures (forall k: nat :: k < n ==> (d, k) in entries) && AllUnpackable(tower, PacksFor(entries, d, n))
    ensures |PacksFor(entries, d, n)| == n <= |tower|
  {
    hide Unpackable;
  }

  lemma UnpackTowerIs(tower: Tower, ps: seq<GradPack>)
    requires AllUnpackable(tower, ps)
    ensures UnpackTower(tower, ps) == UnpackFirst(tower, ps, |ps|)
  {
  }

  lemma MembersNone(tower: Tower, indices: seq<nat>, members: Tower)
    ensures InsertMembers(tower, indices, members, 0) == tower
  {
  }

  /** Takes the packs of one tower apart and inserts their members. */
  method UnpackInto(entries: Entries, d: nat, tower: Tower, n: nat) returns (unpacked: Tower)
    requires Unpacks(entries, d, tower, n)
    ensures (forall k: nat :: k < n ==> (d, k) in entries) && AllUnpackable(tower, PacksFor(entries, d, n))
    ensures unpacked == UnpackTower(tower, PacksFor(entries, d, n))
  {
    hide *;
    UnpacksAll(entries, d, tower, n);
    ghost var ps := PacksFor(entries, d, n);
    UnpackNone(tower, ps);
    unpacked := tower[n..];
    for k := 0 to n
      invariant unpacked == UnpackFirst(tower, ps, k)
    {
      UnpacksAt(entries, d, tower, n, k);
      UnpackNext(tower, ps, k);
      var p := entries[(d, k)];
      var members := UnpackGradTuple(tower[k], p);
      ghost var before := unpacked;
      MembersNone(before, p.indices, members);
      for i := 0 to |p.indices|
        invariant |members| == |p.indices|
        invariant unpacked == InsertMembers(before, p.indices, members, i)
      {
        MembersNext(before, p.indices, members, i);
        unpacked := InsertAt(unpacked, p.indices[i], members[i]);
      }
    }
    UnpackTowerIs(tower, ps);
  }

  /** Restores the structure that packing has changed. */
  method UnpackSmallTensors(towers: seq<Tower>, packing: Packing?) returns (unpacked: seq<Tower>)
    requires packing != null && |packing.entries| > 0 ==>
      |towers| > 0 && forall d: nat :: d < |towers| ==> Unpacks(packing.entries, d, towers[d], |packing.entries| / |towers|)
    ensures packing == null || |packing.entries| == 0 ==> unpacked == towers
    ensures packing != null && |packing.entries| > 0 ==>
      && |unpacked| == |towers|
      && forall d: nat :: d < |towers| ==> UnpackedTo(packing.entries, d, towers[d], |packing.entries| / |towers|, unpacked[d])
  {
    if packing == null || |packing.entries| == 0 { return towers; }
    hide *;
    unpacked := [];
    var n := |packing.entries| / |towers|;
    for d := 0 to |towers|
      invariant |unpacked| == d
      invariant forall e: nat :: e < d ==> UnpackedTo(packing.entries, e, towers[e], n, unpacked[e])
    {
      var tower := UnpackInto(packing.entries, d, towers[d], n);
      UnpackedIf(packing.entries, d, towers[d], n, tower);
      unpacked := unpacked + [tower];
    }
  }

  ghost predicate UnpackedTo(entries: Entries, d: nat, tower: Tower, n: nat, unpacked: Tower) {
    && (forall k: nat :: k < n ==> (d, k) in entries)
    && AllUnpackable(tower, PacksFor(entries, d, n))
    && unpacked == UnpackTower(tower, PacksFor(entries, d, n))
  }

  lemma UnpackedIf(entries: Entries, d: nat, tower: Tower, n: nat, unpacked: Tower)
    requires (forall k: nat :: k < n ==> (d, k) in entries) && AllUnpackable(tower, PacksFor(entries, d, n))
    requires unpacked == UnpackTower(tower, PacksFor(entries, d, n))
    ensures UnpackedTo(entries, d, tower, n, unpacked)
  {
  }

  // ----- reducing -------------------------------------------------------------------

  /** All towers' gradients for one variable are summed; each tower keeps its own
      variable. */
  method SumGradAndVar(column: seq<GradVar>) returns (row: seq<GradVar>)
    requires |column| > 0 && forall gv :: gv in column ==> |gv.grad.data| == |column[0].grad.data|
    ensures |row| == |column| && |Grads(column)| > 0 && forall t :: t in Grads(column) ==> |t.data| == |Grads(column)[0].data|
    ensures forall d :: 0 <= d < |column| ==> row[d] == GradVar(SumAcross(Grads(column)), column[d].variable)
  {
    var sum := SumAcross(Grads(column));
    row := [];
    for d := 0 to |column|
      invariant |row| == d
      invariant forall e :: 0 <= e < d ==> row[e] == GradVar(sum, column[e].variable)
    {
      row := row + [GradVar(sum, column[d].variable)];
    }
  }

  ghost predicate Rectangular(towers: seq<Tower>) {
    |towers| > 0 && forall d :: 0 <= d < |towers| ==> |towers[d]| == |towers[0]|
  }

  /** Row `i` of the reduced towers. */
  ghost predicate ReducedRow(towers: seq<Tower>, i: nat, row: seq<GradVar>)
    requires Isomorphic(AllGrads(towers))
  {
    && |row| == |towers|
    && forall d: nat :: d < |towers| ==> i < |ReducedTower(towers, d)| && row[d] == ReducedTower(towers, d)[i]
  }

  lemma ColumnGrads(towers: seq<Tower>, i: nat)
    requires Rectangular(towers) && Isomorphic(AllGrads(towers)) && i < |towers[0]|
    ensures forall d :: 0 <= d < |AllGrads(towers)| ==> i < |AllGrads(towers)[d]|
    ensures i < |AllGrads(towers)[0]|
    ensures Grads(Column(towers, i)) == Column(AllGrads(towers), i) && |Column(towers, i)| == |towers| > 0
    ensures forall gv :: gv in Column(towers, i) ==> |gv.grad.data| == |Column(towers, i)[0].grad.data|
    ensures forall d :: 0 <= d < |towers| ==> Column(towers, i)[d] == towers[d][i]
  {
    assert forall d :: 0 <= d < |AllGrads(towers)| ==> |AllGrads(towers)[d]| == |towers[d]|;
    ColumnFits(AllGrads(towers), i);
    var c := Column(towers, i);
    assert Grads(c) == Column(AllGrads(towers), i);
    forall gv | gv in c ensures |gv.grad.data| == |c[0].grad.data| {
      var d :| 0 <= d < |c| && c[d] == gv;
      assert Grads(c)[d] in Column(AllGrads(towers), i);
      assert Grads(c)[0] == c[0].grad;
    }
  }

  lemma ReducedTowerAt(towers: seq<Tower>, d: nat, i: nat)
    requires Rectangular(towers) && Isomorphic(AllGrads(towers)) && d < |towers| && i < |towers[0]|
    requires i < |AllGrads(towers)[0]| && (forall d :: 0 <= d < |AllGrads(towers)| ==> i < |AllGrads(towers)[d]|)
    requires |Column(AllGrads(towers), i)| > 0
    requires forall t :: t in Column(AllGrads(towers), i) ==> |t.data| == |Column(AllGrads(towers), i)[0].data|
    ensures i < |ReducedTower(towers, d)|
    ensures ReducedTower(towers, d)[i] == GradVar(SumAcross(Column(AllGrads(towers), i)), towers[d][i].variable)
  {
    var r := Reduced(AllGrads(towers));
    assert |r| == |AllGrads(towers)[0]| && r[i] == SumAcross(Column(AllGrads(towers), i));
    hide Reduced, SumAcross, Column, AllGrads, Isomorphic;
  }

  lemma RowReduced(towers: seq<Tower>, i: nat, row: seq<GradVar>)
    requires Rectangular(towers) && Isomorphic(AllGrads(towers)) && i < |towers[0]|
    requires |row| == |towers| == |Column(towers, i)| && |Grads(Column(towers, i))| > 0
    requires forall t :: t in Grads(Column(towers, i)) ==> |t.data| == |Grads(Column(towers, i))[0].data|
    requires forall d :: 0 <= d < |towers| ==> row[d] == GradVar(SumAcross(Grads(Column(towers, i))), Column(towers, i)[d].variable)
    ensures ReducedRow(towers, i, row)
  {
    ColumnGrads(towers, i);
    hide SumAcross, Column, Grads, AllGrads, Isomorphic, ReducedTower;
    forall d: nat | d < |towers| ensures i < |ReducedTower(towers, d)| && row[d] == ReducedTower(towers, d)[i] {
      ReducedTowerAt(towers, d, i);
    }
  }

  lemma TowerFromRows(towers: seq<Tower>, rows: seq<seq<GradVar>>, d: nat, tower: Tower)
    requires Isomorphic(AllGrads(towers)) && d < |towers| && |rows| == |towers[d]| == |tower|
    requires forall i: nat :: i < |rows| ==> ReducedRow(towers, i, rows[i]) && d < |rows[i]| && tower[i] == rows[i][d]
    ensures tower == ReducedTower(towers, d)
  {
    assert |ReducedTower(towers, d)| == |towers[d]|;
    hide Reduced, AllGrads, Isomorphic, ReducedTower;
    forall i: nat | i < |tower| ensures tower[i] == ReducedTower(towers, d)[i] { assert ReducedRow(towers, i, rows[i]); }
  }

  lemma RowSize(towers: seq<Tower>, i: nat, row: seq<GradVar>)
    requires Isomorphic(AllGrads(towers)) && ReducedRow(towers, i, row)
    ensures |row| == |towers|
  {
  }

  lemma RectangularIs(towers: seq<Tower>)
    requires Isomorphic(AllGrads(towers))
    ensures Rectangular(towers) && |towers| > 0
    ensures forall d :: 0 <= d < |towers| ==> |towers[d]| == |towers[0]|
  {
    forall d | 0 <= d < |towers| ensures |towers[d]| == |towers[0]| {
      assert SameForms(AllGrads(towers)[d], AllGrads(towers)[0]);
      assert |AllGrads(towers)[d]| == |towers[d]| && |AllGrads(towers)[0]| == |towers[0]|;
    }
  }

  /** Reduces gradient by gradient, in chunks of `mergeScope`. */
  method ReduceTowers(towers: seq<Tower>, mergeScope: int) returns (reduced: seq<Tower>)
    requires Isomorphic(AllGrads(towers))
    ensures |towers| > 0
    ensures towers[0] == [] ==> reduced == []
    ensures towers[0] != [] ==>
      |reduced| == |towers| && forall d: nat :: d < |towers| ==> reduced[d] == ReducedTower(towers, d)
  {
    hide *;
    RectangularIs(towers);
    var n := |towers[0]|;
    var scope := if mergeScope > 0 then mergeScope else 1;
    var rows: seq<seq<GradVar>> := [];
    var x := 0;
    while x < n
      invariant 0 <= x && |rows| == if x < n then x else n
      invariant forall i: nat :: i < |rows| ==> ReducedRow(towers, i, rows[i])
    {
      var end := if x + scope < n then x + scope else n;
      for j := x to end
        invariant |rows| == j
        invariant forall i: nat :: i < |rows| ==> ReducedRow(towers, i, rows[i])
      {
        ColumnGrads(towers, j);
        var row := SumGradAndVar(Column(towers, j));
        RowReduced(towers, j, row);
        rows := rows + [row];
      }
      x := x + scope;
    }
    reduced := [];
    if n == 0 { return; }
    RowSize(towers, 0, rows[0]);
    for d := 0 to |rows[0]|
      invariant |reduced| == d
      invariant forall e: nat :: e < d ==> reduced[e] == ReducedTower(towers, e)
    {
      forall i: nat | i < n ensures |rows[i]| == |towers| { RowSize(towers, i, rows[i]); }
      var tower := seq(n, i requires 0 <= i < n => rows[i][d]);
      TowerFromRows(towers, rows, d, tower);
      reduced := reduced + [tower];
    }
  }

  // ----- the whole reduction ----------------------------------------------------------

  lemma PackedNonempty(tower: Tower, rs: seq<Range>)
    requires Packable(rs, |tower|) && rs != []
    ensures PackTower(tower, rs) != [] && tower != []
  {
    assert rs[0].last < |tower|;
    hide PackOne, Without, Ascending;
  }

  lemma PackTowersAt(towers: seq<Tower>, rs: seq<Range>, d: nat)
    requires d < |towers| && forall d :: 0 <= d < |towers| ==> Packable(rs, |towers[d]|)
    ensures |PackTowers(towers, rs)| == |towers| && PackTowers(towers, rs)[d] == PackTower(towers[d], rs)
  {
    hide Packable, PackTower;
  }

  lemma UnpacksIf(entries: Entries, d: nat, tower: Tower, n: nat, ps: seq<GradPack>)
    requires (forall k: nat :: k < n ==> (d, k) in entries) && PacksFor(entries, d, n) == ps && AllUnpackable(tower, ps)
    ensures Unpacks(entries, d, tower, n)
  {
  }

  lemma UnpackedIs(entries: Entries, d: nat, tower: Tower, n: nat, ps: seq<GradPack>, unpacked: Tower)
    requires (forall k: nat :: k < n ==> (d, k) in entries) && PacksFor(entries, d, n) == ps && AllUnpackable(tower, ps)
    requires UnpackedTo(entries, d, tower, n, unpacked)
    ensures unpacked == UnpackTower(tower, ps)
  {
  }

  lemma AlikeIsomorphic(towers: seq<Tower>)
    requires Alike(towers)
    ensures |towers| > 0 && Isomorphic(AllGrads(towers))
  {
  }

  /** Whatever is packed on the way, and in whatever chunks: every gradient of
      every tower becomes the sum over all towers.  Only without any gradient
      the towers themselves are lost. */
  method SumGradientsAllReduce(towers: seq<Tower>, maxBytes: int, maxGroup: int, mergeScope: int)
      returns (reduced: seq<Tower>)
    requires Alike(towers)
    ensures |towers| > 0 && Isomorphic(AllGrads(towers))
    ensures towers[0] == [] ==> reduced == []
    ensures towers[0] != [] ==>
      |reduced| == |towers| && forall d: nat :: d < |towers| ==> reduced[d] == ReducedTower(towers, d)
  {
    hide *;
    AlikeIsomorphic(towers);
    var packing: Packing? := null;
    var packed := towers;
    ghost var rs: seq<Range> := [];
    if maxBytes > 0 && maxGroup > 0 {
      packed, packing, rs := PackSmallTensors(towers, maxBytes, maxGroup);
      if rs != [] {
        PackTowersAt(towers, rs, 0);
        PackedNonempty(towers[0], rs);
        PackingInvisible(towers, rs, 0);
        NotesSize(towers, rs, |towers|);
        TimesDivide(|towers|, |rs|);
        TimesPositive(|towers|, |rs|);
      }
    }
    reduced := ReduceTowers(packed, mergeScope);
    if packing != null && |packing.entries| > 0 {
      forall d: nat | d < |towers| ensures Unpacks(packing.entries, d, reduced[d], |rs|)
        ensures (forall k: nat :: k < |rs| ==> (d, k) in packing.entries)
        ensures PacksFor(packing.entries, d, |rs|) == PacksOf(towers[d], rs)
        ensures AllUnpackable(reduced[d], PacksOf(towers[d], rs))
        ensures UnpackTower(reduced[d], PacksOf(towers[d], rs)) == ReducedTower(towers, d)
      {
        NotedPacks(towers, rs, d);
        PackingInvisible(towers, rs, d);
        UnpacksIf(packing.entries, d, reduced[d], |rs|, PacksOf(towers[d], rs));
      }
      ghost var before := reduced;
      reduced := UnpackSmallTensors(reduced, packing);
      forall d: nat | d < |towers| ensures reduced[d] == ReducedTower(towers, d) {
        UnpackedIs(packing.entries, d, before[d], |rs|, PacksOf(towers[d], rs), reduced[d]);
      }
    }
  }
}
