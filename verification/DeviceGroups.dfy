/** Dealing devices out to groups of one size, some of them twice. */
module DeviceGroups {
  import opened Arithmetic
  import opened Results

  /** Enough groups for all devices. */
  function NumGroups(devices: nat, size: nat): nat
    requires size > 0
  {
    devices / size + if devices % size != 0 then 1 else 0
  }

  /** There are as many groups as needed and no more. */
  lemma NumGroupsIs(devices: nat, size: nat)
    requires 0 < size <= devices
    ensures var m := NumGroups(devices, size); m > 0 && devices <= Times(m, size) < devices + size
  {
    var q, r := devices / size, devices % size;
    assert devices == size * q + r;
    assert q > 0;
    assert Times(q, size) == size * q && Times(q + 1, size) == size * q + size;
  }

  /** Slot `i` of the deal belongs to group `i % groups` and is its `i / groups`-th. */
  ghost predicate Dealt<T>(names: seq<T>, groups: seq<seq<T>>, i: nat) {
    && |names| > 0 && |groups| > 0
    && i / |groups| < |groups[i % |groups|]|
    && groups[i % |groups|][i / |groups|] == names[i % |names|]
  }

  /** The names are dealt out in turn to as many full groups as needed. */
  ghost predicate Grouped<T>(names: seq<T>, size: nat, groups: seq<seq<T>>) {
    && size > 0 && |groups| == NumGroups(|names|, size)
    && (forall k :: 0 <= k < |groups| ==> |groups[k]| == size)
    && (forall i: nat :: i < Times(|groups|, size) ==> Dealt(names, groups, i))
  }

  lemma GroupedIf<T>(names: seq<T>, size: nat, groups: seq<seq<T>>)
    requires size > 0 && |groups| == NumGroups(|names|, size)
    requires forall k :: 0 <= k < |groups| ==> |groups[k]| == size
    requires forall i: nat :: i < Times(|groups|, size) ==> Dealt(names, groups, i)
    ensures Grouped(names, size, groups)
  {
    hide NumGroups, Dealt, Times;
  }

  lemma SlotIs(m: nat, q: nat, r: nat)
    requires r < m
    ensures (m * q + r) % m == r && (m * q + r) / m == q
  {
    ModIs(m * q + r, m, q, r);
    DivIs(m * q + r, m, q, r);
  }

  lemma DealOne<T>(names: seq<T>, before: seq<seq<T>>, after: seq<seq<T>>, q: nat, r: nat, n: nat)
    requires |names| > 0 && r < |before| && n == |before| * q + r && |before[r]| == q
    requires after == before[r := before[r] + [names[n % |names|]]]
    requires forall i: nat :: i < n ==> Dealt(names, before, i)
    ensures forall i: nat :: i < n + 1 ==> Dealt(names, after, i)
  {
    SlotIs(|before|, q, r);
    forall i: nat | i < n + 1 ensures Dealt(names, after, i) {
      if i < n { assert Dealt(names, before, i); }
    }
  }

  lemma EndOfRound(m: nat, q: nat, r: nat, size: nat)
    requires r < m && m * q + r == Times(m, size)
    ensures r == 0 && q == size
  {
    UniqueDivision(m, q, r, size, 0);
    assert m * (q - size) == 0 && m * (size - q) == 0;
    Grows(m, q - size);
    Grows(m, size - q);
  }

  lemma NextRound(m: nat, q: nat, r: nat)
    requires r < m
    ensures if r + 1 < m then m * q + r + 1 == m * q + (r + 1) else m * q + r + 1 == m * (q + 1) + 0
  {
  }

  /** Deals the devices out in turn until every group has its size. */
  method GroupDeviceNames<T>(names: seq<T>, size: nat) returns (result: Result<seq<seq<T>>>)
    requires size > 0
    ensures result.Err? <==> size > |names|
    ensures result.Ok? ==> Grouped(names, size, result.value)
  {
    hide *;
    if size > |names| { return Err("fewer devices than the group size"); }
    NumGroupsIs(|names|, size);
    var m := NumGroups(|names|, size);
    var groups: seq<seq<T>> := seq(m, k => []);
    ghost var q, r: nat := 0, 0;
    for i := 0 to Times(m, size)
      invariant |groups| == m && r < m && 0 <= q && i == m * q + r
      invariant forall k :: 0 <= k < m ==> |groups[k]| == if k < r then q + 1 else q
      invariant forall j: nat :: j < i ==> Dealt(names, groups, j)
    {
      SlotIs(m, q, r);
      ghost var before := groups;
      groups := groups[i % m := groups[i % m] + [names[i % |names|]]];
      DealOne(names, before, groups, q, r, i);
      NextRound(m, q, r);
      if r + 1 < m { r := r + 1; } else { q, r := q + 1, 0; }
    }
    EndOfRound(m, q, r, size);
    GroupedIf(names, size, groups);
    result := Ok(groups);
  }

  // ----- how often a device is used -----------------------------------------------------

  /** The slots that get device `e`. */
  ghost function Uses(n: nat, slots: nat, e: nat): set<nat>
    requires n > 0
  {
    set i: nat | i < slots && i % n == e
  }

  /** Every device is used once or twice, the first few of them twice. */
  lemma OnceOrTwice(n: nat, size: nat, e: nat)
    requires 0 < size <= n && e < n
    ensures var slots := Times(NumGroups(n, size), size);
      && slots >= n
      && Uses(n, slots, e) == (if e < slots - n then {e, e + n} else {e})
      && |Uses(n, slots, e)| == if e < slots - n then 2 else 1
  {
    NumGroupsIs(n, size);
    var slots := Times(NumGroups(n, size), size);
    hide NumGroups, Times;
    forall i: nat | i < slots ensures i % n == e <==> i == e || i == e + n {
      if i < n { ModIs(i, n, 0, i); } else { ModIs(i, n, 1, i - n); }
    }
  }

  lemma SlotInRange(m: nat, size: nat, g: nat, i: nat)
    requires g < m && i < size
    ensures m * i + g < Times(m, size)
  {
    var rest: nat := size - 1 - i;
    assert Times(m, size) == m * i + m + m * rest;
  }

  /** Position `i` of group `g` is a slot. */
  lemma SlotAt<T>(names: seq<T>, size: nat, groups: seq<seq<T>>, g: nat, i: nat) returns (slot: nat)
    requires Grouped(names, size, groups) && g < |groups| && i < size
    ensures slot == |groups| * i + g < Times(|groups|, size) && |names| > 0 && i < |groups[g]|
    ensures groups[g][i] == names[slot % |names|]
  {
    slot := |groups| * i + g;
    SlotInRange(|groups|, size, g, i);
    SlotIs(|groups|, i, g);
    assert Dealt(names, groups, slot);
    hide NumGroups, Times, Grouped;
  }

  /** Slot `s` is a position of a group. */
  lemma SlotPlace<T>(names: seq<T>, size: nat, groups: seq<seq<T>>, s: nat) returns (g: nat, i: nat)
    requires Grouped(names, size, groups) && s < Times(|groups|, size)
    ensures |groups| > 0 && |names| > 0 && g == s % |groups| && i == s / |groups|
    ensures g < |groups| && i < size == |groups[g]| && groups[g][i] == names[s % |names|]
  {
    assert Dealt(names, groups, s);
    g, i := s % |groups|, s / |groups|;
    hide NumGroups, Times;
  }

  ghost predicate Distinct<T>(names: seq<T>) {
    forall i, j :: 0 <= i < j < |names| ==> names[i] != names[j]
  }

  /** Two positions of one group hold the same. */
  ghost predicate Twice<T>(group: seq<T>, x: T) {
    exists i, j :: 0 <= i < j < |group| && group[i] == x && group[j] == x
  }

  /** Slots that are a multiple of `m` apart are in one group. */
  lemma SameGroup(m: nat, e: nat, n: nat)
    requires m > 0 && n > 0 && n % m == 0
    ensures e % m == (e + n) % m && e / m < (e + n) / m
  {
    assert e == m * (e / m) + e % m && n == m * (n / m);
    assert e + n == m * (e / m + n / m) + e % m;
    ModIs(e + n, m, e / m + n / m, e % m);
    DivIs(e + n, m, e / m + n / m, e % m);
  }

  lemma ApartInGroup(m: nat, g: nat, i: nat, j: nat, n: nat)
    requires m > 0 && i < j && m * j + g == m * i + g + n
    ensures n % m == 0
  {
    assert n == m * (j - i) + 0;
    ModIs(n, m, j - i, 0);
  }

  /** The slots of a device. */
  lemma UsesOf(n: nat, size: nat, e: nat, s: nat)
    requires 0 < size <= n && e < n && s < Times(NumGroups(n, size), size)
    ensures s % n == e <==> s == e || (s == e + n && e < Times(NumGroups(n, size), size) - n)
  {
    OnceOrTwice(n, size, e);
    var slots := Times(NumGroups(n, size), size);
    hide NumGroups, Times;
    assert s in Uses(n, slots, e) <==> s % n == e;
  }

  lemma TwiceThen<T>(names: seq<T>, size: nat, groups: seq<seq<T>>, e: nat, g: nat)
    requires 0 < size <= |names| && Distinct(names) && Grouped(names, size, groups) && e < |names| && |groups| > 0
    requires g < |groups| && Twice(groups[g], names[e])
    ensures e < Times(|groups|, size) - |names| && |names| % |groups| == 0
  {
    assert |groups[g]| == size && |groups| == NumGroups(|names|, size);
    var i: nat, j: nat :| i < j < |groups[g]| && groups[g][i] == names[e] && groups[g][j] == names[e];
    hide Grouped, Times, NumGroups, Twice;
    var s := SlotAt(names, size, groups, g, i);
    var u := SlotAt(names, size, groups, g, j);
    UsesOf(|names|, size, e, s);
    UsesOf(|names|, size, e, u);
    SlotsApart(|groups|, g, i, j);
    ApartInGroup(|groups|, g, i, j, |names|);
  }

  lemma SlotsApart(m: nat, g: nat, i: nat, j: nat)
    requires m > 0 && i < j
    ensures m * i + g < m * j + g
  {
    Grows(m, j - i);
    assert m * (j - i) == m * j - m * i;
  }

  lemma TwiceIf<T>(names: seq<T>, size: nat, groups: seq<seq<T>>, e: nat) returns (g: nat)
    requires 0 < size <= |names| && Grouped(names, size, groups) && e < |names| && |groups| > 0
    requires e < Times(|groups|, size) - |names| && |names| % |groups| == 0
    ensures g < |groups| && Twice(groups[g], names[e])
  {
    hide Grouped, Times, NumGroups;
    var n := |names|;
    SameGroup(|groups|, e, n);
    var i, j;
    g, i := SlotPlace(names, size, groups, e);
    g, j := SlotPlace(names, size, groups, e + n);
    ModIs(e, n, 0, e);
    ModIs(e + n, n, 1, e);
  }

  /** Some group holds a device twice exactly when it is one of the first few, which are
      used twice, and the number of groups divides the number of devices. */
  lemma TwiceInOneGroup<T>(names: seq<T>, size: nat, groups: seq<seq<T>>, e: nat)
    requires 0 < size <= |names| && Distinct(names) && Grouped(names, size, groups) && e < |names|
    ensures |groups| > 0
    ensures (exists g :: 0 <= g < |groups| && Twice(groups[g], names[e]))
      <==> e < Times(|groups|, size) - |names| && |names| % |groups| == 0
  {
    NumGroupsIs(|names|, size);
    assert |groups| > 0;
    hide Grouped, Times, NumGroups, Twice, Distinct;
    if g :| 0 <= g < |groups| && Twice(groups[g], names[e]) { TwiceThen(names, size, groups, e, g); }
    if e < Times(|groups|, size) - |names| && |names| % |groups| == 0 {
      var g := TwiceIf(names, size, groups, e);
    }
  }
}
