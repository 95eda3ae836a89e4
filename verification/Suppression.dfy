/** Decoding the detections of one image: per class, boxes that overlap a better
    one are suppressed; of what is left the best are returned. */
module Suppression {
  import Ranges

  datatype Box = Box(left: real, top: real, right: real, bottom: real)

  datatype Detection = Detection(box: Box, category: nat, score: real)

  const MIN_SCORE := 0.05
  const DUMMY := Detection(Box(0.0, 0.0, 0.0, 0.0), 0, -100000.0)

  function Max(x: real, y: real): real { if x > y then x else y }
  function Min(x: real, y: real): real { if x < y then x else y }

  // ----- overlap ------------------------------------------------------------------------

  function Intersection(t: Box, c: Box): real {
    Max(Min(t.right, c.right) - Max(t.left, c.left), 0.0) * Max(Min(t.bottom, c.bottom) - Max(t.top, c.top), 0.0)
  }

  /** The area that stands for both boxes': it is measured from the candidate's
      corner to the target's, in the source for both of them. */
  function Area(t: Box, c: Box): real {
    (t.right - c.left) * (t.bottom - c.top)
  }

  /** What the source takes for the area that the boxes cover together. */
  function Union(t: Box, c: Box): real { Area(t, c) + Area(t, c) - Intersection(t, c) }

  /** The overlap is below the criterion.  Dividing by zero gives infinity or no
      number at all, neither of which is below anything. */
  predicate Passes(t: Box, c: Box, criteria: real) {
    Union(t, c) != 0.0 && Intersection(t, c) / Union(t, c) < criteria
  }

  // ----- what overlap means ---------------------------------------------------------------

  function AreaOf(b: Box): real { (b.right - b.left) * (b.bottom - b.top) }

  predicate Proper(b: Box) { b.left < b.right && b.top < b.bottom }

  predicate Inside(b: Box, c: Box) {
    c.left <= b.left && b.right <= c.right && c.top <= b.top && b.bottom <= c.bottom
  }

  predicate InBoth(b: Box, t: Box, c: Box) { Proper(b) && Inside(b, t) && Inside(b, c) }

  function Common(t: Box, c: Box): Box {
    Box(Max(t.left, c.left), Max(t.top, c.top), Min(t.right, c.right), Min(t.bottom, c.bottom))
  }

  lemma ProductMono(a: real, b: real, c: real, d: real)
    requires 0.0 <= a <= c && 0.0 <= b <= d
    ensures 0.0 <= a * b <= c * d
  {
    assert c * d - a * b == c * (d - b) + (c - a) * b;
    assert c * (d - b) >= 0.0 && (c - a) * b >= 0.0;
  }

  lemma ZeroFactor(x: real)
    ensures 0.0 * x == 0.0 && x * 0.0 == 0.0
  {
  }

  /** The largest box inside both, when there is one. */
  lemma CommonIsLargest(t: Box, c: Box, b: Box)
    requires InBoth(b, t, c)
    ensures InBoth(Common(t, c), t, c) && Inside(b, Common(t, c))
  {
  }

  lemma CommonArea(t: Box, c: Box)
    ensures Intersection(t, c) == if Proper(Common(t, c)) then AreaOf(Common(t, c)) else 0.0
    ensures Proper(Common(t, c)) ==> InBoth(Common(t, c), t, c)
  {
    var w, h := Common(t, c).right - Common(t, c).left, Common(t, c).bottom - Common(t, c).top;
    assert Intersection(t, c) == Max(w, 0.0) * Max(h, 0.0);
    if w <= 0.0 { ZeroFactor(Max(h, 0.0)); } else if h <= 0.0 { ZeroFactor(Max(w, 0.0)); }
  }

  lemma CommonBounds(t: Box, c: Box, b: Box)
    requires InBoth(b, t, c)
    ensures Proper(Common(t, c)) && AreaOf(b) <= AreaOf(Common(t, c))
  {
    CommonIsLargest(t, c, b);
    var m := Common(t, c);
    hide Common;
    ProductMono(b.right - b.left, b.bottom - b.top, m.right - m.left, m.bottom - m.top);
  }

  /** The intersection is the largest area of a proper box inside both boxes, and zero
      when there is no such box. */
  lemma IntersectionIsLargest(t: Box, c: Box)
    ensures forall b :: InBoth(b, t, c) ==> AreaOf(b) <= Intersection(t, c)
    ensures if exists b :: InBoth(b, t, c)
            then exists b :: InBoth(b, t, c) && AreaOf(b) == Intersection(t, c)
            else Intersection(t, c) == 0.0
  {
    hide *;
    CommonArea(t, c);
    forall b | InBoth(b, t, c) ensures Proper(Common(t, c)) && AreaOf(b) <= AreaOf(Common(t, c)) { CommonBounds(t, c, b); }
    if b :| InBoth(b, t, c) { assert InBoth(Common(t, c), t, c) && AreaOf(Common(t, c)) == Intersection(t, c); }
  }

  /** What the source takes for either box's area is that of the box between the
      candidate's upper left and the target's lower right corner. */
  lemma AreaIs(t: Box, c: Box)
    ensures Area(t, c) == AreaOf(Box(c.left, c.top, t.right, t.bottom))
    ensures t.left == c.left && t.top == c.top ==> Area(t, c) == AreaOf(t)
    ensures t.right == c.right && t.bottom == c.bottom ==> Area(t, c) == AreaOf(c)
  {
  }

  lemma QuotientBelow(x: real, y: real, z: real)
    requires y != 0.0
    ensures x / y < z <==> if y > 0.0 then x < z * y else x > z * y
  {
    var q := x / y;
    assert q * y == x;
    assert (z - q) * y == z * y - x;
    if q < z {
      if y > 0.0 { assert (z - q) * y > 0.0; } else { assert (z - q) * (0.0 - y) > 0.0; }
    } else {
      if y > 0.0 { assert (q - z) * y >= 0.0; } else { assert (q - z) * (0.0 - y) >= 0.0; }
    }
  }

  lemma UnionIs(t: Box, c: Box)
    ensures Union(t, c) == AreaOf(Box(c.left, c.top, t.right, t.bottom)) * 2.0 - Intersection(t, c)
  {
    AreaIs(t, c);
    hide Area, AreaOf, Intersection;
  }

  /** The threshold, without dividing. */
  lemma PassesIff(t: Box, c: Box, criteria: real)
    ensures var union := AreaOf(Box(c.left, c.top, t.right, t.bottom)) * 2.0 - Intersection(t, c);
      Passes(t, c, criteria) <==>
        if union > 0.0 then Intersection(t, c) < criteria * union
        else union < 0.0 && Intersection(t, c) > criteria * union
  {
    hide Union, AreaOf, Intersection;
    UnionIs(t, c);
    if Union(t, c) != 0.0 { QuotientBelow(Intersection(t, c), Union(t, c), criteria); }
  }

  lemma SameQuotient(x: real, y: real, z: real)
    requires y != 0.0 && z != 0.0
    ensures x / y == x / z <==> x == 0.0 || y == z
  {
    assert x / y * y == x && x / z * z == x;
    if x / y == x / z && x != 0.0 {
      assert x / y * (y - z) == x / y * y - x / y * z;
    }
  }

  /** The overlap that the source computes is that of intersection over union if, and
      only if, the boxes do not intersect or the area taken for both is the mean of
      theirs. */
  lemma OverlapIsTrueIff(t: Box, c: Box)
    requires Union(t, c) != 0.0 && AreaOf(t) + AreaOf(c) - Intersection(t, c) != 0.0
    ensures Intersection(t, c) / Union(t, c) == Intersection(t, c) / (AreaOf(t) + AreaOf(c) - Intersection(t, c)) <==>
      (forall b :: !InBoth(b, t, c)) || AreaOf(Box(c.left, c.top, t.right, t.bottom)) * 2.0 == AreaOf(t) + AreaOf(c)
  {
    hide *;
    SameQuotient(Intersection(t, c), Union(t, c), AreaOf(t) + AreaOf(c) - Intersection(t, c));
    UnionIs(t, c);
    NothingCommon(t, c);
  }

  lemma NothingCommon(t: Box, c: Box)
    ensures Intersection(t, c) == 0.0 <==> forall b :: !InBoth(b, t, c)
  {
    IntersectionIsLargest(t, c);
    hide Intersection;
    if b :| InBoth(b, t, c) { Positive(b.right - b.left, b.bottom - b.top); }
  }

  lemma Positive(w: real, h: real)
    requires w > 0.0 && h > 0.0
    ensures w * h > 0.0
  {
  }

  lemma AreaAt(t: Box, c: Box, w: real, h: real)
    requires w == t.right - c.left && h == t.bottom - c.top
    ensures Area(t, c) == w * h
  {
  }

  lemma IntersectionAt(t: Box, c: Box, w: real, h: real)
    requires w == Max(Min(t.right, c.right) - Max(t.left, c.left), 0.0)
    requires h == Max(Min(t.bottom, c.bottom) - Max(t.top, c.top), 0.0)
    ensures Intersection(t, c) == w * h
  {
  }

  lemma HalfApartAreas(t: Box, c: Box)
    requires t == Box(0.0, 0.0, 1.0, 1.0) && c == Box(0.5, 0.0, 1.5, 1.0)
    ensures AreaOf(t) == 1.0 && AreaOf(c) == 1.0 && Area(t, c) == 0.5 && Area(c, t) == 1.5
    ensures Intersection(t, c) == 0.5 && Intersection(c, t) == 0.5
  {
    hide Area, AreaOf, Intersection;
    AreaAt(t, t, 1.0, 1.0);
    AreaAt(c, c, 1.0, 1.0);
    AreaIs(t, t);
    AreaIs(c, c);
    AreaAt(t, c, 0.5, 1.0);
    AreaAt(c, t, 1.5, 1.0);
    IntersectionAt(t, c, 0.5, 1.0);
    IntersectionAt(c, t, 0.5, 1.0);
  }

  lemma PassesIs(t: Box, c: Box, criteria: real, union: real, q: real)
    requires union == Area(t, c) + Area(t, c) - Intersection(t, c) && union != 0.0 && q == Intersection(t, c) / union
    ensures Passes(t, c, criteria) <==> q < criteria
  {
    hide Area, Intersection;
  }

  /** Two unit boxes, one half to the right of the other: seen from the left one all of
      the other is covered, seen from the right one a fifth.  Of what they cover
      together a third is common. */
  lemma HalfApart(t: Box, c: Box)
    requires t == Box(0.0, 0.0, 1.0, 1.0) && c == Box(0.5, 0.0, 1.5, 1.0)
    ensures Intersection(t, c) / (AreaOf(t) + AreaOf(c) - Intersection(t, c)) == 1.0 / 3.0
    ensures !Passes(t, c, 0.5) && Passes(c, t, 0.5)
  {
    hide *;
    HalfApartAreas(t, c);
    PassesIs(t, c, 0.5, 0.5, 1.0);
    PassesIs(c, t, 0.5, 2.5, 0.2);
  }

  // ----- a box against itself -------------------------------------------------------------

  predicate SelfSuppresses(b: Box, criteria: real) {
    !Passes(b, b, criteria)
  }

  lemma OverlapsItself(w: real, h: real)
    requires w > 0.0 && h > 0.0
    ensures w * h > 0.0 && (w * h) / (w * h + w * h - w * h) == 1.0
  {
  }

  lemma NegativeSide(w: real, h: real)
    requires (w < 0.0 || h < 0.0) && w != 0.0 && h != 0.0
    ensures w * h != 0.0 && 0.0 / (w * h + w * h - 0.0) == 0.0
  {
    if w < 0.0 && h < 0.0 { assert w * h > 0.0; }
    else if w < 0.0 { assert (0.0 - w) * h > 0.0; }
    else { assert w * (0.0 - h) > 0.0; }
  }

  /** When a box suppresses itself: a proper one if the criterion is at most one, an
      empty one always, and one turned inside out only if the criterion is not
      positive. */
  lemma SelfSuppressesIff(b: Box, criteria: real)
    ensures var w, h := b.right - b.left, b.bottom - b.top;
      SelfSuppresses(b, criteria) <==>
        if w == 0.0 || h == 0.0 then true
        else if w > 0.0 && h > 0.0 then criteria <= 1.0
        else criteria <= 0.0
  {
    var w, h := b.right - b.left, b.bottom - b.top;
    assert Area(b, b) == w * h;
    assert Intersection(b, b) == Max(w, 0.0) * Max(h, 0.0);
    if w == 0.0 || h == 0.0 {
      assert w * h == 0.0 && Max(w, 0.0) * Max(h, 0.0) == 0.0;
    } else if w > 0.0 && h > 0.0 {
      OverlapsItself(w, h);
      assert Max(w, 0.0) == w && Max(h, 0.0) == h;
    } else {
      NegativeSide(w, h);
      assert Max(w, 0.0) * Max(h, 0.0) == 0.0;
    }
  }

  // ----- ranking ------------------------------------------------------------------------

  /** `numpy.argsort`: all indices, by ascending score; equal scores in any order. */
  ghost predicate Ranking(scores: seq<real>, order: seq<nat>) {
    && |order| == |scores|
    && (forall a :: 0 <= a < |order| ==> order[a] < |scores|)
    && (forall a, b :: 0 <= a < b < |order| ==> order[a] != order[b])
    && (forall a, b :: 0 <= a < b < |order| ==> scores[order[a]] <= scores[order[b]])
  }

  ghost predicate RankingOf(scores: seq<real>, order: seq<nat>, n: nat)
    requires n <= |scores|
  {
    && |order| == n && (forall a :: 0 <= a < n ==> order[a] < n)
    && (forall a, b :: 0 <= a < b < n ==> order[a] != order[b])
    && (forall a, b :: 0 <= a < b < n ==> scores[order[a]] <= scores[order[b]])
  }

  function Inserted(order: seq<nat>, j: nat, n: nat): seq<nat>
    requires j <= |order|
  {
    order[..j] + [n] + order[j..]
  }

  lemma InsertedAt(order: seq<nat>, j: nat, n: nat, k: nat)
    requires j <= |order| && k <= |order|
    ensures |Inserted(order, j, n)| == |order| + 1
    ensures Inserted(order, j, n)[k] == if k < j then order[k] else if k == j then n else order[k - 1]
  {
  }

  lemma InsertRank(scores: seq<real>, order: seq<nat>, n: nat, j: nat)
    requires n < |scores| && RankingOf(scores, order, n) && j <= n
    requires forall k :: j <= k < n ==> scores[n] < scores[order[k]]
    requires j > 0 ==> scores[order[j - 1]] <= scores[n]
    ensures RankingOf(scores, Inserted(order, j, n), n + 1)
  {
    var s := Inserted(order, j, n);
    assert |s| == n + 1;
    hide Inserted;
    forall a: nat | a < n + 1 ensures s[a] < n + 1 { InsertedAt(order, j, n, a); }
    forall a: nat, b: nat | a < b < n + 1 ensures s[a] != s[b] && scores[s[a]] <= scores[s[b]] {
      InsertedAt(order, j, n, a);
      InsertedAt(order, j, n, b);
      if a < j && b == j && a < j - 1 { assert scores[order[a]] <= scores[order[j - 1]]; }
    }
  }

  method ArgSort(scores: seq<real>) returns (order: seq<nat>)
    ensures Ranking(scores, order)
  {
    order := [];
    for n := 0 to |scores|
      invariant RankingOf(scores, order, n)
    {
      var j := n;
      while j > 0 && scores[order[j - 1]] > scores[n]
        invariant 0 <= j <= n
        invariant forall k :: j <= k < n ==> scores[n] < scores[order[k]]
      {
        j := j - 1;
      }
      InsertRank(scores, order, n, j);
      order := Inserted(order, j, n);
    }
  }

  /** Python's `s[-n:]`, which for zero is the whole list. */
  function LastOf<T>(s: seq<T>, n: int): seq<T> {
    if n > 0 then (if n < |s| then s[|s| - n..] else s)
    else if -n < |s| then s[-n..] else []
  }

  /** All but the first few, and with a positive number no more than that many. */
  lemma LastOfIs<T>(s: seq<T>, n: int)
    ensures |LastOf(s, n)| <= |s| && LastOf(s, n) == s[|s| - |LastOf(s, n)|..]
    ensures n > 0 ==> |LastOf(s, n)| == if n <= |s| then n else |s|
    ensures n <= 0 ==> |LastOf(s, n)| == if -n <= |s| then |s| + n else 0
  {
  }

  // ----- suppression --------------------------------------------------------------------

  ghost predicate Positions(ps: seq<nat>, n: nat) {
    forall k :: 0 <= k < |ps| ==> ps[k] < n
  }

  /** Whether the box ranked `q` leaves the one ranked `p` alone. */
  predicate Spares(boxes: seq<Box>, ranked: seq<nat>, criteria: real, q: nat, p: nat)
    requires q < |ranked| && p < |ranked| && ranked[q] < |boxes| && ranked[p] < |boxes|
  {
    Passes(boxes[ranked[q]], boxes[ranked[p]], criteria)
  }

  ghost predicate InRange(boxes: seq<Box>, ranked: seq<nat>) {
    forall p :: 0 <= p < |ranked| ==> ranked[p] < |boxes|
  }

  /** The declarative meaning: a box is kept exactly when no kept box of higher rank
      suppresses it. */
  ghost predicate IsKept(boxes: seq<Box>, ranked: seq<nat>, criteria: real, p: nat)
    requires InRange(boxes, ranked) && p < |ranked|
    decreases |ranked| - p
  {
    forall q: nat :: p < q < |ranked| && IsKept(boxes, ranked, criteria, q) ==> Spares(boxes, ranked, criteria, q, p)
  }

  ghost predicate Descending(ps: seq<nat>) {
    forall a, b :: 0 <= a < b < |ps| ==> ps[a] > ps[b]
  }

  ghost predicate Suppressed(boxes: seq<Box>, ranked: seq<nat>, criteria: real, kept: seq<nat>, p: nat)
    requires InRange(boxes, ranked) && p < |ranked|
  {
    exists k :: 0 <= k < |kept| && p < kept[k] < |ranked| && !Spares(boxes, ranked, criteria, kept[k], p)
  }

  /** What is kept so far is above what is left. */
  ghost predicate Shape(n: nat, kept: seq<nat>, left: seq<nat>) {
    && Descending(kept) && Ranges.Increasing(left) && Positions(kept, n) && Positions(left, n)
    && forall p, q :: p in left && q in kept ==> p < q
  }

  /** What is kept, or left, has been spared by all kept above it. */
  ghost predicate Fair(boxes: seq<Box>, ranked: seq<nat>, criteria: real, kept: seq<nat>, left: seq<nat>)
    requires InRange(boxes, ranked)
  {
    forall p: nat, q: nat :: p < q < |ranked| && (p in kept || p in left) && q in kept ==> Spares(boxes, ranked, criteria, q, p)
  }

  /** What is neither kept nor left is suppressed. */
  ghost predicate Accounted(boxes: seq<Box>, ranked: seq<nat>, criteria: real, kept: seq<nat>, left: seq<nat>)
    requires InRange(boxes, ranked)
  {
    forall p: nat :: p < |ranked| && p !in kept && p !in left ==> Suppressed(boxes, ranked, criteria, kept, p)
  }

  ghost predicate Progress(boxes: seq<Box>, ranked: seq<nat>, criteria: real, kept: seq<nat>, left: seq<nat>)
    requires InRange(boxes, ranked)
  {
    && Shape(|ranked|, kept, left)
    && Fair(boxes, ranked, criteria, kept, left)
    && Accounted(boxes, ranked, criteria, kept, left)
  }

  /** Positions whose boxes the box ranked `top` spares. */
  function Spared(boxes: seq<Box>, ranked: seq<nat>, criteria: real, top: nat, left: seq<nat>): (r: seq<nat>)
    requires InRange(boxes, ranked)
    requires top < |ranked| && Positions(left, |ranked|)
    ensures forall p :: p in r <==> p in left && Spares(boxes, ranked, criteria, top, p)
  {
    if left == [] then []
    else
      var rest := Spared(boxes, ranked, criteria, top, left[..|left| - 1]);
      var p := left[|left| - 1];
      assert left == left[..|left| - 1] + [p];
      if Spares(boxes, ranked, criteria, top, p) then rest + [p] else rest
  }

  lemma SparedNext(boxes: seq<Box>, ranked: seq<nat>, criteria: real, top: nat, left: seq<nat>, i: nat)
    requires InRange(boxes, ranked) && top < |ranked| && Positions(left, |ranked|) && i < |left|
    ensures Positions(left[..i], |ranked|) && Positions(left[..i + 1], |ranked|) && left[i] < |ranked|
    ensures ranked[top] < |boxes| && ranked[left[i]] < |boxes|
    ensures Spares(boxes, ranked, criteria, top, left[i]) == Passes(boxes[ranked[top]], boxes[ranked[left[i]]], criteria)
    ensures Spared(boxes, ranked, criteria, top, left[..i + 1])
         == if Spares(boxes, ranked, criteria, top, left[i]) then Spared(boxes, ranked, criteria, top, left[..i]) + [left[i]]
            else Spared(boxes, ranked, criteria, top, left[..i])
    ensures Spared(boxes, ranked, criteria, top, left[..0]) == []
  {
    assert left[..i + 1][..i] == left[..i];
    assert forall k :: 0 <= k <= i ==> left[..i + 1][k] == left[k];
    hide Passes;
  }

  lemma IncreasingLast(ps: seq<nat>, i: nat)
    requires Ranges.Increasing(ps) && i < |ps|
    ensures Ranges.Increasing(ps[..i]) && forall q :: q in ps[..i] ==> q < ps[i]
  {
  }

  lemma {:induction false} SparedIncreases(boxes: seq<Box>, ranked: seq<nat>, criteria: real, top: nat, left: seq<nat>, i: nat)
    requires InRange(boxes, ranked) && top < |ranked| && Positions(left, |ranked|) && Ranges.Increasing(left) && i <= |left|
    ensures Positions(left[..i], |ranked|) && Ranges.Increasing(Spared(boxes, ranked, criteria, top, left[..i]))
    ensures |Spared(boxes, ranked, criteria, top, left[..i])| <= i
    ensures i > 0 && top == left[i - 1] && !Spares(boxes, ranked, criteria, top, top) ==>
      |Spared(boxes, ranked, criteria, top, left[..i])| < i
  {
    hide *;
    PositionsPart(left, |ranked|, i);
    if i == 0 {
      NothingSpared(boxes, ranked, criteria, top, left);
      Ranges.IncreasingNone();
    } else {
      SparedIncreases(boxes, ranked, criteria, top, left, i - 1);
      SparedNext(boxes, ranked, criteria, top, left, i - 1);
      IncreasingLast(left, i - 1);
      SparedSome(boxes, ranked, criteria, top, left[..i - 1]);
      var rest := Spared(boxes, ranked, criteria, top, left[..i - 1]);
      Ranges.IncreasingMore(rest, left[i - 1]);
    }
  }

  lemma PositionsPart(ps: seq<nat>, n: nat, i: nat)
    requires Positions(ps, n) && i <= |ps|
    ensures Positions(ps[..i], n)
  {
  }

  lemma NothingSpared(boxes: seq<Box>, ranked: seq<nat>, criteria: real, top: nat, left: seq<nat>)
    requires InRange(boxes, ranked) && top < |ranked| && Positions(left[..0], |ranked|)
    ensures Spared(boxes, ranked, criteria, top, left[..0]) == []
  {
  }

  lemma StillSuppressed(boxes: seq<Box>, ranked: seq<nat>, criteria: real, kept: seq<nat>, top: nat, p: nat)
    requires InRange(boxes, ranked) && p < |ranked| && top < |ranked|
    ensures Suppressed(boxes, ranked, criteria, kept, p) ==> Suppressed(boxes, ranked, criteria, kept + [top], p)
    ensures p < top && !Spares(boxes, ranked, criteria, top, p) ==> Suppressed(boxes, ranked, criteria, kept + [top], p)
  {
    if Suppressed(boxes, ranked, criteria, kept, p) {
      var k :| 0 <= k < |kept| && p < kept[k] < |ranked| && !Spares(boxes, ranked, criteria, kept[k], p);
      assert (kept + [top])[k] == kept[k];
    }
    if p < top && !Spares(boxes, ranked, criteria, top, p) { assert (kept + [top])[|kept|] == top; }
  }

  lemma SparedIs(boxes: seq<Box>, ranked: seq<nat>, criteria: real, top: nat, left: seq<nat>, p: nat)
    requires InRange(boxes, ranked) && top < |ranked| && Positions(left, |ranked|) && p < |ranked|
    ensures p in Spared(boxes, ranked, criteria, top, left) <==> p in left && Spares(boxes, ranked, criteria, top, p)
    ensures Positions(Spared(boxes, ranked, criteria, top, left), |ranked|)
  {
    var r := Spared(boxes, ranked, criteria, top, left);
    assert forall k :: 0 <= k < |r| ==> r[k] in r;
    hide Spares;
  }

  lemma SparedSome(boxes: seq<Box>, ranked: seq<nat>, criteria: real, top: nat, left: seq<nat>)
    requires InRange(boxes, ranked) && top < |ranked| && Positions(left, |ranked|)
    ensures forall p :: p in Spared(boxes, ranked, criteria, top, left) ==> p in left
  {
    hide Spares;
  }

  lemma KeepShape(n: nat, kept: seq<nat>, left: seq<nat>, top: nat, next: seq<nat>)
    requires Shape(n, kept, left) && left != [] && top == left[|left| - 1]
    requires Ranges.Increasing(next) && Positions(next, n) && top !in next && forall p :: p in next ==> p in left
    ensures Shape(n, kept + [top], next)
  {
    assert top in left;
    assert forall p :: p in left ==> p <= top;
    assert forall k :: 0 <= k < |kept| ==> kept[k] in kept;
  }

  lemma TopIsTop(n: nat, kept: seq<nat>, left: seq<nat>, p: nat)
    requires Shape(n, kept, left) && left != []
    ensures var top := left[|left| - 1];
      top in left && top < n && top !in kept && (p in left ==> p <= top) && (p in kept ==> top < p < n)
  {
  }

  lemma KeepFair(boxes: seq<Box>, ranked: seq<nat>, criteria: real, kept: seq<nat>, left: seq<nat>, top: nat, next: seq<nat>)
    requires InRange(boxes, ranked) && Fair(boxes, ranked, criteria, kept, left) && Shape(|ranked|, kept, left)
    requires left != [] && top == left[|left| - 1] && top < |ranked| && Positions(left, |ranked|)
    requires next == Spared(boxes, ranked, criteria, top, left)
    ensures Fair(boxes, ranked, criteria, kept + [top], next)
  {
    hide Spared, Spares, Shape, Positions;
    SparedSome(boxes, ranked, criteria, top, left);
    forall p: nat, q: nat | p < q < |ranked| && (p in kept + [top] || p in next) && q in kept + [top]
      ensures Spares(boxes, ranked, criteria, q, p)
    {
      TopIsTop(|ranked|, kept, left, p);
      TopIsTop(|ranked|, kept, left, q);
      SparedIs(boxes, ranked, criteria, top, left, p);
    }
  }

  lemma KeepAccounted(boxes: seq<Box>, ranked: seq<nat>, criteria: real, kept: seq<nat>, left: seq<nat>, top: nat, next: seq<nat>)
    requires InRange(boxes, ranked) && Accounted(boxes, ranked, criteria, kept, left) && Shape(|ranked|, kept, left)
    requires left != [] && top == left[|left| - 1] && top < |ranked| && Positions(left, |ranked|)
    requires next == Spared(boxes, ranked, criteria, top, left)
    ensures Accounted(boxes, ranked, criteria, kept + [top], next)
  {
    hide Spared, Spares, Shape, Positions, InRange, Suppressed;
    forall p: nat | p < |ranked| && p !in kept + [top] && p !in next
      ensures Suppressed(boxes, ranked, criteria, kept + [top], p)
    {
      TopIsTop(|ranked|, kept, left, p);
      SparedIs(boxes, ranked, criteria, top, left, p);
      StillSuppressed(boxes, ranked, criteria, kept, top, p);
    }
  }

  lemma KeepOne(boxes: seq<Box>, ranked: seq<nat>, criteria: real, kept: seq<nat>, left: seq<nat>, top: nat, next: seq<nat>)
    requires InRange(boxes, ranked) && Progress(boxes, ranked, criteria, kept, left)
    requires left != [] && top == left[|left| - 1] && top < |ranked| && !Spares(boxes, ranked, criteria, top, top)
    requires Positions(left, |ranked|) && next == Spared(boxes, ranked, criteria, top, left)
    ensures Progress(boxes, ranked, criteria, kept + [top], next) && |next| < |left| && Positions(next, |ranked|)
  {
    assert Ranges.Increasing(left) && Shape(|ranked|, kept, left);
    assert Fair(boxes, ranked, criteria, kept, left) && Accounted(boxes, ranked, criteria, kept, left);
    hide Spared, Spares, Shape, Positions, InRange, Fair, Accounted, Ranges.Increasing;
    TopIsTop(|ranked|, kept, left, top);
    SparedIncreases(boxes, ranked, criteria, top, left, |left|);
    assert left[..|left|] == left;
    SparedIs(boxes, ranked, criteria, top, left, top);
    SparedSome(boxes, ranked, criteria, top, left);
    KeepShape(|ranked|, kept, left, top, next);
    KeepFair(boxes, ranked, criteria, kept, left, top, next);
    KeepAccounted(boxes, ranked, criteria, kept, left, top, next);
  }

  /** Above what is left, exactly the boxes that the definition keeps are kept. */
  lemma {:induction false} KeptIsKept(boxes: seq<Box>, ranked: seq<nat>, criteria: real, kept: seq<nat>, left: seq<nat>, p: nat)
    requires InRange(boxes, ranked) && Progress(boxes, ranked, criteria, kept, left) && p < |ranked|
    requires forall q :: q in left ==> q < p
    ensures p in kept <==> IsKept(boxes, ranked, criteria, p)
    decreases |ranked| - p
  {
    forall q: nat | p < q < |ranked| ensures q in kept <==> IsKept(boxes, ranked, criteria, q) {
      KeptIsKept(boxes, ranked, criteria, kept, left, q);
    }
    if p in kept {
      forall q: nat | p < q < |ranked| && IsKept(boxes, ranked, criteria, q) ensures Spares(boxes, ranked, criteria, q, p) {
        assert q in kept;
      }
    } else {
      assert Suppressed(boxes, ranked, criteria, kept, p);
      var k :| 0 <= k < |kept| && p < kept[k] < |ranked| && !Spares(boxes, ranked, criteria, kept[k], p);
      assert kept[k] in kept && IsKept(boxes, ranked, criteria, kept[k]);
    }
  }

  /** The box on top is one that the definition keeps. */
  lemma TopIsKept(boxes: seq<Box>, ranked: seq<nat>, criteria: real, kept: seq<nat>, left: seq<nat>, top: nat)
    requires InRange(boxes, ranked) && Progress(boxes, ranked, criteria, kept, left)
    requires left != [] && top == left[|left| - 1]
    ensures top < |ranked| && IsKept(boxes, ranked, criteria, top)
  {
    TopIsTop(|ranked|, kept, left, top);
    forall q: nat | top < q < |ranked| && IsKept(boxes, ranked, criteria, q) ensures Spares(boxes, ranked, criteria, q, top) {
      forall p | p in left ensures p < q { TopIsTop(|ranked|, kept, left, p); }
      KeptIsKept(boxes, ranked, criteria, kept, left, q);
      assert q in kept && top in left;
    }
  }

  /** The kept boxes by descending rank: `candidates` are their indices. */
  ghost predicate Suppression(boxes: seq<Box>, ranked: seq<nat>, criteria: real, candidates: seq<nat>, kept: seq<nat>)
    requires InRange(boxes, ranked)
  {
    && Descending(kept) && |kept| == |candidates|
    && (forall k :: 0 <= k < |kept| ==> kept[k] < |ranked| && candidates[k] == ranked[kept[k]])
    && (forall p: nat :: p < |ranked| ==> (p in kept <==> IsKept(boxes, ranked, criteria, p)))
  }

  function At(ranked: seq<nat>, left: seq<nat>): seq<nat>
    requires Positions(left, |ranked|)
  {
    seq(|left|, k requires 0 <= k < |left| => ranked[left[k]])
  }

  lemma StartsAll(boxes: seq<Box>, ranked: seq<nat>, criteria: real, all: seq<nat>)
    requires InRange(boxes, ranked) && |all| == |ranked| && forall k :: 0 <= k < |all| ==> all[k] == k
    ensures Positions(all, |ranked|) && At(ranked, all) == ranked
    ensures Progress(boxes, ranked, criteria, [], all)
  {
    forall p: nat | p < |ranked| ensures p in all { assert all[p] == p; }
  }

  lemma AtMore(ranked: seq<nat>, ps: seq<nat>, p: nat)
    requires Positions(ps, |ranked|) && p < |ranked|
    ensures Positions(ps + [p], |ranked|) && At(ranked, ps + [p]) == At(ranked, ps) + [ranked[p]]
  {
  }

  lemma AtIs(ranked: seq<nat>, ps: seq<nat>)
    requires Positions(ps, |ranked|)
    ensures |At(ranked, ps)| == |ps| && forall k :: 0 <= k < |ps| ==> ps[k] < |ranked| && At(ranked, ps)[k] == ranked[ps[k]]
    ensures Positions([], |ranked|) && At(ranked, []) == []
  {
  }

  /** `score_idx_sorted[iou < criteria]`. */
  method KeepSpared(boxes: seq<Box>, ranked: seq<nat>, criteria: real, sorted: seq<nat>, ghost top: nat, ghost left: seq<nat>)
      returns (rest: seq<nat>)
    requires InRange(boxes, ranked) && Positions(left, |ranked|) && sorted == At(ranked, left)
    requires left != [] && top == left[|left| - 1] < |ranked|
    ensures Positions(Spared(boxes, ranked, criteria, top, left), |ranked|)
    ensures rest == At(ranked, Spared(boxes, ranked, criteria, top, left))
  {
    hide *;
    rest := [];
    AtIs(ranked, left);
    var idx := sorted[|sorted| - 1];
    SparedNext(boxes, ranked, criteria, top, left, 0);
    for i := 0 to |sorted|
      invariant Positions(left[..i], |ranked|)
      invariant Positions(Spared(boxes, ranked, criteria, top, left[..i]), |ranked|)
      invariant rest == At(ranked, Spared(boxes, ranked, criteria, top, left[..i]))
    {
      SparedNext(boxes, ranked, criteria, top, left, i);
      AtMore(ranked, Spared(boxes, ranked, criteria, top, left[..i]), left[i]);
      if Passes(boxes[idx], boxes[sorted[i]], criteria) { rest := rest + [sorted[i]]; }
    }
    assert left[..|sorted|] == left;
  }

  /** Every box that the definition keeps suppresses itself. */
  ghost predicate Ends(boxes: seq<Box>, ranked: seq<nat>, criteria: real)
    requires InRange(boxes, ranked)
  {
    forall p: nat :: p < |ranked| && IsKept(boxes, ranked, criteria, p) ==> !Spares(boxes, ranked, criteria, p, p)
  }

  lemma Picks(boxes: seq<Box>, ranked: seq<nat>, criteria: real, kept: seq<nat>, left: seq<nat>, sorted: seq<nat>)
      returns (top: nat)
    requires InRange(boxes, ranked) && Positions(left, |ranked|) && sorted == At(ranked, left) && sorted != []
    requires Progress(boxes, ranked, criteria, kept, left) && Ends(boxes, ranked, criteria)
    ensures left != [] && top == left[|left| - 1] < |ranked| && ranked[top] == sorted[|sorted| - 1] < |boxes|
    ensures !Spares(boxes, ranked, criteria, top, top)
  {
    top := left[|left| - 1];
    TopIsKept(boxes, ranked, criteria, kept, left, top);
    hide Passes, Progress, IsKept;
  }

  /** The suppression loop.  It asks no more than what it needs to end. */
  method Suppress(boxes: seq<Box>, ranked: seq<nat>, criteria: real) returns (candidates: seq<nat>)
    requires InRange(boxes, ranked) && Ends(boxes, ranked, criteria)
    ensures exists kept :: Suppression(boxes, ranked, criteria, candidates, kept)
  {
    hide *;
    var sorted := ranked;
    candidates := [];
    ghost var kept: seq<nat> := [];
    ghost var left: seq<nat> := seq(|ranked|, (k: nat) => k);
    StartsAll(boxes, ranked, criteria, left);
    while |sorted| > 0
      invariant Positions(left, |ranked|) && sorted == At(ranked, left) && |sorted| == |left|
      invariant Progress(boxes, ranked, criteria, kept, left)
      invariant |kept| == |candidates| && forall k :: 0 <= k < |kept| ==> kept[k] < |ranked| && candidates[k] == ranked[kept[k]]
      decreases |left|
    {
      ghost var top := Picks(boxes, ranked, criteria, kept, left, sorted);
      var idx := sorted[|sorted| - 1];
      sorted := KeepSpared(boxes, ranked, criteria, sorted, top, left);
      ghost var next := Spared(boxes, ranked, criteria, top, left);
      KeepOne(boxes, ranked, criteria, kept, left, top, next);
      AtSize(ranked, next);
      candidates := candidates + [idx];
      kept := kept + [top];
      left := next;
    }
    assert left == [];
    SuppressionIf(boxes, ranked, criteria, candidates, kept);
  }

  lemma AtSize(ranked: seq<nat>, left: seq<nat>)
    requires Positions(left, |ranked|)
    ensures |At(ranked, left)| == |left|
  {
  }

  lemma SuppressionIf(boxes: seq<Box>, ranked: seq<nat>, criteria: real, candidates: seq<nat>, kept: seq<nat>)
    requires InRange(boxes, ranked) && Progress(boxes, ranked, criteria, kept, [])
    requires |kept| == |candidates| && forall k :: 0 <= k < |kept| ==> kept[k] < |ranked| && candidates[k] == ranked[kept[k]]
    ensures Suppression(boxes, ranked, criteria, candidates, kept)
  {
    forall p: nat | p < |ranked| ensures p in kept <==> IsKept(boxes, ranked, criteria, p) {
      KeptIsKept(boxes, ranked, criteria, kept, [], p);
    }
    hide IsKept;
  }

  // ----- when the loop ends --------------------------------------------------------------

  function Numbered(n: nat): (all: seq<nat>)
    ensures |all| == n && Positions(all, n) && forall k :: 0 <= k < n ==> all[k] == k
  {
    seq(n, (k: nat) => k)
  }

  /** The positions left after `n` turns of the loop. */
  ghost function Turns(boxes: seq<Box>, ranked: seq<nat>, criteria: real, left: seq<nat>, n: nat): (r: seq<nat>)
    requires InRange(boxes, ranked) && Positions(left, |ranked|)
    ensures Positions(r, |ranked|)
  {
    if n == 0 then left
    else
      var now := Turns(boxes, ranked, criteria, left, n - 1);
      if now == [] then []
      else
        SparedIs(boxes, ranked, criteria, now[|now| - 1], now, now[|now| - 1]);
        Spared(boxes, ranked, criteria, now[|now| - 1], now)
  }

  /** A box that does not suppress itself stays on top. */
  lemma StaysOnTop(boxes: seq<Box>, ranked: seq<nat>, criteria: real, left: seq<nat>, top: nat)
    requires InRange(boxes, ranked) && Positions(left, |ranked|) && left != [] && top == left[|left| - 1] < |ranked|
    requires Spares(boxes, ranked, criteria, top, top)
    ensures var next := Spared(boxes, ranked, criteria, top, left); next != [] && next[|next| - 1] == top
  {
    hide Spares;
  }

  lemma TurnsNext(boxes: seq<Box>, ranked: seq<nat>, criteria: real, left: seq<nat>, n: nat)
    requires InRange(boxes, ranked) && Positions(left, |ranked|)
    ensures Turns(boxes, ranked, criteria, left, 0) == left
    ensures var now := Turns(boxes, ranked, criteria, left, n);
      && Positions(now, |ranked|)
      && (now == [] ==> Turns(boxes, ranked, criteria, left, n + 1) == [])
      && (now != [] ==>
            && now[|now| - 1] < |ranked|
            && Turns(boxes, ranked, criteria, left, n + 1) == Spared(boxes, ranked, criteria, now[|now| - 1], now))
  {
    hide Spared, InRange;
  }

  /** While boxes that suppress themselves are on top, turns make progress. */
  lemma {:induction false} TurnsEnd(boxes: seq<Box>, ranked: seq<nat>, criteria: real, all: seq<nat>, n: nat) returns (kept: seq<nat>)
    requires InRange(boxes, ranked) && Positions(all, |ranked|) && |all| == |ranked|
    requires Progress(boxes, ranked, criteria, [], all) && Ends(boxes, ranked, criteria)
    ensures Progress(boxes, ranked, criteria, kept, Turns(boxes, ranked, criteria, all, n))
    ensures |Turns(boxes, ranked, criteria, all, n)| <= if n <= |ranked| then |ranked| - n else 0
  {
    hide *;
    TurnsNext(boxes, ranked, criteria, all, if n > 0 then n - 1 else 0);
    kept := [];
    if n > 0 {
      kept := TurnsEnd(boxes, ranked, criteria, all, n - 1);
      var now := Turns(boxes, ranked, criteria, all, n - 1);
      if now != [] {
        var top := now[|now| - 1];
        TopIsKept(boxes, ranked, criteria, kept, now, top);
        EndsAt(boxes, ranked, criteria, top);
        KeepOne(boxes, ranked, criteria, kept, now, top, Turns(boxes, ranked, criteria, all, n));
        kept := kept + [top];
      }
    }
  }

  lemma EndsAt(boxes: seq<Box>, ranked: seq<nat>, criteria: real, p: nat)
    requires InRange(boxes, ranked) && Ends(boxes, ranked, criteria) && p < |ranked| && IsKept(boxes, ranked, criteria, p)
    ensures !Spares(boxes, ranked, criteria, p, p)
  {
    hide IsKept, Passes;
  }

  /** The highest kept box that does not suppress itself is `p`: it is left, and in
      the end on top for ever. */
  lemma {:induction false} TurnsGoOn(boxes: seq<Box>, ranked: seq<nat>, criteria: real, all: seq<nat>, p: nat, n: nat)
      returns (kept: seq<nat>)
    requires InRange(boxes, ranked) && Positions(all, |ranked|) && Progress(boxes, ranked, criteria, [], all)
    requires p < |ranked| && p in all && IsKept(boxes, ranked, criteria, p) && Spares(boxes, ranked, criteria, p, p)
    requires forall q: nat :: p < q < |ranked| && IsKept(boxes, ranked, criteria, q) ==> !Spares(boxes, ranked, criteria, q, q)
    ensures var now := Turns(boxes, ranked, criteria, all, n);
      now != [] && (now[|now| - 1] == p || (p in now && Progress(boxes, ranked, criteria, kept, now)))
  {
    hide *;
    TurnsNext(boxes, ranked, criteria, all, if n > 0 then n - 1 else 0);
    kept := [];
    if n > 0 {
      kept := TurnsGoOn(boxes, ranked, criteria, all, p, n - 1);
      var now, next := Turns(boxes, ranked, criteria, all, n - 1), Turns(boxes, ranked, criteria, all, n);
      var top := now[|now| - 1];
      if top == p {
        StaysOnTop(boxes, ranked, criteria, now, p);
      } else {
        TopIsKept(boxes, ranked, criteria, kept, now, top);
        AboveLeft(|ranked|, kept, now, p) by { ProgressShape(boxes, ranked, criteria, kept, now); }
        KeptSpares(boxes, ranked, criteria, top, p);
        KeepOne(boxes, ranked, criteria, kept, now, top, next);
        SparedIs(boxes, ranked, criteria, top, now, p);
        kept := kept + [top];
      }
    }
  }

  lemma ProgressShape(boxes: seq<Box>, ranked: seq<nat>, criteria: real, kept: seq<nat>, left: seq<nat>)
    requires InRange(boxes, ranked) && Progress(boxes, ranked, criteria, kept, left)
    ensures Shape(|ranked|, kept, left)
  {
    hide Shape, Fair, Accounted;
  }

  lemma AboveLeft(n: nat, kept: seq<nat>, left: seq<nat>, p: nat)
    requires Shape(n, kept, left) && left != [] && p in left && p != left[|left| - 1]
    ensures p < left[|left| - 1]
  {
    TopIsTop(n, kept, left, p);
    hide Shape;
  }

  lemma KeptSpares(boxes: seq<Box>, ranked: seq<nat>, criteria: real, q: nat, p: nat)
    requires InRange(boxes, ranked) && p < q < |ranked| && IsKept(boxes, ranked, criteria, p) && IsKept(boxes, ranked, criteria, q)
    ensures Spares(boxes, ranked, criteria, q, p)
  {
    hide Passes;
  }

  lemma {:induction false} HighestFailing(boxes: seq<Box>, ranked: seq<nat>, criteria: real, p: nat) returns (h: nat)
    requires InRange(boxes, ranked) && p < |ranked|
    requires IsKept(boxes, ranked, criteria, p) && Spares(boxes, ranked, criteria, p, p)
    ensures h < |ranked| && IsKept(boxes, ranked, criteria, h) && Spares(boxes, ranked, criteria, h, h)
    ensures forall q: nat :: h < q < |ranked| && IsKept(boxes, ranked, criteria, q) ==> !Spares(boxes, ranked, criteria, q, q)
    decreases |ranked| - p
  {
    assert forall q: nat :: q < |ranked| ==> ranked[q] < |boxes|;
    hide *;
    h := p;
    if q: nat :| p < q < |ranked| && IsKept(boxes, ranked, criteria, q) && Spares(boxes, ranked, criteria, q, q) {
      h := HighestFailing(boxes, ranked, criteria, q);
    }
  }

  /** Some number of turns empties the list. */
  ghost predicate LoopEnds(boxes: seq<Box>, ranked: seq<nat>, criteria: real)
    requires InRange(boxes, ranked)
  {
    exists n :: Turns(boxes, ranked, criteria, Numbered(|ranked|), n) == []
  }

  /** The loop ends if, and only if, every box that the definition keeps suppresses
      itself; it then takes no more turns than there are boxes. */
  lemma LoopEndsIff(boxes: seq<Box>, ranked: seq<nat>, criteria: real)
    requires InRange(boxes, ranked)
    ensures LoopEnds(boxes, ranked, criteria) <==> Ends(boxes, ranked, criteria)
    ensures Ends(boxes, ranked, criteria) ==> Turns(boxes, ranked, criteria, Numbered(|ranked|), |ranked|) == []
  {
    var all := Numbered(|ranked|);
    StartsAll(boxes, ranked, criteria, all);
    if Ends(boxes, ranked, criteria) {
      hide *;
      var kept := TurnsEnd(boxes, ranked, criteria, all, |ranked|);
      assert Turns(boxes, ranked, criteria, all, |ranked|) == [];
      LoopEndsIf(boxes, ranked, criteria, |ranked|);
    } else {
      var p: nat :| p < |ranked| && IsKept(boxes, ranked, criteria, p) && Spares(boxes, ranked, criteria, p, p);
      hide IsKept, Spares, Progress, Numbered, InRange;
      var h := HighestFailing(boxes, ranked, criteria, p);
      assert all[h] == h;
      hide Positions;
      forall n: nat ensures Turns(boxes, ranked, criteria, all, n) != [] {
        var kept := TurnsGoOn(boxes, ranked, criteria, all, h, n);
      }
    }
  }

  lemma LoopEndsIf(boxes: seq<Box>, ranked: seq<nat>, criteria: real, n: nat)
    requires InRange(boxes, ranked) && Positions(Numbered(|ranked|), |ranked|)
    requires Turns(boxes, ranked, criteria, Numbered(|ranked|), n) == []
    ensures LoopEnds(boxes, ranked, criteria)
  {
    hide Turns, InRange;
  }

  lemma AllEnd(boxes: seq<Box>, ranked: seq<nat>, criteria: real)
    requires InRange(boxes, ranked) && forall b :: b in boxes ==> SelfSuppresses(b, criteria)
    ensures Ends(boxes, ranked, criteria)
  {
    forall p: nat | p < |ranked| ensures !Spares(boxes, ranked, criteria, p, p) { assert boxes[ranked[p]] in boxes; }
    hide IsKept, Passes;
  }

  // ----- what the candidates are ---------------------------------------------------------

  lemma LastOfRanking(scores: seq<real>, order: seq<nat>, n: int, ranked: seq<nat>)
    requires Ranking(scores, order) && ranked == LastOf<nat>(order, n)
    ensures forall a :: 0 <= a < |ranked| ==> ranked[a] < |scores|
    ensures forall a, b :: 0 <= a < b < |ranked| ==> ranked[a] != ranked[b] && scores[ranked[a]] <= scores[ranked[b]]
    ensures n > 0 ==> |ranked| <= n
  {
  }

  /** The candidates are distinct and in order of their scores, and no two of them
      overlap too much, seen from the better one. */
  lemma CandidatesInOrder(boxes: seq<Box>, scores: seq<real>, order: seq<nat>, n: int, ranked: seq<nat>, criteria: real,
                          candidates: seq<nat>, kept: seq<nat>, a: nat, b: nat)
    requires |boxes| == |scores| && Ranking(scores, order) && ranked == LastOf<nat>(order, n) && InRange(boxes, ranked)
    requires Suppression(boxes, ranked, criteria, candidates, kept) && a < b < |candidates|
    ensures candidates[a] < |boxes| && candidates[b] < |boxes| && candidates[a] != candidates[b]
    ensures scores[candidates[a]] >= scores[candidates[b]]
    ensures Passes(boxes[candidates[a]], boxes[candidates[b]], criteria)
  {
    LastOfRanking(scores, order, n, ranked);
    assert kept[a] in kept && kept[b] in kept && kept[a] > kept[b];
    assert IsKept(boxes, ranked, criteria, kept[a]) && IsKept(boxes, ranked, criteria, kept[b]);
    hide Passes, Ranking, LastOf;
    assert Spares(boxes, ranked, criteria, kept[a], kept[b]);
  }

  // ----- when every loop ends ---------------------------------------------------------------

  ghost predicate EndsOn(boxes: seq<Box>, ranked: seq<nat>, criteria: real) {
    InRange(boxes, ranked) && Ends(boxes, ranked, criteria)
  }

  /** The loop ends for these scores, whatever the order of equal ones. */
  ghost predicate RankedEnds(boxes: seq<Box>, scores: seq<real>, criteria: real, maxNum: int) {
    forall order: seq<nat> :: Ranking(scores, order) ==> EndsOn(boxes, LastOf(order, maxNum), criteria)
  }

  /** The boxes whose score is high enough, with their scores. */
  function Likely(boxes: seq<Box>, scores: seq<real>): (r: (seq<Box>, seq<real>))
    requires |boxes| == |scores|
    ensures |r.0| == |r.1| && forall b :: b in r.0 ==> b in boxes
  {
    if boxes == [] then ([], [])
    else
      var less := Likely(boxes[..|boxes| - 1], scores[..|scores| - 1]);
      var b, s := boxes[|boxes| - 1], scores[|scores| - 1];
      if s > MIN_SCORE then (less.0 + [b], less.1 + [s]) else less
  }

  /** What is likely are the boxes that score more than a twentieth, in order. */
  lemma {:induction false} LikelyAre(boxes: seq<Box>, scores: seq<real>) returns (at: seq<nat>)
    requires |boxes| == |scores|
    ensures Ranges.Increasing(at) && forall i: nat :: i in at <==> i < |scores| && scores[i] > 0.05
    ensures |at| == |Likely(boxes, scores).0|
    ensures forall k :: 0 <= k < |at| ==>
      at[k] < |boxes| && Likely(boxes, scores).0[k] == boxes[at[k]] && Likely(boxes, scores).1[k] == scores[at[k]]
  {
    at := [];
    if boxes != [] {
      var m := |boxes| - 1;
      at := LikelyAre(boxes[..m], scores[..m]);
      assert forall k :: 0 <= k < |at| ==> at[k] in at;
      if scores[m] > MIN_SCORE {
        Ranges.IncreasingMore(at, m);
        at := at + [m];
      }
    }
  }

  /** The loop ends for a class with these scores. */
  ghost predicate ClassEnds(boxes: seq<Box>, scores: seq<real>, criteria: real, maxNum: int)
    requires |boxes| == |scores|
  {
    RankedEnds(Likely(boxes, scores).0, Likely(boxes, scores).1, criteria, maxNum)
  }

  lemma {:induction false} LikelyAll(boxes: seq<Box>, scores: seq<real>)
    requires |boxes| == |scores| && forall k :: 0 <= k < |scores| ==> scores[k] > MIN_SCORE
    ensures Likely(boxes, scores) == (boxes, scores)
  {
    if boxes != [] {
      var m := |boxes| - 1;
      LikelyAll(boxes[..m], scores[..m]);
      assert boxes == boxes[..m] + [boxes[m]] && scores == scores[..m] + [scores[m]];
    }
  }

  lemma {:induction false} LikelyAtMost(boxes: seq<Box>, scores: seq<real>)
    requires |boxes| == |scores|
    ensures |Likely(boxes, scores).0| <= |boxes|
  {
    if boxes != [] { LikelyAtMost(boxes[..|boxes| - 1], scores[..|scores| - 1]); }
  }

  /** Box `i` scores higher than the others, which score the same. */
  function TopScores(m: nat, i: nat): (r: seq<real>)
    ensures |r| == m && forall k :: 0 <= k < m ==> r[k] == if k == i then 2.0 else 1.0
  {
    seq(m, k => if k == i then 2.0 else 1.0)
  }

  function TopOrder(m: nat, i: nat): (r: seq<nat>)
    requires i < m
    ensures |r| == m && r[m - 1] == i
    ensures forall k :: 0 <= k < m - 1 ==> r[k] == if k < i then k else k + 1
  {
    seq(m, (k: nat) => if k == m - 1 then i else if k < i then k else k + 1)
  }

  lemma TopRanking(m: nat, i: nat)
    requires i < m
    ensures Ranking(TopScores(m, i), TopOrder(m, i))
  {
    hide TopScores, TopOrder;
  }

  /** A box on top that does not suppress itself is kept, and stays. */
  lemma TopFails(boxes: seq<Box>, ranked: seq<nat>, criteria: real)
    requires ranked != [] && ranked[|ranked| - 1] < |boxes| && !SelfSuppresses(boxes[ranked[|ranked| - 1]], criteria)
    ensures !EndsOn(boxes, ranked, criteria)
  {
    if InRange(boxes, ranked) {
      var p := |ranked| - 1;
      assert IsKept(boxes, ranked, criteria, p) && Spares(boxes, ranked, criteria, p, p);
    }
  }

  lemma LastOfLast(s: seq<nat>, n: int)
    requires s != []
    ensures LastOf(s, n) == [] <==> n < 0 && |s| <= -n
    ensures LastOf(s, n) != [] ==> LastOf(s, n)[|LastOf(s, n)| - 1] == s[|s| - 1]
  {
  }

  lemma OffenderOnTop(boxes: seq<Box>, criteria: real, maxNum: int, i: nat)
    requires i < |boxes| && !SelfSuppresses(boxes[i], criteria) && !(maxNum < 0 && |boxes| <= -maxNum)
    ensures !ClassEnds(boxes, TopScores(|boxes|, i), criteria, maxNum)
  {
    var scores, order := TopScores(|boxes|, i), TopOrder(|boxes|, i);
    LikelyAll(boxes, scores);
    TopRanking(|boxes|, i);
    LastOfLast(order, maxNum);
    hide LastOf, Ranking, SelfSuppresses;
    TopFails(boxes, LastOf(order, maxNum), criteria);
    hide EndsOn, Likely;
  }

  /** Boxes that all suppress themselves are enough, whatever their scores. */
  lemma AllClassesEnd(boxes: seq<Box>, scores: seq<real>, criteria: real, maxNum: int)
    requires |boxes| == |scores| && forall b :: b in boxes ==> SelfSuppresses(b, criteria)
    ensures ClassEnds(boxes, scores, criteria, maxNum)
  {
    var likely := Likely(boxes, scores);
    hide SelfSuppresses, Likely, Ends, LastOf, Ranking;
    forall order: seq<nat> | Ranking(likely.1, order) ensures EndsOn(likely.0, LastOf(order, maxNum), criteria) {
      LastOfRanking(likely.1, order, maxNum, LastOf(order, maxNum));
      AllEnd(likely.0, LastOf(order, maxNum), criteria);
    }
  }

  /** With a slice that takes off as many boxes as there are there is no loop. */
  lemma NothingRanked(boxes: seq<Box>, scores: seq<real>, criteria: real, maxNum: int)
    requires |boxes| == |scores| && maxNum < 0 && |boxes| <= -maxNum
    ensures ClassEnds(boxes, scores, criteria, maxNum)
  {
    LikelyAtMost(boxes, scores);
    var likely := Likely(boxes, scores);
    hide Likely;
    forall order: seq<nat> | Ranking(likely.1, order) ensures EndsOn(likely.0, LastOf(order, maxNum), criteria) {
      assert LastOf(order, maxNum) == [];
    }
  }

  /** The loop ends whatever the scores are if, and only if, every box suppresses itself,
      or there are never any boxes to rank. */
  lemma EndsForAllScoresIff(boxes: seq<Box>, criteria: real, maxNum: int)
    ensures (forall scores: seq<real> :: |scores| == |boxes| ==> ClassEnds(boxes, scores, criteria, maxNum))
      <==> (maxNum < 0 && |boxes| <= -maxNum) || forall b :: b in boxes ==> SelfSuppresses(b, criteria)
  {
    hide ClassEnds, SelfSuppresses;
    if maxNum < 0 && |boxes| <= -maxNum {
      forall scores: seq<real> | |scores| == |boxes| ensures ClassEnds(boxes, scores, criteria, maxNum) {
        NothingRanked(boxes, scores, criteria, maxNum);
      }
    } else if forall b :: b in boxes ==> SelfSuppresses(b, criteria) {
      forall scores: seq<real> | |scores| == |boxes| ensures ClassEnds(boxes, scores, criteria, maxNum) {
        AllClassesEnd(boxes, scores, criteria, maxNum);
      }
    } else {
      var i: nat :| i < |boxes| && !SelfSuppresses(boxes[i], criteria);
      OffenderOnTop(boxes, criteria, maxNum, i);
      assert |TopScores(|boxes|, i)| == |boxes|;
    }
  }

  /** A box turned inside out, at the usual criterion of one half: the loop picks it
      for ever. */
  lemma InsideOutForEver()
    ensures !LoopEnds([Box(1.0, 0.0, 0.0, 1.0)], [0], 0.5)
  {
    var b := Box(1.0, 0.0, 0.0, 1.0);
    SelfSuppressesIff(b, 0.5);
    hide SelfSuppresses;
    TopFails([b], [0], 0.5);
    LoopEndsIff([b], [0], 0.5);
    hide Turns, Ends;
  }

  // ----- all classes -----------------------------------------------------------------------

  /** The detections of one class. */
  ghost predicate ClassDecoded(boxes: seq<Box>, scores: seq<real>, category: nat, criteria: real, maxNum: int, ds: seq<Detection>)
    requires |boxes| == |scores|
  {
    exists order, candidates, kept ::
      && Ranking(scores, order) && InRange(boxes, LastOf(order, maxNum))
      && Suppression(boxes, LastOf(order, maxNum), criteria, candidates, kept)
      && Taken(boxes, scores, category, candidates, ds)
  }

  ghost predicate Taken(boxes: seq<Box>, scores: seq<real>, category: nat, candidates: seq<nat>, ds: seq<Detection>)
    requires |boxes| == |scores|
  {
    && |ds| == |candidates|
    && forall k :: 0 <= k < |ds| ==>
         candidates[k] < |boxes| && ds[k] == Detection(boxes[candidates[k]], category, scores[candidates[k]])
  }

  method DecodeClass(boxes: seq<Box>, scores: seq<real>, category: nat, criteria: real, maxNum: int) returns (ds: seq<Detection>)
    requires |boxes| == |scores| && RankedEnds(boxes, scores, criteria, maxNum)
    ensures ClassDecoded(boxes, scores, category, criteria, maxNum, ds)
  {
    hide *;
    var order := ArgSort(scores);
    var ranked := LastOf(order, maxNum);
    LastOfRanking(scores, order, maxNum, ranked);
    RankedEndsOn(boxes, scores, criteria, maxNum, order);
    var candidates := Suppress(boxes, ranked, criteria);
    ghost var kept :| Suppression(boxes, ranked, criteria, candidates, kept);
    CandidatesInRange(boxes, ranked, criteria, candidates, kept);
    ds := seq(|candidates|, k requires 0 <= k < |candidates| => Detection(boxes[candidates[k]], category, scores[candidates[k]]));
    TakenIf(boxes, scores, category, candidates, ds);
    ClassDecodedIf(boxes, scores, category, criteria, maxNum, ds, order, candidates, kept);
  }

  lemma RankedEndsOn(boxes: seq<Box>, scores: seq<real>, criteria: real, maxNum: int, order: seq<nat>)
    requires RankedEnds(boxes, scores, criteria, maxNum) && Ranking(scores, order)
    ensures InRange(boxes, LastOf(order, maxNum)) && Ends(boxes, LastOf(order, maxNum), criteria)
  {
    assert EndsOn(boxes, LastOf(order, maxNum), criteria);
    hide Ranking, LastOf, Ends;
  }

  lemma CandidatesInRange(boxes: seq<Box>, ranked: seq<nat>, criteria: real, candidates: seq<nat>, kept: seq<nat>)
    requires InRange(boxes, ranked) && Suppression(boxes, ranked, criteria, candidates, kept)
    ensures forall k :: 0 <= k < |candidates| ==> candidates[k] < |boxes|
  {
    hide IsKept;
  }

  lemma TakenIf(boxes: seq<Box>, scores: seq<real>, category: nat, candidates: seq<nat>, ds: seq<Detection>)
    requires |boxes| == |scores| && |ds| == |candidates|
    requires forall k :: 0 <= k < |ds| ==>
      candidates[k] < |boxes| && ds[k] == Detection(boxes[candidates[k]], category, scores[candidates[k]])
    ensures Taken(boxes, scores, category, candidates, ds)
  {
  }

  lemma ClassDecodedIf(boxes: seq<Box>, scores: seq<real>, category: nat, criteria: real, maxNum: int, ds: seq<Detection>,
                       order: seq<nat>, candidates: seq<nat>, kept: seq<nat>)
    requires |boxes| == |scores| && Ranking(scores, order) && InRange(boxes, LastOf(order, maxNum))
    requires Suppression(boxes, LastOf(order, maxNum), criteria, candidates, kept) && Taken(boxes, scores, category, candidates, ds)
    ensures ClassDecoded(boxes, scores, category, criteria, maxNum, ds)
  {
    hide Ranking, InRange, LastOf, Suppression, Taken;
  }

  /** What every class but the background contributes: nothing, when no box is
      likely to be of it. */
  ghost predicate Contributes(boxes: seq<Box>, scores: seq<real>, category: nat, criteria: real, maxNum: int, ds: seq<Detection>)
    requires |boxes| == |scores|
  {
    var likely := Likely(boxes, scores);
    if likely.0 == [] then ds == [] else ClassDecoded(likely.0, likely.1, category, criteria, maxNum, ds)
  }

  ghost function Joined(parts: seq<seq<Detection>>): seq<Detection> {
    if parts == [] then [] else Joined(parts[..|parts| - 1]) + parts[|parts| - 1]
  }

  function Scores(ds: seq<Detection>): seq<real> {
    seq(|ds|, k requires 0 <= k < |ds| => ds[k].score)
  }

  function Pick(ds: seq<Detection>, order: seq<nat>): seq<Detection>
    requires forall a :: 0 <= a < |order| ==> order[a] < |ds|
  {
    seq(|order|, a requires 0 <= a < |order| => ds[order[a]])
  }

  /** No box is likely to be of any of the classes before `n`, but for the background. */
  ghost predicate NothingLikely(boxes: seq<Box>, scores: seq<seq<real>>, n: nat) {
    forall c :: 1 <= c < n <= |scores| && |scores[c]| == |boxes| ==> Likely(boxes, scores[c]).0 == []
  }

  /** The best of the detections of all classes, by ascending score; a dummy when no
      box is likely to be of any class. */
  ghost predicate Decoded(boxes: seq<Box>, scores: seq<seq<real>>, criteria: real, maxOutput: int, maxNum: int,
                          parts: seq<seq<Detection>>, order: seq<nat>, out: seq<Detection>)
  {
    && |parts| + 1 == |scores| && (forall c :: 0 <= c < |scores| ==> |scores[c]| == |boxes|)
    && (forall c :: 0 <= c < |parts| ==> Contributes(boxes, scores[c + 1], c + 1, criteria, maxNum, parts[c]))
    && var all := Joined(parts);
    && Ranking(Scores(all), order)
    && out ==
         if NothingLikely(boxes, scores, |scores|) then [Detection(Box(0.0, 0.0, 0.0, 0.0), 0, -100000.0)]
         else LastOf(Pick(all, order), maxOutput)
  }

  lemma JoinedMore(parts: seq<seq<Detection>>, ds: seq<Detection>)
    ensures Joined(parts + [ds]) == Joined(parts) + ds && Joined([]) == []
  {
    assert (parts + [ds])[..|parts|] == parts;
  }

  lemma ContributesIf(boxes: seq<Box>, scores: seq<real>, category: nat, criteria: real, maxNum: int, ds: seq<Detection>,
                      likely: (seq<Box>, seq<real>))
    requires |boxes| == |scores| && likely == Likely(boxes, scores)
    requires if likely.0 == [] then ds == [] else ClassDecoded(likely.0, likely.1, category, criteria, maxNum, ds)
    ensures Contributes(boxes, scores, category, criteria, maxNum, ds)
  {
    hide ClassDecoded, Likely;
  }

  lemma PickLast(ds: seq<Detection>, order: seq<nat>, n: int)
    requires Ranking(Scores(ds), order)
    ensures forall a :: 0 <= a < |order| ==> order[a] < |ds|
    ensures forall a :: 0 <= a < |LastOf<nat>(order, n)| ==> LastOf<nat>(order, n)[a] < |ds|
    ensures Pick(ds, LastOf<nat>(order, n)) == LastOf(Pick(ds, order), n)
  {
    assert |Scores(ds)| == |ds|;
    assert forall a :: 0 <= a < |order| ==> order[a] < |ds|;
    hide Scores, Ranking;
    if n > 0 && n < |order| {
      assert LastOf<nat>(order, n) == order[|order| - n..];
    } else if n <= 0 && -n < |order| {
      assert LastOf<nat>(order, n) == order[-n..];
    }
  }

  lemma DecodedIf(boxes: seq<Box>, scores: seq<seq<real>>, criteria: real, maxOutput: int, maxNum: int,
                  parts: seq<seq<Detection>>, order: seq<nat>, out: seq<Detection>)
    requires |parts| + 1 == |scores| && forall c :: 0 <= c < |scores| ==> |scores[c]| == |boxes|
    requires forall c :: 0 <= c < |parts| ==> Contributes(boxes, scores[c + 1], c + 1, criteria, maxNum, parts[c])
    requires Ranking(Scores(Joined(parts)), order)
    requires forall a :: 0 <= a < |order| ==> order[a] < |Joined(parts)|
    requires out == if NothingLikely(boxes, scores, |scores|) then [DUMMY] else LastOf(Pick(Joined(parts), order), maxOutput)
    ensures Decoded(boxes, scores, criteria, maxOutput, maxNum, parts, order, out)
  {
    hide Contributes, Ranking, Scores, LastOf, Joined, NothingLikely;
  }

  lemma NothingYet(boxes: seq<Box>, scores: seq<seq<real>>)
    ensures NothingLikely(boxes, scores, 1)
  {
  }

  lemma NothingMore(boxes: seq<Box>, scores: seq<seq<real>>, c: nat)
    requires 1 <= c < |scores| && |scores[c]| == |boxes|
    ensures NothingLikely(boxes, scores, c + 1) <==> NothingLikely(boxes, scores, c) && Likely(boxes, scores[c]).0 == []
  {
    hide Likely;
  }

  lemma ClassEndsIs(boxes: seq<Box>, scores: seq<real>, criteria: real, maxNum: int, likely: (seq<Box>, seq<real>))
    requires |boxes| == |scores| && likely == Likely(boxes, scores) && ClassEnds(boxes, scores, criteria, maxNum)
    ensures |likely.0| == |likely.1| && RankedEnds(likely.0, likely.1, criteria, maxNum)
  {
    hide RankedEnds;
  }

  /** Decodes one image.  `scores` are by class, the background first. */
  method DecodeSingle(boxes: seq<Box>, scores: seq<seq<real>>, criteria: real, maxOutput: int, maxNum: int)
      returns (out: seq<Detection>)
    requires |scores| > 0 && forall c :: 0 <= c < |scores| ==> |scores[c]| == |boxes|
    requires forall c :: 1 <= c < |scores| ==> ClassEnds(boxes, scores[c], criteria, maxNum)
    ensures exists parts, order :: Decoded(boxes, scores, criteria, maxOutput, maxNum, parts, order, out)
  {
    hide *;
    var all: seq<Detection> := [];
    var some := false;
    NothingYet(boxes, scores);
    ghost var parts: seq<seq<Detection>> := [];
    JoinedMore([], []);
    for c := 1 to |scores|
      invariant |parts| + 1 == c && all == Joined(parts) && some == !NothingLikely(boxes, scores, c)
      invariant forall e :: 0 <= e < |parts| ==> Contributes(boxes, scores[e + 1], e + 1, criteria, maxNum, parts[e])
    {
      var likely := Likely(boxes, scores[c]);
      var ds: seq<Detection> := [];
      NothingMore(boxes, scores, c);
      if likely.0 != [] {
        some := true;
        ClassEndsIs(boxes, scores[c], criteria, maxNum, likely);
        ds := DecodeClass(likely.0, likely.1, c, criteria, maxNum);
      }
      ContributesIf(boxes, scores[c], c, criteria, maxNum, ds, likely);
      JoinedMore(parts, ds);
      all := all + ds;
      parts := parts + [ds];
    }
    var best := ArgSort(Scores(all));
    PickLast(all, best, maxOutput);
    if !some {
      out := [DUMMY];
    } else {
      out := Pick(all, LastOf<nat>(best, maxOutput));
    }
    DecodedIf(boxes, scores, criteria, maxOutput, maxNum, parts, best, out);
  }

  /** No detection that is left out is better than one that is returned. */
  lemma BestAreReturned(ds: seq<Detection>, order: seq<nat>, n: nat, out: seq<Detection>, a: nat, k: nat)
    requires Ranking(Scores(ds), order) && 0 < n < |ds|
    requires forall a :: 0 <= a < |order| ==> order[a] < |ds|
    requires out == LastOf(Pick(ds, order), n) && a < |ds| - n && k < n
    ensures |out| == n && order[a] < |ds| && ds[order[a]].score <= out[k].score
  {
    var all := Pick(ds, order);
    assert |all| == |order| == |ds|;
    assert out[k] == ds[order[|ds| - n + k]];
    assert Scores(ds)[order[a]] <= Scores(ds)[order[|ds| - n + k]];
  }
}
