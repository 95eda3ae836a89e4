/** Counting and mapping over finite bags.  A priority queue is a bag whose
    `pop` removes some element of least key. */
module Bags {

  ghost function Count<T>(p: T -> bool, m: multiset<T>): nat
    decreases |m|
  {
    if m == multiset{} then 0
    else
      var x :| x in m;
      (if p(x) then 1 else 0) + Count(p, m - multiset{x})
  }

  ghost function Image<T, U>(f: T -> U, m: multiset<T>): multiset<U>
    decreases |m|
  {
    if m == multiset{} then multiset{}
    else
      var x :| x in m;
      multiset{f(x)} + Image(f, m - multiset{x})
  }

  lemma RemoveSwap<T>(m: multiset<T>, x: T, y: T)
    ensures m - multiset{x} - multiset{y} == m - multiset{y} - multiset{x}
  {
  }

  /** The element removed first does not matter. */
  lemma {:induction false} CountPick<T>(p: T -> bool, m: multiset<T>, y: T)
    requires y in m
    ensures Count(p, m) == (if p(y) then 1 else 0) + Count(p, m - multiset{y})
    decreases |m|
  {
    var x :| x in m && Count(p, m) == (if p(x) then 1 else 0) + Count(p, m - multiset{x});
    hide *;
    if x != y {
      RemoveSwap(m, x, y);
      CountPick(p, m - multiset{x}, y);
      CountPick(p, m - multiset{y}, x);
    }
  }

  lemma CountAdd<T>(p: T -> bool, m: multiset<T>, y: T)
    ensures Count(p, m + multiset{y}) == Count(p, m) + (if p(y) then 1 else 0)
  {
    CountPick(p, m + multiset{y}, y);
    assert m + multiset{y} - multiset{y} == m;
  }

  /** Replacing one element of a bag by another. */
  lemma CountReplace<T>(p: T -> bool, m: multiset<T>, x: T, y: T)
    requires x in m
    ensures Count(p, m - multiset{x} + multiset{y})
         == Count(p, m) - (if p(x) then 1 else 0) + (if p(y) then 1 else 0)
  {
    CountPick(p, m, x);
    CountAdd(p, m - multiset{x}, y);
  }

  lemma {:induction false} CountUnion<T>(p: T -> bool, m: multiset<T>, n: multiset<T>)
    ensures Count(p, m + n) == Count(p, m) + Count(p, n)
    decreases |n|
  {
    if n == multiset{} {
      assert m + n == m;
    } else {
      var x :| x in n;
      CountUnion(p, m, n - multiset{x});
      CountPick(p, n, x);
      CountAdd(p, m + (n - multiset{x}), x);
      assert m + (n - multiset{x}) + multiset{x} == m + n;
    }
  }

  lemma {:induction false} CountZero<T>(p: T -> bool, m: multiset<T>)
    ensures Count(p, m) == 0 <==> forall x :: x in m ==> !p(x)
    decreases |m|
  {
    if m != multiset{} {
      var y :| y in m;
      CountPick(p, m, y);
      CountZero(p, m - multiset{y});
      assert forall x :: x in m ==> x == y || x in m - multiset{y};
    }
  }

  lemma {:induction false} CountMono<T>(p: T -> bool, q: T -> bool, m: multiset<T>)
    requires forall x :: x in m && p(x) ==> q(x)
    ensures Count(p, m) <= Count(q, m)
    decreases |m|
  {
    if m != multiset{} {
      var y :| y in m;
      CountPick(p, m, y);
      CountPick(q, m, y);
      CountMono(p, q, m - multiset{y});
    }
  }

  lemma {:induction false} ImagePick<T, U>(f: T -> U, m: multiset<T>, y: T)
    requires y in m
    ensures Image(f, m) == multiset{f(y)} + Image(f, m - multiset{y})
    decreases |m|
  {
    var x :| x in m && Image(f, m) == multiset{f(x)} + Image(f, m - multiset{x});
    if x != y {
      var rest := m - multiset{x} - multiset{y};
      assert rest == m - multiset{y} - multiset{x};
      ImagePick(f, m - multiset{x}, y);
      ImagePick(f, m - multiset{y}, x);
      ImageSwap(f(x), f(y), Image(f, rest));
    }
  }

  lemma ImageSwap<U>(a: U, b: U, m: multiset<U>)
    ensures multiset{a} + (multiset{b} + m) == multiset{b} + (multiset{a} + m)
  {
  }

  lemma ImageAdd<T, U>(f: T -> U, m: multiset<T>, y: T)
    ensures Image(f, m + multiset{y}) == Image(f, m) + multiset{f(y)}
  {
    ImagePick(f, m + multiset{y}, y);
    assert m + multiset{y} - multiset{y} == m;
  }

  lemma {:induction false} ImageMember<T, U>(f: T -> U, m: multiset<T>, z: U)
    ensures z in Image(f, m) <==> exists x :: x in m && f(x) == z
    decreases |m|
  {
    if m != multiset{} {
      var y :| y in m;
      ImagePick(f, m, y);
      ImageMember(f, m - multiset{y}, z);
      assert forall x :: x in m ==> x == y || x in m - multiset{y};
    }
  }

  /** Mapping does not change a count that the map respects. */
  lemma {:induction false} CountImage<T, U>(p: U -> bool, q: T -> bool, f: T -> U, m: multiset<T>)
    requires forall x :: x in m ==> p(f(x)) == q(x)
    ensures Count(p, Image(f, m)) == Count(q, m)
    decreases |m|
  {
    if m != multiset{} {
      var y :| y in m;
      ImagePick(f, m, y);
      CountPick(q, m, y);
      CountImage(p, q, f, m - multiset{y});
      CountAdd(p, Image(f, m - multiset{y}), f(y));
      assert multiset{f(y)} + Image(f, m - multiset{y}) == Image(f, m - multiset{y}) + multiset{f(y)};
    }
  }

  lemma {:induction false} ImageCompose<T, U, V>(f: T -> U, g: U -> V, h: T -> V, m: multiset<T>)
    requires forall x :: x in m ==> g(f(x)) == h(x)
    ensures Image(g, Image(f, m)) == Image(h, m)
    decreases |m|
  {
    if m != multiset{} {
      var y :| y in m;
      var less := m - multiset{y};
      ImageCompose(f, g, h, less);
      assert g(f(y)) == h(y);
      hide *;
      ImagePick(f, m, y);
      ImagePick(h, m, y);
      assert multiset{f(y)} + Image(f, less) == Image(f, less) + multiset{f(y)};
      ImageAdd(g, Image(f, less), f(y));
    }
  }

  lemma {:induction false} ImageSize<T, U>(f: T -> U, m: multiset<T>)
    ensures |Image(f, m)| == |m|
    decreases |m|
  {
    if m != multiset{} {
      var y :| y in m;
      ImagePick(f, m, y);
      ImageSize(f, m - multiset{y});
    }
  }

  /** The elements that satisfy `p`. */
  ghost function Filter<T>(p: T -> bool, m: multiset<T>): multiset<T>
    decreases |m|
  {
    if m == multiset{} then multiset{}
    else
      var x :| x in m;
      if p(x) then Filter(p, m - multiset{x}) + multiset{x} else Filter(p, m - multiset{x})
  }

  lemma {:induction false} FilterPick<T>(p: T -> bool, m: multiset<T>, y: T)
    requires y in m
    ensures Filter(p, m) == if p(y) then Filter(p, m - multiset{y}) + multiset{y} else Filter(p, m - multiset{y})
    decreases |m|
  {
    var x :| x in m && Filter(p, m) ==
      if p(x) then Filter(p, m - multiset{x}) + multiset{x} else Filter(p, m - multiset{x});
    if x != y {
      var rest := m - multiset{x} - multiset{y};
      assert rest == m - multiset{y} - multiset{x};
      FilterPick(p, m - multiset{x}, y);
      FilterPick(p, m - multiset{y}, x);
    }
  }

  lemma FilterAdd<T>(p: T -> bool, m: multiset<T>, y: T)
    ensures Filter(p, m + multiset{y}) == if p(y) then Filter(p, m) + multiset{y} else Filter(p, m)
  {
    FilterPick(p, m + multiset{y}, y);
    assert m + multiset{y} - multiset{y} == m;
  }

  lemma RemovedLast<T>(m: multiset<T>, n: multiset<T>, x: T)
    requires x in n
    ensures m + (n - multiset{x}) + multiset{x} == m + n
  {
  }

  lemma AddLast<T>(m: multiset<T>, n: multiset<T>, x: T)
    ensures m + n + multiset{x} == m + (n + multiset{x})
  {
  }

  lemma {:induction false} FilterUnion<T>(p: T -> bool, m: multiset<T>, n: multiset<T>)
    ensures Filter(p, m + n) == Filter(p, m) + Filter(p, n)
    decreases |n|
  {
    if n == multiset{} {
      assert m + n == m;
      assert Filter(p, n) == multiset{};
      hide *;
    } else {
      hide *;
      var x :| x in n;
      var less := n - multiset{x};
      FilterUnion(p, m, less);
      FilterPick(p, n, x);
      FilterAdd(p, m + less, x);
      RemovedLast(m, n, x);
      AddLast(Filter(p, m), Filter(p, less), x);
    }
  }

  lemma {:induction false} FilterSize<T>(p: T -> bool, m: multiset<T>)
    ensures |Filter(p, m)| == Count(p, m)
    decreases |m|
  {
    if m != multiset{} {
      var y :| y in m;
      FilterSize(p, m - multiset{y});
      hide *;
      FilterPick(p, m, y);
      CountPick(p, m, y);
    }
  }

  lemma {:induction false} FilterMember<T>(p: T -> bool, m: multiset<T>, y: T)
    ensures Filter(p, m)[y] == if p(y) then m[y] else 0
    decreases |m|
  {
    if m != multiset{} {
      var x :| x in m;
      FilterMember(p, m - multiset{x}, y);
      hide *;
      FilterPick(p, m, x);
    }
  }

  lemma {:induction false} FilterImage<T>(p: T -> bool, f: T -> T, m: multiset<T>)
    requires forall x :: x in m ==> p(f(x)) == p(x)
    ensures Filter(p, Image(f, m)) == Image(f, Filter(p, m))
    decreases |m|
  {
    if m != multiset{} {
      var y :| y in m;
      var less := m - multiset{y};
      FilterImage(p, f, less);
      assert p(f(y)) == p(y);
      hide *;
      ImagePick(f, m, y);
      FilterPick(p, m, y);
      assert multiset{f(y)} + Image(f, less) == Image(f, less) + multiset{f(y)};
      FilterAdd(p, Image(f, less), f(y));
      if p(y) { ImageAdd(f, Filter(p, less), y); }
    }
  }

  lemma {:induction false} ImageIdentity<T>(f: T -> T, m: multiset<T>)
    requires forall x :: x in m ==> f(x) == x
    ensures Image(f, m) == m
    decreases |m|
  {
    if m != multiset{} {
      var y :| y in m;
      ImageIdentity(f, m - multiset{y});
      ImagePick(f, m, y);
    }
  }
}
