/** Splitting a number evenly into multiples of a divisor. */
module SplitDivisible {
  import opened Arithmetic
  import opened Results

  function Sum(pieces: seq<nat>): nat {
    if pieces == [] then 0 else Sum(pieces[..|pieces| - 1]) + pieces[|pieces| - 1]
  }

  /** The first `i` of `ways` equal parts, rounded down. */
  function Share(num: nat, ways: nat, i: nat): nat
    requires ways > 0
  {
    num * i / ways
  }

  /** The least multiple of `d` that is no less than `x`. */
  ghost predicate LeastMultiple(c: nat, x: nat, d: nat)
    requires d > 0
  {
    c % d == 0 && x <= c && forall m: nat :: m % d == 0 && x <= m ==> c <= m
  }

  lemma MultiplesApart(c: nat, m: nat, d: nat)
    requires d > 0 && c % d == 0 && m % d == 0 && m < c
    ensures c - m >= d
  {
    var k := c / d - m / d;
    assert c - m == d * k;
    Grows(d, k);
  }

  /** A multiple less than `d` away is the least. */
  lemma NearIsLeast(c: nat, x: nat, d: nat)
    requires d > 0 && c % d == 0 && x <= c < x + d
    ensures LeastMultiple(c, x, d)
  {
    forall m: nat | m % d == 0 && x <= m ensures c <= m {
      if m < c { MultiplesApart(c, m, d); }
    }
  }

  lemma LeastIsNear(c: nat, x: nat, d: nat)
    requires d > 0 && LeastMultiple(c, x, d)
    ensures c % d == 0 && x <= c < x + d
  {
    if c >= x + d {
      assert c - d == d * (c / d - 1) + 0;
      ModIs(c - d, d, c / d - 1, 0);
    }
  }

  lemma LeastIsUnique(c: nat, b: nat, x: nat, d: nat)
    requires d > 0 && LeastMultiple(c, x, d) && LeastMultiple(b, x, d)
    ensures c == b
  {
  }

  /** The share is the largest number that `ways` times is no more than `i` times the
      whole. */
  lemma ShareIs(num: nat, ways: nat, i: nat)
    requires ways > 0
    ensures ways * Share(num, ways, i) <= num * i < ways * (Share(num, ways, i) + 1)
  {
    var q, r := num * i / ways, num * i % ways;
    assert num * i == ways * q + r;
    assert ways * (q + 1) == ways * q + ways;
  }

  /** The even piece is the largest multiple of the divisor that fits `ways` times. */
  lemma LargestBase(num: nat, ways: nat, d: nat)
    requires ways > 0 && d > 0
    ensures Base(num, ways, d) % d == 0
    ensures ways * Base(num, ways, d) <= num < ways * (Base(num, ways, d) + d)
  {
    BaseIs(num, ways, d);
    FitsBetween(num, ways, num / ways, Base(num, ways, d), d);
  }

  lemma FitsBetween(num: nat, ways: nat, x: nat, low: nat, d: nat)
    requires ways > 0 && x == num / ways && low <= x < low + d
    ensures ways * low <= num < ways * (low + d)
  {
    assert num == ways * x + num % ways;
    assert ways * (x - low) >= 0 && ways * (x - low) == ways * x - ways * low;
    Grows(ways, low + d - x);
    assert ways * (low + d - x) == ways * (low + d) - ways * x;
  }

  lemma ShareNext(num: nat, ways: nat, i: nat)
    requires ways > 0
    ensures Share(num, ways, i) + num / ways <= Share(num, ways, i + 1) <= Share(num, ways, i) + num / ways + 1
  {
    FloorOfSum(num * i, num, ways);
    assert num * (i + 1) == num * i + num;
  }

  lemma ShareEnds(num: nat, ways: nat)
    requires ways > 0
    ensures Share(num, ways, 0) == 0 && Share(num, ways, ways) == num
  {
    DivIs(0, ways, 0, 0);
    DivIs(num * ways, ways, num, 0);
  }

  /** The even piece, rounded down to a multiple. */
  function Base(num: nat, ways: nat, d: nat): nat
    requires ways > 0 && d > 0
  {
    num / ways / d * d
  }

  lemma BaseIs(num: nat, ways: nat, d: nat)
    requires ways > 0 && d > 0
    ensures Base(num, ways, d) % d == 0 && Base(num, ways, d) <= num / ways < Base(num, ways, d) + d
  {
    var q := num / ways;
    assert q == d * (q / d) + q % d;
    assert Base(num, ways, d) == d * (q / d) + 0;
    ModIs(Base(num, ways, d), d, q / d, 0);
  }

  lemma SumMore(pieces: seq<nat>, r: nat)
    ensures Sum(pieces + [r]) == Sum(pieces) + r
  {
    assert (pieces + [r])[..|pieces|] == pieces;
  }

  /** The running total after every piece. */
  ghost predicate OnTarget(num: nat, ways: nat, d: nat, pieces: seq<nat>)
    requires ways > 0 && d > 0
  {
    && (forall k: nat :: k <= |pieces| ==> LeastMultiple(Sum(pieces[..k]), Share(num, ways, k), d))
    && (forall k :: 0 <= k < |pieces| ==> pieces[k] == Base(num, ways, d) || pieces[k] == Base(num, ways, d) + d)
  }

  lemma NothingYet(num: nat, ways: nat, d: nat)
    requires ways > 0 && d > 0
    ensures OnTarget(num, ways, d, [])
  {
    ShareEnds(num, ways);
    ModIs(0, d, 0, 0);
    NearIsLeast(0, 0, d);
    assert Sum([]) == 0;
  }

  lemma TargetAt(num: nat, ways: nat, d: nat, pieces: seq<nat>, k: nat)
    requires ways > 0 && d > 0 && OnTarget(num, ways, d, pieces) && k <= |pieces|
    ensures LeastMultiple(Sum(pieces[..k]), Share(num, ways, k), d)
    ensures k < |pieces| ==> pieces[k] == Base(num, ways, d) || pieces[k] == Base(num, ways, d) + d
  {
    hide LeastMultiple, Share, Base, Sum;
  }

  lemma TargetIf(num: nat, ways: nat, d: nat, pieces: seq<nat>)
    requires ways > 0 && d > 0
    requires forall k: nat :: k <= |pieces| ==> LeastMultiple(Sum(pieces[..k]), Share(num, ways, k), d)
    requires forall k :: 0 <= k < |pieces| ==> pieces[k] == Base(num, ways, d) || pieces[k] == Base(num, ways, d) + d
    ensures OnTarget(num, ways, d, pieces)
  {
    hide LeastMultiple, Share, Base, Sum;
  }

  lemma AddPiece(num: nat, ways: nat, d: nat, pieces: seq<nat>, r: nat)
    requires ways > 0 && d > 0 && OnTarget(num, ways, d, pieces)
    requires r == Base(num, ways, d) || r == Base(num, ways, d) + d
    requires LeastMultiple(Sum(pieces) + r, Share(num, ways, |pieces| + 1), d)
    ensures OnTarget(num, ways, d, pieces + [r])
  {
    hide *;
    var longer := pieces + [r];
    SumMore(pieces, r);
    forall k: nat | k <= |longer| ensures LeastMultiple(Sum(longer[..k]), Share(num, ways, k), d) {
      if k <= |pieces| {
        TargetAt(num, ways, d, pieces, k);
        assert longer[..k] == pieces[..k];
      } else {
        assert longer[..k] == longer;
      }
    }
    forall k: nat | k < |longer| ensures longer[k] == Base(num, ways, d) || longer[k] == Base(num, ways, d) + d {
      if k < |pieces| { TargetAt(num, ways, d, pieces, k); }
    }
    TargetIf(num, ways, d, longer);
  }

  lemma Reached(num: nat, ways: nat, d: nat, pieces: seq<nat>)
    requires ways > 0 && d > 0 && OnTarget(num, ways, d, pieces)
    ensures LeastMultiple(Sum(pieces), Share(num, ways, |pieces|), d)
  {
    assert pieces[..|pieces|] == pieces;
    hide LeastMultiple, Share, Base, Sum;
  }

  /** The pieces add up to the number: after each of them the running total is the
      least multiple of the divisor that is no less than the exact share, and each
      is the even piece rounded down, or one divisor more.  It is refused when the
      number is no multiple, or too small for a divisor in every piece. */
  method Split(num: nat, ways: nat, d: nat) returns (result: Result<seq<nat>>)
    requires ways > 0 && d > 0
    ensures result.Err? <==> num % d != 0 || num / ways < d
    ensures result.Ok? ==> |result.value| == ways && OnTarget(num, ways, d, result.value) && Sum(result.value) == num
  {
    hide *;
    if num % d != 0 { return Err("not divisible"); }
    if num / ways < d { return Err("pieces too small"); }
    var base := num / ways / d * d;
    assert base == Base(num, ways, d) by { BaseDefinition(num, ways, d); }
    BaseIs(num, ways, d);
    var pieces: seq<nat> := [];
    var accumulated := 0;
    NothingYet(num, ways, d);
    SumNone();
    for i := 0 to ways
      invariant |pieces| == i && accumulated == Sum(pieces) && OnTarget(num, ways, d, pieces)
    {
      Reached(num, ways, d, pieces);
      LeastIsNear(accumulated, Share(num, ways, i), d);
      ShareNext(num, ways, i);
      ShareDefinition(num, ways, i + 1);
      SumOfMultiples(accumulated, base, d);
      DivisorDivides(d);
      var r := base;
      while accumulated + r < num * (i + 1) / ways
        invariant r == base || (r == base + d && num * (i + 1) / ways > accumulated + base)
        invariant (accumulated + r) % d == 0
        decreases base + d - r
      {
        SumOfMultiples(accumulated + r, d, d);
        r := r + d;
      }
      NearIsLeast(accumulated + r, Share(num, ways, i + 1), d);
      AddPiece(num, ways, d, pieces, r);
      SumMore(pieces, r);
      pieces := pieces + [r];
      accumulated := accumulated + r;
    }
    Reached(num, ways, d, pieces);
    ShareEnds(num, ways);
    NearIsLeast(num, num, d);
    LeastIsUnique(accumulated, num, num, d);
    assert accumulated == num;
    result := Ok(pieces);
  }

  lemma SumNone()
    ensures Sum([]) == 0
  {
  }

  lemma BaseDefinition(num: nat, ways: nat, d: nat)
    requires ways > 0 && d > 0
    ensures Base(num, ways, d) == num / ways / d * d
  {
  }

  lemma ShareDefinition(num: nat, ways: nat, i: nat)
    requires ways > 0
    ensures Share(num, ways, i) == num * i / ways
  {
  }

  lemma DivisorDivides(d: nat)
    requires d > 0
    ensures d % d == 0
  {
    ModIs(d, d, 1, 0);
  }
}
