/** Products and quotients, one small step at a time. */
module Arithmetic {

  function Times(n: nat, k: nat): nat { n * k }

  lemma TimesNext(n: nat, k: nat)
    ensures Times(0, k) == 0 && Times(n + 1, k) == Times(n, k) + k
  {
  }

  lemma TimesMore(n: nat, k: nat)
    ensures Times(n, k + 1) == Times(n, k) + n
  {
  }

  lemma TimesMono(m: nat, n: nat, k: nat)
    requires m <= n
    ensures Times(m, k) <= Times(n, k)
  {
  }

  lemma TimesPositive(n: nat, k: nat)
    requires n > 0 && k > 0
    ensures Times(n, k) > 0
  {
  }

  lemma Grows(m: nat, d: int)
    requires m > 0
    ensures d >= 1 ==> m * d >= m
    ensures d <= -1 ==> m * d < 0
  {
  }

  lemma UniqueDivision(n: nat, k: int, s: nat, q: int, r: nat)
    requires n > 0 && n * k + s == n * q + r && s < n && r < n
    ensures s == r
  {
    assert n * (k - q) == r - s;
    assert n * (q - k) == s - r;
    Grows(n, k - q);
    Grows(n, q - k);
  }

  lemma ModIs(x: nat, n: nat, q: nat, r: nat)
    requires n > 0 && x == n * q + r && r < n
    ensures x % n == r
  {
    UniqueDivision(n, x / n, x % n, q, r);
  }

  lemma TimesDivide(n: nat, k: nat)
    requires n > 0
    ensures Times(n, k) / n == k
  {
    var q, rest := Times(n, k) / n, Times(n, k) % n;
    assert n * q + rest == n * k + 0 && 0 <= rest < n;
    UniqueDivision(n, q, rest, k, 0);
    assert n * (k - q) == 0;
    Grows(n, k - q);
    Grows(n, q - k);
    assert n * (q - k) == 0;
  }

  lemma DivIs(x: nat, n: nat, q: nat, r: nat)
    requires n > 0 && x == n * q + r && r < n
    ensures x / n == q
  {
    UniqueDivision(n, x / n, x % n, q, r);
    assert n * (x / n - q) == 0 && n * (q - x / n) == 0;
    Grows(n, x / n - q);
    Grows(n, q - x / n);
  }

  lemma SumOfMultiples(a: nat, b: nat, n: nat)
    requires n > 0 && a % n == 0 && b % n == 0
    ensures (a + b) % n == 0
  {
    assert a + b == n * (a / n + b / n) + 0;
    ModIs(a + b, n, a / n + b / n, 0);
  }

  lemma QuotientOfSum(n: nat, qa: nat, ra: nat, qb: nat, rb: nat)
    requires n > 0 && ra < n && rb < n
    ensures qa + qb <= (n * qa + ra + (n * qb + rb)) / n <= qa + qb + 1
  {
    var x := n * qa + ra + (n * qb + rb);
    assert x == n * (qa + qb) + (ra + rb);
    if ra + rb < n {
      DivIs(x, n, qa + qb, ra + rb);
    } else {
      assert x == n * (qa + qb + 1) + (ra + rb - n);
      DivIs(x, n, qa + qb + 1, ra + rb - n);
    }
  }

  /** Rounding down a sum loses at most one more than rounding down its parts. */
  lemma FloorOfSum(a: nat, b: nat, n: nat)
    requires n > 0
    ensures a / n + b / n <= (a + b) / n <= a / n + b / n + 1
  {
    QuotientOfSum(n, a / n, a % n, b / n, b % n);
    assert a == n * (a / n) + a % n && b == n * (b / n) + b % n;
  }
}
