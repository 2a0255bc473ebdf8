/** Residues of natural numbers. */
module Modular {

  lemma {:induction false} MultipleLess(a: nat, b: nat, p: nat)
    ensures a < b ==> a * p + p <= b * p
  {
    if a < b {
      MultipleLess(a, b - 1, p);
      assert b * p == (b - 1) * p + p;
    }
  }

  lemma UniqueQuotient(z: int, k: int, rest: nat, n: nat)
    requires rest < n && z == k * n + rest
    ensures z % n == rest
  {
    var d := z / n - k;
    assert d * n == rest - z % n;
    if d >= 1 {
      MultipleLess(0, d, n);
    } else if d <= -1 {
      MultipleLess(0, -d, n);
    }
  }

  lemma ModuloMultiples(x: int, q: int, n: nat)
    requires n > 0
    ensures (x + q * n) % n == x % n
  {
    var k := x / n + q;
    assert x + q * n == k * n + x % n;
    UniqueQuotient(x + q * n, k, x % n, n);
  }

  lemma ReducedOnce(x: nat, n: nat)
    requires x < 2 * n
    ensures x % n == if x < n then x else x - n
  {
  }

  lemma SumOfResidues(x: nat, y: nat, n: nat)
    requires n > 0
    ensures (x % n + y % n) % n == (x + y) % n
  {
    var q := x / n + y / n;
    assert x + y == (x % n + y % n) + q * n;
    ModuloMultiples(x % n + y % n, q, n);
  }

  lemma DifferenceOfResidues(x: nat, y: nat, n: nat)
    requires n > 0
    ensures (x - y) % n == if x % n >= y % n then x % n - y % n else n - (y % n - x % n)
  {
    var q := x / n - y / n;
    assert x - y == (x % n - y % n) + q * n;
    if x % n >= y % n {
      UniqueQuotient(x - y, q, x % n - y % n, n);
    } else {
      assert x - y == (n + x % n - y % n) + (q - 1) * n;
      UniqueQuotient(x - y, q - 1, n + x % n - y % n, n);
    }
  }

  lemma QuotientRest(z: int, n: nat)
    requires n > 0
    ensures z % n == z - z / n * n
  {
  }

  lemma AddBack(x: nat, y: nat, n: nat)
    requires x < n
    ensures (y + (x - y) % n) % n == x
  {
    var q := 0 - (x - y) / n;
    QuotientRest(x - y, n);
    assert y + (x - y) % n == x + q * n;
    ModuloMultiples(x, q, n);
  }

  lemma DistinctDifferences(c: nat, a: nat, b: nat, n: nat)
    requires a < n && b < n && a != b
    ensures (c - a) % n != (c - b) % n
  {
    DifferenceOfResidues(c, a, n);
    DifferenceOfResidues(c, b, n);
    ReducedOnce(a, n);
    ReducedOnce(b, n);
  }
}
