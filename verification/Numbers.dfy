/** Division with remainder, for the modules that count in circles. */
module Numbers {

  ghost predicate Divides(d: int, n: int) { exists q :: n == q * d }

  lemma DividesMod(d: nat, n: int)
    requires d > 0
    ensures Divides(d, n) <==> n % d == 0
  {
    if n % d == 0 {
      assert n == (n / d) * d;
    }
    if Divides(d, n) {
      var q :| n == q * d;
      QuotientUnique(n, d, q, 0);
    }
  }

  lemma QuotientUnique(n: int, d: nat, q: int, r: int)
    requires n == q * d + r && 0 <= r < d
    ensures n / d == q && n % d == r
  {
    SmallMultiple(q - n / d, d, n % d - r);
  }

  lemma SmallMultiple(k: int, d: nat, x: int)
    requires k * d == x && 0 - d < x < d
    ensures k == 0 && x == 0
  {
    if k > 0 {
      MulGrows(k, d, 1, d);
    }
  }

  lemma MulGrows(a: nat, b: nat, x: nat, y: nat)
    requires a >= x && b >= y
    ensures a * b >= x * y
  {
    assert a * b == x * y + x * (b - y) + (a - x) * b;
  }

  lemma LargeProduct(a: nat, b: nat, x: nat, y: nat)
    ensures a >= x && b >= y ==> a * b >= x * y
  {
    if a >= x && b >= y {
      MulGrows(a, b, x, y);
    }
  }

  lemma ModuloUnique(q: int, n: nat, r: nat)
    requires r < n
    ensures (q * n + r) % n == r
  {
    QuotientUnique(q * n + r, n, q, r);
  }

  lemma ModuloStep(a: nat, n: nat)
    requires n > 0
    ensures (a + 1) % n == if a % n + 1 < n then a % n + 1 else 0
  {
    Advance(a / n, n, a % n, a);
  }

  lemma Advance(q: nat, n: nat, r: nat, a: nat)
    requires a == q * n + r && r < n
    ensures (a + 1) % n == if r + 1 < n then r + 1 else 0
  {
    if r + 1 < n {
      ModuloUnique(q, n, r + 1);
    } else {
      assert a + 1 == (q + 1) * n + 0;
      ModuloUnique(q + 1, n, 0);
    }
  }
}
