/** Small facts about multiplication, division and remainder on naturals. */
module Arith {

  lemma MulMono(a: nat, b: nat, c: nat)
    requires a <= b
    ensures a * c <= b * c && c * a <= c * b
  {
    assert b * c == a * c + (b - a) * c;
    assert (b - a) * c >= 0;
  }

  lemma MulCancel(a: nat, b: nat, c: nat)
    requires c > 0 && a * c <= b * c
    ensures a <= b
  {
    assert (b + 1) * c == b * c + c;
    if b < a { MulMono(b + 1, a, c); }
  }

  lemma DivBounds(x: nat, n: nat)
    requires n > 0
    ensures x == n * (x / n) + x % n && 0 <= x % n < n && 0 <= x / n <= x
  {
    MulMono(1, n, x / n);
  }

  /** A quotient is the only number whose multiple bracket contains the dividend. */
  lemma DivUnique(x: nat, n: nat, q: nat)
    requires n > 0 && n * q <= x < n * q + n
    ensures x / n == q && x % n == x - n * q
  {
    DivBounds(x, n);
    var p := x / n;
    if p < q {
      MulMono(p + 1, q, n);
      assert false;
    } else if q < p {
      MulMono(q + 1, p, n);
      assert false;
    }
  }

  lemma DivMono(a: nat, b: nat, n: nat)
    requires a <= b && n > 0
    ensures a / n <= b / n
  {
    DivBounds(a, n);
    DivBounds(b, n);
    if b / n < a / n {
      MulMono(b / n + 1, a / n, n);
      assert false;
    }
  }

  /** a <= x / n exactly when a * n <= x. */
  lemma DivGalois(a: nat, x: nat, n: nat)
    requires n > 0
    ensures a <= x / n <==> a * n <= x
  {
    DivBounds(x, n);
    if a <= x / n {
      MulMono(a, x / n, n);
    } else {
      MulMono(x / n + 1, a, n);
    }
  }

  lemma MulDiv(c: nat, n: nat)
    requires n > 0
    ensures (c * n) / n == c
  {
    DivUnique(c * n, n, c);
  }

  /** Splitting a division: cells of cells. */
  lemma DivDiv(x: nat, n: nat, m: nat)
    requires n > 0 && m > 0
    ensures n * m > 0 && x / (n * m) == (x / n) / m
  {
    MulMono(1, n, m);
    DivBounds(x, n);
    DivBounds(x / n, m);
    var q := (x / n) / m;
    var r := (x / n) % m;
    assert x == n * (m * q + r) + x % n;
    assert n * (m * q + r) == (n * m) * q + n * r by {
      assert n * (m * q) == (n * m) * q;
    }
    MulMono(r, m - 1, n);
    assert n * (m - 1) == n * m - n;
    DivUnique(x, n * m, q);
  }
}
