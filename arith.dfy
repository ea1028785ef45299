/** Facts about multiplication, Euclidean division and remainder that the
    solver does not find unaided. */
module Arith {

  lemma MulStep(a: int, m: int)
    ensures (a + 1) * m == a * m + m
  {
  }

  lemma {:induction false} MulNonNeg(d: nat, m: nat)
    ensures d * m >= 0
  {
    if d > 0 {
      MulNonNeg(d - 1, m);
      MulStep(d - 1, m);
    }
  }

  lemma MulMono(a: int, b: int, m: nat)
    requires a <= b
    ensures a * m <= b * m
  {
    MulNonNeg(b - a, m);
    assert b * m - a * m == (b - a) * m;
  }

  /** Quotient and remainder are the only ones with `a == q * m + r` and
      `0 <= r < m`. */
  lemma DivModUnique(a: int, q: int, r: int, m: int)
    requires m >= 1 && 0 <= r < m && a == q * m + r
    ensures a / m == q && a % m == r
  {
    var q', r' := a / m, a % m;
    assert a == q' * m + r';
    if q' < q {
      MulStep(q', m);
      MulMono(q' + 1, q, m);
    } else if q < q' {
      MulStep(q, m);
      MulMono(q + 1, q', m);
    }
  }

  /** Adding a multiple of the modulus does not change a remainder. */
  lemma ModAddMultiple(x: int, k: int, m: int)
    requires m >= 1
    ensures (x + k * m) % m == x % m
  {
    var q, r := x / m, x % m;
    assert x + k * m == (q + k) * m + r;
    DivModUnique(x + k * m, q + k, r, m);
  }
}
