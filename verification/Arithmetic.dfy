/** The few facts about products and integer division that the results on scheduling and rotation
    need; each is about non-negative operands, where Dafny's division and the source's agree. */
module Arithmetic {

  lemma MulMono(a: int, b: int, k: int)
    requires a <= b && k >= 0
    ensures a * k <= b * k
  {
  }

  lemma MulNext(a: int, b: int, k: int)
    requires a + 1 <= b && k >= 0
    ensures a * k + k <= b * k
  {
    MulMono(a + 1, b, k);
  }

  /** Quotient and remainder are determined by the division equation. */
  lemma DivModUnique(x: int, q: int, r: int, d: int)
    requires d > 0 && 0 <= r < d && x == q * d + r
    ensures x / d == q && x % d == r
  {
    var q', r' := x / d, x % d;
    assert x == q' * d + r';
    if q' > q {
      MulNext(q, q', d);
    } else if q' < q {
      MulNext(q', q, d);
    }
  }

  lemma DivNext(a: int, d: int)
    requires d > 0
    ensures (a + d) / d == a / d + 1 && (a + d) % d == a % d
  {
    DivModUnique(a + d, a / d + 1, a % d, d);
  }

  lemma DivMono(a: int, b: int, d: int)
    requires d > 0 && a <= b
    ensures a / d <= b / d
  {
    if a / d > b / d {
      MulNext(b / d, a / d, d);
    }
  }
}
