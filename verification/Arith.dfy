/** The few facts about products, quotients and remainders that the index arithmetic needs. */
module Arith {

  function Magnitude(x: real): real {
    if x < 0.0 then -x else x
  }

  lemma MulAtLeast(k: int, w: nat)
    requires k >= 1
    ensures k * w >= w
  {
    assert k * w == (k - 1) * w + w;
  }

  lemma MulMonotone(a: int, b: int, w: nat)
    requires a <= b
    ensures a * w <= b * w
  {
    assert (b - a) * w == b * w - a * w;
  }

  /** Quotient and remainder are determined by the decomposition. */
  lemma DivModUnique(a: nat, w: nat, q: nat, r: nat)
    requires a == q * w + r && r < w
    ensures a / w == q && a % w == r
  {
    var q', r' := a / w, a % w;
    assert a == q' * w + r';
    assert (q - q') * w == r' - r by {
      assert (q - q') * w == q * w - q' * w;
    }
    assert q == q' by {
      if q > q' { MulAtLeast(q - q', w); }
      assert (q' - q) * w == -((q - q') * w);
      if q < q' { MulAtLeast(q' - q, w); }
    }
  }

  lemma DivModOf(a: nat, w: nat)
    requires w >= 1
    ensures a == (a / w) * w + a % w && a % w < w
  {
  }

  lemma DivBelow(a: nat, w: nat, n: nat)
    requires a < n * w
    ensures w >= 1 && a / w < n
  {
    assert w == 0 ==> n * w == 0;
    assert a / w < n by {
      DivModOf(a, w);
      if n <= a / w { MulMonotone(n, a / w, w); }
    }
  }

  lemma MixBelow(q: nat, r: nat, w: nat, n: nat)
    requires q < n && r < w
    ensures q * w + r < n * w
  {
    MulMonotone(q + 1, n, w);
    assert (q + 1) * w == q * w + w;
  }
}
