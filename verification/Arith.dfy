/** Facts about products and floored quotients of naturals, stated one at a time. */
module Arith {

  lemma Distribute(c: int, x: int, y: int)
    ensures c * (x + y) == c * x + c * y
  {
  }

  lemma TimesMonotone(a: int, b: int, d: nat)
    requires a <= b
    ensures a * d <= b * d
  {
    assert (b - a) * d >= 0;
  }

  lemma DivTimes(x: nat, d: nat)
    requires d > 0
    ensures x / d * d <= x < x / d * d + d
  {
  }

  lemma QuotientAtLeast(x: nat, d: nat, q: int)
    requires d > 0 && q * d <= x
    ensures q <= x / d
  {
    DivTimes(x, d);
    var k := x / d;
    Distribute(d, k, 1);
    if k + 1 <= q {
      TimesMonotone(k + 1, q, d);
      assert false;
    }
  }

  lemma QuotientAtMost(x: nat, d: nat, q: int)
    requires d > 0 && x < q * d + d
    ensures x / d <= q
  {
    DivTimes(x, d);
    var k := x / d;
    Distribute(d, q, 1);
    if q + 1 <= k {
      TimesMonotone(q + 1, k, d);
      assert false;
    }
  }

  lemma QuotientMonotone(x: nat, y: nat, d: nat)
    requires d > 0 && x <= y
    ensures x / d <= y / d
  {
    DivTimes(x, d);
    QuotientAtLeast(y, d, x / d);
  }

  lemma FloorOfSum(x: nat, y: nat, d: nat)
    requires d > 0
    ensures x / d + y / d <= (x + y) / d <= x / d + y / d + 1
  {
    DivTimes(x, d);
    DivTimes(y, d);
    Distribute(d, x / d, y / d);
    Distribute(d, x / d + y / d, 1);
    QuotientAtLeast(x + y, d, x / d + y / d);
    QuotientAtMost(x + y, d, x / d + y / d + 1);
  }
}
