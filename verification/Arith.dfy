/** Floor division and cross-multiplication, one small fact a lemma. */
module Arith {

  lemma MulMono(a: int, b: int, c: int)
    requires a <= b && 0 <= c
    ensures a * c <= b * c
  {}

  lemma MulAssoc(a: int, b: int, c: int)
    ensures a * b * c == a * (b * c)
  {}

  lemma MulMono2(a: nat, b: nat, c: nat, d: nat)
    requires a <= b && c <= d
    ensures a * c <= b * d
  {
    MulMono(a, b, c);
    MulMono(c, d, b);
  }

  lemma MulCancel(a: int, b: int, c: int)
    requires a * c <= b * c && 0 < c
    ensures a <= b
  {
    if b < a {
      MulMono(b + 1, a, c);
    }
  }

  lemma DivBounds(a: nat, b: nat)
    requires 0 < b
    ensures 0 <= (a / b) * b <= a < (a / b + 1) * b
  {}

  lemma DivMod(a: nat, b: nat)
    requires 0 < b
    ensures a == (a / b) * b + a % b && a % b < b
  {}

  /** The largest q with q * b <= a. */
  lemma DivAtLeast(q: nat, a: nat, b: nat)
    requires 0 < b && q * b <= a
    ensures q <= a / b
  {
    DivBounds(a, b);
    if a / b < q {
      MulMono(a / b + 1, q, b);
    }
  }

  lemma DivAtMost(q: nat, a: nat, b: nat)
    requires 0 < b && a < (q + 1) * b
    ensures a / b <= q
  {
    DivBounds(a, b);
    if q < a / b {
      MulMono(q + 1, a / b, b);
    }
  }

  lemma DivMono(a: nat, a': nat, b: nat)
    requires a <= a' && 0 < b
    ensures a / b <= a' / b
  {
    DivBounds(a, b);
    DivAtLeast(a / b, a', b);
  }

  lemma DivAntitone(a: nat, b: nat, b': nat)
    requires 0 < b <= b'
    ensures a / b' <= a / b
  {
    DivBounds(a, b');
    MulMono(b, b', a / b');
    DivAtLeast(a / b', a, b);
  }

  /** Scaling numerator and denominator by x >= y never lowers the quotient. */
  lemma DivScaleUp(a: nat, b: nat, x: nat, y: nat)
    requires 0 < b && 0 < y <= x
    ensures 0 < b * y && a / b <= (a * x) / (b * y)
  {
    var q := a / b;
    DivBounds(a, b);
    MulMono(q * b, a, y);
    MulMono(y, x, a);
    assert q * (b * y) == q * b * y;
    DivAtLeast(q, a * x, b * y);
  }

  /** A common factor cancels. */
  lemma DivCancel(a: nat, b: nat, c: nat)
    requires 0 < b && 0 < c
    ensures 0 < b * c && (a * c) / (b * c) == a / b
  {
    var q := a / b;
    DivBounds(a, b);
    MulMono(q * b, a, c);
    assert q * (b * c) == q * b * c;
    DivAtLeast(q, a * c, b * c);
    MulMono(a + 1, (q + 1) * b, c);
    assert (q + 1) * (b * c) == (q + 1) * b * c;
    assert (a + 1) * c == a * c + c;
    DivAtMost(q, a * c, b * c);
  }

  function Pow(b: nat, e: nat): nat {
    if e == 0 then 1 else b * Pow(b, e - 1)
  }

  lemma PowAdd(b: nat, d: nat, e: nat)
    ensures Pow(b, d + e) == Pow(b, d) * Pow(b, e)
  {
    if d != 0 {
      PowAdd(b, d - 1, e);
      MulAssoc(b, Pow(b, d - 1), Pow(b, e));
    }
  }

  /** The last two factors trade places. */
  lemma MulSwap(a: int, b: int, c: int)
    ensures a * b * c == a * c * b
  {}

  lemma MulDistribute(a: int, b: int, c: int)
    ensures (a + b) * c == a * c + b * c
  {}

  lemma PowPositive(b: nat, e: nat)
    requires 0 < b
    ensures 0 < Pow(b, e)
  {
    if e != 0 {
      PowPositive(b, e - 1);
      MulMono2(1, b, 1, Pow(b, e - 1));
    }
  }
}
