/** Numeric conversions with Python's semantics, over exact reals. */
module Numeric {

  /** Python's `int(x)` on a float: truncation toward zero. */
  function Trunc(x: real): (n: int)
    ensures 0.0 <= x ==> n as real <= x < n as real + 1.0
    ensures x < 0.0 ==> n as real - 1.0 < x <= n as real
  {
    if x >= 0.0 then x.Floor else -((-x).Floor)
  }

  /** Truncating a real that lies between two integers gives an integer between them. */
  lemma TruncWithin(x: real, lo: int, hi: int)
    requires lo as real <= x <= hi as real
    ensures lo <= Trunc(x) <= hi
  {
  }

  lemma TruncOfInt(n: int)
    ensures Trunc(n as real) == n
  {
  }

  function Max(a: int, b: int): int
  {
    if a >= b then a else b
  }

  function Min(a: int, b: int): int
  {
    if a <= b then a else b
  }

  /** For non-negative reals, comparing squares is comparing the values:
      `sqrt` is strictly increasing, so comparing squared distances decides
      the same as comparing the distances themselves. */
  lemma SquareOrder(a: real, b: real)
    requires 0.0 <= a && 0.0 <= b
    ensures a < b <==> Mul(a, a) < Mul(b, b)
  {
    if a < b {
      SquareStrictlyIncreasing(a, b);
    } else {
      SquareIncreasing(b, a);
    }
  }

  lemma SquareStrictlyIncreasing(a: real, b: real)
    requires 0.0 <= a < b
    ensures a * a < b * b
  {
    var aa, ab, bb := a * a, a * b, b * b;
    assert aa <= ab;
    assert ab < bb;
  }

  lemma SquareIncreasing(a: real, b: real)
    requires 0.0 <= a <= b
    ensures a * a <= b * b
  {
    var aa, ab, bb := a * a, a * b, b * b;
    assert aa <= ab;
    assert ab <= bb;
  }

  // Products and quotients of two variables are written through `Mul` and
  // `Div`. The solver then treats each as a single term, so a fact proved
  // about `Mul(v, v)` holds wherever that term appears; the small lemmas below
  // are the only places that look inside them.

  /** `a * b`. */
  function Mul(a: real, b: real): real
  {
    a * b
  }

  /** `a / b`. */
  function Div(a: real, b: real): real
    requires b != 0.0
  {
    a / b
  }

  lemma SquarePositive(v: real)
    requires v != 0.0
    ensures 0.0 < Mul(v, v)
  {
    if v > 0.0 { SquareStrictlyIncreasing(0.0, v); } else { SquareStrictlyIncreasing(0.0, -v); }
  }

  lemma SquareMonotone(a: real, b: real)
    requires 0.0 <= a <= b
    ensures Mul(a, a) <= Mul(b, b)
  {
    SquareIncreasing(a, b);
  }

  lemma SquareAtMostOne(s: real)
    requires -1.0 <= s <= 1.0
    ensures 0.0 <= Mul(s, s) <= 1.0
  {
    if 0.0 <= s { SquareIncreasing(s, 1.0); } else { SquareIncreasing(-s, 1.0); }
  }

  lemma SquareNonNegative(s: real)
    ensures 0.0 <= Mul(s, s)
  {
    if 0.0 <= s { SquareIncreasing(0.0, s); } else { SquareIncreasing(0.0, -s); }
  }

  lemma SquareOfNegation(a: real)
    ensures Mul(-a, -a) == Mul(a, a)
  {
  }

  lemma SquareOfProduct(a: real, b: real)
    ensures Mul(Mul(a, b), Mul(a, b)) == Mul(Mul(a, a), Mul(b, b))
  {
  }

  lemma MulCommutative(a: real, b: real)
    ensures Mul(a, b) == Mul(b, a)
  {
  }

  lemma MulDistributes(a: real, b: real, c: real)
    ensures Mul(a, b) + Mul(a, c) == Mul(a, b + c)
  {
  }

  lemma MulNegatesRight(a: real, b: real)
    ensures Mul(-a, b) == -Mul(a, b)
  {
  }

  lemma MulZero(a: real)
    ensures Mul(0.0, a) == 0.0 && Mul(a, 0.0) == 0.0
  {
  }

  lemma MulOne(a: real)
    ensures Mul(a, 1.0) == a
  {
  }

  lemma MulNonNegative(a: real, b: real)
    requires 0.0 <= a && 0.0 <= b
    ensures 0.0 <= Mul(a, b)
  {
  }

  lemma MulMonotone(a: real, b: real, c: real)
    requires a <= b && 0.0 <= c
    ensures Mul(a, c) <= Mul(b, c)
  {
  }

  lemma MulBetween(k: real, s: real)
    requires 0.0 <= k && -1.0 <= s <= 1.0
    ensures -k <= Mul(k, s) <= k
  {
  }

  lemma MulAssociative(a: real, b: real, c: real)
    ensures Mul(Mul(a, b), c) == Mul(a, Mul(b, c))
  {
  }

  lemma MulSwapInner(a: real, b: real, c: real)
    ensures Mul(Mul(a, b), c) == Mul(Mul(a, c), b)
  {
  }

  lemma DivZero(c: real)
    requires c != 0.0
    ensures Div(0.0, c) == 0.0
  {
  }

  lemma DivNonNegative(a: real, b: real)
    requires 0.0 <= a && 0.0 < b
    ensures 0.0 <= Div(a, b)
  {
  }

  lemma DivMonotone(a: real, b: real, c: real)
    requires a <= b && 0.0 < c
    ensures Div(a, c) <= Div(b, c)
  {
  }

  /** Dividing a product by `d` divides one factor. */
  lemma DivOfMul(a: real, b: real, d: real)
    requires d != 0.0
    ensures Div(Mul(a, b), d) == Mul(Div(a, d), b)
  {
  }

  /** Multiplying a quotient by its divisor gives back the dividend. */
  lemma DivTimesDivisor(a: real, b: real)
    requires b != 0.0
    ensures Mul(Div(a, b), b) == a
  {
  }

  /** Dividing `a * s` by `s` gives back `a`. */
  lemma DivCancel(a: int, s: int)
    requires s != 0
    ensures Div((a * s) as real, s as real) == a as real
  {
    assert (a * s) as real == (a as real) * (s as real);
  }

  lemma IntMulMonotone(a: int, i: int, s: int)
    requires 0 <= a && i <= s
    ensures a * i <= a * s
  {
  }

  lemma DivBelowOne(a: real, b: real)
    requires 0.0 <= a < b
    ensures 0.0 <= Div(a, b) < 1.0
  {
  }
}
