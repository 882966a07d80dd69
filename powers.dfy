/** Natural powers of reals, the `x**n` of the simulation for a non-negative integer exponent. */
module Powers {

  /** x raised to the natural power n. */
  function Pow(x: real, n: nat): real
  {
    if n == 0 then 1.0 else x * Pow(x, n - 1)
  }

  /** A product of two numbers in [0, 1] stays in [0, 1] and is no larger than either factor. */
  lemma MulInUnit(a: real, b: real)
    requires 0.0 <= a <= 1.0 && 0.0 <= b <= 1.0
    ensures 0.0 <= a * b <= b && a * b <= a
  {
    assert b - a * b == b * (1.0 - a);
    assert a - a * b == a * (1.0 - b);
  }

  /** Every power of a number in [0, 1] lies in [0, 1]. */
  lemma {:induction false} PowInUnit(x: real, n: nat)
    requires 0.0 <= x <= 1.0
    ensures 0.0 <= Pow(x, n) <= 1.0
  {
    if n > 0 {
      PowInUnit(x, n - 1);
      MulInUnit(x, Pow(x, n - 1));
    }
  }

  /** Every power of a positive number is positive. */
  lemma {:induction false} PowPositive(x: real, n: nat)
    requires 0.0 < x
    ensures 0.0 < Pow(x, n)
  {
    if n > 0 {
      PowPositive(x, n - 1);
    }
  }

  /** The square is the product of the number with itself. */
  lemma PowTwo(x: real)
    ensures Pow(x, 2) == x * x
  {
    assert Pow(x, 1) == x;
  }
}
