/** Products and squares of reals, as functions, so that what follows from their laws can be said without their values. */
module Reals {

  function Times(a: real, b: real): real {
    a * b
  }

  function Square(x: real): real {
    x * x
  }

  /** A square root, as a value: not negative, and its square is `x`. */
  predicate IsRoot(s: real, x: real) {
    s >= 0.0 && Square(s) == x
  }

  function Max(a: real, b: real): real {
    if a > b then a else b
  }

  function Min(a: real, b: real): real {
    if a < b then a else b
  }

  lemma Positive(a: real, b: real)
    requires a > 0.0 && b > 0.0
    ensures Times(a, b) > 0.0
  {
  }

  lemma NotNegative(a: real, b: real)
    requires a >= 0.0 && b >= 0.0
    ensures Times(a, b) >= 0.0
  {
  }

  lemma Zero(a: real)
    ensures Times(a, 0.0) == 0.0 == Times(0.0, a) && Times(a, 1.0) == a == Times(1.0, a) && Square(0.0) == 0.0
  {
  }

  lemma SquareNotNegative(x: real)
    ensures Square(x) >= 0.0 && Square(-x) == Square(x) == Times(x, x) && (Square(x) == 0.0 ==> x == 0.0)
  {
    SquareIs(x);
    hide Square, Times;
    if x > 0.0 {
      Positive(x, x);
    } else if x < 0.0 {
      Positive(-x, -x);
    } else {
      Zero(x);
    }
  }

  lemma SquareIs(x: real)
    ensures Square(-x) == Square(x) == Times(x, x) == Times(-x, -x)
  {
  }

  lemma Undivided(x: real, d: real)
    requires d > 0.0
    ensures Times(d, x / d) == x
  {
  }

  lemma QuotientNotNegative(x: real, d: real)
    requires x >= 0.0 && d > 0.0
    ensures x / d >= 0.0 && (x > 0.0 ==> x / d > 0.0)
  {
  }

  lemma Associates(a: real, b: real, c: real)
    ensures Times(Times(a, b), c) == Times(a, Times(b, c))
  {
  }

  lemma Commutes(a: real, b: real)
    ensures Times(a, b) == Times(b, a)
  {
  }

  lemma Distributes(k: real, a: real, b: real)
    ensures Times(k, a + b) == Times(k, a) + Times(k, b) && Times(k, a - b) == Times(k, a) - Times(k, b)
  {
  }

  lemma Doubles(k: real, a: real)
    ensures Times(2.0 * k, a) == 2.0 * Times(k, a) && Times(4.0 * k, a) == 4.0 * Times(k, a)
  {
  }

  lemma Cancels(m: real, a: real, b: real)
    requires m > 0.0
    ensures Times(m, a) == Times(m, b) <==> a == b
    ensures Times(m, a) < Times(m, b) <==> a < b
  {
    Distributes(m, b, a);
    Distributes(m, a, b);
    hide Times;
    Zero(m);
    if a < b {
      Positive(m, b - a);
    } else if b < a {
      Positive(m, a - b);
    }
  }

  lemma SquaresGrow(s: real, t: real)
    requires 0.0 <= s < t
    ensures Square(s) < Square(t)
  {
    Positive(t - s, t + s);
    Difference(s, t);
    hide Square, Times;
  }

  lemma Difference(s: real, t: real)
    ensures Square(t) - Square(s) == Times(t - s, t + s)
  {
  }

  /** Squares compare as what they are squares of, signs aside. */
  lemma Within(x: real, t: real)
    requires t >= 0.0
    ensures Square(x) <= Square(t) <==> -t <= x <= t
    ensures Square(x) < Square(t) <==> -t < x < t
    ensures Square(x) == Square(t) <==> x == t || x == -t
  {
    var y := if x < 0.0 then -x else x;
    SquareNotNegative(x);
    hide Square;
    if y < t {
      SquaresGrow(y, t);
    } else if t < y {
      SquaresGrow(t, y);
    } else {
      assert y == t;
    }
  }

  lemma RootsAreUnique(s: real, t: real, x: real)
    requires IsRoot(s, x) && IsRoot(t, x)
    ensures s == t
  {
    Within(s, t);
    hide Square;
  }

  /** The root of a sum of two squares is no longer than the sides together, and no shorter than either. */
  lemma Hypotenuse(u: real, a: real, b: real)
    requires IsRoot(u, Square(a) + Square(b)) && a >= 0.0 && b >= 0.0
    ensures a <= u && b <= u && u <= a + b
    ensures (b > 0.0 ==> a < u) && (a > 0.0 ==> b < u)
  {
    SquareNotNegative(a);
    SquareNotNegative(b);
    Within(a, u);
    Within(b, u);
    Within(u, a + b);
    Binomial(a, b);
    NotNegative(a, b);
    hide Square, Times;
  }

  lemma Binomial(a: real, b: real)
    ensures Square(a + b) == Square(a) + Square(b) + 2.0 * Times(a, b)
  {
  }
}
