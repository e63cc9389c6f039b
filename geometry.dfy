/**
 * The straight-line distance estimate: an equirectangular projection with
 * 111320 m per degree and longitude further scaled by the constant 0.7.
 */
module Geometry {

  /** A position in decimal degrees. */
  datatype Coord = Coord(lat: real, lng: real)

  const METERS_PER_DEGREE: real := 111320.0
  const LONGITUDE_FACTOR: real := 0.7

  /** Products and squares go through these functions so that the solver does not expand them as nonlinear arithmetic. */
  function Product(a: real, b: real): real { a * b }

  function Square(v: real): real { Product(v, v) }

  /** The squared projected distance: (dLat * 111320)^2 + (dLng * 111320 * 0.7)^2. */
  function SquaredSpan(origin: Coord, dest: Coord): (sq: real)
    ensures sq >= 0.0
    ensures origin == dest ==> sq == 0.0
    ensures origin != dest ==> sq > 0.0
  {
    var dLat := (dest.lat - origin.lat) * METERS_PER_DEGREE;
    var dLng := (dest.lng - origin.lng) * METERS_PER_DEGREE * LONGITUDE_FACTOR;
    SquareSign(dLat);
    SquareSign(dLng);
    Square(dLat) + Square(dLng)
  }

  const NEWTON_STEPS: nat := 30

  /**
   * The square root. Python's `** 0.5` is a floating-point root; exact
   * roots of rationals are not rational, so the model takes a fixed
   * number of Newton steps from above. The root is non-negative and zero
   * exactly at zero; `SqrtAbove` shows it is never below the true root.
   */
  function Sqrt(x: real): (r: real)
    requires x >= 0.0
    ensures x == 0.0 ==> r == 0.0
    ensures x > 0.0 ==> r > 0.0
  {
    if x == 0.0 then 0.0 else Newton(x, x + 1.0, NEWTON_STEPS)
  }

  /** The root squared is at least the radicand. */
  lemma SqrtAbove(x: real)
    requires x >= 0.0
    ensures Sqrt(x) >= 0.0 && Square(Sqrt(x)) >= x
  {
    if x == 0.0 {
      SquareSign(0.0);
    } else {
      StartsAbove(x);
      NewtonAbove(x, x + 1.0, NEWTON_STEPS);
    }
  }

  /** x + 1 is above the root of x. */
  lemma StartsAbove(x: real)
    requires x >= 0.0
    ensures Square(x + 1.0) >= x
  {
    SquareSign(x);
    ExpandSquare(x, 1.0);
  }

  /** `steps` Newton iterations for the root of `x`, starting at `guess`. */
  function Newton(x: real, guess: real, steps: nat): (r: real)
    requires x > 0.0 && guess > 0.0
    ensures r > 0.0
    decreases steps
  {
    if steps == 0 then
      guess
    else
      QuotientPositive(x, guess);
      Newton(x, (guess + x / guess) / 2.0, steps - 1)
  }

  lemma QuotientPositive(x: real, g: real)
    requires x > 0.0 && g > 0.0
    ensures x / g > 0.0
  {
  }

  /** Starting above the root, every iterate stays above it and below the start. */
  lemma {:induction false} NewtonAbove(x: real, guess: real, steps: nat)
    requires x > 0.0 && guess > 0.0 && Square(guess) >= x
    ensures Newton(x, guess, steps) <= guess && Square(Newton(x, guess, steps)) >= x
    decreases steps
  {
    if steps > 0 {
      NewtonStep(x, guess);
      NewtonAbove(x, (guess + x / guess) / 2.0, steps - 1);
    }
  }

  /** One Newton step from above the root stays positive, above the root, and does not grow. */
  lemma NewtonStep(x: real, guess: real)
    requires x > 0.0 && guess > 0.0 && Square(guess) >= x
    ensures var next := (guess + x / guess) / 2.0;
      0.0 < next <= guess && Square(next) >= x
  {
    QuotientBelow(x, guess);
    var q := x / guess;
    SquareSign(guess - q);
    MeanSquare(guess, q);
  }

  /** For a guess above the root, x / guess is positive and not above the guess. */
  lemma QuotientBelow(x: real, g: real)
    requires x > 0.0 && g > 0.0 && Square(g) >= x
    ensures 0.0 < x / g <= g
    ensures Product(g, x / g) == x
  {
    var q := x / g;
    assert g * q == x;
    assert Product(q, g) == x;
    if q > g {
      MulMonotone(q, g, g);
    }
  }

  lemma ProductPositive(a: real, b: real)
    requires a > 0.0 && b > 0.0
    ensures Product(a, b) > 0.0
  {
  }

  lemma ProductOfNegatives(a: real, b: real)
    requires a < 0.0 && b < 0.0
    ensures Product(a, b) > 0.0
  {
    ProductPositive(-a, -b);
    assert (-a) * (-b) == a * b;
  }

  lemma MulMonotone(a: real, b: real, c: real)
    requires a > b && c > 0.0
    ensures Product(a, c) > Product(b, c)
  {
    ProductPositive(a - b, c);
    assert (a - b) * c == a * c - b * c;
  }

  /** A square is never negative, and positive away from zero. */
  lemma SquareSign(v: real)
    ensures Square(v) >= 0.0
    ensures v == 0.0 ==> Square(v) == 0.0
    ensures v != 0.0 ==> Square(v) > 0.0
  {
    if v > 0.0 {
      ProductPositive(v, v);
    } else if v < 0.0 {
      ProductOfNegatives(v, v);
    }
  }

  /** (a + b)^2 = a^2 + 2ab + b^2. */
  lemma ExpandSquare(a: real, b: real)
    ensures Square(a + b) == Square(a) + 2.0 * Product(a, b) + Square(b)
  {
    assert (a + b) * (a + b) == a * a + 2.0 * (a * b) + b * b;
  }

  /** The square of the mean of g and q exceeds their product by a quarter of the squared gap. */
  lemma MeanSquare(g: real, q: real)
    ensures Square((g + q) / 2.0) == Product(g, q) + Square(g - q) / 4.0
  {
    assert ((g + q) / 2.0) * ((g + q) / 2.0) == (g * g + 2.0 * (g * q) + q * q) / 4.0;
    assert (g - q) * (g - q) == g * g - 2.0 * (g * q) + q * q;
  }

  /** The straight-line estimate in meters. */
  function StraightLine(origin: Coord, dest: Coord): (d: real)
    ensures origin == dest ==> d == 0.0
    ensures origin != dest ==> d > 0.0
  {
    Sqrt(SquaredSpan(origin, dest))
  }

  /** The estimate does not depend on the direction of travel. */
  lemma StraightLineSymmetric(a: Coord, b: Coord)
    ensures StraightLine(a, b) == StraightLine(b, a)
  {
    var dLat := (b.lat - a.lat) * METERS_PER_DEGREE;
    var dLng := (b.lng - a.lng) * METERS_PER_DEGREE * LONGITUDE_FACTOR;
    NegatedSquare(dLat);
    NegatedSquare(dLng);
    assert (a.lat - b.lat) * METERS_PER_DEGREE == -dLat;
    assert (a.lng - b.lng) * METERS_PER_DEGREE * LONGITUDE_FACTOR == -dLng;
    assert SquaredSpan(a, b) == SquaredSpan(b, a);
  }

  lemma NegatedSquare(v: real)
    ensures Square(-v) == Square(v)
  {
    assert (-v) * (-v) == v * v;
  }
}
