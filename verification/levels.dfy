/**
 * Level arithmetic: free-field distance attenuation, room surface area and
 * the logarithmic sum of two levels.
 *
 * The base-10 logarithm and the power of ten are not computed here: they are
 * the two fields of a `Math` value that every caller passes in, and a lemma
 * that needs one of their laws names that law in its `requires`.
 */
module Levels {
  import opened Errors

  /** Python's `math.pi` rounded to 16 significant digits. */
  const Pi: real := 3.141592653589793

  /** The transcendental functions the core uses: `log10(x)` and `10 ** x`. */
  datatype Math = Math(log10: real -> real, pow10: real -> real)

  ghost predicate Pow10Positive(m: Math)
  {
    forall x :: 0.0 < m.pow10(x)
  }

  ghost predicate Log10InvertsPow10(m: Math)
  {
    forall x :: m.log10(m.pow10(x)) == x
  }

  ghost predicate Log10OfProduct(m: Math)
  {
    forall x, y :: 0.0 < x && 0.0 < y ==> m.log10(Product(x, y)) == m.log10(x) + m.log10(y)
  }

  ghost predicate Log10Increasing(m: Math)
  {
    forall x, y :: 0.0 < x < y ==> m.log10(x) < m.log10(y)
  }

  /** Python's `int(x)` on a float: truncation toward zero. */
  function TruncateTowardZero(x: real): (n: int)
    ensures 0.0 <= x ==> 0 <= n && n as real <= x < n as real + 1.0
    ensures x < 0.0 ==> n <= 0 && n as real - 1.0 < x <= n as real
  {
    if 0.0 <= x then x.Floor else -((-x).Floor)
  }

  function Abs(x: real): (a: real)
    ensures 0.0 <= a && (a == x || a == -x)
    ensures x != 0.0 ==> 0.0 < a
  {
    if x < 0.0 then -x else x
  }

  /**
   * A product of two reals, positive when both factors are. Naming the
   * product keeps the verifier from multiplying out `r·r` inside the
   * logarithms below, and lets the product law of `log10` apply only to
   * products a proof names, instead of to every pair of logarithms in sight.
   */
  function Product(x: real, y: real): (p: real)
    ensures 0.0 < x && 0.0 < y ==> 0.0 < p
  {
    x * y
  }

  /**
   * Python's `r ** 2`, written as `|r|·|r|` so that its positivity for
   * `r != 0` follows from `Product`'s contract; `SquareIsProduct` shows it
   * equals `r·r`.
   */
  function Square(r: real): real
  {
    Product(Abs(r), Abs(r))
  }

  lemma SquareIsProduct(r: real)
    ensures Square(r) == r * r
  {
    if r < 0.0 {
      assert Abs(r) == -r;
      assert (-r) * (-r) == r * r;
    }
  }

  /** The area `4·π·r²` of the sphere over which the power of a point source spreads. */
  function SphereArea(r: real): real
  {
    4.0 * Pi * Square(r)
  }

  /** The free-field term `10·log10(1 / (4·π·r²))` of a receiver at distance `r`. */
  function FreeFieldTerm(m: Math, r: real): real
    requires r != 0.0
  {
    SpherePositive(r);
    10.0 * m.log10(1.0 / SphereArea(r))
  }

  /**
   * `distance(l_w, r)`: the level `l_w` attenuated over distance `r`; dividing
   * by `4·π·r²` raises when `r` is zero.
   */
  function Distance(m: Math, lw: real, r: real): (lp: Result<real>)
    ensures lp.Ok? <==> r != 0.0
    ensures lp.Err? ==> lp.error == ZeroDivisionError
    ensures lp.Ok? ==> 0.0 < SphereArea(r) && 0.0 < 1.0 / SphereArea(r) && lp.value - lw == FreeFieldTerm(m, r)
  {
    if r == 0.0 then Err(ZeroDivisionError)
    else
      SpherePositive(r);
      Ok(lw + 10.0 * m.log10(1.0 / SphereArea(r)))
  }

  /** The sphere area and its reciprocal are positive for a non-zero radius. */
  lemma SpherePositive(r: real)
    requires r != 0.0
    ensures 0.0 < SphereArea(r) && 0.0 < 1.0 / SphereArea(r)
  {
    ProductPositive(4.0 * Pi, Square(r));
    ReciprocalPositive(SphereArea(r));
  }

  lemma ProductPositive(x: real, y: real)
    requires 0.0 < x && 0.0 < y
    ensures 0.0 < x * y
  {
  }

  lemma ReciprocalPositive(a: real)
    requires 0.0 < a
    ensures 0.0 < 1.0 / a
  {
    assert 1.0 / a * a == 1.0;
  }

  lemma ReciprocalDecreasing(a: real, b: real)
    requires 0.0 < a < b
    ensures 1.0 / b < 1.0 / a
  {
    ProductPositive(a, b);
    assert 1.0 / a - 1.0 / b == (b - a) / (a * b);
  }

  lemma SquareIncreasing(r1: real, r2: real)
    requires 0.0 < r1 < r2
    ensures Square(r1) < Square(r2)
  {
    assert Abs(r1) == r1 && Abs(r2) == r2;
    ProductPositive(r1, r2 - r1);
    ProductPositive(r2, r2 - r1);
  }

  /** The farther the receiver, the lower the level: the sphere grows with the radius. */
  lemma DistanceDecreasing(m: Math, lw: real, r1: real, r2: real)
    requires Log10Increasing(m)
    requires 0.0 < r1 < r2
    ensures Distance(m, lw, r2).value < Distance(m, lw, r1).value
  {
    SpherePositive(r1);
    SquareIncreasing(r1, r2);
    assert SphereArea(r1) < SphereArea(r2);
    ReciprocalDecreasing(SphereArea(r1), SphereArea(r2));
  }

  /** `surface(x, y, z)`: the total wall, floor and ceiling area of a rectangular room. */
  function Surface(x: real, y: real, z: real): (s: real)
    ensures 0.0 <= x && 0.0 <= y && 0.0 <= z ==> 0.0 <= s
    ensures 0.0 < x && 0.0 < y && 0.0 < z ==> 0.0 < s
  {
    2.0 * (x * y + y * z + x * z)
  }

  /**
   * The surface does not depend on which side is called which: the two
   * transpositions below generate all six orders of the sides.
   */
  lemma SurfaceSymmetric(x: real, y: real, z: real)
    ensures Surface(x, y, z) == Surface(y, x, z) == Surface(x, z, y)
  {
  }

  /** A 3 m × 2 m × 4 m room has 52 m² of surface, also when given as 2 × 4 × 3. */
  lemma SurfaceOfRoom()
    ensures Surface(3.0, 2.0, 4.0) == 52.0
    ensures Surface(2.0, 4.0, 3.0) == 52.0
  {
  }

  /**
   * `niveau_global`: the logarithmic (energy) sum of two levels, which is
   * louder than either of them.
   */
  function NiveauGlobal(m: Math, lw1: real, lw2: real): (l: real)
    ensures Pow10Positive(m) && Log10InvertsPow10(m) && Log10Increasing(m) ==>
      lw1 < l && lw2 < l
  {
    var p1 := m.pow10(lw1 / 10.0);
    var p2 := m.pow10(lw2 / 10.0);
    assert Pow10Positive(m) && Log10Increasing(m) ==>
      m.log10(p1) < m.log10(p1 + p2) && m.log10(p2) < m.log10(p1 + p2);
    10.0 * m.log10(p1 + p2)
  }

  /** The energy sum does not depend on the order of the two sources. */
  lemma NiveauGlobalCommutative(m: Math, lw1: real, lw2: real)
    ensures NiveauGlobal(m, lw1, lw2) == NiveauGlobal(m, lw2, lw1)
  {
  }

  /** Two equal sources are `10·log10(2)` (about 3 dB) louder than one. */
  lemma NiveauGlobalDoubling(m: Math, lw: real)
    requires Pow10Positive(m) && Log10InvertsPow10(m) && Log10OfProduct(m)
    ensures NiveauGlobal(m, lw, lw) == lw + 10.0 * m.log10(2.0)
  {
    var p := m.pow10(lw / 10.0);
    assert p + p == 2.0 * p;
    assert m.log10(Product(2.0, p)) == m.log10(2.0) + m.log10(p);
  }

  /** A power of ten of a larger exponent is not smaller, as seen through `log10`. */
  lemma Pow10Monotone(m: Math, x: real, y: real)
    requires Log10InvertsPow10(m) && Log10Increasing(m) && Pow10Positive(m)
    requires y <= x
    ensures m.pow10(y) <= m.pow10(x)
  {
  }

  /** `log10` never decreases. */
  lemma Log10Monotone(m: Math, x: real, y: real)
    requires Log10Increasing(m)
    requires 0.0 < x <= y
    ensures m.log10(x) <= m.log10(y)
  {
    if x < y {
      assert m.log10(x) < m.log10(y);
    }
  }

  /** The energy sum of two sources is at most `10·log10(2)` (about 3 dB) above the louder one. */
  lemma NiveauGlobalAtMostDoubling(m: Math, lw1: real, lw2: real)
    requires Pow10Positive(m) && Log10InvertsPow10(m) && Log10OfProduct(m) && Log10Increasing(m)
    ensures NiveauGlobal(m, lw1, lw2) <= (if lw1 < lw2 then lw2 else lw1) + 10.0 * m.log10(2.0)
  {
    var hi := if lw1 < lw2 then lw2 else lw1;
    var p1, p2, ph := m.pow10(lw1 / 10.0), m.pow10(lw2 / 10.0), m.pow10(hi / 10.0);
    Pow10Monotone(m, hi / 10.0, lw1 / 10.0);
    Pow10Monotone(m, hi / 10.0, lw2 / 10.0);
    assert 0.0 < p1 && 0.0 < p2 && 0.0 < ph;
    Log10Monotone(m, p1 + p2, 2.0 * ph);
    assert m.log10(Product(2.0, ph)) == m.log10(2.0) + m.log10(ph);
    assert m.log10(ph) == hi / 10.0;
  }
}
