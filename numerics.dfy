/** Shared numeric vocabulary of the simulator: Python floats as reals, the
    extended value +infinity, Python's int() on floats, three-component
    vectors (pygame's Vector3) and the math-library functions the source
    calls, which are passed around as parameters. */
module Numerics {

  const PI: real := 3.141592653589793

  datatype Option<T> = None | Some(value: T)

  function Min(a: real, b: real): real { if a <= b then a else b }
  function Max(a: real, b: real): real { if a >= b then a else b }
  function Abs(x: real): real { if x < 0.0 then -x else x }

  /** A float that may also be +infinity (Python's float('inf')). */
  datatype Extended = Finite(value: real) | PosInf {
    /** this < r, as Python compares float('inf') with a finite number */
    predicate Below(r: real) { Finite? && value < r }
    /** this <= r */
    predicate AtMost(r: real) { Finite? && value <= r }
  }

  /** Python's builtin min on two floats, one of which may be +infinity. */
  function MinExtended(a: Extended, b: Extended): (r: Extended)
    ensures r == a || r == b
    ensures r.PosInf? <==> a.PosInf? && b.PosInf?
    ensures r.Finite? && a.Finite? ==> r.value <= a.value
    ensures r.Finite? && b.Finite? ==> r.value <= b.value
  {
    match (a, b)
    case (PosInf, _) => b
    case (_, PosInf) => a
    case (Finite(x), Finite(y)) => if y < x then b else a
  }

  /** Python's int() applied to a float: truncation toward zero, which is
      not the floor for negative arguments. */
  function Trunc(r: real): (i: int)
    ensures 0.0 <= r ==> i as real <= r < i as real + 1.0
    ensures r < 0.0 ==> i as real - 1.0 < r <= i as real
    ensures 0.0 <= r ==> i == r.Floor
  {
    if r >= 0.0 then r.Floor else -((-r).Floor)
  }

  /** int() of a non-negative float is monotone. */
  lemma TruncMonotone(a: real, b: real)
    requires 0.0 <= a <= b
    ensures Trunc(a) <= Trunc(b)
  {
  }

  /** On negative non-integers int() is one more than the floor. */
  lemma TruncAboveFloor(r: real)
    requires r < 0.0 && r != r.Floor as real
    ensures Trunc(r) == r.Floor + 1
  {
  }

  /** The math functions the source calls (math.sqrt, math.exp, math.sin,
      math.cos, math.tan, and Vector3.length through sqrt). Their numeric
      values are not modelled; Valid() lists the only facts the model uses. */
  datatype MathLib = MathLib(
    sqrt: real -> real,
    exp: real -> real,
    sin: real -> real,
    cos: real -> real,
    tan: real -> real)
  {
    ghost predicate Valid() {
      // math.sqrt returns the non-negative root of a non-negative argument
      && (forall x :: 0.0 <= x ==> 0.0 <= sqrt(x) && sqrt(x) * sqrt(x) == x)
      // math.exp is positive
      && (forall x :: 0.0 < exp(x))
      // on floats, math.tan returns 0.0 only at 0.0 and math.cos never 0.0
      && (forall x :: tan(x) == 0.0 <==> x == 0.0)
      && (forall x :: cos(x) != 0.0)
      // sin^2 + cos^2 = 1 (up to rounding, which the model does not track)
      && (forall x :: sin(x) * sin(x) + cos(x) * cos(x) == 1.0)
      // a 30 degree bank has a positive tangent
      && 0.0 < tan(PI / 6.0)
    }
  }

  lemma SquareStrictlyMonotone(a: real, b: real)
    requires 0.0 <= a < b
    ensures a * a < b * b
  {
    var aa, ab, bb := a * a, a * b, b * b;
    assert aa <= ab by { assert ab - aa == a * (b - a); }
    assert ab < bb by { assert bb - ab == b * (b - a); assert 0.0 < b; }
  }

  lemma SqrtMonotone(m: MathLib, a: real, b: real)
    requires m.Valid() && 0.0 <= a <= b
    ensures m.sqrt(a) <= m.sqrt(b)
  {
    if m.sqrt(b) < m.sqrt(a) {
      SquareStrictlyMonotone(m.sqrt(b), m.sqrt(a));
    }
  }

  lemma SqrtOfSquare(m: MathLib, a: real)
    requires m.Valid() && 0.0 <= a
    ensures m.sqrt(a * a) == a
  {
    var s := m.sqrt(a * a);
    assert 0.0 <= s && s * s == a * a;
    if s < a {
      SquareStrictlyMonotone(s, a);
    } else if a < s {
      SquareStrictlyMonotone(a, s);
    }
  }

  lemma SqrtZeroIff(m: MathLib, x: real)
    requires m.Valid() && 0.0 <= x
    ensures m.sqrt(x) == 0.0 <==> x == 0.0
    ensures 0.0 < x ==> 0.0 < m.sqrt(x)
  {
    SqrtOfSquare(m, 0.0);
  }

  /** pygame.math.Vector3 */
  datatype Vec3 = Vec3(x: real, y: real, z: real) {
    function Plus(o: Vec3): Vec3 { Vec3(x + o.x, y + o.y, z + o.z) }
    function Scale(k: real): Vec3 { Vec3(k * x, k * y, k * z) }
    function LengthSq(): real { x * x + y * y + z * z }
    /** Vector3.dot() */
    function Dot(o: Vec3): real { x * o.x + y * o.y + z * o.z }
    /** Vector3.length() */
    function Length(m: MathLib): real { m.sqrt(LengthSq()) }
  }

  const ZERO: Vec3 := Vec3(0.0, 0.0, 0.0)

  lemma SquareSigns(a: real)
    ensures 0.0 <= a * a
    ensures a != 0.0 ==> 0.0 < a * a
  {
    if a < 0.0 {
      var n := -a;
      assert 0.0 < n * n;
      assert a * a == n * n;
    }
  }

  /** a * a, kept behind a function so that the solver treats the square
      as one term. */
  function Square(a: real): real { a * a }

  lemma SquareBounds(a: real)
    ensures 0.0 <= Square(a)
    ensures 0.0 < a ==> 0.0 < Square(a)
  {
    if a < 0.0 {
      assert Square(a) == (-a) * (-a);
    } else if 0.0 < a {
      calc {
        Square(a);
        a * a;
      > { assert a * a > 0.0 * a; }
        0.0;
      }
    }
  }

  lemma LengthSqNonNegative(v: Vec3)
    ensures 0.0 <= v.LengthSq()
  {
    SquareSigns(v.x);
    SquareSigns(v.y);
    SquareSigns(v.z);
  }

  lemma LengthNonNegative(m: MathLib, v: Vec3)
    requires m.Valid()
    ensures 0.0 <= v.Length(m)
    ensures v.Length(m) * v.Length(m) == v.LengthSq()
  {
    LengthSqNonNegative(v);
  }

  /** Scaling a vector by k scales its squared length by k * k. */
  lemma ScaleLengthSq(v: Vec3, k: real)
    ensures v.Scale(k).LengthSq() == k * k * v.LengthSq()
  {
  }

  /** Vector3.normalize() yields a unit vector. */
  lemma NormalizedIsUnit(m: MathLib, v: Vec3)
    requires m.Valid() && 0.0 < v.Length(m)
    ensures v.Scale(1.0 / v.Length(m)).LengthSq() == 1.0
  {
    LengthNonNegative(m, v);
    ScaleLengthSq(v, 1.0 / v.Length(m));
  }

  /** A normalised vector scaled by a non-negative limit has that length. */
  lemma RescaledLength(m: MathLib, v: Vec3, limit: real)
    requires m.Valid() && 0.0 < v.Length(m) && 0.0 <= limit
    ensures v.Scale(1.0 / v.Length(m)).Scale(limit).Length(m) == limit
  {
    var unit := v.Scale(1.0 / v.Length(m));
    NormalizedIsUnit(m, v);
    ScaleLengthSq(unit, limit);
    assert limit * limit * unit.LengthSq() == limit * limit * 1.0;
    assert unit.Scale(limit).LengthSq() == limit * limit;
    SqrtOfSquare(m, limit);
  }

  /** Zeroing the vertical component never lengthens a vector. */
  lemma DropVerticalShortens(m: MathLib, v: Vec3)
    requires m.Valid()
    ensures v.(y := 0.0).Length(m) <= v.Length(m)
  {
    SquareSigns(v.y);
    LengthSqNonNegative(v.(y := 0.0));
    SqrtMonotone(m, v.(y := 0.0).LengthSq(), v.LengthSq());
  }

  // Small facts of real arithmetic used by the proofs.

  lemma ProductPositive(a: real, b: real)
    requires 0.0 < a && 0.0 < b
    ensures 0.0 < a * b
  {
  }

  /** With a positive factor w, the sign of p * w is the sign of p. */
  lemma QuotientSign(p: real, w: real)
    requires 0.0 < w
    ensures 0.0 < p * w <==> 0.0 < p
    ensures p * w < 0.0 <==> p < 0.0
  {
    if 0.0 < p {
      ProductPositive(p, w);
    } else if p < 0.0 {
      ProductPositive(-p, w);
      assert (-p) * w == -(p * w);
    } else {
      assert p * w == 0.0 * w;
    }
  }

  lemma NonZeroProduct(a: real, b: real)
    requires a != 0.0 && b != 0.0
    ensures a * b != 0.0
  {
  }

  lemma MulAssoc(a: real, b: real, c: real)
    ensures (a * b) * c == a * (b * c)
  {
  }

  lemma MulComm(a: real, b: real)
    ensures a * b == b * a
  {
  }

  lemma CancelFactor(a: real, b: real, c: real)
    requires c != 0.0 && a * c == b * c
    ensures a == b
  {
    assert a == a * c / c;
    assert b == b * c / c;
  }

  lemma ProductNonNegative(a: real, b: real)
    requires 0.0 <= a && 0.0 <= b
    ensures 0.0 <= a * b
  {
    if 0.0 < a && 0.0 < b {
      ProductPositive(a, b);
    }
  }

  lemma StrictScale(a: real, b: real, c: real)
    requires a < b && 0.0 < c
    ensures a * c < b * c
  {
    ProductPositive(b - a, c);
    assert (b - a) * c == b * c - a * c;
  }

  lemma ScaleMonotone(small: real, large: real, factor: real)
    requires small <= large && 0.0 <= factor
    ensures factor * small <= factor * large
  {
    ProductNonNegative(factor, large - small);
    assert factor * (large - small) == factor * large - factor * small;
  }

  lemma UnitProduct(a: real, b: real)
    requires 0.0 <= a <= 1.0 && 0.0 <= b <= 1.0
    ensures 0.0 <= a * b <= 1.0
  {
    assert a * b <= a * 1.0 by {
      assert a * (1.0 - b) == a - a * b;
      if 0.0 < a && b < 1.0 {
        assert 0.0 < a * (1.0 - b);
      }
    }
    if 0.0 < a && 0.0 < b {
      assert 0.0 < a * b;
    }
  }

  lemma ScaleUnit(c: real, u: real)
    requires 0.0 <= c && 0.0 <= u <= 1.0
    ensures 0.0 <= c * u <= c
  {
    assert c - c * u == c * (1.0 - u);
    if 0.0 < c && u < 1.0 {
      assert 0.0 < c * (1.0 - u);
    }
    if 0.0 < c && 0.0 < u {
      assert 0.0 < c * u;
    }
  }

  /** If p * c == q * d with 0 < c <= d and p not negative, then q <= p. */
  lemma ProductOrder(p: real, q: real, c: real, d: real)
    requires 0.0 <= p && 0.0 < c <= d && p * c == q * d
    ensures q <= p
  {
    if p < q {
      StrictScale(p, q, c);
      ScaleMonotone(c, d, q);
      MulComm(q, c);
      MulComm(q, d);
    }
  }

  lemma PositiveProduct3(a: real, b: real, c: real)
    requires 0.0 < a && 0.0 < b && 0.0 < c
    ensures 0.0 < a * b * c
  {
    assert 0.0 < a * b;
  }
}
