/** Three-component vectors over the reals, standing for the engine's `float3`.
    Rounding is not modelled: every component is an exact real. */
module Vectors {

  type PosReal = r: real | r > 0.0 witness 1.0

  /** The square root used by the engine. Its body lives in the C library, so the
      model only knows it as some function; lemmas that need its law require SqrtLaw(Sqrt). */
  const Sqrt: real -> real

  /** The law of a square root, stated of the function it is given so that only
      lemmas that name `SqrtLaw(Sqrt)` see it. */
  ghost predicate SqrtLaw(sqrt: real -> real) {
    forall x: real {:trigger sqrt(x)} :: 0.0 <= x ==> 0.0 <= sqrt(x) && sqrt(x) * sqrt(x) == x
  }

  /** The three coordinate axes, in the order x, y, z (indices 0, 1, 2). */
  datatype Axis = X | Y | Z

  datatype Float3 = Float3(x: real, y: real, z: real) {

    /** `v[axis]`. */
    function At(a: Axis): real {
      match a
      case X => x
      case Y => y
      case Z => z
    }

    function Add(v: Float3): Float3 {
      Float3(x + v.x, y + v.y, z + v.z)
    }

    function Sub(v: Float3): Float3 {
      Float3(x - v.x, y - v.y, z - v.z)
    }

    function Scale(k: real): Float3 {
      Float3(x * k, y * k, z * k)
    }

    /** Component-wise product, as in `float3(a.x * b.x, a.y * b.y, a.z * b.z)`. */
    function Mul(v: Float3): Float3 {
      Float3(x * v.x, y * v.y, z * v.z)
    }

    function Dot(v: Float3): real {
      x * v.x + y * v.y + z * v.z
    }

    function SqLength(): real {
      x * x + y * y + z * z
    }
  }

  const Zero := Float3(0.0, 0.0, 0.0)

  /** Division by a divisor known to be non-zero. Keeping the quotient behind
      this guard keeps a division by a possibly zero term out of the formulas. */
  function Quotient(x: real, y: real): real
    requires y != 0.0
  {
    x / y
  }

  lemma QuotientTimes(x: real, y: real)
    requires y != 0.0
    ensures Quotient(x, y) * y == x
  {
  }

  /** The point reached from p after travelling t along dir. */
  function PointAt(p: Float3, dir: Float3, t: real): Float3 {
    p.Add(dir.Scale(t))
  }

  /** `float3::Normalize`: divide by the length when it is non-zero; the zero vector is
      left as it is. (float3.h is not part of this model; this is the usual definition.) */
  function Normalize(v: Float3): Float3 {
    var len := Sqrt(v.SqLength());
    if len == 0.0 then v else v.Scale(Quotient(1.0, len))
  }

  function Min(a: real, b: real): real {
    if a < b then a else b
  }

  function Max(a: real, b: real): real {
    if a > b then a else b
  }

  /** The unit vector along an axis. */
  function UnitAxis(a: Axis): Float3 {
    match a
    case X => Float3(1.0, 0.0, 0.0)
    case Y => Float3(0.0, 1.0, 0.0)
    case Z => Float3(0.0, 0.0, 1.0)
  }

  /** Given the law of the square root, normalising a vector of non-zero length yields unit length. */
  lemma NormalizeUnitLength(v: Float3)
    requires SqrtLaw(Sqrt)
    requires v.SqLength() > 0.0
    ensures Normalize(v).SqLength() == 1.0
  {
    var s := v.SqLength();
    var len := Sqrt(s);
    assert len * len == s;
    assert len != 0.0;
    var k := Quotient(1.0, len);
    QuotientTimes(1.0, len);
    calc {
      Normalize(v).SqLength();
      (v.x * k) * (v.x * k) + (v.y * k) * (v.y * k) + (v.z * k) * (v.z * k);
      { assert (v.x * k) * (v.x * k) == (v.x * v.x) * (k * k);
        assert (v.y * k) * (v.y * k) == (v.y * v.y) * (k * k);
        assert (v.z * k) * (v.z * k) == (v.z * v.z) * (k * k); }
      s * (k * k);
      (len * len) * (k * k);
      { assert (len * len) * (k * k) == (k * len) * (k * len); }
      1.0;
    }
  }

  /** The squared length along a ray, expanded as a polynomial in the parameter. */
  lemma SqLengthAlongRay(o: Float3, dir: Float3, t: real)
    ensures PointAt(o, dir, t).SqLength() == o.SqLength() + 2.0 * t * o.Dot(dir) + t * t * dir.SqLength()
  {
    var p := PointAt(o, dir, t);
    assert p == Float3(o.x + dir.x * t, o.y + dir.y * t, o.z + dir.z * t);
    SquareOfSum(o.x, dir.x, t);
    SquareOfSum(o.y, dir.y, t);
    SquareOfSum(o.z, dir.z, t);
  }

  lemma SquareOfSum(a: real, b: real, t: real)
    ensures (a + b * t) * (a + b * t) == a * a + 2.0 * t * (a * b) + t * t * (b * b)
  {
  }

  /** A square is never negative. */
  lemma SquareNonNegative(r: real)
    ensures r * r >= 0.0
  {
    if r < 0.0 {
      assert r * r == (-r) * (-r);
    }
  }

  lemma ZeroProduct(a: real, b: real)
    requires a * b == 0.0 && a != 0.0
    ensures b == 0.0
  {
    assert b == (a * b) * (1.0 / a);
  }

  lemma DivideSquare(v: real)
    requires v != 0.0
    ensures v * v * (1.0 / v) == v
  {
  }

  /** Only zero squares to zero. */
  lemma SquareZero(v: real)
    requires v * v == 0.0
    ensures v == 0.0
  {
    if v != 0.0 {
      DivideSquare(v);
    }
  }

  /** Given its law, the square root of a square is the non-negative base. */
  lemma SqrtOfSquare(r: real)
    requires SqrtLaw(Sqrt) && r >= 0.0
    ensures Sqrt(r * r) == r
  {
    var s := Sqrt(r * r);
    SquareNonNegative(r);
    assert s >= 0.0 && s * s == r * r;
    if s != r {
      assert (s - r) * (s + r) == 0.0;
      ZeroProduct(s - r, s + r);
    }
  }
}
