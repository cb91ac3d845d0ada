/** Q3DLib.Measurement.Vector3: an immutable three-component vector with
    componentwise arithmetic, per-axis rotation, normalisation, cross and dot
    products and linear interpolation.  Components are `real` here. */
module Measurement {
  import opened Numerics

  datatype Vector3 = Vector3(x: real, y: real, z: real) {

    /** operator + */
    function Add(right: Vector3): Vector3
    {
      Vector3(x + right.x, y + right.y, z + right.z)
    }

    /** operator - (binary) */
    function Sub(right: Vector3): Vector3
    {
      Vector3(x - right.x, y - right.y, z - right.z)
    }

    /** operator * (vector times scalar) */
    function Scale(value: real): Vector3
    {
      Vector3(x * value, y * value, z * value)
    }

    /** operator / (vector divided by scalar), componentwise FloatDiv. */
    function Div(value: real): (r: Vector3)
      ensures value != 0.0 ==> r.Scale(value) == this
    {
      Vector3(FloatDiv(x, value), FloatDiv(y, value), FloatDiv(z, value))
    }

    /** operator - (unary) */
    function Neg(): Vector3
    {
      Vector3(-x, -y, -z)
    }

    /** operator == */
    function Eq(right: Vector3): (b: bool)
      ensures b <==> this == right
    {
      x == right.x && y == right.y && z == right.z
    }

    /** operator != */
    function Neq(right: Vector3): (b: bool)
      ensures b <==> this != right
    {
      !Eq(right)
    }

    /** Equals(object): `obj` is None when the object is not a Vector3 (or is null). */
    function Equals(obj: Option<Vector3>): (b: bool)
      ensures b <==> obj == Some(this)
    {
      obj.Some? && Eq(obj.value)
    }

    /** Rotation about the X axis by `theta` radians. */
    function RotateX(theta: real, m: MathF): (r: Vector3)
      ensures r.x == x
    {
      Vector3(x, m.cos(theta) * y + -m.sin(theta) * z, m.sin(theta) * y + m.cos(theta) * z)
    }

    /** Rotation about the Y axis by `theta` radians. */
    function RotateY(theta: real, m: MathF): (r: Vector3)
      ensures r.y == y
    {
      Vector3(m.cos(theta) * x + m.sin(theta) * z, y, -m.sin(theta) * x + m.cos(theta) * z)
    }

    /** Rotation about the Z axis by `theta` radians. */
    function RotateZ(theta: real, m: MathF): (r: Vector3)
      ensures r.z == z
    {
      Vector3(m.cos(theta) * x + -m.sin(theta) * y, m.sin(theta) * x + m.cos(theta) * y, z)
    }

    function Length(m: MathF): real
    {
      m.sqrt(x * x + y * y + z * z)
    }

    /** The zero vector for a zero length, otherwise the direction of this vector. */
    function Normalize(m: MathF): (r: Vector3)
      ensures Length(m) == 0.0 ==> r == ZERO
      ensures Length(m) != 0.0 ==> r.Scale(Length(m)) == this
    {
      if Length(m) == 0.0 then ZERO else Div(Length(m))
    }

    /** The cross product is perpendicular to both of its operands. */
    function Cross(other: Vector3): (r: Vector3)
      ensures r.Dot(this) == 0.0 && r.Dot(other) == 0.0
    {
      Vector3(y * other.z - z * other.y, z * other.x - x * other.z, x * other.y - y * other.x)
    }

    /** Linear interpolation: weight 0 gives this vector, weight 1 gives `to`. */
    function Lerp(to: Vector3, weight: real): (r: Vector3)
      ensures weight == 0.0 ==> r == this
      ensures weight == 1.0 ==> r == to
    {
      Add(to.Sub(this).Scale(weight))
    }

    function Dot(other: Vector3): real
    {
      x * other.x + y * other.y + z * other.z
    }
  }

  const ZERO: Vector3 := Vector3(0.0, 0.0, 0.0)
  const ONE: Vector3 := Vector3(1.0, 1.0, 1.0)
  const UNIT_X: Vector3 := Vector3(1.0, 0.0, 0.0)
  const UNIT_Y: Vector3 := Vector3(0.0, 1.0, 0.0)
  const UNIT_Z: Vector3 := Vector3(0.0, 0.0, 1.0)

  // ---------------------------------------------------------------------
  // Algebra of the componentwise operators

  lemma AddSubCancel(v: Vector3, w: Vector3)
    ensures v.Add(w).Sub(w) == v
    ensures v.Sub(w).Add(w) == v
  {
  }

  lemma SubSelf(v: Vector3)
    ensures v.Sub(v) == ZERO
  {
  }

  lemma NegInvolution(v: Vector3)
    ensures v.Neg().Neg() == v
    ensures v.Add(v.Neg()) == ZERO
  {
  }

  lemma NeqIsNotEq(v: Vector3, w: Vector3)
    ensures v.Neq(w) == !v.Eq(w)
    ensures v.Equals(Some(w)) == v.Eq(w)
    ensures !v.Equals(None)
  {
  }

  // ---------------------------------------------------------------------
  // Products

  lemma DotSymmetric(v: Vector3, w: Vector3)
    ensures v.Dot(w) == w.Dot(v)
  {
  }

  lemma CrossSelf(v: Vector3)
    ensures v.Cross(v) == ZERO
  {
  }

  lemma CrossAntiCommutative(v: Vector3, w: Vector3)
    ensures v.Cross(w) == w.Cross(v).Neg()
  {
  }

  lemma SumOfSquares(a: real, b: real, c: real)
    ensures a * a + b * b + c * c >= 0.0
    ensures a != 0.0 || b != 0.0 || c != 0.0 ==> a * a + b * b + c * c > 0.0
  {
  }

  // ---------------------------------------------------------------------
  // Normalisation

  /** The length is zero exactly for the zero vector. */
  lemma LengthZeroIff(v: Vector3, m: MathF)
    requires SqrtLaws(m)
    ensures v.Length(m) >= 0.0
    ensures v.Length(m) == 0.0 <==> v == ZERO
  {
    SumOfSquares(v.x, v.y, v.z);
  }

  /** Normalize yields the zero vector exactly for the zero vector. */
  lemma NormalizeZeroIff(v: Vector3, m: MathF)
    requires SqrtLaws(m)
    ensures v.Normalize(m) == ZERO <==> v == ZERO
  {
    LengthZeroIff(v, m);
    if v != ZERO {
      var n := v.Normalize(m);
      assert n.Scale(v.Length(m)) == v;
      assert ZERO.Scale(v.Length(m)) == ZERO;
    }
  }

  /** A normalised non-zero vector has unit length, for an exact square root. */
  lemma NormalizeUnitLength(v: Vector3, m: MathF)
    requires SqrtLaws(m) && ExactSqrt(m) && v != ZERO
    ensures v.Normalize(m).Dot(v.Normalize(m)) == 1.0
  {
    LengthZeroIff(v, m);
    var S := v.x * v.x + v.y * v.y + v.z * v.z;
    var L := v.Length(m);
    var n := v.Normalize(m);
    assert L * L == S;
    assert L != 0.0;
    assert n.Scale(L) == v;
    calc {
      n.Dot(n) * (L * L);
      (n.x * L) * (n.x * L) + (n.y * L) * (n.y * L) + (n.z * L) * (n.z * L);
      S;
      1.0 * (L * L);
    }
  }

  // ---------------------------------------------------------------------
  // Rotations

  lemma RotateXInverse(v: Vector3, theta: real, m: MathF)
    requires TrigLaws(m)
    ensures v.RotateX(theta, m).RotateX(-theta, m) == v
  {
    var c, s := m.cos(theta), m.sin(theta);
    assert m.cos(-theta) == c && m.sin(-theta) == -s;
    assert s * s + c * c == 1.0;
    var r := v.RotateX(theta, m);
    var back := r.RotateX(-theta, m);
    assert back.y == c * (c * v.y - s * v.z) + s * (s * v.y + c * v.z);
    assert back.y == (c * c + s * s) * v.y;
    assert back.z == -s * (c * v.y - s * v.z) + c * (s * v.y + c * v.z);
    assert back.z == (s * s + c * c) * v.z;
  }

  lemma RotateYInverse(v: Vector3, theta: real, m: MathF)
    requires TrigLaws(m)
    ensures v.RotateY(theta, m).RotateY(-theta, m) == v
  {
    var c, s := m.cos(theta), m.sin(theta);
    assert m.cos(-theta) == c && m.sin(-theta) == -s;
    assert s * s + c * c == 1.0;
    var r := v.RotateY(theta, m);
    var back := r.RotateY(-theta, m);
    assert back.x == c * (c * v.x + s * v.z) + -s * (-s * v.x + c * v.z);
    assert back.x == (c * c + s * s) * v.x;
    assert back.z == s * (c * v.x + s * v.z) + c * (-s * v.x + c * v.z);
    assert back.z == (s * s + c * c) * v.z;
  }

  lemma RotateZInverse(v: Vector3, theta: real, m: MathF)
    requires TrigLaws(m)
    ensures v.RotateZ(theta, m).RotateZ(-theta, m) == v
  {
    var c, s := m.cos(theta), m.sin(theta);
    assert m.cos(-theta) == c && m.sin(-theta) == -s;
    assert s * s + c * c == 1.0;
    var r := v.RotateZ(theta, m);
    var back := r.RotateZ(-theta, m);
    assert back.x == c * (c * v.x - s * v.y) + s * (s * v.x + c * v.y);
    assert back.x == (c * c + s * s) * v.x;
    assert back.y == -s * (c * v.x - s * v.y) + c * (s * v.x + c * v.y);
    assert back.y == (s * s + c * c) * v.y;
  }

  /** A plane rotation by an angle with cosine c and sine s keeps a * a + b * b. */
  lemma PlaneRotationKeepsNorm(c: real, s: real, a: real, b: real)
    requires s * s + c * c == 1.0
    ensures (c * a + -s * b) * (c * a + -s * b) + (s * a + c * b) * (s * a + c * b) == a * a + b * b
  {
    var p := c * a + -s * b;
    var q := s * a + c * b;
    assert p * p == c * c * (a * a) - 2.0 * (c * s) * (a * b) + s * s * (b * b);
    assert q * q == s * s * (a * a) + 2.0 * (c * s) * (a * b) + c * c * (b * b);
    assert p * p + q * q == (c * c + s * s) * (a * a) + (c * c + s * s) * (b * b);
  }

  /** Rotating about the X axis keeps the squared length. */
  lemma RotateXKeepsLength(v: Vector3, theta: real, m: MathF)
    requires TrigLaws(m)
    ensures v.RotateX(theta, m).Dot(v.RotateX(theta, m)) == v.Dot(v)
  {
    var c, s := m.cos(theta), m.sin(theta);
    assert s * s + c * c == 1.0;
    PlaneRotationKeepsNorm(c, s, v.y, v.z);
  }

  /** Rotating about the Y axis keeps the squared length. */
  lemma RotateYKeepsLength(v: Vector3, theta: real, m: MathF)
    requires TrigLaws(m)
    ensures v.RotateY(theta, m).Dot(v.RotateY(theta, m)) == v.Dot(v)
  {
    var c, s := m.cos(theta), m.sin(theta);
    assert s * s + c * c == 1.0;
    PlaneRotationKeepsNorm(c, s, v.z, v.x);
    var r := v.RotateY(theta, m);
    assert r.z == c * v.z + -s * v.x;
    assert r.x == s * v.z + c * v.x;
  }

  /** Rotating about the Z axis keeps the squared length. */
  lemma RotateZKeepsLength(v: Vector3, theta: real, m: MathF)
    requires TrigLaws(m)
    ensures v.RotateZ(theta, m).Dot(v.RotateZ(theta, m)) == v.Dot(v)
  {
    var c, s := m.cos(theta), m.sin(theta);
    assert s * s + c * c == 1.0;
    PlaneRotationKeepsNorm(c, s, v.x, v.y);
  }

  /** A rotation by angle zero is the identity. */
  lemma RotateByZero(v: Vector3, m: MathF)
    requires TrigLaws(m)
    ensures v.RotateX(0.0, m) == v && v.RotateY(0.0, m) == v && v.RotateZ(0.0, m) == v
  {
    SinZero(m);
  }
}
