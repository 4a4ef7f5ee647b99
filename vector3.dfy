/**
 * Vector3<int>: a three-component integer vector. The binary and unary
 * operators, comparisons, Dot, LengthSquared, Cross and the direction
 * constants compute values; the compound assignments and Set update a
 * vector in place (Vec3Ref). Integer division truncates toward zero.
 */
module Vector3 {
  import opened VkTypes

  datatype Vec3 = Vec3(x: int, y: int, z: int)

  const Zero: Vec3 := Vec3(0, 0, 0)

  function Add(lhs: Vec3, rhs: Vec3): (r: Vec3)
    ensures r.x == lhs.x + rhs.x && r.y == lhs.y + rhs.y && r.z == lhs.z + rhs.z
  {
    Vec3(lhs.x + rhs.x, lhs.y + rhs.y, lhs.z + rhs.z)
  }

  function Sub(lhs: Vec3, rhs: Vec3): (r: Vec3)
    ensures Add(r, rhs) == lhs
  {
    Vec3(lhs.x - rhs.x, lhs.y - rhs.y, lhs.z - rhs.z)
  }

  /** Unary minus. */
  function Neg(a: Vec3): (r: Vec3)
    ensures Add(a, r) == Zero
  {
    Vec3(-a.x, -a.y, -a.z)
  }

  /** `vector * scalar`. */
  function Scale(lhs: Vec3, k: int): Vec3
  {
    Vec3(lhs.x * k, lhs.y * k, lhs.z * k)
  }

  /** `vector / scalar`, truncating each component; dividing by zero is undefined in C++. */
  function Div(lhs: Vec3, k: int): (r: Vec3)
    requires k != 0
    ensures TruncatedQuotient(r.x, lhs.x, k) && TruncatedQuotient(r.y, lhs.y, k) && TruncatedQuotient(r.z, lhs.z, k)
  {
    Vec3(TDiv(lhs.x, k), TDiv(lhs.y, k), TDiv(lhs.z, k))
  }

  /** Component-wise product, the effect of `*= vector`. */
  function Mul(lhs: Vec3, rhs: Vec3): Vec3
  {
    Vec3(lhs.x * rhs.x, lhs.y * rhs.y, lhs.z * rhs.z)
  }

  predicate Equal(lhs: Vec3, rhs: Vec3)
  {
    lhs.x == rhs.x && lhs.y == rhs.y && lhs.z == rhs.z
  }

  predicate NotEqual(lhs: Vec3, rhs: Vec3)
  {
    !Equal(lhs, rhs)
  }

  function Dot(a: Vec3, b: Vec3): int
  {
    a.x * b.x + a.y * b.y + a.z * b.z
  }

  function LengthSquared(a: Vec3): int
  {
    a.x * a.x + a.y * a.y + a.z * a.z
  }

  /** Cross as written: its x component multiplies `x` by `other.z` where the cross product has `y`. */
  function Cross(a: Vec3, other: Vec3): Vec3
  {
    Vec3(a.x * other.z - other.y * a.z, -(a.x * other.z - other.x * a.z), a.x * other.y - other.x * a.y)
  }

  /** The cross product the function's name promises: perpendicular to both of its operands. */
  function CrossIntended(a: Vec3, other: Vec3): Vec3
  {
    Vec3(a.y * other.z - other.y * a.z, -(a.x * other.z - other.x * a.z), a.x * other.y - other.x * a.y)
  }

  const Up: Vec3 := Vec3(0, 1, 0)
  const Down: Vec3 := Vec3(0, -1, 0)
  const Left: Vec3 := Vec3(-1, 0, 0)
  const Right: Vec3 := Vec3(1, 0, 0)
  const Forwards: Vec3 := Vec3(0, 0, 1)
  const Backwards: Vec3 := Vec3(0, 0, -1)

  /** `==` is exactly component-wise equality, and `!=` its negation. */
  lemma EqualIsEquality(a: Vec3, b: Vec3)
    ensures Equal(a, b) <==> a == b
    ensures NotEqual(a, b) <==> a != b
  {
  }

  /** Subtraction undoes addition, negation is its own inverse, and dividing undoes scaling by a non-zero scalar. */
  lemma {:induction false} ScaleDivRoundTrip(a: Vec3, b: Vec3, k: int)
    requires k != 0
    ensures Sub(Add(a, b), b) == a
    ensures Neg(Neg(a)) == a && Sub(a, b) == Add(a, Neg(b))
    ensures Div(Scale(a, k), k) == a
  {
    TDivMultiple(a.x, k);
    TDivMultiple(a.y, k);
    TDivMultiple(a.z, k);
  }

  /** Dot is symmetric, and a vector's dot product with itself is its squared length. */
  lemma DotSymmetric(a: Vec3, b: Vec3)
    ensures Dot(a, b) == Dot(b, a)
    ensures LengthSquared(a) == Dot(a, a)
  {
  }

  /** The squared length is never negative, and zero only for the zero vector. */
  lemma {:induction false} LengthSquaredZero(a: Vec3)
    ensures LengthSquared(a) >= 0
    ensures LengthSquared(a) == 0 <==> a == Zero
  {
    SquarePositive(a.x);
    SquarePositive(a.y);
    SquarePositive(a.z);
  }

  /** Dot with Right, Up or Forwards picks out the x, y or z component. */
  lemma DotWithDirections(a: Vec3)
    ensures Dot(a, Right) == a.x && Dot(a, Up) == a.y && Dot(a, Forwards) == a.z
  {
  }

  /** Down, Left and Backwards are the negations of Up, Right and Forwards. */
  lemma DirectionsOpposite()
    ensures Down == Neg(Up) && Left == Neg(Right) && Backwards == Neg(Forwards)
  {
  }

  /** Up, Right and Forwards are unit vectors. */
  lemma {:induction false} DirectionsUnit()
    ensures LengthSquared(Up) == 1 && LengthSquared(Right) == 1 && LengthSquared(Forwards) == 1
  {
    DotSymmetric(Up, Up);
    DotSymmetric(Right, Right);
    DotSymmetric(Forwards, Forwards);
    DotWithDirections(Up);
    DotWithDirections(Right);
    DotWithDirections(Forwards);
  }

  /** Up, Right and Forwards are mutually perpendicular. */
  lemma {:induction false} DirectionsPerpendicular()
    ensures Dot(Up, Right) == 0 && Dot(Up, Forwards) == 0 && Dot(Right, Forwards) == 0
  {
    DotWithDirections(Up);
    DotWithDirections(Right);
  }

  /** The intended cross product is perpendicular to both of its operands. */
  lemma CrossIntendedPerpendicular(a: Vec3, other: Vec3)
    ensures Dot(CrossIntended(a, other), a) == 0
    ensures Dot(CrossIntended(a, other), other) == 0
  {
  }

  /** Along the axes the intended cross product is right-handed: x × y lies along z, y × z along x, z × x along y. */
  lemma CrossIntendedOfAxes(p: int, q: int)
    ensures CrossIntended(Vec3(p, 0, 0), Vec3(0, q, 0)) == Vec3(0, 0, p * q)
    ensures CrossIntended(Vec3(0, p, 0), Vec3(0, 0, q)) == Vec3(p * q, 0, 0)
    ensures CrossIntended(Vec3(0, 0, p), Vec3(q, 0, 0)) == Vec3(0, p * q, 0)
  {
  }

  /** Right × Up is Forwards, Up × Forwards is Right and Forwards × Right is Up. */
  lemma {:induction false} CrossIntendedOfDirections()
    ensures CrossIntended(Right, Up) == Forwards
    ensures CrossIntended(Up, Forwards) == Right
    ensures CrossIntended(Forwards, Right) == Up
  {
    CrossIntendedOfAxes(1, 1);
  }

  /** Cross as written matches the intended cross product in y and z, and in x exactly when `x·other.z == y·other.z`. */
  lemma CrossAsWrittenDiffers(a: Vec3, other: Vec3)
    ensures Cross(a, other).y == CrossIntended(a, other).y && Cross(a, other).z == CrossIntended(a, other).z
    ensures Cross(a, other) == CrossIntended(a, other) <==> a.x * other.z == a.y * other.z
  {
  }

  /** As written, y × z collapses to zero, and (p, r, 0) × z is perpendicular to (p, r, 0) only when p == r or p·q == 0. */
  lemma CrossAsWrittenOfAxes(p: int, r: int, q: int)
    ensures Cross(Vec3(0, p, 0), Vec3(0, 0, q)) == Zero
    ensures Dot(Cross(Vec3(p, r, 0), Vec3(0, 0, q)), Vec3(p, r, 0)) == (p - r) * p * q
  {
  }

  /**
   * Cross as written turns Up × Forwards into the zero vector where the
   * cross product is Right, and its result for (2, 1, 0) × Forwards is not
   * perpendicular to (2, 1, 0).
   */
  lemma {:induction false} CrossAsWrittenWrong()
    ensures Cross(Up, Forwards) == Zero && CrossIntended(Up, Forwards) == Right
    ensures Dot(Cross(Vec3(2, 1, 0), Forwards), Vec3(2, 1, 0)) == 2
  {
    CrossAsWrittenOfAxes(1, 1, 1);
    CrossAsWrittenOfAxes(2, 1, 1);
    CrossIntendedOfAxes(1, 1);
  }

  /** A Vector3 held in a variable, which the compound assignments and Set update in place. */
  class Vec3Ref {
    var x: int
    var y: int
    var z: int

    function Value(): Vec3
      reads this
    {
      Vec3(x, y, z)
    }

    constructor (x0: int, y0: int, z0: int)
      ensures Value() == Vec3(x0, y0, z0)
    {
      x, y, z := x0, y0, z0;
    }

    /** `+= vector`: the same result as the binary `+`. */
    method AddAssign(rhs: Vec3)
      modifies this
      ensures Value() == Add(old(Value()), rhs)
    {
      x, y, z := x + rhs.x, y + rhs.y, z + rhs.z;
    }

    method SubAssign(rhs: Vec3)
      modifies this
      ensures Value() == Sub(old(Value()), rhs)
    {
      x, y, z := x - rhs.x, y - rhs.y, z - rhs.z;
    }

    method MulAssign(rhs: Vec3)
      modifies this
      ensures Value() == Mul(old(Value()), rhs)
    {
      x, y, z := x * rhs.x, y * rhs.y, z * rhs.z;
    }

    method DivAssign(rhs: Vec3)
      requires rhs.x != 0 && rhs.y != 0 && rhs.z != 0
      modifies this
      ensures Value() == Vec3(TDiv(old(x), rhs.x), TDiv(old(y), rhs.y), TDiv(old(z), rhs.z))
    {
      x, y, z := TDiv(x, rhs.x), TDiv(y, rhs.y), TDiv(z, rhs.z);
    }

    /** `+= scalar` adds the scalar to each component. */
    method AddScalarAssign(k: int)
      modifies this
      ensures Value() == Add(old(Value()), Vec3(k, k, k))
    {
      x, y, z := x + k, y + k, z + k;
    }

    method SubScalarAssign(k: int)
      modifies this
      ensures Value() == Sub(old(Value()), Vec3(k, k, k))
    {
      x, y, z := x - k, y - k, z - k;
    }

    /** `*= scalar`: the same result as the binary `* scalar`. */
    method MulScalarAssign(k: int)
      modifies this
      ensures Value() == Scale(old(Value()), k)
    {
      x, y, z := x * k, y * k, z * k;
    }

    method DivScalarAssign(k: int)
      requires k != 0
      modifies this
      ensures Value() == Div(old(Value()), k)
    {
      x, y, z := TDiv(x, k), TDiv(y, k), TDiv(z, k);
    }

    method Set(val: int)
      modifies this
      ensures Value() == Vec3(val, val, val)
    {
      x, y, z := val, val, val;
    }
  }
}
