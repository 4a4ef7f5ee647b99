/**
 * Vector2<int>: a two-component integer vector. The binary operators,
 * comparisons, Dot and LengthSquared compute values; the compound
 * assignments and Set update a vector in place (Vec2Ref). Integer
 * division truncates toward zero, as C++ does.
 */
module Vector2 {
  import opened VkTypes

  datatype Vec2 = Vec2(x: int, y: int)

  const Zero: Vec2 := Vec2(0, 0)

  function Add(lhs: Vec2, rhs: Vec2): (r: Vec2)
    ensures r.x == lhs.x + rhs.x && r.y == lhs.y + rhs.y
  {
    Vec2(lhs.x + rhs.x, lhs.y + rhs.y)
  }

  function Sub(lhs: Vec2, rhs: Vec2): (r: Vec2)
    ensures Add(r, rhs) == lhs
  {
    Vec2(lhs.x - rhs.x, lhs.y - rhs.y)
  }

  /** `vector * scalar`. */
  function Scale(lhs: Vec2, k: int): Vec2
  {
    Vec2(lhs.x * k, lhs.y * k)
  }

  /** `vector / scalar`, truncating each component; dividing by zero is undefined in C++. */
  function Div(lhs: Vec2, k: int): (r: Vec2)
    requires k != 0
    ensures TruncatedQuotient(r.x, lhs.x, k) && TruncatedQuotient(r.y, lhs.y, k)
  {
    Vec2(TDiv(lhs.x, k), TDiv(lhs.y, k))
  }

  predicate Equal(lhs: Vec2, rhs: Vec2)
  {
    lhs.x == rhs.x && lhs.y == rhs.y
  }

  predicate NotEqual(lhs: Vec2, rhs: Vec2)
  {
    !Equal(lhs, rhs)
  }

  function Dot(a: Vec2, b: Vec2): int
  {
    a.x * b.x + a.y * b.y
  }

  function LengthSquared(a: Vec2): int
  {
    a.x * a.x + a.y * a.y
  }

  const Up: Vec2 := Vec2(0, 1)
  const Down: Vec2 := Vec2(0, -1)
  const Left: Vec2 := Vec2(-1, 0)
  const Right: Vec2 := Vec2(1, 0)

  /** `==` is exactly component-wise equality, and `!=` its negation. */
  lemma EqualIsEquality(a: Vec2, b: Vec2)
    ensures Equal(a, b) <==> a == b
    ensures NotEqual(a, b) <==> a != b
  {
  }

  /** Subtraction undoes addition, and scaling by a non-zero scalar is undone by dividing by it. */
  lemma {:induction false} ScaleDivRoundTrip(a: Vec2, b: Vec2, k: int)
    requires k != 0
    ensures Sub(Add(a, b), b) == a
    ensures Div(Scale(a, k), k) == a
  {
    TDivMultiple(a.x, k);
    TDivMultiple(a.y, k);
  }

  /** Dot is symmetric, and a vector's dot product with itself is its squared length. */
  lemma DotSymmetric(a: Vec2, b: Vec2)
    ensures Dot(a, b) == Dot(b, a)
    ensures LengthSquared(a) == Dot(a, a)
  {
  }

  /** The squared length is never negative, and zero only for the zero vector. */
  lemma {:induction false} LengthSquaredZero(a: Vec2)
    ensures LengthSquared(a) >= 0
    ensures LengthSquared(a) == 0 <==> a == Zero
  {
    SquarePositive(a.x);
    SquarePositive(a.y);
  }

  /** Dot with Right or Up picks out the x or y component. */
  lemma DotWithDirections(a: Vec2)
    ensures Dot(a, Right) == a.x && Dot(a, Up) == a.y
  {
  }

  /** The four directions are unit vectors, and Down and Left are Up and Right scaled by -1. */
  lemma {:induction false} DirectionsUnit()
    ensures LengthSquared(Up) == 1 && LengthSquared(Right) == 1
    ensures LengthSquared(Down) == 1 && LengthSquared(Left) == 1
    ensures Down == Scale(Up, -1) && Left == Scale(Right, -1)
  {
    DotSymmetric(Up, Up);
    DotSymmetric(Right, Right);
    DotWithDirections(Up);
    DotWithDirections(Right);
    ScaleAxes(1, -1);
    LengthSquaredOfOpposite(Up);
    LengthSquaredOfOpposite(Right);
  }

  /** A vector and its opposite have the same squared length. */
  lemma LengthSquaredOfOpposite(a: Vec2)
    ensures LengthSquared(Scale(a, -1)) == LengthSquared(a)
  {
  }

  /** Scaling an axis vector scales its one non-zero component. */
  lemma ScaleAxes(p: int, k: int)
    ensures Scale(Vec2(0, p), k) == Vec2(0, p * k) && Scale(Vec2(p, 0), k) == Vec2(p * k, 0)
  {
  }

  /** Up and Right are perpendicular, as are Down and Left. */
  lemma {:induction false} DirectionsPerpendicular()
    ensures Dot(Up, Right) == 0 && Dot(Down, Left) == 0
  {
    DotWithDirections(Up);
    DotWithDirections(Down);
    DotSymmetric(Down, Left);
    DotSymmetric(Left, Down);
  }

  /** Each direction added to its opposite gives zero. */
  lemma DirectionsCancel()
    ensures Add(Up, Down) == Zero && Add(Left, Right) == Zero
  {
  }

  /** A Vector2 held in a variable, which the compound assignments and Set update in place. */
  class Vec2Ref {
    var x: int
    var y: int

    function Value(): Vec2
      reads this
    {
      Vec2(x, y)
    }

    constructor (x0: int, y0: int)
      ensures Value() == Vec2(x0, y0)
    {
      x, y := x0, y0;
    }

    /** `+= vector`: the same result as the binary `+`. */
    method AddAssign(rhs: Vec2)
      modifies this
      ensures Value() == Add(old(Value()), rhs)
    {
      x := x + rhs.x;
      y := y + rhs.y;
    }

    method SubAssign(rhs: Vec2)
      modifies this
      ensures Value() == Sub(old(Value()), rhs)
    {
      x := x - rhs.x;
      y := y - rhs.y;
    }

    /** `*= vector` multiplies component by component; there is no binary counterpart. */
    method MulAssign(rhs: Vec2)
      modifies this
      ensures Value() == Vec2(old(x) * rhs.x, old(y) * rhs.y)
    {
      x := x * rhs.x;
      y := y * rhs.y;
    }

    method DivAssign(rhs: Vec2)
      requires rhs.x != 0 && rhs.y != 0
      modifies this
      ensures Value() == Vec2(TDiv(old(x), rhs.x), TDiv(old(y), rhs.y))
    {
      x := TDiv(x, rhs.x);
      y := TDiv(y, rhs.y);
    }

    /** `+= scalar` adds the scalar to each component. */
    method AddScalarAssign(k: int)
      modifies this
      ensures Value() == Add(old(Value()), Vec2(k, k))
    {
      x := x + k;
      y := y + k;
    }

    method SubScalarAssign(k: int)
      modifies this
      ensures Value() == Sub(old(Value()), Vec2(k, k))
    {
      x := x - k;
      y := y - k;
    }

    /** `*= scalar`: the same result as the binary `* scalar`. */
    method MulScalarAssign(k: int)
      modifies this
      ensures Value() == Scale(old(Value()), k)
    {
      x := x * k;
      y := y * k;
    }

    method DivScalarAssign(k: int)
      requires k != 0
      modifies this
      ensures Value() == Div(old(Value()), k)
    {
      x := TDiv(x, k);
      y := TDiv(y, k);
    }

    method Set(val: int)
      modifies this
      ensures Value() == Vec2(val, val)
    {
      x := val;
      y := val;
    }
  }
}
