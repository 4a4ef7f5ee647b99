/**
 * Vector4<int>: a four-component integer vector whose arithmetic only
 * partly covers its components. The binary operators build their result
 * from x and y alone (z and w come out 0), the compound assignments update
 * x and y and keep z and w, and `==` compares x and y only; Dot and Set do
 * use all four components.
 */
module Vector4 {
  import opened VkTypes
  import Vector3

  datatype Vec4 = Vec4(x: int, y: int, z: int, w: int)

  /** `Vector4(Vector3)`: x, y and z are copied and w is 0. */
  function FromVector3(v: Vector3.Vec3): (r: Vec4)
    ensures r.x == v.x && r.y == v.y && r.z == v.z && r.w == 0
  {
    Vec4(v.x, v.y, v.z, 0)
  }

  function Add(lhs: Vec4, rhs: Vec4): Vec4
  {
    Vec4(lhs.x + rhs.x, lhs.y + rhs.y, 0, 0)
  }

  function Sub(lhs: Vec4, rhs: Vec4): Vec4
  {
    Vec4(lhs.x - rhs.x, lhs.y - rhs.y, 0, 0)
  }

  /** `vector * scalar`. */
  function Scale(lhs: Vec4, k: int): Vec4
  {
    Vec4(lhs.x * k, lhs.y * k, 0, 0)
  }

  /** `vector / scalar`, truncating; dividing by zero is undefined in C++. */
  function Div(lhs: Vec4, k: int): Vec4
    requires k != 0
  {
    Vec4(TDiv(lhs.x, k), TDiv(lhs.y, k), 0, 0)
  }

  predicate Equal(lhs: Vec4, rhs: Vec4)
  {
    lhs.x == rhs.x && lhs.y == rhs.y
  }

  predicate NotEqual(lhs: Vec4, rhs: Vec4)
  {
    !Equal(lhs, rhs)
  }

  function Dot(a: Vec4, b: Vec4): int
  {
    a.x * b.x + a.y * b.y + a.z * b.z + a.w * b.w
  }

  /** What `+= vector` leaves in a vector: x and y summed, z and w kept. */
  function AddAssigned(lhs: Vec4, rhs: Vec4): Vec4
  {
    Vec4(lhs.x + rhs.x, lhs.y + rhs.y, lhs.z, lhs.w)
  }

  /** What `-= vector` leaves in a vector. */
  function SubAssigned(lhs: Vec4, rhs: Vec4): Vec4
  {
    Vec4(lhs.x - rhs.x, lhs.y - rhs.y, lhs.z, lhs.w)
  }

  /** What `*= scalar` leaves in a vector. */
  function ScaleAssigned(lhs: Vec4, k: int): Vec4
  {
    Vec4(lhs.x * k, lhs.y * k, lhs.z, lhs.w)
  }

  /** What `/= scalar` leaves in a vector. */
  function DivAssigned(lhs: Vec4, k: int): Vec4
    requires k != 0
  {
    Vec4(TDiv(lhs.x, k), TDiv(lhs.y, k), lhs.z, lhs.w)
  }

  /**
   * `==` looks at x and y only: it holds for vectors that differ in z or w,
   * so it is weaker than equality, and `!=` is its negation.
   */
  lemma EqualIgnoresZW(a: Vec4, b: Vec4)
    ensures a == b ==> Equal(a, b)
    ensures Equal(a, b) <==> a.x == b.x && a.y == b.y
    ensures NotEqual(a, b) <==> !Equal(a, b)
    ensures Equal(Vec4(1, 2, 3, 4), Vec4(1, 2, 0, 0)) && Vec4(1, 2, 3, 4) != Vec4(1, 2, 0, 0)
  {
  }

  /**
   * The binary operators and the compound assignments agree under `==`, but
   * the binary result is the compound one only when the left operand's z and
   * w are both 0: the binary operators drop z and w.
   */
  lemma BinaryMatchesCompound(a: Vec4, b: Vec4, k: int)
    requires k != 0
    ensures Equal(Add(a, b), AddAssigned(a, b)) && Equal(Sub(a, b), SubAssigned(a, b))
    ensures Equal(Scale(a, k), ScaleAssigned(a, k)) && Equal(Div(a, k), DivAssigned(a, k))
    ensures Add(a, b) == AddAssigned(a, b) <==> a.z == 0 && a.w == 0
    ensures Add(a, b).z == 0 && Add(a, b).w == 0 && Scale(a, k).z == 0 && Div(a, k).w == 0
  {
  }

  /** In x and y, subtraction undoes addition and dividing undoes scaling; z and w are lost. */
  lemma {:induction false} RoundTripKeepsXY(a: Vec4, b: Vec4, k: int)
    requires k != 0
    ensures Sub(Add(a, b), b) == Vec4(a.x, a.y, 0, 0)
    ensures Div(Scale(a, k), k) == Vec4(a.x, a.y, 0, 0)
    ensures Equal(Div(Scale(a, k), k), a)
  {
    TDivMultiple(a.x, k);
    TDivMultiple(a.y, k);
  }

  /** Dot is symmetric, and on vectors built from Vector3s it is the Vector3 dot product. */
  lemma DotExtendsVector3(a: Vec4, b: Vec4, u: Vector3.Vec3, v: Vector3.Vec3)
    ensures Dot(a, b) == Dot(b, a)
    ensures Dot(FromVector3(u), FromVector3(v)) == Vector3.Dot(u, v)
  {
  }

  /** A Vector4 held in a variable, which the compound assignments and Set update in place. */
  class Vec4Ref {
    var x: int
    var y: int
    var z: int
    var w: int

    function Value(): Vec4
      reads this
    {
      Vec4(x, y, z, w)
    }

    constructor (x0: int, y0: int, z0: int, w0: int)
      ensures Value() == Vec4(x0, y0, z0, w0)
    {
      x, y, z, w := x0, y0, z0, w0;
    }

    /** `+= vector` changes x and y only. */
    method AddAssign(rhs: Vec4)
      modifies this
      ensures Value() == AddAssigned(old(Value()), rhs)
      ensures z == old(z) && w == old(w)
    {
      x, y := x + rhs.x, y + rhs.y;
    }

    method SubAssign(rhs: Vec4)
      modifies this
      ensures Value() == SubAssigned(old(Value()), rhs)
      ensures z == old(z) && w == old(w)
    {
      x, y := x - rhs.x, y - rhs.y;
    }

    /** `*= vector` multiplies x and y component-wise. */
    method MulAssign(rhs: Vec4)
      modifies this
      ensures Value() == Vec4(old(x) * rhs.x, old(y) * rhs.y, old(z), old(w))
    {
      x, y := x * rhs.x, y * rhs.y;
    }

    method DivAssign(rhs: Vec4)
      requires rhs.x != 0 && rhs.y != 0
      modifies this
      ensures Value() == Vec4(TDiv(old(x), rhs.x), TDiv(old(y), rhs.y), old(z), old(w))
    {
      x, y := TDiv(x, rhs.x), TDiv(y, rhs.y);
    }

    /** `+= scalar` adds the scalar to x and y. */
    method AddScalarAssign(k: int)
      modifies this
      ensures Value() == AddAssigned(old(Value()), Vec4(k, k, k, k))
    {
      x, y := x + k, y + k;
    }

    method SubScalarAssign(k: int)
      modifies this
      ensures Value() == SubAssigned(old(Value()), Vec4(k, k, k, k))
    {
      x, y := x - k, y - k;
    }

    method MulScalarAssign(k: int)
      modifies this
      ensures Value() == ScaleAssigned(old(Value()), k)
    {
      x, y := x * k, y * k;
    }

    method DivScalarAssign(k: int)
      requires k != 0
      modifies this
      ensures Value() == DivAssigned(old(Value()), k)
    {
      x, y := TDiv(x, k), TDiv(y, k);
    }

    /** Set writes all four components. */
    method Set(val: int)
      modifies this
      ensures Value() == Vec4(val, val, val, val)
    {
      x, y, z, w := val, val, val, val;
    }
  }
}
