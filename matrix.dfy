/**
 * Matrix4x4<int>: sixteen elements in row-major order, also seen as four
 * Vector4 rows (`vec[i]` is `arr[4i .. 4i + 3]`). Identity, Translation,
 * Scaling, Transpose and the product; translations sit in the bottom row,
 * so points are row vectors multiplied on the left.
 */
module Matrix {
  import Vector3
  import Vector4

  type Matrix4x4 = s: seq<int> | |s| == 16 witness [0, 0, 0, 0, 0, 0, 0, 0, 0, 0, 0, 0, 0, 0, 0, 0]

  /** The position of row i, column j in `arr`. */
  function At(i: nat, j: nat): nat
  {
    4 * i + j
  }

  /** `vec[i]`: row i as a Vector4. */
  function Row(m: Matrix4x4, i: nat): Vector4.Vec4
    requires i < 4
  {
    Vector4.Vec4(m[At(i, 0)], m[At(i, 1)], m[At(i, 2)], m[At(i, 3)])
  }

  function Identity(): Matrix4x4
  {
    [1, 0, 0, 0,
     0, 1, 0, 0,
     0, 0, 1, 0,
     0, 0, 0, 1]
  }

  /** Identity as the source builds it: every element zeroed in a loop, then the four diagonal elements set to 1. */
  method MakeIdentity() returns (mat: Matrix4x4)
    ensures mat == Identity()
    ensures forall n | 0 <= n < 16 :: mat[n] == (if n == 0 || n == 5 || n == 10 || n == 15 then 1 else 0)
  {
    var arr := new int[16];
    for i := 0 to 16
      invariant forall k | 0 <= k < i :: arr[k] == 0
    {
      arr[i] := 0;
    }
    arr[0] := 1;
    arr[5] := 1;
    arr[10] := 1;
    arr[15] := 1;
    mat := arr[..];
  }

  /** Identity with the translation in the bottom row's first three elements. */
  function Translation(t: Vector3.Vec3): (mat: Matrix4x4)
    ensures mat[At(3, 0)] == t.x && mat[At(3, 1)] == t.y && mat[At(3, 2)] == t.z
    ensures forall n | 0 <= n < 16 && !(12 <= n <= 14) :: mat[n] == Identity()[n]
  {
    Identity()[12 := t.x][13 := t.y][14 := t.z]
  }

  /** Identity with the scale factors on the first three diagonal elements. */
  function Scaling(s: Vector3.Vec3): (mat: Matrix4x4)
    ensures mat[At(0, 0)] == s.x && mat[At(1, 1)] == s.y && mat[At(2, 2)] == s.z
    ensures forall n | 0 <= n < 16 && n != 0 && n != 5 && n != 10 :: mat[n] == Identity()[n]
  {
    Identity()[0 := s.x][5 := s.y][10 := s.z]
  }

  /** Transpose as written: the diagonal kept, the twelve off-diagonal elements swapped across it one by one. */
  function Transpose(m: Matrix4x4): Matrix4x4
  {
    m[1 := m[4]][2 := m[8]][3 := m[12]]
     [4 := m[1]][6 := m[9]][7 := m[13]]
     [8 := m[2]][9 := m[6]][11 := m[14]]
     [12 := m[3]][13 := m[7]][14 := m[11]]
  }

  /** `lhs * rhs` as written: element (i, j) is row i of `lhs` dotted with row j of the transposed `rhs`. */
  function Mul(lhs: Matrix4x4, rhs: Matrix4x4): Matrix4x4
  {
    var b := Transpose(rhs);
    seq(16, n requires 0 <= n < 16 => Vector4.Dot(Row(lhs, n / 4), Row(b, n % 4)))
  }

  /** The textbook row-by-column product entry, independent of Transpose and Dot. */
  function RowByColumn(lhs: Matrix4x4, rhs: Matrix4x4, i: nat, j: nat): int
    requires i < 4 && j < 4
  {
    lhs[At(i, 0)] * rhs[At(0, j)] + lhs[At(i, 1)] * rhs[At(1, j)]
    + lhs[At(i, 2)] * rhs[At(2, j)] + lhs[At(i, 3)] * rhs[At(3, j)]
  }

  /** Every position in `arr` is some row and column. */
  lemma Decompose(n: nat)
    requires n < 16
    ensures n / 4 < 4 && n % 4 < 4 && n == At(n / 4, n % 4)
  {
  }

  /** Two matrices agreeing in every element are equal. */
  lemma Extensional(a: Matrix4x4, b: Matrix4x4)
    requires forall n | 0 <= n < 16 :: a[n] == b[n]
    ensures a == b
  {
  }

  /** Transpose moves the element at (i, j) to (j, i), for every row and column. */
  lemma TransposeMovesEntries(m: Matrix4x4)
    ensures forall i, j | 0 <= i < 4 && 0 <= j < 4 :: Transpose(m)[At(i, j)] == m[At(j, i)]
  {
  }

  /** Transposing twice gives the matrix back, and Identity is its own transpose. */
  lemma {:induction false} TransposeInvolution(m: Matrix4x4)
    ensures Transpose(Transpose(m)) == m
    ensures Transpose(Identity()) == Identity()
  {
    TransposeMovesEntries(m);
    TransposeMovesEntries(Transpose(m));
    forall n | 0 <= n < 16
      ensures Transpose(Transpose(m))[n] == m[n]
    {
      Decompose(n);
    }
  }

  /** Each element of the product is the row-by-column sum. */
  lemma {:induction false} MulIsRowByColumn(lhs: Matrix4x4, rhs: Matrix4x4)
    ensures forall i, j | 0 <= i < 4 && 0 <= j < 4 :: Mul(lhs, rhs)[At(i, j)] == RowByColumn(lhs, rhs, i, j)
  {
    TransposeMovesEntries(rhs);
    forall i, j | 0 <= i < 4 && 0 <= j < 4
      ensures Mul(lhs, rhs)[At(i, j)] == RowByColumn(lhs, rhs, i, j)
    {
      assert At(i, j) / 4 == i && At(i, j) % 4 == j;
    }
  }

  /** A column of Identity picks out one column of the left operand. */
  lemma RowByColumnIdentityRight(m: Matrix4x4, i: nat, j: nat)
    requires i < 4 && j < 4
    ensures RowByColumn(m, Identity(), i, j) == m[At(i, j)]
  {
  }

  /** Identity is a unit for the product on the right. */
  lemma {:induction false} MulIdentityRight(m: Matrix4x4)
    ensures Mul(m, Identity()) == m
  {
    MulIsRowByColumn(m, Identity());
    forall n | 0 <= n < 16
      ensures Mul(m, Identity())[n] == m[n]
    {
      Decompose(n);
      RowByColumnIdentityRight(m, n / 4, n % 4);
    }
    Extensional(Mul(m, Identity()), m);
  }

  /** One element of a transpose. */
  lemma TransposeEntry(m: Matrix4x4, i: nat, j: nat)
    requires i < 4 && j < 4
    ensures Transpose(m)[At(i, j)] == m[At(j, i)]
  {
    TransposeMovesEntries(m);
  }

  /** One element of a product. */
  lemma MulEntry(lhs: Matrix4x4, rhs: Matrix4x4, i: nat, j: nat)
    requires i < 4 && j < 4
    ensures Mul(lhs, rhs)[At(i, j)] == RowByColumn(lhs, rhs, i, j)
  {
    MulIsRowByColumn(lhs, rhs);
  }

  /** Row-by-column entries of a product of transposes are those of the reversed product, transposed. */
  lemma RowByColumnTransposed(a: Matrix4x4, b: Matrix4x4, i: nat, j: nat)
    requires i < 4 && j < 4
    ensures RowByColumn(Transpose(b), Transpose(a), i, j) == RowByColumn(a, b, j, i)
  {
    TransposeMovesEntries(a);
    TransposeMovesEntries(b);
  }

  /** The transpose of a product is the product of the transposes in the opposite order. */
  lemma {:induction false} TransposeOfProduct(a: Matrix4x4, b: Matrix4x4)
    ensures Transpose(Mul(a, b)) == Mul(Transpose(b), Transpose(a))
  {
    forall n | 0 <= n < 16
      ensures Transpose(Mul(a, b))[n] == Mul(Transpose(b), Transpose(a))[n]
    {
      Decompose(n);
      var i, j := n / 4, n % 4;
      TransposeEntry(Mul(a, b), i, j);
      MulEntry(a, b, j, i);
      MulEntry(Transpose(b), Transpose(a), i, j);
      RowByColumnTransposed(a, b, i, j);
    }
    Extensional(Transpose(Mul(a, b)), Mul(Transpose(b), Transpose(a)));
  }

  /** Identity is a unit for the product on the left: the right-unit law seen through Transpose. */
  lemma {:induction false} MulIdentityLeft(m: Matrix4x4)
    ensures Mul(Identity(), m) == m
  {
    TransposeOfProduct(Identity(), m);
    TransposeInvolution(m);
    TransposeInvolution(Mul(Identity(), m));
    MulIdentityRight(Transpose(m));
  }

  /** The product written out as its sixteen row-by-column entries. */
  lemma {:induction false} MulWrittenOut(lhs: Matrix4x4, rhs: Matrix4x4)
    ensures Mul(lhs, rhs) == [RowByColumn(lhs, rhs, 0, 0), RowByColumn(lhs, rhs, 0, 1), RowByColumn(lhs, rhs, 0, 2), RowByColumn(lhs, rhs, 0, 3), RowByColumn(lhs, rhs, 1, 0), RowByColumn(lhs, rhs, 1, 1), RowByColumn(lhs, rhs, 1, 2), RowByColumn(lhs, rhs, 1, 3), RowByColumn(lhs, rhs, 2, 0), RowByColumn(lhs, rhs, 2, 1), RowByColumn(lhs, rhs, 2, 2), RowByColumn(lhs, rhs, 2, 3), RowByColumn(lhs, rhs, 3, 0), RowByColumn(lhs, rhs, 3, 1), RowByColumn(lhs, rhs, 3, 2), RowByColumn(lhs, rhs, 3, 3)]
  {
    MulEntry(lhs, rhs, 0, 0);
    MulEntry(lhs, rhs, 0, 1);
    MulEntry(lhs, rhs, 0, 2);
    MulEntry(lhs, rhs, 0, 3);
    MulEntry(lhs, rhs, 1, 0);
    MulEntry(lhs, rhs, 1, 1);
    MulEntry(lhs, rhs, 1, 2);
    MulEntry(lhs, rhs, 1, 3);
    MulEntry(lhs, rhs, 2, 0);
    MulEntry(lhs, rhs, 2, 1);
    MulEntry(lhs, rhs, 2, 2);
    MulEntry(lhs, rhs, 2, 3);
    MulEntry(lhs, rhs, 3, 0);
    MulEntry(lhs, rhs, 3, 1);
    MulEntry(lhs, rhs, 3, 2);
    MulEntry(lhs, rhs, 3, 3);
  }

  /** Row 0 of the product of two translations. */
  lemma TranslationsRow0(a: Vector3.Vec3, b: Vector3.Vec3)
    ensures RowByColumn(Translation(a), Translation(b), 0, 0) == 1
    ensures RowByColumn(Translation(a), Translation(b), 0, 1) == 0
    ensures RowByColumn(Translation(a), Translation(b), 0, 2) == 0
    ensures RowByColumn(Translation(a), Translation(b), 0, 3) == 0
  {
  }

  /** Row 1 of the product of two translations. */
  lemma TranslationsRow1(a: Vector3.Vec3, b: Vector3.Vec3)
    ensures RowByColumn(Translation(a), Translation(b), 1, 0) == 0
    ensures RowByColumn(Translation(a), Translation(b), 1, 1) == 1
    ensures RowByColumn(Translation(a), Translation(b), 1, 2) == 0
    ensures RowByColumn(Translation(a), Translation(b), 1, 3) == 0
  {
  }

  /** Row 2 of the product of two translations. */
  lemma TranslationsRow2(a: Vector3.Vec3, b: Vector3.Vec3)
    ensures RowByColumn(Translation(a), Translation(b), 2, 0) == 0
    ensures RowByColumn(Translation(a), Translation(b), 2, 1) == 0
    ensures RowByColumn(Translation(a), Translation(b), 2, 2) == 1
    ensures RowByColumn(Translation(a), Translation(b), 2, 3) == 0
  {
  }

  /** Row 3 of the product of two translations. */
  lemma TranslationsRow3(a: Vector3.Vec3, b: Vector3.Vec3)
    ensures RowByColumn(Translation(a), Translation(b), 3, 0) == a.x + b.x
    ensures RowByColumn(Translation(a), Translation(b), 3, 1) == a.y + b.y
    ensures RowByColumn(Translation(a), Translation(b), 3, 2) == a.z + b.z
    ensures RowByColumn(Translation(a), Translation(b), 3, 3) == 1
  {
  }

  /** Composing two translations translates by the sum of their offsets. */
  lemma {:induction false} TranslationsCompose(a: Vector3.Vec3, b: Vector3.Vec3)
    ensures Mul(Translation(a), Translation(b)) == Translation(Vector3.Add(a, b))
  {
    MulWrittenOut(Translation(a), Translation(b));
    TranslationsRow0(a, b);
    TranslationsRow1(a, b);
    TranslationsRow2(a, b);
    TranslationsRow3(a, b);
  }

  /** Row 0 of the product of two scalings. */
  lemma ScalingsRow0(a: Vector3.Vec3, b: Vector3.Vec3)
    ensures RowByColumn(Scaling(a), Scaling(b), 0, 0) == a.x * b.x
    ensures RowByColumn(Scaling(a), Scaling(b), 0, 1) == 0
    ensures RowByColumn(Scaling(a), Scaling(b), 0, 2) == 0
    ensures RowByColumn(Scaling(a), Scaling(b), 0, 3) == 0
  {
  }

  /** Row 1 of the product of two scalings. */
  lemma ScalingsRow1(a: Vector3.Vec3, b: Vector3.Vec3)
    ensures RowByColumn(Scaling(a), Scaling(b), 1, 0) == 0
    ensures RowByColumn(Scaling(a), Scaling(b), 1, 1) == a.y * b.y
    ensures RowByColumn(Scaling(a), Scaling(b), 1, 2) == 0
    ensures RowByColumn(Scaling(a), Scaling(b), 1, 3) == 0
  {
  }

  /** Row 2 of the product of two scalings. */
  lemma ScalingsRow2(a: Vector3.Vec3, b: Vector3.Vec3)
    ensures RowByColumn(Scaling(a), Scaling(b), 2, 0) == 0
    ensures RowByColumn(Scaling(a), Scaling(b), 2, 1) == 0
    ensures RowByColumn(Scaling(a), Scaling(b), 2, 2) == a.z * b.z
    ensures RowByColumn(Scaling(a), Scaling(b), 2, 3) == 0
  {
  }

  /** Row 3 of the product of two scalings. */
  lemma ScalingsRow3(a: Vector3.Vec3, b: Vector3.Vec3)
    ensures RowByColumn(Scaling(a), Scaling(b), 3, 0) == 0
    ensures RowByColumn(Scaling(a), Scaling(b), 3, 1) == 0
    ensures RowByColumn(Scaling(a), Scaling(b), 3, 2) == 0
    ensures RowByColumn(Scaling(a), Scaling(b), 3, 3) == 1
  {
  }

  /** Composing two scalings scales by the component-wise product of their factors. */
  lemma {:induction false} ScalingsCompose(a: Vector3.Vec3, b: Vector3.Vec3)
    ensures Mul(Scaling(a), Scaling(b)) == Scaling(Vector3.Mul(a, b))
  {
    MulWrittenOut(Scaling(a), Scaling(b));
    ScalingsRow0(a, b);
    ScalingsRow1(a, b);
    ScalingsRow2(a, b);
    ScalingsRow3(a, b);
  }
}
