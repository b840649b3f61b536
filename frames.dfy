/** Frame math of Helper_Functions.cpp: 3x3 rotation matrices about the satellite's roll, pitch
    and yaw axes, their products and transposes, and applying a matrix to a point. The pure
    definitions (Mat3, Mul, Transpose, Apply, Rotation) specify the in-place array routines the
    program runs (MultiplyRotMats, CopyRotMat, TransposeRotMat, ApplyRotation,
    ComputeRotationMatrix). */
module Frames {
  import opened Numerics

  datatype Vec3 = Vec3(x: real, y: real, z: real) {
    function At(j: int): real
      requires 0 <= j < 3
    {
      if j == 0 then x else if j == 1 then y else z
    }
  }

  const Zero: Vec3 := Vec3(0.0, 0.0, 0.0)

  /** A matrix by rows: `At(i, j)` is `rot_mat[i][j]`. */
  datatype Mat3 = Mat3(row0: Vec3, row1: Vec3, row2: Vec3) {
    function Row(i: int): Vec3
      requires 0 <= i < 3
    {
      if i == 0 then row0 else if i == 1 then row1 else row2
    }

    function At(i: int, j: int): real
      requires 0 <= i < 3 && 0 <= j < 3
    {
      Row(i).At(j)
    }
  }

  /** The three maneuver axes. In this program's convention roll turns about local z (the
      camera axis), pitch about local x and yaw about local y. */
  datatype Axis = Roll | Pitch | Yaw

  function Dot(u: Vec3, v: Vec3): real {
    u.x * v.x + u.y * v.y + u.z * v.z
  }

  function Identity(): Mat3 {
    Mat3(Vec3(1.0, 0.0, 0.0), Vec3(0.0, 1.0, 0.0), Vec3(0.0, 0.0, 1.0))
  }

  function Transpose(a: Mat3): Mat3 {
    Mat3(Vec3(a.row0.x, a.row1.x, a.row2.x),
         Vec3(a.row0.y, a.row1.y, a.row2.y),
         Vec3(a.row0.z, a.row1.z, a.row2.z))
  }

  /** The matrix-vector product `a * v`. */
  function Apply(a: Mat3, v: Vec3): Vec3 {
    Vec3(Dot(a.row0, v), Dot(a.row1, v), Dot(a.row2, v))
  }

  /** The row vector `r` times `b`. */
  function RowTimes(r: Vec3, b: Mat3): Vec3 {
    Vec3(r.x * b.row0.x + r.y * b.row1.x + r.z * b.row2.x,
         r.x * b.row0.y + r.y * b.row1.y + r.z * b.row2.y,
         r.x * b.row0.z + r.y * b.row1.z + r.z * b.row2.z)
  }

  /** The matrix product `a * b`. */
  function Mul(a: Mat3, b: Mat3): Mat3 {
    Mat3(RowTimes(a.row0, b), RowTimes(a.row1, b), RowTimes(a.row2, b))
  }

  /** R * R^T = R^T * R = I: the columns, and the rows, are orthonormal. */
  ghost predicate Orthonormal(r: Mat3) {
    Mul(r, Transpose(r)) == Identity() && Mul(Transpose(r), r) == Identity()
  }

  /** The unit vector each axis turns about. */
  function AxisVector(axis: Axis): Vec3 {
    match axis
    case Roll => Vec3(0.0, 0.0, 1.0)
    case Pitch => Vec3(1.0, 0.0, 0.0)
    case Yaw => Vec3(0.0, 1.0, 0.0)
  }

  /** The matrix compute_rotation_matrix writes for `axis` and `angle`: a negative angle is first
      moved up by 2 pi, then the cosine and sine of the angle fill the entries of the plane the
      axis turns. */
  function Rotation(m: MathLib, axis: Axis, angle: real): Mat3 {
    var a := if angle < 0.0 then angle + 2.0 * PI else angle;
    PlaneRotation(axis, m.cos(a), m.sin(a))
  }

  /** The rotation matrix of `axis` whose turned plane holds the cosine `c` and the sine `s`. */
  function PlaneRotation(axis: Axis, c: real, s: real): Mat3 {
    match axis
    case Pitch => Mat3(Vec3(1.0, 0.0, 0.0), Vec3(0.0, c, s), Vec3(0.0, -s, c))
    case Yaw => Mat3(Vec3(c, 0.0, -s), Vec3(0.0, 1.0, 0.0), Vec3(s, 0.0, c))
    case Roll => Mat3(Vec3(c, s, 0.0), Vec3(-s, c, 0.0), Vec3(0.0, 0.0, 1.0))
  }

  // ---------------------------------------------------------------------------------------------
  // Algebra of the pure definitions

  lemma IdentityNeutral(a: Mat3)
    ensures Mul(Identity(), a) == a && Mul(a, Identity()) == a
  {
  }

  lemma TransposeInvolution(a: Mat3)
    ensures Transpose(Transpose(a)) == a
  {
  }

  lemma ApplyIdentity(v: Vec3)
    ensures Apply(Identity(), v) == v
  {
  }

  /** Applying a product is applying its factors right to left. */
  lemma ApplyMul(a: Mat3, b: Mat3, v: Vec3)
    ensures Apply(Mul(a, b), v) == Apply(a, Apply(b, v))
  {
    RowColumn(a.row0, b, v, RowTimes(a.row0, b), Apply(b, v));
    RowColumn(a.row1, b, v, RowTimes(a.row1, b), Apply(b, v));
    RowColumn(a.row2, b, v, RowTimes(a.row2, b), Apply(b, v));
  }

  lemma MulAssociative(a: Mat3, b: Mat3, c: Mat3)
    ensures Mul(Mul(a, b), c) == Mul(a, Mul(b, c))
  {
    RowTimesAssociative(a.row0, b, c);
    RowTimesAssociative(a.row1, b, c);
    RowTimesAssociative(a.row2, b, c);
  }

  lemma RowTimesAssociative(r: Vec3, b: Mat3, c: Mat3)
    ensures RowTimes(RowTimes(r, b), c) == RowTimes(r, Mul(b, c))
  {
    ColumnAssociative(r, b, c, 0);
    ColumnAssociative(r, b, c, 1);
    ColumnAssociative(r, b, c, 2);
  }

  /** Entry `j` of (r * b) * c equals entry `j` of r * (b * c). */
  lemma ColumnAssociative(r: Vec3, b: Mat3, c: Mat3, j: int)
    requires 0 <= j < 3
    ensures RowTimes(RowTimes(r, b), c).At(j) == RowTimes(r, Mul(b, c)).At(j)
  {
    var rb, col := RowTimes(r, b), Transpose(c).Row(j);
    RowTimesColumn(rb, c, j);
    RowTimesColumn(r, Mul(b, c), j);
    MulColumn(b, c, j);
    RowColumn(r, b, col, rb, Apply(b, col));
  }

  /** Entry `j` of x * c is x against column `j` of c. */
  lemma RowTimesColumn(x: Vec3, c: Mat3, j: int)
    requires 0 <= j < 3
    ensures RowTimes(x, c).At(j) == Dot(x, Transpose(c).Row(j))
  {
  }

  /** Column `j` of b * c is b applied to column `j` of c. */
  lemma MulColumn(b: Mat3, c: Mat3, j: int)
    requires 0 <= j < 3
    ensures Transpose(Mul(b, c)).Row(j) == Apply(b, Transpose(c).Row(j))
  {
    RowTimesColumn(b.row0, c, j);
    RowTimesColumn(b.row1, c, j);
    RowTimesColumn(b.row2, c, j);
    var bc := Mul(b, c);
    assert Transpose(bc).Row(j) == Vec3(bc.row0.At(j), bc.row1.At(j), bc.row2.At(j));
  }

  /** (r * b) . col = r . (b * col), with v = r * b and w = b * col. */
  lemma RowColumn(r: Vec3, b: Mat3, col: Vec3, v: Vec3, w: Vec3)
    requires v == RowTimes(r, b) && w == Apply(b, col)
    ensures Dot(v, col) == Dot(r, w)
  {
    ScaleSum(v.x, r.x * b.row0.x, r.y * b.row1.x, r.z * b.row2.x, col.x);
    ScaleSum(v.y, r.x * b.row0.y, r.y * b.row1.y, r.z * b.row2.y, col.y);
    ScaleSum(v.z, r.x * b.row0.z, r.y * b.row1.z, r.z * b.row2.z, col.z);
    ScaleSumLeft(r.x, w.x, b.row0.x * col.x, b.row0.y * col.y, b.row0.z * col.z);
    ScaleSumLeft(r.y, w.y, b.row1.x * col.x, b.row1.y * col.y, b.row1.z * col.z);
    ScaleSumLeft(r.z, w.z, b.row2.x * col.x, b.row2.y * col.y, b.row2.z * col.z);
  }

  lemma ScaleSum(v: real, p: real, q: real, w: real, c: real)
    requires v == p + q + w
    ensures v * c == p * c + q * c + w * c
  {
  }

  lemma ScaleSumLeft(c: real, v: real, p: real, q: real, w: real)
    requires v == p + q + w
    ensures c * v == c * p + c * q + c * w
  {
  }

  lemma TransposeMul(a: Mat3, b: Mat3)
    ensures Transpose(Mul(a, b)) == Mul(Transpose(b), Transpose(a))
  {
    var bt := Transpose(b);
    MulColumn(a, b, 0);
    MulColumn(a, b, 1);
    MulColumn(a, b, 2);
    RowTimesTranspose(bt.row0, a);
    RowTimesTranspose(bt.row1, a);
    RowTimesTranspose(bt.row2, a);
  }

  /** x * a^T is a applied to x. */
  lemma RowTimesTranspose(x: Vec3, a: Mat3)
    ensures RowTimes(x, Transpose(a)) == Apply(a, x)
  {
  }

  /** Orthonormal matrices are closed under products. */
  lemma OrthonormalMul(a: Mat3, b: Mat3)
    requires Orthonormal(a) && Orthonormal(b)
    ensures Orthonormal(Mul(a, b))
  {
    var ab := Mul(a, b);
    TransposeMul(a, b);
    calc {
      Mul(ab, Transpose(ab));
      Mul(Mul(a, b), Mul(Transpose(b), Transpose(a)));
      { MulAssociative(a, b, Mul(Transpose(b), Transpose(a))); }
      Mul(a, Mul(b, Mul(Transpose(b), Transpose(a))));
      { MulAssociative(b, Transpose(b), Transpose(a)); }
      Mul(a, Mul(Identity(), Transpose(a)));
      { IdentityNeutral(Transpose(a)); }
      Identity();
    }
    calc {
      Mul(Transpose(ab), ab);
      Mul(Mul(Transpose(b), Transpose(a)), Mul(a, b));
      { MulAssociative(Transpose(b), Transpose(a), Mul(a, b)); }
      Mul(Transpose(b), Mul(Transpose(a), Mul(a, b)));
      { MulAssociative(Transpose(a), a, b); }
      Mul(Transpose(b), Mul(Identity(), b));
      { IdentityNeutral(b); }
      Identity();
    }
  }

  /** The transpose of an orthonormal matrix undoes it. */
  lemma OrthonormalInverse(r: Mat3, v: Vec3)
    requires Orthonormal(r)
    ensures Apply(Transpose(r), Apply(r, v)) == v
  {
    ApplyMul(Transpose(r), r, v);
    ApplyIdentity(v);
  }

  /** An orthonormal matrix sends only the origin to the origin. */
  lemma OrthonormalNonZero(r: Mat3, v: Vec3)
    requires Orthonormal(r) && v != Zero
    ensures Apply(r, v) != Zero
  {
    OrthonormalInverse(r, v);
    assert Apply(Transpose(r), Zero) == Zero;
  }

  lemma IdentityOrthonormal()
    ensures Orthonormal(Identity())
  {
    IdentityNeutral(Identity());
  }

  // ---------------------------------------------------------------------------------------------
  // Properties of the axis rotations

  /** Given 2 pi periodicity, the shift of a negative angle is harmless: every rotation is the
      plane rotation by the cosine and sine of the angle as given. */
  lemma RotationPeriodic(m: MathLib, axis: Axis, angle: real)
    requires TrigSymmetry(m)
    ensures Rotation(m, axis, angle) == PlaneRotation(axis, m.cos(angle), m.sin(angle))
  {
    if angle < 0.0 {
      assert m.sin(angle + 2.0 * PI) == m.sin(angle);
      assert m.cos(angle + 2.0 * PI) == m.cos(angle);
    }
  }

  /** Each rotation leaves its own axis fixed. */
  lemma RotationFixesAxis(m: MathLib, axis: Axis, angle: real)
    ensures Apply(Rotation(m, axis, angle), AxisVector(axis)) == AxisVector(axis)
  {
  }

  /** Given sin^2 + cos^2 = 1, every axis rotation is orthonormal. */
  lemma RotationOrthonormal(m: MathLib, axis: Axis, angle: real)
    requires Pythagorean(m)
    ensures Orthonormal(Rotation(m, axis, angle))
  {
    var a := if angle < 0.0 then angle + 2.0 * PI else angle;
    var c, s := m.cos(a), m.sin(a);
    assert s * s + c * c == 1.0;
    PlaneRotationOrthonormal(axis, c, s);
  }

  lemma PlaneRotationOrthonormal(axis: Axis, c: real, s: real)
    requires s * s + c * c == 1.0
    ensures Orthonormal(PlaneRotation(axis, c, s))
  {
  }

  /** Given that sin is odd, cos even and both 2 pi periodic, the transpose of a rotation is the
      rotation by the opposite angle. */
  lemma RotationTranspose(m: MathLib, axis: Axis, angle: real)
    requires TrigSymmetry(m)
    ensures Transpose(Rotation(m, axis, angle)) == Rotation(m, axis, -angle)
  {
    var a := if angle < 0.0 then angle + 2.0 * PI else angle;
    var b := if -angle < 0.0 then -angle + 2.0 * PI else -angle;
    if angle < 0.0 {
      assert b == -angle;
      assert m.sin(angle + 2.0 * PI) == m.sin(angle);
      assert m.cos(angle + 2.0 * PI) == m.cos(angle);
      assert m.sin(-angle) == -m.sin(angle);
      assert m.cos(-angle) == m.cos(angle);
    } else if angle > 0.0 {
      assert b == -angle + 2.0 * PI;
      assert m.sin(-angle + 2.0 * PI) == m.sin(-angle) == -m.sin(angle);
      assert m.cos(-angle + 2.0 * PI) == m.cos(-angle) == m.cos(angle);
    } else {
      assert -0.0 == 0.0;
      assert m.sin(-0.0) == -m.sin(0.0);
    }
  }

  // ---------------------------------------------------------------------------------------------
  // The program's routines on 3x3 arrays

  predicate Is3x3(a: array2<real>) {
    a.Length0 == 3 && a.Length1 == 3
  }

  /** The matrix an array holds. */
  function Get(a: array2<real>): Mat3
    reads a
    requires Is3x3(a)
  {
    Mat3(Vec3(a[0, 0], a[0, 1], a[0, 2]), Vec3(a[1, 0], a[1, 1], a[1, 2]), Vec3(a[2, 0], a[2, 1], a[2, 2]))
  }

  lemma GetAt(a: array2<real>, i: int, j: int)
    requires Is3x3(a) && 0 <= i < 3 && 0 <= j < 3
    ensures Get(a).At(i, j) == a[i, j]
  {
  }

  /** The first `k` products of `r` and `c`, summed in the loop's order. */
  function PartialDot(r: Vec3, c: Vec3, k: int): real
    requires 0 <= k <= 3
  {
    if k == 0 then 0.0 else PartialDot(r, c, k - 1) + r.At(k - 1) * c.At(k - 1)
  }

  lemma PartialDotComplete(r: Vec3, c: Vec3)
    ensures PartialDot(r, c, 3) == Dot(r, c)
  {
    assert PartialDot(r, c, 1) == r.x * c.x;
    assert PartialDot(r, c, 2) == r.x * c.x + r.y * c.y;
  }

  /** Entry (i, j) of a product: row `i` of `a` against column `j` of `b`. */
  lemma MulAt(a: Mat3, b: Mat3, i: int, j: int)
    requires 0 <= i < 3 && 0 <= j < 3
    ensures Mul(a, b).At(i, j) == Dot(a.Row(i), Transpose(b).Row(j))
  {
    RowTimesColumn(a.Row(i), b, j);
    assert Mul(a, b).Row(i) == RowTimes(a.Row(i), b);
  }

  /** Column `j` of `b`, read at `k`, is entry (k, j). */
  lemma TransposeAt(b: Mat3, j: int, k: int)
    requires 0 <= j < 3 && 0 <= k < 3
    ensures Transpose(b).Row(j).At(k) == b.At(k, j)
  {
  }

  /** The `k`-th product of row `i` and column `j`, read from the arrays. */
  lemma EntryProduct(m1: array2<real>, m2: array2<real>, i: int, j: int, k: int)
    requires Is3x3(m1) && Is3x3(m2) && 0 <= i < 3 && 0 <= j < 3 && 0 <= k < 3
    ensures m1[i, k] * m2[k, j] == Get(m1).Row(i).At(k) * Transpose(Get(m2)).Row(j).At(k)
  {
    GetAt(m1, i, k);
    GetAt(m2, k, j);
    TransposeAt(Get(m2), j, k);
    MulCongruence(m1[i, k], m2[k, j], Get(m1).Row(i).At(k), Transpose(Get(m2)).Row(j).At(k));
  }

  lemma MulCongruence(p: real, q: real, x: real, y: real)
    requires p == x && q == y
    ensures p * q == x * y
  {
  }

  /** multiply_rot_mats: clears `out`, then accumulates row-by-column products into it. */
  method MultiplyRotMats(m1: array2<real>, m2: array2<real>, out: array2<real>)
    requires Is3x3(m1) && Is3x3(m2) && Is3x3(out)
    requires out != m1 && out != m2
    modifies out
    ensures Get(out) == Mul(Get(m1), Get(m2))
  {
    ghost var a, b := Get(m1), Get(m2);
    for i := 0 to 3
      invariant forall p, q :: 0 <= p < i && 0 <= q < 3 ==> out[p, q] == 0.0
    {
      for j := 0 to 3
        invariant forall p, q :: 0 <= p < i && 0 <= q < 3 ==> out[p, q] == 0.0
        invariant forall q :: 0 <= q < j ==> out[i, q] == 0.0
      {
        out[i, j] := 0.0;
      }
    }
    for i := 0 to 3
      invariant forall p, q :: 0 <= p < i && 0 <= q < 3 ==> out[p, q] == Mul(a, b).At(p, q)
      invariant forall p, q :: i <= p < 3 && 0 <= q < 3 ==> out[p, q] == 0.0
    {
      for j := 0 to 3
        invariant forall p, q :: 0 <= p < i && 0 <= q < 3 ==> out[p, q] == Mul(a, b).At(p, q)
        invariant forall p, q :: i < p < 3 && 0 <= q < 3 ==> out[p, q] == 0.0
        invariant forall q :: 0 <= q < j ==> out[i, q] == Mul(a, b).At(i, q)
        invariant forall q :: j <= q < 3 ==> out[i, q] == 0.0
      {
        for k := 0 to 3
          invariant forall p, q :: 0 <= p < i && 0 <= q < 3 ==> out[p, q] == Mul(a, b).At(p, q)
          invariant forall p, q :: i < p < 3 && 0 <= q < 3 ==> out[p, q] == 0.0
          invariant forall q :: 0 <= q < j ==> out[i, q] == Mul(a, b).At(i, q)
          invariant forall q :: j < q < 3 ==> out[i, q] == 0.0
          invariant out[i, j] == PartialDot(a.Row(i), Transpose(b).Row(j), k)
        {
          EntryProduct(m1, m2, i, j, k);
          out[i, j] := out[i, j] + m1[i, k] * m2[k, j];
        }
        PartialDotComplete(a.Row(i), Transpose(b).Row(j));
        MulAt(a, b, i, j);
      }
    }
    forall p, q | 0 <= p < 3 && 0 <= q < 3
      ensures Get(out).At(p, q) == Mul(a, b).At(p, q)
    {
      GetAt(out, p, q);
    }
    MatEq(Get(out), Mul(a, b));
  }

  /** Two matrices that agree at every index are equal. */
  lemma MatEq(a: Mat3, b: Mat3)
    requires forall i, j :: 0 <= i < 3 && 0 <= j < 3 ==> a.At(i, j) == b.At(i, j)
    ensures a == b
  {
    assert a.At(0, 0) == b.At(0, 0) && a.At(0, 1) == b.At(0, 1) && a.At(0, 2) == b.At(0, 2);
    assert a.At(1, 0) == b.At(1, 0) && a.At(1, 1) == b.At(1, 1) && a.At(1, 2) == b.At(1, 2);
    assert a.At(2, 0) == b.At(2, 0) && a.At(2, 1) == b.At(2, 1) && a.At(2, 2) == b.At(2, 2);
  }

  /** copy_rot_mat: `out` holds what `inp` held; `inp` and `out` may be the same array. */
  method CopyRotMat(inp: array2<real>, out: array2<real>)
    requires Is3x3(inp) && Is3x3(out)
    modifies out
    ensures Get(out) == old(Get(inp))
    ensures Get(inp) == old(Get(inp))
  {
    for i := 0 to 3
      invariant forall p, q :: 0 <= p < 3 && 0 <= q < 3 ==> inp[p, q] == old(inp[p, q])
      invariant forall p, q :: 0 <= p < i && 0 <= q < 3 ==> out[p, q] == old(inp[p, q])
    {
      for j := 0 to 3
        invariant forall p, q :: 0 <= p < 3 && 0 <= q < 3 ==> inp[p, q] == old(inp[p, q])
        invariant forall p, q :: 0 <= p < i && 0 <= q < 3 ==> out[p, q] == old(inp[p, q])
        invariant forall q :: 0 <= q < j ==> out[i, q] == old(inp[i, q])
      {
        out[i, j] := inp[i, j];
      }
    }
  }

  /** transpose_rot_mat: `out` receives the transpose of `inp`, which must be another array. */
  method TransposeRotMat(inp: array2<real>, out: array2<real>)
    requires Is3x3(inp) && Is3x3(out) && inp != out
    modifies out
    ensures Get(out) == Transpose(Get(inp))
  {
    for i := 0 to 3
      invariant forall p, q :: 0 <= p < i && 0 <= q < 3 ==> out[p, q] == inp[q, p]
    {
      for j := 0 to 3
        invariant forall p, q :: 0 <= p < i && 0 <= q < 3 ==> out[p, q] == inp[q, p]
        invariant forall q :: 0 <= q < j ==> out[i, q] == inp[q, i]
      {
        out[i, j] := inp[j, i];
      }
    }
  }

  /** apply_rotation: the new (x, y, z) is `rot` times the original (x, y, z); every output
      coordinate is computed from the saved inputs. */
  method ApplyRotation(rot: array2<real>, x: real, y: real, z: real) returns (x': real, y': real, z': real)
    requires Is3x3(rot)
    ensures Vec3(x', y', z') == Apply(Get(rot), Vec3(x, y, z))
  {
    var xTemp, yTemp, zTemp := x, y, z;
    x' := rot[0, 0] * xTemp + rot[0, 1] * yTemp + rot[0, 2] * zTemp;
    y' := rot[1, 0] * xTemp + rot[1, 1] * yTemp + rot[1, 2] * zTemp;
    z' := rot[2, 0] * xTemp + rot[2, 1] * yTemp + rot[2, 2] * zTemp;
  }

  /** compute_rotation_matrix: writes all nine entries of `rot` with the rotation about `axis`. */
  method ComputeRotationMatrix(rot: array2<real>, m: MathLib, angle: real, axis: Axis)
    requires Is3x3(rot)
    modifies rot
    ensures Get(rot) == Rotation(m, axis, angle)
  {
    var a := angle;
    if a < 0.0 { a := a + 2.0 * PI; }
    var c, s := m.cos(a), m.sin(a);
    match axis
    case Pitch =>
      rot[0, 0], rot[1, 0], rot[2, 0] := 1.0, 0.0, 0.0;
      rot[0, 1], rot[1, 1], rot[2, 1] := 0.0, c, -s;
      rot[0, 2], rot[1, 2], rot[2, 2] := 0.0, s, c;
    case Yaw =>
      rot[0, 0], rot[1, 0], rot[2, 0] := c, 0.0, s;
      rot[0, 1], rot[1, 1], rot[2, 1] := 0.0, 1.0, 0.0;
      rot[0, 2], rot[1, 2], rot[2, 2] := -s, 0.0, c;
    case Roll =>
      rot[0, 0], rot[1, 0], rot[2, 0] := c, -s, 0.0;
      rot[0, 1], rot[1, 1], rot[2, 1] := s, c, 0.0;
      rot[0, 2], rot[1, 2], rot[2, 2] := 0.0, 0.0, 1.0;
  }
}
