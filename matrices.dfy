/**
 * 4x4 matrices (matrix4.c, layout in matrix4.h).
 *
 * A `Matrix4` holds its sixteen entries by name, row-major: `xij` is row i,
 * column j. Matrices act on column vectors (`VMul(m, v)` is m * v). The
 * source fills an `out` structure through a pointer; here every operation
 * returns a new value, so an operation whose `out` aliases an input is just
 * an assignment of the result (as `Model` does with its model matrix).
 */
module Matrices {
  import opened Vectors

  datatype Matrix4 = Matrix4(x00: real, x01: real, x02: real, x03: real,
                           x10: real, x11: real, x12: real, x13: real,
                           x20: real, x21: real, x22: real, x23: real,
                           x30: real, x31: real, x32: real, x33: real)

  /** The value of `sinf` and `cosf` at one angle; the trigonometry itself stays outside the model. */
  datatype Trig = Trig(cos: real, sin: real)

  /** Row i as a tuple. */
  function Row(m: Matrix4, i: nat): (real, real, real, real)
    requires i < 4
  {
    if i == 0 then (m.x00, m.x01, m.x02, m.x03)
    else if i == 1 then (m.x10, m.x11, m.x12, m.x13)
    else if i == 2 then (m.x20, m.x21, m.x22, m.x23)
    else (m.x30, m.x31, m.x32, m.x33)
  }

  /** The entry at row i, column j. */
  function Entry(m: Matrix4, i: nat, j: nat): real
    requires i < 4 && j < 4
  {
    var r := Row(m, i);
    if j == 0 then r.0 else if j == 1 then r.1 else if j == 2 then r.2 else r.3
  }

  /** Row i of `a` times column j of `b`: the textbook definition of a product entry. */
  function RowTimesColumn(a: Matrix4, b: Matrix4, i: nat, j: nat): real
    requires i < 4 && j < 4
  {
    Entry(a, i, 0) * Entry(b, 0, j) + Entry(a, i, 1) * Entry(b, 1, j)
    + Entry(a, i, 2) * Entry(b, 2, j) + Entry(a, i, 3) * Entry(b, 3, j)
  }

  /** Entry-wise sum. */
  function Add(a: Matrix4, b: Matrix4): Matrix4
  {
    Matrix4(a.x00 + b.x00, a.x01 + b.x01, a.x02 + b.x02, a.x03 + b.x03,
            a.x10 + b.x10, a.x11 + b.x11, a.x12 + b.x12, a.x13 + b.x13,
            a.x20 + b.x20, a.x21 + b.x21, a.x22 + b.x22, a.x23 + b.x23,
            a.x30 + b.x30, a.x31 + b.x31, a.x32 + b.x32, a.x33 + b.x33)
  }

  /** Entry-wise difference. */
  function Sub(a: Matrix4, b: Matrix4): Matrix4
  {
    Matrix4(a.x00 - b.x00, a.x01 - b.x01, a.x02 - b.x02, a.x03 - b.x03,
            a.x10 - b.x10, a.x11 - b.x11, a.x12 - b.x12, a.x13 - b.x13,
            a.x20 - b.x20, a.x21 - b.x21, a.x22 - b.x22, a.x23 - b.x23,
            a.x30 - b.x30, a.x31 - b.x31, a.x32 - b.x32, a.x33 - b.x33)
  }

  /** The product a * b; the source reads all 32 inputs before writing any output. */
  function Mul(a: Matrix4, b: Matrix4): Matrix4
  {
    Matrix4(
      a.x00 * b.x00 + a.x01 * b.x10 + a.x02 * b.x20 + a.x03 * b.x30,
      a.x00 * b.x01 + a.x01 * b.x11 + a.x02 * b.x21 + a.x03 * b.x31,
      a.x00 * b.x02 + a.x01 * b.x12 + a.x02 * b.x22 + a.x03 * b.x32,
      a.x00 * b.x03 + a.x01 * b.x13 + a.x02 * b.x23 + a.x03 * b.x33,
      a.x10 * b.x00 + a.x11 * b.x10 + a.x12 * b.x20 + a.x13 * b.x30,
      a.x10 * b.x01 + a.x11 * b.x11 + a.x12 * b.x21 + a.x13 * b.x31,
      a.x10 * b.x02 + a.x11 * b.x12 + a.x12 * b.x22 + a.x13 * b.x32,
      a.x10 * b.x03 + a.x11 * b.x13 + a.x12 * b.x23 + a.x13 * b.x33,
      a.x20 * b.x00 + a.x21 * b.x10 + a.x22 * b.x20 + a.x23 * b.x30,
      a.x20 * b.x01 + a.x21 * b.x11 + a.x22 * b.x21 + a.x23 * b.x31,
      a.x20 * b.x02 + a.x21 * b.x12 + a.x22 * b.x22 + a.x23 * b.x32,
      a.x20 * b.x03 + a.x21 * b.x13 + a.x22 * b.x23 + a.x23 * b.x33,
      a.x30 * b.x00 + a.x31 * b.x10 + a.x32 * b.x20 + a.x33 * b.x30,
      a.x30 * b.x01 + a.x31 * b.x11 + a.x32 * b.x21 + a.x33 * b.x31,
      a.x30 * b.x02 + a.x31 * b.x12 + a.x32 * b.x22 + a.x33 * b.x32,
      a.x30 * b.x03 + a.x31 * b.x13 + a.x32 * b.x23 + a.x33 * b.x33)
  }

  /** Every entry times s. */
  function SMul(a: Matrix4, s: real): Matrix4
  {
    Matrix4(a.x00 * s, a.x01 * s, a.x02 * s, a.x03 * s,
            a.x10 * s, a.x11 * s, a.x12 * s, a.x13 * s,
            a.x20 * s, a.x21 * s, a.x22 * s, a.x23 * s,
            a.x30 * s, a.x31 * s, a.x32 * s, a.x33 * s)
  }

  /** The matrix applied to a column vector, weight included. */
  function VMul(a: Matrix4, v: Vector3): Vector3
  {
    Vector3(v.x * a.x00 + v.y * a.x01 + v.z * a.x02 + v.w * a.x03,
            v.x * a.x10 + v.y * a.x11 + v.z * a.x12 + v.w * a.x13,
            v.x * a.x20 + v.y * a.x21 + v.z * a.x22 + v.w * a.x23,
            v.x * a.x30 + v.y * a.x31 + v.z * a.x32 + v.w * a.x33)
  }

  /** `Vector3_mul_Matrix4` of vector3.c: the same product as `VMul`, arguments swapped. */
  function Vector3MulMatrix4(v: Vector3, m: Matrix4): (r: Vector3)
    ensures r == VMul(m, v)
  {
    Vector3(v.x * m.x00 + v.y * m.x01 + v.z * m.x02 + v.w * m.x03,
            v.x * m.x10 + v.y * m.x11 + v.z * m.x12 + v.w * m.x13,
            v.x * m.x20 + v.y * m.x21 + v.z * m.x22 + v.w * m.x23,
            v.x * m.x30 + v.y * m.x31 + v.z * m.x32 + v.w * m.x33)
  }

  function Transpose(a: Matrix4): Matrix4
  {
    Matrix4(a.x00, a.x10, a.x20, a.x30,
            a.x01, a.x11, a.x21, a.x31,
            a.x02, a.x12, a.x22, a.x32,
            a.x03, a.x13, a.x23, a.x33)
  }

  /** The trace: the sum of the diagonal. */
  function Tr(a: Matrix4): real
  {
    a.x00 + a.x11 + a.x22 + a.x33
  }

  /** The determinant of the 3x3 matrix [a b c; d e f; g h i], expanded along its first row. */
  function Det3(a: real, b: real, c: real, d: real, e: real, f: real, g: real, h: real, i: real): real
  {
    a * (e * i - f * h) - b * (d * i - f * g) + c * (d * h - e * g)
  }

  /** The determinant, by cofactor expansion along row 0 with alternating signs. */
  function Det(m: Matrix4): real
  {
    var det00 := Det3(m.x11, m.x12, m.x13, m.x21, m.x22, m.x23, m.x31, m.x32, m.x33);
    var det01 := Det3(m.x10, m.x12, m.x13, m.x20, m.x22, m.x23, m.x30, m.x32, m.x33);
    var det02 := Det3(m.x10, m.x11, m.x13, m.x20, m.x21, m.x23, m.x30, m.x31, m.x33);
    var det03 := Det3(m.x10, m.x11, m.x12, m.x20, m.x21, m.x22, m.x30, m.x31, m.x32);
    m.x00 * det00 - m.x01 * det01 + m.x02 * det02 - m.x03 * det03
  }

  function Zero(): Matrix4
  {
    Matrix4(0.0, 0.0, 0.0, 0.0,
            0.0, 0.0, 0.0, 0.0,
            0.0, 0.0, 0.0, 0.0,
            0.0, 0.0, 0.0, 0.0)
  }

  function Identity(): Matrix4
  {
    Matrix4(1.0, 0.0, 0.0, 0.0,
            0.0, 1.0, 0.0, 0.0,
            0.0, 0.0, 1.0, 0.0,
            0.0, 0.0, 0.0, 1.0)
  }

  /** One sixth, the Cayley-Hamilton constant-term divisor. */
  const Sixth: real := 1.0 / 6.0

  /**
   * The Cayley-Hamilton adjugate, c0 I - c1 A + tr(A) A^2 - A^3, with
   * c0 = (t^3 - 3 t t2 + 2 t3) / 6, c1 = (t^2 - t2) / 2 and t, t2, t3 the
   * traces of A, A^2 and A^3, accumulated in the source's order.
   */
  function CayleyHamilton(a: Matrix4): Matrix4
  {
    var a2 := Mul(a, a);
    AdjugateFromPowers(a, a2, Mul(a2, a))
  }

  /** The Cayley-Hamilton sum for A given its square `a2` and cube `a3`. */
  function AdjugateFromPowers(a: Matrix4, a2: Matrix4, a3: Matrix4): Matrix4
  {
    var trA, trA2, trA3 := Tr(a), Tr(a2), Tr(a3);
    var term1 := SMul(Identity(), (trA * trA * trA - 3.0 * trA * trA2 + 2.0 * trA3) * Sixth);
    var term2 := SMul(a, (trA * trA - trA2) * 0.5);
    var term3 := SMul(a2, trA);
    var term4 := a3;
    Sub(Add(Sub(term1, term2), term3), term4)
  }

  /**
   * The inverse: the Cayley-Hamilton adjugate divided by the determinant.
   * The source divides unguarded; over the reals the division needs
   * det(A) != 0.
   */
  function Inverse(a: Matrix4): Matrix4
    requires Det(a) != 0.0
  {
    SMul(CayleyHamilton(a), 1.0 / Det(a))
  }

  /** Moves a point by (dx, dy, dz). */
  function Translate(dx: real, dy: real, dz: real): Matrix4
  {
    Matrix4(1.0, 0.0, 0.0, dx,
            0.0, 1.0, 0.0, dy,
            0.0, 0.0, 1.0, dz,
            0.0, 0.0, 0.0, 1.0)
  }

  /** Rotation about the x axis; `t` holds the cosine and sine of the angle. */
  function RotateX(t: Trig): Matrix4
  {
    Matrix4(1.0, 0.0, 0.0, 0.0,
            0.0, t.cos, -t.sin, 0.0,
            0.0, t.sin, t.cos, 0.0,
            0.0, 0.0, 0.0, 1.0)
  }

  /** Rotation about the y axis. */
  function RotateY(t: Trig): Matrix4
  {
    Matrix4(t.cos, 0.0, t.sin, 0.0,
            0.0, 1.0, 0.0, 0.0,
            -t.sin, 0.0, t.cos, 0.0,
            0.0, 0.0, 0.0, 1.0)
  }

  /** Rotation about the z axis. */
  function RotateZ(t: Trig): Matrix4
  {
    Matrix4(t.cos, -t.sin, 0.0, 0.0,
            t.sin, t.cos, 0.0, 0.0,
            0.0, 0.0, 1.0, 0.0,
            0.0, 0.0, 0.0, 1.0)
  }

  /** Rotation about x, then y, then z: Rz * (Ry * Rx). */
  function RotateXYZ(rx: Trig, ry: Trig, rz: Trig): Matrix4
  {
    Mul(RotateZ(rz), Mul(RotateY(ry), RotateX(rx)))
  }

  function Scale(sx: real, sy: real, sz: real): Matrix4
  {
    Matrix4(sx, 0.0, 0.0, 0.0,
            0.0, sy, 0.0, 0.0,
            0.0, 0.0, sz, 0.0,
            0.0, 0.0, 0.0, 1.0)
  }

  /**
   * Perspective projection. `invTan` is 1 / tan(fov / 2), fov in radians.
   * The output weight is the camera-space z; the source divides by
   * zfar - znear unguarded, which over the reals needs zfar != znear.
   */
  function Perspective(invTan: real, aspectRatio: real, znear: real, zfar: real): Matrix4
    requires zfar != znear
  {
    Matrix4(invTan, 0.0, 0.0, 0.0,
            0.0, aspectRatio * invTan, 0.0, 0.0,
            0.0, 0.0, zfar / (zfar - znear), -zfar * znear / (zfar - znear),
            0.0, 0.0, 1.0, 0.0)
  }

  /**
   * The view matrix of a camera at `eye` looking at `target`. `invNorm` is
   * 1 / |target - eye|, the factor `Vector3_normalize` applies.
   * The rows are the camera basis (right, new up, forward), the translation
   * column is minus the eye's coordinates in that basis.
   */
  function LookAt(eye: Vector3, target: Vector3, up: Vector3, invNorm: real): Matrix4
  {
    var forward := Vectors.SMul(Vectors.Sub(target, eye), invNorm);
    var right := Cross(up, forward);
    var newUp := Cross(forward, right);
    Matrix4(right.x, right.y, right.z, -Dot(eye, right),
            newUp.x, newUp.y, newUp.z, -Dot(eye, newUp),
            forward.x, forward.y, forward.z, -Dot(eye, forward),
            0.0, 0.0, 0.0, 1.0)
  }

  /** Normalised device coordinates to pixels: scale(w/2, h/2, 1) * translate(1, 1, 0). */
  function Viewport(windowWidth: int, windowHeight: int): Matrix4
  {
    Mul(Scale(0.5 * windowWidth as real, 0.5 * windowHeight as real, 1.0), Translate(1.0, 1.0, 0.0))
  }

  /** The named-field product agrees with the row-by-column definition at every entry. */
  lemma MulIsRowByColumn(a: Matrix4, b: Matrix4, i: nat, j: nat)
    requires i < 4 && j < 4
    ensures Entry(Mul(a, b), i, j) == RowTimesColumn(a, b, i, j)
  {
    if i == 0 {
      MulRow0(a, b, j);
    } else if i == 1 {
      MulRow1(a, b, j);
    } else if i == 2 {
      MulRow2(a, b, j);
    } else {
      MulRow3(a, b, j);
    }
  }

  lemma MulRow0(a: Matrix4, b: Matrix4, j: nat)
    requires j < 4
    ensures Entry(Mul(a, b), 0, j) == RowTimesColumn(a, b, 0, j)
  {
  }

  lemma MulRow1(a: Matrix4, b: Matrix4, j: nat)
    requires j < 4
    ensures Entry(Mul(a, b), 1, j) == RowTimesColumn(a, b, 1, j)
  {
  }

  lemma MulRow2(a: Matrix4, b: Matrix4, j: nat)
    requires j < 4
    ensures Entry(Mul(a, b), 2, j) == RowTimesColumn(a, b, 2, j)
  {
  }

  lemma MulRow3(a: Matrix4, b: Matrix4, j: nat)
    requires j < 4
    ensures Entry(Mul(a, b), 3, j) == RowTimesColumn(a, b, 3, j)
  {
  }

  /** The identity is a two-sided unit of the product. */
  lemma MulIdentity(m: Matrix4)
    ensures Mul(Identity(), m) == m
    ensures Mul(m, Identity()) == m
  {
  }

  /** One entry of (A B) C against A (B C): row a of A, all of B, column c of C. */
  lemma EntryAssociative(a0: real, a1: real, a2: real, a3: real, b00: real, b01: real, b02: real, b03: real, b10: real, b11: real, b12: real, b13: real, b20: real, b21: real, b22: real, b23: real, b30: real, b31: real, b32: real, b33: real, c0: real, c1: real, c2: real, c3: real, ab0: real, ab1: real, ab2: real, ab3: real, bc0: real, bc1: real, bc2: real, bc3: real)
    requires ab0 == a0 * b00 + a1 * b10 + a2 * b20 + a3 * b30
    requires ab1 == a0 * b01 + a1 * b11 + a2 * b21 + a3 * b31
    requires ab2 == a0 * b02 + a1 * b12 + a2 * b22 + a3 * b32
    requires ab3 == a0 * b03 + a1 * b13 + a2 * b23 + a3 * b33
    requires bc0 == b00 * c0 + b01 * c1 + b02 * c2 + b03 * c3
    requires bc1 == b10 * c0 + b11 * c1 + b12 * c2 + b13 * c3
    requires bc2 == b20 * c0 + b21 * c1 + b22 * c2 + b23 * c3
    requires bc3 == b30 * c0 + b31 * c1 + b32 * c2 + b33 * c3
    ensures ab0 * c0 + ab1 * c1 + ab2 * c2 + ab3 * c3 == a0 * bc0 + a1 * bc1 + a2 * bc2 + a3 * bc3
  {
    calc {
      ab0 * c0 + ab1 * c1 + ab2 * c2 + ab3 * c3;
      (a0 * b00 + a1 * b10 + a2 * b20 + a3 * b30) * c0
        + (a0 * b01 + a1 * b11 + a2 * b21 + a3 * b31) * c1
        + (a0 * b02 + a1 * b12 + a2 * b22 + a3 * b32) * c2
        + (a0 * b03 + a1 * b13 + a2 * b23 + a3 * b33) * c3;
      a0 * (b00 * c0 + b01 * c1 + b02 * c2 + b03 * c3)
        + a1 * (b10 * c0 + b11 * c1 + b12 * c2 + b13 * c3)
        + a2 * (b20 * c0 + b21 * c1 + b22 * c2 + b23 * c3)
        + a3 * (b30 * c0 + b31 * c1 + b32 * c2 + b33 * c3);
      a0 * bc0 + a1 * bc1 + a2 * bc2 + a3 * bc3;
    }
  }

  /**
   * Entry (i, j) of (A B) C equals entry (i, j) of A (B C); one lemma per
   * entry keeps each proof obligation small.
   */
  lemma AssociativeEntry00(a: Matrix4, b: Matrix4, c: Matrix4)
    ensures Mul(Mul(a, b), c).x00 == Mul(a, Mul(b, c)).x00
  {
    var ab, bc := Mul(a, b), Mul(b, c);
    EntryAssociative(a.x00, a.x01, a.x02, a.x03, b.x00, b.x01, b.x02, b.x03, b.x10, b.x11, b.x12, b.x13, b.x20, b.x21, b.x22, b.x23, b.x30, b.x31, b.x32, b.x33, c.x00, c.x10, c.x20, c.x30, ab.x00, ab.x01, ab.x02, ab.x03, bc.x00, bc.x10, bc.x20, bc.x30);
  }

  lemma AssociativeEntry01(a: Matrix4, b: Matrix4, c: Matrix4)
    ensures Mul(Mul(a, b), c).x01 == Mul(a, Mul(b, c)).x01
  {
    var ab, bc := Mul(a, b), Mul(b, c);
    EntryAssociative(a.x00, a.x01, a.x02, a.x03, b.x00, b.x01, b.x02, b.x03, b.x10, b.x11, b.x12, b.x13, b.x20, b.x21, b.x22, b.x23, b.x30, b.x31, b.x32, b.x33, c.x01, c.x11, c.x21, c.x31, ab.x00, ab.x01, ab.x02, ab.x03, bc.x01, bc.x11, bc.x21, bc.x31);
  }

  lemma AssociativeEntry02(a: Matrix4, b: Matrix4, c: Matrix4)
    ensures Mul(Mul(a, b), c).x02 == Mul(a, Mul(b, c)).x02
  {
    var ab, bc := Mul(a, b), Mul(b, c);
    EntryAssociative(a.x00, a.x01, a.x02, a.x03, b.x00, b.x01, b.x02, b.x03, b.x10, b.x11, b.x12, b.x13, b.x20, b.x21, b.x22, b.x23, b.x30, b.x31, b.x32, b.x33, c.x02, c.x12, c.x22, c.x32, ab.x00, ab.x01, ab.x02, ab.x03, bc.x02, bc.x12, bc.x22, bc.x32);
  }

  lemma AssociativeEntry03(a: Matrix4, b: Matrix4, c: Matrix4)
    ensures Mul(Mul(a, b), c).x03 == Mul(a, Mul(b, c)).x03
  {
    var ab, bc := Mul(a, b), Mul(b, c);
    EntryAssociative(a.x00, a.x01, a.x02, a.x03, b.x00, b.x01, b.x02, b.x03, b.x10, b.x11, b.x12, b.x13, b.x20, b.x21, b.x22, b.x23, b.x30, b.x31, b.x32, b.x33, c.x03, c.x13, c.x23, c.x33, ab.x00, ab.x01, ab.x02, ab.x03, bc.x03, bc.x13, bc.x23, bc.x33);
  }

  lemma AssociativeEntry10(a: Matrix4, b: Matrix4, c: Matrix4)
    ensures Mul(Mul(a, b), c).x10 == Mul(a, Mul(b, c)).x10
  {
    var ab, bc := Mul(a, b), Mul(b, c);
    EntryAssociative(a.x10, a.x11, a.x12, a.x13, b.x00, b.x01, b.x02, b.x03, b.x10, b.x11, b.x12, b.x13, b.x20, b.x21, b.x22, b.x23, b.x30, b.x31, b.x32, b.x33, c.x00, c.x10, c.x20, c.x30, ab.x10, ab.x11, ab.x12, ab.x13, bc.x00, bc.x10, bc.x20, bc.x30);
  }

  lemma AssociativeEntry11(a: Matrix4, b: Matrix4, c: Matrix4)
    ensures Mul(Mul(a, b), c).x11 == Mul(a, Mul(b, c)).x11
  {
    var ab, bc := Mul(a, b), Mul(b, c);
    EntryAssociative(a.x10, a.x11, a.x12, a.x13, b.x00, b.x01, b.x02, b.x03, b.x10, b.x11, b.x12, b.x13, b.x20, b.x21, b.x22, b.x23, b.x30, b.x31, b.x32, b.x33, c.x01, c.x11, c.x21, c.x31, ab.x10, ab.x11, ab.x12, ab.x13, bc.x01, bc.x11, bc.x21, bc.x31);
  }

  lemma AssociativeEntry12(a: Matrix4, b: Matrix4, c: Matrix4)
    ensures Mul(Mul(a, b), c).x12 == Mul(a, Mul(b, c)).x12
  {
    var ab, bc := Mul(a, b), Mul(b, c);
    EntryAssociative(a.x10, a.x11, a.x12, a.x13, b.x00, b.x01, b.x02, b.x03, b.x10, b.x11, b.x12, b.x13, b.x20, b.x21, b.x22, b.x23, b.x30, b.x31, b.x32, b.x33, c.x02, c.x12, c.x22, c.x32, ab.x10, ab.x11, ab.x12, ab.x13, bc.x02, bc.x12, bc.x22, bc.x32);
  }

  lemma AssociativeEntry13(a: Matrix4, b: Matrix4, c: Matrix4)
    ensures Mul(Mul(a, b), c).x13 == Mul(a, Mul(b, c)).x13
  {
    var ab, bc := Mul(a, b), Mul(b, c);
    EntryAssociative(a.x10, a.x11, a.x12, a.x13, b.x00, b.x01, b.x02, b.x03, b.x10, b.x11, b.x12, b.x13, b.x20, b.x21, b.x22, b.x23, b.x30, b.x31, b.x32, b.x33, c.x03, c.x13, c.x23, c.x33, ab.x10, ab.x11, ab.x12, ab.x13, bc.x03, bc.x13, bc.x23, bc.x33);
  }

  lemma AssociativeEntry20(a: Matrix4, b: Matrix4, c: Matrix4)
    ensures Mul(Mul(a, b), c).x20 == Mul(a, Mul(b, c)).x20
  {
    var ab, bc := Mul(a, b), Mul(b, c);
    EntryAssociative(a.x20, a.x21, a.x22, a.x23, b.x00, b.x01, b.x02, b.x03, b.x10, b.x11, b.x12, b.x13, b.x20, b.x21, b.x22, b.x23, b.x30, b.x31, b.x32, b.x33, c.x00, c.x10, c.x20, c.x30, ab.x20, ab.x21, ab.x22, ab.x23, bc.x00, bc.x10, bc.x20, bc.x30);
  }

  lemma AssociativeEntry21(a: Matrix4, b: Matrix4, c: Matrix4)
    ensures Mul(Mul(a, b), c).x21 == Mul(a, Mul(b, c)).x21
  {
    var ab, bc := Mul(a, b), Mul(b, c);
    EntryAssociative(a.x20, a.x21, a.x22, a.x23, b.x00, b.x01, b.x02, b.x03, b.x10, b.x11, b.x12, b.x13, b.x20, b.x21, b.x22, b.x23, b.x30, b.x31, b.x32, b.x33, c.x01, c.x11, c.x21, c.x31, ab.x20, ab.x21, ab.x22, ab.x23, bc.x01, bc.x11, bc.x21, bc.x31);
  }

  lemma AssociativeEntry22(a: Matrix4, b: Matrix4, c: Matrix4)
    ensures Mul(Mul(a, b), c).x22 == Mul(a, Mul(b, c)).x22
  {
    var ab, bc := Mul(a, b), Mul(b, c);
    EntryAssociative(a.x20, a.x21, a.x22, a.x23, b.x00, b.x01, b.x02, b.x03, b.x10, b.x11, b.x12, b.x13, b.x20, b.x21, b.x22, b.x23, b.x30, b.x31, b.x32, b.x33, c.x02, c.x12, c.x22, c.x32, ab.x20, ab.x21, ab.x22, ab.x23, bc.x02, bc.x12, bc.x22, bc.x32);
  }

  lemma AssociativeEntry23(a: Matrix4, b: Matrix4, c: Matrix4)
    ensures Mul(Mul(a, b), c).x23 == Mul(a, Mul(b, c)).x23
  {
    var ab, bc := Mul(a, b), Mul(b, c);
    EntryAssociative(a.x20, a.x21, a.x22, a.x23, b.x00, b.x01, b.x02, b.x03, b.x10, b.x11, b.x12, b.x13, b.x20, b.x21, b.x22, b.x23, b.x30, b.x31, b.x32, b.x33, c.x03, c.x13, c.x23, c.x33, ab.x20, ab.x21, ab.x22, ab.x23, bc.x03, bc.x13, bc.x23, bc.x33);
  }

  lemma AssociativeEntry30(a: Matrix4, b: Matrix4, c: Matrix4)
    ensures Mul(Mul(a, b), c).x30 == Mul(a, Mul(b, c)).x30
  {
    var ab, bc := Mul(a, b), Mul(b, c);
    EntryAssociative(a.x30, a.x31, a.x32, a.x33, b.x00, b.x01, b.x02, b.x03, b.x10, b.x11, b.x12, b.x13, b.x20, b.x21, b.x22, b.x23, b.x30, b.x31, b.x32, b.x33, c.x00, c.x10, c.x20, c.x30, ab.x30, ab.x31, ab.x32, ab.x33, bc.x00, bc.x10, bc.x20, bc.x30);
  }

  lemma AssociativeEntry31(a: Matrix4, b: Matrix4, c: Matrix4)
    ensures Mul(Mul(a, b), c).x31 == Mul(a, Mul(b, c)).x31
  {
    var ab, bc := Mul(a, b), Mul(b, c);
    EntryAssociative(a.x30, a.x31, a.x32, a.x33, b.x00, b.x01, b.x02, b.x03, b.x10, b.x11, b.x12, b.x13, b.x20, b.x21, b.x22, b.x23, b.x30, b.x31, b.x32, b.x33, c.x01, c.x11, c.x21, c.x31, ab.x30, ab.x31, ab.x32, ab.x33, bc.x01, bc.x11, bc.x21, bc.x31);
  }

  lemma AssociativeEntry32(a: Matrix4, b: Matrix4, c: Matrix4)
    ensures Mul(Mul(a, b), c).x32 == Mul(a, Mul(b, c)).x32
  {
    var ab, bc := Mul(a, b), Mul(b, c);
    EntryAssociative(a.x30, a.x31, a.x32, a.x33, b.x00, b.x01, b.x02, b.x03, b.x10, b.x11, b.x12, b.x13, b.x20, b.x21, b.x22, b.x23, b.x30, b.x31, b.x32, b.x33, c.x02, c.x12, c.x22, c.x32, ab.x30, ab.x31, ab.x32, ab.x33, bc.x02, bc.x12, bc.x22, bc.x32);
  }

  lemma AssociativeEntry33(a: Matrix4, b: Matrix4, c: Matrix4)
    ensures Mul(Mul(a, b), c).x33 == Mul(a, Mul(b, c)).x33
  {
    var ab, bc := Mul(a, b), Mul(b, c);
    EntryAssociative(a.x30, a.x31, a.x32, a.x33, b.x00, b.x01, b.x02, b.x03, b.x10, b.x11, b.x12, b.x13, b.x20, b.x21, b.x22, b.x23, b.x30, b.x31, b.x32, b.x33, c.x03, c.x13, c.x23, c.x33, ab.x30, ab.x31, ab.x32, ab.x33, bc.x03, bc.x13, bc.x23, bc.x33);
  }

  /** The product is associative. */
  lemma MulAssociative(a: Matrix4, b: Matrix4, c: Matrix4)
    ensures Mul(Mul(a, b), c) == Mul(a, Mul(b, c))
  {
    AssociativeEntry00(a, b, c);
    AssociativeEntry01(a, b, c);
    AssociativeEntry02(a, b, c);
    AssociativeEntry03(a, b, c);
    AssociativeEntry10(a, b, c);
    AssociativeEntry11(a, b, c);
    AssociativeEntry12(a, b, c);
    AssociativeEntry13(a, b, c);
    AssociativeEntry20(a, b, c);
    AssociativeEntry21(a, b, c);
    AssociativeEntry22(a, b, c);
    AssociativeEntry23(a, b, c);
    AssociativeEntry30(a, b, c);
    AssociativeEntry31(a, b, c);
    AssociativeEntry32(a, b, c);
    AssociativeEntry33(a, b, c);
  }

  /** The matrix whose first column is v and whose other columns are zero. */
  function Column(v: Vector3): Matrix4
  {
    Zero().(x00 := v.x, x10 := v.y, x20 := v.z, x30 := v.w)
  }

  /** Multiplying by a column matrix is applying the matrix to the column. */
  lemma MulColumn(m: Matrix4, v: Vector3)
    ensures Mul(m, Column(v)) == Column(VMul(m, v))
  {
  }

  /** Applying a product is applying its factors, right one first. */
  lemma VMulMul(a: Matrix4, b: Matrix4, v: Vector3)
    ensures VMul(Mul(a, b), v) == VMul(a, VMul(b, v))
  {
    MulColumn(Mul(a, b), v);
    MulAssociative(a, b, Column(v));
    MulColumn(b, v);
    MulColumn(a, VMul(b, v));
    assert Column(VMul(Mul(a, b), v)) == Column(VMul(a, VMul(b, v)));
  }

  /** The identity leaves every vector unchanged. */
  lemma VMulIdentity(v: Vector3)
    ensures VMul(Identity(), v) == v
    ensures Vector3MulMatrix4(v, Identity()) == v
  {
  }

  /** `Sub` undoes `Add`; `SMul` by 1 changes nothing. */
  lemma AddSubInverse(a: Matrix4, b: Matrix4)
    ensures Sub(Add(a, b), b) == a
    ensures SMul(a, 1.0) == a
  {
  }

  /** Transposing twice gives back the matrix, and the trace is unchanged. */
  lemma TransposeInvolution(a: Matrix4)
    ensures Transpose(Transpose(a)) == a
    ensures Tr(Transpose(a)) == Tr(a)
  {
  }

  /** Transposing a product reverses its factors. */
  lemma TransposeMul(a: Matrix4, b: Matrix4)
    ensures Transpose(Mul(a, b)) == Mul(Transpose(b), Transpose(a))
  {
  }

  /** det(scale(sx, sy, sz)) = sx sy sz; in particular det(I) = 1. */
  lemma DetScale(sx: real, sy: real, sz: real)
    ensures Det(Scale(sx, sy, sz)) == sx * sy * sz
    ensures Det(Identity()) == 1.0
  {
    var m := Scale(sx, sy, sz);
    assert Det3(m.x11, m.x12, m.x13, m.x21, m.x22, m.x23, m.x31, m.x32, m.x33) == sy * sz;
    assert Det3(m.x10, m.x12, m.x13, m.x20, m.x22, m.x23, m.x30, m.x32, m.x33) == 0.0;
    assert Det3(m.x10, m.x11, m.x13, m.x20, m.x21, m.x23, m.x30, m.x31, m.x33) == 0.0;
    assert Det3(m.x10, m.x11, m.x12, m.x20, m.x21, m.x22, m.x30, m.x31, m.x32) == 0.0;
    assert Identity() == Scale(1.0, 1.0, 1.0);
  }

  /** Expanding along row 0 gives the same value as expanding along column 0. */
  lemma DetTranspose(a: Matrix4)
    ensures Det(Transpose(a)) == Det(a)
  {
  }

  /** The Cayley-Hamilton inverse of the identity is the identity. */
  lemma InverseIdentity(m: Matrix4)
    requires m == Identity()
    ensures Det(m) == 1.0
    ensures Inverse(m) == m
  {
    DetScale(1.0, 1.0, 1.0);
    CayleyHamiltonIdentity();
    InverseUnitDet(m, m);
  }

  /** With determinant 1 the inverse is the adjugate itself. */
  lemma InverseUnitDet(m: Matrix4, adj: Matrix4)
    requires Det(m) == 1.0 && CayleyHamilton(m) == adj
    ensures Inverse(m) == adj
  {
    ScaleByOne(adj, Det(m));
  }

  /** Dividing by a determinant of 1 changes nothing. */
  lemma ScaleByOne(m: Matrix4, d: real)
    requires d == 1.0
    ensures SMul(m, 1.0 / d) == m
  {
  }

  /** The identity squared is the identity. */
  lemma IdentitySquared()
    ensures Mul(Identity(), Identity()) == Identity()
  {
    MulIdentity(Identity());
  }

  /** The Cayley-Hamilton adjugate of the identity is the identity. */
  lemma CayleyHamiltonIdentity()
    ensures CayleyHamilton(Identity()) == Identity()
  {
    IdentitySquared();
    AdjugateOfIdentity();
  }

  /** With every power equal to I and trace 4 the sum is 4 I - 6 I + 4 I - I. */
  lemma AdjugateOfIdentity()
    ensures AdjugateFromPowers(Identity(), Identity(), Identity()) == Identity()
  {
    assert Tr(Identity()) == 4.0;
    assert (4.0 * 4.0 * 4.0 - 3.0 * 4.0 * 4.0 + 2.0 * 4.0) * Sixth == 4.0;
    assert (4.0 * 4.0 - 4.0) * 0.5 == 6.0;
  }

  /** A translation moves a point (w = 1) by (dx, dy, dz) and leaves a direction (w = 0) alone. */
  lemma TranslateAction(dx: real, dy: real, dz: real, v: Vector3)
    ensures v.w == 1.0 ==> VMul(Translate(dx, dy, dz), v) == Vectors.Add(v, CreateDirection(dx, dy, dz))
    ensures v.w == 0.0 ==> VMul(Translate(dx, dy, dz), v) == v
  {
  }

  /** Two translations compose into one by the summed offsets. */
  lemma TranslateCompose(ux: real, uy: real, uz: real, vx: real, vy: real, vz: real)
    ensures Mul(Translate(ux, uy, uz), Translate(vx, vy, vz)) == Translate(ux + vx, uy + vy, uz + vz)
  {
  }

  /** Scalings compose by multiplying their factors. */
  lemma ScaleCompose(ux: real, uy: real, uz: real, vx: real, vy: real, vz: real)
    ensures Mul(Scale(ux, uy, uz), Scale(vx, vy, vz)) == Scale(ux * vx, uy * vy, uz * vz)
  {
  }

  /** With cos 0 = 1 and sin 0 = 0, rotate_xyz(0, 0, 0) is the identity. */
  lemma RotateXYZZero()
    ensures RotateXYZ(Trig(1.0, 0.0), Trig(1.0, 0.0), Trig(1.0, 0.0)) == Identity()
  {
    RotateXAtZero();
    RotateYAtZero();
    RotateZAtZero();
    IdentitySquared();
  }

  /** Rotation about x by the zero angle is the identity. */
  lemma RotateXAtZero()
    ensures RotateX(Trig(1.0, 0.0)) == Identity()
  {
  }

  /** Rotation about y by the zero angle is the identity. */
  lemma RotateYAtZero()
    ensures RotateY(Trig(1.0, 0.0)) == Identity()
  {
  }

  /** Rotation about z by the zero angle is the identity. */
  lemma RotateZAtZero()
    ensures RotateZ(Trig(1.0, 0.0)) == Identity()
  {
  }

  /** For a genuine angle (cos^2 + sin^2 = 1) each axis rotation is orthogonal: its transpose undoes it. */
  lemma RotationsOrthogonal(t: Trig)
    requires t.cos * t.cos + t.sin * t.sin == 1.0
    ensures Mul(Transpose(RotateX(t)), RotateX(t)) == Identity()
    ensures Mul(Transpose(RotateY(t)), RotateY(t)) == Identity()
    ensures Mul(Transpose(RotateZ(t)), RotateZ(t)) == Identity()
  {
  }

  /** The projected weight is the camera-space z; depth is 0 at the near plane and w at the far plane. */
  lemma PerspectiveDepth(invTan: real, aspectRatio: real, znear: real, zfar: real, v: Vector3)
    requires zfar != znear
    ensures VMul(Perspective(invTan, aspectRatio, znear, zfar), v).w == v.z
    ensures v.w == 1.0 && v.z == znear ==> VMul(Perspective(invTan, aspectRatio, znear, zfar), v).z == 0.0
    ensures v.w == 1.0 && v.z == zfar ==> VMul(Perspective(invTan, aspectRatio, znear, zfar), v).z == zfar
  {
    DepthAtPlanes(znear, zfar);
  }

  /** The scalar identities behind `PerspectiveDepth`: n f / (f - n) cancels at both planes. */
  lemma DepthAtPlanes(znear: real, zfar: real)
    requires zfar != znear
    ensures znear * (zfar / (zfar - znear)) + 1.0 * (-zfar * znear / (zfar - znear)) == 0.0
    ensures zfar * (zfar / (zfar - znear)) + 1.0 * (-zfar * znear / (zfar - znear)) == zfar
  {
    var d := zfar - znear;
    var q, r := zfar / d, -zfar * znear / d;
    assert q * d == zfar;
    assert r * d == -zfar * znear;
    assert (znear * q + r) * d == znear * zfar - zfar * znear;
    assert (zfar * q + r) * d == zfar * d;
  }

  /** The view matrix keeps weights (last row 0 0 0 1) and takes the eye to the origin, whatever the basis. */
  lemma LookAtEye(eye: Vector3, target: Vector3, up: Vector3, invNorm: real)
    requires eye.w == 1.0
    ensures var m := LookAt(eye, target, up, invNorm);
      m.x30 == 0.0 && m.x31 == 0.0 && m.x32 == 0.0 && m.x33 == 1.0
    ensures VMul(LookAt(eye, target, up, invNorm), eye) == CreatePoint(0.0, 0.0, 0.0)
  {
  }

  /** The view matrix puts the target on the forward axis, at depth invNorm * |target - eye|^2. */
  lemma LookAtTarget(eye: Vector3, target: Vector3, up: Vector3, invNorm: real)
    requires eye.w == 1.0 && target.w == 1.0
    ensures VMul(LookAt(eye, target, up, invNorm), target)
         == CreatePoint(0.0, 0.0, invNorm * NormSquared(Vectors.Sub(target, eye)))
  {
    var d := Vectors.Sub(target, eye);
    var forward := Vectors.SMul(d, invNorm);
    var right := Cross(up, forward);
    var newUp := Cross(forward, right);
    BasisPerpendicular(up, d, invNorm, right);
    DotScales(d, d, invNorm);
    ViewRows(right, newUp, forward, eye, target);
  }

  /** Crossing with a multiple of d gives a vector perpendicular to d, as the right and new-up axes are. */
  lemma BasisPerpendicular(up: Vector3, d: Vector3, k: real, right: Vector3)
    ensures Dot(Cross(up, Vectors.SMul(d, k)), d) == 0.0
    ensures Dot(Cross(Vectors.SMul(d, k), right), d) == 0.0
  {
    CrossScales(up, d, k);
    CrossOrthogonal(up, d);
    DotScales(Cross(up, d), d, k);
    CrossScales(right, d, k);
    CrossAntiCommutative(Vectors.SMul(d, k), right);
    CrossAntiCommutative(right, d);
    CrossOrthogonal(d, right);
    DotScales(Cross(d, right), d, k);
  }

  /** Scaling the second factor of a cross product scales its xyz part. */
  lemma CrossScales(u: Vector3, d: Vector3, k: real)
    ensures Cross(u, Vectors.SMul(d, k)) == Vectors.SMul(Cross(u, d), k).(w := 0.0)
  {
    var c, l := Cross(u, d), Cross(u, Vectors.SMul(d, k));
    assert l.x == k * c.x by { ScaledDifference(u.y, d.z, u.z, d.y, k); }
    assert l.y == k * c.y by { ScaledDifference(u.z, d.x, u.x, d.z, k); }
    assert l.z == k * c.z by { ScaledDifference(u.x, d.y, u.y, d.x, k); }
  }

  /** The scalar step of `CrossScales`: a common factor k comes out of a difference of products. */
  lemma ScaledDifference(a: real, b: real, p: real, q: real, k: real)
    ensures a * (k * b) - p * (k * q) == k * (a * b - p * q)
  {
    assert a * (k * b) == k * (a * b);
    assert p * (k * q) == k * (p * q);
  }

  /** A matrix whose rows are a basis and minus the eye's coordinates in it measures p - eye in that basis. */
  lemma ViewRows(a: Vector3, b: Vector3, c: Vector3, eye: Vector3, p: Vector3)
    requires p.w == 1.0
    ensures VMul(Matrix4(a.x, a.y, a.z, -Dot(eye, a),
                         b.x, b.y, b.z, -Dot(eye, b),
                         c.x, c.y, c.z, -Dot(eye, c),
                         0.0, 0.0, 0.0, 1.0), p)
         == Vector3(Dot(a, Vectors.Sub(p, eye)), Dot(b, Vectors.Sub(p, eye)), Dot(c, Vectors.Sub(p, eye)), 1.0)
  {
  }

  /** The viewport maps x and y from [-w, w] to [0, width] and [0, height], keeping z and w. */
  lemma ViewportAction(windowWidth: int, windowHeight: int, v: Vector3)
    ensures VMul(Viewport(windowWidth, windowHeight), v)
         == Vector3(0.5 * windowWidth as real * (v.x + v.w), 0.5 * windowHeight as real * (v.y + v.w), v.z, v.w)
  {
  }

  /** The viewport maps the corner (-1, -1) to pixel (0, 0) and (1, 1) to (width, height). */
  lemma ViewportCorners(windowWidth: int, windowHeight: int, z: real)
    ensures VMul(Viewport(windowWidth, windowHeight), CreatePoint(-1.0, -1.0, z)) == CreatePoint(0.0, 0.0, z)
    ensures VMul(Viewport(windowWidth, windowHeight), CreatePoint(1.0, 1.0, z))
         == CreatePoint(windowWidth as real, windowHeight as real, z)
  {
  }
}
