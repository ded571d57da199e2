/**
 * Points, 3x3 matrices and the orientation matrix `r_m` of cube.py.
 *
 * Coordinates and angles are exact reals. `cos` and `sin` are not defined
 * here: they are supplied as a `Trig` value, and the only facts about them
 * that any proof uses are the ones stated by `ExactAtZero`.
 */
module Geometry {

  /** Axis numbers, as the module-level constants X, Y, Z. */
  const X: nat := 0
  const Y: nat := 1
  const Z: nat := 2

  /** A point (or a row vector) in 3-D space. */
  datatype Vec3 = Vec3(x: real, y: real, z: real)

  /** A 3x3 matrix stored row by row, as the nested tuple `r_m` returns. */
  datatype Mat3 = Mat3(r0: Vec3, r1: Vec3, r2: Vec3)

  /** The trigonometric functions the program takes from its math library. */
  datatype Trig = Trig(cos: real -> real, sin: real -> real)

  /** The only facts about cos and sin that the code relies on. */
  predicate ExactAtZero(t: Trig)
  {
    t.cos(0.0) == 1.0 && t.sin(0.0) == 0.0
  }

  function Identity(): (m: Mat3)
  {
    Mat3(Vec3(1.0, 0.0, 0.0), Vec3(0.0, 1.0, 0.0), Vec3(0.0, 0.0, 1.0))
  }

  /** Row vector times matrix: coordinate j is the dot product of v with column j. */
  function RowTimes(v: Vec3, m: Mat3): (w: Vec3)
  {
    Vec3(v.x * m.r0.x + v.y * m.r1.x + v.z * m.r2.x,
         v.x * m.r0.y + v.y * m.r1.y + v.z * m.r2.y,
         v.x * m.r0.z + v.y * m.r1.z + v.z * m.r2.z)
  }

  /** Matrix product m * n: each row of m times n. */
  function MatMul(m: Mat3, n: Mat3): (p: Mat3)
  {
    Mat3(RowTimes(m.r0, n), RowTimes(m.r1, n), RowTimes(m.r2, n))
  }

  lemma RowTimesIdentity(v: Vec3)
    ensures RowTimes(v, Identity()) == v
  {
  }

  /** Applying m and then n to a row vector is applying their product. */
  lemma RowTimesAssociative(v: Vec3, m: Mat3, n: Mat3)
    ensures RowTimes(RowTimes(v, m), n) == RowTimes(v, MatMul(m, n))
  {
    var lhs, rhs := RowTimes(RowTimes(v, m), n), RowTimes(v, MatMul(m, n));
    ColumnAssociative(v, m, Vec3(n.r0.x, n.r1.x, n.r2.x));
    ColumnAssociative(v, m, Vec3(n.r0.y, n.r1.y, n.r2.y));
    ColumnAssociative(v, m, Vec3(n.r0.z, n.r1.z, n.r2.z));
    assert lhs.x == rhs.x && lhs.y == rhs.y && lhs.z == rhs.z;
  }

  /** The dot product of two vectors. */
  function Dot(u: Vec3, w: Vec3): (d: real)
  {
    u.x * w.x + u.y * w.y + u.z * w.z
  }

  /** m times a column vector c. */
  function TimesColumn(m: Mat3, c: Vec3): (w: Vec3)
  {
    Vec3(Dot(m.r0, c), Dot(m.r1, c), Dot(m.r2, c))
  }

  /** One column c of the associativity law: (v m) . c == v . (m c). */
  lemma ColumnAssociative(v: Vec3, m: Mat3, c: Vec3)
    ensures Dot(RowTimes(v, m), c) == Dot(v, TimesColumn(m, c))
  {
    var u := RowTimes(v, m);
    calc {
      Dot(u, c);
      (v.x * m.r0.x + v.y * m.r1.x + v.z * m.r2.x) * c.x
        + (v.x * m.r0.y + v.y * m.r1.y + v.z * m.r2.y) * c.y
        + (v.x * m.r0.z + v.y * m.r1.z + v.z * m.r2.z) * c.z;
      v.x * (m.r0.x * c.x + m.r0.y * c.y + m.r0.z * c.z)
        + v.y * (m.r1.x * c.x + m.r1.y * c.y + m.r1.z * c.z)
        + v.z * (m.r2.x * c.x + m.r2.y * c.y + m.r2.z * c.z);
      Dot(v, TimesColumn(m, c));
    }
  }

  /** cube.py's r_m(a, b, c), entry by entry, for angles a, b, c about X, Y, Z. */
  function RotationMatrix(t: Trig, a: real, b: real, c: real): (m: Mat3)
  {
    Mat3(
      Vec3(t.cos(b) * t.cos(c), -t.cos(b) * t.sin(c), t.sin(b)),
      Vec3(t.cos(a) * t.sin(c) + t.sin(a) * t.sin(b) * t.cos(c),
           t.cos(a) * t.cos(c) - t.sin(c) * t.sin(a) * t.sin(b),
           -t.cos(b) * t.sin(a)),
      Vec3(t.sin(c) * t.sin(a) - t.cos(a) * t.sin(b) * t.cos(c),
           t.cos(a) * t.sin(c) * t.sin(b) + t.sin(a) * t.cos(c),
           t.cos(a) * t.cos(b)))
  }

  /** The elementary rotation by angle a about the X axis. */
  function AboutX(t: Trig, a: real): (m: Mat3)
  {
    Mat3(Vec3(1.0, 0.0, 0.0),
         Vec3(0.0, t.cos(a), -t.sin(a)),
         Vec3(0.0, t.sin(a), t.cos(a)))
  }

  /** The elementary rotation by angle b about the Y axis. */
  function AboutY(t: Trig, b: real): (m: Mat3)
  {
    Mat3(Vec3(t.cos(b), 0.0, t.sin(b)),
         Vec3(0.0, 1.0, 0.0),
         Vec3(-t.sin(b), 0.0, t.cos(b)))
  }

  /** The elementary rotation by angle c about the Z axis. */
  function AboutZ(t: Trig, c: real): (m: Mat3)
  {
    Mat3(Vec3(t.cos(c), -t.sin(c), 0.0),
         Vec3(t.sin(c), t.cos(c), 0.0),
         Vec3(0.0, 0.0, 1.0))
  }

  /**
   * r_m is the product AboutX(a) * AboutY(b) * AboutZ(c); this pins down
   * the Euler convention and every sign of the nine entries.
   */
  lemma RotationMatrixComposes(t: Trig, a: real, b: real, c: real)
    ensures RotationMatrix(t, a, b, c) == MatMul(MatMul(AboutX(t, a), AboutY(t, b)), AboutZ(t, c))
  {
  }

  /**
   * Under the row-vector product the body is turned first about X by a,
   * then about Y by b, then about Z by c. A row vector times an elementary
   * matrix is turned by the NEGATED angle: v * AboutZ(c) turns v by -c about
   * Z, which is clockwise seen from +Z, and likewise for X and Y.
   */
  lemma OrientationOrder(t: Trig, a: real, b: real, c: real, v: Vec3)
    ensures RowTimes(v, RotationMatrix(t, a, b, c))
         == RowTimes(RowTimes(RowTimes(v, AboutX(t, a)), AboutY(t, b)), AboutZ(t, c))
  {
    RotationMatrixComposes(t, a, b, c);
    RowTimesAssociative(v, AboutX(t, a), AboutY(t, b));
    RowTimesAssociative(RowTimes(v, AboutX(t, a)), AboutY(t, b), AboutZ(t, c));
    RowTimesAssociative(v, MatMul(AboutX(t, a), AboutY(t, b)), AboutZ(t, c));
  }

  /** With cos(0) = 1 and sin(0) = 0, r_m(0, 0, 0) is the identity. */
  lemma RotationMatrixAtZero(t: Trig)
    requires ExactAtZero(t)
    ensures RotationMatrix(t, 0.0, 0.0, 0.0) == Identity()
  {
  }

  /**
   * Angles on only one axis give exactly that axis's elementary rotation;
   * applied to row vectors it turns them by minus that angle (for Z:
   * clockwise seen from +Z, as Body.QuarterTurnAboutZ shows).
   */
  lemma SingleAxisRotations(t: Trig, theta: real)
    requires ExactAtZero(t)
    ensures RotationMatrix(t, theta, 0.0, 0.0) == AboutX(t, theta)
    ensures RotationMatrix(t, 0.0, theta, 0.0) == AboutY(t, theta)
    ensures RotationMatrix(t, 0.0, 0.0, theta) == AboutZ(t, theta)
  {
  }
}
