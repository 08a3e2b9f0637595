/** Three-dimensional vectors (FreeCAD's `Vector`), the path edges that the
    alignment produces, and the geometry-kernel calls kept abstract. */
module Geometry {

  datatype Vec3 = Vec3(x: real, y: real, z: real)

  function Add(a: Vec3, b: Vec3): Vec3
  {
    Vec3(a.x + b.x, a.y + b.y, a.z + b.z)
  }

  function Sub(a: Vec3, b: Vec3): Vec3
  {
    Vec3(a.x - b.x, a.y - b.y, a.z - b.z)
  }

  function Scale(a: Vec3, t: real): Vec3
  {
    Vec3(a.x * t, a.y * t, a.z * t)
  }

  function Dot(a: Vec3, b: Vec3): real
  {
    a.x * b.x + a.y * b.y + a.z * b.z
  }

  function Cross(a: Vec3, b: Vec3): Vec3
  {
    Vec3(a.y * b.z - a.z * b.y, a.z * b.x - a.x * b.z, a.x * b.y - a.y * b.x)
  }

  /** Moving from `p` by `v` and measuring back from `p` gives `v`. */
  lemma AddThenSub(p: Vec3, v: Vec3)
    ensures Sub(Add(p, v), p) == v
  {
  }

  /** The squared length `|a|^2`, so that lengths can be compared without a square root. */
  function SqLen(a: Vec3): (l: real)
    ensures l >= 0.0
  {
    a.x * a.x + a.y * a.y + a.z * a.z
  }

  /** The tolerance `1e-3` below which the alignment elides a connecting line. */
  const GAP: real := 0.001

  /** `(to - from).Length > 1e-3`, with FreeCAD's `Length` the kernel `gk.length`. */
  predicate Apart(from: Vec3, to: Vec3, gk: GeomKernels)
  {
    gk.length(Sub(to, from)) > GAP
  }

  /** The complement of `Apart`: the two points coincide within the tolerance. */
  predicate Near(from: Vec3, to: Vec3, gk: GeomKernels)
  {
    !Apart(from, to, gk)
  }

  /** `Length` is the Euclidean norm when it is a non-negative square root of the squared length. */
  ghost predicate EuclideanLength(gk: GeomKernels)
  {
    forall v :: gk.length(v) >= 0.0 && gk.length(v) * gk.length(v) == SqLen(v)
  }

  /** Comparing the squared length against `1e-6` decides exactly the same as
      comparing the length, a non-negative square root, against `1e-3`. */
  lemma LengthTestBySquares(len: real, sq: real)
    requires len >= 0.0 && len * len == sq
    ensures len > GAP <==> sq > GAP * GAP
  {
    if len > GAP {
      assert len * len > GAP * len >= GAP * GAP;
    } else {
      MulLe(len, GAP, len);
      MulLe(len, GAP, GAP);
    }
  }

  /** Multiplying by a non-negative factor keeps the order. */
  lemma MulLe(a: real, b: real, c: real)
    requires 0.0 <= a <= b && c >= 0.0
    ensures a * c <= b * c
  {
    assert (b - a) * c >= 0.0;
  }

  /** For a Euclidean `Length`, the tolerance test is the squared-length test
      `|to - from|^2 > 1e-6`, which needs no square root. */
  lemma ApartBySquares(from: Vec3, to: Vec3, gk: GeomKernels)
    requires EuclideanLength(gk)
    ensures Apart(from, to, gk) <==> SqLen(Sub(to, from)) > GAP * GAP
  {
    LengthTestBySquares(gk.length(Sub(to, from)), SqLen(Sub(to, from)));
  }

  /** The unit `(0, 0, 1)` vector. */
  const UP: Vec3 := Vec3(0.0, 0.0, 1.0)

  /** An edge of the swept path: `Part.LineSegment(start, finish)` or the
      three-point `Part.Arc(start, apex, finish)`. */
  datatype Edge = Line(start: Vec3, finish: Vec3) | Arc(start: Vec3, apex: Vec3, finish: Vec3)

  /** The geometry-kernel and `math` calls the alignment makes: `normalize`,
      `Length`, `acos`, `tan`, `sin`, and an edge's tangent at its first parameter. */
  datatype GeomKernels = GeomKernels(
    normalize: Vec3 -> Vec3,
    length: Vec3 -> real,
    acos: real -> real,
    tan: real -> real,
    sin: real -> real,
    tangentAt: Edge -> Vec3)

  /** Python's `math.pi`. */
  const PI: real := 3.141592653589793
}
