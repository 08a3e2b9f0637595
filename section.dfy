/** The trapezoidal cross-section of the lined canal: a closed polygon of
    five vertices in the section plane, with `lx` across the canal and `ly`
    upwards, and its placement in space. */
module Section {
  import opened Geometry

  /** A vertex in the section plane. */
  datatype Point2 = Point2(lx: real, ly: real)

  /** The vertices `(-B/2, 0), (B/2, 0), (B/2 + S*D, D), (-B/2 - S*D, D), (-B/2, 0)`
      for bed width `b`, total depth `totalD` and side slope `s`: a closed
      polygon with the bed at height 0 and the top at `totalD`. */
  function Outline(b: real, totalD: real, s: real): (o: seq<Point2>)
    ensures |o| == 5 && o[0] == o[4]
    ensures o[0].ly == 0.0 && o[1].ly == 0.0 && o[2].ly == totalD && o[3].ly == totalD
  {
    [Point2(-b / 2.0, 0.0),
     Point2(b / 2.0, 0.0),
     Point2(b / 2.0 + s * totalD, totalD),
     Point2(-b / 2.0 - s * totalD, totalD),
     Point2(-b / 2.0, 0.0)]
  }

  /** The reflection in the canal's centre line. */
  function Mirror(p: Point2): Point2
  {
    Point2(-p.lx, p.ly)
  }

  /** The bed is `b` wide, the top is `b + 2 * s * totalD` wide, and each
      side wall rises `s` horizontal to 1 vertical. */
  lemma OutlineWidths(b: real, totalD: real, s: real)
    ensures var o := Outline(b, totalD, s);
            && o[1].lx - o[0].lx == b
            && o[2].lx - o[3].lx == b + 2.0 * s * totalD
            && o[2].lx - o[1].lx == s * (o[2].ly - o[1].ly)
            && o[0].lx - o[3].lx == s * (o[3].ly - o[0].ly)
  {
  }

  /** The section is symmetric about its centre line: the mirror image of
      every vertex is a vertex, at the same height. */
  lemma OutlineSymmetric(b: real, totalD: real, s: real)
    ensures forall p :: p in Outline(b, totalD, s) ==> Mirror(p) in Outline(b, totalD, s)
  {
    var o := Outline(b, totalD, s);
    assert Mirror(o[0]) == o[1] && Mirror(o[1]) == o[0];
    assert Mirror(o[2]) == o[3] && Mirror(o[3]) == o[2];
  }

  /** `to_global(lx, ly)`: `origin + right * lx + up * ly`. A point `lx`
      across and `ly` up is offset from `origin` by `right * lx + up * ly`. */
  function ToGlobal(origin: Vec3, right: Vec3, up: Vec3, p: Point2): (g: Vec3)
    ensures Sub(g, origin) == Add(Scale(right, p.lx), Scale(up, p.ly))
  {
    var offset := Add(Scale(right, p.lx), Scale(up, p.ly));
    AddThenSub(origin, offset);
    Add(origin, offset)
  }

  /** The section polygon placed in the plane spanned by `right` and `up` through `origin`. */
  function PlaceOutline(origin: Vec3, right: Vec3, up: Vec3, o: seq<Point2>): (g: seq<Vec3>)
    ensures |g| == |o|
    ensures forall i :: 0 <= i < |o| ==> g[i] == ToGlobal(origin, right, up, o[i])
  {
    seq(|o|, i requires 0 <= i < |o| => ToGlobal(origin, right, up, o[i]))
  }

  function Midpoint(a: Vec3, b: Vec3): Vec3
  {
    Scale(Add(a, b), 0.5)
  }

  /** Placed in space, the section stays closed, the middle of its bed is
      `origin`, and the middle of its top is `origin + up * totalD`. */
  lemma PlacedOutlineCentred(origin: Vec3, right: Vec3, up: Vec3, b: real, totalD: real, s: real)
    ensures var g := PlaceOutline(origin, right, up, Outline(b, totalD, s));
            && |g| == 5 && g[0] == g[4]
            && Midpoint(g[0], g[1]) == origin
            && Midpoint(g[2], g[3]) == Add(origin, Scale(up, totalD))
  {
    var o := Outline(b, totalD, s);
    var g := PlaceOutline(origin, right, up, o);
    MirrorCancels(origin, right, up, -b / 2.0, 0.0);
    assert Midpoint(g[2], g[3]) == Midpoint(ToGlobal(origin, right, up, Point2(b / 2.0 + s * totalD, totalD)),
                                           ToGlobal(origin, right, up, Point2(-(b / 2.0 + s * totalD), totalD)));
    MirrorCancels(origin, right, up, -(b / 2.0 + s * totalD), totalD);
  }

  /** Two points placed at opposite `lx` and the same `ly` have their middle on the centre line. */
  lemma MirrorCancels(origin: Vec3, right: Vec3, up: Vec3, lx: real, ly: real)
    ensures Midpoint(ToGlobal(origin, right, up, Point2(lx, ly)), ToGlobal(origin, right, up, Point2(-lx, ly)))
            == Add(origin, Scale(up, ly))
  {
    assert right.x * lx + right.x * (-lx) == 0.0;
    assert right.y * lx + right.y * (-lx) == 0.0;
    assert right.z * lx + right.z * (-lx) == 0.0;
  }

  /** `Dot(Add(Scale(a, s), Scale(b, t)), n)` splits by linearity. */
  lemma DotCombination(a: Vec3, b: Vec3, s: real, t: real, n: Vec3)
    ensures Dot(Add(Scale(a, s), Scale(b, t)), n) == s * Dot(a, n) + t * Dot(b, n)
  {
    calc {
      Dot(Add(Scale(a, s), Scale(b, t)), n);
      == (a.x * s + b.x * t) * n.x + (a.y * s + b.y * t) * n.y + (a.z * s + b.z * t) * n.z;
      == { assert (a.x * s + b.x * t) * n.x == s * (a.x * n.x) + t * (b.x * n.x);
           assert (a.y * s + b.y * t) * n.y == s * (a.y * n.y) + t * (b.y * n.y);
           assert (a.z * s + b.z * t) * n.z == s * (a.z * n.z) + t * (b.z * n.z); }
         s * (a.x * n.x) + t * (b.x * n.x) + s * (a.y * n.y) + t * (b.y * n.y)
           + s * (a.z * n.z) + t * (b.z * n.z);
      == s * (a.x * n.x + a.y * n.y + a.z * n.z) + t * (b.x * n.x + b.y * n.y + b.z * n.z);
    }
  }

  /** When `right` and `up` are both perpendicular to `normal`, every placed
      vertex lies in the plane through `origin` perpendicular to `normal`. */
  lemma PlacedOutlinePlanar(origin: Vec3, right: Vec3, up: Vec3, normal: Vec3, o: seq<Point2>)
    requires Dot(right, normal) == 0.0 && Dot(up, normal) == 0.0
    ensures forall i :: 0 <= i < |o| ==>
              Dot(Sub(PlaceOutline(origin, right, up, o)[i], origin), normal) == 0.0
  {
    var g := PlaceOutline(origin, right, up, o);
    forall i | 0 <= i < |o|
      ensures Dot(Sub(g[i], origin), normal) == 0.0
    {
      assert Sub(g[i], origin) == Add(Scale(right, o[i].lx), Scale(up, o[i].ly));
      DotCombination(right, up, o[i].lx, o[i].ly, normal);
    }
  }

  /** The section of `generate_assets`, written out in the plane `x = 0`:
      `(0, -B/2, 0), (0, B/2, 0), (0, B/2 + S*D, D), (0, -B/2 - S*D, D), (0, -B/2, 0)`. */
  function AssetsSection(b: real, totalD: real, s: real): (a: seq<Vec3>)
    ensures |a| == 5 && a[0] == a[4]
    ensures forall i :: 0 <= i < |a| ==> a[i].x == 0.0
  {
    [Vec3(0.0, -b / 2.0, 0.0),
     Vec3(0.0, b / 2.0, 0.0),
     Vec3(0.0, b / 2.0 + s * totalD, totalD),
     Vec3(0.0, -b / 2.0 - s * totalD, totalD),
     Vec3(0.0, -b / 2.0, 0.0)]
  }

  /** The written-out section of `generate_assets` is the section outline of
      `generate_3d_model` placed at the origin with `right = (0, 1, 0)` and
      `up = (0, 0, 1)`; so every vertex has `x = 0`. */
  lemma AssetsSectionPlaced(b: real, totalD: real, s: real)
    ensures AssetsSection(b, totalD, s) ==
              PlaceOutline(Vec3(0.0, 0.0, 0.0), Vec3(0.0, 1.0, 0.0), UP, Outline(b, totalD, s))
    ensures forall i :: 0 <= i < 5 ==> AssetsSection(b, totalD, s)[i].x == 0.0
  {
    var g := PlaceOutline(Vec3(0.0, 0.0, 0.0), Vec3(0.0, 1.0, 0.0), UP, Outline(b, totalD, s));
    var a := AssetsSection(b, totalD, s);
    forall i | 0 <= i < 5
      ensures g[i] == a[i]
    {
    }
  }

  /** The written-out section of `generate_assets`: its bed runs at height 0
      from `y = -B/2` to `y = B/2`, its top vertices are at height `totalD`
      and `y = +-(B/2 + S * totalD)`, and its mirror image in `y = 0` has the
      same vertices. */
  lemma AssetsSectionShape(b: real, totalD: real, s: real)
    ensures var a := AssetsSection(b, totalD, s);
            && a[0].z == 0.0 && a[1].z == 0.0 && a[1].y - a[0].y == b && a[0].y == -a[1].y
            && a[2].z == totalD && a[3].z == totalD
            && a[2].y == b / 2.0 + s * totalD && a[3].y == -a[2].y
    ensures forall v :: v in AssetsSection(b, totalD, s) ==> Vec3(v.x, -v.y, v.z) in AssetsSection(b, totalD, s)
  {
    var a := AssetsSection(b, totalD, s);
    assert Vec3(a[0].x, -a[0].y, a[0].z) == a[1] && Vec3(a[1].x, -a[1].y, a[1].z) == a[0];
    assert Vec3(a[2].x, -a[2].y, a[2].z) == a[3] && Vec3(a[3].x, -a[3].y, a[3].z) == a[2];
  }
}
