/** The horizontal alignment of the canal: at every interior intersection
    point (IP) a circular curve of the minimum radius replaces the corner,
    and straight lines join the curves wherever the gap between them is
    wider than the 1e-3 tolerance. The trigonometry and `normalize` are the
    abstract kernels of `Geometry.GeomKernels`. */
module Alignment {
  import opened Numerics
  import opened Geometry

  /** A curve at one IP: the tangent point on the incoming leg, the point
      of the arc on the bisector, and the tangent point on the outgoing leg. */
  datatype Corner = Corner(t1: Vec3, apex: Vec3, t2: Vec3)

  /** `angle = acos(v1 . v2)` between the two unit legs at `p2`. */
  function Deflection(p1: Vec3, p2: Vec3, p3: Vec3, gk: GeomKernels): real
  {
    gk.acos(Dot(gk.normalize(Sub(p1, p2)), gk.normalize(Sub(p3, p2))))
  }

  /** `t_dist = r * tan((pi - angle) / 2)`, the length from the IP to either tangent point. */
  function TangentLength(p1: Vec3, p2: Vec3, p3: Vec3, r: real, gk: GeomKernels): real
  {
    r * gk.tan((PI - Deflection(p1, p2, p3, gk)) / 2.0)
  }

  /** `get_tangent_points(p1, p2, p3, r)`, and the same lines inside the
      path loop. A zero sine of the half angle is a division by zero. */
  function TangentPoints(p1: Vec3, p2: Vec3, p3: Vec3, r: real, gk: GeomKernels): (c: Outcome<Corner>)
    ensures c.Raise? <==> gk.sin(Deflection(p1, p2, p3, gk) / 2.0) == 0.0
    ensures c.Raise? ==> c.fault == DivisionByZero
  {
    var v1 := gk.normalize(Sub(p1, p2));
    var v2 := gk.normalize(Sub(p3, p2));
    var angle := Deflection(p1, p2, p3, gk);
    var tDist := TangentLength(p1, p2, p3, r, gk);
    var t1 := Add(p2, Scale(v1, tDist));
    var t2 := Add(p2, Scale(v2, tDist));
    var bisector := gk.normalize(Add(v1, v2));
    var half := gk.sin(angle / 2.0);
    if half == 0.0 then Raise(DivisionByZero)
    else
      var apex := Add(p2, Scale(bisector, r / half - r));
      Ok(Corner(t1, apex, t2))
  }

  /** Both tangent points lie on their legs at the same distance parameter
      from `p2`, and the apex lies on the bisector at `r / sin(angle / 2) - r`. */
  lemma TangentPointsOnLegs(p1: Vec3, p2: Vec3, p3: Vec3, r: real, gk: GeomKernels)
    requires TangentPoints(p1, p2, p3, r, gk).Ok?
    ensures var c := TangentPoints(p1, p2, p3, r, gk).value;
            && Sub(c.t1, p2) == Scale(gk.normalize(Sub(p1, p2)), TangentLength(p1, p2, p3, r, gk))
            && Sub(c.t2, p2) == Scale(gk.normalize(Sub(p3, p2)), TangentLength(p1, p2, p3, r, gk))
            && Sub(c.apex, p2) ==
                 Scale(gk.normalize(Add(gk.normalize(Sub(p1, p2)), gk.normalize(Sub(p3, p2)))),
                       r / gk.sin(Deflection(p1, p2, p3, gk) / 2.0) - r)
  {
    var c := TangentPoints(p1, p2, p3, r, gk).value;
    var v1 := gk.normalize(Sub(p1, p2));
    var v2 := gk.normalize(Sub(p3, p2));
    var t := TangentLength(p1, p2, p3, r, gk);
    var b := gk.normalize(Add(v1, v2));
    var h := r / gk.sin(Deflection(p1, p2, p3, gk) / 2.0) - r;
    assert c.t1 == Add(p2, Scale(v1, t));
    assert c.t2 == Add(p2, Scale(v2, t));
    assert c.apex == Add(p2, Scale(b, h));
    AddThenSub(p2, Scale(v1, t));
    AddThenSub(p2, Scale(v2, t));
    AddThenSub(p2, Scale(b, h));
  }

  /** Scaling a vector by `t` scales its squared length by `t^2`. */
  lemma ScaleSqLen(v: Vec3, t: real)
    ensures SqLen(Scale(v, t)) == Square(t) * SqLen(v)
  {
    calc {
      SqLen(Scale(v, t));
      == (v.x * t) * (v.x * t) + (v.y * t) * (v.y * t) + (v.z * t) * (v.z * t);
      == { assert (v.x * t) * (v.x * t) == t * t * (v.x * v.x);
           assert (v.y * t) * (v.y * t) == t * t * (v.y * v.y);
           assert (v.z * t) * (v.z * t) == t * t * (v.z * v.z); }
         t * t * (v.x * v.x) + t * t * (v.y * v.y) + t * t * (v.z * v.z);
      == t * t * (v.x * v.x + v.y * v.y + v.z * v.z);
    }
  }

  /** When `normalize` returns unit vectors, the two tangent points of a
      curve are equally far from its IP: both at the squared tangent length. */
  lemma TangentsEquidistant(p1: Vec3, p2: Vec3, p3: Vec3, r: real, gk: GeomKernels)
    requires TangentPoints(p1, p2, p3, r, gk).Ok?
    requires SqLen(gk.normalize(Sub(p1, p2))) == 1.0
    requires SqLen(gk.normalize(Sub(p3, p2))) == 1.0
    ensures var c := TangentPoints(p1, p2, p3, r, gk).value;
            && SqLen(Sub(c.t1, p2)) == Square(TangentLength(p1, p2, p3, r, gk))
            && SqLen(Sub(c.t2, p2)) == Square(TangentLength(p1, p2, p3, r, gk))
  {
    var t := TangentLength(p1, p2, p3, r, gk);
    TangentPointsOnLegs(p1, p2, p3, r, gk);
    ScaleSqLen(gk.normalize(Sub(p1, p2)), t);
    ScaleSqLen(gk.normalize(Sub(p3, p2)), t);
  }

  /** The number of interior IPs, each of which receives a curve. */
  function InteriorCount(ips: seq<Vec3>): (n: nat)
    ensures |ips| >= 2 ==> n + 2 == |ips|
    ensures |ips| < 3 ==> n == 0
  {
    if |ips| < 2 then 0 else |ips| - 2
  }

  /** A curve-fitting function: the corner of the triple `(p1, p2, p3)` at `p2`. */
  type Bend = (Vec3, Vec3, Vec3) -> Outcome<Corner>

  /** The curves of `generate_3d_model`: the tangent points at radius `r`. */
  function BendOf(r: real, gk: GeomKernels): Bend
  {
    (p1: Vec3, p2: Vec3, p3: Vec3) => TangentPoints(p1, p2, p3, r, gk)
  }

  /** The curve at the interior IP `ips[j + 1]`, from the triple starting at `ips[j]`. */
  function CornerAt(ips: seq<Vec3>, bend: Bend, j: nat): Outcome<Corner>
    requires j + 2 < |ips|
  {
    bend(ips[j], ips[j + 1], ips[j + 2])
  }

  function ArcOf(c: Corner): Edge
  {
    Arc(c.t1, c.apex, c.t2)
  }

  /** The straight line from the running endpoint `from` to `to`, emitted
      only when the two are more than 1e-3 apart. */
  function Connector(from: Vec3, to: Vec3, gk: GeomKernels): (e: seq<Edge>)
    ensures |e| <= 1
    ensures e == [] <==> Near(from, to, gk)
    ensures e != [] ==> e[0] == Line(from, to) && Apart(from, to, gk)
  {
    if Apart(from, to, gk) then [Line(from, to)] else []
  }

  /** The edge list and the running endpoint `prev_end` of the path loop. */
  datatype Trace = Trace(edges: seq<Edge>, prevEnd: Vec3)

  /** The path loop after its first `m` interior IPs. The running endpoint is
      the outgoing tangent point of the last curve, or `ips[0]` before any;
      the edge list is empty exactly before the first curve, and otherwise
      ends with that curve. */
  function PathAfter(ips: seq<Vec3>, bend: Bend, gk: GeomKernels, m: nat): (t: Outcome<Trace>)
    requires 1 <= |ips| && m <= InteriorCount(ips)
    ensures t.Ok? && m == 0 ==> t.value == Trace([], ips[0])
    ensures t.Ok? && m > 0 ==>
              && CornerAt(ips, bend, m - 1).Ok?
              && t.value.prevEnd == CornerAt(ips, bend, m - 1).value.t2
              && |t.value.edges| > 0
              && t.value.edges[|t.value.edges| - 1] == ArcOf(CornerAt(ips, bend, m - 1).value)
    decreases m
  {
    if m == 0 then Ok(Trace([], ips[0]))
    else
      match PathAfter(ips, bend, gk, m - 1)
      case Raise(fault) => Raise(fault)
      case Ok(tr) =>
        match CornerAt(ips, bend, m - 1)
        case Raise(fault) => Raise(fault)
        case Ok(c) => Ok(Trace(tr.edges + Connector(tr.prevEnd, c.t1, gk) + [ArcOf(c)], c.t2))
  }

  /** The swept path of `generate_3d_model`: `ips[0]` raises on an empty
      list; then every interior IP in turn, then the closing line to
      `ips[-1]` when the gap exceeds the tolerance. */
  function Path(ips: seq<Vec3>, bend: Bend, gk: GeomKernels): (p: Outcome<seq<Edge>>)
    ensures |ips| == 0 ==> p == Raise(IndexError)
  {
    if |ips| == 0 then Raise(IndexError)
    else
      match PathAfter(ips, bend, gk, InteriorCount(ips))
      case Raise(fault) => Raise(fault)
      case Ok(tr) => Ok(tr.edges + Connector(tr.prevEnd, ips[|ips| - 1], gk))
  }

  /** The curves of an edge list, in order. */
  function ArcsOf(e: seq<Edge>): (a: seq<Edge>)
    ensures |a| <= |e|
    ensures forall i :: 0 <= i < |a| ==> a[i].Arc?
  {
    if |e| == 0 then []
    else (if e[0].Arc? then [e[0]] else []) + ArcsOf(e[1..])
  }

  lemma {:induction false} ArcsOfAppend(a: seq<Edge>, b: seq<Edge>)
    ensures ArcsOf(a + b) == ArcsOf(a) + ArcsOf(b)
    decreases |a|
  {
    if |a| == 0 {
      assert a + b == b;
    } else {
      assert (a + b)[1..] == a[1..] + b;
      ArcsOfAppend(a[1..], b);
    }
  }

  /** A connector holds no curve. */
  lemma ConnectorNoArcs(from: Vec3, to: Vec3, gk: GeomKernels)
    ensures ArcsOf(Connector(from, to, gk)) == []
  {
    if Apart(from, to, gk) {
      assert Connector(from, to, gk)[1..] == [];
    }
  }

  /** Every interior IP in turn yields exactly one curve, and the curves
      appear in IP order: the `j`-th curve of the edge list is the curve of
      `ips[j + 1]`. */
  lemma {:induction false} PathAfterArcs(ips: seq<Vec3>, bend: Bend, gk: GeomKernels, m: nat)
    requires 1 <= |ips| && m <= InteriorCount(ips)
    requires PathAfter(ips, bend, gk, m).Ok?
    ensures var a := ArcsOf(PathAfter(ips, bend, gk, m).value.edges);
            && |a| == m
            && forall j :: 0 <= j < m ==>
                 CornerAt(ips, bend, j).Ok? && a[j] == ArcOf(CornerAt(ips, bend, j).value)
    decreases m
  {
    if m > 0 {
      var tr := PathAfter(ips, bend, gk, m - 1).value;
      var c := CornerAt(ips, bend, m - 1).value;
      var link := Connector(tr.prevEnd, c.t1, gk);
      assert PathAfter(ips, bend, gk, m).value.edges == tr.edges + link + [ArcOf(c)];
      PathAfterArcs(ips, bend, gk, m - 1);
      ArcsOfAppend(tr.edges + link, [ArcOf(c)]);
      ArcsOfAppend(tr.edges, link);
      ConnectorNoArcs(tr.prevEnd, c.t1, gk);
      assert [ArcOf(c)][1..] == [];
      var before := ArcsOf(tr.edges);
      var a := ArcsOf(PathAfter(ips, bend, gk, m).value.edges);
      assert a == before + [ArcOf(c)];
      forall j | 0 <= j < m
        ensures CornerAt(ips, bend, j).Ok? && a[j] == ArcOf(CornerAt(ips, bend, j).value)
      {
        if j < m - 1 {
          assert a[j] == before[j];
        }
      }
    }
  }

  /** The path loop raises exactly when the curve of some interior IP does,
      and then with the fault of the first such curve. */
  lemma {:induction false} PathAfterRaises(ips: seq<Vec3>, bend: Bend, gk: GeomKernels, m: nat)
    requires 1 <= |ips| && m <= InteriorCount(ips)
    ensures PathAfter(ips, bend, gk, m).Raise? <==>
              exists j :: 0 <= j < m && CornerAt(ips, bend, j).Raise?
    ensures PathAfter(ips, bend, gk, m).Raise? ==>
              exists j :: 0 <= j < m && CornerAt(ips, bend, j) == Raise(PathAfter(ips, bend, gk, m).fault)
                          && forall k :: 0 <= k < j ==> CornerAt(ips, bend, k).Ok?
    decreases m
  {
    if m > 0 {
      PathAfterRaises(ips, bend, gk, m - 1);
      if PathAfter(ips, bend, gk, m - 1).Ok? && CornerAt(ips, bend, m - 1).Raise? {
        assert PathAfter(ips, bend, gk, m) == Raise(CornerAt(ips, bend, m - 1).fault);
      }
    }
  }

  /** Once the path loop has raised, it stays raised with the same fault:
      the early exit of the loop. */
  lemma {:induction false} PathAfterRaisesLater(ips: seq<Vec3>, bend: Bend, gk: GeomKernels, m: nat, n: nat)
    requires 1 <= |ips| && m <= n <= InteriorCount(ips)
    requires PathAfter(ips, bend, gk, m).Raise?
    ensures PathAfter(ips, bend, gk, n) == PathAfter(ips, bend, gk, m)
    decreases n - m
  {
    if n > m {
      PathAfterRaisesLater(ips, bend, gk, m, n - 1);
    }
  }

  /** Every straight line is longer than the tolerance. */
  predicate LinesApart(e: seq<Edge>, gk: GeomKernels)
  {
    forall i :: 0 <= i < |e| && e[i].Line? ==> Apart(e[i].start, e[i].finish, gk)
  }

  /** A straight line is never followed by another straight line. */
  predicate NoDoubleLines(e: seq<Edge>)
  {
    forall i :: 0 <= i < |e| - 1 && e[i].Line? ==> e[i + 1].Arc?
  }

  /** Consecutive edges meet exactly, except two consecutive curves, which
      meet within the tolerance. */
  predicate Joins(e: seq<Edge>, gk: GeomKernels)
  {
    forall i :: 0 <= i < |e| - 1 ==>
      || e[i].finish == e[i + 1].start
      || (e[i].Arc? && e[i + 1].Arc? && Near(e[i].finish, e[i + 1].start, gk))
  }

  /** The first edge starts exactly at `from`, or is a curve starting within
      the tolerance of it. */
  predicate StartsAt(from: Vec3, e: seq<Edge>, gk: GeomKernels)
  {
    |e| > 0 ==> e[0].start == from || (e[0].Arc? && Near(from, e[0].start, gk))
  }

  /** The last edge ends exactly at `to`, or is a curve ending within the
      tolerance of it; with no edges at all, `from` is within the tolerance of `to`. */
  predicate EndsAt(from: Vec3, e: seq<Edge>, to: Vec3, gk: GeomKernels)
  {
    && (|e| == 0 ==> Near(from, to, gk))
    && (|e| > 0 ==> e[|e| - 1].finish == to
                     || (e[|e| - 1].Arc? && Near(e[|e| - 1].finish, to, gk)))
  }

  /** The edge list is one chain starting at `from`. */
  predicate Chained(from: Vec3, e: seq<Edge>, gk: GeomKernels)
  {
    LinesApart(e, gk) && NoDoubleLines(e) && Joins(e, gk) && StartsAt(from, e, gk)
  }

  /** Appending the connector from the running endpoint and the next curve
      keeps the chain. */
  lemma ChainedExtend(from: Vec3, e: seq<Edge>, prevEnd: Vec3, c: Corner, gk: GeomKernels)
    requires Chained(from, e, gk)
    requires |e| == 0 ==> prevEnd == from
    requires |e| > 0 ==> e[|e| - 1].Arc? && e[|e| - 1].finish == prevEnd
    ensures Chained(from, e + Connector(prevEnd, c.t1, gk) + [ArcOf(c)], gk)
  {
    var e' := e + Connector(prevEnd, c.t1, gk) + [ArcOf(c)];
    if Apart(prevEnd, c.t1, gk) {
      assert e' == e + [Line(prevEnd, c.t1), ArcOf(c)];
    } else {
      assert e' == e + [ArcOf(c)];
    }
  }

  /** The loop's edge list is a chain from `ips[0]`. */
  lemma {:induction false} PathAfterChained(ips: seq<Vec3>, bend: Bend, gk: GeomKernels, m: nat)
    requires 1 <= |ips| && m <= InteriorCount(ips)
    requires PathAfter(ips, bend, gk, m).Ok?
    ensures Chained(ips[0], PathAfter(ips, bend, gk, m).value.edges, gk)
    decreases m
  {
    if m > 0 {
      var tr := PathAfter(ips, bend, gk, m - 1).value;
      PathAfterChained(ips, bend, gk, m - 1);
      ChainedExtend(ips[0], tr.edges, tr.prevEnd, CornerAt(ips, bend, m - 1).value, gk);
    }
  }

  /** Appending the closing connector keeps the chain and ends it at `to`. */
  lemma ChainedClose(from: Vec3, e: seq<Edge>, prevEnd: Vec3, to: Vec3, gk: GeomKernels)
    requires Chained(from, e, gk)
    requires |e| == 0 ==> prevEnd == from
    requires |e| > 0 ==> e[|e| - 1].Arc? && e[|e| - 1].finish == prevEnd
    ensures Chained(from, e + Connector(prevEnd, to, gk), gk)
    ensures EndsAt(from, e + Connector(prevEnd, to, gk), to, gk)
  {
    var e' := e + Connector(prevEnd, to, gk);
    if Apart(prevEnd, to, gk) {
      assert e' == e + [Line(prevEnd, to)];
    } else {
      assert e' == e;
    }
  }

  /** The path of `generate_3d_model`, when it is built, holds exactly one
      curve per interior IP, in IP order, and is a single chain from
      `ips[0]` to `ips[-1]`: lines only across gaps wider than the
      tolerance, never two lines in a row, exact joins at every line, and
      joins within the tolerance between consecutive curves. */
  lemma PathShape(ips: seq<Vec3>, bend: Bend, gk: GeomKernels)
    requires Path(ips, bend, gk).Ok?
    ensures |ips| >= 1
    ensures var a := ArcsOf(Path(ips, bend, gk).value);
            && |a| == InteriorCount(ips)
            && forall j :: 0 <= j < InteriorCount(ips) ==>
                 CornerAt(ips, bend, j).Ok? && a[j] == ArcOf(CornerAt(ips, bend, j).value)
    ensures Chained(ips[0], Path(ips, bend, gk).value, gk)
    ensures EndsAt(ips[0], Path(ips, bend, gk).value, ips[|ips| - 1], gk)
  {
    var m := InteriorCount(ips);
    var tr := PathAfter(ips, bend, gk, m).value;
    PathAfterArcs(ips, bend, gk, m);
    PathAfterChained(ips, bend, gk, m);
    ArcsOfAppend(tr.edges, Connector(tr.prevEnd, ips[|ips| - 1], gk));
    ConnectorNoArcs(tr.prevEnd, ips[|ips| - 1], gk);
    ChainedClose(ips[0], tr.edges, tr.prevEnd, ips[|ips| - 1], gk);
  }

  /** The path raises exactly on an empty list or when some curve raises. */
  lemma PathRaises(ips: seq<Vec3>, bend: Bend, gk: GeomKernels)
    ensures Path(ips, bend, gk).Raise? <==>
              |ips| == 0 || exists j :: 0 <= j < InteriorCount(ips) && CornerAt(ips, bend, j).Raise?
  {
    if |ips| > 0 {
      PathAfterRaises(ips, bend, gk, InteriorCount(ips));
    }
  }

  /** With fewer than three points there are no curves: the running endpoint
      stays `ips[0]` and the path is at most the one line to `ips[-1]`. */
  lemma FewPointsNoArcs(ips: seq<Vec3>, bend: Bend, gk: GeomKernels)
    requires 1 <= |ips| < 3
    ensures Path(ips, bend, gk) == Ok(Connector(ips[0], ips[|ips| - 1], gk))
    ensures ArcsOf(Path(ips, bend, gk).value) == []
  {
    assert [] + Connector(ips[0], ips[|ips| - 1], gk) == Connector(ips[0], ips[|ips| - 1], gk);
    ConnectorNoArcs(ips[0], ips[|ips| - 1], gk);
  }

  /** One iteration of the path loop at interior IP `ips[m + 1]`, from the
      trace of the first `m`: a failing curve is the path's fault; otherwise
      the trace grows by the connector and the curve. */
  lemma PathStep(ips: seq<Vec3>, bend: Bend, gk: GeomKernels, m: nat, tr: Trace)
    requires 1 <= |ips| && m < InteriorCount(ips)
    requires PathAfter(ips, bend, gk, m) == Ok(tr)
    ensures CornerAt(ips, bend, m).Raise? ==> Path(ips, bend, gk) == Raise(CornerAt(ips, bend, m).fault)
    ensures CornerAt(ips, bend, m).Ok? ==>
              var c := CornerAt(ips, bend, m).value;
              PathAfter(ips, bend, gk, m + 1) == Ok(Trace(tr.edges + Connector(tr.prevEnd, c.t1, gk) + [ArcOf(c)], c.t2))
  {
    if CornerAt(ips, bend, m).Raise? {
      PathAfterRaisesLater(ips, bend, gk, m + 1, InteriorCount(ips));
    }
  }

  /** The last step of the path: the closing line after the last curve. */
  lemma PathClose(ips: seq<Vec3>, bend: Bend, gk: GeomKernels, tr: Trace)
    requires 1 <= |ips|
    requires PathAfter(ips, bend, gk, InteriorCount(ips)) == Ok(tr)
    ensures Path(ips, bend, gk) == Ok(tr.edges + Connector(tr.prevEnd, ips[|ips| - 1], gk))
  {
  }

  /** Appends the line from `prevEnd` to `to` when the gap exceeds the tolerance. */
  method AppendConnector(edges: seq<Edge>, prevEnd: Vec3, to: Vec3, gk: GeomKernels) returns (out: seq<Edge>)
    ensures out == edges + Connector(prevEnd, to, gk)
  {
    out := edges;
    if Apart(prevEnd, to, gk) {
      out := out + [Line(prevEnd, to)];
    }
  }

  /** The path loop of `generate_3d_model`, appending to the edge list and
      advancing the running endpoint one interior IP at a time. */
  method AssemblePath(ips: seq<Vec3>, bend: Bend, gk: GeomKernels) returns (res: Outcome<seq<Edge>>)
    ensures res == Path(ips, bend, gk)
  {
    if |ips| == 0 {
      return Raise(IndexError);
    }
    var edges: seq<Edge> := [];
    var prevEnd := ips[0];
    var i := 1;
    while i < |ips| - 1
      invariant 1 <= i && i - 1 <= InteriorCount(ips)
      invariant PathAfter(ips, bend, gk, i - 1) == Ok(Trace(edges, prevEnd))
    {
      var corner := bend(ips[i - 1], ips[i], ips[i + 1]);
      PathStep(ips, bend, gk, i - 1, Trace(edges, prevEnd));
      if corner.Raise? {
        return Raise(corner.fault);
      }
      var c := corner.value;
      edges := AppendConnector(edges, prevEnd, c.t1, gk);
      edges := edges + [Arc(c.t1, c.apex, c.t2)];
      prevEnd := c.t2;
      i := i + 1;
    }
    PathClose(ips, bend, gk, Trace(edges, prevEnd));
    edges := AppendConnector(edges, prevEnd, ips[|ips| - 1], gk);
    return Ok(edges);
  }
}
