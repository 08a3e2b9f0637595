/** `generate_assets`: from a parameter dictionary, the three-edge test
    alignment with one curve, the cross-section in the plane `x = 0`, and
    the long-section (elevation) line. Loading the dictionary from JSON,
    the FreeCAD document and the exports are outside the model. */
module Assets {
  import opened Numerics
  import opened Geometry
  import opened Alignment
  import opened Section

  const DEFAULT_MIN_RADIUS: real := 300.0
  const DEFAULT_LONG_SLOPE: real := 0.0002
  /** The length of the elevation line. */
  const ELEVATION_LENGTH: real := 1000.0
  /** The 2D section view is placed with its base at `(-200, 0, 0)`. */
  const SECTION_VIEW_BASE: Vec3 := Vec3(-200.0, 0.0, 0.0)

  /** The standard test alignment: one corner at `(500, 0, 0)`, about 1 km in all. */
  const TEST_ALIGNMENT: seq<Vec3> := [Vec3(0.0, 0.0, 0.0), Vec3(500.0, 0.0, 0.0), Vec3(1000.0, 500.0, 0.0)]

  /** `p.get(key, default)`. */
  function GetOr(p: map<string, real>, key: string, default: real): (v: real)
    ensures key in p ==> v == p[key]
    ensures key !in p ==> v == default
  {
    if key in p then p[key] else default
  }

  /** `[LineSegment(ips[0], t1), Arc(t1, apex, t2), LineSegment(t2, ips[2])]`:
      both lines are always there, whatever their length. */
  function ThreeEdgePath(first: Vec3, c: Corner, last: Vec3): (e: seq<Edge>)
    ensures |e| == 3 && e[0].Line? && e[1].Arc? && e[2].Line?
    ensures e[0].start == first && e[2].finish == last
    ensures e[0].finish == e[1].start && e[1].finish == e[2].start
  {
    [Line(first, c.t1), ArcOf(c), Line(c.t2, last)]
  }

  /** The three-edge path of `generate_assets` is the general path of
      `generate_3d_model` over the same three points exactly when both
      straight legs are longer than the 1e-3 tolerance; otherwise the
      general path would have dropped a leg. */
  lemma ThreeEdgePathAgrees(ips: seq<Vec3>, bend: Bend, gk: GeomKernels)
    requires |ips| == 3
    requires CornerAt(ips, bend, 0).Ok?
    ensures var c := CornerAt(ips, bend, 0).value;
            Path(ips, bend, gk) == Ok(ThreeEdgePath(ips[0], c, ips[2])) <==>
              Apart(ips[0], c.t1, gk) && Apart(c.t2, ips[2], gk)
  {
    var c := CornerAt(ips, bend, 0).value;
    var lead := Connector(ips[0], c.t1, gk);
    var tail := Connector(c.t2, ips[2], gk);
    assert PathAfter(ips, bend, gk, 1).value.edges == lead + [ArcOf(c)];
    var path := Path(ips, bend, gk).value;
    assert path == lead + [ArcOf(c)] + tail;
    if Apart(ips[0], c.t1, gk) && Apart(c.t2, ips[2], gk) {
      assert path == ThreeEdgePath(ips[0], c, ips[2]);
    } else {
      assert |path| < 3;
    }
  }

  /** The long-section line from `(0, -200, 0)` to `(length, -200, -length * s_long)`:
      it runs `length` along x at a constant y and drops `length * s_long`. */
  function Elevation(length: real, sLong: real): (e: Edge)
    ensures e.Line? && e.start == Vec3(0.0, -200.0, 0.0)
    ensures e.finish.x - e.start.x == length && e.finish.y == e.start.y
    ensures e.start.z - e.finish.z == length * sLong
  {
    Line(Vec3(0.0, -200.0, 0.0), Vec3(length, -200.0, -length * sLong))
  }

  /** What `generate_assets` builds: the path, the section, the section
      view's base, the total depth, the elevation line, and the radius used. */
  datatype AssetSet = AssetSet(
    path: seq<Edge>,
    section: seq<Vec3>,
    sectionBase: Vec3,
    totalDepth: real,
    elevation: Edge,
    radius: real)

  /** The body of `generate_assets` on the loaded dictionary `p`, for a
      three-point alignment `ips`. The summary line reads `bed_width`,
      `water_depth` and `side_slope` first; then the curve is fitted at
      `ips[1]`; only then is `freeboard` read. */
  function AssetsAlong(p: map<string, real>, ips: seq<Vec3>, gk: GeomKernels): (r: Outcome<AssetSet>)
    requires |ips| == 3
    ensures r.Raise? <==>
              || "bed_width" !in p || "water_depth" !in p || "side_slope" !in p
              || CornerAt(ips, BendOf(GetOr(p, "min_radius", DEFAULT_MIN_RADIUS), gk), 0).Raise?
              || "freeboard" !in p
    ensures r.Raise? && ("bed_width" !in p || "water_depth" !in p || "side_slope" !in p) ==>
              r.fault == KeyError
    ensures r.Raise? && "freeboard" !in p
            && CornerAt(ips, BendOf(GetOr(p, "min_radius", DEFAULT_MIN_RADIUS), gk), 0).Ok? ==>
              r.fault == KeyError
  {
    if "bed_width" !in p || "water_depth" !in p || "side_slope" !in p then Raise(KeyError)
    else
      var r := GetOr(p, "min_radius", DEFAULT_MIN_RADIUS);
      var c := CornerAt(ips, BendOf(r, gk), 0);
      if c.Raise? then Raise(c.fault)
      else if "freeboard" !in p then Raise(KeyError)
      else
        var totalD := p["water_depth"] + p["freeboard"];
        var section := AssetsSection(p["bed_width"], totalD, p["side_slope"]);
        var sLong := GetOr(p, "long_slope", DEFAULT_LONG_SLOPE);
        Ok(AssetSet(ThreeEdgePath(ips[0], c.value, ips[2]), section, SECTION_VIEW_BASE,
                    totalD, Elevation(ELEVATION_LENGTH, sLong), r))
  }

  /** When the assets are built, their path is the three-edge path through
      the alignment, curved at the radius read from `p`, 300 when absent. */
  lemma AssetsAlongPath(p: map<string, real>, ips: seq<Vec3>, gk: GeomKernels)
    requires |ips| == 3
    requires AssetsAlong(p, ips, gk).Ok?
    ensures var a := AssetsAlong(p, ips, gk).value;
            var c := CornerAt(ips, BendOf(a.radius, gk), 0);
            && ("min_radius" !in p ==> a.radius == 300.0)
            && c.Ok?
            && a.path == ThreeEdgePath(ips[0], c.value, ips[2])
  {
    AssetsAlongValue(p, ips, gk);
  }

  /** The asset set of a successful `generate_assets`, written out. */
  lemma AssetsAlongValue(p: map<string, real>, ips: seq<Vec3>, gk: GeomKernels)
    requires |ips| == 3
    requires AssetsAlong(p, ips, gk).Ok?
    ensures "bed_width" in p && "water_depth" in p && "side_slope" in p && "freeboard" in p
    ensures var r := GetOr(p, "min_radius", DEFAULT_MIN_RADIUS);
            var c := CornerAt(ips, BendOf(r, gk), 0);
            var totalD := p["water_depth"] + p["freeboard"];
            && c.Ok?
            && AssetsAlong(p, ips, gk).value ==
                 AssetSet(ThreeEdgePath(ips[0], c.value, ips[2]),
                          AssetsSection(p["bed_width"], totalD, p["side_slope"]), SECTION_VIEW_BASE, totalD,
                          Elevation(ELEVATION_LENGTH, GetOr(p, "long_slope", DEFAULT_LONG_SLOPE)), r)
  {
  }

  /** When the assets are built, their section is the closed five-vertex
      outline of the design placed in the plane `x = 0`, its top at
      `water_depth + freeboard`, and the elevation drops 1000 times the
      longitudinal slope, 0.0002 when absent. */
  lemma AssetsAlongSection(p: map<string, real>, ips: seq<Vec3>, gk: GeomKernels)
    requires |ips| == 3
    requires AssetsAlong(p, ips, gk).Ok?
    ensures "bed_width" in p && "side_slope" in p
    ensures var a := AssetsAlong(p, ips, gk).value;
            a.section == PlaceOutline(Vec3(0.0, 0.0, 0.0), Vec3(0.0, 1.0, 0.0), UP,
                                      Outline(p["bed_width"], a.totalDepth, p["side_slope"]))
    ensures var a := AssetsAlong(p, ips, gk).value;
            && |a.section| == 5 && a.section[0] == a.section[4]
            && a.section[2].z == a.totalDepth == p["water_depth"] + p["freeboard"]
            && a.elevation.start.z - a.elevation.finish.z
                 == 1000.0 * GetOr(p, "long_slope", 0.0002)
  {
    AssetsAlongValue(p, ips, gk);
    var a := AssetsAlong(p, ips, gk).value;
    var totalD := p["water_depth"] + p["freeboard"];
    var written := AssetsSection(p["bed_width"], totalD, p["side_slope"]);
    var placed := PlaceOutline(Vec3(0.0, 0.0, 0.0), Vec3(0.0, 1.0, 0.0), UP,
                               Outline(p["bed_width"], totalD, p["side_slope"]));
    AssetsSectionPlaced(p["bed_width"], totalD, p["side_slope"]);
    assert a.totalDepth == totalD;
    assert a.section == written == placed;
  }

  /** `generate_assets`: the assets along the fixed test alignment. A
      missing bed width, water depth or side slope is a `KeyError`; built
      assets run from the first test IP to the last in three edges, at the
      radius read, 300 when absent. */
  function GenerateAssets(p: map<string, real>, gk: GeomKernels): (r: Outcome<AssetSet>)
    ensures ("bed_width" !in p || "water_depth" !in p || "side_slope" !in p) ==> r == Raise(KeyError)
    ensures r.Ok? ==>
              && |r.value.path| == 3
              && r.value.path[0].start == TEST_ALIGNMENT[0]
              && r.value.path[2].finish == TEST_ALIGNMENT[2]
              && r.value.radius == GetOr(p, "min_radius", DEFAULT_MIN_RADIUS)
  {
    var a := AssetsAlong(p, TEST_ALIGNMENT, gk);
    if a.Ok? then
      AssetsAlongValue(p, TEST_ALIGNMENT, gk);
      a
    else a
  }
}
