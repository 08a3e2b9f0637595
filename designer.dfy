/** `ISCanalDesigner`: the designer object that fills its parameter
    dictionary from the code tables and the depth loop, and then lays out
    the swept canal from the alignment and the section. */
module Designer {
  import opened Numerics
  import opened Geometry
  import CodeTables
  import opened HydraulicModel
  import opened DepthSolver
  import opened Alignment
  import opened Section

  /** The maximum permissible velocity for concrete lining, in m/s. */
  const MAX_VELOCITY: real := 2.5

  /** The keys `calculate_is_parameters` writes. */
  const DESIGN_KEYS: set<string> := {"min_radius", "freeboard", "side_slope", "depth", "bed_width", "velocity"}

  /** The outcome of `calculate_is_parameters`: the velocity warning flag
      (or the fault it raised), and the parameter dictionary it leaves. */
  datatype Design = Design(status: Outcome<bool>, params: map<string, real>)

  /** The three table entries, written before the depth loop. */
  function TableParameters(q: real, liningType: string, params: map<string, real>): map<string, real>
  {
    params["min_radius" := CodeTables.MinRadius(q)]
          ["freeboard" := CodeTables.Freeboard(q)]
          ["side_slope" := CodeTables.SideSlope(liningType)]
  }

  /** The depth loop of `calculate_is_parameters`: at most 50 steps from
      depth 1, against the discharge at side slope `s`. */
  function DesignSearch(q: real, s: real, bedSlope: real, k: Kernels): Outcome<DepthRun> {
    DepthSearch(q, DischargeAt(s, bedSlope, k), k, 1.0, MAX_ITERATIONS)
  }

  /** `calculate_is_parameters` on the dictionary `params`. After the
      tables, the depth loop runs with the side slope just stored; then the
      depth and the bed width `4 * d` are stored, and then the velocity
      `Q / ((bed_width + s * d) * d)`, whose zero denominator raises with the
      depth and bed width already stored. The flag is the velocity warning. */
  function DesignParameters(q: real, bedSlope: real, liningType: string, k: Kernels,
                            params: map<string, real>): (r: Design)
    ensures var search := DesignSearch(q, CodeTables.SideSlope(liningType), bedSlope, k);
            r.status.Raise? <==>
              || search.Raise?
              || FlowArea(BED_DEPTH_RATIO * search.value.depth, search.value.depth, CodeTables.SideSlope(liningType)) == 0.0
    ensures var search := DesignSearch(q, CodeTables.SideSlope(liningType), bedSlope, k);
            search.Raise? ==> r == Design(Raise(search.fault), TableParameters(q, liningType, params))
  {
    var tables := TableParameters(q, liningType, params);
    var s := CodeTables.SideSlope(liningType);
    var search := DesignSearch(q, s, bedSlope, k);
    if search.Raise? then Design(Raise(search.fault), tables)
    else Sizing(q, s, search.value.depth, tables)
  }

  /** The part of `calculate_is_parameters` after the depth loop: depth `d`
      and bed width `4 * d` are stored, then the velocity. It raises exactly
      on a zero flow area, with depth and bed width already stored and
      nothing else changed; otherwise
      the stored velocity times the area is `Q`, and the flag is the 2.5 m/s
      warning. */
  function Sizing(q: real, s: real, d: real, tables: map<string, real>): (r: Design)
    ensures "depth" in r.params && r.params["depth"] == d
    ensures "bed_width" in r.params && r.params["bed_width"] == BED_DEPTH_RATIO * d
    ensures r.status.Raise? <==> FlowArea(BED_DEPTH_RATIO * d, d, s) == 0.0
    ensures r.status.Raise? ==>
              && r.status.fault == DivisionByZero
              && r.params == tables["depth" := d]["bed_width" := BED_DEPTH_RATIO * d]
    ensures r.status.Ok? ==>
              && "velocity" in r.params
              && r.params["velocity"] * FlowArea(BED_DEPTH_RATIO * d, d, s) == q
              && (r.status.value <==> r.params["velocity"] > MAX_VELOCITY)
  {
    var sized := tables["depth" := d]["bed_width" := BED_DEPTH_RATIO * d];
    var velocity := Divide(q, FlowArea(BED_DEPTH_RATIO * d, d, s));
    if velocity.Raise? then Design(Raise(velocity.fault), sized)
    else Design(Ok(velocity.value > MAX_VELOCITY), sized["velocity" := velocity.value])
  }

  /** `Sizing` written out by the outcome of the velocity division. */
  lemma SizingCases(q: real, s: real, d: real, tables: map<string, real>)
    ensures var velocity := Divide(q, FlowArea(BED_DEPTH_RATIO * d, d, s));
            var sized := tables["depth" := d]["bed_width" := BED_DEPTH_RATIO * d];
            Sizing(q, s, d, tables) ==
              if velocity.Raise? then Design(Raise(velocity.fault), sized)
              else Design(Ok(velocity.value > MAX_VELOCITY), sized["velocity" := velocity.value])
  {
  }

  /** What `calculate_is_parameters` always guarantees: the table entries
      are stored, at the values of the code tables for `Q` and the lining;
      keys it does not write keep their old values; its only fault is a
      division by zero. */
  lemma DesignTables(q: real, bedSlope: real, liningType: string, k: Kernels,
                     params: map<string, real>)
    ensures var r := DesignParameters(q, bedSlope, liningType, k, params);
            && "min_radius" in r.params && r.params["min_radius"] == CodeTables.MinRadius(q)
            && "freeboard" in r.params && r.params["freeboard"] == CodeTables.Freeboard(q)
            && "side_slope" in r.params && r.params["side_slope"] == CodeTables.SideSlope(liningType)
            && (forall key :: key !in DESIGN_KEYS ==>
                  (key in r.params <==> key in params) && (key in params ==> r.params[key] == params[key]))
            && (r.status.Raise? ==> r.status.fault == DivisionByZero)
  {
    var s := CodeTables.SideSlope(liningType);
    var tables := TableParameters(q, liningType, params);
    TablesStored(q, liningType, params);
    var search := DesignSearch(q, s, bedSlope, k);
    DischargeAtOnlyDivides(s, bedSlope, k);
    DepthSearchOnlyDivides(q, DischargeAt(s, bedSlope, k), k, 1.0, MAX_ITERATIONS);
    if search.Ok? {
      SizingKeeps(q, s, search.value.depth, tables);
    }
  }

  /** The table step stores its three entries and leaves every other key alone. */
  lemma TablesStored(q: real, liningType: string, params: map<string, real>)
    ensures var t := TableParameters(q, liningType, params);
            && "min_radius" in t && t["min_radius"] == CodeTables.MinRadius(q)
            && "freeboard" in t && t["freeboard"] == CodeTables.Freeboard(q)
            && "side_slope" in t && t["side_slope"] == CodeTables.SideSlope(liningType)
            && (forall key :: key !in DESIGN_KEYS ==>
                  (key in t <==> key in params) && (key in params ==> t[key] == params[key]))
  {
  }

  /** The sizing step writes only `depth`, `bed_width` and `velocity`, and
      can only fail by dividing by zero. */
  lemma SizingKeeps(q: real, s: real, d: real, tables: map<string, real>)
    ensures var r := Sizing(q, s, d, tables);
            && (forall key :: key != "depth" && key != "bed_width" && key != "velocity" ==>
                  (key in r.params <==> key in tables) && (key in tables ==> r.params[key] == tables[key]))
            && (r.status.Raise? ==> r.status.fault == DivisionByZero)
  {
  }

  /** What a successful `calculate_is_parameters` guarantees: the stored
      depth is the end of the 50-step depth loop, the bed width is 4 times
      it, the velocity is `Q` divided by the section's area, and the flag is set
      exactly when the velocity exceeds 2.5 m/s. */
  lemma DesignSized(q: real, bedSlope: real, liningType: string, k: Kernels,
                    params: map<string, real>)
    requires DesignParameters(q, bedSlope, liningType, k, params).status.Ok?
    ensures var r := DesignParameters(q, bedSlope, liningType, k, params);
            var s := CodeTables.SideSlope(liningType);
            var search := DesignSearch(q, s, bedSlope, k);
            && search.Ok?
            && "depth" in r.params && r.params["depth"] == search.value.depth
            && "bed_width" in r.params && r.params["bed_width"] == BED_DEPTH_RATIO * r.params["depth"]
            && "velocity" in r.params
            && Divide(q, FlowArea(r.params["bed_width"], r.params["depth"], s)) == Ok(r.params["velocity"])
            && (r.status.value <==> r.params["velocity"] > MAX_VELOCITY)
  {
    var s := CodeTables.SideSlope(liningType);
    var search := DesignSearch(q, s, bedSlope, k);
    assert search.Ok?;
    SizingCases(q, s, search.value.depth, TableParameters(q, liningType, params));
  }

  /** After a successful `calculate_is_parameters`, the dictionary holds
      every key `generate_3d_model` reads, so laying out the canal can no
      longer raise a `KeyError`. */
  lemma DesignSuffices(q: real, bedSlope: real, liningType: string, k: Kernels,
                       params: map<string, real>, ips: seq<Vec3>, gk: GeomKernels)
    requires DesignParameters(q, bedSlope, liningType, k, params).status.Ok?
    ensures CanalModel(DesignParameters(q, bedSlope, liningType, k, params).params, ips, gk) != Raise(KeyError)
  {
    DesignTables(q, bedSlope, liningType, k, params);
    var p := DesignParameters(q, bedSlope, liningType, k, params).params;
    if |ips| > 0 {
      PathAfterRaises(ips, BendOf(p["min_radius"], gk), gk, InteriorCount(ips));
      var path := Path(ips, BendOf(p["min_radius"], gk), gk);
      if path.Raise? {
        var j :| 0 <= j < InteriorCount(ips) &&
                 CornerAt(ips, BendOf(p["min_radius"], gk), j) == Raise(path.fault);
        assert CornerAt(ips, BendOf(p["min_radius"], gk), j)
               == TangentPoints(ips[j], ips[j + 1], ips[j + 2], p["min_radius"], gk);
      }
    }
  }

  /** What `generate_3d_model` sweeps: the path and the section placed at its start. */
  datatype SweepModel = SweepModel(path: seq<Edge>, section: seq<Vec3>)

  /** The keys `generate_3d_model` reads to build the cross-section. */
  predicate SectionKeys(params: map<string, real>) {
    "bed_width" in params && "depth" in params && "freeboard" in params && "side_slope" in params
  }

  /** `generate_3d_model` up to the sweep. It reads `min_radius` first and
      `ips[0]` next; after the path it reads `bed_width`, `depth`,
      `freeboard` and `side_slope`; the section plane is set up from the
      tangent of the first edge, which must exist. */
  function CanalModel(params: map<string, real>, ips: seq<Vec3>, gk: GeomKernels): (r: Outcome<SweepModel>)
    ensures "min_radius" !in params ==> r == Raise(KeyError)
    ensures "min_radius" in params ==>
              var path := Path(ips, BendOf(params["min_radius"], gk), gk);
              && (path.Raise? ==> r == Raise(path.fault))
              && (r.Ok? <==> path.Ok? && |path.value| > 0 && SectionKeys(params))
              && (r.Ok? ==> r.value.path == path.value && |r.value.section| == 5)
              && (path.Ok? && !SectionKeys(params) ==> r == Raise(KeyError))
              && (path.Ok? && path.value == [] && SectionKeys(params) ==> r == Raise(IndexError))
  {
    if "min_radius" !in params then Raise(KeyError)
    else
      match Path(ips, BendOf(params["min_radius"], gk), gk)
      case Raise(fault) => Raise(fault)
      case Ok(edges) =>
        if "bed_width" !in params || "depth" !in params || "freeboard" !in params || "side_slope" !in params
        then Raise(KeyError)
        else if |edges| == 0 then Raise(IndexError)
        else
          var totalD := params["depth"] + params["freeboard"];
          var normal := gk.tangentAt(edges[0]);
          var right := gk.normalize(Cross(normal, UP));
          Ok(SweepModel(edges, PlaceOutline(ips[0], right, UP, Outline(params["bed_width"], totalD, params["side_slope"]))))
  }

  /** A laid-out canal follows its alignment: the path holds one curve per
      interior IP, in order, at the design's minimum radius, and is one
      chain from the first IP to the last. */
  lemma CanalModelPath(params: map<string, real>, ips: seq<Vec3>, gk: GeomKernels)
    requires CanalModel(params, ips, gk).Ok?
    ensures |ips| >= 1 && "min_radius" in params
    ensures var m := CanalModel(params, ips, gk).value;
            var bend := BendOf(params["min_radius"], gk);
            && |ArcsOf(m.path)| == InteriorCount(ips)
            && (forall j :: 0 <= j < InteriorCount(ips) ==>
                  CornerAt(ips, bend, j).Ok? && ArcsOf(m.path)[j] == ArcOf(CornerAt(ips, bend, j).value))
            && Chained(ips[0], m.path, gk)
            && EndsAt(ips[0], m.path, ips[|ips| - 1], gk)
  {
    var bend := BendOf(params["min_radius"], gk);
    PathShape(ips, bend, gk);
    assert CanalModel(params, ips, gk).value.path == Path(ips, bend, gk).value;
  }

  /** A laid-out canal starts from its alignment: the section is the closed
      five-vertex outline of the stored bed width, total depth
      `depth + freeboard` and side slope, with the middle of its bed at the
      first IP and the middle of its top `depth + freeboard` above it. */
  lemma CanalModelSection(params: map<string, real>, ips: seq<Vec3>, gk: GeomKernels)
    requires CanalModel(params, ips, gk).Ok?
    ensures |ips| >= 1 && "depth" in params && "freeboard" in params
    ensures var m := CanalModel(params, ips, gk).value;
            var totalD := params["depth"] + params["freeboard"];
            && |m.section| == 5 && m.section[0] == m.section[4]
            && Midpoint(m.section[0], m.section[1]) == ips[0]
            && Midpoint(m.section[2], m.section[3]) == Add(ips[0], Scale(UP, totalD))
  {
    var bend := BendOf(params["min_radius"], gk);
    var edges := Path(ips, bend, gk).value;
    var right := gk.normalize(Cross(gk.tangentAt(edges[0]), UP));
    PlacedOutlineCentred(ips[0], right, UP, params["bed_width"], params["depth"] + params["freeboard"],
                         params["side_slope"]);
  }

  /** The designer object: the design discharge `Q`, the longitudinal bed
      slope `S`, the lining type, and the parameter dictionary it fills. */
  class ISCanalDesigner {
    var q: real
    var bedSlope: real
    var liningType: string
    var params: map<string, real>

    /** `ISCanalDesigner(Q, bed_slope, lining_type="concrete")`, with an empty dictionary. */
    constructor (q: real, bedSlope: real, liningType: string := "concrete")
      ensures this.q == q && this.bedSlope == bedSlope && this.liningType == liningType
      ensures params == map[]
    {
      this.q := q;
      this.bedSlope := bedSlope;
      this.liningType := liningType;
      params := map[];
    }

    /** `calculate_is_parameters`: fills the dictionary step by step and
      returns the velocity warning flag, or the fault it raised with the
      dictionary as far as it got. */
    method CalculateIsParameters(k: Kernels) returns (status: Outcome<bool>)
      modifies this`params
      ensures Design(status, params) == DesignParameters(q, bedSlope, liningType, k, old(params))
    {
      params := params["min_radius" := CodeTables.MinRadius(q)];
      params := params["freeboard" := CodeTables.Freeboard(q)];
      params := params["side_slope" := CodeTables.SideSlope(liningType)];
      var sVal := params["side_slope"];
      ghost var tables := params;
      var search := IterateDepth(q, DischargeAt(sVal, bedSlope, k), k);
      if search.Raise? {
        return Raise(search.fault);
      }
      var d := search.value.depth;
      var bedWidth := BED_DEPTH_RATIO * d;
      params := params["depth" := d];
      params := params["bed_width" := bedWidth];
      assert DesignParameters(q, bedSlope, liningType, k, old(params)) == Sizing(q, sVal, d, tables);
      var velocity := Divide(q, FlowArea(bedWidth, d, sVal));
      SizingCases(q, sVal, d, tables);
      if velocity.Raise? {
        return Raise(velocity.fault);
      }
      params := params["velocity" := velocity.value];
      status := Ok(velocity.value > MAX_VELOCITY);
    }

    /** `generate_3d_model` up to the sweep: the path loop, then the section
      placed in the plane normal to the first edge at `ips[0]`. */
    method Generate3DModel(ips: seq<Vec3>, gk: GeomKernels) returns (res: Outcome<SweepModel>)
      ensures res == CanalModel(params, ips, gk)
    {
      if "min_radius" !in params {
        return Raise(KeyError);
      }
      var r := params["min_radius"];
      var path := AssemblePath(ips, BendOf(r, gk), gk);
      if path.Raise? {
        return Raise(path.fault);
      }
      var edges := path.value;
      if "bed_width" !in params || "depth" !in params || "freeboard" !in params || "side_slope" !in params {
        return Raise(KeyError);
      }
      var b := params["bed_width"];
      var totalD := params["depth"] + params["freeboard"];
      var s := params["side_slope"];
      if |edges| == 0 {
        return Raise(IndexError);
      }
      var normal := gk.tangentAt(edges[0]);
      var up := UP;
      var right := gk.normalize(Cross(normal, up));
      var section := PlaceOutline(ips[0], right, up, Outline(b, totalD, s));
      return Ok(SweepModel(edges, section));
    }
  }
}
