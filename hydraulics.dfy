/** The hydraulic model of a trapezoidal lined section under Manning's
    equation, shared by the fixed-ratio designer (`solve_depth`) and the jax
    optimizer (`calculate_hydraulics`). The polynomial part (area, wetted
    perimeter, discharge = area * velocity) is exact; the powers are the
    abstract kernels of `Numerics`. */
module HydraulicModel {
  import opened Numerics

  /** The flow quantities `calculate_hydraulics` returns. */
  datatype Flow = Flow(discharge: real, velocity: real, area: real, perimeter: real)

  /** Flow area of the trapezoid `(B + S*D) * D`. */
  function FlowArea(b: real, d: real, s: real): real
  {
    (b + s * d) * d
  }

  /** Wetted perimeter `B + 2*D*sqrt(1 + S^2)`. */
  function WettedPerimeter(b: real, d: real, s: real, k: Kernels): real
  {
    b + 2.0 * d * k.sqrt(1.0 + s * s)
  }

  /** Manning's equation for bed width `b`, depth `d`, side slope `s`,
      roughness `n` and `slopeRoot` = the square root of the longitudinal
      slope: rh = area / perimeter, velocity = (1/n) * rh^(2/3) * slopeRoot,
      discharge = area * velocity. Raises on a zero perimeter (evaluated
      first) or a zero roughness. */
  function Hydraulics(b: real, d: real, s: real, n: real, slopeRoot: real, k: Kernels): (r: Outcome<Flow>)
    ensures r.Raise? <==> WettedPerimeter(b, d, s, k) == 0.0 || n == 0.0
    ensures r.Raise? ==> r.fault == DivisionByZero
    ensures r.Ok? ==> r.value.area == FlowArea(b, d, s)
    ensures r.Ok? ==> r.value.perimeter == WettedPerimeter(b, d, s, k)
    ensures r.Ok? ==> r.value.discharge == r.value.area * r.value.velocity
  {
    var area := FlowArea(b, d, s);
    var perimeter := WettedPerimeter(b, d, s, k);
    if perimeter == 0.0 then Raise(DivisionByZero)
    else if n == 0.0 then Raise(DivisionByZero)
    else
      var rh := area / perimeter;
      var velocity := (1.0 / n) * k.pow(rh, 2.0 / 3.0) * slopeRoot;
      Ok(Flow(area * velocity, velocity, area, perimeter))
  }

  /** With a non-negative square root, a positive bed width keeps the
      perimeter at least the bed width for any non-negative depth. */
  lemma PerimeterAtLeastBed(b: real, d: real, s: real, k: Kernels)
    requires NonNegativeRoot(k)
    requires b > 0.0 && d >= 0.0
    ensures WettedPerimeter(b, d, s, k) >= b > 0.0
  {
    var root := k.sqrt(1.0 + s * s);
    assert root >= 0.0;
    assert d * root >= 0.0;
  }

  /** No division fault is possible on a section with positive bed width,
      non-negative depth and non-zero roughness. */
  lemma HydraulicsDefined(b: real, d: real, s: real, n: real, slopeRoot: real, k: Kernels)
    requires NonNegativeRoot(k)
    requires b > 0.0 && d >= 0.0 && n != 0.0
    ensures Hydraulics(b, d, s, n, slopeRoot, k).Ok?
  {
    PerimeterAtLeastBed(b, d, s, k);
  }

  /** The area of a section with non-negative bed width, depth and side slope is non-negative. */
  lemma AreaNonNegative(b: real, d: real, s: real)
    requires b >= 0.0 && d >= 0.0 && s >= 0.0
    ensures FlowArea(b, d, s) >= 0.0
  {
    assert s * d >= 0.0;
    assert (b + s * d) * d >= 0.0;
  }

  /** For the fixed bed-width/depth ratio `b = ratio * d`, the area is `(ratio + s) * d^2`. */
  lemma AreaAtRatio(ratio: real, d: real, s: real)
    ensures FlowArea(ratio * d, d, s) == (ratio + s) * d * d
  {
  }
}
