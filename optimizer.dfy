/** The jax penalty optimizer: the objective with its squared-hinge penalty
    terms, the box clamp, the fixed 200-step projected descent and the
    parameter record it emits. The gradient (`jax.grad` of the objective) is
    an arbitrary function supplied by the caller. */
module Optimizer {
  import opened Numerics
  import opened HydraulicModel
  import CodeTables

  /** The parameter vector `[B, D, S_side]`. */
  datatype Params = Params(bedWidth: real, depth: real, sideSlope: real)

  /** The `(n, S_long)` constants: Manning's roughness and the longitudinal slope. */
  datatype Constants = Constants(n: real, sLong: real)

  /** `calculate_hydraulics(params, constants)`: the shared model with `sqrt(S_long)`. */
  function CalculateHydraulics(p: Params, c: Constants, k: Kernels): (r: Outcome<Flow>)
    ensures r.Raise? <==> WettedPerimeter(p.bedWidth, p.depth, p.sideSlope, k) == 0.0 || c.n == 0.0
    ensures r.Raise? ==> r.fault == DivisionByZero
    ensures r.Ok? ==> && r.value.area == FlowArea(p.bedWidth, p.depth, p.sideSlope)
                      && r.value.perimeter == WettedPerimeter(p.bedWidth, p.depth, p.sideSlope, k)
                      && r.value.discharge == r.value.area * r.value.velocity
  {
    Hydraulics(p.bedWidth, p.depth, p.sideSlope, c.n, k.sqrt(c.sLong), k)
  }

  /** `1000 * max(0, Q_target - discharge)^2`: zero exactly when the target is met. */
  function PenaltyDischarge(qTarget: real, discharge: real): (p: real)
    ensures p >= 0.0
    ensures p == 0.0 <==> discharge >= qTarget
  {
    HingeSquaredZero(qTarget - discharge);
    1000.0 * HingeSquared(qTarget - discharge)
  }

  /** `5000 * max(0, velocity - 2.5)^2`: zero exactly up to the 2.5 m/s limit. */
  function PenaltyVelocityMax(velocity: real): (p: real)
    ensures p >= 0.0
    ensures p == 0.0 <==> velocity <= 2.5
  {
    HingeSquaredZero(velocity - 2.5);
    5000.0 * HingeSquared(velocity - 2.5)
  }

  /** `5000 * max(0, 0.6 - velocity)^2`: zero exactly from the 0.6 m/s limit on. */
  function PenaltyVelocityMin(velocity: real): (p: real)
    ensures p >= 0.0
    ensures p == 0.0 <==> velocity >= 0.6
  {
    HingeSquaredZero(0.6 - velocity);
    5000.0 * HingeSquared(0.6 - velocity)
  }

  /** `100 * (S_side - 1.5)^2`: zero exactly at the target side slope 1.5. */
  function PenaltySlope(sideSlope: real): (p: real)
    ensures p >= 0.0
    ensures p == 0.0 <==> sideSlope == 1.5
  {
    SquareZero(sideSlope - 1.5);
    100.0 * Square(sideSlope - 1.5)
  }

  /** `objective_fn`: excavation (the area) plus lining (0.1 * perimeter) plus
      the four penalties. It never falls below the cost part, and equals it
      exactly when every constraint holds. */
  function Objective(p: Params, qTarget: real, c: Constants, k: Kernels): (r: Outcome<real>)
    ensures r.Raise? <==> CalculateHydraulics(p, c, k).Raise?
    ensures r.Ok? ==>
              var f := CalculateHydraulics(p, c, k).value;
              r.value >= f.area + 0.1 * f.perimeter
    ensures r.Ok? ==>
              var f := CalculateHydraulics(p, c, k).value;
              (r.value == f.area + 0.1 * f.perimeter <==>
                 f.discharge >= qTarget && 0.6 <= f.velocity <= 2.5 && p.sideSlope == 1.5)
  {
    match CalculateHydraulics(p, c, k)
    case Raise(fault) => Raise(fault)
    case Ok(f) =>
      var costExcavation := f.area;
      var costLining := f.perimeter * 0.1;
      Ok(costExcavation + costLining + PenaltyDischarge(qTarget, f.discharge)
         + PenaltyVelocityMax(f.velocity) + PenaltyVelocityMin(f.velocity)
         + PenaltySlope(p.sideSlope))
  }

  /** The box constraints of the clamp. */
  const LOWER: Params := Params(1.0, 0.5, 1.0)
  const UPPER: Params := Params(50.0, 10.0, 3.0)

  predicate InBox(p: Params)
  {
    && LOWER.bedWidth <= p.bedWidth <= UPPER.bedWidth
    && LOWER.depth <= p.depth <= UPPER.depth
    && LOWER.sideSlope <= p.sideSlope <= UPPER.sideSlope
  }

  /** `jnp.clip(x, lo, hi)`, that is `minimum(maximum(x, lo), hi)`. */
  function Clip(x: real, lo: real, hi: real): (r: real)
    ensures lo <= hi ==> lo <= r <= hi
    ensures lo <= x <= hi ==> r == x
    ensures lo <= hi && x < lo ==> r == lo
    ensures x > hi ==> r == hi
  {
    var m := if x < lo then lo else x;
    if m > hi then hi else m
  }

  /** The clamp applied after every step: the result lies in the box, and a
      vector already in the box is left unchanged. */
  function Clamp(p: Params): (r: Params)
    ensures InBox(r)
    ensures InBox(p) ==> r == p
  {
    Params(Clip(p.bedWidth, LOWER.bedWidth, UPPER.bedWidth),
           Clip(p.depth, LOWER.depth, UPPER.depth),
           Clip(p.sideSlope, LOWER.sideSlope, UPPER.sideSlope))
  }

  /** Clamping twice is clamping once. */
  lemma ClampIdempotent(p: Params)
    ensures Clamp(Clamp(p)) == Clamp(p)
  {
  }

  const INITIAL: Params := Params(10.0, 3.0, 1.5)
  const LEARNING_RATE: real := 0.01
  const ITERATIONS: nat := 200

  /** The starting point of the descent lies in the box. */
  lemma InitialInBox()
    ensures InBox(INITIAL)
  {
  }

  /** The gradient step `params - lr * grads`: each coordinate moves against
      its gradient component by 0.01 times it, and a zero gradient leaves the
      point where it is. */
  function Step(p: Params, g: Params): (r: Params)
    ensures p.bedWidth - r.bedWidth == LEARNING_RATE * g.bedWidth
    ensures p.depth - r.depth == LEARNING_RATE * g.depth
    ensures p.sideSlope - r.sideSlope == LEARNING_RATE * g.sideSlope
    ensures g == Params(0.0, 0.0, 0.0) ==> r == p
  {
    Params(p.bedWidth - LEARNING_RATE * g.bedWidth,
           p.depth - LEARNING_RATE * g.depth,
           p.sideSlope - LEARNING_RATE * g.sideSlope)
  }

  /** `steps` rounds of gradient step followed by clamp, from `p`. Whatever
      the gradient returns, at least one round leaves the point in the box,
      and a point in the box stays there. */
  function Descend(p: Params, qTarget: real, c: Constants,
                   grad: (Params, real, Constants) -> Params, steps: nat): (q: Params)
    ensures steps > 0 ==> InBox(q)
    ensures InBox(p) ==> InBox(q)
    decreases steps
  {
    if steps == 0 then p
    else Descend(Clamp(Step(p, grad(p, qTarget, c))), qTarget, c, grad, steps - 1)
  }

  /** The parameter record `run_optimization` returns. */
  datatype DesignRecord = DesignRecord(
    isDischargeTarget: real,
    bedWidth: real,
    waterDepth: real,
    sideSlope: real,
    freeboard: real,
    totalDepth: real,
    calculatedDischarge: real,
    velocity: real,
    minRadius: real,
    manningN: real,
    longSlope: real)

  /** The record built from the final parameters: freeboard and minimum radius
      come from the tables at the achieved discharge, not at the target, and
      the total depth is the water depth plus that freeboard. */
  function Results(p: Params, qTarget: real, c: Constants, k: Kernels): (r: Outcome<DesignRecord>)
    ensures r.Raise? <==> CalculateHydraulics(p, c, k).Raise?
    ensures r.Ok? ==>
              var f := CalculateHydraulics(p, c, k).value;
              && r.value.calculatedDischarge == f.discharge
              && r.value.velocity == f.velocity
              && r.value.freeboard == CodeTables.Freeboard(f.discharge)
              && r.value.minRadius == CodeTables.MinRadius(f.discharge)
              && r.value.totalDepth == r.value.waterDepth + r.value.freeboard
              && r.value.isDischargeTarget == qTarget
              && Params(r.value.bedWidth, r.value.waterDepth, r.value.sideSlope) == p
              && r.value.manningN == c.n && r.value.longSlope == c.sLong
  {
    match CalculateHydraulics(p, c, k)
    case Raise(fault) => Raise(fault)
    case Ok(f) =>
      var fb := CodeTables.GetIsFreeboard(f.discharge);
      var minR := CodeTables.GetIsMinRadius(f.discharge);
      Ok(DesignRecord(qTarget, p.bedWidth, p.depth, p.sideSlope, fb, p.depth + fb,
                      f.discharge, f.velocity, minR, c.n, c.sLong))
  }

  /** The record is self-consistent: fed back into the hydraulic model, its
      own bed width, depth, side slope, roughness and slope reproduce the
      discharge and velocity it reports. */
  lemma ResultsRoundTrip(p: Params, qTarget: real, c: Constants, k: Kernels)
    requires Results(p, qTarget, c, k).Ok?
    ensures var r := Results(p, qTarget, c, k).value;
            var f := CalculateHydraulics(Params(r.bedWidth, r.waterDepth, r.sideSlope),
                                         Constants(r.manningN, r.longSlope), k);
            && f.Ok?
            && f.value.discharge == r.calculatedDischarge
            && f.value.velocity == r.velocity
  {
    var r := Results(p, qTarget, c, k).value;
    assert Params(r.bedWidth, r.waterDepth, r.sideSlope) == p;
    assert Constants(r.manningN, r.longSlope) == c;
  }

  /** `run_optimization`: exactly 200 rounds of gradient step then clamp from
      (10, 3, 1.5), then the record at the final point. The roughness
      defaults to 0.018, as in the source. The final point is in
      the box whatever the gradient returns, and with a non-negative square
      root and non-zero roughness no division fault is possible. */
  method RunOptimization(qTarget: real, sLong: real, k: Kernels,
                         grad: (Params, real, Constants) -> Params, n: real := 0.018)
    returns (res: Outcome<DesignRecord>, rounds: nat)
    ensures rounds == ITERATIONS
    ensures res == Results(Descend(INITIAL, qTarget, Constants(n, sLong), grad, ITERATIONS),
                           qTarget, Constants(n, sLong), k)
    ensures res.Ok? ==> InBox(Params(res.value.bedWidth, res.value.waterDepth, res.value.sideSlope))
    ensures NonNegativeRoot(k) && n != 0.0 ==> res.Ok?
  {
    var params := INITIAL;
    var constants := Constants(n, sLong);
    rounds := 0;
    while rounds < ITERATIONS
      invariant rounds <= ITERATIONS
      invariant InBox(params)
      invariant Descend(params, qTarget, constants, grad, ITERATIONS - rounds)
                == Descend(INITIAL, qTarget, constants, grad, ITERATIONS)
    {
      var grads := grad(params, qTarget, constants);
      params := Step(params, grads);
      params := Clamp(params);
      rounds := rounds + 1;
    }
    res := Results(params, qTarget, constants, k);
    if NonNegativeRoot(k) && n != 0.0 {
      HydraulicsDefined(params.bedWidth, params.depth, params.sideSlope, n, k.sqrt(sLong), k);
    }
  }
}
