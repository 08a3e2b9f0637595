/** The fixed-ratio depth search of `calculate_is_parameters`: bed width is
    kept at 4 times the depth, and the depth is corrected multiplicatively,
    `d := d * (Q / q_calc) ** 0.4`, for at most 50 discharge evaluations,
    stopping early once the discharge is within 0.01 cumecs of the target. */
module DepthSolver {
  import opened Numerics
  import opened HydraulicModel

  /** Manning's n for concrete lining, fixed in the designer. */
  const MANNING_N: real := 0.018
  /** The assumed bed-width / depth ratio. */
  const BED_DEPTH_RATIO: real := 4.0
  /** The iteration budget of the depth loop. */
  const MAX_ITERATIONS: nat := 50
  /** The convergence tolerance in cumecs. */
  const TOLERANCE: real := 0.01

  function Abs(x: real): real
  {
    if x < 0.0 then -x else x
  }

  /** `solve_depth(d)`: the discharge of the section with depth `d` and bed
      width `4 * d`, side slope `s`, roughness 0.018 and the root
      `bed_slope ** 0.5`. */
  function SolveDepth(d: real, s: real, bedSlope: real, k: Kernels): (r: Outcome<real>)
    ensures r.Raise? <==> WettedPerimeter(BED_DEPTH_RATIO * d, d, s, k) == 0.0
    ensures r.Raise? ==> r.fault == DivisionByZero
  {
    match Hydraulics(BED_DEPTH_RATIO * d, d, s, MANNING_N, k.pow(bedSlope, 0.5), k)
    case Raise(fault) => Raise(fault)
    case Ok(flow) => Ok(flow.discharge)
  }

  /** `solve_depth` evaluates the section whose bed width is 4 times its
      depth: its flow area is `(4 + s) * d^2` and the discharge it returns is
      that area times the Manning velocity. */
  lemma SolveDepthSection(d: real, s: real, bedSlope: real, k: Kernels)
    ensures
      var flow := Hydraulics(BED_DEPTH_RATIO * d, d, s, MANNING_N, k.pow(bedSlope, 0.5), k);
      && (SolveDepth(d, s, bedSlope, k).Ok? <==> flow.Ok?)
      && (flow.Ok? ==> flow.value.area == (BED_DEPTH_RATIO + s) * d * d
                       && SolveDepth(d, s, bedSlope, k).value == flow.value.area * flow.value.velocity)
  {
    AreaAtRatio(BED_DEPTH_RATIO, d, s);
  }

  /** With a non-negative square root, only a zero depth makes `solve_depth` divide by zero. */
  lemma SolveDepthDefined(d: real, s: real, bedSlope: real, k: Kernels)
    requires NonNegativeRoot(k)
    ensures SolveDepth(d, s, bedSlope, k).Raise? <==> d == 0.0
  {
    var root := k.sqrt(1.0 + s * s);
    assert root >= 0.0;
    if d > 0.0 {
      assert d * root >= 0.0;
    } else if d < 0.0 {
      assert d * root <= 0.0;
    }
  }

  /** `solve_depth` as the closure the loop calls, for side slope `s` and bed slope `bedSlope`. */
  function DischargeAt(s: real, bedSlope: real, k: Kernels): real -> Outcome<real>
  {
    d => SolveDepth(d, s, bedSlope, k)
  }

  /** A discharge function whose only fault is a division by zero. */
  ghost predicate OnlyDivides(solve: real -> Outcome<real>)
  {
    forall d :: solve(d).Raise? ==> solve(d).fault == DivisionByZero
  }

  /** `solve_depth` can only fail by dividing by zero. */
  lemma DischargeAtOnlyDivides(s: real, bedSlope: real, k: Kernels)
    ensures OnlyDivides(DischargeAt(s, bedSlope, k))
  {
    forall d | DischargeAt(s, bedSlope, k)(d).Raise?
      ensures DischargeAt(s, bedSlope, k)(d).fault == DivisionByZero
    {
      assert DischargeAt(s, bedSlope, k)(d) == SolveDepth(d, s, bedSlope, k);
    }
  }

  /** The multiplicative correction `d * (Q / q_calc) ** 0.4`: with a
      positive correction factor the depth keeps its sign, and a zero depth
      stays zero whatever the factor. */
  function NextDepth(d: real, q: real, qCalc: real, k: Kernels): (r: real)
    requires qCalc != 0.0
    ensures d == 0.0 ==> r == 0.0
    ensures k.pow(q / qCalc, 0.4) > 0.0 ==> (r > 0.0 <==> d > 0.0) && (r < 0.0 <==> d < 0.0)
  {
    d * k.pow(q / qCalc, 0.4)
  }

  /** What the depth loop leaves behind: the last depth, how many discharge
      evaluations it made, and whether it stopped on the tolerance. */
  datatype DepthRun = DepthRun(depth: real, evaluations: nat, converged: bool)

  /** The depth loop for target `q` and discharge function `solve`, from
      depth `d` with `budget` iterations left. It never evaluates the
      discharge more than `budget` times; when it stops on the tolerance the
      returned depth's discharge is within 0.01 of `q`, and otherwise it used
      the whole budget. */
  function DepthSearch(q: real, solve: real -> Outcome<real>, k: Kernels, d: real, budget: nat): (r: Outcome<DepthRun>)
    ensures r.Ok? ==> r.value.evaluations <= budget
    ensures r.Ok? && r.value.converged ==>
              && r.value.evaluations >= 1
              && solve(r.value.depth).Ok?
              && Abs(solve(r.value.depth).value - q) < TOLERANCE
    ensures r.Ok? && !r.value.converged ==> r.value.evaluations == budget
    decreases budget
  {
    if budget == 0 then Ok(DepthRun(d, 0, false))
    else
      match solve(d)
      case Raise(fault) => Raise(fault)
      case Ok(qCalc) =>
        if Abs(qCalc - q) < TOLERANCE then Ok(DepthRun(d, 1, true))
        else if qCalc == 0.0 then Raise(DivisionByZero)
        else
          match DepthSearch(q, solve, k, NextDepth(d, q, qCalc, k), budget - 1)
          case Raise(fault) => Raise(fault)
          case Ok(run) => Ok(DepthRun(run.depth, run.evaluations + 1, run.converged))
  }

  /** With a discharge function that only divides by zero, so does the search. */
  lemma {:induction false} DepthSearchOnlyDivides(q: real, solve: real -> Outcome<real>, k: Kernels, d: real, budget: nat)
    requires OnlyDivides(solve)
    ensures DepthSearch(q, solve, k, d, budget).Raise? ==> DepthSearch(q, solve, k, d, budget).fault == DivisionByZero
    decreases budget
  {
    if budget > 0 && solve(d).Ok? {
      var qCalc := solve(d).value;
      if Abs(qCalc - q) >= TOLERANCE && qCalc != 0.0 {
        DepthSearchOnlyDivides(q, solve, k, NextDepth(d, q, qCalc, k), budget - 1);
      }
    }
  }

  /** A run of the loop seen `done` iterations later: the same end, `done` more evaluations. */
  function Later(r: Outcome<DepthRun>, done: nat): Outcome<DepthRun>
  {
    match r
    case Raise(fault) => Raise(fault)
    case Ok(run) => Ok(DepthRun(run.depth, run.evaluations + done, run.converged))
  }

  lemma LaterLater(r: Outcome<DepthRun>, m: nat, n: nat)
    ensures Later(Later(r, m), n) == Later(r, m + n)
  {
  }

  /** One iteration of the loop, seen from the whole search `whole` that
      the remaining search is a suffix of after `i` iterations: where the
      iteration raises, returns or moves on. */
  lemma DepthSearchStep(q: real, solve: real -> Outcome<real>, k: Kernels, d: real, i: nat,
                        whole: Outcome<DepthRun>)
    requires i < MAX_ITERATIONS
    requires Later(DepthSearch(q, solve, k, d, MAX_ITERATIONS - i), i) == whole
    ensures solve(d).Raise? ==> whole == Raise(solve(d).fault)
    ensures solve(d).Ok? && Abs(solve(d).value - q) < TOLERANCE ==>
              whole == Ok(DepthRun(d, i + 1, true))
    ensures solve(d).Ok? && Abs(solve(d).value - q) >= TOLERANCE && solve(d).value == 0.0 ==>
              whole == Raise(DivisionByZero)
    ensures solve(d).Ok? && Abs(solve(d).value - q) >= TOLERANCE && solve(d).value != 0.0 ==>
              Later(DepthSearch(q, solve, k, NextDepth(d, q, solve(d).value, k), MAX_ITERATIONS - (i + 1)), i + 1)
                == whole
  {
    if solve(d).Ok? && Abs(solve(d).value - q) >= TOLERANCE && solve(d).value != 0.0 {
      LaterLater(DepthSearch(q, solve, k, NextDepth(d, q, solve(d).value, k), MAX_ITERATIONS - (i + 1)), 1, i);
    }
  }

  /** One iteration of the depth loop at depth `d` after `i` iterations:
      evaluate the discharge, and either stop with the loop's result (a
      fault, or the converged run) or hand on the corrected depth. */
  method DepthIteration(q: real, solve: real -> Outcome<real>, k: Kernels, d: real, i: nat,
                        ghost whole: Outcome<DepthRun>)
    returns (stop: bool, res: Outcome<DepthRun>, next: real)
    requires i < MAX_ITERATIONS
    requires Later(DepthSearch(q, solve, k, d, MAX_ITERATIONS - i), i) == whole
    ensures stop ==> res == whole
    ensures !stop ==> Later(DepthSearch(q, solve, k, next, MAX_ITERATIONS - (i + 1)), i + 1) == whole
  {
    DepthSearchStep(q, solve, k, d, i, whole);
    next := d;
    var step := solve(d);
    if step.Raise? {
      return true, Raise(step.fault), next;
    }
    var qCalc := step.value;
    if Abs(qCalc - q) < TOLERANCE {
      return true, Ok(DepthRun(d, i + 1, true)), next;
    }
    if qCalc == 0.0 {
      return true, Raise(DivisionByZero), next;
    }
    stop, res := false, Raise(DivisionByZero);
    next := NextDepth(d, q, qCalc, k);
  }

  /** The loop of `calculate_is_parameters` over `solve_depth`, from
      `d = 1.0`, computes the depth search with a budget of 50 evaluations;
      so by the contract of `DepthSearch` it makes at most 50 evaluations and
      exits early only with a residual below 0.01. */
  method IterateDepth(q: real, solve: real -> Outcome<real>, k: Kernels) returns (res: Outcome<DepthRun>)
    ensures res == DepthSearch(q, solve, k, 1.0, MAX_ITERATIONS)
  {
    ghost var whole := DepthSearch(q, solve, k, 1.0, MAX_ITERATIONS);
    var d := 1.0;
    var i := 0;
    while i < MAX_ITERATIONS
      invariant i <= MAX_ITERATIONS
      invariant Later(DepthSearch(q, solve, k, d, MAX_ITERATIONS - i), i) == whole
    {
      var stop, r, next := DepthIteration(q, solve, k, d, i, whole);
      if stop {
        return r;
      }
      d := next;
      i := i + 1;
    }
    res := Ok(DepthRun(d, MAX_ITERATIONS, false));
  }
}
