# Canal design: code tables, hydraulics, alignment and section

This project is a Dafny model of the canal-design scripts of `opyf_colab`,
with proofs about it. The fixed-ratio designer and the jax optimizer each
compute the same Manning hydraulics and code tables, which the model holds
once; the asset generator uses neither and only lays out geometry from a
design dictionary. The three programs are:

- **The fixed-ratio designer `ISCanalDesigner`** (`design_canal_is_v2.py`).
  `calculate_is_parameters` fills a parameter dictionary in four steps:
  - the minimum curve radius (IS 5968:1987, clause 8.1, Table 1);
  - the freeboard (IS 10430:2000, Table 1);
  - the side slope by lining (IS 10430:2000, Table 2);
  - the depth, from a 50-step multiplicative depth search at bed width = 4 × depth, then the bed width and the velocity.

  It flags velocities above 2.5 m/s. `generate_3d_model` then lays out the
  swept path: one circular curve per interior intersection point (IP), joined
  by straight lines wherever a gap exceeds 1e-3. It also places the
  trapezoidal section at the first IP.
- **The jax penalty optimizer** (`jax_canal_optimizer.py`). It defines:
  - the same tables as `jnp.digitize` look-ups;
  - Manning's hydraulics;
  - an objective made of costs plus three squared-hinge penalties and one squared slope penalty;
  - a projected gradient descent of exactly 200 step-then-clip rounds from (10, 3, 1.5);
  - the design record it emits.
- **The asset generator** (`generate_canal_assets.py`). It reads a design
  dictionary and builds:
  - the three-edge path of a one-curve test alignment;
  - the section polygon in the plane `x = 0`;
  - the long-section line.

Modules, by program structure:

- `Numerics`: faults as an `Outcome`, division, hinge, and the `sqrt`/`pow` kernels.
- `CodeTables`: both forms of the tables.
- `HydraulicModel`: area, perimeter and Manning.
- `Optimizer`
- `DepthSolver`
- `Geometry`: vectors, edges and the geometry kernels.
- `Alignment`: tangent points and the path fold.
- `Section`: the outline and its placement.
- `Assets`
- `Designer`: the class `ISCanalDesigner`, its dictionary field and its two methods.

Python exceptions are the `Fault` of an `Outcome`:

- `ZeroDivisionError` is `DivisionByZero`;
- an index on an empty list is `IndexError`;
- a missing dictionary key is `KeyError`.

Every floating-point transcendental is a parameter: `sqrt`, `x ** e`, `acos`,
`tan`, `sin`, `normalize`, FreeCAD's `Length` and `tangentAt`. So is
`jax.grad`. Every result holds for every choice of them.

The model does only what the code does, and the code has no input validation:

- The code does not reject `Q <= 0`.
- It does not report when the depth search fails to converge.
- It does not check for infeasible alignments (near-reversals, short reaches).
- It does not check for non-finite values.
- The hydraulic formula does not check the slope sign or the roughness sign. It only divides, so the only faults are a zero wetted perimeter and a zero roughness.

The source's default arguments are kept as Dafny default parameters:

- `run_optimization` takes `n = 0.018`.
- The `ISCanalDesigner` constructor takes `lining_type = "concrete"`.

## Model

| member | source | states |
|---|---|---|
| CodeTables.MinRadius | canal_design/design_canal_is_v2.py:31-36 | the minimum radius is always between 100 and 1500 m |
| CodeTables.MinRadiusIntervals | canal_design/design_canal_is_v2.py:31-36 | radius 100 iff Q < 0.3, 150 iff 0.3 <= Q < 3, 300 iff 3 <= Q < 15, 600 iff 15 <= Q < 30, 1000 iff 30 <= Q < 80, 1500 iff Q >= 80 |
| CodeTables.MinRadiusMonotone | canal_design/design_canal_is_v2.py:31-36 | the minimum radius never decreases as Q grows |
| CodeTables.Freeboard | canal_design/design_canal_is_v2.py:41-44 | the freeboard is always between 0.30 and 0.75 m |
| CodeTables.FreeboardIntervals | canal_design/design_canal_is_v2.py:41-44 | freeboard 0.30 iff Q < 0.75, 0.50 iff 0.75 <= Q < 1.5, 0.60 iff 1.5 <= Q < 85, 0.75 iff Q >= 85 |
| CodeTables.FreeboardMonotone | canal_design/design_canal_is_v2.py:41-44 | the freeboard never decreases as Q grows |
| CodeTables.SideSlope | canal_design/design_canal_is_v2.py:49-52 | the side slope is 1.5 exactly for "concrete" and 1.0 for every other lining |
| CodeTables.Digitize | canal_design/jax_canal_optimizer.py:14 | the index is at most the number of bins; for increasing bins every bin below the index is <= x and every bin from it on is > x |
| CodeTables.DigitizeMonotone | canal_design/jax_canal_optimizer.py:14 | the digitize index is monotone in x |
| CodeTables.RadiusIndexInBounds | canal_design/jax_canal_optimizer.py:12-14 | the radius index is at most 5, within the 6 radius values |
| CodeTables.FreeboardIndexInBounds | canal_design/jax_canal_optimizer.py:18-20 | the freeboard index is at most 3, within the 4 freeboard values |
| CodeTables.GetIsMinRadius | canal_design/jax_canal_optimizer.py:11-14 | the digitize look-up equals the if/elif radius chain for every Q, thresholds included |
| CodeTables.GetIsFreeboard | canal_design/jax_canal_optimizer.py:16-20 | the digitize look-up equals the if/elif freeboard chain for every Q |
| Numerics.Divide | canal_design/design_canal_is_v2.py:77 | the division raises exactly on a zero divisor; otherwise quotient times divisor is the dividend |
| Numerics.HingeSquared | canal_design/jax_canal_optimizer.py:39-41 | `max(0, x)^2` is non-negative and is `x * x` for positive x |
| Numerics.HingeSquaredZero | canal_design/jax_canal_optimizer.py:39-41 | `max(0, x)^2` is zero exactly when x <= 0 |
| Numerics.SquareZero | canal_design/jax_canal_optimizer.py:42 | a square is non-negative and zero exactly at zero |
| HydraulicModel.Hydraulics | canal_design/jax_canal_optimizer.py:23-31 | raises, by division by zero, exactly on a zero perimeter or zero roughness; area is (B + S*D)*D, perimeter B + 2*D*sqrt(1 + S^2), discharge = area * velocity |
| HydraulicModel.PerimeterAtLeastBed | canal_design/jax_canal_optimizer.py:27 | with a non-negative root, the wetted perimeter is at least a positive bed width |
| HydraulicModel.HydraulicsDefined | canal_design/jax_canal_optimizer.py:27-29 | positive bed width, non-negative depth and non-zero roughness rule out the division fault |
| HydraulicModel.AreaNonNegative | canal_design/jax_canal_optimizer.py:26 | non-negative dimensions give a non-negative area |
| HydraulicModel.AreaAtRatio | canal_design/design_canal_is_v2.py:62-63 | at bed width ratio*d the area is (ratio + s)*d^2 |
| Optimizer.CalculateHydraulics | canal_design/jax_canal_optimizer.py:22-31 | the shared hydraulics with the root of S_long: it raises, by division by zero, exactly on a zero perimeter or zero n; area (B + S*D)*D; discharge = area * velocity |
| Optimizer.PenaltyDischarge | canal_design/jax_canal_optimizer.py:39 | non-negative, zero exactly when discharge >= Q_target |
| Optimizer.PenaltyVelocityMax | canal_design/jax_canal_optimizer.py:40 | non-negative, zero exactly when velocity <= 2.5 |
| Optimizer.PenaltyVelocityMin | canal_design/jax_canal_optimizer.py:41 | non-negative, zero exactly when velocity >= 0.6 |
| Optimizer.PenaltySlope | canal_design/jax_canal_optimizer.py:42 | non-negative, zero exactly when the side slope is 1.5 |
| Optimizer.Objective | canal_design/jax_canal_optimizer.py:33-43 | faults exactly when the hydraulics do; never below area + 0.1*perimeter, and equal to it exactly when discharge >= target, 0.6 <= v <= 2.5 and S = 1.5 |
| Optimizer.Clip | canal_design/jax_canal_optimizer.py:55 | the clipped value lies in [lo, hi], is x inside it, lo below, hi above |
| Optimizer.Clamp | canal_design/jax_canal_optimizer.py:55 | the result lies in B in [1,50], D in [0.5,10], S in [1,3]; an in-box vector is unchanged |
| Optimizer.ClampIdempotent | canal_design/jax_canal_optimizer.py:55 | clamping twice is clamping once |
| Optimizer.InitialInBox | canal_design/jax_canal_optimizer.py:48 | the start (10, 3, 1.5) lies in the box |
| Optimizer.Step | canal_design/jax_canal_optimizer.py:54 | each coordinate moves against its gradient component by 0.01 times it; a zero gradient is a fixed point |
| Optimizer.Descend | canal_design/jax_canal_optimizer.py:52-55 | after at least one step-then-clamp round the point is in the box whatever the gradient, and the box is preserved |
| Optimizer.Results | canal_design/jax_canal_optimizer.py:56-71 | faults exactly when the hydraulics do; freeboard and radius come from the tables at the achieved discharge; total_depth = water_depth + freeboard; the target, parameters and constants are copied |
| Optimizer.ResultsRoundTrip | canal_design/jax_canal_optimizer.py:56-71 | the record's own B, D, S, n, S_long fed back to the hydraulics reproduce its discharge and velocity |
| Optimizer.RunOptimization | canal_design/jax_canal_optimizer.py:46-71 | n defaults to 0.018; exactly 200 rounds; the result is the record at the 200-round descent from (10, 3, 1.5); its parameters lie in the box; with a non-negative root and n != 0 it cannot fault |
| DepthSolver.SolveDepth | canal_design/design_canal_is_v2.py:61-67 | `solve_depth` raises, by division by zero, exactly when the perimeter of the section of bed width 4*d is zero |
| DepthSolver.NextDepth | canal_design/design_canal_is_v2.py:73 | the correction d * (Q / q_calc)^0.4 keeps a zero depth at zero, and keeps the sign of d when the factor is positive |
| DepthSolver.SolveDepthSection | canal_design/design_canal_is_v2.py:58-67 | `solve_depth` uses bed width 4*d, so area (4 + s)*d^2, and returns area * velocity |
| DepthSolver.SolveDepthDefined | canal_design/design_canal_is_v2.py:61-67 | with a non-negative root, `solve_depth` faults exactly at d = 0 |
| DepthSolver.DischargeAtOnlyDivides | canal_design/design_canal_is_v2.py:61-67 | `solve_depth` can only fail by dividing by zero |
| DepthSolver.DepthSearch | canal_design/design_canal_is_v2.py:69-73 | at most 50 discharge evaluations; an early exit has at least one evaluation and residual below 0.01 at the returned depth; otherwise all 50 were used |
| DepthSolver.DepthSearchOnlyDivides | canal_design/design_canal_is_v2.py:69-73 | the depth loop's only fault is a division by zero when `solve_depth` has only that one |
| DepthSolver.DepthIteration | canal_design/design_canal_is_v2.py:71-73 | one pass of the loop body: it stops with the search's result (fault, or converged after i + 1 evaluations), or hands on the corrected depth with the remaining search unchanged |
| DepthSolver.IterateDepth | canal_design/design_canal_is_v2.py:69-73 | the loop with early break computes the depth search from d = 1.0 with budget 50 |
| Geometry.LengthTestBySquares | canal_design/design_canal_is_v2.py:107 | for a non-negative root, length > 1e-3 iff squared length > 1e-6 |
| Geometry.ApartBySquares | canal_design/design_canal_is_v2.py:107-108 | with a Euclidean `Length`, the gap test is the square-root-free test on squared length |
| Alignment.TangentPoints | canal_design/generate_canal_assets.py:16-26 | faults, by division by zero, exactly when sin(angle/2) is zero |
| Alignment.TangentPointsOnLegs | canal_design/generate_canal_assets.py:18-26 | t1 = p2 + v1*t and t2 = p2 + v2*t with the same t, apex = p2 + bisector*(r/sin(angle/2) - r) |
| Alignment.TangentsEquidistant | canal_design/design_canal_is_v2.py:100-105 | for unit legs, both tangent points are at squared distance t^2 from the IP |
| Alignment.InteriorCount | canal_design/design_canal_is_v2.py:96 | len(ips) - 2 interior IPs, none for fewer than 3 points |
| Alignment.Connector | canal_design/design_canal_is_v2.py:107-108 | a line from the running endpoint is emitted exactly when the gap exceeds the tolerance |
| Alignment.PathAfter | canal_design/design_canal_is_v2.py:94-116 | after m interior IPs the running endpoint is the m-th curve's t2 (ips[0] before any) and the edge list ends with that curve |
| Alignment.PathAfterArcs | canal_design/design_canal_is_v2.py:96-116 | the loop emits exactly one arc per interior IP, in IP order |
| Alignment.PathAfterRaises | canal_design/design_canal_is_v2.py:96-116 | the loop faults iff some curve does, then with the first failing curve's fault |
| Alignment.PathAfterChained | canal_design/design_canal_is_v2.py:96-116 | the loop's edges form one chain from ips[0] |
| Alignment.ChainedExtend | canal_design/design_canal_is_v2.py:107-116 | adding the connector and the next arc keeps the chain |
| Alignment.ChainedClose | canal_design/design_canal_is_v2.py:118-119 | adding the closing connector keeps the chain and ends it at the last IP |
| Alignment.Path | canal_design/design_canal_is_v2.py:94 | an empty IP list raises an IndexError |
| Alignment.PathShape | canal_design/design_canal_is_v2.py:92-119 | a built path has len(ips)-2 arcs in IP order, lines only across gaps over 1e-3, never two lines in a row, exact joins at lines, and ends at ips[-1] |
| Alignment.PathRaises | canal_design/design_canal_is_v2.py:94-116 | the path faults exactly on an empty list or a failing curve |
| Alignment.FewPointsNoArcs | canal_design/design_canal_is_v2.py:118-119 | with fewer than 3 points there are no arcs and the only possible edge is the line from ips[0] to ips[-1] |
| Alignment.AppendConnector | canal_design/design_canal_is_v2.py:107-108 | the edge list gains the connecting line exactly when the gap exceeds the tolerance |
| Alignment.AssemblePath | canal_design/design_canal_is_v2.py:92-119 | the append loop with `prev_end` computes the path fold |
| Section.Outline | canal_design/design_canal_is_v2.py:137-143 | five vertices, closed, bed at height 0 and top at total depth |
| Section.OutlineWidths | canal_design/design_canal_is_v2.py:137-143 | the bed is B wide, the top B + 2*S*D wide, and each wall rises S horizontal to 1 vertical |
| Section.OutlineSymmetric | canal_design/design_canal_is_v2.py:137-143 | the mirror image of every vertex in lx is a vertex |
| Section.ToGlobal | canal_design/design_canal_is_v2.py:134-135 | a point lx across and ly up is offset from the origin by right*lx + up*ly |
| Section.PlaceOutline | canal_design/design_canal_is_v2.py:134-143 | each placed vertex is ips[0] + right*lx + up*ly |
| Section.PlacedOutlineCentred | canal_design/design_canal_is_v2.py:134-143 | the placed section stays closed, with bed middle at the origin and top middle at origin + up*total_D |
| Section.PlacedOutlinePlanar | canal_design/design_canal_is_v2.py:129-143 | with right and up perpendicular to the normal, every vertex lies in the section plane |
| Section.AssetsSection | canal_design/generate_canal_assets.py:59-65 | five vertices, closed, every vertex at x = 0 |
| Section.AssetsSectionPlaced | canal_design/generate_canal_assets.py:59-65 | the written-out section is the outline placed at the origin with right (0,1,0) and up (0,0,1); every vertex has x = 0 |
| Section.AssetsSectionShape | canal_design/generate_canal_assets.py:59-65 | the bed lies at z = 0 from y = -B/2 to B/2; the top vertices are at z = total_D and y = +-(B/2 + S*total_D); the vertex set is symmetric about y = 0 |
| Assets.GetOr | canal_design/generate_canal_assets.py:45 | `p.get(key, default)`: the stored value when present, the default otherwise |
| Assets.ThreeEdgePath | canal_design/generate_canal_assets.py:49-52 | line, arc, line in order, from ips[0] to ips[2], consecutive edges sharing endpoints |
| Assets.ThreeEdgePathAgrees | canal_design/generate_canal_assets.py:47-52 | the three-edge path is the general path over the same points exactly when both legs exceed the tolerance |
| Assets.Elevation | canal_design/generate_canal_assets.py:82-85 | the elevation starts at (0,-200,0), runs `length` along x at constant y, and drops length*s_long |
| Assets.AssetsAlong | canal_design/generate_canal_assets.py:33-56 | raises exactly on a missing bed_width, water_depth, side_slope or freeboard, or a failing curve; a missing first key is a KeyError |
| Assets.GenerateAssets | canal_design/generate_canal_assets.py:28-87 | on the fixed test alignment: a missing bed_width, water_depth or side_slope is a KeyError; built assets have three edges from (0,0,0) to (1000,500,0) at the radius read, 300 when absent |
| Assets.AssetsAlongPath | canal_design/generate_canal_assets.py:45-52 | the built path is the three-edge path curved at the radius read, 300 when absent |
| Assets.AssetsAlongSection | canal_design/generate_canal_assets.py:55-85 | the built section is the placed outline, closed with 5 vertices, top at D + FB; the elevation drops 1000 times the slope, 0.0002 when absent |
| Designer.DesignParameters | canal_design/design_canal_is_v2.py:26-84 | raises exactly when the depth search raises or the sized section has zero area; a failed search leaves only the three table entries written |
| Designer.Sizing | canal_design/design_canal_is_v2.py:75-84 | stores depth d and bed width 4*d; raises, by division by zero, exactly on a zero area, leaving the dictionary as the tables plus depth and bed width and nothing else; otherwise velocity * area = Q, and the flag is set iff velocity > 2.5 |
| Designer.DesignTables | canal_design/design_canal_is_v2.py:26-53 | the three table entries are always stored; keys it never writes keep their values; its only fault is a division by zero |
| Designer.DesignSized | canal_design/design_canal_is_v2.py:69-84 | on success the depth is the depth-search result, bed width 4 * depth, velocity Q / area, and the flag is set iff velocity > 2.5 |
| Designer.DesignSuffices | canal_design/design_canal_is_v2.py:92-126 | after a successful design, laying out the canal never raises a KeyError |
| Designer.CanalModel | canal_design/design_canal_is_v2.py:86-143 | a missing min_radius is a KeyError; a failing path passes its fault on; after a good path, a missing bed_width, depth, freeboard or side_slope is a KeyError, and an empty path with all four keys is an IndexError; the model is built exactly when the path is non-empty and the four section keys are present; it holds that path and a 5-vertex section |
| Designer.CanalModelPath | canal_design/design_canal_is_v2.py:92-121 | the swept path has one arc per interior IP in order and is one chain from the first IP to the last |
| Designer.CanalModelSection | canal_design/design_canal_is_v2.py:124-143 | the swept section is closed with 5 vertices, its bed middle at ips[0] and its top middle depth + freeboard above |
| Designer.ISCanalDesigner.constructor | canal_design/design_canal_is_v2.py:20-24 | stores Q, the bed slope and the lining, "concrete" by default; the dictionary starts empty |
| Designer.ISCanalDesigner.CalculateIsParameters | canal_design/design_canal_is_v2.py:26-84 | the status and the new dictionary are those of the design function on the old dictionary |
| Designer.ISCanalDesigner.Generate3DModel | canal_design/design_canal_is_v2.py:86-143 | the path and the section are those of the canal-model function on the current dictionary |

## Left out

- FreeCAD is not modelled: `Part.LineSegment`, `Part.Arc`, `Part.Wire`, `makePolygon`, `makePipeShell`, documents, `recompute`, STEP/OBJ export. Edges are the `Edge` datatype, and `Length`, `tangentAt` and `normalize` are kernel parameters.
- `Part.Wire([])` on an empty edge list is not modelled. When the path has no edges, the model raises the `IndexError` of `edges[0]` instead.
- Two Python errors are not modelled: `normalize` on a null vector, and `math.acos` outside [-1, 1]. Both are properties of the kernels.
- Complex results of Python's `**` are not modelled: `self.S ** 0.5` on a negative bed slope and `rh ** (2/3)` on a negative hydraulic radius (design_canal_is_v2.py:66), and `x ** 0.4` on a negative ratio (line 73). The powers are kernels returning reals. A complex depth would also make `round(d, 3)` raise `TypeError` at line 75; that fault is not modelled either.
- Float `+`, `-`, `*` and `/` are modelled as exact real arithmetic. So identities such as velocity × area = Q, or an exact midpoint, hold in the model but not necessarily bit for bit in IEEE doubles.
- NaN and infinity are not modelled. jax's division by zero gives a non-finite value rather than raising; the model treats it as the `DivisionByZero` fault. NaN in `jnp.clip` and `jnp.digitize` is left out.
- The numeric values of `sqrt`, `x^(2/3)`, `x^0.4`, `acos`, `tan` and `sin` are not modelled, and neither is `jax.grad`/`jax.jit`. So nothing is claimed about convergence, the Q = 50 design, or the optimum.
- Designer.ISCanalDesigner.CalculateIsParameters: `round(…, 3)` is left out. The stored depth, bed width and velocity are unrounded. The velocity uses the unrounded bed width, where Python divides by the rounded one.
- JSON loading and saving, `argparse`, `os.makedirs`, `print` and the console warnings are I/O and are not modelled. The velocity warning is returned as a flag.
- Assets.AssetsAlong: it takes the alignment as a parameter. `GenerateAssets` is it at the fixed 1 km test alignment.
- The TypeScript files under `web/jax-js-fem` are not part of this model. They do floating-point linear algebra and autodiff on an unseen library.
- `ISCanalDesigner.generate_3d_model`: the `output_path` parameter is not modelled; it only names the exported files.
