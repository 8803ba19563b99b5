# Kerbal Engine Mapper: the optimiser core in Dafny

Kerbal Engine Mapper finds, for a grid of Δv requirements and payload
masses, the cheapest or lightest single-stage rocket built from a game's
engine catalogue. It does this in four steps:

- **Enumerate variants.** For each fuel family it lists every engine
  variant: engine `k mod n` of the family, mounted `k div n + 1` times.
  A radial engine's count may be rewritten to 2.
- **Size each cell.** It solves the rocket equation in closed form for
  the tank mass of every (Δv, payload, variant) cell. Cells that cannot
  close are masked with +inf: an empty or negative tank, too little
  thrust, or a solid booster asked for more fuel than it holds.
- **Pick a variant.** In plot mode it picks the best variant per cell.
  For a single point it returns the lightest variant, or the
  cost/mass Pareto front.
- **Look up fuels.** Fuel cost and density come from two constant
  tables, one per game version.

The model has these modules:

- `ExtReal` holds float values that may be +inf or -inf.
- `Pareto` and `ParetoFacts` model the dominance filter of `utils.py`.
- `Fuels` holds the fuel tables of `Fuels.py`.
- `RocketStage` covers the engine-variant layout of
  `Stages/RocketStage.py`.
- `StageMass` covers the mass and cost algebra and the masks.
- `LinearStage` covers the family loop, the selection and the entry
  points of `Stages/LinearStage.py`.
- `Results` holds `Option`/`Result`. An `Err` carries the name of the
  Python exception the code raises.

The code is imperative in four places, and the model keeps that form:

- `pareto` is a `while` loop that re-filters its index and cost arrays.
- Line 57 of `setup_physics_arrays` rewrites the count array in place
  under a mask. The model does this with a `forall` statement on an
  array.
- The family loop of `optimize_plot` extends its accumulators.
- The masks of lines 92-100 and the sentinel of line 113 overwrite array
  cells in place. The model uses `forall` statements on `array3`/`array2`.

Each of these methods is proved against a function or predicate. Lemmas
then state what that function promises.

## Behaviour as written

In two places the code does something other than its evident intent.
The model follows the code, and "## Findings" pairs each with the
intended definition.

- **Radial rule.** Radial boosters are fitted in pairs, so a request for
  one radial engine should become two. Line 57 of
  `Stages/RocketStage.py` reads `is_radial & num_engines == 1`. Python
  binds `&` tighter than `==`, so the mask is
  `(is_radial & num_engines) == 1`. Every odd count of a radial engine
  (1, 3, 5, …) becomes 2 (`RocketStage.RadialRuleAsWritten`).
- **Cost sentinel.** -1 marks a cell with no feasible variant, as line
  113 writes it for the mass index. Line 114 compares the cost index
  array, not the minimum cost, with inf. The cost index is therefore
  never -1, and a cell with every variant masked reports variant 0
  (`LinearStage.AllMaskedCell`).

## Model

| member | source | states |
|---|---|---|
| Pareto.Normalize | utils.py:21 | `X * directions`: each coordinate is kept for a maximised objective and negated for a minimised one |
| Pareto.DominanceMask | utils.py:26-27 | the mask keeps the current point and exactly the points that are somewhere strictly greater than it |
| Pareto.Count | utils.py:30 | `np.sum` of a mask is never more than the mask's length |
| Pareto.Select | utils.py:28-29 | boolean-mask indexing `arr[mask]` keeps exactly as many entries as the mask has `True`s |
| Pareto.ParetoFront | utils.py:4-32 | the loop terminates. The result is strictly increasing valid indices. Kept points are pairwise non-dominated. Every dropped point is weakly below a kept one. A kept point beats every earlier point somewhere. A non-empty input gives a non-empty result, never longer than the input |
| ParetoFacts.FrontierCharacterisation | utils.py:21-32 | an index is kept exactly when it is on the frontier: every point weakly above it is an identical copy with a later index |
| ParetoFacts.ParetoUnique | utils.py:21-32 | the promise determines the output, so the result depends on `X` only through `X * directions` |
| ParetoFacts.KeptNotDominated | utils.py:25-32 | whatever is weakly above a kept point is equal to it |
| ParetoFacts.MinimiseBoth | Stages/LinearStage.py:125 | with directions `[-1, -1]`, "weakly below after normalising" means "no larger in both raw objectives" |
| Fuels.ParseFamily | Fuels.py:52 | a name resolves only to the family carrying that attribute name |
| Fuels.ParseName | Fuels.py:24-33 | every family's attribute name resolves back to it |
| Fuels.ParseParam | Fuels.py:52 | exactly the keys 'Cost' and 'Density' are dictionary keys |
| Fuels.GetFuelData | Fuels.py:35-52 | succeeds iff the name is a fuel attribute of the table and the key is 'Cost' or 'Density', returning that field. Otherwise AttributeError for the name, or KeyError for the key |
| Fuels.BaseTableValues | Fuels.py:24-31 | LF 0.8/0.005, OX 0.18/0.005, SolidFuel 0.6/0.0075, Xenon 4.0/0.0001, read through `get_fuel_data` |
| Fuels.LfoxEqualsLf | Fuels.py:32-33 | the LFOX averages equal LF's cost 0.8 and density 0.005 |
| Fuels.DensitiesPositive | Fuels.py:24-67 | every density of both tables is positive |
| Fuels.KSP2OverridesAll | Fuels.py:55-67 | `FuelsKSP2` has the base families plus Hydrogen, each with cost 0 and density 1; the base class lacks Hydrogen |
| Fuels.HydrogenOnlyInKSP2 | Fuels.py:52-67 | 'Hydrogen' raises AttributeError through `Fuels` and gives 0 and 1 through `FuelsKSP2`; an unknown key fails |
| Fuels.LookupOfKnownFamily | Fuels.py:52 | for a family in the table, the lookup succeeds exactly for 'Cost'/'Density' and returns that entry's field |
| RocketStage.CountRep | Stages/RocketStage.py:110-128 | `count_rep(reps, c)` has length `reps*c` and element `k` is `k div c + 1` |
| RocketStage.CountRepExample | Stages/RocketStage.py:122-124 | `count_rep(3, 2) == [1, 1, 2, 2, 3, 3]` |
| RocketStage.CountRepNonDecreasing | Stages/RocketStage.py:126-128 | the count axis is sorted |
| RocketStage.CountRepOccurrences | Stages/RocketStage.py:126-128 | each of 1..reps occurs exactly `c` times and nothing else occurs |
| RocketStage.Tile | Stages/RocketStage.py:55 | `np.tile(s, reps)` has length `|s|*reps` and element `k` is `s[k mod |s|]` |
| RocketStage.RadialAnd | Stages/RocketStage.py:57 | `is_radial & num_engines` is 0 or 1, and 1 exactly for a radial engine with an odd count |
| RocketStage.EffectiveCount | Stages/RocketStage.py:57 | non-radial counts are unchanged; any count becomes either itself or 2; a positive count stays positive |
| RocketStage.RadialRuleAsWritten | Stages/RocketStage.py:54-57 | a radial count becomes 2 exactly when it is odd; non-radial counts are kept |
| RocketStage.IntendedEffectiveCount | Stages/RocketStage.py:57 | the pairing rule: a count is never reduced, changes exactly for a single radial engine, and a radial engine is always mounted at least twice |
| RocketStage.RadialRuleDiscrepancy | Stages/RocketStage.py:57 | the written and the intended rule differ exactly at radial counts that are odd and at least 3; a request for 3 gives 2 as written and 3 as intended |
| RocketStage.FilterFamily | Stages/RocketStage.py:44 | the filtered list holds exactly the catalogue engines of the family |
| RocketStage.FilterAppend | Stages/RocketStage.py:44 | filtering distributes over concatenation, so it keeps catalogue order |
| RocketStage.CountsOf | Stages/RocketStage.py:45-57 | the count array has `n*max_eng_quant` entries; entry `k` is the radial rule applied to engine `k mod n` and count `k div n + 1` |
| RocketStage.EffectiveCountsUnique | Stages/RocketStage.py:45-57 | any array meeting that description is that count array |
| RocketStage.Scale | Stages/RocketStage.py:70-86 | the element-wise product with the count array: same length, entry `k` is `values[k] * counts[k]` |
| RocketStage.Arrange | Stages/RocketStage.py:59-86 | all seven variant arrays have one entry per count, and the count array is passed through unchanged |
| RocketStage.ArrangeAt | Stages/RocketStage.py:67-86 | variant `k`: its ISP is the chosen condition's ISP, unscaled. Its thrust, mass, cost and built-in fuel are the engine's times the effective count; its name and count are set |
| RocketStage.ArrangeLayout | Stages/RocketStage.py:59-86 | every variant of the tiled and scaled arrays is laid out that way |
| RocketStage.PhysicsOf | Stages/RocketStage.py:40-88 | the arrays of a family have `n*max_eng_quant` entries, each as the variant layout says |
| RocketStage.SetupPhysicsArrays | Stages/RocketStage.py:40-88 | raises TypeError for a family without engines (line 57 on the float array `np.tile([], q)`). Otherwise it raises NotImplementedError iff the condition is neither 'asl' nor 'vac'. Otherwise it rewrites the counts in place and returns the variant layout for that condition |
| StageMass.M100 | Stages/LinearStage.py:76 | `m100` times the denominator `f E - 1` is the numerator `P (1 - E)` |
| StageMass.Size | Stages/LinearStage.py:59-86 | `ms = m100*f`; `ms + mf = m100`; `m_tot = pl + eng_mass + ms + mf`; `fuel_units * density = mf`; cost is structure times tank price plus engine cost plus `mf` times fuel price; `m0 = E * m1` |
| StageMass.RocketEquationHolds | Stages/LinearStage.py:59-76 | the `m100` of line 76 satisfies `P + m100 = E (P + f m100)` |
| StageMass.RocketEquationRoundTrip | Stages/LinearStage.py:59-76 | for `P != 0`, `f != 1`, `f E != 1`, the final mass is non-zero and `m0 / m1 = E`, so the sized stage delivers the requested Δv |
| StageMass.TankMassPositiveIff | Stages/LinearStage.py:76 | for `P > 0` and `E > 1`, `m100 > 0` exactly when `f E < 1` |
| StageMass.MassesNonNegative | Stages/LinearStage.py:79-81 | a closed stage with `0 <= f <= 1` has non-negative structure and fuel masses |
| StageMass.ZeroTotalMassIsMasked | Stages/LinearStage.py:86-93 | a zero total mass with non-negative fixed mass only occurs in a cell the first mask already removes |
| StageMass.ThrustTooLow | Stages/LinearStage.py:87-96 | for a positive total mass the TWR test is `T < TWR_req * m_tot * 9.8`; a zero total mass is never flagged |
| StageMass.Infeasible | Stages/LinearStage.py:92-100 | a cell no mask removes has `m100 > 0` and enough thrust; a solid booster over its built-in fuel is always removed |
| StageMass.EvaluateCell | Stages/LinearStage.py:74-100 | mass and cost are +inf exactly when a mask applies (`m100 <= 0`, TWR below the requirement on the pre-mask mass, or the solid fuel cap). Otherwise they are the computed values. Fuel units are never masked |
| StageMass.FuelCapOnlyForSolids | Stages/LinearStage.py:98-100 | for non-solid families only the first two masks apply |
| LinearStage.EmptyGrid | Stages/LinearStage.py:48-51 | `np.empty([span, span, 0])` has the grid shape and no variants |
| LinearStage.ConcatGrid | Stages/LinearStage.py:102-104 | concatenation on axis 2 keeps the first block's variants and appends the second's after them |
| LinearStage.ConcatSweep | Stages/LinearStage.py:89-104 | the labels and counts are the first block's followed by the second's. Every cell of the first block's mass, cost and fuel arrays stays at its variant `k`; every cell of the second block's lands at variant `|first| + k` |
| LinearStage.BestEmptyFraction | Stages/LinearStage.py:21-29 | for SolidFuel, variant `k` uses the `empty_ratio` of solid engine `k mod n`, the same engine as the variant layout; other families use the tanks' `percent_structure` |
| LinearStage.FamilyCell | Stages/LinearStage.py:74-100 | a cell's mass and cost are +inf together, and a finite mass comes with finite fuel units |
| LinearStage.CellSizing | Stages/LinearStage.py:74-86 | there is no sizing exactly when `f E == 1`. Otherwise the total mass is payload plus engines plus `m100`, structure plus fuel is `m100`, and `m100` solves the rocket equation |
| LinearStage.Unmasked | Stages/LinearStage.py:84-86 | the values written before any mask: finite sized mass, cost and fuel, or +inf everywhere for a singular cell |
| LinearStage.TankEmpty | Stages/LinearStage.py:92-93 | the `m100 <= 0` mask never applies to a singular cell |
| LinearStage.TooLittleThrust | Stages/LinearStage.py:87-96 | the TWR mask never applies to a singular cell, and applies only at a non-zero total mass |
| LinearStage.OverFuelCap | Stages/LinearStage.py:98-100 | the fuel-cap mask never applies to a singular cell, and applies only when the fuel units exceed the built-in fuel |
| LinearStage.FamilySweep | Stages/LinearStage.py:74-104 | a family's block is well shaped with the family's labels. Each cell is the masked cell, and its mass and cost are masked together |
| LinearStage.MaskedCell | Stages/LinearStage.py:84-100 | overwriting a cell with +inf under the three masks in turn gives the masked cell |
| LinearStage.MaskedGrid | Stages/LinearStage.py:86-100 | the in-place masked writes to the mass or cost array leave every cell equal to the masked cell |
| LinearStage.MaskFamily | Stages/LinearStage.py:74-104 | the arrays built in place equal the family's block |
| LinearStage.FamilyResult | Stages/LinearStage.py:53-104 | one family iteration raises TypeError for a family without engines. Otherwise it raises NotImplementedError for a bad condition, then AttributeError for a family the fuel table lacks. Otherwise it yields a well-shaped block of `n*max_eng_quant` variants |
| LinearStage.SweepOf | Stages/LinearStage.py:46-104 | the accumulators after the loop are well shaped, or hold the first exception |
| LinearStage.Extend | Stages/LinearStage.py:89-104 | an exception from the iteration propagates unchanged; a block is appended to the accumulators by concatenation, which keeps them well shaped |
| LinearStage.FamilyBlock | Stages/LinearStage.py:53-104 | a family whose iteration succeeds is in the fuel table, and its block is the sweep of its variant layout, empty fractions, density and fuel cost |
| LinearStage.SweepBlockOf | Stages/LinearStage.py:89-104 | every variant of the completed sweep is a variant `k2` of the block of one visited family, with the same label, count and cells |
| LinearStage.SweepProvenance | Stages/LinearStage.py:89-104 | every variant `k` of the completed sweep comes from variant `k2` of one visited family: label and count are that family's layout entries, and every cell's mass, cost and fuel is that family's masked cell |
| LinearStage.SweepErrorPersists | Stages/LinearStage.py:53-104 | after a family raises, later families change nothing |
| LinearStage.CatalogueFamiliesHaveEngines | Stages/LinearStage.py:44 | every family of the set built from the catalogue has at least one engine |
| LinearStage.SweepErrors | Stages/LinearStage.py:44-104 | when every family has engines, the loop raises only NotImplementedError (bad condition) or AttributeError (family missing from the fuel table). With a valid condition it completes exactly when every family is in the table |
| LinearStage.SweepConditionCheck | Stages/LinearStage.py:53-55 | a bad flight condition raises NotImplementedError as soon as there is a family to process |
| LinearStage.SweepSnoc | Stages/LinearStage.py:53-104 | one more family extends the accumulators by its block, or raises |
| LinearStage.FamilyResultOk | Stages/LinearStage.py:54-104 | when the condition and both fuel lookups succeed, the iteration yields that family's block |
| LinearStage.EvaluateFamilies | Stages/LinearStage.py:44-104 | the imperative loop over the families computes exactly the accumulators (or the exception) of `SweepOf` |
| LinearStage.ArgMin | Stages/LinearStage.py:110-111 | `np.argmin`: the index of a least element, strictly below everything before it (the first minimum) |
| LinearStage.IndexWithSentinel | Stages/LinearStage.py:107-113 | the mass index is -1 exactly when every variant is +inf, else the first lightest variant |
| LinearStage.IndexIsInf | Stages/LinearStage.py:114 | an index read as a float is never inf, so the test of line 114 never holds |
| LinearStage.CostIndex | Stages/LinearStage.py:108-114 | the cost index is always the first cheapest variant; the -1 sentinel is never written |
| LinearStage.AllMaskedCell | Stages/LinearStage.py:107-114 | a fully masked cell reports mass index -1 but cost index 0 |
| LinearStage.CostSentinelDiscrepancy | Stages/LinearStage.py:113-114 | the written cost index and the sentinel index differ exactly at cells where every variant is +inf; the one-variant masked cell gives 0 as written and -1 as intended |
| LinearStage.PlotIndices | Stages/LinearStage.py:106-119 | raises ValueError exactly when there are no variants, whatever the grid size. Otherwise every cell gets the mass index for 'mass' and the cost index otherwise |
| LinearStage.NewLinearStage | Stages/LinearStage.py:12-13 | the stage stores its six arguments unchanged with type 'Linear' |
| LinearStage.StageOf | Stages/LinearStage.py:130-131 | the stage of variant `k` has its mass, label, count, cost and fuel, the requested Δv and type 'Linear' |
| LinearStage.StagesAt | Stages/LinearStage.py:128-131 | one stage per selected index, built from that variant's mass, label, count, cost and fuel |
| LinearStage.CostMassPoints | Stages/LinearStage.py:125 | row `k` of the Pareto input is variant `k`'s (cost, total mass) |
| LinearStage.SelectPoint | Stages/LinearStage.py:121-132 | 'mass' returns the one stage at the argmin (ValueError with no variants). 'cost' returns the stages at the Pareto indices of (cost, mass) under `[-1, -1]`. Anything else raises NotImplementedError |
| LinearStage.MassSelectionIsLightest | Stages/LinearStage.py:122-123 | the 'mass' stage is no heavier than any variant, and has +inf mass exactly when every variant is masked |
| LinearStage.CostSelectionMeaning | Stages/LinearStage.py:124-125 | a variant is selected in 'cost' mode exactly when every other variant at least as cheap and as light is an identical, later copy |
| LinearStage.NegateRowsInjective | Stages/LinearStage.py:125 | negating both objectives identifies exactly the rows that were equal |
| LinearStage.OptimizePlot | Stages/LinearStage.py:32-134 | the families are those of the catalogue, each once. A loop exception propagates, and it is NotImplementedError or AttributeError. Plot mode gives the index grid, or ValueError on an empty variant axis. `span == 1` without plot gives the point selection (line 121). Without plot, any span other than 1 raises NotImplementedError (lines 133-134) |
| LinearStage.OptimizePoint | Stages/LinearStage.py:15-19 | `optimize_point` is `optimize_plot` on the single cell `(pl, dv)` without plotting |

## Findings

| source | as written | input that shows it | evidently intended | confidence | as-written member | corrected member |
|---|---|---|---|---|---|---|
| Stages/RocketStage.py:57 | `is_radial & num_engines == 1` masks `(is_radial & n) == 1`, so every odd radial count becomes 2 | a radial engine requested 3 times is mounted twice | only a single radial engine becomes a pair: `is_radial & (num_engines == 1)` | high, not executed | RocketStage.RadialRuleDiscrepancy | RocketStage.IntendedEffectiveCount |
| Stages/LinearStage.py:114 | `min_costs_idx[min_costs_idx == np.inf] = -1` compares indices with inf, so it never writes | a cell whose every variant is +inf reports cost index 0 | `min_costs_idx[min_costs == np.inf] = -1`, as line 113 does for mass | high, not executed | LinearStage.CostSentinelDiscrepancy | LinearStage.IndexWithSentinel |

The rest of the model keeps the behaviour as written.


## Left out

- Floating point: reals stand for floats. Rounding, NaN and overflow are not modelled. `exp(dv / (isp * g))` is a parameter `rocketExp` of the configuration.
- The Δv and payload axes are given as sequences. `np.logspace`/`np.linspace`/`np.meshgrid` (Stages/LinearStage.py:40-41, Stages/RocketStage.py:47-52) are not modelled. Neither is the float round trip `10**log10(pl)` of `optimize_point`; the model uses `pl` itself.
- The Δv and payload arrays that `setup_physics_arrays` passes through are not part of `PhysicsArrays`.
- StageMass.EvaluateCell: a singular denominator `f * E == 1` is modelled as a cell of +inf. The float result (inf or NaN) is not modelled.
- StageMass.ThrustTooLow: a zero total mass makes the TWR test false. For non-negative thrust, the float division gives +inf or NaN, and the comparison is false either way.
- `FuelTank.py` is not part of this model. `percent_structure` and `best_cost_per_ton_structure` are parameters (`Tanks`).
- `Engine.py` and the class-level catalogue loading (Stages/RocketStage.py:13-14, Stages/LinearStage.py:167-169) are not part of this model. The engine catalogue is a parameter.
- The fuel table is a parameter. `LinearStage` reads `cls.fuels`, which only `LinearStageKSP2` defines (Stages/LinearStage.py:169).
- Fuel families are visited in a caller-given order of the catalogue's fuel types, each once (`LinearStage.FamilyOrder`). Python's iteration order over the set (Stages/LinearStage.py:44) is not modelled.
- Drawing the plot (`plotDVPLDiagram`) and `toString` are left out, because they are output only. The model returns the index grid that would be drawn.
- The iterative inverse solver (`iterative_forward_optimizer`, `forward_data_generator`, `_forward_data_generator`) is left out, because it is float convergence behaviour.
- The root `RocketStage.py`, `Stages/AsparagusStage.py`, `Stages/PLStage.py`, the scripts and `get_allow_engines` are left out, because they are outside the optimiser core.
- The base `RocketStage.optimize_point`/`optimize_plot` only raise and are left out.
- Fuels.GetFuelData: every name that is not a fuel family is reported as AttributeError. Python resolves other class attributes first: the method `get_fuel_data` and dunder attributes such as `__doc__` and `__module__` raise TypeError when indexed, and `__dict__` raises KeyError. Those names are not modelled.
- RocketStage.SetupPhysicsArrays: `maxQuant` is a `nat`. A negative `max_eng_quant`, for which `np.tile` raises ValueError (Stages/RocketStage.py:55), is not modelled.
- LinearStage.OptimizePlot: `span` is a `nat`. A negative `span`, for which `np.logspace`/`np.linspace` raise ValueError (Stages/LinearStage.py:40-41), is not modelled, and neither is a negative `max_eng_quant` in `LinearStage.Config`.
