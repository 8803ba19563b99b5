/** Stages/LinearStage.py: the sweep of `optimize_plot` over fuel families
    and engine variants, and the selection of the best variants from it.
    Arrays indexed `[i][j][k]` hold Δv point `i`, payload point `j` and
    variant `k` (the `meshgrid(dv, pl, indexing='ij')` layout). */
module LinearStage {
  import opened Results
  import opened ExtReal
  import opened Fuels
  import opened RocketStage
  import opened StageMass
  import opened Pareto
  import ParetoFacts

  type Grid = seq<seq<seq<XReal>>>

  predicate Shaped(g: Grid, rows: nat, cols: nat, depth: nat)
  {
    |g| == rows
    && forall i :: 0 <= i < rows ==>
         |g[i]| == cols && forall j :: 0 <= j < cols ==> |g[i][j]| == depth
  }

  /** `np.empty([span, span, 0])`. */
  function EmptyGrid(rows: nat, cols: nat): (g: Grid)
    ensures Shaped(g, rows, cols, 0)
  {
    seq(rows, _ => seq(cols, _ => []))
  }

  /** `np.concatenate((a, b), axis=2)`: the variants of `b` follow those of
      `a` in every cell. */
  function ConcatGrid(a: Grid, b: Grid, rows: nat, cols: nat, da: nat, db: nat): (g: Grid)
    requires Shaped(a, rows, cols, da) && Shaped(b, rows, cols, db)
    ensures Shaped(g, rows, cols, da + db)
    ensures forall i, j, k :: 0 <= i < rows && 0 <= j < cols && 0 <= k < da ==>
      g[i][j][k] == a[i][j][k]
    ensures forall i, j, k :: 0 <= i < rows && 0 <= j < cols && 0 <= k < db ==>
      g[i][j][da + k] == b[i][j][k]
  {
    seq(rows, i requires 0 <= i < rows =>
      seq(cols, j requires 0 <= j < cols => a[i][j] + b[i][j]))
  }

  /** The accumulators `all_engines`, `all_quant_engines`, `all_mtot`,
      `all_costs` and `all_mfs`. */
  datatype Sweep = Sweep(names: seq<string>, counts: seq<nat>, mtot: Grid, costs: Grid, fuel: Grid)

  /** Labels and the variant axis of every array have one length. */
  predicate WellShaped(s: Sweep, rows: nat, cols: nat)
  {
    |s.counts| == |s.names|
    && Shaped(s.mtot, rows, cols, |s.names|)
    && Shaped(s.costs, rows, cols, |s.names|)
    && Shaped(s.fuel, rows, cols, |s.names|)
  }

  /** The accumulators extended by one block: labels and counts are
      appended, and in every cell the block's variants follow the earlier
      ones, so label `k` still describes slice `k`. */
  function ConcatSweep(a: Sweep, b: Sweep, rows: nat, cols: nat): (s: Sweep)
    requires WellShaped(a, rows, cols) && WellShaped(b, rows, cols)
    ensures WellShaped(s, rows, cols) && |s.names| == |a.names| + |b.names|
    ensures s.names == a.names + b.names && s.counts == a.counts + b.counts
    ensures forall i, j, k :: 0 <= i < rows && 0 <= j < cols && 0 <= k < |a.names| ==>
      s.mtot[i][j][k] == a.mtot[i][j][k] && s.costs[i][j][k] == a.costs[i][j][k]
      && s.fuel[i][j][k] == a.fuel[i][j][k]
    ensures forall i, j, k :: 0 <= i < rows && 0 <= j < cols && 0 <= k < |b.names| ==>
      s.mtot[i][j][|a.names| + k] == b.mtot[i][j][k] && s.costs[i][j][|a.names| + k] == b.costs[i][j][k]
      && s.fuel[i][j][|a.names| + k] == b.fuel[i][j][k]
  {
    Sweep(a.names + b.names, a.counts + b.counts,
          ConcatGrid(a.mtot, b.mtot, rows, cols, |a.names|, |b.names|),
          ConcatGrid(a.costs, b.costs, rows, cols, |a.names|, |b.names|),
          ConcatGrid(a.fuel, b.fuel, rows, cols, |a.names|, |b.names|))
  }

  /** The inputs `optimize_plot` reads: its arguments, the class attributes
      (engine catalogue, tanks, fuel table) and the exponential
      `(dv, isp) -> exp(dv / (isp * g))`.  `dvs` and `pls` are the Δv and
      payload axes. */
  datatype Config = Config(
    catalogue: seq<Engine>,
    dvs: seq<real>,
    pls: seq<real>,
    maxQuant: nat,
    condition: string,
    twrReq: real,
    fuels: Table,
    tanks: Tanks,
    rocketExp: (real, real) -> real)

  /** Holds for `FuelsKSP2` and `Fuels` alike (`Fuels.DensitiesPositive`). */
  predicate PositiveDensities(fuels: Table)
  {
    forall f :: f in fuels ==> fuels[f].density > 0.0
  }

  datatype EmptyFraction = PerVariant(values: seq<real>) | Uniform(value: real)

  /** `get_best_empty_fraction`: solid boosters carry their own structure,
      so variant `k` uses the `empty_ratio` of the engine it is built from;
      other families use the tanks' `percent_structure`. */
  function BestEmptyFraction(catalogue: seq<Engine>, family: Family, maxQuant: nat, tanks: Tanks): (r: EmptyFraction)
    ensures family == SolidFuel ==>
      var solids := FilterFamily(catalogue, SolidFuel);
      r.PerVariant? && |r.values| == |solids| * maxQuant
      && forall k :: 0 <= k < |r.values| ==> r.values[k] == solids[k % |solids|].emptyRatio
    ensures family != SolidFuel ==> r == Uniform(tanks.percentStructure(family))
  {
    if family == SolidFuel then
      var solids := FilterFamily(catalogue, SolidFuel);
      PerVariant(Tile(seq(|solids|, i requires 0 <= i < |solids| => solids[i].emptyRatio), maxQuant))
    else Uniform(tanks.percentStructure(family))
  }

  function FractionAt(fr: EmptyFraction, k: nat): real
    requires fr.PerVariant? ==> k < |fr.values|
  {
    match fr
    case PerVariant(values) => values[k]
    case Uniform(value) => value
  }

  /** The arrays of one family have one entry per variant. */
  predicate Consistent(p: PhysicsArrays, fr: EmptyFraction)
  {
    var v := |p.counts|;
    |p.isp| == v && |p.thrust| == v && |p.engMass| == v && |p.engCost| == v
    && |p.names| == v && |p.builtInFuel| == v
    && (fr.PerVariant? ==> |fr.values| == v)
  }

  /** Cell `[i][j][k]` of one family (lines 74-100). */
  function FamilyCell(cfg: Config, family: Family, p: PhysicsArrays, fr: EmptyFraction,
                      density: real, fuelCost: real, i: nat, j: nat, k: nat): (c: Cell)
    requires Consistent(p, fr) && density > 0.0
    requires i < |cfg.dvs| && j < |cfg.pls| && k < |p.counts|
    ensures c.mtot == PosInf <==> c.cost == PosInf
    ensures c.mtot != PosInf ==> c.fuelUnits != PosInf
  {
    EvaluateCell(cfg.pls[j], cfg.dvs[i], p.isp[k], p.thrust[k], p.engMass[k], p.engCost[k],
                 p.builtInFuel[k], FractionAt(fr, k), family, density, fuelCost,
                 cfg.tanks, cfg.rocketExp, cfg.twrReq)
  }

  /** The block one family contributes to the sweep; the mass and cost of a
      cell are masked together. */
  function FamilySweep(cfg: Config, family: Family, p: PhysicsArrays, fr: EmptyFraction,
                       density: real, fuelCost: real): (s: Sweep)
    requires Consistent(p, fr) && density > 0.0
    ensures WellShaped(s, |cfg.dvs|, |cfg.pls|) && s.names == p.names && s.counts == p.counts
    ensures forall i, j, k :: 0 <= i < |cfg.dvs| && 0 <= j < |cfg.pls| && 0 <= k < |p.counts| ==>
      (s.mtot[i][j][k] == PosInf <==> s.costs[i][j][k] == PosInf)
    ensures forall i, j, k :: 0 <= i < |cfg.dvs| && 0 <= j < |cfg.pls| && 0 <= k < |p.counts| ==>
      var c := FamilyCell(cfg, family, p, fr, density, fuelCost, i, j, k);
      s.mtot[i][j][k] == c.mtot && s.costs[i][j][k] == c.cost && s.fuel[i][j][k] == c.fuelUnits
  {
    var rows, cols, v := |cfg.dvs|, |cfg.pls|, |p.counts|;
    Sweep(p.names, p.counts,
      seq(rows, i requires 0 <= i < rows => seq(cols, j requires 0 <= j < cols =>
        seq(v, k requires 0 <= k < v => FamilyCell(cfg, family, p, fr, density, fuelCost, i, j, k).mtot))),
      seq(rows, i requires 0 <= i < rows => seq(cols, j requires 0 <= j < cols =>
        seq(v, k requires 0 <= k < v => FamilyCell(cfg, family, p, fr, density, fuelCost, i, j, k).cost))),
      seq(rows, i requires 0 <= i < rows => seq(cols, j requires 0 <= j < cols =>
        seq(v, k requires 0 <= k < v => FamilyCell(cfg, family, p, fr, density, fuelCost, i, j, k).fuelUnits))))
  }

  /** The sizing of cell `[i][j][k]` before masking (lines 74-86), or
      nothing where the denominator of line 76 vanishes. */
  function CellSizing(cfg: Config, family: Family, p: PhysicsArrays, fr: EmptyFraction,
                      density: real, fuelCost: real, i: nat, j: nat, k: nat): (r: Option<Sizing>)
    requires Consistent(p, fr) && density > 0.0
    requires i < |cfg.dvs| && j < |cfg.pls| && k < |p.counts|
    ensures r.None? <==> FractionAt(fr, k) * cfg.rocketExp(cfg.dvs[i], p.isp[k]) == 1.0
    // the tank mass solves the rocket equation for payload plus engines
    ensures r.Some? ==>
      var fixed, e := cfg.pls[j] + p.engMass[k], cfg.rocketExp(cfg.dvs[i], p.isp[k]);
      r.value.mtot == fixed + r.value.m100 && r.value.ms + r.value.mf == r.value.m100
      && fixed + r.value.m100 == e * (fixed + FractionAt(fr, k) * r.value.m100)
  {
    var e := cfg.rocketExp(cfg.dvs[i], p.isp[k]);
    var f := FractionAt(fr, k);
    if f * e == 1.0 then None
    else Some(Size(cfg.pls[j], p.engMass[k], p.engCost[k], f, e, family, density, fuelCost, cfg.tanks))
  }

  /** The values lines 84-86 write before any mask. */
  function Unmasked(s: Option<Sizing>): (c: Cell)
    ensures s.None? <==> c.fuelUnits == PosInf
    ensures s.None? ==> c.mtot == PosInf && c.cost == PosInf
    ensures s.Some? ==>
      c.mtot == Finite(s.value.mtot) && c.cost == Finite(s.value.cost) && c.fuelUnits == Finite(s.value.fuelUnits)
  {
    match s
    case None => Cell(PosInf, PosInf, PosInf)
    case Some(z) => Cell(Finite(z.mtot), Finite(z.cost), Finite(z.fuelUnits))
  }

  /** The mask of lines 92-93. */
  predicate TankEmpty(s: Option<Sizing>)
    ensures s.None? ==> !TankEmpty(s)
  {
    s.Some? && s.value.m100 <= 0.0
  }

  /** The mask of lines 95-96. */
  predicate TooLittleThrust(s: Option<Sizing>, thrust: real, twrReq: real)
    ensures s.None? ==> !TooLittleThrust(s, thrust, twrReq)
    ensures TooLittleThrust(s, thrust, twrReq) ==> s.value.mtot != 0.0
  {
    s.Some? && ThrustTooLow(thrust, s.value.mtot, twrReq)
  }

  /** The mask of lines 99-100. */
  predicate OverFuelCap(s: Option<Sizing>, builtInFuel: real)
    ensures s.None? ==> !OverFuelCap(s, builtInFuel)
    ensures OverFuelCap(s, builtInFuel) ==> builtInFuel < s.value.fuelUnits
  {
    s.Some? && builtInFuel < s.value.fuelUnits
  }

  /** Overwriting a cell's mass and cost with +inf under the three masks in
      turn gives the masked cell. */
  lemma MaskedCell(cfg: Config, family: Family, p: PhysicsArrays, fr: EmptyFraction,
                   density: real, fuelCost: real, i: nat, j: nat, k: nat)
    requires Consistent(p, fr) && density > 0.0
    requires i < |cfg.dvs| && j < |cfg.pls| && k < |p.counts|
    ensures var s := CellSizing(cfg, family, p, fr, density, fuelCost, i, j, k);
      var masked := TankEmpty(s) || TooLittleThrust(s, p.thrust[k], cfg.twrReq)
                    || (family == SolidFuel && OverFuelCap(s, p.builtInFuel[k]));
      var c := FamilyCell(cfg, family, p, fr, density, fuelCost, i, j, k);
      c.mtot == (if masked then PosInf else Unmasked(s).mtot)
      && c.cost == (if masked then PosInf else Unmasked(s).cost)
      && c.fuelUnits == Unmasked(s).fuelUnits
  {
    var e := cfg.rocketExp(cfg.dvs[i], p.isp[k]);
    var f := FractionAt(fr, k);
    var s := CellSizing(cfg, family, p, fr, density, fuelCost, i, j, k);
    var c := FamilyCell(cfg, family, p, fr, density, fuelCost, i, j, k);
    if f * e == 1.0 {
      assert s == None && c == Cell(PosInf, PosInf, PosInf);
    } else {
      var z := Size(cfg.pls[j], p.engMass[k], p.engCost[k], f, e, family, density, fuelCost, cfg.tanks);
      assert s == Some(z);
      assert TankEmpty(s) || TooLittleThrust(s, p.thrust[k], cfg.twrReq)
             || (family == SolidFuel && OverFuelCap(s, p.builtInFuel[k]))
         <==> Infeasible(z, p.thrust[k], cfg.twrReq, family, p.builtInFuel[k]);
    }
  }

  /** The rows of a three-dimensional array. */
  function GridOf(a: array3<XReal>): (g: Grid)
    reads a
    ensures Shaped(g, a.Length0, a.Length1, a.Length2)
    ensures forall i, j, k :: 0 <= i < a.Length0 && 0 <= j < a.Length1 && 0 <= k < a.Length2 ==>
      g[i][j][k] == a[i, j, k]
  {
    seq(a.Length0, i requires 0 <= i < a.Length0 reads a =>
      seq(a.Length1, j requires 0 <= j < a.Length1 reads a =>
        seq(a.Length2, k requires 0 <= k < a.Length2 reads a => a[i, j, k])))
  }

  /** Grids of one shape that agree in every cell are equal. */
  lemma GridExtensional(g: Grid, h: Grid, rows: nat, cols: nat, depth: nat)
    requires Shaped(g, rows, cols, depth) && Shaped(h, rows, cols, depth)
    requires forall i, j, k :: 0 <= i < rows && 0 <= j < cols && 0 <= k < depth ==> g[i][j][k] == h[i][j][k]
    ensures g == h
  {
    forall i | 0 <= i < rows ensures g[i] == h[i] {
      forall j | 0 <= j < cols ensures g[i][j] == h[i][j] {
        assert forall k :: 0 <= k < depth ==> g[i][j][k] == h[i][j][k];
      }
    }
  }

  /** The total mass (`cost` false) or the cost (`cost` true) of a cell. */
  function Quantity(c: Cell, cost: bool): XReal
  {
    if cost then c.cost else c.mtot
  }

  /** Lines 74-100 for the total-mass array (`cost` false) or the cost array
      of one family: the unmasked values are written, then each mask
      overwrites the cells it selects with +inf, in place. */
  method MaskedGrid(cfg: Config, family: Family, p: PhysicsArrays, fr: EmptyFraction,
                    density: real, fuelCost: real, cost: bool) returns (g: Grid)
    requires Consistent(p, fr) && density > 0.0
    ensures Shaped(g, |cfg.dvs|, |cfg.pls|, |p.counts|)
    ensures forall i, j, k :: 0 <= i < |cfg.dvs| && 0 <= j < |cfg.pls| && 0 <= k < |p.counts| ==>
      g[i][j][k] == Quantity(FamilyCell(cfg, family, p, fr, density, fuelCost, i, j, k), cost)
  {
    var rows, cols, v := |cfg.dvs|, |cfg.pls|, |p.counts|;
    var a := new XReal[rows, cols, v];
    forall i, j, k | 0 <= i < rows && 0 <= j < cols && 0 <= k < v {
      a[i, j, k] := Quantity(Unmasked(CellSizing(cfg, family, p, fr, density, fuelCost, i, j, k)), cost);
    }
    forall i, j, k | 0 <= i < rows && 0 <= j < cols && 0 <= k < v
      && TankEmpty(CellSizing(cfg, family, p, fr, density, fuelCost, i, j, k)) {
      a[i, j, k] := PosInf;
    }
    forall i, j, k | 0 <= i < rows && 0 <= j < cols && 0 <= k < v
      && TooLittleThrust(CellSizing(cfg, family, p, fr, density, fuelCost, i, j, k), p.thrust[k], cfg.twrReq) {
      a[i, j, k] := PosInf;
    }
    if family == SolidFuel {
      forall i, j, k | 0 <= i < rows && 0 <= j < cols && 0 <= k < v
        && OverFuelCap(CellSizing(cfg, family, p, fr, density, fuelCost, i, j, k), p.builtInFuel[k]) {
        a[i, j, k] := PosInf;
      }
    }
    forall i, j, k | 0 <= i < rows && 0 <= j < cols && 0 <= k < v
      ensures a[i, j, k] == Quantity(FamilyCell(cfg, family, p, fr, density, fuelCost, i, j, k), cost)
    {
      MaskedCell(cfg, family, p, fr, density, fuelCost, i, j, k);
    }
    g := GridOf(a);
  }

  /** Lines 74-104 for one family: the masked mass and cost arrays, the
      unmasked fuel units, and the family's labels. */
  method MaskFamily(cfg: Config, family: Family, p: PhysicsArrays, fr: EmptyFraction,
                    density: real, fuelCost: real) returns (block: Sweep)
    requires Consistent(p, fr) && density > 0.0
    ensures block == FamilySweep(cfg, family, p, fr, density, fuelCost)
  {
    var rows, cols, v := |cfg.dvs|, |cfg.pls|, |p.counts|;
    var mtot := MaskedGrid(cfg, family, p, fr, density, fuelCost, false);
    var costs := MaskedGrid(cfg, family, p, fr, density, fuelCost, true);
    var fuel := new XReal[rows, cols, v];
    forall i, j, k | 0 <= i < rows && 0 <= j < cols && 0 <= k < v {
      fuel[i, j, k] := FamilyCell(cfg, family, p, fr, density, fuelCost, i, j, k).fuelUnits;
    }
    var expected := FamilySweep(cfg, family, p, fr, density, fuelCost);
    GridExtensional(mtot, expected.mtot, rows, cols, v);
    GridExtensional(costs, expected.costs, rows, cols, v);
    GridExtensional(GridOf(fuel), expected.fuel, rows, cols, v);
    block := Sweep(p.names, p.counts, mtot, costs, GridOf(fuel));
  }

  predicate IsValidCondition(condition: string)
  {
    condition == "asl" || condition == "vac"
  }

  /** One iteration of the family loop (lines 54-104), or the exception it
      raises: a family without engines, a bad flight condition, or a family
      the fuel table lacks. */
  function FamilyResult(cfg: Config, family: Family): (r: Result<Sweep>)
    requires PositiveDensities(cfg.fuels)
    ensures |FilterFamily(cfg.catalogue, family)| == 0 ==> r == Err("TypeError")
    ensures |FilterFamily(cfg.catalogue, family)| > 0 && !IsValidCondition(cfg.condition) ==>
      r == Err("NotImplementedError")
    ensures |FilterFamily(cfg.catalogue, family)| > 0 && IsValidCondition(cfg.condition) ==>
      (r.Err? <==> family !in cfg.fuels)
    ensures (|FilterFamily(cfg.catalogue, family)| > 0 && IsValidCondition(cfg.condition)
             && family !in cfg.fuels) ==> r == Err("AttributeError")
    ensures r.Ok? ==> (WellShaped(r.value, |cfg.dvs|, |cfg.pls|)
      && |r.value.names| == |FilterFamily(cfg.catalogue, family)| * cfg.maxQuant)
  {
    if |FilterFamily(cfg.catalogue, family)| == 0 then Err("TypeError")
    else if !IsValidCondition(cfg.condition) then Err("NotImplementedError")
    else
      var p := PhysicsOf(cfg.catalogue, family, cfg.maxQuant, cfg.condition == "asl");
      var fr := BestEmptyFraction(cfg.catalogue, family, cfg.maxQuant, cfg.tanks);
      ParseName(family);
      match GetFuelData(cfg.fuels, Name(family), "Density")
      case Err(e) => Err(e)
      case Ok(density) =>
        match GetFuelData(cfg.fuels, Name(family), "Cost")
        case Err(e) => Err(e)
        case Ok(fuelCost) => Ok(FamilySweep(cfg, family, p, fr, density, fuelCost))
  }

  /** The accumulators after the loop has visited `families` in order, or
      the first exception. */
  function SweepOf(cfg: Config, families: seq<Family>): (r: Result<Sweep>)
    requires PositiveDensities(cfg.fuels)
    ensures r.Ok? ==> WellShaped(r.value, |cfg.dvs|, |cfg.pls|)
    decreases |families|
  {
    var rows, cols := |cfg.dvs|, |cfg.pls|;
    if families == [] then
      Ok(Sweep([], [], EmptyGrid(rows, cols), EmptyGrid(rows, cols), EmptyGrid(rows, cols)))
    else
      match SweepOf(cfg, families[..|families| - 1])
      case Err(e) => Err(e)
      case Ok(acc) => Extend(acc, FamilyResult(cfg, families[|families| - 1]), rows, cols)
  }

  /** The accumulators after one more family, or its exception. */
  function Extend(acc: Sweep, block: Result<Sweep>, rows: nat, cols: nat): (r: Result<Sweep>)
    requires WellShaped(acc, rows, cols) && (block.Ok? ==> WellShaped(block.value, rows, cols))
    ensures r.Ok? ==> WellShaped(r.value, rows, cols)
    ensures block.Err? ==> r == Err(block.error)
    ensures block.Ok? ==> r == Ok(ConcatSweep(acc, block.value, rows, cols))
  {
    match block
    case Err(e) => Err(e)
    case Ok(b) => Ok(ConcatSweep(acc, b, rows, cols))
  }

  /** Once a family has raised, later families change nothing. */
  lemma {:induction false} SweepErrorPersists(cfg: Config, families: seq<Family>, n: nat)
    requires PositiveDensities(cfg.fuels) && n <= |families|
    requires SweepOf(cfg, families[..n]).Err?
    ensures SweepOf(cfg, families) == SweepOf(cfg, families[..n])
    decreases |families| - n
  {
    if n < |families| {
      var longer := families[..n + 1];
      assert longer[..n] == families[..n];
      SweepErrorPersists(cfg, families, n + 1);
    } else {
      assert families[..n] == families;
    }
  }

  /** The family order of line 53: the fuel types of the catalogue's
      engines, each once. */
  predicate FamilyOrder(catalogue: seq<Engine>, families: seq<Family>)
  {
    (forall i, j :: 0 <= i < j < |families| ==> families[i] != families[j])
    && (forall f :: f in families <==> exists e :: e in catalogue && e.fuelType == f)
  }

  /** Every family of the catalogue has at least one engine. */
  lemma CatalogueFamiliesHaveEngines(catalogue: seq<Engine>, families: seq<Family>)
    requires FamilyOrder(catalogue, families)
    ensures forall f :: f in families ==> |FilterFamily(catalogue, f)| > 0
  {
    forall f | f in families ensures |FilterFamily(catalogue, f)| > 0 {
      var e :| e in catalogue && e.fuelType == f;
      assert e in FilterFamily(catalogue, f);
    }
  }

  /** When every family has engines, the loop raises only for a bad flight
      condition or a family the fuel table lacks, and it completes exactly
      when the condition is valid and every family is in the table. */
  lemma {:induction false} SweepErrors(cfg: Config, families: seq<Family>)
    requires PositiveDensities(cfg.fuels)
    requires forall f :: f in families ==> |FilterFamily(cfg.catalogue, f)| > 0
    ensures SweepOf(cfg, families).Err? ==>
      SweepOf(cfg, families).error == if IsValidCondition(cfg.condition) then "AttributeError" else "NotImplementedError"
    ensures IsValidCondition(cfg.condition) ==>
      (SweepOf(cfg, families).Ok? <==> forall f :: f in families ==> f in cfg.fuels)
    decreases |families|
  {
    if families != [] {
      var prefix, last := families[..|families| - 1], families[|families| - 1];
      assert families == prefix + [last];
      assert forall f :: f in families <==> f in prefix || f == last;
      SweepErrors(cfg, prefix);
    }
  }

  /** Every family is processed with the same flight condition, so a bad
      one raises as soon as there is a family with engines, and an empty
      family set raises nothing. */
  lemma {:induction false} SweepConditionCheck(cfg: Config, families: seq<Family>)
    requires PositiveDensities(cfg.fuels) && !IsValidCondition(cfg.condition)
    requires forall f :: f in families ==> |FilterFamily(cfg.catalogue, f)| > 0
    ensures families == [] ==> SweepOf(cfg, families).Ok?
    ensures families != [] ==> SweepOf(cfg, families) == Err("NotImplementedError")
    decreases |families|
  {
    if |families| > 1 {
      var prefix := families[..|families| - 1];
      assert forall f :: f in prefix ==> f in families;
      SweepConditionCheck(cfg, prefix);
    }
  }

  /** The first `i + 1` elements are the first `i` and then element `i`. */
  lemma SliceSnoc<T>(s: seq<T>, i: nat)
    requires i < |s|
    ensures s[..i + 1] == s[..i] + [s[i]]
  {
  }

  /** One more family extends the accumulators by its block, or raises. */
  lemma SweepSnoc(cfg: Config, front: seq<Family>, last: Family, acc: Sweep)
    requires PositiveDensities(cfg.fuels) && SweepOf(cfg, front) == Ok(acc)
    ensures SweepOf(cfg, front + [last]) == Extend(acc, FamilyResult(cfg, last), |cfg.dvs|, |cfg.pls|)
  {
    var all := front + [last];
    assert all[..|all| - 1] == front && all[|all| - 1] == last;
  }

  /** The block of a family whose condition and fuel lookups succeed. */
  lemma FamilyResultOk(cfg: Config, family: Family, density: real, fuelCost: real)
    requires PositiveDensities(cfg.fuels) && IsValidCondition(cfg.condition) && density > 0.0
    requires |FilterFamily(cfg.catalogue, family)| > 0
    requires GetFuelData(cfg.fuels, Name(family), "Density") == Ok(density)
    requires GetFuelData(cfg.fuels, Name(family), "Cost") == Ok(fuelCost)
    ensures FamilyResult(cfg, family) == Ok(FamilySweep(cfg, family,
      PhysicsOf(cfg.catalogue, family, cfg.maxQuant, cfg.condition == "asl"),
      BestEmptyFraction(cfg.catalogue, family, cfg.maxQuant, cfg.tanks), density, fuelCost))
  {
  }

  /** The block of a family that raises nothing is its masked sweep, sized
      with the table's density and price. */
  lemma {:induction false} FamilyBlock(cfg: Config, family: Family)
    requires PositiveDensities(cfg.fuels) && FamilyResult(cfg, family).Ok?
    ensures family in cfg.fuels
    ensures FamilyResult(cfg, family).value == FamilySweep(cfg, family,
      PhysicsOf(cfg.catalogue, family, cfg.maxQuant, cfg.condition == "asl"),
      BestEmptyFraction(cfg.catalogue, family, cfg.maxQuant, cfg.tanks),
      cfg.fuels[family].density, cfg.fuels[family].cost)
  {
    LookupOfKnownFamily(cfg.fuels, family, "Density");
    LookupOfKnownFamily(cfg.fuels, family, "Cost");
    FamilyResultOk(cfg, family, cfg.fuels[family].density, cfg.fuels[family].cost);
  }

  /** Variant `k` of the accumulators `s` is variant `k2` of `family`: the
      same label and count, and in every cell the masked sizing of lines
      74-100 with the table's density and price. */
  predicate FromFamily(cfg: Config, s: Sweep, k: nat, family: Family, k2: nat)
    requires PositiveDensities(cfg.fuels) && WellShaped(s, |cfg.dvs|, |cfg.pls|)
  {
    var p := PhysicsOf(cfg.catalogue, family, cfg.maxQuant, cfg.condition == "asl");
    var fr := BestEmptyFraction(cfg.catalogue, family, cfg.maxQuant, cfg.tanks);
    family in cfg.fuels && k < |s.names| && k2 < |p.counts|
    && s.names[k] == p.names[k2] && s.counts[k] == p.counts[k2]
    && forall i, j :: 0 <= i < |cfg.dvs| && 0 <= j < |cfg.pls| ==>
         var c := FamilyCell(cfg, family, p, fr, cfg.fuels[family].density, cfg.fuels[family].cost, i, j, k2);
         s.mtot[i][j][k] == c.mtot && s.costs[i][j][k] == c.cost && s.fuel[i][j][k] == c.fuelUnits
  }

  /** Variant `k` of grid `g` and variant `k2` of grid `h` agree in every
      cell. */
  predicate SameCells(g: Grid, k: nat, h: Grid, k2: nat, rows: nat, cols: nat, dg: nat, dh: nat)
    requires Shaped(g, rows, cols, dg) && Shaped(h, rows, cols, dh) && k < dg && k2 < dh
  {
    forall i, j :: 0 <= i < rows && 0 <= j < cols ==> g[i][j][k] == h[i][j][k2]
  }

  /** Variant `k` of `s` and variant `k2` of `b` carry the same label, the
      same count and the same cells. */
  predicate SameVariant(s: Sweep, k: nat, b: Sweep, k2: nat, rows: nat, cols: nat)
    requires WellShaped(s, rows, cols) && WellShaped(b, rows, cols)
  {
    var ds, db := |s.names|, |b.names|;
    k < ds && k2 < db && s.names[k] == b.names[k2] && s.counts[k] == b.counts[k2]
    && SameCells(s.mtot, k, b.mtot, k2, rows, cols, ds, db)
    && SameCells(s.costs, k, b.costs, k2, rows, cols, ds, db)
    && SameCells(s.fuel, k, b.fuel, k2, rows, cols, ds, db)
  }

  /** Appending a block leaves the earlier variants as they were. */
  lemma {:induction false} SameVariantKept(a: Sweep, b: Sweep, s: Sweep, k: nat, c: Sweep, k2: nat, rows: nat, cols: nat)
    requires WellShaped(a, rows, cols) && WellShaped(b, rows, cols) && WellShaped(c, rows, cols)
    requires s == ConcatSweep(a, b, rows, cols) && SameVariant(a, k, c, k2, rows, cols)
    ensures SameVariant(s, k, c, k2, rows, cols)
  {
    var da, db, dc := |a.names|, |b.names|, |c.names|;
    GridKept(a.mtot, b.mtot, c.mtot, rows, cols, da, db, dc, k, k2);
    GridKept(a.costs, b.costs, c.costs, rows, cols, da, db, dc, k, k2);
    GridKept(a.fuel, b.fuel, c.fuel, rows, cols, da, db, dc, k, k2);
  }

  /** Concatenation keeps the cells of the first grid's variants. */
  lemma {:induction false} GridKept(a: Grid, b: Grid, c: Grid, rows: nat, cols: nat, da: nat, db: nat, dc: nat, k: nat, k2: nat)
    requires Shaped(a, rows, cols, da) && Shaped(b, rows, cols, db) && Shaped(c, rows, cols, dc)
    requires k < da && k2 < dc && SameCells(a, k, c, k2, rows, cols, da, dc)
    ensures SameCells(ConcatGrid(a, b, rows, cols, da, db), k, c, k2, rows, cols, da + db, dc)
  {
  }

  /** Appending a block moves its variant `k2` to `|a.names| + k2`. */
  lemma {:induction false} SameVariantAppended(a: Sweep, b: Sweep, k2: nat, rows: nat, cols: nat)
    requires WellShaped(a, rows, cols) && WellShaped(b, rows, cols) && k2 < |b.names|
    ensures SameVariant(ConcatSweep(a, b, rows, cols), |a.names| + k2, b, k2, rows, cols)
  {
    var da, db := |a.names|, |b.names|;
    AppendedAt(a.names, b.names, k2);
    AppendedAt(a.counts, b.counts, k2);
    GridAppended(a.mtot, b.mtot, rows, cols, da, db, k2);
    GridAppended(a.costs, b.costs, rows, cols, da, db, k2);
    GridAppended(a.fuel, b.fuel, rows, cols, da, db, k2);
  }

  /** Element `k2` of `y` is element `|x| + k2` of `x + y`. */
  lemma AppendedAt<T>(x: seq<T>, y: seq<T>, k2: nat)
    requires k2 < |y|
    ensures (x + y)[|x| + k2] == y[k2]
  {
  }

  /** Variant `k2` of `b` is variant `da + k2` of the concatenated grid. */
  lemma {:induction false} GridAppended(a: Grid, b: Grid, rows: nat, cols: nat, da: nat, db: nat, k2: nat)
    requires Shaped(a, rows, cols, da) && Shaped(b, rows, cols, db) && k2 < db
    ensures SameCells(ConcatGrid(a, b, rows, cols, da, db), da + k2, b, k2, rows, cols, da + db, db)
  {
    var g := ConcatGrid(a, b, rows, cols, da, db);
    forall i, j | 0 <= i < rows && 0 <= j < cols ensures g[i][j][da + k2] == b[i][j][k2] {
    }
  }

  /** A variant equal to a family's variant is that family's variant. */
  lemma {:induction false} FromFamilyVia(cfg: Config, s: Sweep, k: nat, b: Sweep, k2: nat, family: Family)
    requires PositiveDensities(cfg.fuels)
    requires WellShaped(s, |cfg.dvs|, |cfg.pls|) && WellShaped(b, |cfg.dvs|, |cfg.pls|)
    requires SameVariant(s, k, b, k2, |cfg.dvs|, |cfg.pls|) && FromFamily(cfg, b, k2, family, k2)
    ensures FromFamily(cfg, s, k, family, k2)
  {
  }

  /** Each variant of a family's block is that family's variant. */
  lemma {:induction false} FromFamilyBlock(cfg: Config, family: Family, k2: nat)
    requires PositiveDensities(cfg.fuels) && FamilyResult(cfg, family).Ok?
    requires k2 < |FamilyResult(cfg, family).value.names|
    ensures FromFamily(cfg, FamilyResult(cfg, family).value, k2, family, k2)
  {
    FamilyBlock(cfg, family);
  }

  /** A completed sweep with a label in it visited a last family, whose
      block follows the accumulators of the families before it. */
  lemma {:induction false} SweepLast(cfg: Config, families: seq<Family>, s: Sweep) returns (acc: Sweep, block: Sweep)
    requires PositiveDensities(cfg.fuels) && SweepOf(cfg, families) == Ok(s) && |s.names| > 0
    ensures families != [] && SweepOf(cfg, families[..|families| - 1]) == Ok(acc)
    ensures FamilyResult(cfg, families[|families| - 1]) == Ok(block)
    ensures s == ConcatSweep(acc, block, |cfg.dvs|, |cfg.pls|)
  {
    acc := SweepOf(cfg, families[..|families| - 1]).value;
    block := FamilyResult(cfg, families[|families| - 1]).value;
  }

  /** Variant `k` of a completed sweep is variant `k2` of the block `b` of
      one visited family. */
  lemma {:induction false} SweepBlockOf(cfg: Config, families: seq<Family>, s: Sweep, k: nat)
    returns (t: nat, b: Sweep, k2: nat)
    requires PositiveDensities(cfg.fuels) && SweepOf(cfg, families) == Ok(s) && k < |s.names|
    ensures t < |families| && FamilyResult(cfg, families[t]) == Ok(b)
    ensures SameVariant(s, k, b, k2, |cfg.dvs|, |cfg.pls|)
    decreases |families|, 1
  {
    var acc, block := SweepLast(cfg, families, s);
    if k < |acc.names| {
      t, b, k2 := EarlierBlockOf(cfg, families, s, k, acc, block);
    } else {
      t, b := |families| - 1, block;
      k2 := AppendedVariant(acc, block, s, k, |cfg.dvs|, |cfg.pls|);
    }
  }

  /** A variant the last block added is one of that block's variants. */
  lemma {:induction false} AppendedVariant(a: Sweep, b: Sweep, s: Sweep, k: nat, rows: nat, cols: nat)
    returns (k2: nat)
    requires WellShaped(a, rows, cols) && WellShaped(b, rows, cols)
    requires s == ConcatSweep(a, b, rows, cols) && |a.names| <= k < |s.names|
    ensures SameVariant(s, k, b, k2, rows, cols)
  {
    k2 := k - |a.names|;
    assert k == |a.names| + k2;
    SameVariantAppended(a, b, k2, rows, cols);
  }

  /** A variant the last family did not add comes from an earlier one. */
  lemma {:induction false} EarlierBlockOf(cfg: Config, families: seq<Family>, s: Sweep, k: nat, acc: Sweep, block: Sweep)
    returns (t: nat, b: Sweep, k2: nat)
    requires PositiveDensities(cfg.fuels) && families != []
    requires SweepOf(cfg, families[..|families| - 1]) == Ok(acc) && WellShaped(block, |cfg.dvs|, |cfg.pls|)
    requires s == ConcatSweep(acc, block, |cfg.dvs|, |cfg.pls|) && k < |acc.names|
    ensures t < |families| && FamilyResult(cfg, families[t]) == Ok(b)
    ensures SameVariant(s, k, b, k2, |cfg.dvs|, |cfg.pls|)
    decreases |families|, 0
  {
    var prefix := families[..|families| - 1];
    t, b, k2 := SweepBlockOf(cfg, prefix, acc, k);
    assert families[t] == prefix[t];
    SameVariantKept(acc, block, s, k, b, k2, |cfg.dvs|, |cfg.pls|);
  }

  /** Label `k`, count `k` and slice `k` of every array of a completed
      sweep describe one variant of one visited family: the accumulators
      of lines 89-90 and 102-104 stay aligned. */
  lemma {:induction false} SweepProvenance(cfg: Config, families: seq<Family>, s: Sweep, k: nat) returns (t: nat, k2: nat)
    requires PositiveDensities(cfg.fuels) && SweepOf(cfg, families) == Ok(s) && k < |s.names|
    ensures t < |families| && FromFamily(cfg, s, k, families[t], k2)
  {
    var b;
    t, b, k2 := SweepBlockOf(cfg, families, s, k);
    FromFamilyBlock(cfg, families[t], k2);
    FromFamilyVia(cfg, s, k, b, k2, families[t]);
  }

  /** The loop of lines 53-104 over the fuel families, in the iteration
      order of the family set. */
  method EvaluateFamilies(cfg: Config, families: seq<Family>) returns (r: Result<Sweep>)
    requires PositiveDensities(cfg.fuels)
    ensures r == SweepOf(cfg, families)
  {
    var rows, cols := |cfg.dvs|, |cfg.pls|;
    var allEngines: seq<string> := [];
    var allQuantEngines: seq<nat> := [];
    var allMtot := EmptyGrid(rows, cols);
    var allCosts := EmptyGrid(rows, cols);
    var allMfs := EmptyGrid(rows, cols);
    var idx := 0;
    assert families[..0] == [];
    while idx < |families|
      invariant idx <= |families|
      invariant SweepOf(cfg, families[..idx]) == Ok(Sweep(allEngines, allQuantEngines, allMtot, allCosts, allMfs))
    {
      var family := families[idx];
      ghost var acc := Sweep(allEngines, allQuantEngines, allMtot, allCosts, allMfs);
      SliceSnoc(families, idx);
      SweepSnoc(cfg, families[..idx], family, acc);
      var phys := SetupPhysicsArrays(cfg.catalogue, family, cfg.maxQuant, cfg.condition);
      if phys.Err? {
        SweepErrorPersists(cfg, families, idx + 1);
        return Err(phys.error);
      }
      var fr := BestEmptyFraction(cfg.catalogue, family, cfg.maxQuant, cfg.tanks);
      ParseName(family);
      var density := GetFuelData(cfg.fuels, Name(family), "Density");
      if density.Err? {
        SweepErrorPersists(cfg, families, idx + 1);
        return Err(density.error);
      }
      var fuelCost := GetFuelData(cfg.fuels, Name(family), "Cost").value;
      var block := MaskFamily(cfg, family, phys.value, fr, density.value, fuelCost);
      FamilyResultOk(cfg, family, density.value, fuelCost);
      var before := |allEngines|;
      allEngines := allEngines + block.names;
      allQuantEngines := allQuantEngines + block.counts;
      allMtot := ConcatGrid(allMtot, block.mtot, rows, cols, before, |block.names|);
      allCosts := ConcatGrid(allCosts, block.costs, rows, cols, before, |block.names|);
      allMfs := ConcatGrid(allMfs, block.fuel, rows, cols, before, |block.names|);
      assert Sweep(allEngines, allQuantEngines, allMtot, allCosts, allMfs) == ConcatSweep(acc, block, rows, cols);
      idx := idx + 1;
    }
    assert families[..idx] == families;
    return Ok(Sweep(allEngines, allQuantEngines, allMtot, allCosts, allMfs));
  }

  /** `np.argmin`: the first position of a least element. */
  function ArgMin(s: seq<XReal>): (k: nat)
    requires |s| > 0
    ensures k < |s|
    ensures forall j :: 0 <= j < |s| ==> Le(s[k], s[j])
    ensures forall j :: 0 <= j < k ==> Lt(s[k], s[j])
    decreases |s|
  {
    if |s| == 1 then 0
    else
      var m := ArgMin(s[..|s| - 1]);
      if Lt(s[|s| - 1], s[m]) then
        assert forall j :: 0 <= j < |s| - 1 ==> Lt(s[|s| - 1], s[j]) by {
          forall j | 0 <= j < |s| - 1 ensures Lt(s[|s| - 1], s[j]) {
            assert s[..|s| - 1][j] == s[j];
            if Le(s[j], s[|s| - 1]) {
              LeTransitive(s[m], s[j], s[|s| - 1]);
            }
          }
        }
        |s| - 1
      else
        assert forall j :: 0 <= j < |s| - 1 ==> s[..|s| - 1][j] == s[j];
        m
  }

  /** The index of one grid cell with the "no feasible variant" sentinel:
      the first least variant, or -1 when every variant is masked.  Lines
      107, 110 and 113 compute it for the total mass; it is also what the
      cost index of line 114 is evidently meant to be. */
  function IndexWithSentinel(cell: seq<XReal>): (r: int)
    requires |cell| > 0
    ensures r == -1 <==> forall k :: 0 <= k < |cell| ==> cell[k] == PosInf
    ensures r != -1 ==> 0 <= r < |cell| && r == ArgMin(cell)
  {
    var k := ArgMin(cell);
    if cell[k] == PosInf then -1 else k
  }

  /** Whether an index, read as a float, equals +inf: the test of line 114. */
  predicate IndexIsInf(k: int)
    ensures !IndexIsInf(k)
  {
    Finite(k as real) == PosInf
  }

  /** The cost index of one grid cell (lines 108, 111, 114).  Line 114
      compares the index array, not the minimum, with inf, so the sentinel
      is never written. */
  function CostIndex(cell: seq<XReal>): (r: int)
    requires |cell| > 0
    ensures r == ArgMin(cell)
  {
    var k := ArgMin(cell);
    if IndexIsInf(k) then -1 else k
  }

  /** As written, a cell where every variant is masked reports mass index
      -1 but cost index 0, a feasible-looking engine. */
  lemma AllMaskedCell(cell: seq<XReal>)
    requires |cell| > 0 && forall k :: 0 <= k < |cell| ==> cell[k] == PosInf
    ensures IndexWithSentinel(cell) == -1
    ensures CostIndex(cell) == 0
  {
    assert Le(cell[ArgMin(cell)], cell[0]);
  }

  /** The cost index as written and the intended one part exactly at the
      cells where no variant is feasible. */
  lemma CostSentinelDiscrepancy(cell: seq<XReal>)
    requires |cell| > 0
    ensures CostIndex(cell) != IndexWithSentinel(cell) <==> forall k :: 0 <= k < |cell| ==> cell[k] == PosInf
    ensures CostIndex([PosInf]) == 0 && IndexWithSentinel([PosInf]) == -1
  {
    assert Le([PosInf][ArgMin([PosInf])], [PosInf][0]);
  }

  /** The index chosen for each cell of the plot: the mass index for
      'mass', the cost index for anything else. */
  predicate PlotChoice(ix: seq<seq<int>>, mtot: Grid, costs: Grid, rows: nat, cols: nat, depth: nat, minType: string)
    requires Shaped(mtot, rows, cols, depth) && Shaped(costs, rows, cols, depth) && depth > 0
  {
    |ix| == rows
    && forall i :: 0 <= i < rows ==>
         |ix[i]| == cols
         && forall j :: 0 <= j < cols ==>
              ix[i][j] == if minType == "mass" then IndexWithSentinel(mtot[i][j]) else CostIndex(costs[i][j])
  }

  /** Lines 106-119 without the drawing: the per-cell minima and argmins,
      with the sentinels written in place.  A reduction over an empty
      variant axis raises, whatever the size of the grid. */
  method PlotIndices(mtot: Grid, costs: Grid, rows: nat, cols: nat, depth: nat, minType: string)
    returns (r: Result<seq<seq<int>>>)
    requires Shaped(mtot, rows, cols, depth) && Shaped(costs, rows, cols, depth)
    ensures r.Err? <==> depth == 0
    ensures r.Err? ==> r.error == "ValueError"
    ensures r.Ok? ==> PlotChoice(r.value, mtot, costs, rows, cols, depth, minType)
  {
    if depth == 0 {
      return Err("ValueError");
    }
    var minMtotIdx := new int[rows, cols];
    var minCostsIdx := new int[rows, cols];
    forall i, j | 0 <= i < rows && 0 <= j < cols {
      minMtotIdx[i, j] := ArgMin(mtot[i][j]);
    }
    forall i, j | 0 <= i < rows && 0 <= j < cols {
      minCostsIdx[i, j] := CostIndex(costs[i][j]);
    }
    forall i, j | 0 <= i < rows && 0 <= j < cols && mtot[i][j][ArgMin(mtot[i][j])] == PosInf {
      minMtotIdx[i, j] := -1;
    }
    var chosen := if minType == "mass" then minMtotIdx else minCostsIdx;
    var ix := seq(rows, i requires 0 <= i < rows reads chosen =>
      seq(cols, j requires 0 <= j < cols reads chosen => chosen[i, j]));
    return Ok(ix);
  }

  /** `LinearStage.__init__`: a `RocketStage` of type 'Linear'. */
  function NewLinearStage(mass: XReal, engine: string, numEngines: nat, cost: XReal, dv: real, fuel: XReal): (s: Stage)
    ensures s.stageType == "Linear"
    ensures s.mass == mass && s.engine == engine && s.numEngines == numEngines
    ensures s.cost == cost && s.dv == dv && s.fuel == fuel
  {
    Stage(mass, engine, numEngines, cost, "Linear", dv, fuel)
  }

  /** The stage built for variant `k` of a single-cell sweep (lines 130-131). */
  function StageOf(s: Sweep, k: nat, dv: real): (st: Stage)
    requires WellShaped(s, 1, 1) && k < |s.names|
    ensures st.mass == s.mtot[0][0][k] && st.cost == s.costs[0][0][k] && st.fuel == s.fuel[0][0][k]
    ensures st.engine == s.names[k] && st.numEngines == s.counts[k] && st.dv == dv
    ensures st.stageType == "Linear"
  {
    NewLinearStage(s.mtot[0][0][k], s.names[k], s.counts[k], s.costs[0][0][k], dv, s.fuel[0][0][k])
  }

  function StagesAt(s: Sweep, idx: seq<nat>, dv: real): (r: seq<Stage>)
    requires WellShaped(s, 1, 1) && ValidIndices(idx, |s.names|)
    ensures |r| == |idx| && forall t :: 0 <= t < |idx| ==> r[t] == StageOf(s, idx[t], dv)
  {
    seq(|idx|, t requires 0 <= t < |idx| => StageOf(s, idx[t], dv))
  }

  /** Line 125: row `k` is variant `k`'s (cost, total mass). */
  function CostMassPoints(s: Sweep): (X: seq<seq<XReal>>)
    requires WellShaped(s, 1, 1)
    ensures |X| == |s.names| && Rectangular(X, 2)
    ensures forall k :: 0 <= k < |X| ==> X[k] == [s.costs[0][0][k], s.mtot[0][0][k]]
  {
    seq(|s.names|, k requires 0 <= k < |s.names| => [s.costs[0][0][k], s.mtot[0][0][k]])
  }

  const BothMinimised: seq<Direction> := [Minimise, Minimise]

  /** What lines 122-132 return for a single-cell sweep. */
  ghost predicate PointSelection(s: Sweep, dv: real, minType: string, r: Result<seq<Stage>>)
    requires WellShaped(s, 1, 1)
  {
    if minType == "mass" then
      if |s.names| == 0 then r == Err("ValueError")
      else
        var k := ArgMin(s.mtot[0][0]);
        r == Ok([StageOf(s, k, dv)])
    else if minType == "cost" then
      r.Ok? && exists idx :: ParetoResult(Normalize(CostMassPoints(s), BothMinimised), idx)
                           && r.value == StagesAt(s, idx, dv)
    else r == Err("NotImplementedError")
  }

  /** Lines 122-132: one stage at the lightest variant, or the stages at
      the (cost, mass) Pareto indices, or an exception. */
  method SelectPoint(s: Sweep, dv: real, minType: string) returns (r: Result<seq<Stage>>)
    requires WellShaped(s, 1, 1)
    ensures PointSelection(s, dv, minType, r)
  {
    var idx: seq<nat>;
    if minType == "mass" {
      if |s.names| == 0 {
        return Err("ValueError");
      }
      idx := [ArgMin(s.mtot[0][0])];
    } else if minType == "cost" {
      idx := ParetoFront(CostMassPoints(s), BothMinimised);
    } else {
      return Err("NotImplementedError");
    }
    var stages := new Stage[|idx|];
    for t := 0 to |idx|
      invariant forall u :: 0 <= u < t ==> stages[u] == StageOf(s, idx[u], dv)
    {
      stages[t] := StageOf(s, idx[t], dv);
    }
    r := Ok(stages[..]);
    assert r.value == StagesAt(s, idx, dv);
    if minType == "cost" {
      assert ParetoResult(Normalize(CostMassPoints(s), BothMinimised), idx);
    } else {
      assert r.value == [StageOf(s, idx[0], dv)];
    }
  }

  /** In 'mass' mode the one stage returned is at least as light as every
      variant; it may be a masked (+inf) one when nothing is feasible. */
  lemma MassSelectionIsLightest(s: Sweep, dv: real, r: Result<seq<Stage>>)
    requires WellShaped(s, 1, 1) && PointSelection(s, dv, "mass", r) && |s.names| > 0
    ensures r.Ok? && |r.value| == 1
    ensures forall k :: 0 <= k < |s.names| ==> Le(r.value[0].mass, s.mtot[0][0][k])
    ensures r.value[0].mass == PosInf <==> forall k :: 0 <= k < |s.names| ==> s.mtot[0][0][k] == PosInf
  {
    var k := ArgMin(s.mtot[0][0]);
    if r.value[0].mass == PosInf {
      forall j | 0 <= j < |s.names| ensures s.mtot[0][0][j] == PosInf {
        assert Le(s.mtot[0][0][k], s.mtot[0][0][j]);
      }
    }
  }

  /** Variant `b` is kept in 'cost' mode when every variant at least as
      cheap and at least as light has the same cost and mass and a later
      index. */
  predicate CostMassOptimal(s: Sweep, b: nat)
    requires WellShaped(s, 1, 1) && b < |s.names|
  {
    forall a :: (0 <= a < |s.names| && a != b
      && Le(s.costs[0][0][a], s.costs[0][0][b]) && Le(s.mtot[0][0][a], s.mtot[0][0][b])) ==>
        s.costs[0][0][a] == s.costs[0][0][b] && s.mtot[0][0][a] == s.mtot[0][0][b] && b < a
  }

  /** The 'cost' selection keeps exactly the cost/mass-optimal variants. */
  lemma CostSelectionMeaning(s: Sweep, idx: seq<nat>)
    requires WellShaped(s, 1, 1)
    requires ParetoResult(Normalize(CostMassPoints(s), BothMinimised), idx)
    ensures forall b: nat :: b in idx <==> b < |s.names| && CostMassOptimal(s, b)
  {
    var X := CostMassPoints(s);
    var N := Normalize(X, BothMinimised);
    ParetoFacts.FrontierCharacterisation(N, 2, idx);
    forall b: nat | b < |s.names|
      ensures OnFrontier(N, b) <==> CostMassOptimal(s, b)
    {
      forall a | 0 <= a < |s.names|
        ensures WeaklyBelow(N[b], N[a]) <==> Le(X[a][0], X[b][0]) && Le(X[a][1], X[b][1])
        ensures N[a] == N[b] <==> X[a] == X[b]
      {
        ParetoFacts.MinimiseBoth(X, a, b);
        NegateRowsInjective(X, N, a, b);
      }
    }
  }

  /** Two rows are equal after normalisation exactly when they were equal. */
  lemma NegateRowsInjective(X: seq<seq<XReal>>, N: seq<seq<XReal>>, a: nat, b: nat)
    requires Rectangular(X, 2) && N == Normalize(X, BothMinimised) && a < |X| && b < |X|
    ensures N[a] == N[b] <==> X[a] == X[b]
  {
    NegReverses(X[a][0], X[b][0]);
    NegReverses(X[a][1], X[b][1]);
    NegReverses(X[b][0], X[a][0]);
    NegReverses(X[b][1], X[a][1]);
    if N[a] == N[b] {
      assert Neg(X[a][0]) == N[a][0] == N[b][0] == Neg(X[b][0]);
      assert Neg(X[a][1]) == N[a][1] == N[b][1] == Neg(X[b][1]);
      assert X[a] == [X[a][0], X[a][1]] && X[b] == [X[b][0], X[b][1]];
    }
  }

  datatype Outcome = Plotted(indices: seq<seq<int>>) | Selected(stages: seq<Stage>)

  /** `optimize_plot` with the Δv and payload axes given: plot mode
      returns the index grid it would draw; otherwise a single-point
      sweep selects stages and a larger one raises. */
  method OptimizePlot(cfg: Config, families: seq<Family>, span: nat, plot: bool, minType: string)
    returns (r: Result<Outcome>)
    requires PositiveDensities(cfg.fuels) && |cfg.dvs| == span && |cfg.pls| == span
    requires FamilyOrder(cfg.catalogue, families)
    ensures SweepOf(cfg, families).Err? ==> r == Err(SweepOf(cfg, families).error)
    ensures SweepOf(cfg, families).Err? ==>
      SweepOf(cfg, families).error == if IsValidCondition(cfg.condition) then "AttributeError" else "NotImplementedError"
    ensures SweepOf(cfg, families).Ok? ==>
      var s := SweepOf(cfg, families).value;
      if plot then
        (r.Err? <==> |s.names| == 0)
        && (r.Err? ==> r.error == "ValueError")
        && (r.Ok? ==> (r.value.Plotted?
              && PlotChoice(r.value.indices, s.mtot, s.costs, span, span, |s.names|, minType)))
      else if span == 1 then
        (r.Ok? ==> r.value.Selected?)
        && PointSelection(s, cfg.dvs[0], minType, if r.Ok? then Ok(r.value.stages) else Err(r.error))
      else r == Err("NotImplementedError")
  {
    CatalogueFamiliesHaveEngines(cfg.catalogue, families);
    SweepErrors(cfg, families);
    var sweep := EvaluateFamilies(cfg, families);
    if sweep.Err? {
      return Err(sweep.error);
    }
    var s := sweep.value;
    if plot {
      var ix := PlotIndices(s.mtot, s.costs, span, span, |s.names|, minType);
      if ix.Err? {
        return Err(ix.error);
      }
      return Ok(Plotted(ix.value));
    } else if span == 1 {
      var stages := SelectPoint(s, cfg.dvs[0], minType);
      if stages.Err? {
        return Err(stages.error);
      }
      return Ok(Selected(stages.value));
    } else {
      return Err("NotImplementedError");
    }
  }

  /** `optimize_point`: `optimize_plot` on the single cell (pl, dv), not
      plotting. */
  method OptimizePoint(cfg: Config, families: seq<Family>, pl: real, dv: real, minType: string)
    returns (r: Result<seq<Stage>>)
    requires PositiveDensities(cfg.fuels) && FamilyOrder(cfg.catalogue, families)
    ensures var point := cfg.(dvs := [dv], pls := [pl]);
      SweepOf(point, families).Err? ==> r == Err(SweepOf(point, families).error)
    ensures var point := cfg.(dvs := [dv], pls := [pl]);
      SweepOf(point, families).Ok? ==> PointSelection(SweepOf(point, families).value, dv, minType, r)
  {
    var point := cfg.(dvs := [dv], pls := [pl]);
    var outcome := OptimizePlot(point, families, 1, false, minType);
    if outcome.Err? {
      return Err(outcome.error);
    }
    return Ok(outcome.value.stages);
  }
}
