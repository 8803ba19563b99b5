/** The closed-form sizing of one linear stage for one grid cell and one
    engine variant (Stages/LinearStage.py:59-100).  The tank mass `m100`
    (structure plus fuel) follows from the rocket equation
    `dv = isp * g * ln(m0 / m1)` with
    `m0 = P + m100`, `m1 = P + f * m100`, `P` the payload plus engine mass
    and `f` the empty fraction.  The exponential `exp(dv / (isp * g))` is
    the value `E` here; the program's floats are reals. */
module StageMass {
  import opened ExtReal
  import opened Fuels

  /** `RocketStage.g` and the literal of the thrust-to-weight ratio. */
  const G: real := 9.8

  /** The tank data of `FuelTank`, whose code is not part of this model:
      `percent_structure` of a family and `best_cost_per_ton_structure` of
      a fuel amount and a family. */
  datatype Tanks = Tanks(
    percentStructure: Family -> real,
    costPerTonStructure: (real, Family) -> real)

  /** The unmasked values of one cell (lines 76-86). */
  datatype Sizing = Sizing(m100: real, ms: real, mf: real, fuelUnits: real, cost: real, mtot: real)

  /** The masked values that enter the sweep arrays. */
  datatype Cell = Cell(mtot: XReal, cost: XReal, fuelUnits: XReal)

  /** Line 76: the tank mass is the one value whose product with the
      denominator `f * E - 1` is the numerator `P * (1 - E)`. */
  function M100(payload: real, f: real, e: real): (m: real)
    requires f * e != 1.0
    ensures m * (f * e - 1.0) == payload * (1.0 - e)
  {
    payload * (1.0 - e) / (f * e - 1.0)
  }

  /** Lines 76-86 for total fixed mass `pl + eng_mass`. */
  function Size(pl: real, engMass: real, engCost: real, f: real, e: real,
                family: Family, density: real, fuelCost: real, tanks: Tanks): (s: Sizing)
    requires f * e != 1.0 && density > 0.0
    ensures s.ms == s.m100 * f
    ensures s.ms + s.mf == s.m100
    ensures s.mtot == pl + engMass + s.ms + s.mf
    ensures s.fuelUnits * density == s.mf
    // structure at the tanks' price per ton, the engines, and fuel mass (not units) at the fuel price
    ensures s.cost == s.ms * tanks.costPerTonStructure(s.fuelUnits, family) + engCost + s.mf * fuelCost
    // the rocket equation the sizing solves: m0 = E * m1
    ensures pl + engMass + s.m100 == e * (pl + engMass + f * s.m100)
  {
    var m100 := M100(pl + engMass, f, e);
    var ms := m100 * f;
    var mf := m100 - ms;
    var fuelUnits := mf / density;
    var cost := ms * tanks.costPerTonStructure(fuelUnits, family) + engCost + mf * fuelCost;
    RocketEquationHolds(pl + engMass, f, e);
    Sizing(m100, ms, mf, fuelUnits, cost, m100 + pl + engMass)
  }

  /** `m1` and `m0` times the denominator of line 76. */
  lemma MassesTimesDenominator(payload: real, f: real, e: real, m: real)
    requires m * (f * e - 1.0) == payload * (1.0 - e)
    ensures (payload + f * m) * (f * e - 1.0) == payload * (f - 1.0)
    ensures (payload + m) * (f * e - 1.0) == e * (payload * (f - 1.0))
  {
    var d := f * e - 1.0;
    assert (payload + f * m) * d == payload * d + f * (m * d);
    assert (payload + m) * d == payload * d + m * d;
  }

  lemma RocketEquationHolds(payload: real, f: real, e: real)
    requires f * e != 1.0
    ensures payload + M100(payload, f, e) == e * (payload + f * M100(payload, f, e))
  {
    var d := f * e - 1.0;
    var m := M100(payload, f, e);
    MassesTimesDenominator(payload, f, e, m);
    CancelFactor(payload + m, e * (payload + f * m), d);
  }

  /** A non-zero factor cancels. */
  lemma CancelFactor(a: real, b: real, d: real)
    requires d != 0.0 && a * d == b * d
    ensures a == b
  {
    assert (a - b) * d == 0.0;
  }

  /** The rocket-equation round trip: with a non-zero fixed mass and an
      empty fraction other than 1, the mass ratio `m0 / m1` of the sized
      stage is `E`, so `isp * g * ln(m0 / m1)` gives back the requested Δv. */
  lemma RocketEquationRoundTrip(payload: real, f: real, e: real)
    requires payload != 0.0 && f != 1.0 && f * e != 1.0
    ensures payload + f * M100(payload, f, e) != 0.0
    ensures (payload + M100(payload, f, e)) / (payload + f * M100(payload, f, e)) == e
  {
    MassRatio(payload, f, e, M100(payload, f, e));
  }

  /** The mass ratio of any tank mass that solves line 76's equation. */
  lemma MassRatio(payload: real, f: real, e: real, m: real)
    requires payload != 0.0 && f != 1.0 && f * e != 1.0
    requires m * (f * e - 1.0) == payload * (1.0 - e)
    ensures payload + f * m != 0.0 && (payload + m) / (payload + f * m) == e
  {
    var d := f * e - 1.0;
    MassesTimesDenominator(payload, f, e, m);
    NonZeroProduct(payload, f - 1.0);
    NonZeroFactor(payload + f * m, d, payload * (f - 1.0));
    CancelFactor(payload + m, e * (payload + f * m), d);
    DivideProduct(payload + m, payload + f * m, e);
  }

  /** A factor of a non-zero product is non-zero. */
  lemma NonZeroFactor(x: real, y: real, p: real)
    requires x * y == p && p != 0.0
    ensures x != 0.0
  {
  }

  lemma NonZeroProduct(x: real, y: real)
    requires x != 0.0 && y != 0.0
    ensures x * y != 0.0
  {
  }

  lemma DivideProduct(a: real, b: real, e: real)
    requires b != 0.0 && a == e * b
    ensures a / b == e
  {
  }

  /** For a positive fixed mass and a Δv that needs fuel (`E > 1`), the
      stage closes (`m100 > 0`) exactly when `f * E < 1`. */
  lemma TankMassPositiveIff(payload: real, f: real, e: real)
    requires payload > 0.0 && e > 1.0 && f * e != 1.0
    ensures M100(payload, f, e) > 0.0 <==> f * e < 1.0
  {
    var m, d, n := M100(payload, f, e), f * e - 1.0, payload * (1.0 - e);
    assert m * d == n;
    NegativeProduct(payload, 1.0 - e);
    assert n < 0.0;
    SignOfProduct(m, d);
  }

  lemma NegativeProduct(x: real, y: real)
    requires x > 0.0 && y < 0.0
    ensures x * y < 0.0
  {
  }

  /** A negative product has factors of opposite signs. */
  lemma SignOfProduct(x: real, y: real)
    requires x * y < 0.0
    ensures x > 0.0 <==> y < 0.0
  {
  }

  /** A closed stage with an empty fraction in [0, 1] carries a non-negative
      structure mass and propellant mass. */
  lemma MassesNonNegative(s: Sizing, f: real)
    requires s.ms == s.m100 * f && s.ms + s.mf == s.m100
    requires s.m100 > 0.0 && 0.0 <= f <= 1.0
    ensures s.ms >= 0.0 && s.mf >= 0.0
  {
    assert s.mf == s.m100 * (1.0 - f);
  }

  /** `T / (m_tot * 9.8) < TWR_req` on the unmasked total mass (line 87).  A
      zero total mass divides by zero in the program; the cell is then
      already masked by `m100 <= 0` (see `ZeroTotalMassIsMasked`), so the
      model lets that comparison be false. */
  predicate ThrustTooLow(thrust: real, mtot: real, twrReq: real)
    ensures mtot == 0.0 ==> !ThrustTooLow(thrust, mtot, twrReq)
    // for a positive mass the test is a comparison of thrust with the required weight
    ensures mtot > 0.0 ==> (ThrustTooLow(thrust, mtot, twrReq) <==> thrust < twrReq * (mtot * G))
  {
    mtot != 0.0 && thrust / (mtot * G) < twrReq
  }

  /** The masks of lines 92-100; the fuel cap applies to solid boosters only. */
  predicate Infeasible(s: Sizing, thrust: real, twrReq: real, family: Family, builtInFuel: real)
    // a feasible cell has a positive tank and enough thrust
    ensures !Infeasible(s, thrust, twrReq, family, builtInFuel) ==>
      s.m100 > 0.0 && !ThrustTooLow(thrust, s.mtot, twrReq)
    // a solid booster asked for more fuel than it holds is always masked
    ensures family == SolidFuel && builtInFuel < s.fuelUnits ==> Infeasible(s, thrust, twrReq, family, builtInFuel)
  {
    s.m100 <= 0.0
    || ThrustTooLow(thrust, s.mtot, twrReq)
    || (family == SolidFuel && builtInFuel < s.fuelUnits)
  }

  lemma ZeroTotalMassIsMasked(s: Sizing, pl: real, engMass: real)
    requires s.mtot == pl + engMass + s.ms + s.mf && s.ms + s.mf == s.m100
    requires pl + engMass >= 0.0 && s.mtot == 0.0
    ensures s.m100 <= 0.0
  {
  }

  /** One cell after masking.  A singular denominator `f * E == 1` would
      give an infinite or undefined float; the model marks such a cell
      infeasible. */
  function EvaluateCell(pl: real, dv: real, isp: real, thrust: real, engMass: real, engCost: real,
                        builtInFuel: real, f: real, family: Family, density: real, fuelCost: real,
                        tanks: Tanks, rocketExp: (real, real) -> real, twrReq: real): (c: Cell)
    requires density > 0.0
    ensures var e := rocketExp(dv, isp);
      f * e == 1.0 ==> c == Cell(PosInf, PosInf, PosInf)
    ensures var e := rocketExp(dv, isp);
      f * e != 1.0 ==>
        var s := Size(pl, engMass, engCost, f, e, family, density, fuelCost, tanks);
        c.fuelUnits == Finite(s.fuelUnits)
        && (c.mtot == PosInf <==> Infeasible(s, thrust, twrReq, family, builtInFuel))
        && (c.cost == PosInf <==> Infeasible(s, thrust, twrReq, family, builtInFuel))
        && (!Infeasible(s, thrust, twrReq, family, builtInFuel) ==>
              c.mtot == Finite(s.mtot) && c.cost == Finite(s.cost))
  {
    var e := rocketExp(dv, isp);
    if f * e == 1.0 then Cell(PosInf, PosInf, PosInf)
    else
      var s := Size(pl, engMass, engCost, f, e, family, density, fuelCost, tanks);
      if Infeasible(s, thrust, twrReq, family, builtInFuel) then Cell(PosInf, PosInf, Finite(s.fuelUnits))
      else Cell(Finite(s.mtot), Finite(s.cost), Finite(s.fuelUnits))
  }

  /** The fuel cap never masks a liquid, xenon or hydrogen stage: only the
      first two masks apply to them. */
  lemma FuelCapOnlyForSolids(s: Sizing, thrust: real, twrReq: real, family: Family, builtInFuel: real)
    requires family != SolidFuel
    ensures Infeasible(s, thrust, twrReq, family, builtInFuel)
        <==> s.m100 <= 0.0 || ThrustTooLow(thrust, s.mtot, twrReq)
  {
  }
}
