/** The fuel constant tables of Fuels.py: cost (Funds per unit) and density
    (tons per unit) of each fuel family, for the base game (`Fuels`) and for
    the second game (`FuelsKSP2`, a subclass overriding every entry). */
module Fuels {
  import opened Results

  datatype Family = LF | OX | SolidFuel | Xenon | LFOX | Hydrogen
  datatype Param = Cost | Density

  /** One class-level dictionary `{'Cost': .., 'Density': ..}`. */
  datatype Entry = Entry(cost: real, density: real)

  /** The class attributes that hold a fuel dictionary. */
  type Table = map<Family, Entry>

  /** The attribute name under which a family's dictionary is stored. */
  function Name(f: Family): string
  {
    match f
    case LF => "LF"
    case OX => "OX"
    case SolidFuel => "SolidFuel"
    case Xenon => "Xenon"
    case LFOX => "LFOX"
    case Hydrogen => "Hydrogen"
  }

  /** Reads an attribute name back as a family; other names are no family. */
  function ParseFamily(s: string): (r: Option<Family>)
    ensures r.Some? ==> Name(r.value) == s
  {
    if s == "LF" then Some(LF)
    else if s == "OX" then Some(OX)
    else if s == "SolidFuel" then Some(SolidFuel)
    else if s == "Xenon" then Some(Xenon)
    else if s == "LFOX" then Some(LFOX)
    else if s == "Hydrogen" then Some(Hydrogen)
    else None
  }

  /** Every family's name parses back to it, so names are distinct. */
  lemma ParseName(f: Family)
    ensures ParseFamily(Name(f)) == Some(f)
  {
  }

  function ParseParam(s: string): (r: Option<Param>)
    ensures r == Some(Cost) <==> s == "Cost"
    ensures r == Some(Density) <==> s == "Density"
    ensures r == None <==> s != "Cost" && s != "Density"
  {
    if s == "Cost" then Some(Cost)
    else if s == "Density" then Some(Density)
    else None
  }

  function Field(e: Entry, p: Param): real
  {
    match p
    case Cost => e.cost
    case Density => e.density
  }

  const LFEntry := Entry(0.8, 5.0 / 1000.0)

  /** The tables of class `Fuels`; `Hydrogen` is not among its attributes. */
  const BaseTable: Table := map[
    LF := LFEntry,
    OX := Entry(0.18, 5.0 / 1000.0),
    SolidFuel := Entry(0.6, 7.5 / 1000.0),
    Xenon := Entry(4.0, 0.1 / 1000.0),
    LFOX := Entry((0.9 * LFEntry.cost + 1.1 * LFEntry.cost) / 2.0,
                  (0.9 * LFEntry.density + 1.1 * LFEntry.density) / 2.0)
  ]

  const KSP2Entry := Entry(0.0, 1.0)

  /** Class `FuelsKSP2`: attribute lookup finds the subclass's own entries
      first and falls back to the base class for the rest. */
  const KSP2Table: Table := BaseTable + map[
    LF := KSP2Entry,
    OX := KSP2Entry,
    SolidFuel := KSP2Entry,
    Xenon := KSP2Entry,
    LFOX := KSP2Entry,
    Hydrogen := KSP2Entry
  ]

  /** `get_fuel_data`: `getattr(cls, fuel_str)[param_str]`.  An attribute
      that is not a fuel dictionary, or a key other than 'Cost' and
      'Density', raises. */
  function GetFuelData(table: Table, fuelStr: string, paramStr: string): (r: Result<real>)
    ensures r.Ok? <==>
      ParseFamily(fuelStr).Some? && ParseFamily(fuelStr).value in table && ParseParam(paramStr).Some?
    ensures r.Ok? ==>
      r.value == Field(table[ParseFamily(fuelStr).value], ParseParam(paramStr).value)
    ensures r.Err? ==>
      r.error == (if ParseFamily(fuelStr).Some? && ParseFamily(fuelStr).value in table then "KeyError" else "AttributeError")
  {
    match ParseFamily(fuelStr)
    case None => Err("AttributeError")
    case Some(f) =>
      if f !in table then Err("AttributeError")
      else match ParseParam(paramStr)
        case None => Err("KeyError")
        case Some(p) => Ok(Field(table[f], p))
  }

  /** The base constants, read through the string interface. */
  lemma BaseTableValues()
    ensures GetFuelData(BaseTable, "LF", "Cost") == Ok(0.8)
    ensures GetFuelData(BaseTable, "LF", "Density") == Ok(0.005)
    ensures GetFuelData(BaseTable, "OX", "Cost") == Ok(0.18)
    ensures GetFuelData(BaseTable, "OX", "Density") == Ok(0.005)
    ensures GetFuelData(BaseTable, "SolidFuel", "Cost") == Ok(0.6)
    ensures GetFuelData(BaseTable, "SolidFuel", "Density") == Ok(0.0075)
    ensures GetFuelData(BaseTable, "Xenon", "Cost") == Ok(4.0)
    ensures GetFuelData(BaseTable, "Xenon", "Density") == Ok(0.0001)
  {
  }

  /** The LFOX average of 0.9 and 1.1 times LF's values is LF's values. */
  lemma LfoxEqualsLf()
    ensures BaseTable[LFOX] == BaseTable[LF]
    ensures GetFuelData(BaseTable, "LFOX", "Cost") == Ok(0.8)
    ensures GetFuelData(BaseTable, "LFOX", "Density") == Ok(0.005)
  {
  }

  /** Every density is positive, so dividing a fuel mass by it is defined. */
  lemma DensitiesPositive()
    ensures forall f :: f in BaseTable ==> BaseTable[f].density > 0.0
    ensures forall f :: f in KSP2Table ==> KSP2Table[f].density > 0.0
  {
  }

  /** `FuelsKSP2` overrides every family of `Fuels` with cost 0 and density
      1 and adds `Hydrogen`, which the base class lacks. */
  lemma KSP2OverridesAll()
    ensures KSP2Table.Keys == BaseTable.Keys + {Hydrogen}
    ensures Hydrogen !in BaseTable
    ensures forall f :: f in KSP2Table ==> KSP2Table[f] == Entry(0.0, 1.0)
  {
  }

  /** Looking up 'Hydrogen' fails through `Fuels` and succeeds through
      `FuelsKSP2`; an unknown parameter fails in both. */
  lemma HydrogenOnlyInKSP2(paramStr: string)
    ensures GetFuelData(BaseTable, "Hydrogen", paramStr) == Err("AttributeError")
    ensures GetFuelData(KSP2Table, "Hydrogen", "Cost") == Ok(0.0)
    ensures GetFuelData(KSP2Table, "Hydrogen", "Density") == Ok(1.0)
    ensures GetFuelData(KSP2Table, "Hydrogen", "Mass").Err?
  {
  }

  /** A lookup of a family the table holds succeeds exactly for the two
      parameter names and returns that entry's field. */
  lemma LookupOfKnownFamily(table: Table, f: Family, paramStr: string)
    requires f in table
    ensures GetFuelData(table, Name(f), paramStr).Ok? <==> paramStr == "Cost" || paramStr == "Density"
    ensures paramStr == "Cost" ==> GetFuelData(table, Name(f), paramStr) == Ok(table[f].cost)
    ensures paramStr == "Density" ==> GetFuelData(table, Name(f), paramStr) == Ok(table[f].density)
  {
    ParseName(f);
  }
}
