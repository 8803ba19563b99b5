/** Stages/RocketStage.py: the stage record and the layout of engine
    variants.  For a fuel family with `n` engines and at most `q` engines of
    one kind per stage there are `n*q` variants; variant `k` is engine
    `k mod n` (numpy `tile`) mounted `k div n + 1` times (`count_rep`),
    except where the radial rule changes the count. */
module RocketStage {
  import opened Results
  import opened ExtReal
  import opened Fuels

  /** The engine attributes the optimiser reads. */
  datatype Engine = Engine(
    name: string,
    mass: real,
    cost: real,
    thrustAsl: real,
    thrustVac: real,
    ispAsl: real,
    ispVac: real,
    fuelType: Family,
    isRadial: bool,
    builtInFuel: real,
    emptyRatio: real)

  /** A `RocketStage` object: the constructor stores its seven arguments as
      they are; the optimiser fills mass, cost and fuel from float arrays
      that may hold +inf. */
  datatype Stage = Stage(
    mass: XReal,
    engine: string,
    numEngines: nat,
    cost: XReal,
    stageType: string,
    dv: real,
    fuel: XReal)

  lemma MulMonotone(c: nat, x: int, y: int)
    ensures x <= y ==> c * x <= c * y
  {
    if x <= y {
      assert c * y - c * x == c * (y - x);
    }
  }

  /** If `q*n <= k < q*n + n` then `k` lies in block `q` at offset `k - q*n`. */
  lemma BlockDivMod(k: int, n: int, q: int)
    requires n > 0 && q * n <= k < q * n + n
    ensures k / n == q && k % n == k - q * n
  {
    var d, m := k / n, k % n;
    assert k == n * d + m && 0 <= m < n;
    var x := d - q;
    assert n * x == n * d - n * q;
    MulMonotone(n, 1, x);
    MulMonotone(n, x, -1);
  }

  /** `count_rep(reps, c)`: `np.repeat(np.arange(1, reps + 1), c)`, each of
      1..reps written `c` times in turn. */
  function CountRep(reps: nat, c: nat): (r: seq<nat>)
    ensures |r| == reps * c
    ensures forall k :: 0 <= k < |r| ==> r[k] == k / c + 1
  {
    if reps == 0 then []
    else
      var prefix := CountRep(reps - 1, c);
      var r := prefix + seq(c, _ => reps);
      assert forall k :: |prefix| <= k < |r| ==> r[k] == k / c + 1 by {
        forall k | |prefix| <= k < |r| {
          BlockDivMod(k, c, reps - 1);
        }
      }
      r
  }

  lemma CountRepExample()
    ensures CountRep(3, 2) == [1, 1, 2, 2, 3, 3]
  {
    assert CountRep(0, 2) == [];
    assert CountRep(1, 2) == [1, 1];
    assert CountRep(2, 2) == [1, 1, 2, 2];
  }

  lemma DivMonotone(i: int, j: int, c: int)
    requires 0 <= i <= j && c > 0
    ensures i / c <= j / c
  {
    var a, b := i / c, j / c;
    assert c * a <= i && j < c * b + c;
    MulMonotone(c, b + 1, a);
    assert c * (b + 1) == c * b + c;
  }

  /** `count_rep` is sorted. */
  lemma CountRepNonDecreasing(reps: nat, c: nat, i: nat, j: nat)
    requires i <= j < |CountRep(reps, c)|
    ensures CountRep(reps, c)[i] <= CountRep(reps, c)[j]
  {
    DivMonotone(i, j, c);
  }

  lemma ConstantOccurrences<T>(s: seq<T>, x: T, v: T)
    requires forall i :: 0 <= i < |s| ==> s[i] == x
    ensures multiset(s)[v] == if v == x then |s| else 0
  {
    if s != [] {
      assert s == [s[0]] + s[1..];
      ConstantOccurrences(s[1..], x, v);
    }
  }

  /** Each of 1..reps occurs exactly `c` times in `count_rep(reps, c)`, and
      nothing else occurs. */
  lemma {:induction false} CountRepOccurrences(reps: nat, c: nat, v: nat)
    ensures multiset(CountRep(reps, c))[v] == if 1 <= v <= reps then c else 0
  {
    if reps > 0 {
      var prefix: seq<nat> := CountRep(reps - 1, c);
      var block: seq<nat> := seq(c, _ => reps);
      CountRepOccurrences(reps - 1, c, v);
      ConstantOccurrences<nat>(block, reps, v);
      var before := multiset(prefix)[v];
      var added := multiset(block)[v];
      assert before == if 1 <= v < reps then c else 0;
      assert added == if v == reps then c else 0;
      assert CountRep(reps, c) == prefix + block;
      assert multiset(CountRep(reps, c))[v] == before + added;
    }
  }

  /** `np.tile(s, reps)`: `s` written `reps` times in a row. */
  function Tile<T>(s: seq<T>, reps: nat): (r: seq<T>)
    ensures |r| == |s| * reps
    ensures forall k :: 0 <= k < |r| ==> r[k] == s[k % |s|]
  {
    if reps == 0 then []
    else
      var prefix := Tile(s, reps - 1);
      var r := prefix + s;
      assert forall k :: |prefix| <= k < |r| ==> r[k] == s[k % |s|] by {
        forall k | |prefix| <= k < |r| {
          BlockDivMod(k, |s|, reps - 1);
        }
      }
      r
  }

  /** Numpy's `is_radial & num_engines` on a boolean and an integer: the
      boolean counts as 0 or 1, so the bitwise and is the low bit of the
      count for a radial engine and 0 otherwise. */
  function RadialAnd(isRadial: bool, count: nat): (r: nat)
    ensures r <= 1
    ensures r == 1 <==> isRadial && count % 2 == 1
  {
    if isRadial then count % 2 else 0
  }

  /** The count after line 57.  Python binds `&` tighter than `==`, so the
      mask is `(is_radial & num_engines) == 1`: every odd count of a radial
      engine becomes 2. */
  function EffectiveCount(isRadial: bool, count: nat): (c: nat)
    ensures !isRadial ==> c == count
    ensures c == count || c == 2
    ensures count > 0 <==> c > 0
  {
    if RadialAnd(isRadial, count) == 1 then 2 else count
  }

  /** The radial rule as written: radial counts 1, 3, 5, ... all become 2,
      even counts and all non-radial counts are kept. */
  lemma RadialRuleAsWritten(count: nat)
    ensures EffectiveCount(true, count) == if count % 2 == 1 then 2 else count
    ensures EffectiveCount(false, count) == count
    ensures EffectiveCount(true, 1) == 2 && EffectiveCount(true, 3) == 2
  {
  }

  /** The rule radial boosters call for, since they are fitted in pairs: a
      single radial engine becomes two and every other count is kept. */
  function IntendedEffectiveCount(isRadial: bool, count: nat): (c: nat)
    ensures c >= count
    ensures c == count <==> !(isRadial && count == 1)
    ensures isRadial && count > 0 ==> c >= 2
  {
    if isRadial && count == 1 then 2 else count
  }

  /** The rule as written and the intended rule part exactly at the odd
      radial counts from 3 on, where the written rule mounts two engines
      instead of the requested number. */
  lemma RadialRuleDiscrepancy(isRadial: bool, count: nat)
    ensures EffectiveCount(isRadial, count) != IntendedEffectiveCount(isRadial, count)
        <==> isRadial && count % 2 == 1 && count >= 3
    ensures EffectiveCount(true, 3) == 2 && IntendedEffectiveCount(true, 3) == 3
  {
  }

  /** The engines of one fuel family, in catalogue order. */
  function FilterFamily(engines: seq<Engine>, family: Family): (r: seq<Engine>)
    ensures forall e :: e in r ==> e in engines && e.fuelType == family
    ensures forall e :: e in engines && e.fuelType == family ==> e in r
    ensures |r| <= |engines|
  {
    if engines == [] then []
    else
      (if engines[0].fuelType == family then [engines[0]] else [])
        + FilterFamily(engines[1..], family)
  }

  /** Filtering distributes over concatenation, so it keeps the relative
      order of the catalogue. */
  lemma {:induction false} FilterAppend(a: seq<Engine>, b: seq<Engine>, family: Family)
    ensures FilterFamily(a + b, family) == FilterFamily(a, family) + FilterFamily(b, family)
  {
    if a != [] {
      assert (a + b)[1..] == a[1..] + b;
      FilterAppend(a[1..], b, family);
    } else {
      assert a + b == b;
    }
  }

  /** The arrays `setup_physics_arrays` returns, one entry per variant; the
      Δv and payload grids it passes through are left out. */
  datatype PhysicsArrays = PhysicsArrays(
    isp: seq<real>,
    thrust: seq<real>,
    engMass: seq<real>,
    engCost: seq<real>,
    names: seq<string>,
    counts: seq<nat>,
    builtInFuel: seq<real>)

  /** Variant `k` of a non-empty engine list: engine `k mod n`, count after
      the radial rule, ISP of the flight condition unscaled, thrust, mass,
      cost and built-in fuel multiplied by the count. */
  predicate VariantAt(p: PhysicsArrays, engines: seq<Engine>, asl: bool, k: nat)
    requires |engines| > 0
    requires k < |p.isp| && k < |p.thrust| && k < |p.engMass| && k < |p.engCost|
    requires k < |p.names| && k < |p.counts| && k < |p.builtInFuel|
  {
    var e := engines[k % |engines|];
    var c := EffectiveCount(e.isRadial, k / |engines| + 1);
    p.counts[k] == c
    && p.names[k] == e.name
    && p.isp[k] == (if asl then e.ispAsl else e.ispVac)
    && p.thrust[k] == (if asl then e.thrustAsl else e.thrustVac) * c as real
    && p.engMass[k] == e.mass * c as real
    && p.engCost[k] == e.cost * c as real
    && p.builtInFuel[k] == e.builtInFuel * c as real
  }

  /** All arrays have one entry per variant and every entry is laid out as
      `VariantAt` says. */
  predicate Layout(p: PhysicsArrays, engines: seq<Engine>, maxQuant: nat, asl: bool)
  {
    var v := |engines| * maxQuant;
    |p.isp| == v && |p.thrust| == v && |p.engMass| == v && |p.engCost| == v
    && |p.names| == v && |p.counts| == v && |p.builtInFuel| == v
    && (|engines| > 0 ==> forall k: nat :: k < v ==> VariantAt(p, engines, asl, k))
  }

  /** Element-wise product of a float array and the count array. */
  function Scale(values: seq<real>, counts: seq<nat>): (r: seq<real>)
    requires |values| == |counts|
    ensures |r| == |values|
    ensures forall k :: 0 <= k < |r| ==> r[k] == values[k] * counts[k] as real
  {
    seq(|values|, k requires 0 <= k < |values| => values[k] * counts[k] as real)
  }

  /** The count array after line 57: `count_rep` with the radial rule
      applied to every variant. */
  predicate EffectiveCounts(counts: seq<nat>, engines: seq<Engine>, maxQuant: nat)
  {
    |counts| == |engines| * maxQuant
    && (|engines| > 0 ==> forall k :: 0 <= k < |counts| ==>
          counts[k] == EffectiveCount(engines[k % |engines|].isRadial, k / |engines| + 1))
  }

  /** The counts `EffectiveCounts` describes, as one sequence. */
  function CountsOf(engines: seq<Engine>, maxQuant: nat): (r: seq<nat>)
    ensures EffectiveCounts(r, engines, maxQuant)
  {
    var n := |engines|;
    if n == 0 then []
    else seq(n * maxQuant, k requires 0 <= k < n * maxQuant => EffectiveCount(engines[k % n].isRadial, k / n + 1))
  }

  /** The count array is determined by the engines and `max_eng_quant`. */
  lemma EffectiveCountsUnique(r: seq<nat>, engines: seq<Engine>, maxQuant: nat)
    requires EffectiveCounts(r, engines, maxQuant)
    ensures r == CountsOf(engines, maxQuant)
  {
  }

  /** Lines 59-86 once the flight condition is known: tile the per-engine
      values and multiply the extensive ones by the counts. */
  function Arrange(engines: seq<Engine>, maxQuant: nat, asl: bool, counts: seq<nat>): (p: PhysicsArrays)
    requires |counts| == |engines| * maxQuant
    ensures |p.isp| == |counts| && |p.thrust| == |counts| && |p.engMass| == |counts|
    ensures |p.engCost| == |counts| && |p.names| == |counts| && |p.builtInFuel| == |counts|
    ensures p.counts == counts
  {
    var n := |engines|;
    var isp := seq(n, i requires 0 <= i < n => if asl then engines[i].ispAsl else engines[i].ispVac);
    var thrust := seq(n, i requires 0 <= i < n => if asl then engines[i].thrustAsl else engines[i].thrustVac);
    PhysicsArrays(
      Tile(isp, maxQuant),
      Scale(Tile(thrust, maxQuant), counts),
      Scale(Tile(seq(n, i requires 0 <= i < n => engines[i].mass), maxQuant), counts),
      Scale(Tile(seq(n, i requires 0 <= i < n => engines[i].cost), maxQuant), counts),
      Tile(seq(n, i requires 0 <= i < n => engines[i].name), maxQuant),
      counts,
      Scale(Tile(seq(n, i requires 0 <= i < n => engines[i].builtInFuel), maxQuant), counts))
  }

  lemma ArrangeAt(engines: seq<Engine>, maxQuant: nat, asl: bool, counts: seq<nat>, k: nat)
    requires EffectiveCounts(counts, engines, maxQuant) && |engines| > 0 && k < |counts|
    ensures VariantAt(Arrange(engines, maxQuant, asl, counts), engines, asl, k)
  {
  }

  /** Arranging correct counts yields the variant layout. */
  lemma ArrangeLayout(engines: seq<Engine>, maxQuant: nat, asl: bool, counts: seq<nat>)
    requires EffectiveCounts(counts, engines, maxQuant)
    ensures Layout(Arrange(engines, maxQuant, asl, counts), engines, maxQuant, asl)
  {
    if |engines| > 0 {
      forall k: nat | k < |counts|
        ensures VariantAt(Arrange(engines, maxQuant, asl, counts), engines, asl, k)
      {
        ArrangeAt(engines, maxQuant, asl, counts, k);
      }
    }
  }

  /** What `setup_physics_arrays` returns for a valid flight condition. */
  function PhysicsOf(catalogue: seq<Engine>, family: Family, maxQuant: nat, asl: bool): (p: PhysicsArrays)
    ensures Layout(p, FilterFamily(catalogue, family), maxQuant, asl)
  {
    var engines := FilterFamily(catalogue, family);
    ArrangeLayout(engines, maxQuant, asl, CountsOf(engines, maxQuant));
    Arrange(engines, maxQuant, asl, CountsOf(engines, maxQuant))
  }

  /** `setup_physics_arrays`: the variant arrays of one fuel family under the
      flight condition 'asl' or 'vac'; any other condition raises.  A family
      without engines raises first: `np.tile` of the empty list is a float
      array, and line 57's bitwise and of floats and integers is a type
      error. */
  method SetupPhysicsArrays(catalogue: seq<Engine>, family: Family, maxQuant: nat, condition: string)
    returns (r: Result<PhysicsArrays>)
    ensures r.Err? <==> |FilterFamily(catalogue, family)| == 0 || (condition != "asl" && condition != "vac")
    ensures |FilterFamily(catalogue, family)| == 0 ==> r == Err("TypeError")
    ensures |FilterFamily(catalogue, family)| > 0 && condition != "asl" && condition != "vac" ==>
      r == Err("NotImplementedError")
    ensures r.Ok? ==> Layout(r.value, FilterFamily(catalogue, family), maxQuant, condition == "asl")
    ensures r.Ok? ==> r.value == PhysicsOf(catalogue, family, maxQuant, condition == "asl")
  {
    var engines := FilterFamily(catalogue, family);
    var n := |engines|;
    var counts := CountRep(maxQuant, n);
    var isRadial := Tile(seq(n, i requires 0 <= i < n => engines[i].isRadial), maxQuant);
    if n == 0 {
      return Err("TypeError");
    }
    var numEngines := new nat[|counts|](k requires 0 <= k < |counts| => counts[k]);
    // Line 57 rewrites the masked counts in place.
    forall k | 0 <= k < numEngines.Length && RadialAnd(isRadial[k], numEngines[k]) == 1 {
      numEngines[k] := 2;
    }
    assert EffectiveCounts(numEngines[..], engines, maxQuant);
    var asl;
    if condition == "asl" {
      asl := true;
    } else if condition == "vac" {
      asl := false;
    } else {
      return Err("NotImplementedError");
    }
    EffectiveCountsUnique(numEngines[..], engines, maxQuant);
    ArrangeLayout(engines, maxQuant, asl, numEngines[..]);
    return Ok(Arrange(engines, maxQuant, asl, numEngines[..]));
  }
}
