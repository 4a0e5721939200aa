/** Bringing resources to a process's pressure and temperature: compression,
    heating, and the free lowering of either down to (but not below) Mars
    ambient. The condensed-phase branches are modelled exactly; the gas-phase
    thermodynamics are supplied by the environment. */
module Conditioning {
  import opened Outcomes
  import opened Folds
  import opened Resources
  import Mars

  /** Efficiency assumed for both liquid and gas compressors. */
  const COMPRESSOR_EFFICIENCY: real := 0.8

  /** Energy spent on a resource, and the resource afterwards. */
  datatype Conditioned = Conditioned(energy: real, resource: ResourceState)

  /** A gas-phase compressor or heater: target value and resource to the energy
      spent and the resource afterwards. */
  type GasModel = (real, ResourceState) -> Result<Conditioned>

  /** What the engine takes from outside its own logic: the resource catalog and
      the gas-phase thermodynamics (exponentials, logarithms, fractional powers). */
  datatype Env = Env(registry: Registry, compressGas: GasModel, heatGas: GasModel)

  /** Pumping a liquid at constant volume: V·ΔP / η. */
  function PumpEnergy(deltaPressure: real, volume: real): real {
    deltaPressure * volume / COMPRESSOR_EFFICIENCY
  }

  /** Sensible heat of a condensed phase: m·ΔT·cp. */
  function SensibleHeat(mass: real, deltaTemperature: real, cp: real): real {
    mass * deltaTemperature * cp
  }

  lemma PumpEnergyNonNegative(deltaPressure: real, volume: real)
    requires deltaPressure >= 0.0 && volume >= 0.0
    ensures PumpEnergy(deltaPressure, volume) >= 0.0
  {
    assert deltaPressure * volume >= 0.0;
  }

  lemma SensibleHeatNonNegative(mass: real, deltaTemperature: real, cp: real)
    requires mass >= 0.0 && deltaTemperature >= 0.0 && cp >= 0.0
    ensures SensibleHeat(mass, deltaTemperature, cp) >= 0.0
  {
    assert mass * deltaTemperature >= 0.0;
  }

  /** Compress: solids are incompressible and cost nothing; a liquid is pumped
      to the target at constant volume; gases go to the gas model. */
  function Compress(env: Env, target: real, r: ResourceState): (c: Result<Conditioned>)
    ensures r.phase == Solid ==> c == Ok(Conditioned(0.0, r))
    ensures r.phase == Liquid ==> (c.Ok? <==> r.pressure.Some? && r.volume.Some?)
    ensures r.phase == Liquid && c.Ok? ==>
              c.value.resource == r.(pressure := Some(target)) &&
              c.value.energy == PumpEnergy(target - r.pressure.value, r.volume.value)
    ensures r.phase in {Gas, Plasma} ==> c == env.compressGas(target, r)
  {
    match r.phase
    case Solid => Ok(Conditioned(0.0, r))
    case Liquid =>
      if r.pressure.None? || r.volume.None? then Err(NoneOperand)
      else Ok(Conditioned(PumpEnergy(target - r.pressure.value, r.volume.value), r.(pressure := Some(target))))
    case _ => env.compressGas(target, r)
  }

  /** Heat: a condensed phase takes m·ΔT·cp and ends at the target; gases go to
      the gas model. The temperature difference is taken first, for every phase. */
  function Heat(env: Env, target: real, r: ResourceState): (c: Result<Conditioned>)
    ensures r.temperature.None? ==> c == Err(NoneOperand)
    ensures r.phase in {Solid, Liquid} && r.temperature.Some? ==> (c.Ok? <==> r.cp.Some?)
    ensures r.phase in {Solid, Liquid} && c.Ok? ==>
              c.value.resource == r.(temperature := Some(target)) &&
              c.value.energy == SensibleHeat(r.mass, target - r.temperature.value, r.cp.value)
    ensures r.phase in {Gas, Plasma} && r.temperature.Some? ==> c == env.heatGas(target, r)
  {
    if r.temperature.None? then Err(NoneOperand)
    else if r.phase == Solid || r.phase == Liquid then
      if r.cp.None? then Err(NoneOperand)
      else Ok(Conditioned(SensibleHeat(r.mass, target - r.temperature.value, r.cp.value),
                          r.(temperature := Some(target))))
    else env.heatGas(target, r)
  }

  /** The pressure half of configureInputs for one resource. */
  function ConditionPressure(env: Env, target: Option<real>, r: ResourceState): Result<Conditioned> {
    if target.None? then Ok(Conditioned(0.0, r))
    else if r.pressure.None? then Err(NoneOperand)
    else if r.pressure.value < target.value then Compress(env, target.value, r)
    else if r.pressure.value > target.value then
      if target.value < Mars.PRESSURE then Err(BelowAmbient)
      else Ok(Conditioned(0.0, r.(pressure := target)))
    else Ok(Conditioned(0.0, r))
  }

  /** The temperature half of configureInputs for one resource. */
  function ConditionTemperature(env: Env, target: Option<real>, r: ResourceState): Result<Conditioned> {
    if target.None? then Ok(Conditioned(0.0, r))
    else if r.temperature.None? then Err(NoneOperand)
    else if r.temperature.value < target.value then Heat(env, target.value, r)
    else if r.temperature.value > target.value then
      if target.value < Mars.TEMPERATURE then Err(BelowAmbient)
      else Ok(Conditioned(0.0, r.(temperature := target)))
    else Ok(Conditioned(0.0, r))
  }

  /** configureInputs for one resource: pressure first, then temperature of the
      resource as the pressure step left it, energies added. */
  function ConfigureOne(env: Env, temperature: Option<real>, pressure: Option<real>, r: ResourceState): (c: Result<Conditioned>)
    // lowering the pressure below Mars ambient is refused
    ensures (pressure.Some? && r.pressure.Some? && r.pressure.value > pressure.value &&
             pressure.value < Mars.PRESSURE) ==> c == Err(BelowAmbient)
    // for a condensed phase the pressure step leaves the temperature alone, so
    // lowering the temperature below Mars ambient is refused as well
    ensures (r.phase in {Solid, Liquid} && temperature.Some? && r.temperature.Some? &&
             r.temperature.value > temperature.value && temperature.value < Mars.TEMPERATURE) ==> c.Err?
    // a condensed resource ends at the targets (a solid's pressure is only ever
    // lowered), and nothing but its pressure and temperature changes
    ensures c.Ok? && r.phase in {Solid, Liquid} ==>
              c.value.resource.(pressure := r.pressure, temperature := r.temperature) == r &&
              (temperature.Some? ==> c.value.resource.temperature == temperature) &&
              (pressure.Some? ==> (r.pressure.Some? &&
                 c.value.resource.pressure ==
                   (if r.phase == Solid && r.pressure.value < pressure.value then r.pressure else pressure)))
  {
    match ConditionPressure(env, pressure, r)
    case Err(e) => Err(e)
    case Ok(a) =>
      match ConditionTemperature(env, temperature, a.resource)
      case Err(e) => Err(e)
      case Ok(b) => Ok(Conditioned(a.energy + b.energy, b.resource))
  }

  /** Conditioning a condensed resource never releases energy: compression and
      heating only ever raise the value, and lowering is free. */
  lemma CondensedConditioningCosts(env: Env, temperature: Option<real>, pressure: Option<real>, r: ResourceState)
    requires r.phase in {Solid, Liquid} && r.mass >= 0.0
    requires r.volume.Some? ==> r.volume.value >= 0.0
    requires r.cp.Some? ==> r.cp.value >= 0.0
    requires ConfigureOne(env, temperature, pressure, r).Ok?
    ensures ConfigureOne(env, temperature, pressure, r).value.energy >= 0.0
  {
    var a := ConditionPressure(env, pressure, r).value;
    if pressure.Some? && r.pressure.value < pressure.value && r.phase == Liquid {
      PumpEnergyNonNegative(pressure.value - r.pressure.value, r.volume.value);
    }
    assert a.energy >= 0.0;
    assert a.resource.phase == r.phase && a.resource.mass == r.mass && a.resource.cp == r.cp;
    if temperature.Some? && a.resource.temperature.value < temperature.value {
      SensibleHeatNonNegative(r.mass, temperature.value - a.resource.temperature.value, r.cp.value);
    }
  }

  /** The conditioned pool and the total energy spent on it. */
  datatype ConfiguredPool = ConfiguredPool(energy: real, pool: Pool)

  /** configureInputs over a whole pool: every resource conditioned, energies summed. */
  function ConfigureEntry(env: Env, temperature: Option<real>, pressure: Option<real>): (string, ResourceState) -> Result<Conditioned> {
    (k: string, r: ResourceState) => ConfigureOne(env, temperature, pressure, r)
  }

  ghost function ConfigureSpec(env: Env, temperature: Option<real>, pressure: Option<real>, pool: Pool): Result<ConfiguredPool> {
    match TraverseSpec(pool, ConfigureEntry(env, temperature, pressure))
    case Err(e) => Err(e)
    case Ok(cs) => Ok(ConfiguredPool(Sum(Energies(cs)), Conditioneds(cs)))
  }

  /** The energy spent on each entry. */
  function Energies(cs: map<string, Conditioned>): (m: map<string, real>)
    ensures m.Keys == cs.Keys && forall k :: k in cs ==> m[k] == cs[k].energy
  {
    map k | k in cs :: cs[k].energy
  }

  /** Each entry's resource after conditioning. */
  function Conditioneds(cs: map<string, Conditioned>): (m: Pool)
    ensures m.Keys == cs.Keys && forall k :: k in cs ==> m[k] == cs[k].resource
  {
    map k | k in cs :: cs[k].resource
  }

  /** configureInputs conditions every resource of the pool and nothing else:
      it succeeds exactly when every resource can be conditioned, and then each
      entry is that resource conditioned on its own. */
  lemma ConfigureSpecEntries(env: Env, temperature: Option<real>, pressure: Option<real>, pool: Pool)
    ensures ConfigureSpec(env, temperature, pressure, pool).Ok? <==>
              forall k :: k in pool ==> ConfigureOne(env, temperature, pressure, pool[k]).Ok?
    ensures ConfigureSpec(env, temperature, pressure, pool).Ok? ==>
              ConfigureSpec(env, temperature, pressure, pool).value.pool.Keys == pool.Keys &&
              forall k :: k in pool ==>
                ConfigureOne(env, temperature, pressure, pool[k]).value.resource ==
                  ConfigureSpec(env, temperature, pressure, pool).value.pool[k]
  {
    var f := ConfigureEntry(env, temperature, pressure);
    if forall k :: k in pool ==> ConfigureOne(env, temperature, pressure, pool[k]).Ok? {
      assert AllOk(pool, f) by {
        forall k | k in pool ensures f(k, pool[k]).Ok? {
          assert f(k, pool[k]) == ConfigureOne(env, temperature, pressure, pool[k]);
        }
      }
      TraverseSpecOk(pool, f);
      var cs := TraverseSpec(pool, f).value;
      forall k | k in pool
        ensures ConfigureOne(env, temperature, pressure, pool[k]).value.resource == Conditioneds(cs)[k]
      {
        assert f(k, pool[k]) == ConfigureOne(env, temperature, pressure, pool[k]);
      }
    } else {
      var k :| k in pool && ConfigureOne(env, temperature, pressure, pool[k]).Err?;
      ConfigureSpecErr(env, temperature, pressure, pool, k);
    }
  }

  lemma ConfigureSpecOk(env: Env, temperature: Option<real>, pressure: Option<real>, pool: Pool,
                        spent: map<string, real>, out: Pool)
    requires spent.Keys == pool.Keys && out.Keys == pool.Keys
    requires forall k :: k in pool ==> ConfigureOne(env, temperature, pressure, pool[k]) == Ok(Conditioned(spent[k], out[k]))
    ensures ConfigureSpec(env, temperature, pressure, pool) == Ok(ConfiguredPool(Sum(spent), out))
  {
    var f := ConfigureEntry(env, temperature, pressure);
    assert AllOk(pool, f) by {
      forall k | k in pool ensures f(k, pool[k]).Ok? {
        assert f(k, pool[k]) == ConfigureOne(env, temperature, pressure, pool[k]);
      }
    }
    TraverseSpecOk(pool, f);
    var cs := TraverseSpec(pool, f).value;
    forall k | k in pool ensures cs[k] == Conditioned(spent[k], out[k]) {
      assert f(k, pool[k]) == ConfigureOne(env, temperature, pressure, pool[k]);
    }
    Unzip(cs, spent, out);
  }

  lemma Unzip(cs: map<string, Conditioned>, spent: map<string, real>, out: Pool)
    requires cs.Keys == spent.Keys == out.Keys
    requires forall k :: k in cs ==> cs[k] == Conditioned(spent[k], out[k])
    ensures Energies(cs) == spent
    ensures Conditioneds(cs) == out
  {
  }

  lemma ConfigureSpecErr(env: Env, temperature: Option<real>, pressure: Option<real>, pool: Pool, k: string)
    requires k in pool && ConfigureOne(env, temperature, pressure, pool[k]).Err?
    ensures ConfigureSpec(env, temperature, pressure, pool).Err?
  {
    var f := ConfigureEntry(env, temperature, pressure);
    assert f(k, pool[k]).Err?;
    TraverseSpecErr(pool, f, k);
  }

  /** configureInputs: condition each resource of the pool in place and add up
      the energy spent. */
  method ConfigureInputs(env: Env, temperature: Option<real>, pressure: Option<real>, pool: Pool)
    returns (r: Result<ConfiguredPool>)
    ensures Agrees(r, ConfigureSpec(env, temperature, pressure, pool))
    ensures r.Ok? ==> r.value.pool.Keys == pool.Keys &&
                      forall k :: k in pool ==> ConfigureOne(env, temperature, pressure, pool[k]).Ok? &&
                                                ConfigureOne(env, temperature, pressure, pool[k]).value.resource == r.value.pool[k]
    ensures r.Err? ==> exists k :: k in pool && ConfigureOne(env, temperature, pressure, pool[k]) == Err(r.error)
  {
    var energy := 0.0;
    var out := pool;
    var rest := pool.Keys;
    ghost var spent: map<string, real> := map[];
    while rest != {}
      invariant rest <= pool.Keys && out.Keys == pool.Keys && spent.Keys == pool.Keys - rest
      invariant forall k :: k in spent ==> ConfigureOne(env, temperature, pressure, pool[k]) == Ok(Conditioned(spent[k], out[k]))
      invariant forall k :: k in rest ==> out[k] == pool[k]
      invariant energy == Sum(spent)
      decreases rest
    {
      var k :| k in rest;
      var c := ConfigureOne(env, temperature, pressure, out[k]);
      if c.Err? {
        ConfigureSpecErr(env, temperature, pressure, pool, k);
        return Err(c.error);
      }
      SumAdd(spent, k, c.value.energy);
      spent := spent[k := c.value.energy];
      energy := energy + c.value.energy;
      out := out[k := c.value.resource];
      rest := rest - {k};
    }
    ConfigureSpecOk(env, temperature, pressure, pool, spent, out);
    r := Ok(ConfiguredPool(energy, out));
  }
}
