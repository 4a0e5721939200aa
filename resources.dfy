/** A quantity of one material kind: mass, phase, conditions and the volume that
    is re-derived from them whenever the mass is set. */
module Resources {
  import opened Outcomes

  datatype Phase = Solid | Liquid | Gas | Plasma

  /** Relative tolerance below which a remainder counts as fully consumed. */
  const ZERO_TOL: real := 0.00001
  /** Universal gas constant, J/(mol·K). */
  const GAS_CONSTANT: real := 8.314

  /** A snapshot of a resource. `temperature`, `pressure` and `volume` may be
      None; `gamma` and `cp` are None for kinds that do not define them. */
  datatype ResourceState = ResourceState(
    name: string,
    mass: real,
    volume: Option<real>,
    density: map<Phase, real>,
    molarMass: real,
    temperature: Option<real>,
    pressure: Option<real>,
    phase: Phase,
    gamma: Option<real>,
    cp: Option<real>)

  /** A pool of resources keyed by kind name, as passed between processes. */
  type Pool = map<string, ResourceState>

  /** The quantities the ideal-gas law can be solved for. */
  datatype GasField = PressureField | VolumeField | TemperatureField

  /** The ideal-gas law P·V·M = m·R·T, stated without division. */
  predicate IdealGasHolds(r: ResourceState)
    requires r.pressure.Some? && r.volume.Some? && r.temperature.Some?
  {
    r.pressure.value * r.volume.value * r.molarMass == r.mass * GAS_CONSTANT * r.temperature.value
  }

  /** The base-class defaults of a freshly created resource. */
  function Blank(name: string): ResourceState {
    ResourceState(name, 0.0, Some(0.0), map[], 0.0, Some(0.0), Some(0.0), Solid, None, None)
  }

  /** m·T·R / (V·M): the pressure (or, with V and P swapped, the volume) the law gives. */
  function SolveFor(m: real, t: real, a: real, mm: real): (x: real)
    requires a * mm != 0.0
    ensures x * a * mm == m * GAS_CONSTANT * t
  {
    var x := m * t * GAS_CONSTANT / (a * mm);
    assert x * (a * mm) == m * t * GAS_CONSTANT;
    x
  }

  /** P·V·M / (R·m): the temperature the law gives. */
  function SolveForTemperature(p: real, v: real, mm: real, m: real): (t: real)
    requires GAS_CONSTANT * m != 0.0
    ensures p * v * mm == m * GAS_CONSTANT * t
  {
    var t := p * v * mm / (GAS_CONSTANT * m);
    assert t * (GAS_CONSTANT * m) == p * v * mm;
    t
  }

  /** setIdealGas: solve the ideal-gas law for one quantity from the others.
      Only the GAS phase is accepted. */
  function IdealGas(r: ResourceState, target: GasField): (s: Result<ResourceState>)
    ensures r.phase != Gas ==> s == Err(NotGas)
    ensures s.Ok? ==> s.value.pressure.Some? && s.value.volume.Some? && s.value.temperature.Some? &&
                      IdealGasHolds(s.value)
    ensures s.Ok? ==> match target
                      case PressureField => s.value == r.(pressure := s.value.pressure)
                      case VolumeField => s.value == r.(volume := s.value.volume)
                      case TemperatureField => s.value == r.(temperature := s.value.temperature)
  {
    if r.phase != Gas then Err(NotGas)
    else match target
      case PressureField =>
        if r.temperature.None? || r.volume.None? then Err(NoneOperand)
        else if r.volume.value * r.molarMass == 0.0 then Err(ZeroDivision)
        else Ok(r.(pressure := Some(SolveFor(r.mass, r.temperature.value, r.volume.value, r.molarMass))))
      case VolumeField =>
        if r.temperature.None? || r.pressure.None? then Err(NoneOperand)
        else if r.pressure.value * r.molarMass == 0.0 then Err(ZeroDivision)
        else Ok(r.(volume := Some(SolveFor(r.mass, r.temperature.value, r.pressure.value, r.molarMass))))
      case TemperatureField =>
        if r.pressure.None? || r.volume.None? then Err(NoneOperand)
        else if GAS_CONSTANT * r.mass == 0.0 then Err(ZeroDivision)
        else Ok(r.(temperature := Some(SolveForTemperature(r.pressure.value, r.volume.value, r.molarMass, r.mass))))
  }

  /** Volume of a condensed phase: mass times density. */
  function CondensedVolume(m: real, density: real): real {
    m * density
  }

  /** setMass: set the mass and re-derive the volume from the phase. */
  function WithMass(r: ResourceState, m: real): (s: Result<ResourceState>)
    // only the mass and the volume change
    ensures s.Ok? ==> s.value.mass == m && s.value.(mass := r.mass, volume := r.volume) == r
    // SOLID/LIQUID: volume is mass × density, and a missing density entry fails
    ensures (r.phase == Solid || r.phase == Liquid) ==>
              (s.Ok? <==> r.phase in r.density) &&
              (s.Ok? ==> s.value.volume == Some(CondensedVolume(m, r.density[r.phase])))
    // other phases with an unknown pressure or temperature: the volume becomes unknown
    ensures r.phase in {Gas, Plasma} && (r.pressure.None? || r.temperature.None?) ==>
              s == Ok(r.(mass := m, volume := None))
    // other phases with both known: the ideal-gas law, which only GAS admits
    ensures r.phase in {Gas, Plasma} && r.pressure.Some? && r.temperature.Some? ==>
              (s.Ok? <==> r.phase == Gas && r.pressure.value != 0.0 && r.molarMass != 0.0) &&
              (s.Ok? ==> s.value.volume.Some? && IdealGasHolds(s.value))
  {
    var r1 := r.(mass := m);
    if r.phase == Solid || r.phase == Liquid then
      if r.phase !in r.density then Err(NoDensity)
      else Ok(r1.(volume := Some(CondensedVolume(m, r.density[r.phase]))))
    else if r.pressure.None? || r.temperature.None? then Ok(r1.(volume := None))
    else if r.pressure.value == 0.0 then Err(ZeroPressure)
    else if r.molarMass == 0.0 then Err(ZeroMolarMass)
    else IdealGas(r1, VolumeField)
  }

  /** Setting the mass twice is setting it once: the second call re-derives
      the volume from the fields the first call left alone. */
  lemma SetMassOverrides(r: ResourceState, a: real, b: real)
    requires WithMass(r, a).Ok?
    ensures WithMass(WithMass(r, a).value, b) == WithMass(r, b)
  {
    var r1 := WithMass(r, a).value;
    assert r1.(mass := b, volume := r.volume) == r.(mass := b);
    if r.phase in {Gas, Plasma} && r.pressure.Some? && r.temperature.Some? {
      assert r.phase == Gas && r.pressure.value != 0.0 && r.molarMass != 0.0;
      assert IdealGas(r1.(mass := b), VolumeField) == IdealGas(r.(mass := b), VolumeField);
    }
  }

  /** Solving for the volume and then for the pressure gives back the pressure. */
  lemma VolumeThenPressure(r: ResourceState)
    requires r.phase == Gas && r.pressure.Some? && r.temperature.Some?
    requires r.pressure.value != 0.0 && r.molarMass != 0.0 && r.mass * r.temperature.value != 0.0
    ensures IdealGas(r, VolumeField).Ok?
    ensures var back := IdealGas(IdealGas(r, VolumeField).value, PressureField);
            back.Ok? && back.value.pressure == r.pressure
  {
    var p, t, mm, m := r.pressure.value, r.temperature.value, r.molarMass, r.mass;
    var v := SolveFor(m, t, p, mm);
    assert v * p * mm == m * GAS_CONSTANT * t;
    assert v != 0.0;
    assert v * mm != 0.0;
    var p2 := SolveFor(m, t, v, mm);
    assert p2 * v * mm == p * v * mm;
    assert (p2 - p) * (v * mm) == 0.0;
  }

  /** What the resource registry knows about one kind (its class in the catalog). */
  datatype Kind = Kind(
    density: map<Phase, real>,
    molarMass: real,
    gamma: Option<real>,
    cp: Option<real>,
    takesPressure: bool)   // some solids ignore the pressure argument and keep the default 0

  /** Kind name to its properties; None for a name the catalog lacks. */
  type Registry = string -> Option<Kind>

  /** `getattr(resourceLib, name)(mass, temperature, pressure, phase)`: defaults,
      the kind's properties, the given conditions, then setMass. */
  function Make(registry: Registry, name: string, mass: real, temperature: Option<real>,
                pressure: Option<real>, phase: Phase): (s: Result<ResourceState>)
    ensures registry(name).None? ==> s == Err(UnknownKind(name))
    ensures s.Ok? ==> s.value.name == name && s.value.mass == mass && s.value.phase == phase &&
                      s.value.temperature == temperature &&
                      s.value.pressure == (if registry(name).value.takesPressure then pressure else Some(0.0))
  {
    match registry(name)
    case None => Err(UnknownKind(name))
    case Some(k) =>
      var base := Blank(name).(density := k.density, molarMass := k.molarMass, temperature := temperature,
                               pressure := if k.takesPressure then pressure else Some(0.0),
                               phase := phase, gamma := k.gamma, cp := k.cp);
      WithMass(base, mass)
  }

  /** A resource whose mass has been set: setting the same mass again gives
      it back unchanged. */
  ghost predicate Settled(r: ResourceState) {
    WithMass(r, r.mass) == Ok(r)
  }

  /** A freshly constructed resource is settled, since its constructor ends
      with setMass. */
  lemma MadeSettled(registry: Registry, name: string, mass: real, temperature: Option<real>,
                    pressure: Option<real>, phase: Phase)
    requires Make(registry, name, mass, temperature, pressure, phase).Ok?
    ensures Settled(Make(registry, name, mass, temperature, pressure, phase).value)
  {
    var k := registry(name).value;
    var base := Blank(name).(density := k.density, molarMass := k.molarMass, temperature := temperature,
                             pressure := if k.takesPressure then pressure else Some(0.0),
                             phase := phase, gamma := k.gamma, cp := k.cp);
    SetMassOverrides(base, mass, mass);
  }

  /** The resource object, whose setMass and setIdealGas assign its fields. */
  class Resource {
    var name: string
    var mass: real
    var volume: Option<real>
    var density: map<Phase, real>
    var molarMass: real
    var temperature: Option<real>
    var pressure: Option<real>
    var phase: Phase
    var gamma: Option<real>
    var cp: Option<real>

    function State(): ResourceState
      reads this
    {
      ResourceState(name, mass, volume, density, molarMass, temperature, pressure, phase, gamma, cp)
    }

    /** Mass 0, volume 0, no densities, molar mass 0, SOLID. */
    constructor (name: string)
      ensures State() == Blank(name)
      ensures mass == 0.0 && volume == Some(0.0) && density == map[] && molarMass == 0.0 && phase == Solid
    {
      this.name := name;
      mass := 0.0;
      volume := Some(0.0);
      density := map[];
      molarMass := 0.0;
      temperature := Some(0.0);
      pressure := Some(0.0);
      phase := Solid;
      gamma := None;
      cp := None;
    }

    /** On success the object holds WithMass's result; on failure the mass has
        already been assigned and nothing else has changed. */
    method SetMass(m: real) returns (err: Option<Error>)
      modifies this
      ensures var s := WithMass(old(State()), m);
              (s.Ok? ==> err.None? && State() == s.value) &&
              (s.Err? ==> err == Some(s.error) && State() == old(State()).(mass := m))
    {
      mass := m;
      if phase == Solid || phase == Liquid {
        if phase !in density {
          return Some(NoDensity);
        }
        volume := Some(CondensedVolume(m, density[phase]));
        err := None;
      } else if pressure.None? || temperature.None? {
        volume := None;
        err := None;
      } else if pressure.value == 0.0 {
        err := Some(ZeroPressure);
      } else if molarMass == 0.0 {
        err := Some(ZeroMolarMass);
      } else {
        err := SetIdealGas(VolumeField);
      }
    }

    /** On success the object holds IdealGas's result; on failure nothing changes. */
    method SetIdealGas(target: GasField) returns (err: Option<Error>)
      modifies this
      ensures var s := IdealGas(old(State()), target);
              (s.Ok? ==> err.None? && State() == s.value) &&
              (s.Err? ==> err == Some(s.error) && State() == old(State()))
    {
      if phase != Gas {
        return Some(NotGas);
      }
      match target
      case PressureField =>
        if temperature.None? || volume.None? {
          err := Some(NoneOperand);
        } else if volume.value * molarMass == 0.0 {
          err := Some(ZeroDivision);
        } else {
          pressure := Some(SolveFor(mass, temperature.value, volume.value, molarMass));
          err := None;
        }
      case VolumeField =>
        if temperature.None? || pressure.None? {
          err := Some(NoneOperand);
        } else if pressure.value * molarMass == 0.0 {
          err := Some(ZeroDivision);
        } else {
          volume := Some(SolveFor(mass, temperature.value, pressure.value, molarMass));
          err := None;
        }
      case TemperatureField =>
        if pressure.None? || volume.None? {
          err := Some(NoneOperand);
        } else if GAS_CONSTANT * mass == 0.0 {
          err := Some(ZeroDivision);
        } else {
          temperature := Some(SolveForTemperature(pressure.value, volume.value, molarMass, mass));
          err := None;
        }
    }
  }
}
