/** The start of a production chain: a supply of fixed composition and
    unlimited extent. A request sets the least output rate that covers every
    kind asked for; a run emits Δt × rate × fraction of each kind. */
module DepositNode {
  import opened Outcomes
  import opened Folds
  import opened Resources
  import opened Transforms
  import opened Pools
  import opened Nodes
  import opened Plain

  /** Mass fractions as catalog data gives them: each positive. */
  predicate PositiveFractions(fractions: map<string, real>) {
    forall k :: k in fractions ==> fractions[k] > 0.0
  }

  /** Δt × fraction: the mass of a kind that one unit of output rate yields over a step. */
  function FractionMass(time: real, fraction: real): real {
    time * fraction
  }

  /** FractionMass of every kind of the composition. */
  function PerRate(fractions: map<string, real>, time: real): (m: map<string, real>)
    ensures m.Keys == fractions.Keys
    ensures forall k :: k in m ==> m[k] == FractionMass(time, fractions[k])
  {
    map k | k in fractions :: FractionMass(time, fractions[k])
  }

  lemma PerRatePositive(fractions: map<string, real>, time: real)
    requires PositiveFractions(fractions) && time > 0.0
    ensures forall k :: k in fractions ==> PerRate(fractions, time)[k] > 0.0
    ensures NonZero(PerRate(fractions, time))
  {
  }

  /** The named kinds of a request: the wildcard is skipped. */
  function Named(pool: Pool): (p: Pool)
    ensures p.Keys == pool.Keys - {ANY}
    ensures forall k :: k in p ==> p[k] == pool[k]
  {
    pool - {ANY}
  }

  // ------------------------------------------------------------ request

  /** The output rate a request sets: `max(0, mass / (Δt × fraction))` over the
      named kinds. */
  ghost function Rate(fractions: map<string, real>, time: real, req: Pool): real
    requires PositiveFractions(fractions) && time > 0.0
  {
    PerRatePositive(fractions, time);
    MaxFrom(0.0, Ratios(Named(req), PerRate(fractions, time)))
  }

  /** ResourceDeposit.request: None cannot be iterated; a named kind outside the
      composition is refused; otherwise the rate is recorded, the energy demand
      is 0 and nothing is asked further up. */
  ghost function DepositRequestSpec(fractions: map<string, real>, s: NodeState, time: real,
                                    req: Option<Pool>): (r: Result<Step>)
    requires PositiveFractions(fractions) && time > 0.0
    ensures r.Ok? <==> req.Some? && Named(req.value).Keys <= fractions.Keys
    ensures r.Ok? ==> r.value.out.None? &&
                      r.value.node == s.(outputRate := Some(Rate(fractions, time, req.value)), energyDemand := 0.0)
  {
    if req.None? then Err(NoneOperand)
    else if !(Named(req.value).Keys <= fractions.Keys) then Err(DepositUnknownKind)
    else Ok(Step(s.(outputRate := Some(Rate(fractions, time, req.value)), energyDemand := 0.0), None))
  }

  /** request's rate loop. */
  method RequestRate(fractions: map<string, real>, time: real, req: Pool) returns (r: Result<real>)
    requires PositiveFractions(fractions) && time > 0.0
    ensures Named(req).Keys <= fractions.Keys ==> r == Ok(Rate(fractions, time, req))
    ensures !(Named(req).Keys <= fractions.Keys) ==> r == Err(DepositUnknownKind)
  {
    PerRatePositive(fractions, time);
    var rate := MaxRatio(0.0, Named(req), PerRate(fractions, time));
    if rate.Err? {
      return Err(DepositUnknownKind);
    }
    r := Ok(rate.value);
  }

  /** mass / (Δt × fraction) <= rate means Δt × rate × fraction covers the mass. */
  lemma CoverOne(mass: real, time: real, fraction: real, rate: real)
    requires time > 0.0 && fraction > 0.0
    ensures Ratio(mass, FractionMass(time, fraction)) <= rate <==> mass <= DutyMass(time, rate, fraction)
  {
    var per := time * fraction;
    assert per > 0.0;
    assert DutyMass(time, rate, fraction) == rate * per;
    assert mass / per <= rate <==> mass <= rate * per;
  }

  /** The rate a request sets covers it: over the step the deposit emits at
      least the mass of every named kind asked for. */
  lemma RateCovers(fractions: map<string, real>, time: real, req: Pool, k: string)
    requires PositiveFractions(fractions) && time > 0.0
    requires Named(req).Keys <= fractions.Keys && k in Named(req)
    ensures Rate(fractions, time, req) >= 0.0
    ensures DutyMass(time, Rate(fractions, time, req), fractions[k]) >= req[k].mass
  {
    PerRatePositive(fractions, time);
    var ratios := Ratios(Named(req), PerRate(fractions, time));
    MaxFromIsMax(0.0, ratios);
    assert ratios[k] == Ratio(req[k].mass, FractionMass(time, fractions[k]));
    CoverOne(req[k].mass, time, fractions[k], Rate(fractions, time, req));
  }

  /** No smaller rate covers the request: any non-negative rate that covers
      every named kind is at least the one request sets. */
  lemma RateLeast(fractions: map<string, real>, time: real, req: Pool, other: real)
    requires PositiveFractions(fractions) && time > 0.0
    requires Named(req).Keys <= fractions.Keys && other >= 0.0
    requires forall k :: k in Named(req) ==> DutyMass(time, other, fractions[k]) >= req[k].mass
    ensures Rate(fractions, time, req) <= other
  {
    PerRatePositive(fractions, time);
    var ratios := Ratios(Named(req), PerRate(fractions, time));
    MaxFromIsMax(0.0, ratios);
    if Rate(fractions, time, req) != 0.0 {
      var k :| k in ratios && Rate(fractions, time, req) == ratios[k];
      assert ratios[k] == Ratio(req[k].mass, FractionMass(time, fractions[k]));
      CoverOne(req[k].mass, time, fractions[k], other);
    }
  }

  // ------------------------------------------------------------ run

  /** One kind of the composition emitted at Δt × rate × fraction. */
  function Emitted(registry: Registry, time: real, rate: real, temperature: Option<real>,
                   pressure: Option<real>, phase: Phase): (string, real) -> Result<ResourceState> {
    (k: string, f: real) => Make(registry, k, DutyMass(time, rate, f), temperature, pressure, phase)
  }

  /** ResourceDeposit.run: it needs an output rate from an earlier request and
      takes no inputs; it emits every kind of its composition and demands no energy. */
  ghost function DepositRunSpec(registry: Registry, fractions: map<string, real>, phase: Phase,
                                temperature: Option<real>, pressure: Option<real>,
                                s: NodeState, time: real, inputs: Option<Pool>): (r: Result<Step>)
    ensures s.outputRate.None? ==> r == Err(NoOutputRate)
    ensures s.outputRate.Some? && inputs.Some? ==> r == Err(UnexpectedInputs)
    ensures r.Ok? ==> r.value.node == s.(energyDemand := 0.0) && r.value.out.Some?
  {
    if s.outputRate.None? then Err(NoOutputRate)
    else if inputs.Some? then Err(UnexpectedInputs)
    else
      match TraverseSpec(fractions, Emitted(registry, time, s.outputRate.value, temperature, pressure, phase))
      case Err(e) => Err(e)
      case Ok(out) => Ok(Step(s.(energyDemand := 0.0), Some(out)))
  }

  /** A run emits exactly the kinds of the composition, each at Δt × rate ×
      its fraction, in the deposit's phase and at its temperature. */
  lemma DepositRunOutputs(registry: Registry, fractions: map<string, real>, phase: Phase,
                          temperature: Option<real>, pressure: Option<real>, s: NodeState, time: real)
    requires DepositRunSpec(registry, fractions, phase, temperature, pressure, s, time, None).Ok?
    ensures var out := DepositRunSpec(registry, fractions, phase, temperature, pressure, s, time, None).value.out.value;
            out.Keys == fractions.Keys &&
            forall k :: k in fractions ==>
              out[k].name == k && out[k].mass == DutyMass(time, s.outputRate.value, fractions[k]) &&
              out[k].phase == phase && out[k].temperature == temperature
  {
    var f := Emitted(registry, time, s.outputRate.value, temperature, pressure, phase);
    TraverseSpecOk(fractions, f);
    var out := TraverseSpec(fractions, f).value;
    forall k | k in fractions
      ensures out[k].name == k && out[k].mass == DutyMass(time, s.outputRate.value, fractions[k]) &&
              out[k].phase == phase && out[k].temperature == temperature
    {
      assert f(k, fractions[k]) == Make(registry, k, DutyMass(time, s.outputRate.value, fractions[k]), temperature, pressure, phase);
    }
  }

  /** A deposit delivers what it was asked for: after a successful request, a
      successful run emits at least the mass of every named kind requested. */
  lemma DepositSupplies(registry: Registry, fractions: map<string, real>, phase: Phase,
                        temperature: Option<real>, pressure: Option<real>, s: NodeState, time: real,
                        req: Pool, k: string)
    requires PositiveFractions(fractions) && time > 0.0
    requires DepositRequestSpec(fractions, s, time, Some(req)).Ok?
    requires DepositRunSpec(registry, fractions, phase, temperature, pressure,
                            DepositRequestSpec(fractions, s, time, Some(req)).value.node, time, None).Ok?
    requires k in req && k != ANY
    ensures k in DepositRunSpec(registry, fractions, phase, temperature, pressure,
                                DepositRequestSpec(fractions, s, time, Some(req)).value.node, time, None).value.out.value
    ensures DepositRunSpec(registry, fractions, phase, temperature, pressure,
                           DepositRequestSpec(fractions, s, time, Some(req)).value.node, time, None).value.out.value[k].mass
            >= req[k].mass
  {
    var s2 := DepositRequestSpec(fractions, s, time, Some(req)).value.node;
    DepositRunOutputs(registry, fractions, phase, temperature, pressure, s2, time);
    RateCovers(fractions, time, req, k);
  }
}
