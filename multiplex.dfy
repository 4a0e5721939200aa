/** A process mocked as several identical parallel units. Both directions find
    the least whole number of units that keeps every resource within one unit's
    full-duty mass, hand one unit its share, let the transform process act on
    that share, and scale the energy demand and the masses it returns back up
    by the unit count. */
module MultiplexNode {
  import opened Outcomes
  import opened Folds
  import opened Resources
  import opened Transforms
  import opened Conditioning
  import opened Pools
  import opened Nodes
  import opened Plain

  // ------------------------------------------------------------ unit count

  /** One unit's share of a mass. */
  function Share(mass: real, n: int): real
    requires n != 0
  {
    mass / n as real
  }

  /** A unit's mass or energy scaled back up to n units. */
  function Times(x: real, n: int): real {
    x * n as real
  }

  /** `math.ceil(max(0, every mass / per-unit mass))`: the unit count. */
  ghost function Units(pool: Pool, per: map<string, real>): int
    requires NonZero(per)
  {
    Ceil(MaxFrom(0.0, Ratios(pool, per)))
  }

  /** The unit count is the least number of units that handles every resource:
      no resource exceeds n units' worth, and with one unit fewer some resource
      would exceed it. */
  lemma UnitsLeast(pool: Pool, per: map<string, real>)
    requires NonZero(per)
    ensures Units(pool, per) >= 0
    ensures forall k :: k in pool && k in per ==> Ratio(pool[k].mass, per[k]) <= Units(pool, per) as real
    ensures Units(pool, per) >= 1 ==>
              exists k :: k in pool && k in per && Ratio(pool[k].mass, per[k]) > (Units(pool, per) - 1) as real
  {
    var ratios := Ratios(pool, per);
    MaxFromIsMax(0.0, ratios);
    forall k | k in pool && k in per ensures Ratio(pool[k].mass, per[k]) <= Units(pool, per) as real {
      assert ratios[k] == Ratio(pool[k].mass, per[k]);
    }
    if Units(pool, per) >= 1 {
      var u := MaxFrom(0.0, ratios);
      assert u > (Units(pool, per) - 1) as real;
      var k :| k in ratios && u == ratios[k];
      assert ratios[k] == Ratio(pool[k].mass, per[k]);
    }
  }

  /** The unit-count loop of run and request (KeyError on a kind the unit lacks). */
  method CountUnits(pool: Pool, per: map<string, real>) returns (n: Result<int>)
    requires NonZero(per)
    ensures pool.Keys <= per.Keys ==> n == Ok(Units(pool, per))
    ensures !(pool.Keys <= per.Keys) ==> n == Err(MissingKey)
  {
    var ratio := MaxRatio(0.0, pool, per);
    if ratio.Err? {
      return Err(ratio.error);
    }
    n := Ok(Ceil(ratio.value));
  }

  // ------------------------------------------------------------ scaling

  /** One unit's share of a resource: mass / n, ZeroDivisionError for no units. */
  function Divide(n: int, r: ResourceState): Result<ResourceState> {
    if n == 0 then Err(ZeroDivision) else WithMass(r, Share(r.mass, n))
  }

  function DivideEntry(n: int): (string, ResourceState) -> Result<ResourceState> {
    (k: string, r: ResourceState) => Divide(n, r)
  }

  function MultiplyEntry(n: int): (string, ResourceState) -> Result<ResourceState> {
    (k: string, r: ResourceState) => WithMass(r, Times(r.mass, n))
  }

  /** `for name in pool: pool[name].setMass(pool[name].Mass / n)`. */
  ghost function ScaleDown(pool: Pool, n: int): Result<Pool> {
    TraverseSpec(pool, DivideEntry(n))
  }

  /** `for name in pool: pool[name].setMass(pool[name].Mass * n)`. */
  ghost function ScaleUp(pool: Pool, n: int): Result<Pool> {
    TraverseSpec(pool, MultiplyEntry(n))
  }

  /** Sharing out among zero units fails on any resource; a successful share
      keeps every kind and its phase and divides every mass by n. */
  lemma ScaleDownEntries(pool: Pool, n: int)
    ensures n == 0 && pool != map[] ==> ScaleDown(pool, n) == Err(ZeroDivision)
    ensures ScaleDown(pool, n).Ok? ==>
              ScaleDown(pool, n).value.Keys == pool.Keys && (pool != map[] ==> n != 0) &&
              forall k :: k in pool ==>
                n != 0 && ScaleDown(pool, n).value[k].mass == Share(pool[k].mass, n) &&
                ScaleDown(pool, n).value[k].phase == pool[k].phase
  {
    var f := DivideEntry(n);
    if n == 0 && pool != map[] {
      var k :| k in pool;
      assert f(k, pool[k]).Err?;
    }
    if AllOk(pool, f) {
      TraverseSpecOk(pool, f);
      forall k | k in pool
        ensures n != 0 && ScaleDown(pool, n).value[k].mass == Share(pool[k].mass, n) &&
                ScaleDown(pool, n).value[k].phase == pool[k].phase
      {
        assert f(k, pool[k]) == Divide(n, pool[k]);
      }
    }
  }

  /** A successful scale-up keeps every kind and its phase and multiplies every
      mass by n. */
  lemma ScaleUpEntries(pool: Pool, n: int)
    ensures ScaleUp(pool, n).Ok? ==>
              ScaleUp(pool, n).value.Keys == pool.Keys &&
              forall k :: k in pool ==>
                ScaleUp(pool, n).value[k].mass == Times(pool[k].mass, n) &&
                ScaleUp(pool, n).value[k].phase == pool[k].phase
  {
    var f := MultiplyEntry(n);
    if AllOk(pool, f) {
      TraverseSpecOk(pool, f);
      forall k | k in pool
        ensures ScaleUp(pool, n).value[k].mass == Times(pool[k].mass, n) &&
                ScaleUp(pool, n).value[k].phase == pool[k].phase
      {
        assert f(k, pool[k]) == WithMass(pool[k], Times(pool[k].mass, n));
      }
    }
  }

  /** What one unit's step is scaled back up to: the energy demand and every
      returned mass multiplied by n. */
  ghost function Multiply(unit: Result<Step>, n: int): (r: Result<Step>)
    ensures r.Ok? ==> unit.Ok? && unit.value.out.Some? && r.value.out.Some? &&
                      r.value.node == unit.value.node.(energyDemand := Times(unit.value.node.energyDemand, n))
  {
    match unit
    case Err(e) => Err(e)
    case Ok(st) =>
      if st.out.None? then Err(NoneOperand)
      else
        match ScaleUp(st.out.value, n)
        case Err(e) => Err(e)
        case Ok(up) => Ok(Step(st.node.(energyDemand := Times(st.node.energyDemand, n)), Some(up)))
  }

  // ------------------------------------------------------------ run

  /** One unit's run on its share of the inputs, recording the unit count. */
  ghost function UnitRun(env: Env, temperature: Option<real>, pressure: Option<real>, t: Transform,
                         s: NodeState, time: real, pool: Pool, n: int): Result<Step>
    requires ValidTransform(t) && time > 0.0
  {
    match ScaleDown(pool, n)
    case Err(e) => Err(e)
    case Ok(share) => RunSpec(env, temperature, pressure, t, s.(numMocks := n), time, Some(share))
  }

  /** Multiplex.run on a pool of inputs. */
  ghost function MuxRunSpec(env: Env, temperature: Option<real>, pressure: Option<real>, t: Transform,
                            s: NodeState, time: real, inputs: Option<Pool>): (r: Result<Step>)
    requires ValidTransform(t) && time > 0.0
  {
    FullDutyPositive(t, time);
    if inputs.None? then Err(NoneOperand)
    else if !(inputs.value.Keys <= ByName(t.inputs).Keys) then Err(MissingKey)
    else
      Multiply(UnitRun(env, temperature, pressure, t, s, time, inputs.value, Units(inputs.value, InputMasses(t, time))),
               Units(inputs.value, InputMasses(t, time)))
  }

  /** A successful multiplexed run is n copies of one unit's run on a 1/n share
      of the inputs: every input kind is one the transform declares, every
      share is mass / n, and the energy demand and every returned mass are the
      unit's times n, with the unit count recorded. */
  lemma MuxRunScales(env: Env, temperature: Option<real>, pressure: Option<real>, t: Transform,
                     s: NodeState, time: real, pool: Pool)
    requires ValidTransform(t) && time > 0.0
    requires MuxRunSpec(env, temperature, pressure, t, s, time, Some(pool)).Ok?
    ensures NonZero(InputMasses(t, time)) && pool.Keys <= ByName(t.inputs).Keys
    ensures ScaleDown(pool, Units(pool, InputMasses(t, time))).Ok?
    ensures forall k :: k in pool ==>
              Units(pool, InputMasses(t, time)) != 0 &&
              k in ScaleDown(pool, Units(pool, InputMasses(t, time))).value &&
              ScaleDown(pool, Units(pool, InputMasses(t, time))).value[k].mass ==
                Share(pool[k].mass, Units(pool, InputMasses(t, time)))
    ensures UnitRun(env, temperature, pressure, t, s, time, pool, Units(pool, InputMasses(t, time))).Ok?
    ensures var unit := UnitRun(env, temperature, pressure, t, s, time, pool, Units(pool, InputMasses(t, time))).value;
            var whole := MuxRunSpec(env, temperature, pressure, t, s, time, Some(pool)).value;
            unit.node.numMocks == Units(pool, InputMasses(t, time)) &&
            whole.node == unit.node.(energyDemand := Times(unit.node.energyDemand, Units(pool, InputMasses(t, time)))) &&
            unit.out.Some? && whole.out.Some? && whole.out.value.Keys == unit.out.value.Keys &&
            forall k :: k in unit.out.value ==>
              whole.out.value[k].mass == Times(unit.out.value[k].mass, Units(pool, InputMasses(t, time)))
  {
    FullDutyPositive(t, time);
    var n := Units(pool, InputMasses(t, time));
    ScaleDownEntries(pool, n);
    var share := ScaleDown(pool, n).value;
    RunStages(env, temperature, pressure, t, s.(numMocks := n), time, share);
    ProduceState(env.registry, temperature, pressure, t, s.(numMocks := n), time,
                 ConfigureSpec(env, temperature, pressure, share).value);
    var unit := UnitRun(env, temperature, pressure, t, s, time, pool, n).value;
    ScaleUpEntries(unit.out.value, n);
  }

  // ------------------------------------------------------------ request

  /** One unit's request for its share of what is asked, recording the unit count. */
  ghost function UnitRequest(env: Env, temperature: Option<real>, pressure: Option<real>, t: Transform,
                             s: NodeState, time: real, pool: Pool, n: int): Result<Step>
    requires ValidTransform(t) && time > 0.0
  {
    match ScaleDown(pool, n)
    case Err(e) => Err(e)
    case Ok(share) => RequestSpec(env, temperature, pressure, t, s.(numMocks := n), time, Some(share))
  }

  /** Multiplex.request on a pool of requested resources; None asks for nothing
      and leaves the node as it was. */
  ghost function MuxRequestSpec(env: Env, temperature: Option<real>, pressure: Option<real>, t: Transform,
                                s: NodeState, time: real, req: Option<Pool>): (r: Result<Step>)
    requires ValidTransform(t) && time > 0.0
  {
    FullDutyPositive(t, time);
    if req.None? then Ok(Step(s, None))
    else if !(req.value.Keys <= ByName(t.outputs).Keys) then Err(MissingKey)
    else
      Multiply(UnitRequest(env, temperature, pressure, t, s, time, req.value, Units(req.value, OutputMasses(t, time))),
               Units(req.value, OutputMasses(t, time)))
  }

  /** (m / n) / Δt <= rate when m over a unit's full-duty mass is at most n. */
  lemma ShareWithinRate(mass: real, n: int, time: real, c: Component)
    requires n >= 1 && time > 0.0 && c.rate > 0.0 && Ratio(mass, MassOver(c, time)) <= n as real
    ensures Ratio(Share(mass, n), time) <= c.rate
  {
    var nr := n as real;
    var full := time * c.rate;
    assert mass <= nr * full by {
      assert mass == (mass / full) * full;
    }
    assert mass / nr <= full by {
      assert mass / nr == mass * (1.0 / nr);
    }
    assert (mass / nr) / time <= full / time;
  }

  /** Taking unit count n from the request means no unit is asked for more
      than its rate: the share of a kind the transform makes passes the rate
      check of Process.request. */
  lemma MuxShareWithinRate(t: Transform, time: real, pool: Pool, n: int, k: string)
    requires ValidTransform(t) && time > 0.0
    requires NonZero(OutputMasses(t, time)) && n == Units(pool, OutputMasses(t, time))
    requires ScaleDown(pool, n).Ok? && k in pool && k in ByName(t.outputs)
    ensures k in ScaleDown(pool, n).value
    ensures Ratio(ScaleDown(pool, n).value[k].mass, time) <= ByName(t.outputs)[k].rate
  {
    var per := OutputMasses(t, time);
    ScaleDownEntries(pool, n);
    UnitsLeast(pool, per);
    ByNameKeys(t.outputs);
    var i :| 0 <= i < |t.outputs| && t.outputs[i].name == k;
    ByNameDistinct(t.outputs, i);
    var c := t.outputs[i];
    assert per[k] == MassOver(c, time);
    ShareWithinRate(pool[k].mass, n, time, c);
  }

  /** A multiplexed request never fails its rate check: when every kind asked
      of the transform is asked for in its phase, one unit's share passes the
      whole check of Process.request. */
  lemma MuxShareChecks(t: Transform, time: real, pool: Pool, n: int)
    requires ValidTransform(t) && time > 0.0
    requires NonZero(OutputMasses(t, time)) && n == Units(pool, OutputMasses(t, time))
    requires ScaleDown(pool, n).Ok?
    requires forall k :: k in pool && k in ByName(t.outputs) ==> pool[k].phase == ByName(t.outputs)[k].phase
    ensures AllOk(ScaleDown(pool, n).value, CheckEntry(t, time))
  {
    var share := ScaleDown(pool, n).value;
    ScaleDownEntries(pool, n);
    var f := CheckEntry(t, time);
    forall k | k in share ensures f(k, share[k]).Ok? {
      assert f(k, share[k]) == CheckRequested(t, time, k, share[k]);
      if k in ByName(t.outputs) {
        MuxShareWithinRate(t, time, pool, n, k);
      }
    }
  }

  /** A successful multiplexed request is n copies of one unit's request for a
      1/n share, with the energy demand and every asked mass times n. */
  lemma MuxRequestScales(env: Env, temperature: Option<real>, pressure: Option<real>, t: Transform,
                         s: NodeState, time: real, pool: Pool)
    requires ValidTransform(t) && time > 0.0
    requires MuxRequestSpec(env, temperature, pressure, t, s, time, Some(pool)).Ok?
    ensures NonZero(OutputMasses(t, time)) && pool.Keys <= ByName(t.outputs).Keys
    ensures UnitRequest(env, temperature, pressure, t, s, time, pool, Units(pool, OutputMasses(t, time))).Ok?
    ensures var unit := UnitRequest(env, temperature, pressure, t, s, time, pool, Units(pool, OutputMasses(t, time))).value;
            var whole := MuxRequestSpec(env, temperature, pressure, t, s, time, Some(pool)).value;
            unit.node.numMocks == Units(pool, OutputMasses(t, time)) &&
            whole.node == unit.node.(energyDemand := Times(unit.node.energyDemand, Units(pool, OutputMasses(t, time)))) &&
            unit.out.Some? && whole.out.Some? && whole.out.value.Keys == unit.out.value.Keys &&
            forall k :: k in unit.out.value ==>
              whole.out.value[k].mass == Times(unit.out.value[k].mass, Units(pool, OutputMasses(t, time)))
  {
    FullDutyPositive(t, time);
    var n := Units(pool, OutputMasses(t, time));
    var share := ScaleDown(pool, n).value;
    RequestStages(env, temperature, pressure, t, s.(numMocks := n), time, share);
    AnswerState(env, temperature, pressure, t, s.(numMocks := n), time, share);
    var unit := UnitRequest(env, temperature, pressure, t, s, time, pool, n).value;
    ScaleUpEntries(unit.out.value, n);
  }

  // ------------------------------------------------------------ round trip

  /** (m / n) / p is (m / p) / n. */
  lemma ShareRatio(mass: real, n: int, per: real)
    requires n >= 1 && per != 0.0
    ensures Ratio(Share(mass, n), per) == Ratio(mass, per) / n as real
  {
    var nr := n as real;
    assert Ratio(Share(mass, n), per) == mass / (nr * per);
  }

  /** n units' worth of what one unit makes at duty d is n × d of the full-duty mass. */
  lemma ScaledDutyRatio(time: real, d: real, rate: real, full: real, n: int)
    requires full == time * rate && full != 0.0
    ensures Ratio(Times(DutyMass(time, d, rate), n), full) == d * n as real
  {
    DutyMassScales(time, d, rate, full);
    assert Times(DutyMass(time, d, rate), n) == (d * n as real) * full;
  }

  /** A share of 1/n of a pool has each ratio, and so the largest one, divided by n. */
  lemma SharedRatios(pool: Pool, share: Pool, per: map<string, real>, n: int)
    requires NonZero(per) && n >= 1
    requires share.Keys == pool.Keys && forall k :: k in pool ==> share[k].mass == Share(pool[k].mass, n)
    ensures Ratios(share, per).Keys == Ratios(pool, per).Keys
    ensures forall k :: k in Ratios(share, per) ==> Ratios(share, per)[k] == Ratios(pool, per)[k] / n as real
  {
    forall k | k in Ratios(share, per) ensures Ratios(share, per)[k] == Ratios(pool, per)[k] / n as real {
      RatioAt(share, per, k);
      RatioAt(pool, per, k);
      ShareRatio(pool[k].mass, n, per[k]);
    }
  }

  /** Dividing every value by n > 0 divides the largest by n. */
  lemma ScaledMax(m: map<string, real>, scaled: map<string, real>, top: real, n: real)
    requires n > 0.0 && scaled.Keys == m.Keys && forall k :: k in scaled ==> scaled[k] == m[k] / n
    requires IsMaxFrom(top, 0.0, m)
    ensures IsMaxFrom(top / n, 0.0, scaled)
  {
    forall k | k in scaled ensures top / n >= scaled[k] {
      assert top >= m[k];
    }
    if top != 0.0 {
      var k :| k in m && top == m[k];
      assert scaled[k] == top / n;
    }
  }

  /** The largest of equal non-negative values is that value. */
  lemma ConstantMax(m: map<string, real>, v: real)
    requires m != map[] && v >= 0.0 && forall k :: k in m ==> m[k] == v
    ensures MaxFrom(0.0, m) == v
  {
    MaxFromIsMax(0.0, m);
    var k :| k in m;
    MaxFromUnique(MaxFrom(0.0, m), v, 0.0, m);
  }

  /** Inputs each n units' worth of what one unit takes at duty d have ratio n × d. */
  lemma RatiosOfScaledDuty(asked: Pool, per: map<string, real>, byName: map<string, Component>,
                           time: real, d: real, n: int)
    requires NonZero(per)
    requires forall k :: k in asked ==> k in byName && k in per && per[k] == time * byName[k].rate
    requires forall k :: k in asked ==> asked[k].mass == Times(DutyMass(time, d, byName[k].rate), n)
    ensures forall k :: k in Ratios(asked, per) ==> Ratios(asked, per)[k] == d * n as real
  {
    forall k | k in Ratios(asked, per) ensures Ratios(asked, per)[k] == d * n as real {
      RatioAt(asked, per, k);
      ScaledDutyRatio(time, d, byName[k].rate, per[k], n);
    }
  }

  /** A successful multiplexed request recorded its unit count n, asked one
      unit for a 1/n share, and asks for n times what that unit asked for. */
  lemma MuxUnitRequest(env: Env, temperature: Option<real>, pressure: Option<real>, t: Transform,
                       s: NodeState, time: real, pool: Pool, n: NodeState, asked: Pool)
    returns (share: Pool, unit: NodeState, unitAsked: Pool)
    requires ValidTransform(t) && time > 0.0
    requires MuxRequestSpec(env, temperature, pressure, t, s, time, Some(pool)) == Ok(Step(n, Some(asked)))
    ensures NonZero(OutputMasses(t, time)) && n.numMocks == Units(pool, OutputMasses(t, time))
    ensures pool.Keys <= ByName(t.outputs).Keys
    ensures share.Keys == pool.Keys && forall k :: k in pool ==> n.numMocks != 0 && share[k].mass == Share(pool[k].mass, n.numMocks)
    ensures RequestSpec(env, temperature, pressure, t, s.(numMocks := n.numMocks), time, Some(share)) == Ok(Step(unit, Some(unitAsked)))
    ensures asked.Keys == unitAsked.Keys
    ensures forall k :: k in unitAsked ==> asked[k].mass == Times(unitAsked[k].mass, n.numMocks)
    ensures ScaleUp(unitAsked, n.numMocks) == Ok(asked)
  {
    MuxRequestScales(env, temperature, pressure, t, s, time, pool);
    var units := Units(pool, OutputMasses(t, time));
    share := ScaleDown(pool, units).value;
    ScaleDownEntries(pool, units);
    var st := UnitRequest(env, temperature, pressure, t, s, time, pool, units).value;
    unit, unitAsked := st.node, st.out.value;
  }

  /** One unit's request, of a transform without a wildcard input, for kinds
      the transform makes asks for every input made at its duty cycle, the
      largest requested mass over its full-duty mass. */
  lemma UnitAsksAtDuty(env: Env, temperature: Option<real>, pressure: Option<real>, t: Transform,
                       s: NodeState, time: real, share: Pool, unit: NodeState, unitAsked: Pool)
    requires ValidTransform(t) && time > 0.0
    requires forall i :: 0 <= i < |t.inputs| ==> t.inputs[i].name != ANY
    requires share.Keys <= ByName(t.outputs).Keys
    requires RequestSpec(env, temperature, pressure, t, s, time, Some(share)) == Ok(Step(unit, Some(unitAsked)))
    ensures NonZero(OutputMasses(t, time)) && IsMaxFrom(RequestDuty(t, time, share), 0.0, Ratios(share, OutputMasses(t, time)))
    ensures unitAsked.Keys == ByName(t.inputs).Keys
    ensures forall k :: k in unitAsked ==>
              unitAsked[k].mass == DutyMass(time, RequestDuty(t, time, share), ByName(t.inputs)[k].rate)
  {
    RequestDutyOf(env, temperature, pressure, t, s, time, share, unit, unitAsked);
    RequestStages(env, temperature, pressure, t, s, time, share);
    RequestAsks(env, temperature, pressure, t, s, time, share, unit, unitAsked);
    MadeAtDuty(env.registry, t.inputs, time, RequestDuty(t, time, share), temperature, pressure, unitAsked);
  }

  /** The largest share of a 1/n share of a pool, times n, is the pool's largest share. */
  lemma SharedDuty(pool: Pool, share: Pool, per: map<string, real>, n: int, d: real)
    requires NonZero(per) && n >= 1
    requires share.Keys == pool.Keys && forall k :: k in pool ==> share[k].mass == Share(pool[k].mass, n)
    requires IsMaxFrom(d, 0.0, Ratios(share, per))
    ensures d * n as real == MaxFrom(0.0, Ratios(pool, per))
  {
    var top := MaxFrom(0.0, Ratios(pool, per));
    MaxFromIsMax(0.0, Ratios(pool, per));
    SharedRatios(pool, share, per, n);
    ScaledMax(Ratios(pool, per), Ratios(share, per), top, n as real);
    MaxFromUnique(d, top / n as real, 0.0, Ratios(share, per));
    TimesBack(d, top, n);
  }

  lemma TimesBack(q: real, x: real, n: int)
    requires n >= 1 && q == x / n as real
    ensures q * n as real == x
  {
  }

  /** What n units ask for when one unit, of a transform without a wildcard
      input, answered a request for a 1/n share makes run count n units again:
      each input kind is asked for at n × d of its full-duty mass, with d the
      unit's duty cycle and n × d the largest requested share, whose ceiling is n. */
  lemma ShareAsksUnits(env: Env, temperature: Option<real>, pressure: Option<real>, t: Transform,
                       s: NodeState, time: real, pool: Pool, n: int, share: Pool, unit: NodeState,
                       unitAsked: Pool, asked: Pool)
    requires ValidTransform(t) && time > 0.0 && t.inputs != []
    requires forall i :: 0 <= i < |t.inputs| ==> t.inputs[i].name != ANY
    requires NonZero(OutputMasses(t, time)) && n == Units(pool, OutputMasses(t, time)) && n >= 1
    requires pool.Keys <= ByName(t.outputs).Keys
    requires share.Keys == pool.Keys && forall k :: k in pool ==> share[k].mass == Share(pool[k].mass, n)
    requires RequestSpec(env, temperature, pressure, t, s, time, Some(share)) == Ok(Step(unit, Some(unitAsked)))
    requires asked.Keys == unitAsked.Keys
    requires forall k :: k in unitAsked ==> asked[k].mass == Times(unitAsked[k].mass, n)
    ensures NonZero(InputMasses(t, time)) && asked.Keys == ByName(t.inputs).Keys
    ensures Units(asked, InputMasses(t, time)) == n
  {
    UnitAsksAtDuty(env, temperature, pressure, t, s, time, share, unit, unitAsked);
    var d := RequestDuty(t, time, share);
    SharedDuty(pool, share, OutputMasses(t, time), n, d);
    MaxFromIsMax(0.0, Ratios(pool, OutputMasses(t, time)));
    AskedUnits(t, time, asked, d, n);
  }

  /** Inputs each n units' worth of what one unit takes at duty d, of every
      input kind, make run count ⌈n × d⌉ units. */
  lemma AskedUnits(t: Transform, time: real, asked: Pool, d: real, n: int)
    requires ValidTransform(t) && time > 0.0 && t.inputs != [] && d * n as real >= 0.0
    requires asked.Keys == ByName(t.inputs).Keys
    requires forall k :: k in asked ==> asked[k].mass == Times(DutyMass(time, d, ByName(t.inputs)[k].rate), n)
    ensures NonZero(InputMasses(t, time))
    ensures Units(asked, InputMasses(t, time)) == Ceil(d * n as real)
  {
    var per := InputMasses(t, time);
    InputMassesNonZero(t, time);
    forall k | k in asked ensures k in per && per[k] == time * ByName(t.inputs)[k].rate {
      InputMassOf(t, time, k);
    }
    RatiosOfScaledDuty(asked, per, ByName(t.inputs), time, d, n);
    assert t.inputs[0].name in ByName(t.inputs);
    ConstantMax(Ratios(asked, per), d * n as real);
  }

  /** A successful multiplexed run records the unit count it computed from its inputs. */
  lemma MuxRunCount(env: Env, temperature: Option<real>, pressure: Option<real>, t: Transform,
                    s: NodeState, time: real, pool: Pool)
    requires ValidTransform(t) && time > 0.0
    requires MuxRunSpec(env, temperature, pressure, t, s, time, Some(pool)).Ok?
    ensures NonZero(InputMasses(t, time))
    ensures MuxRunSpec(env, temperature, pressure, t, s, time, Some(pool)).value.node.numMocks ==
            Units(pool, InputMasses(t, time))
  {
    MuxRunScales(env, temperature, pressure, t, s, time, pool);
  }

  /** The backward and forward passes agree on the unit count: what a
      multiplexed request asks for, of a transform whose inputs are declared by
      name, makes run count as many units as the request recorded. */
  lemma MuxUnitsAgree(env: Env, temperature: Option<real>, pressure: Option<real>, t: Transform,
                      s: NodeState, time: real, pool: Pool, n: NodeState, asked: Pool)
    requires ValidTransform(t) && time > 0.0 && t.inputs != []
    requires forall i :: 0 <= i < |t.inputs| ==> t.inputs[i].name != ANY
    requires MuxRequestSpec(env, temperature, pressure, t, s, time, Some(pool)) == Ok(Step(n, Some(asked)))
    requires n.numMocks >= 1
    ensures NonZero(InputMasses(t, time)) && asked.Keys == ByName(t.inputs).Keys
    ensures Units(asked, InputMasses(t, time)) == n.numMocks
  {
    var share, unit, unitAsked := MuxUnitRequest(env, temperature, pressure, t, s, time, pool, n, asked);
    ShareAsksUnits(env, temperature, pressure, t, s.(numMocks := n.numMocks), time, pool, n.numMocks,
                   share, unit, unitAsked, asked);
  }

  /** ... so a run on those inputs, when it succeeds, mocks that many units. */
  lemma MuxRoundTrip(env: Env, temperature: Option<real>, pressure: Option<real>, t: Transform,
                     s: NodeState, time: real, pool: Pool, n: NodeState, asked: Pool, s2: NodeState)
    requires ValidTransform(t) && time > 0.0 && t.inputs != []
    requires forall i :: 0 <= i < |t.inputs| ==> t.inputs[i].name != ANY
    requires MuxRequestSpec(env, temperature, pressure, t, s, time, Some(pool)) == Ok(Step(n, Some(asked)))
    requires n.numMocks >= 1
    requires MuxRunSpec(env, temperature, pressure, t, s2, time, Some(asked)).Ok?
    ensures MuxRunSpec(env, temperature, pressure, t, s2, time, Some(asked)).value.node.numMocks == n.numMocks
  {
    MuxUnitsAgree(env, temperature, pressure, t, s, time, pool, n, asked);
    MuxRunCount(env, temperature, pressure, t, s2, time, asked);
  }

  // ------------------------------------------------------------ round trip: outputs

  /** Every resource MakeAll makes is settled. */
  lemma {:induction false} MakeAllSettled(registry: Registry, cs: seq<Component>, time: real, d: real,
                                          temperature: Option<real>, pressure: Option<real>, made: Pool)
    requires MakeAll(registry, cs, time, d, temperature, pressure) == Ok(made)
    ensures forall k :: k in made ==> Settled(made[k])
    decreases |cs|
  {
    if cs != [] {
      var last := cs[|cs| - 1];
      var before := MakeAll(registry, cs[..|cs| - 1], time, d, temperature, pressure).value;
      MakeAllSettled(registry, cs[..|cs| - 1], time, d, temperature, pressure, before);
      MadeSettled(registry, last.name, DutyMass(time, d, last.rate), temperature, pressure, last.phase);
    }
  }

  /** Scaling settled resources up to n units and sharing them out among n
      units again gives them back. */
  lemma ScaleUpDown(u: Pool, n: int, up: Pool)
    requires n >= 1 && ScaleUp(u, n) == Ok(up)
    requires forall k :: k in u ==> Settled(u[k])
    ensures ScaleDown(up, n) == Ok(u)
  {
    var f := MultiplyEntry(n);
    var g := DivideEntry(n);
    assert AllOk(u, f);
    TraverseSpecOk(u, f);
    forall k | k in up ensures g(k, up[k]) == Ok(u[k]) {
      assert f(k, u[k]) == WithMass(u[k], Times(u[k].mass, n));
      ShareOfTimes(u[k].mass, n);
      SetMassOverrides(u[k], Times(u[k].mass, n), u[k].mass);
    }
    TraverseSpecOk(up, g);
    assert TraverseSpec(up, g).value == u;
  }

  lemma ShareOfTimes(m: real, n: int)
    requires n >= 1
    ensures Share(Times(m, n), n) == m
  {
  }

  /** n times a unit's output covers a request whose 1/n share that unit's
      output covers, and matches it when the unit's output matches the share. */
  lemma TimesCovers(x: real, m: real, n: int)
    requires n >= 1 && x >= Share(m, n)
    ensures Times(x, n) >= m
    ensures x == Share(m, n) ==> Times(x, n) == m
  {
    ShareOfTimes(m / n as real, n);
    assert Times(Share(m, n), n) == m;
  }

  /** One unit of a successful multiplexed request, of a transform without a
      wildcard input: it answered a 1/n share at a positive duty cycle, asking
      for inputs made at that duty, and sharing out what the request asks for
      among n units gives exactly what that unit asked for. */
  lemma MuxAskedShare(env: Env, temperature: Option<real>, pressure: Option<real>, t: Transform,
                      s: NodeState, time: real, pool: Pool, n: NodeState, asked: Pool)
    returns (share: Pool, unit: NodeState, unitAsked: Pool)
    requires ValidTransform(t) && time > 0.0
    requires forall i :: 0 <= i < |t.inputs| ==> t.inputs[i].name != ANY
    requires MuxRequestSpec(env, temperature, pressure, t, s, time, Some(pool)) == Ok(Step(n, Some(asked)))
    requires n.numMocks >= 1
    ensures pool.Keys <= ByName(t.outputs).Keys
    ensures share.Keys == pool.Keys && forall k :: k in pool ==> share[k].mass == Share(pool[k].mass, n.numMocks)
    ensures RequestSpec(env, temperature, pressure, t, s.(numMocks := n.numMocks), time, Some(share)) == Ok(Step(unit, Some(unitAsked)))
    ensures unit.dutyCycle > 0.0
    ensures ScaleDown(asked, n.numMocks) == Ok(unitAsked)
  {
    share, unit, unitAsked := MuxUnitRequest(env, temperature, pressure, t, s, time, pool, n, asked);
    UnitAskedBack(env, temperature, pressure, t, s.(numMocks := n.numMocks), time, n.numMocks,
                  share, unit, unitAsked, asked);
    UnitDutyPositive(env, temperature, pressure, t, s.(numMocks := n.numMocks), time, pool, n.numMocks,
                     share, unit, unitAsked);
  }

  /** What a unit asked for, scaled up to n units and shared out again, is
      what it asked for. */
  lemma UnitAskedBack(env: Env, temperature: Option<real>, pressure: Option<real>, t: Transform,
                      s: NodeState, time: real, n: int, share: Pool, unit: NodeState,
                      unitAsked: Pool, asked: Pool)
    requires ValidTransform(t) && time > 0.0 && n >= 1
    requires forall i :: 0 <= i < |t.inputs| ==> t.inputs[i].name != ANY
    requires share.Keys <= ByName(t.outputs).Keys
    requires RequestSpec(env, temperature, pressure, t, s, time, Some(share)) == Ok(Step(unit, Some(unitAsked)))
    requires ScaleUp(unitAsked, n) == Ok(asked)
    ensures ScaleDown(asked, n) == Ok(unitAsked)
  {
    RequestStages(env, temperature, pressure, t, s, time, share);
    RequestAsks(env, temperature, pressure, t, s, time, share, unit, unitAsked);
    MakeAllSettled(env.registry, t.inputs, time, RequestDuty(t, time, share), temperature, pressure, unitAsked);
    ScaleUpDown(unitAsked, n, asked);
  }

  /** A unit answering a 1/n share of a request that needs n >= 1 units works
      at a positive duty cycle. */
  lemma UnitDutyPositive(env: Env, temperature: Option<real>, pressure: Option<real>, t: Transform,
                         s: NodeState, time: real, pool: Pool, n: int, share: Pool, unit: NodeState,
                         unitAsked: Pool)
    requires ValidTransform(t) && time > 0.0
    requires NonZero(OutputMasses(t, time)) && n == Units(pool, OutputMasses(t, time)) && n >= 1
    requires share.Keys <= ByName(t.outputs).Keys
    requires share.Keys == pool.Keys && forall k :: k in pool ==> share[k].mass == Share(pool[k].mass, n)
    requires RequestSpec(env, temperature, pressure, t, s, time, Some(share)) == Ok(Step(unit, Some(unitAsked)))
    ensures unit.dutyCycle > 0.0
  {
    RequestDutyOf(env, temperature, pressure, t, s, time, share, unit, unitAsked);
    SharedDutyPositive(pool, share, OutputMasses(t, time), n, unit.dutyCycle);
  }

  /** The largest ratio of a 1/n share is positive when the whole needs
      n >= 1 units. */
  lemma SharedDutyPositive(pool: Pool, share: Pool, per: map<string, real>, n: int, d: real)
    requires NonZero(per) && n == Units(pool, per) && n >= 1
    requires share.Keys == pool.Keys && forall k :: k in pool ==> share[k].mass == Share(pool[k].mass, n)
    requires IsMaxFrom(d, 0.0, Ratios(share, per))
    ensures d > 0.0
  {
    SharedDuty(pool, share, per, n, d);
    PositiveDuty(d, MaxFrom(0.0, Ratios(pool, per)), n);
  }

  lemma PositiveDuty(d: real, top: real, n: int)
    requires n >= 1 && n == Ceil(top) && d * n as real == top
    ensures d > 0.0
  {
  }

  /** A multiplexed run on inputs that share out among its n units as exactly
      `unitAsked` is one unit's run on `unitAsked`, scaled up by n. */
  lemma MuxRunOnShare(env: Env, temperature: Option<real>, pressure: Option<real>, t: Transform,
                      s: NodeState, time: real, asked: Pool, n: int, unitAsked: Pool)
    requires ValidTransform(t) && time > 0.0
    requires NonZero(InputMasses(t, time)) && Units(asked, InputMasses(t, time)) == n
    requires ScaleDown(asked, n) == Ok(unitAsked)
    requires MuxRunSpec(env, temperature, pressure, t, s, time, Some(asked)).Ok?
    ensures RunSpec(env, temperature, pressure, t, s.(numMocks := n), time, Some(unitAsked)).Ok?
    ensures var unit := RunSpec(env, temperature, pressure, t, s.(numMocks := n), time, Some(unitAsked)).value;
            var whole := MuxRunSpec(env, temperature, pressure, t, s, time, Some(asked)).value;
            whole.node.numMocks == n && unit.out.Some? && whole.out.Some? &&
            whole.out.value.Keys == unit.out.value.Keys &&
            forall k :: k in unit.out.value ==> whole.out.value[k].mass == Times(unit.out.value[k].mass, n)
  {
    MuxRunScales(env, temperature, pressure, t, s, time, asked);
  }

  /** The backward and forward passes agree on the outputs too. What a
      multiplexed request for kinds the transform makes asks for, of a
      transform whose inputs are condensed and declared by name, makes a run
      on exactly those inputs mock as many units as the request did, make
      every output, make every requested kind in at least the requested mass,
      and some requested kind in exactly the requested mass. */
  lemma MuxOutputsCover(env: Env, temperature: Option<real>, pressure: Option<real>, t: Transform,
                        s: NodeState, time: real, pool: Pool, n: NodeState, asked: Pool, s2: NodeState)
    requires ValidTransform(t) && time > 0.0 && t.inputs != []
    requires forall i :: 0 <= i < |t.inputs| ==> t.inputs[i].name != ANY && t.inputs[i].phase in {Solid, Liquid}
    requires MuxRequestSpec(env, temperature, pressure, t, s, time, Some(pool)) == Ok(Step(n, Some(asked)))
    requires n.numMocks >= 1
    requires MuxRunSpec(env, temperature, pressure, t, s2, time, Some(asked)).Ok?
    ensures var st := MuxRunSpec(env, temperature, pressure, t, s2, time, Some(asked)).value;
            st.node.numMocks == n.numMocks && st.out.Some? && st.out.value.Keys == ByName(t.outputs).Keys &&
            (forall k :: k in pool ==> st.out.value[k].mass >= pool[k].mass) &&
            exists k :: k in pool && st.out.value[k].mass == pool[k].mass
  {
    var N := n.numMocks;
    var share, unit, unitAsked := MuxAskedShare(env, temperature, pressure, t, s, time, pool, n, asked);
    MuxUnitsAgree(env, temperature, pressure, t, s, time, pool, n, asked);
    MuxRunOnShare(env, temperature, pressure, t, s2, time, asked, N, unitAsked);
    RoundTrip(env, temperature, pressure, t, s.(numMocks := N), time, share, unit, unitAsked, s2.(numMocks := N));
    var one := RunSpec(env, temperature, pressure, t, s2.(numMocks := N), time, Some(unitAsked)).value.out.value;
    var whole := MuxRunSpec(env, temperature, pressure, t, s2, time, Some(asked)).value.out.value;
    forall k | k in pool ensures whole[k].mass >= pool[k].mass {
      TimesCovers(one[k].mass, pool[k].mass, N);
    }
    var j :| j in share && one[j].mass == share[j].mass;
    TimesCovers(one[j].mass, pool[j].mass, N);
  }
}
