/** The node objects of a plant: one operation per direction for each role,
    written as the loops of the source and proved against the specification
    functions of the role's module, and the Process object whose fields those
    operations update. */
module Processes {
  import opened Outcomes
  import opened Folds
  import opened Resources
  import opened Transforms
  import opened Conditioning
  import opened Pools
  import opened Nodes
  import opened Plain
  import opened MultiplexNode
  import opened DepositNode
  import opened DepotNode

  // ------------------------------------------------------------ dispatch

  /** run of a node, by role. */
  ghost function NodeRunSpec(env: Env, c: Config, s: NodeState, time: real, inputs: Option<Pool>): Result<Step>
    requires ValidRole(c.role) && time > 0.0
  {
    match c.role
    case Plain(t) => RunSpec(env, c.temperature, c.pressure, t, s, time, inputs)
    case Multiplexed(t) => MuxRunSpec(env, c.temperature, c.pressure, t, s, time, inputs)
    case Deposit(fractions, phase) => DepositRunSpec(env.registry, fractions, phase, c.temperature, c.pressure, s, time, inputs)
    case Depot(fractions, phase) => DepotRunSpec(env, true, fractions, phase, c.temperature, c.pressure, s, inputs)
  }

  /** request of a node, by role. */
  ghost function NodeRequestSpec(env: Env, c: Config, s: NodeState, time: real, req: Option<Pool>): Result<Step>
    requires ValidRole(c.role) && time > 0.0
  {
    match c.role
    case Plain(t) => RequestSpec(env, c.temperature, c.pressure, t, s, time, req)
    case Multiplexed(t) => MuxRequestSpec(env, c.temperature, c.pressure, t, s, time, req)
    case Deposit(fractions, _) => DepositRequestSpec(fractions, s, time, req)
    case Depot(fractions, phase) => DepotRequestSpec(env.registry, fractions, phase, c.temperature, c.pressure, s, req)
  }

  // ------------------------------------------------------------ transform process

  lemma EmitAgrees(node: NodeState, made: Result<Pool>, passed: Pool, left: Result<Pool>, spec: Result<Pool>)
    requires Agrees(left, spec)
    ensures Agrees(Emit(node, made, passed, left), Emit(node, made, passed, spec))
  {
  }

  lemma RespondAgrees(s: NodeState, up: Result<real>, spec: Result<real>, duty: real, energy: real,
                      made: Result<Pool>, passed: Pool)
    requires Agrees(up, spec)
    ensures Agrees(Respond(s, up, duty, energy, made, passed), Respond(s, spec, duty, energy, made, passed))
  {
  }

  /** Process.run: validate, condition, set aside what is not consumed, find the
      duty cycle, make the outputs, deduct the inputs. */
  method RunPlain(env: Env, temperature: Option<real>, pressure: Option<real>, t: Transform,
                  s: NodeState, time: real, inputs: Option<Pool>) returns (r: Result<Step>)
    requires ValidTransform(t) && time > 0.0
    ensures Agrees(r, RunSpec(env, temperature, pressure, t, s, time, inputs))
  {
    if inputs.None? {
      return Err(NoneOperand);
    }
    var bad := ValidateInputs(t.inputs, inputs.value);
    if bad.Some? {
      return Err(bad.value);
    }
    var cp := ConfigureInputs(env, temperature, pressure, inputs.value);
    if cp.Err? {
      return Err(cp.error);
    }
    r := ProducePlain(env.registry, temperature, pressure, t, s, time, cp.value);
  }

  /** run after validation and conditioning: set aside what is not consumed,
      find the duty cycle, make the outputs and deduct the inputs. */
  method ProducePlain(registry: Registry, temperature: Option<real>, pressure: Option<real>, t: Transform,
                      s: NodeState, time: real, cp: ConfiguredPool) returns (r: Result<Step>)
    requires ValidTransform(t) && time > 0.0
    ensures Agrees(r, Produce(registry, temperature, pressure, t, s, time, cp))
  {
    var used, passed := Partition(cp.pool, Consumed(t, cp.pool));
    var duty := RunDutyCycle(t, time, used);
    var made := MakeResources(registry, t.outputs, time, duty, temperature, pressure);
    var total := 0.0;
    if ANY in ByName(t.inputs) {
      total := AddUp(MassesOf(used));
    }
    var left := DeductInputs(t, time, duty, total, used);
    var node := Worked(s, cp.energy + WorkEnergy(time, t.power, duty), duty);
    r := Emit(node, made, passed, left);
    assert passed == cp.pool - used.Keys;
    EmitAgrees(node, made, passed, left, Deducted(t, time, duty, AnyTotal(t, used), used));
  }

  /** Reply at a duty cycle already computed. */
  lemma ReplyAt(env: Env, temperature: Option<real>, pressure: Option<real>, t: Transform,
                s: NodeState, time: real, pool: Pool, targeted: Pool, duty: real)
    requires ValidTransform(t) && time > 0.0 && duty == RequestDuty(t, time, targeted)
    ensures Reply(env, temperature, pressure, t, s, time, pool, targeted) ==
            Respond(s, Upstream(env, temperature, pressure, targeted), duty, WorkEnergy(time, t.power, duty),
                    MakeAll(env.registry, WithoutAny(t.inputs), time, duty, temperature, pressure),
                    pool - targeted.Keys)
  {
  }

  /** Process.request: check the request, set aside what is not made here,
      credit the conditioning upstream, find the duty cycle and ask for the
      inputs. */
  method RequestPlain(env: Env, temperature: Option<real>, pressure: Option<real>, t: Transform,
                      s: NodeState, time: real, req: Option<Pool>) returns (r: Result<Step>)
    requires ValidTransform(t) && time > 0.0
    ensures Agrees(r, RequestSpec(env, temperature, pressure, t, s, time, req))
  {
    if req.None? {
      return Ok(Step(s, None));
    }
    var checked := Traverse(req.value, CheckEntry(t, time));
    if checked.Err? {
      return Err(checked.error);
    }
    r := AnswerPlain(env, temperature, pressure, t, s, time, req.value);
  }

  /** request once every requested kind passed the check. */
  method AnswerPlain(env: Env, temperature: Option<real>, pressure: Option<real>, t: Transform,
                     s: NodeState, time: real, pool: Pool) returns (r: Result<Step>)
    requires ValidTransform(t) && time > 0.0
    ensures Agrees(r, Answer(env, temperature, pressure, t, s, time, pool))
  {
    var targeted, passed := Partition(pool, ByName(t.outputs).Keys);
    assert passed == pool - targeted.Keys;
    var up := UpstreamEnergy(env, temperature, pressure, targeted);
    FullDutyPositive(t, time);
    assert targeted.Keys <= OutputMasses(t, time).Keys;
    var duty := MaxRatio(0.0, targeted, OutputMasses(t, time));
    assert duty == Ok(RequestDuty(t, time, targeted));
    var d := duty.value;
    var made := MakeResources(env.registry, WithoutAny(t.inputs), time, d, temperature, pressure);
    var energy := WorkEnergy(time, t.power, d);
    r := Respond(s, up, d, energy, made, passed);
    RespondAgrees(s, up, Upstream(env, temperature, pressure, targeted), d, energy, made, passed);
    ReplyAt(env, temperature, pressure, t, s, time, pool, targeted, d);
  }

  // ------------------------------------------------------------ multiplexed process

  lemma MultiplyAgrees(unit: Result<Step>, spec: Result<Step>, n: int)
    requires Agrees(unit, spec)
    ensures Agrees(Multiply(unit, n), Multiply(spec, n))
  {
  }

  /** The scale-up after one unit's step. */
  method MultiplyStep(unit: Result<Step>, n: int) returns (r: Result<Step>)
    ensures Agrees(r, Multiply(unit, n))
  {
    if unit.Err? {
      return Err(unit.error);
    }
    if unit.value.out.None? {
      return Err(NoneOperand);
    }
    var up := Traverse(unit.value.out.value, MultiplyEntry(n));
    if up.Err? {
      return Err(up.error);
    }
    r := Ok(Step(unit.value.node.(energyDemand := Times(unit.value.node.energyDemand, n)), Some(up.value)));
  }

  /** Multiplex.run. */
  method RunMux(env: Env, temperature: Option<real>, pressure: Option<real>, t: Transform,
                s: NodeState, time: real, inputs: Option<Pool>) returns (r: Result<Step>)
    requires ValidTransform(t) && time > 0.0
    ensures Agrees(r, MuxRunSpec(env, temperature, pressure, t, s, time, inputs))
  {
    FullDutyPositive(t, time);
    if inputs.None? {
      return Err(NoneOperand);
    }
    var n := CountUnits(inputs.value, InputMasses(t, time));
    if n.Err? {
      return Err(n.error);
    }
    var share := Traverse(inputs.value, DivideEntry(n.value));
    if share.Err? {
      return Err(share.error);
    }
    var unit := RunPlain(env, temperature, pressure, t, s.(numMocks := n.value), time, Some(share.value));
    r := MultiplyStep(unit, n.value);
    MultiplyAgrees(unit, UnitRun(env, temperature, pressure, t, s, time, inputs.value, n.value), n.value);
  }

  /** Multiplex.request. */
  method RequestMux(env: Env, temperature: Option<real>, pressure: Option<real>, t: Transform,
                    s: NodeState, time: real, req: Option<Pool>) returns (r: Result<Step>)
    requires ValidTransform(t) && time > 0.0
    ensures Agrees(r, MuxRequestSpec(env, temperature, pressure, t, s, time, req))
  {
    FullDutyPositive(t, time);
    if req.None? {
      return Ok(Step(s, None));
    }
    var n := CountUnits(req.value, OutputMasses(t, time));
    if n.Err? {
      return Err(n.error);
    }
    var share := Traverse(req.value, DivideEntry(n.value));
    if share.Err? {
      return Err(share.error);
    }
    var unit := RequestPlain(env, temperature, pressure, t, s.(numMocks := n.value), time, Some(share.value));
    r := MultiplyStep(unit, n.value);
    MultiplyAgrees(unit, UnitRequest(env, temperature, pressure, t, s, time, req.value, n.value), n.value);
  }

  // ------------------------------------------------------------ deposit

  /** ResourceDeposit.run. */
  method RunDeposit(registry: Registry, fractions: map<string, real>, phase: Phase,
                    temperature: Option<real>, pressure: Option<real>,
                    s: NodeState, time: real, inputs: Option<Pool>) returns (r: Result<Step>)
    ensures Agrees(r, DepositRunSpec(registry, fractions, phase, temperature, pressure, s, time, inputs))
  {
    if s.outputRate.None? {
      return Err(NoOutputRate);
    }
    if inputs.Some? {
      return Err(UnexpectedInputs);
    }
    var out := Traverse(fractions, Emitted(registry, time, s.outputRate.value, temperature, pressure, phase));
    if out.Err? {
      return Err(out.error);
    }
    r := Ok(Step(s.(energyDemand := 0.0), Some(out.value)));
  }

  /** ResourceDeposit.request. */
  method RequestDeposit(fractions: map<string, real>, s: NodeState, time: real, req: Option<Pool>)
    returns (r: Result<Step>)
    requires PositiveFractions(fractions) && time > 0.0
    ensures Agrees(r, DepositRequestSpec(fractions, s, time, req))
  {
    if req.None? {
      return Err(NoneOperand);
    }
    var rate := RequestRate(fractions, time, req.value);
    if rate.Err? {
      return Err(rate.error);
    }
    r := Ok(Step(s.(outputRate := Some(rate.value), energyDemand := 0.0), None));
  }

  // ------------------------------------------------------------ depot

  /** ResourceDepot.request. */
  method RequestDepot(registry: Registry, fractions: map<string, real>, phase: Phase,
                      temperature: Option<real>, pressure: Option<real>,
                      s: NodeState, req: Option<Pool>) returns (r: Result<Step>)
    ensures Agrees(r, DepotRequestSpec(registry, fractions, phase, temperature, pressure, s, req))
  {
    if s.requestMass.None? {
      return Err(NoRequestMass);
    }
    if req.Some? {
      return Err(UnexpectedRequest);
    }
    var out := Traverse(fractions, Asked(registry, s.requestMass.value, temperature, pressure, phase));
    if out.Err? {
      return Err(out.error);
    }
    r := Ok(Step(s.(energyDemand := 0.0), Some(out.value)));
  }

  /** ResourceDepot.run. */
  method RunDepot(env: Env, capped: bool, fractions: map<string, real>, phase: Phase,
                  temperature: Option<real>, pressure: Option<real>,
                  s: NodeState, inputs: Option<Pool>) returns (r: Result<Step>)
    requires PositiveFractions(fractions)
    ensures Agrees(r, DepotRunSpec(env, capped, fractions, phase, temperature, pressure, s, inputs))
  {
    if s.requestMass.None? {
      return Err(NoRequestMass);
    }
    if inputs.None? {
      return Err(NoneOperand);
    }
    var present := Traverse(fractions, PresentEntry(inputs.value, phase));
    if present.Err? {
      return Err(present.error);
    }
    PresentMeans(fractions, inputs.value, phase);
    var cp := ConfigureInputs(env, temperature, pressure, inputs.value);
    if cp.Err? {
      return Err(cp.error);
    }
    var total := ComputeStoredTotal(capped, s.requestMass.value, cp.value.pool, fractions);
    var held := Traverse(cp.value.pool, StoreEntry(env.registry, fractions, phase, total));
    if held.Err? {
      return Err(held.error);
    }
    r := Ok(Step(s.(energyDemand := cp.value.energy, contents := Some(ContentsOf(held.value)),
                    overage := Some(OverageOf(held.value))), None));
  }

  // ------------------------------------------------------------ any node

  /** run of a node, by role. */
  method NodeRun(env: Env, c: Config, s: NodeState, time: real, inputs: Option<Pool>) returns (r: Result<Step>)
    requires ValidRole(c.role) && time > 0.0
    ensures Agrees(r, NodeRunSpec(env, c, s, time, inputs))
  {
    match c.role
    case Plain(t) =>
      r := RunPlain(env, c.temperature, c.pressure, t, s, time, inputs);
    case Multiplexed(t) =>
      r := RunMux(env, c.temperature, c.pressure, t, s, time, inputs);
    case Deposit(fractions, phase) =>
      r := RunDeposit(env.registry, fractions, phase, c.temperature, c.pressure, s, time, inputs);
    case Depot(fractions, phase) =>
      r := RunDepot(env, true, fractions, phase, c.temperature, c.pressure, s, inputs);
  }

  /** request of a node, by role. */
  method NodeRequest(env: Env, c: Config, s: NodeState, time: real, req: Option<Pool>) returns (r: Result<Step>)
    requires ValidRole(c.role) && time > 0.0
    ensures Agrees(r, NodeRequestSpec(env, c, s, time, req))
  {
    match c.role
    case Plain(t) =>
      r := RequestPlain(env, c.temperature, c.pressure, t, s, time, req);
    case Multiplexed(t) =>
      r := RequestMux(env, c.temperature, c.pressure, t, s, time, req);
    case Deposit(fractions, _) =>
      r := RequestDeposit(fractions, s, time, req);
    case Depot(fractions, phase) =>
      r := RequestDepot(env.registry, fractions, phase, c.temperature, c.pressure, s, req);
  }

  // ------------------------------------------------------------ the object

  /** A node object: its fixed settings and the fields its operations update. */
  class Process {
    const config: Config
    var energyDemand: real
    var dutyCycle: real
    var upstreamEnergyDemand: real
    var numMocks: int
    var outputRate: Option<real>
    var requestMass: Option<real>
    var contents: Option<Pool>
    var overage: Option<Pool>

    function State(): NodeState
      reads this
    {
      NodeState(energyDemand, dutyCycle, upstreamEnergyDemand, numMocks, outputRate, requestMass, contents, overage)
    }

    /** A new node: no energy or duty yet; a depot may be given its request mass. */
    constructor (c: Config, mass: Option<real>)
      ensures config == c && State() == Initial(c, mass)
    {
      config := c;
      energyDemand, dutyCycle, upstreamEnergyDemand := 0.0, 0.0, 0.0;
      numMocks := 1;
      outputRate := None;
      requestMass := if c.role.Depot? then mass else None;
      contents, overage := None, None;
    }

    /** Assign every field from a node record. */
    method SetState(s: NodeState)
      modifies this
      ensures State() == s
    {
      energyDemand, dutyCycle, upstreamEnergyDemand := s.energyDemand, s.dutyCycle, s.upstreamEnergyDemand;
      numMocks, outputRate, requestMass := s.numMocks, s.outputRate, s.requestMass;
      contents, overage := s.contents, s.overage;
    }

    /** run(delta_time, input_resources): the outputs (None for a depot), with
        the fields updated as the role's run specifies. */
    method Run(env: Env, time: real, inputs: Option<Pool>) returns (r: Result<Option<Pool>>)
      requires ValidRole(config.role) && time > 0.0
      modifies this
      ensures Realizes(r, NodeRunSpec(env, config, old(State()), time, inputs), State())
    {
      var st := NodeRun(env, config, State(), time, inputs);
      if st.Err? {
        return Err(st.error);
      }
      SetState(st.value.node);
      r := Ok(st.value.out);
    }

    /** request(delta_time, request_resources): the requests passed further up
        (None from a deposit, or for no request), with the fields updated as the
        role's request specifies. */
    method Request(env: Env, time: real, req: Option<Pool>) returns (r: Result<Option<Pool>>)
      requires ValidRole(config.role) && time > 0.0
      modifies this
      ensures Realizes(r, NodeRequestSpec(env, config, old(State()), time, req), State())
    {
      var st := NodeRequest(env, config, State(), time, req);
      if st.Err? {
        return Err(st.error);
      }
      SetState(st.value.node);
      r := Ok(st.value.out);
    }
  }
}
