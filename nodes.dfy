/** What a node of the plant is (its role and fixed settings) and what it
    records between operations (energy demand, duty cycle, unit count, the
    deposit's output rate, the depot's request mass and holdings). */
module Nodes {
  import opened Outcomes
  import opened Resources
  import opened Transforms

  /** The node kinds the engine tells apart: a transform process, a process
      mocked as several parallel units, a supply and a store. */
  datatype Role =
    | Plain(transform: Transform)
    | Multiplexed(transform: Transform)
    | Deposit(fractions: map<string, real>, phase: Phase)
    | Depot(fractions: map<string, real>, phase: Phase)

  /** A node's fixed settings: name, role, whether it filters its inputs by its
      whitelist, and its target temperature and pressure (None: no target). */
  datatype Config = Config(name: string, role: Role, filter: bool,
                           temperature: Option<real>, pressure: Option<real>)

  /** Catalog data the engine relies on: component names unique and rates
      positive, mass fractions positive. */
  predicate ValidRole(role: Role) {
    match role
    case Plain(t) => ValidTransform(t)
    case Multiplexed(t) => ValidTransform(t)
    case Deposit(fractions, _) => forall k :: k in fractions ==> fractions[k] > 0.0
    case Depot(fractions, _) => forall k :: k in fractions ==> fractions[k] > 0.0
  }

  /** The kinds a node accepts from a shared producer (Whitelist): a process's
      transform inputs, a depot's composition; a deposit has none (None). */
  function Whitelist(c: Config): (w: Option<set<string>>)
    ensures (c.role.Plain? || c.role.Multiplexed?) ==> w == Some(ByName(c.role.transform.inputs).Keys)
    ensures c.role.Deposit? ==> w.None?
    ensures c.role.Depot? ==> w == Some(c.role.fractions.Keys)
  {
    match c.role
    case Plain(t) => Some(ByName(t.inputs).Keys)
    case Multiplexed(t) => Some(ByName(t.inputs).Keys)
    case Deposit(_, _) => None
    case Depot(fractions, _) => Some(fractions.Keys)
  }

  /** The kinds a node can be asked for by a shared consumer (RequestWhitelist):
      a process's transform outputs, a deposit's composition; a depot has none. */
  function RequestWhitelist(c: Config): (w: Option<set<string>>)
    ensures (c.role.Plain? || c.role.Multiplexed?) ==> w == Some(ByName(c.role.transform.outputs).Keys)
    ensures c.role.Deposit? ==> w == Some(c.role.fractions.Keys)
    ensures c.role.Depot? ==> w.None?
  {
    match c.role
    case Plain(t) => Some(ByName(t.outputs).Keys)
    case Multiplexed(t) => Some(ByName(t.outputs).Keys)
    case Deposit(fractions, _) => Some(fractions.Keys)
    case Depot(_, _) => None
  }

  /** setTransform: the whitelists are exactly the declared input and output
      kinds of the transform. */
  lemma WhitelistsAreTransformKinds(c: Config, k: string)
    requires c.role.Plain? || c.role.Multiplexed?
    ensures k in Whitelist(c).value <==> exists i :: 0 <= i < |c.role.transform.inputs| && c.role.transform.inputs[i].name == k
    ensures k in RequestWhitelist(c).value <==> exists i :: 0 <= i < |c.role.transform.outputs| && c.role.transform.outputs[i].name == k
  {
    ByNameKeys(c.role.transform.inputs);
    ByNameKeys(c.role.transform.outputs);
  }

  /** What a node records between operations. `contents` and `overage` are a
      depot's holdings after it ran (None before). */
  datatype NodeState = NodeState(
    energyDemand: real,
    dutyCycle: real,
    upstreamEnergyDemand: real,
    numMocks: int,
    outputRate: Option<real>,
    requestMass: Option<real>,
    contents: Option<Pool>,
    overage: Option<Pool>)

  /** A node's state after construction: no energy, no duty; a multiplexed
      process starts with one unit, a deposit without an output rate, a depot
      with the given request mass and no holdings. */
  function Initial(c: Config, requestMass: Option<real>): (s: NodeState)
    ensures s.energyDemand == 0.0 && s.dutyCycle == 0.0 && s.upstreamEnergyDemand == 0.0
    ensures s.numMocks == 1 && s.outputRate.None? && s.contents.None? && s.overage.None?
    ensures s.requestMass == (if c.role.Depot? then requestMass else None)
  {
    NodeState(0.0, 0.0, 0.0, 1, None, if c.role.Depot? then requestMass else None, None, None)
  }

  /** The outcome of one operation on a node: its new state and what it passes
      on (outputs downstream after run, requests upstream after request). */
  datatype Step = Step(node: NodeState, out: Option<Pool>)

  /** An implementation's return value and new state realise a specification
      outcome: both fail, or both succeed with the same value and state. */
  predicate Realizes(r: Result<Option<Pool>>, spec: Result<Step>, s: NodeState) {
    r.Ok? == spec.Ok? && (r.Ok? ==> r.value == spec.value.out && s == spec.value.node)
  }

  /** Process energy over a step: Δt × power × duty. */
  function WorkEnergy(time: real, power: real, duty: real): real {
    time * power * duty
  }
}
