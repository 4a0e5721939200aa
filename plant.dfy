/** The plant object: construction links the network; setup() resets the
    boundary nodes, hands the depots their requested masses and runs the
    backward pass, then checks that every deposit was asked for something;
    run() runs the forward pass and notes the overages left in the plant.
    Energies become powers by dividing by the time step. */
module PlantModel {
  import opened Outcomes
  import opened Folds
  import opened Resources
  import opened Conditioning
  import opened Nodes
  import opened Linking
  import opened Flow
  import opened Sweeps
  import SetupPass
  import RunPass

  // ------------------------------------------------------------ setup's preparation

  /** setup's deposit loop: every deposit loses its output rate. */
  function Cleared(g: Net, nodes: map<string, NodeState>): map<string, NodeState> {
    map p | p in nodes :: if p in g.configs && g.configs[p].role.Deposit? then nodes[p].(outputRate := None) else nodes[p]
  }

  /** setup's request loop on success: each requested depot gets its mass. */
  function Assigned(nodes: map<string, NodeState>, requested: map<string, real>): map<string, NodeState> {
    map p | p in nodes :: if p in requested then nodes[p].(requestMass := Some(requested[p])) else nodes[p]
  }

  /** A name that is not a depot of g. */
  predicate NotDepot(g: Net, d: string) {
    d !in g.configs || !g.configs[d].role.Depot?
  }

  /** The records setup hands to its backward pass: refused when a requested
      name is not a depot; otherwise deposits have no output rate and the
      requested depots carry their masses. */
  function Prepared(g: Net, nodes: map<string, NodeState>, requested: map<string, real>): (r: Result<map<string, NodeState>>)
    ensures r.Err? <==> exists d :: d in requested && NotDepot(g, d)
    ensures r.Err? ==> r.error == UnknownDepot
    ensures r.Ok? ==> r.value.Keys == nodes.Keys
  {
    if exists d :: d in requested && NotDepot(g, d) then Err(UnknownDepot)
    else Ok(Assigned(Cleared(g, nodes), requested))
  }

  /** What preparing changes: a deposit's output rate and a requested depot's
      request mass, nothing else. */
  lemma PreparedMeans(g: Net, nodes: map<string, NodeState>, requested: map<string, real>, p: string)
    requires Prepared(g, nodes, requested).Ok? && p in nodes
    ensures var n := Prepared(g, nodes, requested).value[p];
            (p in g.configs && g.configs[p].role.Deposit? ==> n.outputRate.None?) &&
            (p in requested ==> p in g.configs && g.configs[p].role.Depot? && n.requestMass == Some(requested[p])) &&
            n.energyDemand == nodes[p].energyDemand && n.dutyCycle == nodes[p].dutyCycle &&
            n.upstreamEnergyDemand == nodes[p].upstreamEnergyDemand && n.numMocks == nodes[p].numMocks &&
            n.contents == nodes[p].contents && n.overage == nodes[p].overage &&
            (!(p in g.configs && g.configs[p].role.Deposit?) ==> n.outputRate == nodes[p].outputRate) &&
            (p !in requested ==> n.requestMass == nodes[p].requestMass)
  {
  }

  /** Two records over the same names with the same entries are the same. */
  lemma SameRecords(a: map<string, NodeState>, b: map<string, NodeState>)
    requires a.Keys == b.Keys && forall p :: p in a ==> a[p] == b[p]
    ensures a == b
  {
  }

  /** setup's loops before the pass (plant_model.py:90-96): clear the
      deposits' output rates, then hand each requested depot its mass,
      refusing a name that is not a depot. */
  method Prepare(g: Net, nodes: map<string, NodeState>, requested: map<string, real>)
    returns (r: Result<map<string, NodeState>>)
    ensures r == Prepared(g, nodes, requested)
  {
    var cleared := ClearDeposits(g, nodes);
    r := AssignMasses(g, cleared, requested);
  }

  /** The deposit loop (plant_model.py:90-91). */
  method ClearDeposits(g: Net, nodes: map<string, NodeState>) returns (cur: map<string, NodeState>)
    ensures cur == Cleared(g, nodes)
  {
    cur := nodes;
    var rest := nodes.Keys;
    while rest != {}
      invariant rest <= nodes.Keys && cur.Keys == nodes.Keys
      invariant forall p :: p in cur ==> cur[p] == if p in rest then nodes[p] else Cleared(g, nodes)[p]
      decreases rest
    {
      var p :| p in rest;
      if p in g.configs && g.configs[p].role.Deposit? {
        cur := cur[p := cur[p].(outputRate := None)];
      }
      rest := rest - {p};
    }
    SameRecords(cur, Cleared(g, nodes));
  }

  /** The request loop (plant_model.py:93-96). */
  method AssignMasses(g: Net, nodes: map<string, NodeState>, requested: map<string, real>)
    returns (r: Result<map<string, NodeState>>)
    ensures r == if exists d :: d in requested && NotDepot(g, d) then Err(UnknownDepot) else Ok(Assigned(nodes, requested))
  {
    var cur := nodes;
    var rest := requested.Keys;
    while rest != {}
      invariant rest <= requested.Keys && cur.Keys == nodes.Keys
      invariant forall d :: d in requested && d !in rest ==> !NotDepot(g, d)
      invariant forall p :: p in cur ==> cur[p] == if p in requested && p !in rest then Assigned(nodes, requested)[p] else nodes[p]
      decreases rest
    {
      var d :| d in rest;
      if NotDepot(g, d) {
        return Err(UnknownDepot);
      }
      if d in cur {
        cur := cur[d := cur[d].(requestMass := Some(requested[d]))];
      }
      rest := rest - {d};
    }
    SameRecords(cur, Assigned(nodes, requested));
    r := Ok(cur);
  }

  // ------------------------------------------------------------ setup's closing check

  /** The first deposit of `ps` still without an output rate. */
  function Unrequested(g: Net, nodes: map<string, NodeState>, ps: seq<string>): (r: Option<string>)
    requires forall p :: p in ps ==> p in g.configs && p in nodes
    ensures r.None? <==> forall p :: p in ps && g.configs[p].role.Deposit? ==> nodes[p].outputRate.Some?
    ensures r.Some? ==> r.value in ps && g.configs[r.value].role.Deposit? && nodes[r.value].outputRate.None?
  {
    if ps == [] then None
    else if g.configs[ps[0]].role.Deposit? && nodes[ps[0]].outputRate.None? then Some(ps[0])
    else
      assert forall p :: p in ps[1..] ==> p in ps;
      Unrequested(g, nodes, ps[1..])
  }

  /** The deposit named is the first one in list order without an output rate. */
  lemma {:induction false} UnrequestedFirst(g: Net, nodes: map<string, NodeState>, ps: seq<string>)
    requires forall p :: p in ps ==> p in g.configs && p in nodes
    requires Unrequested(g, nodes, ps).Some?
    ensures exists i :: 0 <= i < |ps| && ps[i] == Unrequested(g, nodes, ps).value &&
              forall j :: 0 <= j < i ==> !(g.configs[ps[j]].role.Deposit? && nodes[ps[j]].outputRate.None?)
  {
    if !(g.configs[ps[0]].role.Deposit? && nodes[ps[0]].outputRate.None?) {
      assert forall p :: p in ps[1..] ==> p in ps;
      UnrequestedFirst(g, nodes, ps[1..]);
      var i :| 0 <= i < |ps[1..]| && ps[1..][i] == Unrequested(g, nodes, ps[1..]).value &&
               forall j :: 0 <= j < i ==> !(g.configs[ps[1..][j]].role.Deposit? && nodes[ps[1..][j]].outputRate.None?);
      assert ps[i + 1] == ps[1..][i];
      assert forall j :: 1 <= j < i + 1 ==> ps[j] == ps[1..][j - 1];
    } else {
      assert ps[0] == Unrequested(g, nodes, ps).value;
    }
  }

  /** setup's last loop (plant_model.py:149-151): the deposits in definition
      order, stopping at the first without an output rate. */
  method FirstUnrequested(g: Net, nodes: map<string, NodeState>) returns (r: Option<string>)
    requires forall p :: p in g.order ==> p in g.configs && p in nodes
    ensures r == Unrequested(g, nodes, g.order)
  {
    var i := 0;
    while i < |g.order|
      invariant 0 <= i <= |g.order|
      invariant Unrequested(g, nodes, g.order) == Unrequested(g, nodes, g.order[i..])
    {
      var p := g.order[i];
      assert g.order[i..][0] == p && g.order[i..][1..] == g.order[i + 1..];
      if g.configs[p].role.Deposit? && nodes[p].outputRate.None? {
        return Some(p);
      }
      i := i + 1;
    }
    assert g.order[i..] == [];
    r := None;
  }

  // ------------------------------------------------------------ the two operations, as values

  /** setup(requested_outputs, delta_t) on a network with the given records:
      its preparation, the backward pass and the deposit check. */
  ghost function SetupSpec(env: Env, g: Net, nodes: map<string, NodeState>, requests: Requests,
                           energy: map<string, real>, requested: map<string, real>, dt: real): Result<SetupPass.Backward>
    requires Listing(g.order, g.from) && Shaped(g) && nodes.Keys == g.configs.Keys
  {
    match Prepared(g, nodes, requested)
    case Err(e) => Err(e)
    case Ok(ns) =>
      Checked(g, SetupPass.PassSpec(SetupPass.Asker(env, g, dt), g, SetupPass.Backward(ns, requests, energy, map[], 0.0),
                                    {}, g.order, true))
  }

  /** setup's closing check on the outcome of its backward pass. */
  ghost function Checked(g: Net, pass: Result<SetupPass.Backward>): Result<SetupPass.Backward>
    requires Listing(g.order, g.from) && Shaped(g)
    requires pass.Ok? ==> pass.value.nodes.Keys == g.configs.Keys
  {
    match pass
    case Err(e) => Err(e)
    case Ok(b) =>
      match Unrequested(g, b.nodes, g.order)
      case Some(d) => Err(NoDepositRequest(d))
      case None => Ok(b)
  }

  /** run(delta_t) on a network with the given records: the forward pass from
      empty buffers, then the overages. */
  ghost function RunSpec(env: Env, g: Net, nodes: map<string, NodeState>, dt: real)
    : Result<(RunPass.Forward, map<string, Option<Pool>>)>
    requires Listing(g.order, g.from) && Shaped(g) && nodes.Keys == g.configs.Keys
  {
    match RunPass.PassSpec(RunPass.Runner(env, g, dt), g, RunPass.Forward(nodes, map[], map[], map[], map[], map[], 0.0),
                           {}, g.order, true)
    case Err(e) => Err(e)
    case Ok(f) =>
      match RunPass.Overages(g, f, g.order)
      case Err(e) => Err(e)
      case Ok(o) => Ok((f, o))
  }

  // ------------------------------------------------------------ what setup and run achieve

  /** A successful setup: every requested name is a depot; every node was
      asked, after its successors, with their merged requests, starting from
      the prepared records; exactly the deposits keep a baseline request and
      each got an output rate; the projected energy is the energy all nodes
      demand. */
  lemma SetupSucceeds(env: Env, g: Net, nodes: map<string, NodeState>, requests: Requests,
                      energy: map<string, real>, requested: map<string, real>, dt: real, b: SetupPass.Backward)
    requires Listing(g.order, g.from) && Shaped(g) && ToNodes(g) && nodes.Keys == g.configs.Keys
    requires SetupSpec(env, g, nodes, requests, energy, requested, dt) == Ok(b)
    ensures forall d :: d in requested ==> !NotDepot(g, d)
    ensures Prepared(g, nodes, requested).Ok? && b.nodes.Keys == g.configs.Keys
    ensures forall p :: p in g.configs ==>
              SetupPass.Answered(SetupPass.Asker(env, g, dt), g, Prepared(g, nodes, requested).value, b, p)
    ensures forall p :: p in g.configs && g.configs[p].role.Deposit? ==> b.nodes[p].outputRate.Some?
    ensures b.projected == Sum(Demands(b.nodes, g.configs.Keys))
  {
    var s := SetupPass.Backward(Prepared(g, nodes, requested).value, requests, energy, map[], 0.0);
    var stuck, next, at, culprit := SetupPass.SetupMeans(SetupPass.Asker(env, g, dt), g, s);
    assert SetupPass.PassSpec(SetupPass.Asker(env, g, dt), g, s, {}, g.order, true) == Ok(b);
  }

  /** A setup whose backward pass stops fails with the pass's error: at a
      set of nodes each waiting for another, or at a node whose request
      failed once its successors were answered. */
  lemma SetupStops(env: Env, g: Net, nodes: map<string, NodeState>, requests: Requests,
                   energy: map<string, real>, requested: map<string, real>, dt: real,
                   ns: map<string, NodeState>, e: Error)
    returns (stuck: set<string>, next: map<string, string>, at: SetupPass.Backward, culprit: string)
    requires Listing(g.order, g.from) && Shaped(g) && ToNodes(g) && nodes.Keys == g.configs.Keys
    requires Prepared(g, nodes, requested) == Ok(ns)
    requires SetupPass.PassSpec(SetupPass.Asker(env, g, dt), g, SetupPass.Backward(ns, requests, energy, map[], 0.0),
                                {}, g.order, true) == Err(e)
    ensures SetupSpec(env, g, nodes, requests, energy, requested, dt) == Err(e)
    ensures (e == DeadEnd && stuck != {} && Closed(g.to, stuck, next)) ||
            SetupPass.Refused(SetupPass.Asker(env, g, dt), g, ns, at, culprit)
  {
    stuck, next, at, culprit := SetupPass.SetupMeans(SetupPass.Asker(env, g, dt), g,
                                                     SetupPass.Backward(ns, requests, energy, map[], 0.0));
  }

  /** A setup whose backward pass completes fails only at a deposit left
      without an output rate, the first such in definition order. */
  lemma SetupUnasked(env: Env, g: Net, nodes: map<string, NodeState>, requests: Requests,
                     energy: map<string, real>, requested: map<string, real>, dt: real,
                     ns: map<string, NodeState>, b: SetupPass.Backward, e: Error)
    requires Listing(g.order, g.from) && Shaped(g) && nodes.Keys == g.configs.Keys
    requires Prepared(g, nodes, requested) == Ok(ns)
    requires SetupPass.PassSpec(SetupPass.Asker(env, g, dt), g, SetupPass.Backward(ns, requests, energy, map[], 0.0),
                                {}, g.order, true) == Ok(b)
    requires SetupSpec(env, g, nodes, requests, energy, requested, dt) == Err(e)
    ensures e.NoDepositRequest? && e.deposit in g.order && g.configs[e.deposit].role.Deposit?
    ensures b.nodes[e.deposit].outputRate.None?
    ensures exists i :: 0 <= i < |g.order| && g.order[i] == e.deposit &&
              forall j :: 0 <= j < i ==> !(g.configs[g.order[j]].role.Deposit? && b.nodes[g.order[j]].outputRate.None?)
  {
    UnrequestedFirst(g, b.nodes, g.order);
  }

  /** A successful run: every node ran, after its From nodes, on the inputs it
      collected from them; the actual energy is the energy all nodes used; the
      overages are those of the completed pass (OveragesOf). */
  lemma RunSucceeds(env: Env, g: Net, nodes: map<string, NodeState>, dt: real,
                    f: RunPass.Forward, o: map<string, Option<Pool>>)
    requires Listing(g.order, g.from) && Shaped(g) && FromNodes(g) && nodes.Keys == g.configs.Keys
    requires RunSpec(env, g, nodes, dt) == Ok((f, o))
    ensures f.nodes.Keys == g.configs.Keys && f.buffers.Keys == g.configs.Keys
    ensures forall p :: p in g.configs ==> RunPass.Ran(RunPass.Runner(env, g, dt), g, nodes, f, p)
    ensures f.actual == Sum(Demands(f.nodes, g.configs.Keys))
    ensures RunPass.Overages(g, f, g.order) == Ok(o)
  {
    var s := RunPass.Forward(nodes, map[], map[], map[], map[], map[], 0.0);
    assert RunPass.PassSpec(RunPass.Runner(env, g, dt), g, s, {}, g.order, true) == Ok(f);
    PassSucceeds(RunPass.Runner(env, g, dt), g, s, f);
  }

  /** What a completed forward pass from the records before run leaves. */
  lemma PassSucceeds(act: RunPass.Act, g: Net, s: RunPass.Forward, f: RunPass.Forward)
    requires Listing(g.order, g.from) && Shaped(g) && FromNodes(g)
    requires s.nodes.Keys == g.configs.Keys && s.inputs == map[] && s.buffers == map[] && s.consumed == map[] &&
             s.produced == map[] && s.actual == 0.0
    requires RunPass.PassSpec(act, g, s, {}, g.order, true) == Ok(f)
    ensures f.nodes.Keys == g.configs.Keys && f.buffers.Keys == g.configs.Keys
    ensures forall p :: p in g.configs ==> RunPass.Ran(act, g, s.nodes, f, p)
    ensures f.actual == Sum(Demands(f.nodes, g.configs.Keys))
  {
    var stuck, next, at, culprit := RunPass.RunMeans(act, g, s);
  }

  /** The overages of a completed pass, node by node: every depot's Overage
      and the non-empty leftover buffer of every other node but a deposit. */
  lemma OveragesOf(g: Net, f: RunPass.Forward, o: map<string, Option<Pool>>)
    requires Listing(g.order, g.from) && Shaped(g) && f.nodes.Keys == g.configs.Keys
    requires RunPass.Overages(g, f, g.order) == Ok(o)
    ensures forall p :: p in o <==>
              p in g.configs && (g.configs[p].role.Depot? ||
                                 (!g.configs[p].role.Deposit? && p in f.buffers && f.buffers[p].Some? && |f.buffers[p].value| > 0))
    ensures forall p :: p in o ==> o[p] == if g.configs[p].role.Depot? then f.nodes[p].overage else f.buffers[p]
  {
    forall p ensures p in o <==> p in g.configs && (g.configs[p].role.Depot? ||
                                 (!g.configs[p].role.Deposit? && p in f.buffers && f.buffers[p].Some? && |f.buffers[p].value| > 0))
             ensures p in o ==> o[p] == if g.configs[p].role.Depot? then f.nodes[p].overage else f.buffers[p]
    {
      RunPass.OveragesHold(g, f, g.order, p);
    }
  }

  /** A failed run: a forward pass that stopped, at a sweep that could run
      nothing, or at a node that failed once its From nodes had run; or a node,
      neither depot nor deposit, left without an output buffer. */
  lemma RunFails(env: Env, g: Net, nodes: map<string, NodeState>, dt: real, e: Error)
    returns (pass: Result<RunPass.Forward>, stuck: set<string>, next: map<string, string>,
             at: RunPass.Forward, culprit: string)
    requires Listing(g.order, g.from) && Shaped(g) && FromNodes(g) && nodes.Keys == g.configs.Keys
    requires RunSpec(env, g, nodes, dt) == Err(e)
    ensures pass == RunPass.PassSpec(RunPass.Runner(env, g, dt), g, RunPass.Forward(nodes, map[], map[], map[], map[], map[], 0.0),
                                     {}, g.order, true)
    ensures pass.Err? ==>
              e == pass.error &&
              ((e == DeadEnd && RunPass.DeadEndMeans(g, stuck, next)) ||
               RunPass.Refused(RunPass.Runner(env, g, dt), g, nodes, at, culprit))
    ensures pass.Ok? ==>
              exists p :: p in g.configs && !g.configs[p].role.Depot? && !g.configs[p].role.Deposit? &&
                          !(p in pass.value.buffers && pass.value.buffers[p].Some?)
  {
    var s := RunPass.Forward(nodes, map[], map[], map[], map[], map[], 0.0);
    pass := RunPass.PassSpec(RunPass.Runner(env, g, dt), g, s, {}, g.order, true);
    stuck, next, at, culprit := RunPass.RunMeans(RunPass.Runner(env, g, dt), g, s);
    if pass.Ok? {
      RunPass.OveragesFail(g, pass.value, g.order);
    }
  }

  // ------------------------------------------------------------ the plant

  /** ISRUPlant: the linked network, each node's record, and what the last
      setup() and run() noted. */
  class Plant {
    const net: Net
    var nodes: map<string, NodeState>
    // setup(): Resource_Request, Energy_Request, baseline_requests
    var requests: Requests
    var energy: map<string, real>
    var baseline: map<string, Option<Pool>>
    var projectedEnergy: real
    var projectedPower: real
    // run(): Output_Resources, Energy_Used, input_consumed, output_produced, overages
    var buffers: Buffers
    var used: map<string, real>
    var consumed: map<string, Option<Pool>>
    var produced: map<string, Option<Pool>>
    var overages: map<string, Option<Pool>>
    var actualEnergy: real
    var actualPower: real

    /** A linked network of valid nodes, with a record for every node. */
    ghost predicate Valid()
      reads this
    {
      WellFormed(net) && nodes.Keys == net.configs.Keys
    }

    /** What setup() leaves behind. */
    function SetupState(): SetupPass.Backward
      reads this
    {
      SetupPass.Backward(nodes, requests, energy, baseline, projectedEnergy)
    }

    /** The fields hold what run() leaves behind: the records of pass f
      (all but the inputs each node was handed, which run does not keep) and
      the overages o. */
    predicate RunState(f: RunPass.Forward, o: map<string, Option<Pool>>)
      reads this
    {
      nodes == f.nodes && buffers == f.buffers && used == f.used && consumed == f.consumed &&
      produced == f.produced && actualEnergy == f.actual && overages == o
    }

    /** A plant over a linked network, with nothing projected or produced yet. */
    constructor (g: Net, states: map<string, NodeState>)
      requires WellFormed(g) && states.Keys == g.configs.Keys
      ensures Valid() && net == g && nodes == states
      ensures requests == map[] && energy == map[] && baseline == map[]
      ensures buffers == map[] && used == map[] && consumed == map[] && produced == map[] && overages == map[]
      ensures projectedEnergy == 0.0 && actualEnergy == 0.0
    {
      net, nodes := g, states;
      requests, energy, baseline := map[], map[], map[];
      projectedEnergy, projectedPower := 0.0, 0.0;
      buffers, used, consumed, produced, overages := map[], map[], map[], map[], map[];
      actualEnergy, actualPower := 0.0, 0.0;
    }

    /** setup(requested_outputs, delta_t) (plant_model.py:84-154). */
    method Setup(env: Env, requested: map<string, real>, dt: real) returns (r: Result<()>)
      requires Valid() && dt > 0.0
      modifies this
      ensures Valid()
      ensures r.Ok? <==> SetupSpec(env, net, old(nodes), old(requests), old(energy), requested, dt).Ok?
      ensures r.Ok? ==> SetupState() == SetupSpec(env, net, old(nodes), old(requests), old(energy), requested, dt).value &&
                        projectedPower == projectedEnergy / dt
      ensures unchanged(this`buffers, this`used, this`consumed, this`produced, this`overages,
                        this`actualEnergy, this`actualPower)
    {
      var b := SetupOn(env, net, nodes, requests, energy, requested, dt);
      if b.Err? {
        ClearProjection();
        return Err(b.error);
      }
      Project(b.value, dt);
      r := Ok(());
    }

    /** setup's reset of the projection, all that stays of a failed setup. */
    method ClearProjection()
      modifies this`baseline, this`projectedEnergy
      ensures nodes == old(nodes) && requests == old(requests) && energy == old(energy)
      ensures projectedEnergy == 0.0 && baseline == map[]
      ensures unchanged(this`buffers, this`used, this`consumed, this`produced, this`overages,
                        this`actualEnergy, this`actualPower)
    {
      projectedEnergy, baseline := 0.0, map[];
    }

    /** The records of a completed setup, and the projected power. */
    method Project(b: SetupPass.Backward, dt: real)
      requires dt > 0.0
      modifies this`nodes, this`requests, this`energy, this`baseline, this`projectedEnergy, this`projectedPower
      ensures SetupState() == b && projectedPower == b.projected / dt
      ensures unchanged(this`buffers, this`used, this`consumed, this`produced, this`overages,
                        this`actualEnergy, this`actualPower)
    {
      nodes, requests, energy, baseline, projectedEnergy := b.nodes, b.requests, b.energy, b.baseline, b.projected;
      projectedPower := projectedEnergy / dt;
    }

    /** run(delta_t) (plant_model.py:157-254). */
    method Run(env: Env, dt: real) returns (r: Result<()>)
      requires Valid() && dt > 0.0
      modifies this
      ensures Valid()
      ensures r.Ok? <==> RunSpec(env, net, old(nodes), dt).Ok?
      ensures r.Ok? ==> RunState(RunSpec(env, net, old(nodes), dt).value.0, RunSpec(env, net, old(nodes), dt).value.1) &&
                        actualPower == actualEnergy / dt
      ensures unchanged(this`requests, this`energy, this`baseline, this`projectedEnergy, this`projectedPower)
    {
      var fo := RunOn(env, net, nodes, dt);
      if fo.Err? {
        ClearMeasure();
        return Err(fo.error);
      }
      RecordFlows(fo.value.0);
      Measure(fo.value.0, fo.value.1, dt);
      r := Ok(());
    }

    /** run's reset of the measurement, all that stays of a failed run. */
    method ClearMeasure()
      modifies this`consumed, this`produced, this`overages, this`actualEnergy
      ensures nodes == old(nodes) && buffers == old(buffers) && used == old(used) &&
              actualPower == old(actualPower)
      ensures actualEnergy == 0.0 && consumed == map[] && produced == map[] && overages == map[]
      ensures unchanged(this`requests, this`energy, this`baseline, this`projectedEnergy, this`projectedPower)
    {
      actualEnergy, consumed, produced, overages := 0.0, map[], map[], map[];
    }

    /** The node states, buffers and use of a completed run. */
    method RecordFlows(f: RunPass.Forward)
      modifies this`nodes, this`buffers, this`used
      ensures nodes == f.nodes && buffers == f.buffers && used == f.used
      ensures unchanged(this`requests, this`energy, this`baseline, this`projectedEnergy, this`projectedPower)
    {
      nodes, buffers, used := f.nodes, f.buffers, f.used;
    }

    /** The totals of a completed run, its overages and the actual power. */
    method Measure(f: RunPass.Forward, o: map<string, Option<Pool>>, dt: real)
      requires dt > 0.0 && nodes == f.nodes && buffers == f.buffers && used == f.used
      modifies this`consumed, this`produced, this`overages, this`actualEnergy, this`actualPower
      ensures RunState(f, o) && actualPower == f.actual / dt
      ensures unchanged(this`requests, this`energy, this`baseline, this`projectedEnergy, this`projectedPower)
    {
      consumed, produced, overages, actualEnergy := f.consumed, f.produced, o, f.actual;
      actualPower := actualEnergy / dt;
    }
  }

  /** setup's work on the records: preparation, the backward pass, the
      deposit check. */
  method SetupOn(env: Env, g: Net, nodes: map<string, NodeState>, requests: Requests,
                 energy: map<string, real>, requested: map<string, real>, dt: real)
    returns (r: Result<SetupPass.Backward>)
    requires Listing(g.order, g.from) && Shaped(g) && nodes.Keys == g.configs.Keys && dt > 0.0
    ensures Agrees(r, SetupSpec(env, g, nodes, requests, energy, requested, dt))
    ensures r.Ok? ==> r.value.nodes.Keys == g.configs.Keys
  {
    var prepared := Prepare(g, nodes, requested);
    if prepared.Err? {
      return Err(prepared.error);
    }
    r := PassOn(env, g, SetupPass.Backward(prepared.value, requests, energy, map[], 0.0), dt);
  }

  /** setup's backward pass and deposit check. */
  method PassOn(env: Env, g: Net, s: SetupPass.Backward, dt: real) returns (r: Result<SetupPass.Backward>)
    requires Listing(g.order, g.from) && Shaped(g) && s.nodes.Keys == g.configs.Keys && dt > 0.0
    ensures Agrees(r, Checked(g, SetupPass.PassSpec(SetupPass.Asker(env, g, dt), g, s, {}, g.order, true)))
    ensures r.Ok? ==> r.value.nodes.Keys == g.configs.Keys
  {
    var pass := SetupPass.RequestPass(env, g, dt, s);
    if pass.Err? {
      return Err(pass.error);
    }
    var missing := FirstUnrequested(g, pass.value.nodes);
    if missing.Some? {
      return Err(NoDepositRequest(missing.value));
    }
    r := pass;
  }

  /** run's work on the records: the forward pass, then the overages. */
  method RunOn(env: Env, g: Net, nodes: map<string, NodeState>, dt: real)
    returns (r: Result<(RunPass.Forward, map<string, Option<Pool>>)>)
    requires Listing(g.order, g.from) && Shaped(g) && nodes.Keys == g.configs.Keys && dt > 0.0
    ensures Agrees(r, RunSpec(env, g, nodes, dt))
    ensures r.Ok? ==> r.value.0.nodes.Keys == g.configs.Keys
  {
    var pass := RunPass.RunSweeps(env, g, dt, RunPass.Forward(nodes, map[], map[], map[], map[], map[], 0.0));
    if pass.Err? {
      return Err(pass.error);
    }
    var o := RunPass.CollectOverages(g, pass.value);
    if o.Err? {
      return Err(o.error);
    }
    r := Ok((pass.value, o.value));
  }

  /** ISRUPlant(model_definitions) (plant_model.py:46-81): links the
      definitions, refusing a From entry that names no node. */
  method Build(order: seq<string>, configs: map<string, Config>, from: Links, states: map<string, NodeState>)
    returns (r: Result<Plant>)
    requires Listing(order, from) && configs.Keys == from.Keys && states.Keys == configs.Keys
    requires forall k :: k in configs ==> ValidRole(configs[k].role)
    ensures r.Err? <==> Linked(order, from).Err?
    ensures r.Err? <==> exists k, b :: k in from && from[k].Some? && b in from[k].value && b !in from
    ensures r.Err? ==> r.error.UnknownLink? && r.error.name !in from
    ensures r.Ok? ==> fresh(r.value) && r.value.Valid() && r.value.nodes == states &&
                      r.value.net == Net(order, configs, from, Linked(order, from).value)
  {
    var to := Link(order, from);
    LinkedFails(order, from);
    if to.Err? {
      return Err(to.error);
    }
    LinkedWellFormed(order, configs, from);
    var p := new Plant(Net(order, configs, from, to.value), states);
    r := Ok(p);
  }
}
