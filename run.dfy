/** ISRUPlant.run's forward pass: sweeps over the outstanding nodes, each
    sweep running the nodes whose From nodes have all run, with the inputs
    they collect from those nodes' output buffers; then the overages left
    across the plant. */
module RunPass {
  import opened Outcomes
  import opened Folds
  import opened Resources
  import opened Conditioning
  import opened Nodes
  import opened Linking
  import opened Flow
  import opened Sweeps
  import opened Processes

  /** What run records: the node records, the inputs each node was handed
      (input_resources, which run keeps only while the node runs), the output
      buffers (Output_Resources), each node's energy (Energy_Used), what each
      deposit put out (input_consumed), what each depot stores
      (output_produced), and the actual energy. */
  datatype Forward = Forward(nodes: map<string, NodeState>, inputs: map<string, Option<Pool>>,
                             buffers: Buffers, used: map<string, real>,
                             consumed: map<string, Option<Pool>>, produced: map<string, Option<Pool>>,
                             actual: real)

  /** A node's run(), as the pass sees it: from the node's name, its record
      and its inputs, its new record and its outputs. The pass is stated for
      any such function; run calls the nodes' own run() at the time step. */
  type Act = (string, NodeState, Option<Pool>) -> Result<Step>

  /** The nodes' run() in network g at time step dt. */
  ghost function Runner(env: Env, g: Net, dt: real): Act {
    (p: string, n: NodeState, i: Option<Pool>) =>
      if p in g.configs && ValidRole(g.configs[p].role) && dt > 0.0
      then NodeRunSpec(env, g.configs[p], n, dt, i) else Err(MissingKey)
  }

  /** At a positive time step, the pass runs a network node by its own run(). */
  lemma RunnerRuns(env: Env, g: Net, dt: real, p: string, n: NodeState, i: Option<Pool>)
    requires Shaped(g) && dt > 0.0 && p in g.configs
    ensures Runner(env, g, dt)(p, n, i) == NodeRunSpec(env, g.configs[p], n, dt, i)
  {
  }

  // ------------------------------------------------------------ one node

  /** Running one node: it collects its inputs from its From nodes' buffers,
      then runs as Finish says. */
  ghost function StepSpec(act: Act, g: Net, s: Forward, p: string): Result<Forward>
    requires Shaped(g) && p in g.configs && p in s.nodes
  {
    match Gathered(g, p, s.buffers)
    case Err(e) => Err(e)
    case Ok(gi) => Finish(act, g, s, p, gi.0, gi.1)
  }

  /** A node runs on its inputs, with the buffers left after it collected
      them: its outputs become its buffer; its energy is recorded and added to
      the actual energy; a deposit's outputs and a depot's contents are
      noted. */
  ghost function Finish(act: Act, g: Net, s: Forward, p: string, inputs: Option<Pool>, buffers: Buffers): Result<Forward>
    requires p in g.configs && p in s.nodes
  {
    Record(g, s, p, inputs, buffers, act(p, s.nodes[p], inputs))
  }

  /** The records kept after node p's run() gave `run`. */
  function Record(g: Net, s: Forward, p: string, inputs: Option<Pool>, buffers: Buffers, run: Result<Step>)
    : Result<Forward>
    requires p in g.configs
  {
    match run
    case Err(e) => Err(e)
    case Ok(st) =>
      Ok(Forward(s.nodes[p := st.node], s.inputs[p := inputs], buffers[p := st.out], s.used[p := st.node.energyDemand],
                 if g.configs[p].role.Deposit? then s.consumed[p := st.out] else s.consumed,
                 if g.configs[p].role.Depot? then s.produced[p := st.node.contents] else s.produced,
                 s.actual + st.node.energyDemand))
  }

  /** The body of run's inner loop for one ready node. */
  method StepNode(env: Env, g: Net, dt: real, s: Forward, p: string) returns (r: Result<Forward>)
    requires Shaped(g) && dt > 0.0 && p in g.configs && p in s.nodes
    ensures Agrees(r, StepSpec(Runner(env, g, dt), g, s, p))
  {
    var gi := GatherInputs(g, p, s.buffers);
    if gi.Err? {
      return Err(gi.error);
    }
    r := FinishNode(env, g, dt, s, p, gi.value.0, gi.value.1);
    RunnerRuns(env, g, dt, p, s.nodes[p], gi.value.0);
  }

  /** The node's run() and the records the loop body keeps. */
  method FinishNode(env: Env, g: Net, dt: real, s: Forward, p: string, inputs: Option<Pool>, buffers: Buffers)
    returns (r: Result<Forward>)
    requires Shaped(g) && dt > 0.0 && p in g.configs && p in s.nodes
    ensures Agrees(r, Record(g, s, p, inputs, buffers, NodeRunSpec(env, g.configs[p], s.nodes[p], dt, inputs)))
  {
    var st := NodeRun(env, g.configs[p], s.nodes[p], dt, inputs);
    r := Record(g, s, p, inputs, buffers, st);
  }

  // ------------------------------------------------------------ the pass

  /** One sweep over the outstanding list: the ready nodes run in list order,
      the others are passed over; the first failure ends it. */
  ghost function SweepSpec(act: Act, g: Net, s: Forward, order: seq<string>, ready: set<string>): (r: Result<Forward>)
    requires Shaped(g) && s.nodes.Keys == g.configs.Keys
    requires forall p :: p in order ==> p in g.configs
    ensures r.Ok? ==> r.value.nodes.Keys == g.configs.Keys
    decreases |order|
  {
    if order == [] then Ok(s)
    else if order[0] in ready then
      match StepSpec(act, g, s, order[0])
      case Err(e) => Err(e)
      case Ok(t) => SweepSpec(act, g, t, order[1..], ready)
    else SweepSpec(act, g, s, order[1..], ready)
  }

  /** run's while loop from a given point: sweep, stop at a sweep that ran
      nothing, drop what ran and go on while anything is outstanding. */
  ghost function PassSpec(act: Act, g: Net, s: Forward, ran: set<string>,
                          outstanding: seq<string>, first: bool): (r: Result<Forward>)
    requires Shaped(g) && s.nodes.Keys == g.configs.Keys
    requires Distinct(outstanding) && forall p :: p in outstanding ==> p in g.configs
    ensures r.Ok? ==> r.value.nodes.Keys == g.configs.Keys
    decreases |outstanding|
  {
    if outstanding == [] then Ok(s)
    else
      var ready := ReadyOf(g.from, outstanding, ran, first);
      match SweepSpec(act, g, s, outstanding, ready)
      case Err(e) => Err(e)
      case Ok(t) =>
        if ready == {} then Err(DeadEnd)
        else
          var p :| p in ready;
          PassSpec(act, g, t, ran + ready, Without(outstanding, ready), false)
  }

  /** The order in which a successful pass runs the nodes. */
  ghost function PassOrder(act: Act, g: Net, s: Forward, ran: set<string>,
                           outstanding: seq<string>, first: bool): seq<string>
    requires Shaped(g) && s.nodes.Keys == g.configs.Keys
    requires Distinct(outstanding) && forall p :: p in outstanding ==> p in g.configs
    decreases |outstanding|
  {
    if outstanding == [] then []
    else
      var ready := ReadyOf(g.from, outstanding, ran, first);
      match SweepSpec(act, g, s, outstanding, ready)
      case Err(_) => []
      case Ok(t) =>
        if ready == {} then []
        else
          var p :| p in ready;
          Picked(outstanding, ready) + PassOrder(act, g, t, ran + ready, Without(outstanding, ready), false)
  }

  /** run's inner for loop. */
  method Sweep(env: Env, g: Net, dt: real, s: Forward, outstanding: seq<string>, ready: set<string>)
    returns (r: Result<Forward>)
    requires Shaped(g) && dt > 0.0 && s.nodes.Keys == g.configs.Keys
    requires forall p :: p in outstanding ==> p in g.configs
    ensures Agrees(r, SweepSpec(Runner(env, g, dt), g, s, outstanding, ready))
  {
    ghost var act := Runner(env, g, dt);
    var cur := s;
    var j := 0;
    while j < |outstanding|
      invariant 0 <= j <= |outstanding|
      invariant cur.nodes.Keys == g.configs.Keys
      invariant SweepSpec(act, g, s, outstanding, ready) == SweepSpec(act, g, cur, outstanding[j..], ready)
    {
      var p := outstanding[j];
      assert outstanding[j..][0] == p && outstanding[j..][1..] == outstanding[j + 1..];
      if p in ready {
        var t := StepNode(env, g, dt, cur, p);
        if t.Err? {
          return Err(t.error);
        }
        cur := t.value;
      }
      j := j + 1;
    }
    assert outstanding[j..] == [];
    r := Ok(cur);
  }

  /** run's sweeps (plant_model.py:175-245): the while loop over the
      outstanding nodes. */
  method RunSweeps(env: Env, g: Net, dt: real, s: Forward) returns (r: Result<Forward>)
    requires Listing(g.order, g.from) && Shaped(g) && dt > 0.0 && s.nodes.Keys == g.configs.Keys
    ensures Agrees(r, PassSpec(Runner(env, g, dt), g, s, {}, g.order, true))
  {
    ghost var act := Runner(env, g, dt);
    var cur, ran, outstanding, first := s, {}, g.order, true;
    while |outstanding| > 0
      invariant cur.nodes.Keys == g.configs.Keys
      invariant Distinct(outstanding) && forall p :: p in outstanding ==> p in g.configs
      invariant !first ==> forall p :: p in outstanding ==> g.from[p].Some?
      invariant PassSpec(act, g, s, {}, g.order, true) == PassSpec(act, g, cur, ran, outstanding, first)
      decreases |outstanding|
    {
      var ready := ReadySet(g.from, outstanding, ran, first);
      assert ready == ReadyOf(g.from, outstanding, ran, first);
      var sw := Sweep(env, g, dt, cur, outstanding, ready);
      if sw.Err? {
        return Err(sw.error);
      }
      if ready == {} {
        return Err(DeadEnd);
      }
      cur, ran, outstanding, first := sw.value, ran + ready, Without(outstanding, ready), false;
    }
    r := Ok(cur);
  }

  // ------------------------------------------------------------ what the pass achieves

  /** Part of a pool: the same Some-ness, and every kind of `a` is in `b`
      with the same resource. */
  ghost predicate Within(a: Option<Pool>, b: Option<Pool>) {
    (a.Some? <==> b.Some?) &&
    (a.Some? ==> forall k :: k in a.value ==> k in b.value && a.value[k] == b.value[k])
  }

  /** What node p's run() gave, from its record before run and the inputs it
      was handed. */
  ghost function RunOf(act: Act, s0: map<string, NodeState>, s: Forward, p: string): Result<Step>
    requires p in s0 && p in s.inputs
  {
    act(p, s0[p], s.inputs[p])
  }

  /** Node p ran from its record before run on the inputs it was handed: the
      run produced its final record; its buffer is part of the outputs of that
      run, and a deposit's noted outputs are those outputs. */
  ghost predicate RanOn(act: Act, g: Net, s0: map<string, NodeState>, s: Forward, p: string)
    requires p in s0 && p in s.inputs
  {
    RunOf(act, s0, s, p).Ok? && p in s.nodes && RunOf(act, s0, s, p).value.node == s.nodes[p] &&
    p in s.buffers && Within(s.buffers[p], RunOf(act, s0, s, p).value.out) &&
    (p in s.consumed ==> s.consumed[p] == RunOf(act, s0, s, p).value.out)
  }

  /** Resource r of kind k is part of what node u's run() put out. */
  ghost predicate Emitted(act: Act, s0: map<string, NodeState>, s: Forward, u: string, k: string, r: ResourceState) {
    u in s0 && u in s.inputs && RunOf(act, s0, s, u).Ok? && RunOf(act, s0, s, u).value.out.Some? &&
    k in RunOf(act, s0, s, u).value.out.value && RunOf(act, s0, s, u).value.out.value[k] == r
  }

  /** Node p was handed what its From nodes put out: nothing exactly when it
      has no From list, and otherwise every kind it was handed is the very
      resource one of its From nodes' runs put out. */
  ghost predicate Fed(act: Act, g: Net, s0: map<string, NodeState>, s: Forward, p: string)
    requires p in g.from && p in s.inputs
  {
    (s.inputs[p].None? <==> g.from[p].None?) &&
    (s.inputs[p].Some? && g.from[p].Some? ==>
       forall k :: k in s.inputs[p].value ==>
         exists u :: u in g.from[p].value && Emitted(act, s0, s, u, k, s.inputs[p].value[k]))
  }

  /** Node p has run once: on the inputs its From nodes put out (Fed), as
      RanOn says; its energy is recorded; exactly a deposit has its outputs
      noted, and exactly a depot its contents. */
  ghost predicate Ran(act: Act, g: Net, s0: map<string, NodeState>, s: Forward, p: string)
    requires p in g.configs && p in g.from && p in s0
  {
    p in s.inputs && RanOn(act, g, s0, s, p) && Fed(act, g, s0, s, p) &&
    p in s.nodes && p in s.used && s.used[p] == s.nodes[p].energyDemand &&
    (p in s.consumed <==> g.configs[p].role.Deposit?) &&
    (p in s.produced <==> g.configs[p].role.Depot?) &&
    (p in s.produced ==> s.produced[p] == s.nodes[p].contents)
  }

  /** The records after the nodes of `ran` ran: they ran once each; the
      others are as before run and have no buffer yet; the actual energy is
      the energy they used. */
  ghost predicate Records(act: Act, g: Net, s0: map<string, NodeState>, s: Forward, ran: set<string>)
    requires Shaped(g) && s0.Keys == g.configs.Keys
  {
    s.nodes.Keys == g.configs.Keys && ran <= g.configs.Keys && s.inputs.Keys == ran && s.buffers.Keys == ran &&
    s.consumed.Keys <= ran && s.produced.Keys <= ran &&
    (forall p :: p in g.configs && p !in ran ==> s.nodes[p] == s0[p]) &&
    (forall p {:trigger Ran(act, g, s0, s, p)} :: p in ran ==> Ran(act, g, s0, s, p)) &&
    s.actual == Sum(Demands(s.nodes, ran))
  }

  /** What holds after any number of nodes ran: their records, and their
      order, each after its From nodes. */
  ghost predicate Progress(act: Act, g: Net, s0: map<string, NodeState>, s: Forward,
                           ran: set<string>, seen: seq<string>)
    requires Shaped(g) && s0.Keys == g.configs.Keys
  {
    Records(act, g, s0, s, ran) && Schedule(g.from, ran, seen)
  }

  /** Where run stopped: a node still as before run, whose From nodes have all
      run, and which fails to collect its inputs or to run. */
  ghost predicate Refused(act: Act, g: Net, s0: map<string, NodeState>, s: Forward, c: string)
    requires Shaped(g) && s0.Keys == g.configs.Keys
  {
    c in g.configs && c in s.nodes && s.nodes[c] == s0[c] &&
    (g.from[c].Some? ==> forall u :: u in g.from[c].value ==> u in g.configs && Ran(act, g, s0, s, u)) &&
    StepSpec(act, g, s, c).Err?
  }

  /** Running q changes q's records only, besides the buffers its inputs
      came from, which only lose kinds. */
  lemma StepUpdates(act: Act, g: Net, s: Forward, q: string, t: Forward)
    returns (gi: (Option<Pool>, Buffers), st: Step)
    requires Shaped(g) && q in g.configs && q in s.nodes
    requires StepSpec(act, g, s, q) == Ok(t)
    ensures Gathered(g, q, s.buffers) == Ok(gi) && act(q, s.nodes[q], gi.0) == Ok(st)
    ensures t.nodes == s.nodes[q := st.node] && t.inputs == s.inputs[q := gi.0] && t.buffers == gi.1[q := st.out]
    ensures t.used == s.used[q := st.node.energyDemand]
    ensures t.consumed == (if g.configs[q].role.Deposit? then s.consumed[q := st.out] else s.consumed)
    ensures t.produced == (if g.configs[q].role.Depot? then s.produced[q := st.node.contents] else s.produced)
    ensures t.actual == s.actual + st.node.energyDemand
  {
    gi := Gathered(g, q, s.buffers).value;
    st := act(q, s.nodes[q], gi.0).value;
  }

  /** A node that ran before q still has: q leaves its records alone, and its
      buffer only loses kinds. */
  lemma StepKeeps(act: Act, g: Net, s0: map<string, NodeState>, s: Forward, q: string, t: Forward, p: string)
    requires Shaped(g) && s0.Keys == g.configs.Keys
    requires q in g.configs && q in s.nodes && q !in s.inputs && p in g.configs && p != q && p in s.buffers
    requires Ran(act, g, s0, s, p)
    requires StepSpec(act, g, s, q) == Ok(t)
    ensures Ran(act, g, s0, t, p)
  {
    var gi, st := StepUpdates(act, g, s, q, t);
    assert RunOf(act, s0, t, p) == RunOf(act, s0, s, p);
    GatheredShrinks(g, q, s.buffers, p, "");
    if s.buffers[p].Some? {
      forall k | k in t.buffers[p].value ensures k in s.buffers[p].value && t.buffers[p].value[k] == s.buffers[p].value[k] {
        GatheredShrinks(g, q, s.buffers, p, k);
      }
    }
    assert RanOn(act, g, s0, t, p);
    FedKept(act, g, s0, s, q, t, p);
  }

  /** What a node that ran was handed stays put out by its From nodes when
      another node runs. */
  lemma FedKept(act: Act, g: Net, s0: map<string, NodeState>, s: Forward, q: string, t: Forward, p: string)
    requires Shaped(g) && p in g.configs && p in s.inputs && q !in s.inputs
    requires q in t.inputs && t.inputs == s.inputs[q := t.inputs[q]]
    requires Fed(act, g, s0, s, p)
    ensures Fed(act, g, s0, t, p)
  {
    if s.inputs[p].Some? && g.from[p].Some? {
      var i := s.inputs[p].value;
      forall k | k in i ensures exists u :: u in g.from[p].value && Emitted(act, s0, t, u, k, i[k]) {
        var u :| u in g.from[p].value && Emitted(act, s0, s, u, k, i[k]);
        assert RunOf(act, s0, t, u) == RunOf(act, s0, s, u);
        assert Emitted(act, s0, t, u, k, i[k]);
      }
    }
  }

  /** q itself has run, on the inputs it collected from its From nodes'
      buffers, which are what those nodes' runs put out. */
  lemma StepRuns(act: Act, g: Net, s0: map<string, NodeState>, s: Forward, ran: set<string>, q: string, t: Forward)
    requires Shaped(g) && s0.Keys == g.configs.Keys
    requires Records(act, g, s0, s, ran)
    requires q in g.configs && q !in ran
    requires StepSpec(act, g, s, q) == Ok(t)
    ensures Ran(act, g, s0, t, q)
    ensures q in t.inputs && Gathered(g, q, s.buffers).Ok? && t.inputs[q] == Gathered(g, q, s.buffers).value.0
  {
    var gi, st := StepUpdates(act, g, s, q, t);
    assert RanOn(act, g, s0, t, q);
    StepFed(act, g, s0, s, ran, q, gi.0, t);
  }

  /** What q collects from the buffers is what its From nodes' runs put out. */
  lemma StepFed(act: Act, g: Net, s0: map<string, NodeState>, s: Forward, ran: set<string>, q: string,
                inputs: Option<Pool>, t: Forward)
    requires Shaped(g) && s0.Keys == g.configs.Keys
    requires Records(act, g, s0, s, ran)
    requires q in g.configs && q !in ran
    requires Gathered(g, q, s.buffers).Ok? && Gathered(g, q, s.buffers).value.0 == inputs
    requires t.inputs == s.inputs[q := inputs]
    ensures q in t.inputs && Fed(act, g, s0, t, q)
  {
    GatheredFrom(g, q, s.buffers, "");
    if inputs.Some? {
      var i := inputs.value;
      forall k | k in i ensures exists u :: u in g.from[q].value && Emitted(act, s0, t, u, k, i[k]) {
        KindFed(act, g, s0, s, ran, q, i, k, t);
      }
    }
  }

  /** Each kind q collects is one a From node's run put out. */
  lemma KindFed(act: Act, g: Net, s0: map<string, NodeState>, s: Forward, ran: set<string>, q: string,
                i: Pool, k: string, t: Forward)
    requires Shaped(g) && s0.Keys == g.configs.Keys
    requires Records(act, g, s0, s, ran)
    requires q in g.configs && q !in ran
    requires Gathered(g, q, s.buffers).Ok? && Gathered(g, q, s.buffers).value.0 == Some(i) && k in i
    requires t.inputs == s.inputs[q := Some(i)]
    ensures g.from[q].Some? && exists u :: u in g.from[q].value && Emitted(act, s0, t, u, k, i[k])
  {
    GatheredFrom(g, q, s.buffers, k);
    var u :| u in g.from[q].value && u in s.buffers && s.buffers[u].Some? && k in s.buffers[u].value &&
             s.buffers[u].value[k] == i[k];
    BufferEmitted(act, g, s0, s, ran, u, k, t);
  }

  /** What sits in the buffer of a node that ran is what its run put out, as
      long as the inputs it was handed stay recorded. */
  lemma BufferEmitted(act: Act, g: Net, s0: map<string, NodeState>, s: Forward, ran: set<string>,
                      u: string, k: string, t: Forward)
    requires Shaped(g) && s0.Keys == g.configs.Keys
    requires Records(act, g, s0, s, ran)
    requires u in s.buffers && s.buffers[u].Some? && k in s.buffers[u].value
    requires u in s.inputs && u in t.inputs && t.inputs[u] == s.inputs[u]
    ensures Emitted(act, s0, t, u, k, s.buffers[u].value[k])
  {
    assert Ran(act, g, s0, s, u);
  }

  /** Running a node keeps the records of every node that ran. */
  lemma StepRecords(act: Act, g: Net, s0: map<string, NodeState>, s: Forward, ran: set<string>, q: string, t: Forward)
    requires Shaped(g) && s0.Keys == g.configs.Keys
    requires Records(act, g, s0, s, ran)
    requires q in g.configs && q !in ran
    requires StepSpec(act, g, s, q) == Ok(t)
    ensures Records(act, g, s0, t, ran + {q})
  {
    StepRanAll(act, g, s0, s, ran, q, t);
    StepFrame(act, g, s0, s, ran, q, t);
  }

  /** Every node that ran, and q, have run after q ran. */
  lemma StepRanAll(act: Act, g: Net, s0: map<string, NodeState>, s: Forward, ran: set<string>, q: string, t: Forward)
    requires Shaped(g) && s0.Keys == g.configs.Keys
    requires Records(act, g, s0, s, ran)
    requires q in g.configs && q !in ran
    requires StepSpec(act, g, s, q) == Ok(t)
    ensures forall p :: p in ran + {q} ==> Ran(act, g, s0, t, p)
  {
    forall p | p in ran ensures Ran(act, g, s0, t, p) {
      StepKeeps(act, g, s0, s, q, t, p);
    }
    StepRuns(act, g, s0, s, ran, q, t);
  }

  /** The rest of the records after q ran. */
  lemma StepFrame(act: Act, g: Net, s0: map<string, NodeState>, s: Forward, ran: set<string>, q: string, t: Forward)
    requires Shaped(g) && s0.Keys == g.configs.Keys
    requires s.nodes.Keys == g.configs.Keys && ran <= g.configs.Keys && s.inputs.Keys == ran && s.buffers.Keys == ran
    requires s.consumed.Keys <= ran && s.produced.Keys <= ran
    requires forall p :: p in g.configs && p !in ran ==> s.nodes[p] == s0[p]
    requires s.actual == Sum(Demands(s.nodes, ran))
    requires q in g.configs && q !in ran
    requires StepSpec(act, g, s, q) == Ok(t)
    ensures t.nodes.Keys == g.configs.Keys && ran + {q} <= g.configs.Keys
    ensures t.inputs.Keys == ran + {q} && t.buffers.Keys == ran + {q}
    ensures t.consumed.Keys <= ran + {q} && t.produced.Keys <= ran + {q}
    ensures forall p :: p in g.configs && p !in ran + {q} ==> t.nodes[p] == s0[p]
    ensures t.actual == Sum(Demands(t.nodes, ran + {q}))
  {
    StepKeys(act, g, s0, s, ran, q, t);
    StepEnergy(act, g, s, ran, q, t);
  }

  lemma StepKeys(act: Act, g: Net, s0: map<string, NodeState>, s: Forward, ran: set<string>, q: string, t: Forward)
    requires Shaped(g) && s0.Keys == g.configs.Keys
    requires s.nodes.Keys == g.configs.Keys && ran <= g.configs.Keys && s.inputs.Keys == ran && s.buffers.Keys == ran
    requires s.consumed.Keys <= ran && s.produced.Keys <= ran
    requires forall p :: p in g.configs && p !in ran ==> s.nodes[p] == s0[p]
    requires q in g.configs && q !in ran
    requires StepSpec(act, g, s, q) == Ok(t)
    ensures t.nodes.Keys == g.configs.Keys && t.inputs.Keys == ran + {q} && t.buffers.Keys == ran + {q}
    ensures t.consumed.Keys <= ran + {q} && t.produced.Keys <= ran + {q}
    ensures forall p :: p in g.configs && p !in ran + {q} ==> t.nodes[p] == s0[p]
  {
    var gi, st := StepUpdates(act, g, s, q, t);
  }

  lemma StepEnergy(act: Act, g: Net, s: Forward, ran: set<string>, q: string, t: Forward)
    requires Shaped(g) && s.nodes.Keys == g.configs.Keys && q in g.configs && q !in ran
    requires s.actual == Sum(Demands(s.nodes, ran))
    requires StepSpec(act, g, s, q) == Ok(t)
    ensures t.actual == Sum(Demands(t.nodes, ran + {q}))
  {
    var gi, st := StepUpdates(act, g, s, q, t);
    StepSums(s.nodes, t.nodes, ran, q);
  }

  /** The energy used gains q's energy demand. */
  lemma StepSums(nodes: map<string, NodeState>, nodes': map<string, NodeState>, ran: set<string>, q: string)
    requires q in nodes' && q !in ran
    requires forall p :: p != q ==> (p in nodes' <==> p in nodes) && (p in nodes' ==> nodes'[p] == nodes[p])
    ensures Sum(Demands(nodes', ran + {q})) == Sum(Demands(nodes, ran)) + nodes'[q].energyDemand
  {
    assert Demands(nodes', ran + {q}) == Demands(nodes, ran)[q := nodes'[q].energyDemand];
    SumAdd(Demands(nodes, ran), q, nodes'[q].energyDemand);
  }

  /** Running a node whose From nodes have run keeps the progress made. */
  lemma StepPreserves(act: Act, g: Net, s0: map<string, NodeState>, s: Forward,
                      ran: set<string>, seen: seq<string>, q: string, t: Forward)
    requires Shaped(g) && s0.Keys == g.configs.Keys
    requires Progress(act, g, s0, s, ran, seen)
    requires q in g.configs && q !in ran
    requires g.from[q].Some? ==> forall u :: u in g.from[q].value ==> u in ran
    requires StepSpec(act, g, s, q) == Ok(t)
    ensures Progress(act, g, s0, t, ran + {q}, seen + [q])
  {
    StepRecords(act, g, s0, s, ran, q, t);
    ScheduleAppend(g.from, ran, seen, q);
  }

  /** A sweep runs its ready nodes in list order, each after its From nodes,
      or stops at the first node that fails. */
  lemma {:induction false} SweepMeans(act: Act, g: Net, s0: map<string, NodeState>, s: Forward,
                                      ran: set<string>, seen: seq<string>, order: seq<string>, ready: set<string>)
    returns (at: Forward, culprit: string)
    requires Shaped(g) && s0.Keys == g.configs.Keys
    requires Progress(act, g, s0, s, ran, seen)
    requires Distinct(order) && forall p :: p in order ==> p in g.configs && p !in ran
    requires forall p :: p in ready ==> p in g.from && (g.from[p].Some? ==> forall u :: u in g.from[p].value ==> u in ran)
    ensures SweepSpec(act, g, s, order, ready).Ok? ==>
              Progress(act, g, s0, SweepSpec(act, g, s, order, ready).value,
                       ran + (set p | p in order && p in ready), seen + Picked(order, ready))
    ensures SweepSpec(act, g, s, order, ready).Err? ==> Refused(act, g, s0, at, culprit)
    decreases |order|, 1
  {
    at, culprit := s, "";
    if order == [] {
      assert ran + (set p | p in order && p in ready) == ran;
      assert seen + Picked(order, ready) == seen;
    } else {
      var q := order[0];
      DistinctTail(order);
      PickedHead(ran, seen, order, ready);
      if q in ready {
        if StepSpec(act, g, s, q).Err? {
          at, culprit := s, q;
        } else {
          at, culprit := SweepStep(act, g, s0, s, ran, seen, order, ready);
        }
      } else {
        at, culprit := SweepMeans(act, g, s0, s, ran, seen, order[1..], ready);
      }
    }
  }

  /** SweepMeans once the head of the list, ready, has run. */
  lemma {:induction false} SweepStep(act: Act, g: Net, s0: map<string, NodeState>, s: Forward,
                                     ran: set<string>, seen: seq<string>, order: seq<string>, ready: set<string>)
    returns (at: Forward, culprit: string)
    requires Shaped(g) && s0.Keys == g.configs.Keys
    requires Progress(act, g, s0, s, ran, seen)
    requires Distinct(order) && forall p :: p in order ==> p in g.configs && p !in ran
    requires forall p :: p in ready ==> p in g.from && (g.from[p].Some? ==> forall u :: u in g.from[p].value ==> u in ran)
    requires order != [] && order[0] in ready && StepSpec(act, g, s, order[0]).Ok?
    ensures SweepSpec(act, g, s, order, ready).Ok? ==>
              Progress(act, g, s0, SweepSpec(act, g, s, order, ready).value,
                       ran + (set p | p in order && p in ready), seen + Picked(order, ready))
    ensures SweepSpec(act, g, s, order, ready).Err? ==> Refused(act, g, s0, at, culprit)
    decreases |order|, 0
  {
    var q, t := order[0], StepSpec(act, g, s, order[0]).value;
    DistinctTail(order);
    PickedHead(ran, seen, order, ready);
    StepPreserves(act, g, s0, s, ran, seen, q, t);
    at, culprit := SweepMeans(act, g, s0, t, ran + {q}, seen + [q], order[1..], ready);
  }

  /** The outstanding list as run keeps it: no node twice, together with the
      nodes that ran exactly the network's nodes; before the first sweep
      nothing ran, and after it every outstanding node has a From list. */
  ghost predicate Pending(g: Net, outstanding: seq<string>, ran: set<string>, first: bool) {
    Distinct(outstanding) &&
    (forall p :: p in g.configs <==> p in outstanding || p in ran) &&
    (forall p :: p in outstanding ==> p !in ran) &&
    (first ==> ran == {}) &&
    (!first ==> forall p :: p in outstanding ==> p in g.from && g.from[p].Some?)
  }

  /** Why a sweep runs nothing: in the first sweep, no node lacks a From
      list; afterwards, the outstanding nodes form a closed set. */
  ghost predicate DeadEndMeans(g: Net, stuck: set<string>, next: map<string, string>) {
    stuck != {} && (Closed(g.from, stuck, next) || forall p :: p in g.from ==> g.from[p].Some?)
  }

  /** From any point of the while loop, the pass either runs every node, each
      after its From nodes, or stops: at a sweep that ran nothing, or at a
      node that fails once its From nodes have run. */
  lemma {:induction false} PassMeans(act: Act, g: Net, s0: map<string, NodeState>, s: Forward,
                                     ran: set<string>, seen: seq<string>, outstanding: seq<string>, first: bool)
    returns (stuck: set<string>, next: map<string, string>, at: Forward, culprit: string)
    requires Shaped(g) && FromNodes(g) && s0.Keys == g.configs.Keys
    requires Progress(act, g, s0, s, ran, seen) && Pending(g, outstanding, ran, first)
    ensures PassSpec(act, g, s, ran, outstanding, first).Ok? ==>
              Progress(act, g, s0, PassSpec(act, g, s, ran, outstanding, first).value, g.configs.Keys,
                       seen + PassOrder(act, g, s, ran, outstanding, first))
    ensures PassSpec(act, g, s, ran, outstanding, first).Err? ==>
              (PassSpec(act, g, s, ran, outstanding, first).error == DeadEnd && DeadEndMeans(g, stuck, next)) ||
              Refused(act, g, s0, at, culprit)
    decreases |outstanding|
  {
    stuck, next, at, culprit := {}, map[], s, "";
    if outstanding == [] {
      PassDone(act, g, s0, s, ran, seen, outstanding, first);
    } else if SweepSpec(act, g, s, outstanding, ReadyOf(g.from, outstanding, ran, first)).Err? {
      at, culprit := PassFails(act, g, s0, s, ran, seen, outstanding, first);
    } else if ReadyOf(g.from, outstanding, ran, first) == {} {
      stuck, next := PassStuck(act, g, s, ran, outstanding, first);
    } else {
      stuck, next, at, culprit := PassRound(act, g, s0, s, ran, seen, outstanding, first);
    }
  }

  /** Nothing outstanding: the pass is over, and every node ran. */
  lemma PassDone(act: Act, g: Net, s0: map<string, NodeState>, s: Forward,
                 ran: set<string>, seen: seq<string>, outstanding: seq<string>, first: bool)
    requires Shaped(g) && s0.Keys == g.configs.Keys
    requires Progress(act, g, s0, s, ran, seen) && Pending(g, outstanding, ran, first)
    requires outstanding == []
    ensures PassSpec(act, g, s, ran, outstanding, first) == Ok(s)
    ensures Progress(act, g, s0, s, g.configs.Keys, seen + PassOrder(act, g, s, ran, outstanding, first))
  {
    assert ran == g.configs.Keys;
    assert seen + PassOrder(act, g, s, ran, outstanding, first) == seen;
  }

  /** A sweep with a failing node ends the pass with that failure. */
  lemma PassFails(act: Act, g: Net, s0: map<string, NodeState>, s: Forward,
                  ran: set<string>, seen: seq<string>, outstanding: seq<string>, first: bool)
    returns (at: Forward, culprit: string)
    requires Shaped(g) && s0.Keys == g.configs.Keys
    requires Progress(act, g, s0, s, ran, seen) && Pending(g, outstanding, ran, first)
    requires outstanding != [] && SweepSpec(act, g, s, outstanding, ReadyOf(g.from, outstanding, ran, first)).Err?
    ensures PassSpec(act, g, s, ran, outstanding, first).Err? && Refused(act, g, s0, at, culprit)
  {
    at, culprit := SweepMeans(act, g, s0, s, ran, seen, outstanding, ReadyOf(g.from, outstanding, ran, first));
  }

  /** A sweep that ran nothing ends the pass with a dead end. */
  lemma PassStuck(act: Act, g: Net, s: Forward, ran: set<string>, outstanding: seq<string>, first: bool)
    returns (stuck: set<string>, next: map<string, string>)
    requires Shaped(g) && FromNodes(g) && s.nodes.Keys == g.configs.Keys
    requires Pending(g, outstanding, ran, first)
    requires outstanding != [] && ReadyOf(g.from, outstanding, ran, first) == {}
    requires SweepSpec(act, g, s, outstanding, ReadyOf(g.from, outstanding, ran, first)).Ok?
    ensures PassSpec(act, g, s, ran, outstanding, first) == Err(DeadEnd)
    ensures DeadEndMeans(g, stuck, next)
  {
    stuck := set p | p in outstanding;
    assert outstanding[0] in stuck;
    next := StuckClosed(g, outstanding, ran, first);
  }

  /** A sweep that ran something: the pass goes on from the sweep's result
      with the nodes that ran dropped. */
  lemma {:induction false} PassRound(act: Act, g: Net, s0: map<string, NodeState>, s: Forward,
                                     ran: set<string>, seen: seq<string>, outstanding: seq<string>, first: bool)
    returns (stuck: set<string>, next: map<string, string>, at: Forward, culprit: string)
    requires Shaped(g) && FromNodes(g) && s0.Keys == g.configs.Keys
    requires Progress(act, g, s0, s, ran, seen) && Pending(g, outstanding, ran, first)
    requires outstanding != [] && ReadyOf(g.from, outstanding, ran, first) != {}
    requires SweepSpec(act, g, s, outstanding, ReadyOf(g.from, outstanding, ran, first)).Ok?
    ensures PassSpec(act, g, s, ran, outstanding, first).Ok? ==>
              Progress(act, g, s0, PassSpec(act, g, s, ran, outstanding, first).value, g.configs.Keys,
                       seen + PassOrder(act, g, s, ran, outstanding, first))
    ensures PassSpec(act, g, s, ran, outstanding, first).Err? ==>
              (PassSpec(act, g, s, ran, outstanding, first).error == DeadEnd && DeadEndMeans(g, stuck, next)) ||
              Refused(act, g, s0, at, culprit)
    decreases |outstanding|, 0
  {
    var ready := ReadyOf(g.from, outstanding, ran, first);
    var t := SweepSpec(act, g, s, outstanding, ready).value;
    var at0, culprit0 := SweepMeans(act, g, s0, s, ran, seen, outstanding, ready);
    var rest := Without(outstanding, ready);
    var p :| p in ready;
    assert |rest| < |outstanding|;
    PickedAll(ran, outstanding, ready);
    assert Pending(g, rest, ran + ready, false);
    assert PassOrder(act, g, s, ran, outstanding, first) == Picked(outstanding, ready) + PassOrder(act, g, t, ran + ready, rest, false);
    Regroup(seen, Picked(outstanding, ready), PassOrder(act, g, t, ran + ready, rest, false));
    stuck, next, at, culprit := PassMeans(act, g, s0, t, ran + ready, seen + Picked(outstanding, ready), rest, false);
  }

  /** When no outstanding node is ready: in the first sweep no node lacks a
      From list; afterwards each waits on an outstanding From node. */
  lemma StuckClosed(g: Net, outstanding: seq<string>, ran: set<string>, first: bool) returns (next: map<string, string>)
    requires Shaped(g) && FromNodes(g)
    requires forall p :: p in g.configs <==> p in outstanding || p in ran
    requires forall p :: p in outstanding ==> p !in ran
    requires first ==> ran == {}
    requires !first ==> forall p :: p in outstanding ==> g.from[p].Some?
    requires forall p :: p in outstanding ==> !Ready(g.from, p, ran, first)
    ensures first ==> forall p :: p in g.from ==> g.from[p].Some?
    ensures !first ==> Closed(g.from, (set p | p in outstanding), next)
  {
    next := map[];
    if !first {
      var stuck := set p | p in outstanding;
      next := map p | p in stuck :: Waits(g, p, ran);
    }
  }

  /** The From node an unready node waits on after the first sweep. */
  ghost function Waits(g: Net, p: string, ran: set<string>): (u: string)
    requires Shaped(g) && FromNodes(g) && p in g.from && !Ready(g.from, p, ran, false)
    requires g.from[p].Some?
    ensures u in g.from[p].value && u in g.configs && u !in ran
  {
    var u :| u in g.from[p].value && u !in ran; u
  }

  /** run's sweeps from their start (plant_model.py:175-245), with the actual
      energy and the records reset: either every node runs once, each after
      its From nodes, and the actual energy is the sum of the nodes' energy
      demands; or a sweep ran nothing; or a node failed once its From nodes
      had run. */
  lemma RunMeans(act: Act, g: Net, s: Forward)
    returns (stuck: set<string>, next: map<string, string>, at: Forward, culprit: string)
    requires Listing(g.order, g.from) && Shaped(g) && FromNodes(g)
    requires s.nodes.Keys == g.configs.Keys && s.inputs == map[] && s.buffers == map[] && s.consumed == map[] &&
             s.produced == map[] && s.actual == 0.0
    ensures var r := PassSpec(act, g, s, {}, g.order, true);
            var order := PassOrder(act, g, s, {}, g.order, true);
            r.Ok? ==>
              Distinct(order) && (forall p :: p in order <==> p in g.configs) && Ordered(g.from, order) &&
              r.value.nodes.Keys == g.configs.Keys && r.value.buffers.Keys == g.configs.Keys &&
              (forall p :: p in g.configs ==> Ran(act, g, s.nodes, r.value, p)) &&
              r.value.actual == Sum(Demands(r.value.nodes, g.configs.Keys))
    ensures var r := PassSpec(act, g, s, {}, g.order, true);
            r.Err? ==> (r.error == DeadEnd && DeadEndMeans(g, stuck, next)) ||
                       Refused(act, g, s.nodes, at, culprit)
  {
    assert Demands(s.nodes, {}) == map[];
    assert Progress(act, g, s.nodes, s, {}, []);
    assert Pending(g, g.order, {}, true);
    stuck, next, at, culprit := PassMeans(act, g, s.nodes, s, {}, [], g.order, true);
    assert [] + PassOrder(act, g, s, {}, g.order, true) == PassOrder(act, g, s, {}, g.order, true);
  }

  // ------------------------------------------------------------ overages

  /** The overages noted at the end of run over the nodes of `ps`: a depot's
      Overage, and the leftover buffer of any other node but a deposit when
      it is not empty. */
  function Overages(g: Net, s: Forward, ps: seq<string>): (r: Result<map<string, Option<Pool>>>)
    requires Shaped(g) && s.nodes.Keys == g.configs.Keys
    requires forall p :: p in ps ==> p in g.configs
  {
    if ps == [] then Ok(map[])
    else
      var p := ps[|ps| - 1];
      match Overages(g, s, ps[..|ps| - 1])
      case Err(e) => Err(e)
      case Ok(o) =>
        if g.configs[p].role.Depot? then Ok(o[p := s.nodes[p].overage])
        else if g.configs[p].role.Deposit? then Ok(o)
        else if p !in s.buffers then Err(MissingKey)
        else if s.buffers[p].None? then Err(NoneOperand)
        else if |s.buffers[p].value| > 0 then Ok(o[p := s.buffers[p]])
        else Ok(o)
  }

  /** The overages fail only on a node, neither depot nor deposit, without a
      buffer. */
  lemma {:induction false} OveragesFail(g: Net, s: Forward, ps: seq<string>)
    requires Shaped(g) && s.nodes.Keys == g.configs.Keys
    requires forall q :: q in ps ==> q in g.configs
    ensures Overages(g, s, ps).Ok? <==>
            forall q :: q in ps && !g.configs[q].role.Depot? && !g.configs[q].role.Deposit? ==>
              q in s.buffers && s.buffers[q].Some?
  {
    if ps != [] {
      var init := ps[..|ps| - 1];
      assert ps == init + [ps[|ps| - 1]];
      assert forall q :: q in ps <==> q in init || q == ps[|ps| - 1];
      OveragesFail(g, s, init);
    }
  }

  /** The overages hold every depot's Overage and the leftover buffer of every
      other node but a deposit when it is not empty. */
  lemma {:induction false} OveragesHold(g: Net, s: Forward, ps: seq<string>, p: string)
    requires Shaped(g) && s.nodes.Keys == g.configs.Keys
    requires forall q :: q in ps ==> q in g.configs
    requires Overages(g, s, ps).Ok?
    ensures p in Overages(g, s, ps).value <==>
            p in ps && (g.configs[p].role.Depot? ||
                         (!g.configs[p].role.Deposit? && p in s.buffers && s.buffers[p].Some? && |s.buffers[p].value| > 0))
    ensures p in Overages(g, s, ps).value ==>
            Overages(g, s, ps).value[p] == if g.configs[p].role.Depot? then s.nodes[p].overage else s.buffers[p]
  {
    if ps != [] {
      var init := ps[..|ps| - 1];
      var q := ps[|ps| - 1];
      assert ps == init + [q];
      assert p in ps <==> p in init || p == q;
      var o, r := OveragesLast(g, s, ps);
      OveragesHold(g, s, init, p);
    }
  }

  /** The overages of a list are those of its initial part, with the last
      node's entry added when it has one. */
  lemma OveragesLast(g: Net, s: Forward, ps: seq<string>) returns (o: map<string, Option<Pool>>, r: map<string, Option<Pool>>)
    requires Shaped(g) && s.nodes.Keys == g.configs.Keys
    requires forall q :: q in ps ==> q in g.configs
    requires ps != [] && Overages(g, s, ps).Ok?
    ensures Overages(g, s, ps[..|ps| - 1]) == Ok(o) && Overages(g, s, ps) == Ok(r)
    ensures g.configs[ps[|ps| - 1]].role.Depot? ==> r == o[ps[|ps| - 1] := s.nodes[ps[|ps| - 1]].overage]
    ensures !g.configs[ps[|ps| - 1]].role.Depot? && !g.configs[ps[|ps| - 1]].role.Deposit? ==>
              ps[|ps| - 1] in s.buffers && s.buffers[ps[|ps| - 1]].Some? &&
              r == if |s.buffers[ps[|ps| - 1]].value| > 0 then o[ps[|ps| - 1] := s.buffers[ps[|ps| - 1]]] else o
    ensures g.configs[ps[|ps| - 1]].role.Deposit? ==> r == o
  {
    o := Overages(g, s, ps[..|ps| - 1]).value;
    r := Overages(g, s, ps).value;
  }

  /** The overage loop at the end of run (plant_model.py:247-251), over the
      nodes in definition order. */
  method CollectOverages(g: Net, s: Forward) returns (r: Result<map<string, Option<Pool>>>)
    requires Shaped(g) && s.nodes.Keys == g.configs.Keys
    requires forall p :: p in g.order ==> p in g.configs
    ensures r == Overages(g, s, g.order)
  {
    var o: map<string, Option<Pool>> := map[];
    var i := 0;
    while i < |g.order|
      invariant 0 <= i <= |g.order|
      invariant Overages(g, s, g.order[..i]) == Ok(o)
    {
      var p := g.order[i];
      assert g.order[..i + 1][..i] == g.order[..i];
      assert g.order[..i + 1][i] == p;
      if g.configs[p].role.Depot? {
        o := o[p := s.nodes[p].overage];
      } else if !g.configs[p].role.Deposit? {
        if p !in s.buffers {
          OveragesPrefixErr(g, s, g.order, i + 1);
          return Err(MissingKey);
        }
        if s.buffers[p].None? {
          OveragesPrefixErr(g, s, g.order, i + 1);
          return Err(NoneOperand);
        }
        if |s.buffers[p].value| > 0 {
          o := o[p := s.buffers[p]];
        }
      }
      i := i + 1;
    }
    assert g.order[..i] == g.order;
    r := Ok(o);
  }

  /** A failure on a prefix of the nodes is the loop's failure. */
  lemma {:induction false} OveragesPrefixErr(g: Net, s: Forward, ps: seq<string>, j: int)
    requires Shaped(g) && s.nodes.Keys == g.configs.Keys
    requires forall q :: q in ps ==> q in g.configs
    requires 0 <= j <= |ps| && Overages(g, s, ps[..j]).Err?
    ensures Overages(g, s, ps) == Overages(g, s, ps[..j])
    decreases |ps|
  {
    if j == |ps| {
      assert ps[..j] == ps;
    } else {
      var init := ps[..|ps| - 1];
      assert init[..j] == ps[..j];
      OveragesPrefixErr(g, s, init, j);
    }
  }
}
