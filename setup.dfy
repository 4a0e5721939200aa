/** ISRUPlant.setup's backward pass: sweeps over the outstanding nodes, each
    sweep calling request() on the nodes whose successors have all been
    processed, with the merged requests of those successors. */
module SetupPass {
  import opened Outcomes
  import opened Folds
  import opened Resources
  import opened Conditioning
  import opened Nodes
  import opened Linking
  import opened Flow
  import opened Sweeps
  import opened Processes

  /** What setup records: the node records, each node's request upstream
      (Resource_Request), its energy request (Energy_Request), the deposits'
      baseline requests, and the projected energy. */
  datatype Backward = Backward(nodes: map<string, NodeState>, requests: Requests,
                               energy: map<string, real>, baseline: map<string, Option<Pool>>,
                               projected: real)

  // ------------------------------------------------------------ one node

  /** A node's request(), as the pass sees it: from the node's name, its record
      and the request it is given, its new record and the request it passes
      further up. The pass is stated for any such function; setup calls the
      nodes' own request() at the time step. */
  type Ask = (string, NodeState, Option<Pool>) -> Result<Step>

  /** The nodes' request() in network g at time step dt. */
  ghost function Asker(env: Env, g: Net, dt: real): Ask {
    (p: string, n: NodeState, m: Option<Pool>) =>
      if p in g.configs && ValidRole(g.configs[p].role) && dt > 0.0
      then NodeRequestSpec(env, g.configs[p], n, dt, m) else Err(MissingKey)
  }

  /** Processing one node: request() is called with its merged request; its
      answer and its energy are recorded, the energy is added to the projected
      energy, and a deposit keeps the request it was given. */
  ghost function AnswerSpec(ask: Ask, g: Net, s: Backward, p: string): Result<Backward>
    requires Shaped(g) && p in g.configs && p in s.nodes
  {
    match Merged(g, p, s.requests)
    case Err(e) => Err(e)
    case Ok(m) =>
      match ask(p, s.nodes[p], m)
      case Err(e) => Err(e)
      case Ok(st) =>
        Ok(Backward(s.nodes[p := st.node], s.requests[p := st.out], s.energy[p := st.node.energyDemand],
                    if g.configs[p].role.Deposit? then s.baseline[p := m] else s.baseline,
                    s.projected + st.node.energyDemand))
  }

  /** The body of setup's inner loop for one ready node. */
  method AnswerNode(env: Env, g: Net, dt: real, s: Backward, p: string) returns (r: Result<Backward>)
    requires Shaped(g) && dt > 0.0 && p in g.configs && p in s.nodes
    ensures Agrees(r, AnswerSpec(Asker(env, g, dt), g, s, p))
  {
    var m := MergeRequests(g, p, s.requests);
    if m.Err? {
      return Err(m.error);
    }
    var st := NodeRequest(env, g.configs[p], s.nodes[p], dt, m.value);
    if st.Err? {
      return Err(st.error);
    }
    var baseline := if g.configs[p].role.Deposit? then s.baseline[p := m.value] else s.baseline;
    r := Ok(Backward(s.nodes[p := st.value.node], s.requests[p := st.value.out],
                     s.energy[p := st.value.node.energyDemand], baseline,
                     s.projected + st.value.node.energyDemand));
  }

  // ------------------------------------------------------------ the pass

  /** One sweep over the outstanding list: the ready nodes are processed in
      list order, the others passed over; the first failing request ends it. */
  ghost function SweepSpec(ask: Ask, g: Net, s: Backward, order: seq<string>, ready: set<string>): (r: Result<Backward>)
    requires Shaped(g) && s.nodes.Keys == g.configs.Keys
    requires forall p :: p in order ==> p in g.configs
    ensures r.Ok? ==> r.value.nodes.Keys == g.configs.Keys
    decreases |order|
  {
    if order == [] then Ok(s)
    else if order[0] in ready then
      match AnswerSpec(ask, g, s, order[0])
      case Err(e) => Err(e)
      case Ok(t) => SweepSpec(ask, g, t, order[1..], ready)
    else SweepSpec(ask, g, s, order[1..], ready)
  }

  /** setup's while loop from a given point: sweep, stop at a sweep that
      processed nothing, drop what was processed and go on while anything is
      outstanding. */
  ghost function PassSpec(ask: Ask, g: Net, s: Backward, ran: set<string>,
                          outstanding: seq<string>, first: bool): (r: Result<Backward>)
    requires Shaped(g) && s.nodes.Keys == g.configs.Keys
    requires Distinct(outstanding) && forall p :: p in outstanding ==> p in g.configs
    ensures r.Ok? ==> r.value.nodes.Keys == g.configs.Keys
    decreases |outstanding|
  {
    if outstanding == [] then Ok(s)
    else
      var ready := ReadyOf(g.to, outstanding, ran, first);
      match SweepSpec(ask, g, s, outstanding, ready)
      case Err(e) => Err(e)
      case Ok(t) =>
        if ready == {} then Err(DeadEnd)
        else
          var p :| p in ready;
          PassSpec(ask, g, t, ran + ready, Without(outstanding, ready), false)
  }

  /** The order in which a successful pass processes the nodes. */
  ghost function PassOrder(ask: Ask, g: Net, s: Backward, ran: set<string>,
                           outstanding: seq<string>, first: bool): seq<string>
    requires Shaped(g) && s.nodes.Keys == g.configs.Keys
    requires Distinct(outstanding) && forall p :: p in outstanding ==> p in g.configs
    decreases |outstanding|
  {
    if outstanding == [] then []
    else
      var ready := ReadyOf(g.to, outstanding, ran, first);
      match SweepSpec(ask, g, s, outstanding, ready)
      case Err(_) => []
      case Ok(t) =>
        if ready == {} then []
        else
          var p :| p in ready;
          Picked(outstanding, ready) + PassOrder(ask, g, t, ran + ready, Without(outstanding, ready), false)
  }

  /** setup's inner for loop. */
  method Sweep(env: Env, g: Net, dt: real, s: Backward, outstanding: seq<string>, ready: set<string>)
    returns (r: Result<Backward>)
    requires Shaped(g) && dt > 0.0 && s.nodes.Keys == g.configs.Keys
    requires forall p :: p in outstanding ==> p in g.configs
    ensures Agrees(r, SweepSpec(Asker(env, g, dt), g, s, outstanding, ready))
  {
    ghost var ask := Asker(env, g, dt);
    var cur := s;
    var j := 0;
    while j < |outstanding|
      invariant 0 <= j <= |outstanding|
      invariant cur.nodes.Keys == g.configs.Keys
      invariant SweepSpec(ask, g, s, outstanding, ready) == SweepSpec(ask, g, cur, outstanding[j..], ready)
    {
      var p := outstanding[j];
      assert outstanding[j..][0] == p && outstanding[j..][1..] == outstanding[j + 1..];
      if p in ready {
        var t := AnswerNode(env, g, dt, cur, p);
        if t.Err? {
          return Err(t.error);
        }
        cur := t.value;
      }
      j := j + 1;
    }
    assert outstanding[j..] == [];
    r := Ok(cur);
  }

  /** setup's sweeps (plant_model.py:99-146): the while loop over the
      outstanding nodes. */
  method RequestPass(env: Env, g: Net, dt: real, s: Backward) returns (r: Result<Backward>)
    requires Listing(g.order, g.from) && Shaped(g) && dt > 0.0 && s.nodes.Keys == g.configs.Keys
    ensures Agrees(r, PassSpec(Asker(env, g, dt), g, s, {}, g.order, true))
  {
    ghost var ask := Asker(env, g, dt);
    var cur, ran, outstanding, first := s, {}, g.order, true;
    while |outstanding| > 0
      invariant cur.nodes.Keys == g.configs.Keys
      invariant Distinct(outstanding) && forall p :: p in outstanding ==> p in g.configs
      invariant !first ==> forall p :: p in outstanding ==> g.to[p].Some?
      invariant PassSpec(ask, g, s, {}, g.order, true) == PassSpec(ask, g, cur, ran, outstanding, first)
      decreases |outstanding|
    {
      var ready := ReadySet(g.to, outstanding, ran, first);
      assert ready == ReadyOf(g.to, outstanding, ran, first);
      var sw := Sweep(env, g, dt, cur, outstanding, ready);
      if sw.Err? {
        return Err(sw.error);
      }
      if ready == {} {
        return Err(DeadEnd);
      }
      cur, ran, outstanding, first := sw.value, ran + ready, Without(outstanding, ready), false;
    }
    r := Ok(cur);
  }

  // ------------------------------------------------------------ what the pass achieves

  /** Node p has been answered: starting from its record before setup, its
      request() given the merge of its successors' final requests produced its
      final record and request; its energy request is its energy demand, and
      exactly a deposit keeps the request it was given as its baseline. */
  ghost predicate Answered(ask: Ask, g: Net, s0: map<string, NodeState>, s: Backward, p: string)
    requires Shaped(g) && p in g.configs && p in s0
  {
    p in s.nodes && p in s.requests && p in s.energy &&
    Merged(g, p, s.requests).Ok? &&
    ask(p, s0[p], Merged(g, p, s.requests).value) == Ok(Step(s.nodes[p], s.requests[p])) &&
    s.energy[p] == s.nodes[p].energyDemand &&
    (p in s.baseline <==> g.configs[p].role.Deposit?) &&
    (p in s.baseline ==> s.baseline[p] == Merged(g, p, s.requests).value)
  }

  /** What holds after any number of processed nodes: those of `ran` are
      answered, in the order `seen`, each after its successors; the others
      are as before setup; the projected energy is the energy they demand. */
  ghost predicate Progress(ask: Ask, g: Net, s0: map<string, NodeState>, s: Backward,
                           ran: set<string>, seen: seq<string>)
    requires Shaped(g) && s0.Keys == g.configs.Keys
  {
    Records(ask, g, s0, s, ran) && Schedule(g.to, ran, seen)
  }

  /** The records after the nodes of `ran` were processed. */
  ghost predicate Records(ask: Ask, g: Net, s0: map<string, NodeState>, s: Backward, ran: set<string>)
    requires Shaped(g) && s0.Keys == g.configs.Keys
  {
    s.nodes.Keys == g.configs.Keys && ran <= g.configs.Keys && s.baseline.Keys <= ran &&
    (forall p :: p in g.configs && p !in ran ==> s.nodes[p] == s0[p]) &&
    (forall p {:trigger Answered(ask, g, s0, s, p)} :: p in ran ==> Answered(ask, g, s0, s, p)) &&
    s.projected == Sum(Demands(s.nodes, ran))
  }

  /** Where setup stopped: a node still as before setup, whose successors
      have all been answered, and whose request fails. */
  ghost predicate Refused(ask: Ask, g: Net, s0: map<string, NodeState>, s: Backward, c: string)
    requires Shaped(g) && s0.Keys == g.configs.Keys
  {
    c in g.configs && c in s.nodes && s.nodes[c] == s0[c] &&
    (g.to[c].Some? ==> forall d :: d in g.to[c].value ==> d in g.configs && Answered(ask, g, s0, s, d)) &&
    AnswerSpec(ask, g, s, c).Err?
  }

  /** Processing a node whose successors are done keeps every processed node
      answered: their merges read only requests that no longer change. */
  lemma AnswerPreserves(ask: Ask, g: Net, s0: map<string, NodeState>, s: Backward,
                        ran: set<string>, seen: seq<string>, q: string)
    requires Shaped(g) && s0.Keys == g.configs.Keys
    requires Progress(ask, g, s0, s, ran, seen)
    requires q in g.configs && q !in ran
    requires g.to[q].Some? ==> forall d :: d in g.to[q].value ==> d in ran
    requires AnswerSpec(ask, g, s, q).Ok?
    ensures Progress(ask, g, s0, AnswerSpec(ask, g, s, q).value, ran + {q}, seen + [q])
  {
    AnswerRecords(ask, g, s0, s, ran, q);
    ScheduleAppend(g.to, ran, seen, q);
  }

  /** The records part of AnswerPreserves. */
  lemma AnswerRecords(ask: Ask, g: Net, s0: map<string, NodeState>, s: Backward, ran: set<string>, q: string)
    requires Shaped(g) && s0.Keys == g.configs.Keys
    requires Records(ask, g, s0, s, ran)
    requires q in g.configs && q !in ran
    requires g.to[q].Some? ==> forall d :: d in g.to[q].value ==> d in ran
    requires forall p :: p in ran && g.to[p].Some? ==> forall d :: d in g.to[p].value ==> d in ran
    requires AnswerSpec(ask, g, s, q).Ok?
    ensures Records(ask, g, s0, AnswerSpec(ask, g, s, q).value, ran + {q})
  {
    var t := AnswerSpec(ask, g, s, q).value;
    AnswerUpdates(ask, g, s, q);
    forall p | p in ran ensures Answered(ask, g, s0, t, p) {
      AnswerKeeps(ask, g, s0, s, ran, q, p);
    }
    AnswerAnswers(ask, g, s0, s, ran, q);
    AnswerSums(s.nodes, t.nodes, ran, q);
  }

  /** Processing q changes q's entries only, and adds q's energy demand to the
      projected energy. */
  lemma AnswerUpdates(ask: Ask, g: Net, s: Backward, q: string)
    requires Shaped(g) && q in g.configs && q in s.nodes && q !in s.baseline
    requires AnswerSpec(ask, g, s, q).Ok?
    ensures var t := AnswerSpec(ask, g, s, q).value;
            t.nodes.Keys == s.nodes.Keys && q in t.requests && q in t.energy &&
            (forall p :: p != q ==> (p in t.nodes <==> p in s.nodes) && (p in t.nodes ==> t.nodes[p] == s.nodes[p])) &&
            (forall p :: p != q ==> (p in t.requests <==> p in s.requests) && (p in t.requests ==> t.requests[p] == s.requests[p])) &&
            (forall p :: p != q ==> (p in t.energy <==> p in s.energy) && (p in t.energy ==> t.energy[p] == s.energy[p])) &&
            (forall p :: p != q ==> (p in t.baseline <==> p in s.baseline) && (p in t.baseline ==> t.baseline[p] == s.baseline[p])) &&
            t.energy[q] == t.nodes[q].energyDemand &&
            t.projected == s.projected + t.nodes[q].energyDemand &&
            (q in t.baseline <==> g.configs[q].role.Deposit?) &&
            (q in t.baseline ==> t.baseline[q] == Merged(g, q, s.requests).value) &&
            Merged(g, q, s.requests).Ok? &&
            ask(q, s.nodes[q], Merged(g, q, s.requests).value) == Ok(Step(t.nodes[q], t.requests[q]))
  {
    var m := Merged(g, q, s.requests).value;
    var st := ask(q, s.nodes[q], m).value;
    assert AnswerSpec(ask, g, s, q).value ==
           Backward(s.nodes[q := st.node], s.requests[q := st.out], s.energy[q := st.node.energyDemand],
                    if g.configs[q].role.Deposit? then s.baseline[q := m] else s.baseline,
                    s.projected + st.node.energyDemand);
  }

  /** A node answered before q is still answered after. */
  lemma AnswerKeeps(ask: Ask, g: Net, s0: map<string, NodeState>, s: Backward,
                    ran: set<string>, q: string, p: string)
    requires Shaped(g) && s0.Keys == g.configs.Keys
    requires q in g.configs && q in s.nodes && q !in ran && p in ran && p in g.configs && q !in s.baseline
    requires Answered(ask, g, s0, s, p)
    requires g.to[p].Some? ==> forall d :: d in g.to[p].value ==> d in ran
    requires AnswerSpec(ask, g, s, q).Ok?
    ensures Answered(ask, g, s0, AnswerSpec(ask, g, s, q).value, p)
  {
    var t := AnswerSpec(ask, g, s, q).value;
    AnswerUpdates(ask, g, s, q);
    MergedFrame(g, p, s.requests, t.requests);
  }

  /** q itself is answered: its successors' requests are what it merged. */
  lemma AnswerAnswers(ask: Ask, g: Net, s0: map<string, NodeState>, s: Backward, ran: set<string>, q: string)
    requires Shaped(g) && s0.Keys == g.configs.Keys
    requires q in g.configs && q in s.nodes && q !in ran && s.nodes[q] == s0[q] && q !in s.baseline
    requires g.to[q].Some? ==> forall d :: d in g.to[q].value ==> d in ran
    requires AnswerSpec(ask, g, s, q).Ok?
    ensures Answered(ask, g, s0, AnswerSpec(ask, g, s, q).value, q)
  {
    var t := AnswerSpec(ask, g, s, q).value;
    AnswerUpdates(ask, g, s, q);
    MergedFrame(g, q, s.requests, t.requests);
  }

  /** The energy demanded gains q's energy demand. */
  lemma AnswerSums(nodes: map<string, NodeState>, nodes': map<string, NodeState>, ran: set<string>, q: string)
    requires q in nodes' && q !in ran
    requires forall p :: p != q ==> (p in nodes' <==> p in nodes) && (p in nodes' ==> nodes'[p] == nodes[p])
    ensures Sum(Demands(nodes', ran + {q})) == Sum(Demands(nodes, ran)) + nodes'[q].energyDemand
  {
    assert Demands(nodes', ran + {q}) == Demands(nodes, ran)[q := nodes'[q].energyDemand];
    SumAdd(Demands(nodes, ran), q, nodes'[q].energyDemand);
  }

  /** A sweep processes its ready nodes in list order, each after its
      successors, or stops at the first node whose request fails. */
  lemma {:induction false} SweepMeans(ask: Ask, g: Net, s0: map<string, NodeState>, s: Backward,
                                      ran: set<string>, seen: seq<string>, order: seq<string>, ready: set<string>)
    returns (at: Backward, culprit: string)
    requires Shaped(g) && s0.Keys == g.configs.Keys
    requires Progress(ask, g, s0, s, ran, seen)
    requires Distinct(order) && forall p :: p in order ==> p in g.configs && p !in ran
    requires forall p :: p in ready ==> p in g.to && (g.to[p].Some? ==> forall d :: d in g.to[p].value ==> d in ran)
    ensures SweepSpec(ask, g, s, order, ready).Ok? ==>
              Progress(ask, g, s0, SweepSpec(ask, g, s, order, ready).value,
                       ran + (set p | p in order && p in ready), seen + Picked(order, ready))
    ensures SweepSpec(ask, g, s, order, ready).Err? ==> Refused(ask, g, s0, at, culprit)
    decreases |order|
  {
    at, culprit := s, "";
    if order == [] {
      assert ran + (set p | p in order && p in ready) == ran;
      assert seen + Picked(order, ready) == seen;
    } else {
      var q := order[0];
      DistinctTail(order);
      PickedHead(ran, seen, order, ready);
      if q in ready {
        if AnswerSpec(ask, g, s, q).Err? {
          at, culprit := s, q;
        } else {
          var t := AnswerSpec(ask, g, s, q).value;
          AnswerPreserves(ask, g, s0, s, ran, seen, q);
          at, culprit := SweepMeans(ask, g, s0, t, ran + {q}, seen + [q], order[1..], ready);
        }
      } else {
        at, culprit := SweepMeans(ask, g, s0, s, ran, seen, order[1..], ready);
      }
    }
  }

  /** The outstanding list as setup keeps it: no node twice, together with
      the processed nodes exactly the network's nodes; before the first sweep
      nothing is processed, and after it every outstanding node has
      successors. */
  ghost predicate Pending(g: Net, outstanding: seq<string>, ran: set<string>, first: bool) {
    Distinct(outstanding) &&
    (forall p :: p in g.configs <==> p in outstanding || p in ran) &&
    (forall p :: p in outstanding ==> p !in ran) &&
    (first ==> ran == {}) &&
    (!first ==> forall p :: p in outstanding ==> p in g.to && g.to[p].Some?)
  }

  /** From any point of the while loop, the pass either answers every node,
      each after its successors, or stops: at a sweep that processed nothing,
      whose outstanding nodes then form a closed set, or at a node whose
      request fails once its successors answered. */
  lemma {:induction false} PassMeans(ask: Ask, g: Net, s0: map<string, NodeState>, s: Backward,
                                     ran: set<string>, seen: seq<string>, outstanding: seq<string>, first: bool)
    returns (stuck: set<string>, next: map<string, string>, at: Backward, culprit: string)
    requires Shaped(g) && ToNodes(g) && s0.Keys == g.configs.Keys
    requires Progress(ask, g, s0, s, ran, seen) && Pending(g, outstanding, ran, first)
    ensures PassSpec(ask, g, s, ran, outstanding, first).Ok? ==>
              Progress(ask, g, s0, PassSpec(ask, g, s, ran, outstanding, first).value, g.configs.Keys,
                       seen + PassOrder(ask, g, s, ran, outstanding, first))
    ensures PassSpec(ask, g, s, ran, outstanding, first).Err? ==>
              (PassSpec(ask, g, s, ran, outstanding, first).error == DeadEnd && stuck != {} && Closed(g.to, stuck, next)) ||
              Refused(ask, g, s0, at, culprit)
    decreases |outstanding|
  {
    stuck, next, at, culprit := {}, map[], s, "";
    if outstanding == [] {
      PassDone(ask, g, s0, s, ran, seen, outstanding, first);
    } else if SweepSpec(ask, g, s, outstanding, ReadyOf(g.to, outstanding, ran, first)).Err? {
      at, culprit := PassFails(ask, g, s0, s, ran, seen, outstanding, first);
    } else if ReadyOf(g.to, outstanding, ran, first) == {} {
      stuck, next := PassStuck(ask, g, s, ran, outstanding, first);
    } else {
      stuck, next, at, culprit := PassRound(ask, g, s0, s, ran, seen, outstanding, first);
    }
  }

  /** Nothing outstanding: the pass is over, and every node was processed. */
  lemma PassDone(ask: Ask, g: Net, s0: map<string, NodeState>, s: Backward,
                 ran: set<string>, seen: seq<string>, outstanding: seq<string>, first: bool)
    requires Shaped(g) && s0.Keys == g.configs.Keys
    requires Progress(ask, g, s0, s, ran, seen) && Pending(g, outstanding, ran, first)
    requires outstanding == []
    ensures PassSpec(ask, g, s, ran, outstanding, first) == Ok(s)
    ensures Progress(ask, g, s0, s, g.configs.Keys, seen + PassOrder(ask, g, s, ran, outstanding, first))
  {
    assert ran == g.configs.Keys;
    assert seen + PassOrder(ask, g, s, ran, outstanding, first) == seen;
  }

  /** A sweep whose request failed ends the pass with that failure. */
  lemma PassFails(ask: Ask, g: Net, s0: map<string, NodeState>, s: Backward,
                  ran: set<string>, seen: seq<string>, outstanding: seq<string>, first: bool)
    returns (at: Backward, culprit: string)
    requires Shaped(g) && s0.Keys == g.configs.Keys
    requires Progress(ask, g, s0, s, ran, seen) && Pending(g, outstanding, ran, first)
    requires outstanding != [] && SweepSpec(ask, g, s, outstanding, ReadyOf(g.to, outstanding, ran, first)).Err?
    ensures PassSpec(ask, g, s, ran, outstanding, first).Err? && Refused(ask, g, s0, at, culprit)
  {
    at, culprit := SweepMeans(ask, g, s0, s, ran, seen, outstanding, ReadyOf(g.to, outstanding, ran, first));
  }

  /** A sweep that processed nothing ends the pass with a dead end, and the
      outstanding nodes form a closed set. */
  lemma PassStuck(ask: Ask, g: Net, s: Backward, ran: set<string>, outstanding: seq<string>, first: bool)
    returns (stuck: set<string>, next: map<string, string>)
    requires Shaped(g) && ToNodes(g) && s.nodes.Keys == g.configs.Keys
    requires Pending(g, outstanding, ran, first)
    requires outstanding != [] && ReadyOf(g.to, outstanding, ran, first) == {}
    requires SweepSpec(ask, g, s, outstanding, ReadyOf(g.to, outstanding, ran, first)).Ok?
    ensures PassSpec(ask, g, s, ran, outstanding, first) == Err(DeadEnd)
    ensures stuck != {} && Closed(g.to, stuck, next)
  {
    stuck := set p | p in outstanding;
    assert outstanding[0] in stuck;
    next := StuckClosed(g, outstanding, ran, first);
  }

  /** A sweep that processed something: the pass goes on from the sweep's
      result with the processed nodes dropped. */
  lemma {:induction false} PassRound(ask: Ask, g: Net, s0: map<string, NodeState>, s: Backward,
                                     ran: set<string>, seen: seq<string>, outstanding: seq<string>, first: bool)
    returns (stuck: set<string>, next: map<string, string>, at: Backward, culprit: string)
    requires Shaped(g) && ToNodes(g) && s0.Keys == g.configs.Keys
    requires Progress(ask, g, s0, s, ran, seen) && Pending(g, outstanding, ran, first)
    requires outstanding != [] && ReadyOf(g.to, outstanding, ran, first) != {}
    requires SweepSpec(ask, g, s, outstanding, ReadyOf(g.to, outstanding, ran, first)).Ok?
    ensures PassSpec(ask, g, s, ran, outstanding, first).Ok? ==>
              Progress(ask, g, s0, PassSpec(ask, g, s, ran, outstanding, first).value, g.configs.Keys,
                       seen + PassOrder(ask, g, s, ran, outstanding, first))
    ensures PassSpec(ask, g, s, ran, outstanding, first).Err? ==>
              (PassSpec(ask, g, s, ran, outstanding, first).error == DeadEnd && stuck != {} && Closed(g.to, stuck, next)) ||
              Refused(ask, g, s0, at, culprit)
    decreases |outstanding|, 0
  {
    var ready := ReadyOf(g.to, outstanding, ran, first);
    var t := SweepSpec(ask, g, s, outstanding, ready).value;
    var at0, culprit0 := SweepMeans(ask, g, s0, s, ran, seen, outstanding, ready);
    var rest := Without(outstanding, ready);
    var p :| p in ready;
    assert |rest| < |outstanding|;
    PickedAll(ran, outstanding, ready);
    assert Pending(g, rest, ran + ready, false);
    assert PassOrder(ask, g, s, ran, outstanding, first) == Picked(outstanding, ready) + PassOrder(ask, g, t, ran + ready, rest, false);
    Regroup(seen, Picked(outstanding, ready), PassOrder(ask, g, t, ran + ready, rest, false));
    stuck, next, at, culprit := PassMeans(ask, g, s0, t, ran + ready, seen + Picked(outstanding, ready), rest, false);
  }

  /** When no outstanding node is ready, the outstanding nodes form a closed
      set: after the first sweep each waits on an outstanding successor, and
      in the first every node has a non-empty To list of nodes. */
  lemma StuckClosed(g: Net, outstanding: seq<string>, ran: set<string>, first: bool) returns (next: map<string, string>)
    requires Shaped(g) && ToNodes(g)
    requires forall p :: p in g.configs <==> p in outstanding || p in ran
    requires forall p :: p in outstanding ==> p !in ran
    requires first ==> ran == {}
    requires !first ==> forall p :: p in outstanding ==> g.to[p].Some?
    requires forall p :: p in outstanding ==> !Ready(g.to, p, ran, first)
    ensures Closed(g.to, (set p | p in outstanding), next)
  {
    var stuck := set p | p in outstanding;
    next := map p | p in stuck :: Waits(g, p, ran, first);
  }

  /** The successor an unready node waits on. */
  ghost function Waits(g: Net, p: string, ran: set<string>, first: bool): (d: string)
    requires Shaped(g) && ToNodes(g) && p in g.to && !Ready(g.to, p, ran, first)
    requires !first ==> g.to[p].Some?
    ensures g.to[p].Some? && d in g.to[p].value && d in g.configs && (first || d !in ran)
  {
    if first then
      assert g.to[p].value[0] in g.to[p].value;
      g.to[p].value[0]
    else
      var d :| d in g.to[p].value && d !in ran; d
  }

  /** setup's sweeps from their start (plant_model.py:99-146), with the
      projected energy and the baseline requests reset: either every node is
      answered, each after its successors, and the projected energy is the
      sum of the nodes' energy demands; or a sweep processed nothing and the
      outstanding nodes form a closed set; or a node's request failed once
      its successors had answered. */
  lemma SetupMeans(ask: Ask, g: Net, s: Backward)
    returns (stuck: set<string>, next: map<string, string>, at: Backward, culprit: string)
    requires Listing(g.order, g.from) && Shaped(g) && ToNodes(g)
    requires s.nodes.Keys == g.configs.Keys && s.baseline == map[] && s.projected == 0.0
    ensures var r := PassSpec(ask, g, s, {}, g.order, true);
            var order := PassOrder(ask, g, s, {}, g.order, true);
            r.Ok? ==>
              Distinct(order) && (forall p :: p in order <==> p in g.configs) && Ordered(g.to, order) &&
              r.value.nodes.Keys == g.configs.Keys && r.value.baseline.Keys <= g.configs.Keys &&
              (forall p :: p in g.configs ==> Answered(ask, g, s.nodes, r.value, p)) &&
              r.value.projected == Sum(Demands(r.value.nodes, g.configs.Keys))
    ensures var r := PassSpec(ask, g, s, {}, g.order, true);
            r.Err? ==> (r.error == DeadEnd && stuck != {} && Closed(g.to, stuck, next)) ||
                       Refused(ask, g, s.nodes, at, culprit)
  {
    assert Demands(s.nodes, {}) == map[];
    assert Progress(ask, g, s.nodes, s, {}, []);
    assert Pending(g, g.order, {}, true);
    stuck, next, at, culprit := PassMeans(ask, g, s.nodes, s, {}, [], g.order, true);
    assert [] + PassOrder(ask, g, s, {}, g.order, true) == PassOrder(ask, g, s, {}, g.order, true);
  }
}
