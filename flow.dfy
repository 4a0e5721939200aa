/** The plant's network and the two rules that move resources along it: how a
    node merges the requests of the nodes it feeds (the backward pass), and how
    a node collects its inputs from the output buffers of the nodes it takes
    from (the forward pass). A name missing from a table is a KeyError
    (MissingKey) and a None used as a list or dict a TypeError (NoneOperand),
    as in the source, although a well-formed network never meets either. */
module Flow {
  import opened Outcomes
  import opened Resources
  import opened Pools
  import opened Nodes
  import opened Linking

  /** The plant's network: definition order, each node's settings, and the
      From and To lists. */
  datatype Net = Net(order: seq<string>, configs: map<string, Config>, from: Links, to: Links)

  /** Every name in a From list is a node, whose To list names the node back. */
  ghost predicate FromLinked(g: Net) {
    forall k, b :: k in g.from && g.from[k].Some? && b in g.from[k].value ==>
      b in g.to && g.to[b].Some? && k in g.to[b].value
  }

  /** Every name in a To list is a node, whose From list names the node back;
      a To list is never empty. */
  ghost predicate ToLinked(g: Net) {
    (forall b, k :: b in g.to && g.to[b].Some? && k in g.to[b].value ==>
       k in g.from && g.from[k].Some? && b in g.from[k].value) &&
    (forall b :: b in g.to && g.to[b].Some? ==> |g.to[b].value| > 0)
  }

  /** Every node has its settings, valid ones, and both link lists. */
  ghost predicate Shaped(g: Net) {
    g.configs.Keys == g.from.Keys && g.to.Keys == g.from.Keys &&
    (forall k :: k in g.configs ==> ValidRole(g.configs[k].role))
  }

  /** Every To list is non-empty and names nodes only. */
  ghost predicate ToNodes(g: Net) {
    forall b :: b in g.to && g.to[b].Some? ==>
      |g.to[b].value| > 0 && forall k :: k in g.to[b].value ==> k in g.configs
  }

  /** Every From list names nodes only. */
  ghost predicate FromNodes(g: Net) {
    forall k :: k in g.from && g.from[k].Some? ==> forall b :: b in g.from[k].value ==> b in g.configs
  }

  /** A linked network of valid nodes. */
  ghost predicate WellFormed(g: Net) {
    Listing(g.order, g.from) && Shaped(g) && FromLinked(g) && ToLinked(g)
  }

  lemma WellFormedToNodes(g: Net)
    requires WellFormed(g)
    ensures ToNodes(g)
  {
  }

  lemma WellFormedFromNodes(g: Net)
    requires WellFormed(g)
    ensures FromNodes(g)
  {
  }

  lemma LinkedFromLinked(g: Net)
    requires Listing(g.order, g.from) && Linked(g.order, g.from) == Ok(g.to)
    ensures FromLinked(g)
  {
    LinkedFails(g.order, g.from);
    forall k, b | k in g.from && g.from[k].Some? && b in g.from[k].value
      ensures b in g.to && g.to[b].Some? && k in g.to[b].value
    {
      LinkedMeans(g.order, g.from, b, k);
    }
  }

  lemma LinkedToLinked(g: Net)
    requires Listing(g.order, g.from) && Linked(g.order, g.from) == Ok(g.to)
    ensures ToLinked(g)
  {
    forall b, k | b in g.to && g.to[b].Some? && k in g.to[b].value
      ensures k in g.from && g.from[k].Some? && b in g.from[k].value
    {
      LinkedMeans(g.order, g.from, "", "");
      LinkedBack(g.order, g.from, b, k);
    }
    forall b | b in g.to && g.to[b].Some? ensures |g.to[b].value| > 0 {
      LinkedMeans(g.order, g.from, "", "");
      LinkedMeans(g.order, g.from, b, b);
    }
  }

  lemma LinkedBack(order: seq<string>, from: Links, b: string, k: string)
    requires Listing(order, from) && Linked(order, from).Ok?
    requires b in Linked(order, from).value && Linked(order, from).value[b].Some?
    requires k in Linked(order, from).value[b].value
    ensures k in from && from[k].Some? && b in from[k].value
  {
    LinkedMeans(order, from, b, k);
  }

  /** Linking makes a well-formed network out of valid nodes. */
  lemma LinkedWellFormed(order: seq<string>, configs: map<string, Config>, from: Links)
    requires Listing(order, from) && configs.Keys == from.Keys
    requires forall k :: k in configs ==> ValidRole(configs[k].role)
    requires Linked(order, from).Ok?
    ensures WellFormed(Net(order, configs, from, Linked(order, from).value))
  {
    var g := Net(order, configs, from, Linked(order, from).value);
    LinkedMeans(order, from, "", "");
    LinkedFromLinked(g);
    LinkedToLinked(g);
  }

  // ------------------------------------------------------------ requests (setup)

  type Requests = map<string, Option<Pool>>

  /** What successor d's request contributes to node p's merged request:
      nothing for no request; the kinds p can be asked for when d has several
      predecessors (a None request whitelist fails unless the request is
      empty); otherwise the whole request. */
  function Forwarded(g: Net, p: string, d: string, reqs: Requests): Result<Pool>
    requires p in g.configs
  {
    if d !in g.from || d !in reqs then Err(MissingKey)
    else
      match reqs[d]
      case None => Ok(map[])
      case Some(r) =>
        if g.from[d].None? then Err(NoneOperand)
        else if |g.from[d].value| > 1 then
          match RequestWhitelist(g.configs[p])
          case None => if |r| == 0 then Ok(map[]) else Err(NoneOperand)
          case Some(w) => Ok(Restrict(r, w))
        else Ok(r)
  }

  /** The successors' contributions merged in list order, a later one
      overriding an earlier one on a shared kind. */
  function MergeOver(g: Net, p: string, ds: seq<string>, reqs: Requests): Result<Pool>
    requires p in g.configs
  {
    if ds == [] then Ok(map[])
    else
      match MergeOver(g, p, ds[..|ds| - 1], reqs)
      case Err(e) => Err(e)
      case Ok(acc) =>
        match Forwarded(g, p, ds[|ds| - 1], reqs)
        case Err(e) => Err(e)
        case Ok(f) => Ok(acc + f)
  }

  /** The request setup hands node p: None for a node without successors,
      otherwise its successors' requests merged. */
  function Merged(g: Net, p: string, reqs: Requests): Result<Option<Pool>>
    requires p in g.configs && p in g.to
  {
    if g.to[p].None? then Ok(None)
    else
      match MergeOver(g, p, g.to[p].value, reqs)
      case Err(e) => Err(e)
      case Ok(m) => Ok(Some(m))
  }

  /** What one successor forwards: every kind of its request when p is its
      only predecessor, only the kinds p can be asked for when it has several;
      a None request whitelist fails on a non-empty request. */
  lemma ForwardedMeans(g: Net, p: string, d: string, reqs: Requests, k: string)
    requires p in g.configs && d in g.from && g.from[d].Some? && d in reqs
    ensures Forwarded(g, p, d, reqs).Err? <==>
            reqs[d].Some? && |reqs[d].value| > 0 && |g.from[d].value| > 1 && RequestWhitelist(g.configs[p]).None?
    ensures Forwarded(g, p, d, reqs).Ok? ==>
              (k in Forwarded(g, p, d, reqs).value <==>
                 reqs[d].Some? && k in reqs[d].value &&
                 (|g.from[d].value| > 1 ==> k in RequestWhitelist(g.configs[p]).value)) &&
              (k in Forwarded(g, p, d, reqs).value ==> Forwarded(g, p, d, reqs).value[k] == reqs[d].value[k])
  {
  }

  /** The merge succeeds exactly when every contribution does. */
  lemma {:induction false} MergeOverOk(g: Net, p: string, ds: seq<string>, reqs: Requests)
    requires p in g.configs
    ensures MergeOver(g, p, ds, reqs).Ok? <==> forall i :: 0 <= i < |ds| ==> Forwarded(g, p, ds[i], reqs).Ok?
  {
    if ds != [] {
      var init := ds[..|ds| - 1];
      assert forall i :: 0 <= i < |init| ==> init[i] == ds[i];
      MergeOverOk(g, p, init, reqs);
    }
  }

  /** The successors that forward kind k. */
  ghost predicate Forwards(g: Net, p: string, d: string, reqs: Requests, k: string)
    requires p in g.configs
  {
    Forwarded(g, p, d, reqs).Ok? && k in Forwarded(g, p, d, reqs).value
  }

  /** A kind is in the merge exactly when some successor forwards it. */
  lemma {:induction false} MergeOverKinds(g: Net, p: string, ds: seq<string>, reqs: Requests, k: string)
    requires p in g.configs && MergeOver(g, p, ds, reqs).Ok?
    ensures k in MergeOver(g, p, ds, reqs).value <==> exists i :: 0 <= i < |ds| && Forwards(g, p, ds[i], reqs, k)
  {
    if ds != [] {
      var n := |ds| - 1;
      var init := ds[..n];
      assert forall i :: 0 <= i < |init| ==> init[i] == ds[i];
      MergeOverKinds(g, p, init, reqs, k);
      if k in MergeOver(g, p, ds, reqs).value && !Forwards(g, p, ds[n], reqs, k) {
        var i :| 0 <= i < |init| && Forwards(g, p, init[i], reqs, k);
        assert Forwards(g, p, ds[i], reqs, k);
      }
    }
  }

  /** A merged kind has the value the last successor forwarding it gives. */
  lemma {:induction false} MergeOverLast(g: Net, p: string, ds: seq<string>, reqs: Requests, i: int, k: string)
    requires p in g.configs && MergeOver(g, p, ds, reqs).Ok?
    requires 0 <= i < |ds| && Forwards(g, p, ds[i], reqs, k)
    requires forall j :: i < j < |ds| ==> !Forwards(g, p, ds[j], reqs, k)
    ensures k in MergeOver(g, p, ds, reqs).value
    ensures MergeOver(g, p, ds, reqs).value[k] == Forwarded(g, p, ds[i], reqs).value[k]
  {
    var n := |ds| - 1;
    var init := ds[..n];
    if i < n {
      assert forall j :: 0 <= j < |init| ==> init[j] == ds[j];
      MergeOverLast(g, p, init, reqs, i, k);
      assert !Forwards(g, p, ds[n], reqs, k);
    }
  }

  /** The merge reads only the successors' requests. */
  lemma {:induction false} MergeOverFrame(g: Net, p: string, ds: seq<string>, reqs: Requests, reqs': Requests)
    requires p in g.configs
    requires forall d :: d in ds ==> (d in reqs' <==> d in reqs) && (d in reqs ==> reqs'[d] == reqs[d])
    ensures MergeOver(g, p, ds, reqs') == MergeOver(g, p, ds, reqs)
  {
    if ds != [] {
      var init := ds[..|ds| - 1];
      assert forall d :: d in init ==> d in ds;
      MergeOverFrame(g, p, init, reqs, reqs');
      assert Forwarded(g, p, ds[|ds| - 1], reqs') == Forwarded(g, p, ds[|ds| - 1], reqs);
    }
  }

  /** A node's merged request reads only its successors' requests. */
  lemma MergedFrame(g: Net, p: string, reqs: Requests, reqs': Requests)
    requires p in g.configs && p in g.to
    requires g.to[p].Some? ==> forall d :: d in g.to[p].value ==> (d in reqs' <==> d in reqs) && (d in reqs ==> reqs'[d] == reqs[d])
    ensures Merged(g, p, reqs') == Merged(g, p, reqs)
  {
    if g.to[p].Some? {
      MergeOverFrame(g, p, g.to[p].value, reqs, reqs');
    }
  }

  /** A failure part-way through the successors is the merge's failure. */
  lemma {:induction false} MergeOverPrefixErr(g: Net, p: string, ds: seq<string>, reqs: Requests, j: int)
    requires p in g.configs && 0 <= j <= |ds| && MergeOver(g, p, ds[..j], reqs).Err?
    ensures MergeOver(g, p, ds, reqs) == MergeOver(g, p, ds[..j], reqs)
    decreases |ds|
  {
    if j == |ds| {
      assert ds[..j] == ds;
    } else {
      var init := ds[..|ds| - 1];
      assert init[..j] == ds[..j];
      MergeOverPrefixErr(g, p, init, reqs, j);
    }
  }

  /** setup's merge loop over a node's To list. */
  method MergeRequests(g: Net, p: string, reqs: Requests) returns (r: Result<Option<Pool>>)
    requires p in g.configs && p in g.to
    ensures r == Merged(g, p, reqs)
  {
    if g.to[p].None? {
      return Ok(None);
    }
    var ds := g.to[p].value;
    var acc: Pool := map[];
    var i := 0;
    while i < |ds|
      invariant 0 <= i <= |ds|
      invariant MergeOver(g, p, ds[..i], reqs) == Ok(acc)
    {
      assert ds[..i + 1][..i] == ds[..i];
      var d := ds[i];
      var f := Forwarded(g, p, d, reqs);
      if f.Err? {
        MergeOverPrefixErr(g, p, ds, reqs, i + 1);
        return Err(f.error);
      }
      acc := acc + f.value;
      i := i + 1;
    }
    assert ds[..i] == ds;
    r := Ok(Some(acc));
  }

  /** The energy demands of the nodes of `ks`, by node. */
  function Demands(nodes: map<string, NodeState>, ks: set<string>): (m: map<string, real>)
    ensures m.Keys == nodes.Keys * ks
    ensures forall p :: p in m ==> m[p] == nodes[p].energyDemand
  {
    map p | p in nodes && p in ks :: nodes[p].energyDemand
  }

  // ------------------------------------------------------------ inputs (run)

  type Buffers = map<string, Option<Pool>>

  /** The kinds the other consumers of a producer accept (run's blacklist):
      the union of their whitelists; a sibling without a whitelist fails. */
  function Blacklist(g: Net, p: string, siblings: seq<string>): Result<set<string>> {
    if siblings == [] then Ok({})
    else
      var o := siblings[|siblings| - 1];
      match Blacklist(g, p, siblings[..|siblings| - 1])
      case Err(e) => Err(e)
      case Ok(bl) =>
        if o == p then Ok(bl)
        else if o !in g.configs then Err(MissingKey)
        else
          match Whitelist(g.configs[o])
          case None => Err(NoneOperand)
          case Some(w) => Ok(bl + w)
  }

  /** A sibling whose whitelist can be read. */
  ghost predicate Listed(g: Net, o: string) {
    o in g.configs && Whitelist(g.configs[o]).Some?
  }

  lemma {:induction false} BlacklistMeans(g: Net, p: string, siblings: seq<string>, k: string)
    ensures Blacklist(g, p, siblings).Ok? <==> forall o :: o in siblings && o != p ==> Listed(g, o)
    ensures Blacklist(g, p, siblings).Ok? ==>
              (k in Blacklist(g, p, siblings).value <==>
               exists o :: o in siblings && o != p && Listed(g, o) && k in Whitelist(g.configs[o]).value)
  {
    if siblings != [] {
      var last := siblings[|siblings| - 1];
      var init := siblings[..|siblings| - 1];
      assert siblings == init + [last];
      assert forall o :: o in siblings <==> o in init || o == last;
      BlacklistMeans(g, p, init, k);
      if Blacklist(g, p, init).Ok? && last != p && !Listed(g, last) {
        assert Blacklist(g, p, siblings).Err?;
      }
    }
  }

  /** The kinds consumer p takes out of producer u's buffer b: its whitelist
      when it filters (a None whitelist fails unless b is empty), what no
      sibling accepts when u feeds several consumers, and everything
      otherwise. */
  function Take(g: Net, p: string, u: string, b: Pool): Result<set<string>>
    requires p in g.configs
  {
    if g.configs[p].filter then
      match Whitelist(g.configs[p])
      case None => if |b| == 0 then Ok({}) else Err(NoneOperand)
      case Some(w) => Ok(b.Keys * w)
    else if u !in g.to then Err(MissingKey)
    else if g.to[u].None? then Err(NoneOperand)
    else if |g.to[u].value| > 1 then
      match Blacklist(g, p, g.to[u].value)
      case Err(e) => Err(e)
      case Ok(bl) => Ok(b.Keys - bl)
    else Ok(b.Keys)
  }

  /** The inputs collected so far and the output buffers left. */
  datatype Gathering = Gathering(inputs: Pool, buffers: Buffers)

  /** One producer's share moved into the consumer's inputs: the taken kinds
      override earlier inputs of the same kind and leave the buffer; a None
      buffer fails. */
  function GatherOne(g: Net, p: string, u: string, s: Gathering): (r: Result<Gathering>)
    requires p in g.configs
    ensures r.Ok? ==> r.value.buffers.Keys == s.buffers.Keys
  {
    if u !in s.buffers then Err(MissingKey)
    else
      match s.buffers[u]
      case None => Err(NoneOperand)
      case Some(b) =>
        match Take(g, p, u, b)
        case Err(e) => Err(e)
        case Ok(ks) => Ok(Gathering(s.inputs + Restrict(b, ks), s.buffers[u := Some(b - ks)]))
  }

  /** The producers' shares collected in From order. */
  function GatherOver(g: Net, p: string, us: seq<string>, s: Gathering): (r: Result<Gathering>)
    requires p in g.configs
    ensures r.Ok? ==> r.value.buffers.Keys == s.buffers.Keys
  {
    if us == [] then Ok(s)
    else
      match GatherOver(g, p, us[..|us| - 1], s)
      case Err(e) => Err(e)
      case Ok(t) => GatherOne(g, p, us[|us| - 1], t)
  }

  /** What run hands node p, and what is left in the buffers: None for a node
      without predecessors; otherwise what it collects starting from nothing. */
  function Gathered(g: Net, p: string, buffers: Buffers): (r: Result<(Option<Pool>, Buffers)>)
    requires p in g.configs && p in g.from
    ensures r.Ok? ==> r.value.1.Keys == buffers.Keys
  {
    if g.from[p].None? then Ok((None, buffers))
    else
      match GatherOver(g, p, g.from[p].value, Gathering(map[], buffers))
      case Err(e) => Err(e)
      case Ok(t) => Ok((Some(t.inputs), t.buffers))
  }

  /** The splitting rule: a consumer accepts a kind by its own whitelist when
      it filters; when its producer has several consumers, when no sibling's
      whitelist has it; and always when it is the only consumer. */
  ghost predicate Accepts(g: Net, p: string, u: string, k: string)
    requires p in g.configs && u in g.to && g.to[u].Some?
  {
    if g.configs[p].filter then Whitelist(g.configs[p]).Some? && k in Whitelist(g.configs[p]).value
    else if |g.to[u].value| > 1 then
      forall o :: o in g.to[u].value && o != p && Listed(g, o) ==> k !in Whitelist(g.configs[o]).value
    else true
  }

  /** When one producer's share fails: a missing or None buffer, a filtering
      consumer without whitelist facing a non-empty buffer, or an unfiltered
      consumer of a shared producer with a sibling without a whitelist. */
  lemma GatherOneFails(g: Net, p: string, u: string, s: Gathering)
    requires p in g.configs && u in g.to && g.to[u].Some?
    ensures GatherOne(g, p, u, s).Err? <==>
            u !in s.buffers || s.buffers[u].None? ||
            (g.configs[p].filter && Whitelist(g.configs[p]).None? && |s.buffers[u].value| > 0) ||
            (!g.configs[p].filter && |g.to[u].value| > 1 &&
             exists o :: o in g.to[u].value && o != p && !Listed(g, o))
  {
    BlacklistMeans(g, p, g.to[u].value, "");
  }

  /** One producer's share, kind by kind: a kind of the buffer the consumer
      accepts moves to the inputs, any other kind stays in the buffer,
      unchanged either way; no other buffer changes. */
  lemma GatherOneMeans(g: Net, p: string, u: string, s: Gathering, k: string)
    requires p in g.configs && u in g.to && g.to[u].Some?
    requires GatherOne(g, p, u, s).Ok?
    ensures u in s.buffers && s.buffers[u].Some?
    ensures var b := s.buffers[u].value;
            var t := GatherOne(g, p, u, s).value;
            t.buffers[u].Some? &&
            (forall v :: v in s.buffers && v != u ==> t.buffers[v] == s.buffers[v]) &&
            (k in b && Accepts(g, p, u, k) ==> k in t.inputs && t.inputs[k] == b[k] && k !in t.buffers[u].value) &&
            (k in b && !Accepts(g, p, u, k) ==> k in t.buffers[u].value && t.buffers[u].value[k] == b[k] &&
                                                (k in t.inputs <==> k in s.inputs) &&
                                                (k in s.inputs ==> t.inputs[k] == s.inputs[k])) &&
            (k !in b ==> k !in t.buffers[u].value && (k in t.inputs <==> k in s.inputs) &&
                         (k in s.inputs ==> t.inputs[k] == s.inputs[k]))
  {
    if !g.configs[p].filter && |g.to[u].value| > 1 {
      BlacklistMeans(g, p, g.to[u].value, k);
    }
  }

  /** Buffers only lose kinds while a consumer collects its inputs: what is
      left of a buffer is part of what was there, and no buffer appears or
      disappears. */
  lemma {:induction false} GatherOverShrinks(g: Net, p: string, us: seq<string>, s: Gathering, v: string, k: string)
    requires p in g.configs && GatherOver(g, p, us, s).Ok? && v in s.buffers
    ensures GatherOver(g, p, us, s).value.buffers[v].Some? <==> s.buffers[v].Some?
    ensures s.buffers[v].Some? && k in GatherOver(g, p, us, s).value.buffers[v].value ==>
              k in s.buffers[v].value && GatherOver(g, p, us, s).value.buffers[v].value[k] == s.buffers[v].value[k]
  {
    if us != [] {
      GatherOverShrinks(g, p, us[..|us| - 1], s, v, k);
    }
  }

  lemma GatheredShrinks(g: Net, p: string, buffers: Buffers, v: string, k: string)
    requires p in g.configs && p in g.from && Gathered(g, p, buffers).Ok? && v in buffers
    ensures Gathered(g, p, buffers).value.1[v].Some? <==> buffers[v].Some?
    ensures buffers[v].Some? && k in Gathered(g, p, buffers).value.1[v].value ==>
              k in buffers[v].value && Gathered(g, p, buffers).value.1[v].value[k] == buffers[v].value[k]
  {
    if g.from[p].Some? {
      GatherOverShrinks(g, p, g.from[p].value, Gathering(map[], buffers), v, k);
    }
  }

  /** Where collected inputs come from: every kind collected is either one
      held before, or the very resource one of the producers had in its
      buffer when the collection began. */
  lemma {:induction false} GatherOverFrom(g: Net, p: string, us: seq<string>, s: Gathering, k: string)
    requires p in g.configs && GatherOver(g, p, us, s).Ok? && k in GatherOver(g, p, us, s).value.inputs
    ensures var v := GatherOver(g, p, us, s).value.inputs[k];
            (k in s.inputs && v == s.inputs[k]) ||
            exists u :: u in us && u in s.buffers && s.buffers[u].Some? && k in s.buffers[u].value &&
                        s.buffers[u].value[k] == v
  {
    if us != [] {
      var init, u := us[..|us| - 1], us[|us| - 1];
      var t := GatherOver(g, p, init, s).value;
      var b := t.buffers[u].value;
      var ks := Take(g, p, u, b).value;
      var v := GatherOver(g, p, us, s).value.inputs[k];
      if k in Restrict(b, ks) {
        GatherOverShrinks(g, p, init, s, u, k);
        assert u in us && s.buffers[u].value[k] == v;
      } else {
        GatherOverFrom(g, p, init, s, k);
        if !(k in s.inputs && v == s.inputs[k]) {
          var w :| w in init && w in s.buffers && s.buffers[w].Some? && k in s.buffers[w].value &&
                   s.buffers[w].value[k] == v;
          assert w in us;
        }
      }
    }
  }

  /** What run hands a node comes from its From nodes: nothing exactly when
      it has no From list, and otherwise every kind is the very resource one
      of its From nodes had in its buffer. */
  lemma GatheredFrom(g: Net, p: string, buffers: Buffers, k: string)
    requires p in g.configs && p in g.from && Gathered(g, p, buffers).Ok?
    ensures Gathered(g, p, buffers).value.0.None? <==> g.from[p].None?
    ensures var i := Gathered(g, p, buffers).value.0;
            i.Some? && k in i.value ==>
              g.from[p].Some? &&
              exists u :: u in g.from[p].value && u in buffers && buffers[u].Some? && k in buffers[u].value &&
                          buffers[u].value[k] == i.value[k]
  {
    var i := Gathered(g, p, buffers).value.0;
    if i.Some? && k in i.value {
      GatherOverFrom(g, p, g.from[p].value, Gathering(map[], buffers), k);
    }
  }

  /** A failure part-way through the producers is the collection's failure. */
  lemma {:induction false} GatherOverPrefixErr(g: Net, p: string, us: seq<string>, s: Gathering, j: int)
    requires p in g.configs && 0 <= j <= |us| && GatherOver(g, p, us[..j], s).Err?
    ensures GatherOver(g, p, us, s) == GatherOver(g, p, us[..j], s)
    decreases |us|
  {
    if j == |us| {
      assert us[..j] == us;
    } else {
      var init := us[..|us| - 1];
      assert init[..j] == us[..j];
      GatherOverPrefixErr(g, p, init, s, j);
    }
  }

  /** run's collection loop over a node's From list. */
  method GatherInputs(g: Net, p: string, buffers: Buffers) returns (r: Result<(Option<Pool>, Buffers)>)
    requires p in g.configs && p in g.from
    ensures r == Gathered(g, p, buffers)
  {
    if g.from[p].None? {
      return Ok((None, buffers));
    }
    var us := g.from[p].value;
    var s := Gathering(map[], buffers);
    var i := 0;
    while i < |us|
      invariant 0 <= i <= |us|
      invariant GatherOver(g, p, us[..i], Gathering(map[], buffers)) == Ok(s)
    {
      assert us[..i + 1][..i] == us[..i];
      var u := us[i];
      if u !in s.buffers || s.buffers[u].None? {
        GatherOverPrefixErr(g, p, us, Gathering(map[], buffers), i + 1);
        return Err(if u !in s.buffers then MissingKey else NoneOperand);
      }
      var b := s.buffers[u].value;
      var ks := Take(g, p, u, b);
      if ks.Err? {
        GatherOverPrefixErr(g, p, us, Gathering(map[], buffers), i + 1);
        return Err(ks.error);
      }
      var taken, kept := Partition(b, ks.value);
      s := Gathering(s.inputs + taken, s.buffers[u := Some(kept)]);
      i := i + 1;
    }
    assert us[..i] == us;
    r := Ok((Some(s.inputs), s.buffers));
  }
}
