/** The end of a production chain: a store of fixed composition. A request
    asks for request mass × fraction of every kind; a run stores the inputs
    in that composition, as much as the scarcest kind allows, and sets the
    rest aside as overage. */
module DepotNode {
  import opened Outcomes
  import opened Folds
  import opened Resources
  import opened Conditioning
  import opened Pools
  import opened Nodes
  import opened Plain
  import opened DepositNode

  /** total × fraction: one kind's part of a total mass. */
  function Portion(total: real, fraction: real): real {
    total * fraction
  }

  // ------------------------------------------------------------ request

  /** One kind of the composition asked for at request mass × fraction. */
  function Asked(registry: Registry, requestMass: real, temperature: Option<real>,
                 pressure: Option<real>, phase: Phase): (string, real) -> Result<ResourceState> {
    (k: string, f: real) => Make(registry, k, Portion(requestMass, f), temperature, pressure, phase)
  }

  /** ResourceDepot.request: it needs a request mass and accepts no request from
      further down; it asks for every kind of its composition and demands no
      energy. */
  ghost function DepotRequestSpec(registry: Registry, fractions: map<string, real>, phase: Phase,
                                  temperature: Option<real>, pressure: Option<real>,
                                  s: NodeState, req: Option<Pool>): (r: Result<Step>)
    ensures s.requestMass.None? ==> r == Err(NoRequestMass)
    ensures s.requestMass.Some? && req.Some? ==> r == Err(UnexpectedRequest)
    ensures r.Ok? ==> r.value.node == s.(energyDemand := 0.0) && r.value.out.Some?
  {
    if s.requestMass.None? then Err(NoRequestMass)
    else if req.Some? then Err(UnexpectedRequest)
    else
      match TraverseSpec(fractions, Asked(registry, s.requestMass.value, temperature, pressure, phase))
      case Err(e) => Err(e)
      case Ok(out) => Ok(Step(s.(energyDemand := 0.0), Some(out)))
  }

  /** A request asks for exactly the kinds of the composition, each at request
      mass × its fraction, in the depot's phase. */
  lemma DepotRequestComposition(registry: Registry, fractions: map<string, real>, phase: Phase,
                                temperature: Option<real>, pressure: Option<real>, s: NodeState)
    requires DepotRequestSpec(registry, fractions, phase, temperature, pressure, s, None).Ok?
    ensures var out := DepotRequestSpec(registry, fractions, phase, temperature, pressure, s, None).value.out.value;
            out.Keys == fractions.Keys &&
            forall k :: k in fractions ==>
              out[k].name == k && out[k].mass == Portion(s.requestMass.value, fractions[k]) && out[k].phase == phase
  {
    var f := Asked(registry, s.requestMass.value, temperature, pressure, phase);
    TraverseSpecOk(fractions, f);
    var out := TraverseSpec(fractions, f).value;
    forall k | k in fractions
      ensures out[k].name == k && out[k].mass == Portion(s.requestMass.value, fractions[k]) && out[k].phase == phase
    {
      assert f(k, fractions[k]) == Make(registry, k, Portion(s.requestMass.value, fractions[k]), temperature, pressure, phase);
    }
  }

  // ------------------------------------------------------------ run: checks

  /** run's check of one kind of the composition: present, and in the depot's
      phase. (The missing-kind message has more placeholders than arguments, so
      Python raises IndexError while formatting it.) */
  function Present(pool: Pool, phase: Phase, k: string): Result<bool> {
    if k !in pool then Err(MessageFormat)
    else if pool[k].phase != phase then Err(InputWrongPhase(k))
    else Ok(true)
  }

  function PresentEntry(pool: Pool, phase: Phase): (string, real) -> Result<bool> {
    (k: string, f: real) => Present(pool, phase, k)
  }

  /** The check passes exactly when every kind of the composition is present in
      the depot's phase. */
  lemma PresentMeans(fractions: map<string, real>, pool: Pool, phase: Phase)
    ensures TraverseSpec(fractions, PresentEntry(pool, phase)).Ok? <==>
              forall k :: k in fractions ==> k in pool && pool[k].phase == phase
  {
    var f := PresentEntry(pool, phase);
    if forall k :: k in fractions ==> k in pool && pool[k].phase == phase {
      forall k | k in fractions ensures f(k, fractions[k]).Ok? {
        assert f(k, fractions[k]) == Present(pool, phase, k);
      }
    } else {
      var k :| k in fractions && !(k in pool && pool[k].phase == phase);
      assert f(k, fractions[k]) == Present(pool, phase, k);
      TraverseSpecErr(fractions, f, k);
    }
  }

  // ------------------------------------------------------------ run: the stored total

  /** Every kind's mass over its fraction: the total its supply would allow. */
  function Supplies(pool: Pool, fractions: map<string, real>): (q: map<string, real>)
    requires PositiveFractions(fractions)
    ensures q.Keys == pool.Keys * fractions.Keys
  {
    Ratios(pool, fractions)
  }

  /** 100 × request mass², the starting value of run's minimum as written. */
  function Cap(requestMass: real): real {
    100.0 * requestMass * requestMass
  }

  /** The total the depot stores as run computes it: the least of the cap and
      every kind's supply. */
  ghost function StoredTotalAsWritten(requestMass: real, supplies: map<string, real>): real {
    MinFrom(Cap(requestMass), supplies)
  }

  /** The total the depot stores as intended: the scarcest kind's supply (0
      for an empty composition). The running minimum starts from a value no
      supply exceeds, so it is never capped. */
  ghost function StoredTotal(supplies: map<string, real>): real {
    MinFrom(MaxFrom(0.0, supplies), supplies)
  }

  /** The total run stores: capped at 100 × request mass² when `capped` (the
      code as written), otherwise the scarcest supply (as intended). */
  ghost function Total(capped: bool, requestMass: real, supplies: map<string, real>): real {
    if capped then StoredTotalAsWritten(requestMass, supplies) else StoredTotal(supplies)
  }

  /** The intended total is the least supply: no kind's supply is below it and
      some kind's supply equals it. */
  lemma StoredTotalLeast(supplies: map<string, real>)
    requires supplies != map[]
    ensures forall k :: k in supplies ==> StoredTotal(supplies) <= supplies[k]
    ensures exists k :: k in supplies && StoredTotal(supplies) == supplies[k]
  {
    var top := MaxFrom(0.0, supplies);
    MaxFromIsMax(0.0, supplies);
    MinFromIsMin(top, supplies);
    if StoredTotal(supplies) == top {
      var j :| j in supplies;
      if top == 0.0 {
        assert StoredTotal(supplies) <= supplies[j] <= top;
      } else {
        var k :| k in supplies && top == supplies[k];
      }
    }
  }

  /** The loop that computes the stored total: a running minimum starting
      from 100 × request mass² as written, or, as intended, from a running
      maximum of the supplies. */
  method ComputeStoredTotal(capped: bool, requestMass: real, pool: Pool, fractions: map<string, real>)
    returns (total: real)
    requires PositiveFractions(fractions) && fractions.Keys <= pool.Keys
    ensures total == Total(capped, requestMass, Supplies(pool, fractions))
  {
    var start := Cap(requestMass);
    assert Ratios(Restrict(pool, fractions.Keys), fractions) == Supplies(pool, fractions);
    if !capped {
      var top := MaxRatio(0.0, Restrict(pool, fractions.Keys), fractions);
      start := top.value;
    }
    total := MinRatio(start, Restrict(pool, fractions.Keys), fractions);
  }

  /** MinFrom over one entry. */
  lemma MinFromOne(init: real, k: string, v: real)
    ensures MinFrom(init, map[k := v]) == Min(init, v)
  {
    MinFromAdd(init, map[], k, v);
    assert map[][k := v] == map[k := v];
  }

  /** When the inputs bring exactly what the depot asked for (request mass ×
      fraction of every kind), the intended total is the request mass: the
      depot stores everything it requested. */
  lemma StoresWhatItRequested(pool: Pool, fractions: map<string, real>, requestMass: real)
    requires PositiveFractions(fractions) && fractions != map[] && fractions.Keys <= pool.Keys
    requires forall k :: k in fractions ==> pool[k].mass == Portion(requestMass, fractions[k])
    ensures StoredTotal(Supplies(pool, fractions)) == requestMass
  {
    var q := Supplies(pool, fractions);
    forall k | k in q ensures q[k] == requestMass {
      assert q[k] == Ratio(Portion(requestMass, fractions[k]), fractions[k]);
    }
    StoredTotalLeast(q);
  }

  /** As written, a depot given exactly what it requested stores less when the
      request mass is below 0.01: request mass 0.001, composition {Water: 1},
      0.001 of water supplied, and the total stored is 0.0001 instead of 0.001. */
  lemma CapCounterexample()
    ensures var pool := map["Water" := Blank("Water").(mass := 0.001)];
            var fractions := map["Water" := 1.0];
            PositiveFractions(fractions) &&
            pool["Water"].mass == Portion(0.001, fractions["Water"]) &&
            StoredTotalAsWritten(0.001, Supplies(pool, fractions)) == 0.0001 &&
            StoredTotal(Supplies(pool, fractions)) == 0.001
  {
    var pool := map["Water" := Blank("Water").(mass := 0.001)];
    var fractions := map["Water" := 1.0];
    var q := Supplies(pool, fractions);
    assert q.Keys == {"Water"};
    assert q == map["Water" := 0.001];
    MinFromOne(Cap(0.001), "Water", 0.001);
    StoredTotalLeast(q);
  }

  // ------------------------------------------------------------ run: storing

  /** What storing one input leaves: its contents entry (None for a kind
      outside the composition) and its overage (None when used up). */
  datatype Stored = Stored(content: Option<ResourceState>, over: Option<ResourceState>)

  /** The overage of a stored kind: nothing when the input is used up within
      the tolerance, otherwise the input less what was stored. */
  function Leftover(r: ResourceState, removed: real): Result<Option<ResourceState>>
    requires removed != 0.0
  {
    if Residual(r.mass, removed) <= ZERO_TOL then Ok(None)
    else
      match WithMass(r, r.mass - removed)
      case Err(e) => Err(e)
      case Ok(left) => Ok(Some(left))
  }

  /** One turn of run's storing loop for a total `total`. */
  function Store(registry: Registry, fractions: map<string, real>, phase: Phase, total: real,
                 k: string, r: ResourceState): Result<Stored> {
    if k !in fractions then Ok(Stored(None, Some(r)))
    else if Portion(total, fractions[k]) == 0.0 then Err(ZeroDivision)
    else
      match Leftover(r, Portion(total, fractions[k]))
      case Err(e) => Err(e)
      case Ok(over) =>
        match Make(registry, k, Portion(total, fractions[k]), r.temperature, r.pressure, phase)
        case Err(e) => Err(e)
        case Ok(c) => Ok(Stored(Some(c), over))
  }

  function StoreEntry(registry: Registry, fractions: map<string, real>, phase: Phase, total: real)
    : (string, ResourceState) -> Result<Stored> {
    (k: string, r: ResourceState) => Store(registry, fractions, phase, total, k, r)
  }

  /** The stored pieces of every input after run's storing loop. */
  ghost function Holdings(registry: Registry, fractions: map<string, real>, phase: Phase, total: real,
                          pool: Pool): Result<map<string, Stored>> {
    TraverseSpec(pool, StoreEntry(registry, fractions, phase, total))
  }

  /** The Contents dict the storing loop builds. */
  function ContentsOf(m: map<string, Stored>): (p: Pool)
    ensures p.Keys == set k | k in m && m[k].content.Some?
    ensures forall k :: k in p ==> m[k].content == Some(p[k])
  {
    map k | k in m && m[k].content.Some? :: m[k].content.value
  }

  /** The Overage dict the storing loop builds. */
  function OverageOf(m: map<string, Stored>): (p: Pool)
    ensures p.Keys == set k | k in m && m[k].over.Some?
    ensures forall k :: k in p ==> m[k].over == Some(p[k])
  {
    map k | k in m && m[k].over.Some? :: m[k].over.value
  }

  /** The depot's holdings after storing the conditioned inputs `cp`. */
  ghost function Keep(registry: Registry, fractions: map<string, real>, phase: Phase, s: NodeState,
                      cp: ConfiguredPool, total: real): (r: Result<Step>)
    ensures r.Ok? ==> r.value.out.None? && r.value.node.contents.Some? && r.value.node.overage.Some? &&
                      r.value.node.(contents := s.contents, overage := s.overage) == s.(energyDemand := cp.energy)
  {
    match Holdings(registry, fractions, phase, total, cp.pool)
    case Err(e) => Err(e)
    case Ok(m) => Ok(Step(s.(energyDemand := cp.energy, contents := Some(ContentsOf(m)), overage := Some(OverageOf(m))), None))
  }

  /** ResourceDepot.run: it needs a request mass; every kind of its composition
      must be present in its phase; the inputs are conditioned to the depot's
      temperature and pressure (the only energy it demands), and then stored
      by `Total(capped, …)`. A node runs it with `capped` set, as written. */
  ghost function DepotRunSpec(env: Env, capped: bool, fractions: map<string, real>, phase: Phase,
                              temperature: Option<real>, pressure: Option<real>,
                              s: NodeState, inputs: Option<Pool>): (r: Result<Step>)
    requires PositiveFractions(fractions)
    ensures s.requestMass.None? ==> r == Err(NoRequestMass)
    ensures s.requestMass.Some? && inputs.None? ==> r == Err(NoneOperand)
    ensures r.Ok? ==> r.value.out.None?
  {
    if s.requestMass.None? then Err(NoRequestMass)
    else if inputs.None? then Err(NoneOperand)
    else
      match TraverseSpec(fractions, PresentEntry(inputs.value, phase))
      case Err(e) => Err(e)
      case Ok(_) =>
        match ConfigureSpec(env, temperature, pressure, inputs.value)
        case Err(e) => Err(e)
        case Ok(cp) => Keep(env.registry, fractions, phase, s, cp, Total(capped, s.requestMass.value, Supplies(cp.pool, fractions)))
  }

  /** A successful run checked every kind of the composition, conditioned the
      inputs and stored them at the total `capped` selects. */
  lemma DepotRunStages(env: Env, capped: bool, fractions: map<string, real>, phase: Phase,
                       temperature: Option<real>, pressure: Option<real>, s: NodeState, pool: Pool)
    requires PositiveFractions(fractions)
    requires DepotRunSpec(env, capped, fractions, phase, temperature, pressure, s, Some(pool)).Ok?
    ensures forall k :: k in fractions ==> k in pool && pool[k].phase == phase
    ensures ConfigureSpec(env, temperature, pressure, pool).Ok?
    ensures ConfigureSpec(env, temperature, pressure, pool).value.pool.Keys == pool.Keys
    ensures DepotRunSpec(env, capped, fractions, phase, temperature, pressure, s, Some(pool)) ==
            Keep(env.registry, fractions, phase, s, ConfigureSpec(env, temperature, pressure, pool).value,
                 Total(capped, s.requestMass.value, Supplies(ConfigureSpec(env, temperature, pressure, pool).value.pool, fractions)))
  {
    PresentMeans(fractions, pool, phase);
    ConfigureSpecEntries(env, temperature, pressure, pool);
  }

  /** One stored kind: it is in the contents at total × fraction in the
      depot's phase; it is in the overage exactly when the remainder is
      outside the tolerance, and then contents and overage add up to the
      input. */
  lemma StoreKind(registry: Registry, fractions: map<string, real>, phase: Phase, total: real,
                  k: string, r: ResourceState)
    requires k in fractions && Store(registry, fractions, phase, total, k, r).Ok?
    ensures var st := Store(registry, fractions, phase, total, k, r).value;
            Portion(total, fractions[k]) != 0.0 &&
            st.content.Some? && st.content.value.mass == Portion(total, fractions[k]) &&
            st.content.value.phase == phase && st.content.value.name == k &&
            (st.over.Some? <==> Residual(r.mass, Portion(total, fractions[k])) > ZERO_TOL) &&
            (st.over.Some? ==> st.over.value.mass + st.content.value.mass == r.mass &&
                               st.over.value.phase == r.phase)
  {
  }

  /** A successful storing loop: every kind of the composition that was
      supplied is stored; every other input goes to the overage unchanged. */
  lemma HoldingsEntries(registry: Registry, fractions: map<string, real>, phase: Phase, total: real,
                        pool: Pool, k: string)
    requires Holdings(registry, fractions, phase, total, pool).Ok? && k in pool
    ensures Holdings(registry, fractions, phase, total, pool).value.Keys == pool.Keys
    ensures Store(registry, fractions, phase, total, k, pool[k]).Ok?
    ensures Holdings(registry, fractions, phase, total, pool).value[k] == Store(registry, fractions, phase, total, k, pool[k]).value
  {
    var f := StoreEntry(registry, fractions, phase, total);
    TraverseSpecOk(pool, f);
    assert f(k, pool[k]) == Store(registry, fractions, phase, total, k, pool[k]);
  }

  /** After a run, each kind of the composition is held at total × fraction
      in the depot's phase, and what was not stored is in the overage: the
      contents and overage of a kind add up to its conditioned input. */
  lemma DepotHolds(registry: Registry, fractions: map<string, real>, phase: Phase, s: NodeState,
                   cp: ConfiguredPool, total: real, k: string)
    requires Keep(registry, fractions, phase, s, cp, total).Ok? && k in cp.pool
    ensures var node := Keep(registry, fractions, phase, s, cp, total).value.node;
            (k in node.contents.value <==> k in fractions) &&
            (k !in fractions ==> k in node.overage.value && node.overage.value[k] == cp.pool[k]) &&
            (k in fractions ==>
               node.contents.value[k].mass == Portion(total, fractions[k]) &&
               node.contents.value[k].phase == phase &&
               (k in node.overage.value <==> Residual(cp.pool[k].mass, Portion(total, fractions[k])) > ZERO_TOL) &&
               (k in node.overage.value ==>
                  node.overage.value[k].mass + node.contents.value[k].mass == cp.pool[k].mass))
  {
    HoldingsEntries(registry, fractions, phase, total, cp.pool, k);
    if k in fractions {
      StoreKind(registry, fractions, phase, total, k, cp.pool[k]);
    }
  }

  /** total × fraction stays within a kind's supply when the total is at most
      its supply, and equals it when the total is its supply. */
  lemma PortionOfSupply(mass: real, fraction: real, total: real)
    requires fraction > 0.0
    ensures total <= Ratio(mass, fraction) ==> Portion(total, fraction) <= mass
    ensures total == Ratio(mass, fraction) ==> Portion(total, fraction) == mass
  {
  }

  /** The depot never stores more of a kind than it was given, and it uses up
      the scarcest kind: with the intended total, every stored mass is at most
      the conditioned input and some kind is stored whole. */
  lemma DepotStoresScarcest(pool: Pool, fractions: map<string, real>, k: string)
    requires PositiveFractions(fractions) && fractions.Keys <= pool.Keys && k in fractions
    ensures Portion(StoredTotal(Supplies(pool, fractions)), fractions[k]) <= pool[k].mass
    ensures exists j :: j in fractions && Portion(StoredTotal(Supplies(pool, fractions)), fractions[j]) == pool[j].mass
  {
    var q := Supplies(pool, fractions);
    StoredTotalLeast(q);
    assert q[k] == Ratio(pool[k].mass, fractions[k]);
    PortionOfSupply(pool[k].mass, fractions[k], StoredTotal(q));
    var j :| j in q && StoredTotal(q) == q[j];
    assert q[j] == Ratio(pool[j].mass, fractions[j]);
    PortionOfSupply(pool[j].mass, fractions[j], StoredTotal(q));
  }

  /** With either total the depot never stores more of a kind than it was
      given: the running minimum never exceeds a kind's supply, whatever it
      starts from. */
  lemma NeverOverdraws(capped: bool, requestMass: real, pool: Pool, fractions: map<string, real>, k: string)
    requires PositiveFractions(fractions) && fractions.Keys <= pool.Keys && k in fractions
    ensures Portion(Total(capped, requestMass, Supplies(pool, fractions)), fractions[k]) <= pool[k].mass
  {
    var q := Supplies(pool, fractions);
    assert k in q && q[k] == Ratio(pool[k].mass, fractions[k]);
    if capped {
      MinFromIsMin(Cap(requestMass), q);
    } else {
      StoredTotalLeast(q);
    }
    PortionOfSupply(pool[k].mass, fractions[k], Total(capped, requestMass, q));
  }

  /** As written, a request mass of 0 caps the total at 0 when no supply is
      negative, so storing any kind of the composition divides by zero. The
      intended total stores the scarcest supply instead. */
  lemma ZeroRequestAsWritten(registry: Registry, fractions: map<string, real>, phase: Phase,
                             supplies: map<string, real>, k: string, r: ResourceState)
    requires PositiveFractions(fractions) && k in fractions
    requires forall j :: j in supplies ==> supplies[j] >= 0.0
    ensures Total(true, 0.0, supplies) == 0.0
    ensures Store(registry, fractions, phase, Total(true, 0.0, supplies), k, r) == Err(ZeroDivision)
  {
    MinFromIsMin(Cap(0.0), supplies);
  }
}
