/** The two directions of a transform process. Forward (run): validate and
    condition the inputs, set aside what the transform does not consume, find
    the duty cycle the inputs allow, emit the outputs and deduct the inputs.
    Backward (request): check what is asked of the outputs, credit the
    conditioning upstream, find the duty cycle the request needs and ask for
    the inputs that cycle consumes. */
module Plain {
  import opened Outcomes
  import opened Folds
  import opened Resources
  import opened Transforms
  import opened Conditioning
  import opened Pools
  import opened Nodes

  // ------------------------------------------------------------ arithmetic

  /** The mass a component amounts to over `time` is positive for a positive time. */
  lemma MassOverPositive(c: Component, time: real)
    requires c.rate > 0.0 && time > 0.0
    ensures MassOver(c, time) > 0.0
  {
  }

  /** Δt × duty × rate: the mass a component makes or takes over a step. */
  function DutyMass(time: real, duty: real, rate: real): real {
    time * duty * rate
  }

  /** Every entry of the dict built from a list is one of the list's components. */
  lemma {:induction false} ByNameValues(cs: seq<Component>)
    ensures forall k :: k in ByName(cs) ==> ByName(cs)[k] in cs
  {
    if cs != [] {
      ByNameValues(cs[1..]);
      forall k | k in ByName(cs) ensures ByName(cs)[k] in cs {
        if k != cs[0].name {
          assert ByName(cs)[k] == ByName(cs[1..])[k];
        }
      }
    }
  }

  /** Catalog rates make every full-duty mass positive, so the ratio loops never
      divide by zero. */
  lemma FullDutyPositive(t: Transform, time: real)
    requires ValidTransform(t) && time > 0.0
    ensures forall k :: k in ByName(t.inputs) ==> MassOver(ByName(t.inputs)[k], time) > 0.0
    ensures forall k :: k in ByName(t.outputs) ==> MassOver(ByName(t.outputs)[k], time) > 0.0
    ensures NonZero(InputMasses(t, time)) && NonZero(OutputMasses(t, time))
  {
    ByNameValues(t.inputs);
    ByNameValues(t.outputs);
    forall k | k in ByName(t.inputs) ensures MassOver(ByName(t.inputs)[k], time) > 0.0 {
      MassOverPositive(ByName(t.inputs)[k], time);
    }
    forall k | k in ByName(t.outputs) ensures MassOver(ByName(t.outputs)[k], time) > 0.0 {
      MassOverPositive(ByName(t.outputs)[k], time);
    }
  }

  // ------------------------------------------------------------ validation

  /** The named inputs run insists on: those declared before the first wildcard. */
  function BeforeAny(cs: seq<Component>): (r: seq<Component>)
    ensures |r| <= |cs| && r == cs[..|r|]
    ensures forall c :: c in r ==> c.name != ANY
    ensures |r| < |cs| ==> cs[|r|].name == ANY
  {
    if cs == [] || cs[0].name == ANY then [] else [cs[0]] + BeforeAny(cs[1..])
  }

  /** The first failure of run's validation loop, taking the declared inputs in
      order and stopping at the wildcard. */
  function Validate(cs: seq<Component>, pool: Pool): Option<Error> {
    if cs == [] || cs[0].name == ANY then None
    else if cs[0].name !in pool then Some(MissingInput(cs[0].name))
    else if pool[cs[0].name].phase != cs[0].phase then Some(InputWrongPhase(cs[0].name))
    else Validate(cs[1..], pool)
  }

  /** Validation passes exactly when every input declared before the wildcard is
      present in its phase; a failure names a missing kind or one in the wrong
      phase. */
  lemma {:induction false} ValidateMeans(cs: seq<Component>, pool: Pool)
    ensures Validate(cs, pool).None? <==>
              forall c :: c in BeforeAny(cs) ==> c.name in pool && pool[c.name].phase == c.phase
    ensures Validate(cs, pool).Some? ==>
              exists c :: c in BeforeAny(cs) &&
                ((Validate(cs, pool) == Some(MissingInput(c.name)) && c.name !in pool) ||
                 (Validate(cs, pool) == Some(InputWrongPhase(c.name)) && c.name in pool && pool[c.name].phase != c.phase))
  {
    if cs != [] && cs[0].name != ANY {
      ValidateMeans(cs[1..], pool);
      assert BeforeAny(cs) == [cs[0]] + BeforeAny(cs[1..]);
    }
  }

  /** run's validation loop. */
  method ValidateInputs(cs: seq<Component>, pool: Pool) returns (e: Option<Error>)
    ensures e == Validate(cs, pool)
  {
    var i := 0;
    while i < |cs|
      invariant 0 <= i <= |cs|
      invariant Validate(cs, pool) == Validate(cs[i..], pool)
    {
      assert cs[i..][0] == cs[i] && cs[i..][1..] == cs[i + 1..];
      if cs[i].name == ANY {
        return None;
      }
      if cs[i].name !in pool {
        return Some(MissingInput(cs[i].name));
      }
      if pool[cs[i].name].phase != cs[i].phase {
        return Some(InputWrongPhase(cs[i].name));
      }
      i := i + 1;
    }
    assert cs[i..] == [];
    e := None;
  }

  // ------------------------------------------------------------ consumption

  /** The inputs run consumes: with a wildcard, every resource in the
      wildcard's phase; otherwise every declared input kind. */
  function Consumed(t: Transform, pool: Pool): (keys: set<string>)
    ensures forall k :: k in keys <==>
              k in pool && (if ANY in ByName(t.inputs) then pool[k].phase == ByName(t.inputs)[ANY].phase
                            else k in ByName(t.inputs))
  {
    set k | k in pool && (if ANY in ByName(t.inputs) then pool[k].phase == ByName(t.inputs)[ANY].phase
                          else k in ByName(t.inputs))
  }

  /** The duty cycle the consumed inputs allow: with a wildcard, their total
      mass over what the wildcard takes at full duty; otherwise the scarcest
      input relative to its full-duty mass; never above 1. */
  ghost function RunDuty(t: Transform, time: real, used: Pool): real
    requires ValidTransform(t) && time > 0.0
  {
    FullDutyPositive(t, time);
    var byName := ByName(t.inputs);
    if ANY in byName then Min(1.0, Ratio(TotalMass(used), MassOver(byName[ANY], time)))
    else MinFrom(1.0, Ratios(used, InputMasses(t, time)))
  }

  /** run's duty-cycle computation. */
  method RunDutyCycle(t: Transform, time: real, used: Pool) returns (duty: real)
    requires ValidTransform(t) && time > 0.0
    requires !(ANY in ByName(t.inputs)) ==> used.Keys <= ByName(t.inputs).Keys
    ensures duty == RunDuty(t, time, used)
  {
    FullDutyPositive(t, time);
    var byName := ByName(t.inputs);
    if ANY in byName {
      var total := AddUp(MassesOf(used));
      duty := Min(1.0, total / MassOver(byName[ANY], time));
    } else {
      duty := MinRatio(1.0, used, InputMasses(t, time));
    }
  }

  /** The duty cycle of run is at most 1; without a wildcard it is the least of
      1 and every consumed input's mass over its full-duty mass. */
  lemma RunDutyBounds(t: Transform, time: real, used: Pool)
    requires ValidTransform(t) && time > 0.0
    ensures RunDuty(t, time, used) <= 1.0
    ensures NonZero(InputMasses(t, time))
    ensures !(ANY in ByName(t.inputs)) ==> IsMinFrom(RunDuty(t, time, used), 1.0, Ratios(used, InputMasses(t, time)))
  {
    FullDutyPositive(t, time);
    if !(ANY in ByName(t.inputs)) {
      MinFromIsMin(1.0, Ratios(used, InputMasses(t, time)));
    }
  }

  /** The total run divides the wildcard's share by (0 without a wildcard). */
  ghost function AnyTotal(t: Transform, used: Pool): real {
    if ANY in ByName(t.inputs) then TotalMass(used) else 0.0
  }

  // ------------------------------------------------------------ outputs

  /** The outputs loop of run and the inputs loop of request: one new resource
      per component, at Δt × duty × its rate, in declaration order, the first
      failure ending the loop. */
  function MakeAll(registry: Registry, cs: seq<Component>, time: real, duty: real,
                   temperature: Option<real>, pressure: Option<real>): Result<Pool>
    decreases |cs|
  {
    if cs == [] then Ok(map[])
    else
      var last := cs[|cs| - 1];
      match MakeAll(registry, cs[..|cs| - 1], time, duty, temperature, pressure)
      case Err(e) => Err(e)
      case Ok(made) =>
        match Make(registry, last.name, DutyMass(time, duty, last.rate), temperature, pressure, last.phase)
        case Err(e) => Err(e)
        case Ok(x) => Ok(made[last.name := x])
  }

  /** MakeAll succeeds exactly when every component can be made. */
  lemma {:induction false} MakeAllOk(registry: Registry, cs: seq<Component>, time: real, duty: real,
                                     temperature: Option<real>, pressure: Option<real>)
    ensures MakeAll(registry, cs, time, duty, temperature, pressure).Ok? <==>
              forall i :: 0 <= i < |cs| ==> Make(registry, cs[i].name, DutyMass(time, duty, cs[i].rate), temperature, pressure, cs[i].phase).Ok?
    decreases |cs|
  {
    if cs != [] {
      var front := cs[..|cs| - 1];
      MakeAllOk(registry, front, time, duty, temperature, pressure);
      assert forall i :: 0 <= i < |front| ==> front[i] == cs[i];
    }
  }

  /** A successful MakeAll holds exactly one entry per component name. */
  lemma {:induction false} MakeAllKeys(registry: Registry, cs: seq<Component>, time: real, duty: real,
                                       temperature: Option<real>, pressure: Option<real>)
    requires MakeAll(registry, cs, time, duty, temperature, pressure).Ok?
    ensures forall i :: 0 <= i < |cs| ==> cs[i].name in MakeAll(registry, cs, time, duty, temperature, pressure).value
    ensures forall k :: k in MakeAll(registry, cs, time, duty, temperature, pressure).value ==>
              exists i :: 0 <= i < |cs| && cs[i].name == k
    decreases |cs|
  {
    if cs != [] {
      var front := cs[..|cs| - 1];
      MakeAllKeys(registry, front, time, duty, temperature, pressure);
      assert forall i :: 0 <= i < |front| ==> front[i] == cs[i];
    }
  }

  /** In a successful MakeAll the entry of the last component of each name is
      that component made at Δt × duty × its rate. */
  lemma {:induction false} MakeAllAt(registry: Registry, cs: seq<Component>, time: real, duty: real,
                                     temperature: Option<real>, pressure: Option<real>, i: int)
    requires MakeAll(registry, cs, time, duty, temperature, pressure).Ok?
    requires 0 <= i < |cs| && LastOfName(cs, i)
    ensures cs[i].name in MakeAll(registry, cs, time, duty, temperature, pressure).value
    ensures Make(registry, cs[i].name, DutyMass(time, duty, cs[i].rate), temperature, pressure, cs[i].phase).Ok?
    ensures MakeAll(registry, cs, time, duty, temperature, pressure).value[cs[i].name] ==
            Make(registry, cs[i].name, DutyMass(time, duty, cs[i].rate), temperature, pressure, cs[i].phase).value
    decreases |cs|
  {
    var n := |cs| - 1;
    if i < n {
      var front := cs[..n];
      assert front[i] == cs[i];
      assert LastOfName(front, i);
      MakeAllAt(registry, front, time, duty, temperature, pressure, i);
    }
  }

  /** A failure in the first components is the failure of the whole loop. */
  lemma {:induction false} MakeAllPrefixErr(registry: Registry, cs: seq<Component>, j: int, time: real, duty: real,
                                            temperature: Option<real>, pressure: Option<real>)
    requires 0 <= j <= |cs| && MakeAll(registry, cs[..j], time, duty, temperature, pressure).Err?
    ensures MakeAll(registry, cs, time, duty, temperature, pressure) == MakeAll(registry, cs[..j], time, duty, temperature, pressure)
    decreases |cs|
  {
    if j < |cs| {
      assert cs[..|cs| - 1][..j] == cs[..j];
      MakeAllPrefixErr(registry, cs[..|cs| - 1], j, time, duty, temperature, pressure);
    } else {
      assert cs[..j] == cs;
    }
  }

  /** One more component: MakeAll of the longer prefix adds its resource. */
  lemma MakeAllNext(registry: Registry, cs: seq<Component>, i: int, time: real, duty: real,
                    temperature: Option<real>, pressure: Option<real>, made: Pool)
    requires 0 <= i < |cs| && MakeAll(registry, cs[..i], time, duty, temperature, pressure) == Ok(made)
    ensures MakeAll(registry, cs[..i + 1], time, duty, temperature, pressure) ==
            match Make(registry, cs[i].name, DutyMass(time, duty, cs[i].rate), temperature, pressure, cs[i].phase)
            case Err(e) => Err(e)
            case Ok(x) => Ok(made[cs[i].name := x])
  {
    assert cs[..i + 1][..i] == cs[..i] && cs[..i + 1][i] == cs[i];
  }

  /** The loop that creates one resource per component. */
  method MakeResources(registry: Registry, cs: seq<Component>, time: real, duty: real,
                       temperature: Option<real>, pressure: Option<real>) returns (r: Result<Pool>)
    ensures r == MakeAll(registry, cs, time, duty, temperature, pressure)
  {
    var made: Pool := map[];
    var i := 0;
    while i < |cs|
      invariant 0 <= i <= |cs|
      invariant MakeAll(registry, cs[..i], time, duty, temperature, pressure) == Ok(made)
    {
      MakeAllNext(registry, cs, i, time, duty, temperature, pressure, made);
      var x := Make(registry, cs[i].name, DutyMass(time, duty, cs[i].rate), temperature, pressure, cs[i].phase);
      if x.Err? {
        MakeAllPrefixErr(registry, cs, i + 1, time, duty, temperature, pressure);
        return Err(x.error);
      }
      made := made[cs[i].name := x.value];
      i := i + 1;
    }
    assert cs[..i] == cs;
    r := Ok(made);
  }

  // ------------------------------------------------------------ deduction

  /** Δt × duty × rate × mass / total, a share of what the wildcard takes. */
  function RemovedShare(time: real, duty: real, rate: real, mass: real, total: real): real
    requires total != 0.0
  {
    time * duty * rate * mass / total
  }

  /** |1 − mass/removed|, the relative remainder compared with the tolerance. */
  function Residual(mass: real, removed: real): real
    requires removed != 0.0
  {
    if 1.0 - mass / removed >= 0.0 then 1.0 - mass / removed else mass / removed - 1.0
  }

  /** What run takes from one consumed input. */
  function Removed(t: Transform, time: real, duty: real, total: real, k: string, r: ResourceState): Result<real> {
    var byName := ByName(t.inputs);
    if ANY in byName then
      if total == 0.0 then Err(ZeroDivision) else Ok(RemovedShare(time, duty, byName[ANY].rate, r.mass, total))
    else if k in byName then Ok(DutyMass(time, duty, byName[k].rate))
    else Err(MissingKey)
  }

  /** One turn of run's deduction loop: None when the input is used up (within
      the tolerance), otherwise the input with its remaining mass. */
  function Deduct(t: Transform, time: real, duty: real, total: real, k: string, r: ResourceState): Result<Option<ResourceState>> {
    match Removed(t, time, duty, total, k, r)
    case Err(e) => Err(e)
    case Ok(x) =>
      if x == 0.0 then Err(ZeroDivision)
      else if Residual(r.mass, x) <= ZERO_TOL then Ok(None)
      else
        match WithMass(r, r.mass - x)
        case Err(e) => Err(e)
        case Ok(left) => Ok(Some(left))
  }

  function DeductEntry(t: Transform, time: real, duty: real, total: real): (string, ResourceState) -> Result<Option<ResourceState>> {
    (k: string, r: ResourceState) => Deduct(t, time, duty, total, k, r)
  }

  /** The remainders of the consumed inputs after run's deduction loop. */
  ghost function Deducted(t: Transform, time: real, duty: real, total: real, used: Pool): Result<Pool> {
    match TraverseSpec(used, DeductEntry(t, time, duty, total))
    case Err(e) => Err(e)
    case Ok(m) => Ok(Survivors(m))
  }

  /** After deduction every consumed input has had its share removed: a
      remainder within the tolerance drops the input, any other is kept with
      mass reduced by exactly the share. */
  lemma DeductedEntries(t: Transform, time: real, duty: real, total: real, used: Pool)
    requires Deducted(t, time, duty, total, used).Ok?
    ensures var left := Deducted(t, time, duty, total, used).value;
            left.Keys <= used.Keys &&
            forall k :: k in used ==>
              Removed(t, time, duty, total, k, used[k]).Ok? && Removed(t, time, duty, total, k, used[k]).value != 0.0 &&
              var x := Removed(t, time, duty, total, k, used[k]).value;
              (k in left <==> Residual(used[k].mass, x) > ZERO_TOL) &&
              (k in left ==> left[k].mass == used[k].mass - x && left[k].phase == used[k].phase)
  {
    var f := DeductEntry(t, time, duty, total);
    TraverseSpecOk(used, f);
    var m := TraverseSpec(used, f).value;
    forall k | k in used ensures f(k, used[k]) == Deduct(t, time, duty, total, k, used[k]) { }
  }

  /** Deduction only keeps or drops consumed inputs. */
  lemma DeductedKeys(t: Transform, time: real, duty: real, total: real, used: Pool)
    requires Deducted(t, time, duty, total, used).Ok?
    ensures Deducted(t, time, duty, total, used).value.Keys <= used.Keys
  {
    TraverseSpecOk(used, DeductEntry(t, time, duty, total));
  }

  /** run's deduction loop. */
  method DeductInputs(t: Transform, time: real, duty: real, total: real, used: Pool) returns (r: Result<Pool>)
    ensures Agrees(r, Deducted(t, time, duty, total, used))
  {
    var m := Traverse(used, DeductEntry(t, time, duty, total));
    if m.Err? {
      return Err(m.error);
    }
    r := Ok(Survivors(m.value));
  }

  // ------------------------------------------------------------ run

  /** The node record after an operation that demanded `energy` at `duty`. */
  function Worked(s: NodeState, energy: real, duty: real): NodeState {
    s.(energyDemand := energy, dutyCycle := duty)
  }

  /** Process.run on a pool (`inputs`) at the process's temperature and pressure
      targets, from node state `s`. */
  ghost function RunSpec(env: Env, temperature: Option<real>, pressure: Option<real>, t: Transform,
                         s: NodeState, time: real, inputs: Option<Pool>): (r: Result<Step>)
    requires ValidTransform(t) && time > 0.0
    ensures r.Ok? ==> r.value.out.Some?
  {
    if inputs.None? then Err(NoneOperand)
    else
      match Validate(t.inputs, inputs.value)
      case Some(e) => Err(e)
      case None =>
        match ConfigureSpec(env, temperature, pressure, inputs.value)
        case Err(e) => Err(e)
        case Ok(cp) => Produce(env.registry, temperature, pressure, t, s, time, cp)
  }

  /** What run does after validating and conditioning its inputs (`cp`): it
      makes the outputs at the duty cycle, deducts the consumed inputs and
      returns the outputs with the unconsumed inputs and the remainders. */
  ghost function Produce(registry: Registry, temperature: Option<real>, pressure: Option<real>, t: Transform,
                         s: NodeState, time: real, cp: ConfiguredPool): (r: Result<Step>)
    requires ValidTransform(t) && time > 0.0
  {
    Yield(registry, temperature, pressure, t, s, time, cp, Restrict(cp.pool, Consumed(t, cp.pool)),
          RunDuty(t, time, Restrict(cp.pool, Consumed(t, cp.pool))))
  }

  /** Production from the consumed inputs `used` at duty cycle `duty`. */
  ghost function Yield(registry: Registry, temperature: Option<real>, pressure: Option<real>, t: Transform,
                       s: NodeState, time: real, cp: ConfiguredPool, used: Pool, duty: real): (r: Result<Step>)
    requires ValidTransform(t) && time > 0.0
  {
    Emit(Worked(s, cp.energy + WorkEnergy(time, t.power, duty), duty),
         MakeAll(registry, t.outputs, time, duty, temperature, pressure),
         cp.pool - used.Keys,
         Deducted(t, time, duty, AnyTotal(t, used), used))
  }

  /** run's result: the made outputs, overridden by the passed-through inputs
      and the remainders; the first failure wins. */
  function Emit(node: NodeState, made: Result<Pool>, passed: Pool, left: Result<Pool>): (r: Result<Step>)
    ensures r.Ok? <==> made.Ok? && left.Ok?
    ensures r.Ok? ==> r.value.node == node && r.value.out.Some?
  {
    match made
    case Err(e) => Err(e)
    case Ok(m) =>
      match left
      case Err(e) => Err(e)
      case Ok(l) => Ok(Step(node, Some(m + (passed + l))))
  }

  /** A successful run validated its inputs, conditioned them all, and
      produced from the conditioned pool. */
  lemma RunStages(env: Env, temperature: Option<real>, pressure: Option<real>, t: Transform,
                  s: NodeState, time: real, pool: Pool)
    requires ValidTransform(t) && time > 0.0
    requires RunSpec(env, temperature, pressure, t, s, time, Some(pool)).Ok?
    ensures Validate(t.inputs, pool).None?
    ensures ConfigureSpec(env, temperature, pressure, pool).Ok?
    ensures RunSpec(env, temperature, pressure, t, s, time, Some(pool)) ==
            Produce(env.registry, temperature, pressure, t, s, time, ConfigureSpec(env, temperature, pressure, pool).value)
  {
  }

  /** run records a duty cycle of at most 1 and an energy demand of the
      conditioning energy plus Δt × power × duty, and changes nothing else. */
  lemma ProduceState(registry: Registry, temperature: Option<real>, pressure: Option<real>, t: Transform,
                     s: NodeState, time: real, cp: ConfiguredPool)
    requires ValidTransform(t) && time > 0.0
    requires Produce(registry, temperature, pressure, t, s, time, cp).Ok?
    ensures var duty := RunDuty(t, time, Restrict(cp.pool, Consumed(t, cp.pool)));
            duty <= 1.0 &&
            Produce(registry, temperature, pressure, t, s, time, cp).value.node ==
              s.(energyDemand := cp.energy + WorkEnergy(time, t.power, duty), dutyCycle := duty)
  {
    RunDutyBounds(t, time, Restrict(cp.pool, Consumed(t, cp.pool)));
  }

  /** Every output kind that is not also an input kind is returned, made at
      Δt × duty × rate in the component's phase. */
  lemma ProduceOutputs(registry: Registry, temperature: Option<real>, pressure: Option<real>, t: Transform,
                       s: NodeState, time: real, cp: ConfiguredPool, i: int)
    requires ValidTransform(t) && time > 0.0
    requires Produce(registry, temperature, pressure, t, s, time, cp).Ok?
    requires 0 <= i < |t.outputs| && t.outputs[i].name !in cp.pool
    ensures t.outputs[i].name in Produce(registry, temperature, pressure, t, s, time, cp).value.out.value
    ensures Produce(registry, temperature, pressure, t, s, time, cp).value.out.value[t.outputs[i].name].mass ==
            DutyMass(time, RunDuty(t, time, Restrict(cp.pool, Consumed(t, cp.pool))), t.outputs[i].rate)
    ensures Produce(registry, temperature, pressure, t, s, time, cp).value.out.value[t.outputs[i].name].phase ==
            t.outputs[i].phase
  {
    var used := Restrict(cp.pool, Consumed(t, cp.pool));
    var duty := RunDuty(t, time, used);
    DeductedKeys(t, time, duty, AnyTotal(t, used), used);
    ByNameDistinct(t.outputs, i);
    MakeAllAt(registry, t.outputs, time, duty, temperature, pressure, i);
  }

  /** Every input the transform does not consume is returned as conditioned;
      on a clash with an output kind the passed-through input wins. */
  lemma ProducePassthrough(registry: Registry, temperature: Option<real>, pressure: Option<real>, t: Transform,
                           s: NodeState, time: real, cp: ConfiguredPool, k: string)
    requires ValidTransform(t) && time > 0.0
    requires Produce(registry, temperature, pressure, t, s, time, cp).Ok?
    requires k in cp.pool && k !in Consumed(t, cp.pool)
    ensures k in Produce(registry, temperature, pressure, t, s, time, cp).value.out.value
    ensures Produce(registry, temperature, pressure, t, s, time, cp).value.out.value[k] == cp.pool[k]
  {
    var used := Restrict(cp.pool, Consumed(t, cp.pool));
    DeductedKeys(t, time, RunDuty(t, time, used), AnyTotal(t, used), used);
  }

  /** Every consumed input whose remainder is outside the tolerance is returned
      with its share removed (an output of the same kind is replaced by it). */
  lemma ProduceRemainders(registry: Registry, temperature: Option<real>, pressure: Option<real>, t: Transform,
                          s: NodeState, time: real, cp: ConfiguredPool, k: string)
    requires ValidTransform(t) && time > 0.0
    requires Produce(registry, temperature, pressure, t, s, time, cp).Ok?
    ensures Deducted(t, time, RunDuty(t, time, Restrict(cp.pool, Consumed(t, cp.pool))),
                     AnyTotal(t, Restrict(cp.pool, Consumed(t, cp.pool))), Restrict(cp.pool, Consumed(t, cp.pool))).Ok?
    ensures k in Deducted(t, time, RunDuty(t, time, Restrict(cp.pool, Consumed(t, cp.pool))),
                          AnyTotal(t, Restrict(cp.pool, Consumed(t, cp.pool))), Restrict(cp.pool, Consumed(t, cp.pool))).value ==>
            k in Produce(registry, temperature, pressure, t, s, time, cp).value.out.value &&
            Produce(registry, temperature, pressure, t, s, time, cp).value.out.value[k] ==
              Deducted(t, time, RunDuty(t, time, Restrict(cp.pool, Consumed(t, cp.pool))),
                       AnyTotal(t, Restrict(cp.pool, Consumed(t, cp.pool))), Restrict(cp.pool, Consumed(t, cp.pool))).value[k]
  {
  }

  // ------------------------------------------------------------ request

  /** One turn of request's checking loop: a kind the transform does not make
      is let through (false); a made kind must be asked for in its phase and
      at no more than its rate (true). */
  function CheckRequested(t: Transform, time: real, k: string, r: ResourceState): Result<bool>
    requires time > 0.0
  {
    var byName := ByName(t.outputs);
    if k !in byName then Ok(false)
    else if byName[k].phase != r.phase then Err(RequestWrongPhase)
    else if Ratio(r.mass, time) > byName[k].rate then Err(RateExceeded)
    else Ok(true)
  }

  function CheckEntry(t: Transform, time: real): (string, ResourceState) -> Result<bool>
    requires time > 0.0
  {
    (k: string, r: ResourceState) => CheckRequested(t, time, k, r)
  }

  /** The pressure half of request's upstream-energy loop: a request above the
      process pressure is compressed down to it (a negative cost). */
  function UpstreamPressure(env: Env, target: Option<real>, r: ResourceState): Result<Conditioned> {
    if r.pressure.None? then Ok(Conditioned(0.0, r))
    else if target.None? then Err(NoneOperand)
    else if r.pressure.value > target.value then Compress(env, target.value, r)
    else Ok(Conditioned(0.0, r))
  }

  /** The temperature half: a request above the process temperature is heated
      down to it. */
  function UpstreamTemperature(env: Env, target: Option<real>, r: ResourceState): Result<Conditioned> {
    if r.temperature.None? then Ok(Conditioned(0.0, r))
    else if target.None? then Err(NoneOperand)
    else if r.temperature.value > target.value then Heat(env, target.value, r)
    else Ok(Conditioned(0.0, r))
  }

  /** The energy one requested resource contributes to upstream_energy_demand:
      minus what compressing and then heating it (as the pressure step left it)
      to the process's conditions costs. */
  function UpstreamOne(env: Env, temperature: Option<real>, pressure: Option<real>, r: ResourceState): Result<real> {
    match UpstreamPressure(env, pressure, r)
    case Err(e) => Err(e)
    case Ok(a) =>
      match UpstreamTemperature(env, temperature, a.resource)
      case Err(e) => Err(e)
      case Ok(b) => Ok(-(a.energy + b.energy))
  }

  function UpstreamEntry(env: Env, temperature: Option<real>, pressure: Option<real>): (string, ResourceState) -> Result<real> {
    (k: string, r: ResourceState) => UpstreamOne(env, temperature, pressure, r)
  }

  /** upstream_energy_demand after request's loop over the kinds it produces. */
  ghost function Upstream(env: Env, temperature: Option<real>, pressure: Option<real>, targeted: Pool): Result<real> {
    match TraverseSpec(targeted, UpstreamEntry(env, temperature, pressure))
    case Err(e) => Err(e)
    case Ok(m) => Ok(Sum(m))
  }

  /** Running the conditioning backwards over a condensed resource of
      non-negative volume, mass and heat capacity credits upstream a
      non-negative energy: pressure and temperature only ever come down. */
  lemma UpstreamCondensedNonNegative(env: Env, temperature: Option<real>, pressure: Option<real>, r: ResourceState)
    requires r.phase in {Solid, Liquid} && r.mass >= 0.0
    requires r.volume.Some? ==> r.volume.value >= 0.0
    requires r.cp.Some? ==> r.cp.value >= 0.0
    requires UpstreamOne(env, temperature, pressure, r).Ok?
    ensures UpstreamOne(env, temperature, pressure, r).value >= 0.0
  {
    var a := UpstreamPressure(env, pressure, r).value;
    if r.pressure.Some? && r.pressure.value > pressure.value && r.phase == Liquid {
      assert a.energy == PumpEnergy(pressure.value - r.pressure.value, r.volume.value);
      PumpEnergyNonNegative(r.pressure.value - pressure.value, r.volume.value);
      assert PumpEnergy(pressure.value - r.pressure.value, r.volume.value) ==
             -PumpEnergy(r.pressure.value - pressure.value, r.volume.value);
    }
    assert a.energy <= 0.0;
    assert a.resource.phase == r.phase && a.resource.mass == r.mass && a.resource.cp == r.cp;
    var rt := a.resource;
    if rt.temperature.Some? && rt.temperature.value > temperature.value {
      SensibleHeatNonNegative(r.mass, rt.temperature.value - temperature.value, r.cp.value);
      assert SensibleHeat(r.mass, temperature.value - rt.temperature.value, r.cp.value) ==
             -SensibleHeat(r.mass, rt.temperature.value - temperature.value, r.cp.value);
    }
  }

  /** request's upstream-energy loop. */
  method UpstreamEnergy(env: Env, temperature: Option<real>, pressure: Option<real>, targeted: Pool) returns (r: Result<real>)
    ensures Agrees(r, Upstream(env, temperature, pressure, targeted))
  {
    var m := Traverse(targeted, UpstreamEntry(env, temperature, pressure));
    if m.Err? {
      return Err(m.error);
    }
    var total := AddUp(m.value);
    r := Ok(total);
  }

  /** The duty cycle a request needs: the largest requested mass relative to its
      full-duty mass, starting from 0. */
  ghost function RequestDuty(t: Transform, time: real, targeted: Pool): real
    requires ValidTransform(t) && time > 0.0
  {
    FullDutyPositive(t, time);
    MaxFrom(0.0, Ratios(targeted, OutputMasses(t, time)))
  }

  /** Process.request on a pool of requested resources (`req`) from node state `s`. */
  ghost function RequestSpec(env: Env, temperature: Option<real>, pressure: Option<real>, t: Transform,
                             s: NodeState, time: real, req: Option<Pool>): (r: Result<Step>)
    requires ValidTransform(t) && time > 0.0
    ensures req.Some? && r.Ok? ==> r.value.out.Some?
  {
    if req.None? then Ok(Step(s, None))
    else
      match TraverseSpec(req.value, CheckEntry(t, time))
      case Err(e) => Err(e)
      case Ok(_) => Answer(env, temperature, pressure, t, s, time, req.value)
  }

  /** What request does once every requested kind passed the check: it answers
      the kinds it makes and passes the others on. */
  ghost function Answer(env: Env, temperature: Option<real>, pressure: Option<real>, t: Transform,
                        s: NodeState, time: real, pool: Pool): (r: Result<Step>)
    requires ValidTransform(t) && time > 0.0
  {
    Reply(env, temperature, pressure, t, s, time, pool, Restrict(pool, ByName(t.outputs).Keys))
  }

  /** The answer to the requested kinds `targeted` of a request `pool`: the
      upstream energy, the duty cycle, and the requests for the inputs. */
  ghost function Reply(env: Env, temperature: Option<real>, pressure: Option<real>, t: Transform,
                       s: NodeState, time: real, pool: Pool, targeted: Pool): (r: Result<Step>)
    requires ValidTransform(t) && time > 0.0
  {
    Respond(s, Upstream(env, temperature, pressure, targeted), RequestDuty(t, time, targeted),
            WorkEnergy(time, t.power, RequestDuty(t, time, targeted)),
            MakeAll(env.registry, WithoutAny(t.inputs), time, RequestDuty(t, time, targeted), temperature, pressure),
            pool - targeted.Keys)
  }

  /** request's result: the input requests, overridden by the passed-on
      requests; a failing upstream computation comes first. */
  function Respond(s: NodeState, up: Result<real>, duty: real, energy: real, made: Result<Pool>, passed: Pool): (r: Result<Step>)
    ensures r.Ok? <==> up.Ok? && made.Ok?
    ensures r.Ok? ==> r.value.out.Some? &&
                      r.value.node == s.(upstreamEnergyDemand := up.value, dutyCycle := duty, energyDemand := energy)
  {
    match up
    case Err(e) => Err(e)
    case Ok(u) =>
      match made
      case Err(e) => Err(e)
      case Ok(m) => Ok(Step(s.(upstreamEnergyDemand := u, dutyCycle := duty, energyDemand := energy), Some(m + passed)))
  }

  /** A request fails when any kind the process makes is asked for in the wrong
      phase or faster than its rate; a successful request checked them all. */
  lemma RequestChecks(env: Env, temperature: Option<real>, pressure: Option<real>, t: Transform,
                      s: NodeState, time: real, pool: Pool)
    requires ValidTransform(t) && time > 0.0
    ensures (exists k :: k in pool && k in ByName(t.outputs) &&
               (ByName(t.outputs)[k].phase != pool[k].phase || Ratio(pool[k].mass, time) > ByName(t.outputs)[k].rate)) ==>
            RequestSpec(env, temperature, pressure, t, s, time, Some(pool)).Err?
    ensures RequestSpec(env, temperature, pressure, t, s, time, Some(pool)).Ok? ==>
            forall k :: k in pool && k in ByName(t.outputs) ==>
              ByName(t.outputs)[k].phase == pool[k].phase && Ratio(pool[k].mass, time) <= ByName(t.outputs)[k].rate
  {
    var f := CheckEntry(t, time);
    if exists k :: k in pool && k in ByName(t.outputs) &&
         (ByName(t.outputs)[k].phase != pool[k].phase || Ratio(pool[k].mass, time) > ByName(t.outputs)[k].rate) {
      var k :| k in pool && k in ByName(t.outputs) &&
         (ByName(t.outputs)[k].phase != pool[k].phase || Ratio(pool[k].mass, time) > ByName(t.outputs)[k].rate);
      assert f(k, pool[k]).Err?;
      TraverseSpecErr(pool, f, k);
    }
    if RequestSpec(env, temperature, pressure, t, s, time, Some(pool)).Ok? {
      assert AllOk(pool, f);
      forall k | k in pool && k in ByName(t.outputs)
        ensures ByName(t.outputs)[k].phase == pool[k].phase && Ratio(pool[k].mass, time) <= ByName(t.outputs)[k].rate
      {
        assert f(k, pool[k]).Ok?;
      }
    }
  }

  /** mass/time <= rate is mass over the full-duty mass <= 1. */
  lemma RatioAtMostOne(mass: real, time: real, c: Component)
    requires time > 0.0 && c.rate > 0.0 && Ratio(mass, time) <= c.rate
    ensures MassOver(c, time) > 0.0 && Ratio(mass, MassOver(c, time)) <= 1.0
  {
    MassOverPositive(c, time);
    assert mass / time <= c.rate;
    assert mass <= c.rate * time;
    assert mass / (time * c.rate) <= (c.rate * time) / (time * c.rate);
  }

  /** A successful request passed the check on every entry and answered it. */
  lemma RequestStages(env: Env, temperature: Option<real>, pressure: Option<real>, t: Transform,
                      s: NodeState, time: real, pool: Pool)
    requires ValidTransform(t) && time > 0.0
    requires RequestSpec(env, temperature, pressure, t, s, time, Some(pool)).Ok?
    ensures RequestSpec(env, temperature, pressure, t, s, time, Some(pool)) ==
            Answer(env, temperature, pressure, t, s, time, pool)
  {
  }

  /** Given the rate check, the duty cycle of a request is the largest requested
      mass over its full-duty mass, and lies in [0, 1]. */
  lemma RequestDutyBounds(t: Transform, time: real, pool: Pool)
    requires ValidTransform(t) && time > 0.0
    requires forall k :: k in pool && k in ByName(t.outputs) ==> Ratio(pool[k].mass, time) <= ByName(t.outputs)[k].rate
    ensures NonZero(OutputMasses(t, time))
    ensures var targeted := Restrict(pool, ByName(t.outputs).Keys);
            IsMaxFrom(RequestDuty(t, time, targeted), 0.0, Ratios(targeted, OutputMasses(t, time))) &&
            0.0 <= RequestDuty(t, time, targeted) <= 1.0
  {
    FullDutyPositive(t, time);
    var targeted := Restrict(pool, ByName(t.outputs).Keys);
    var ratios := Ratios(targeted, OutputMasses(t, time));
    MaxFromIsMax(0.0, ratios);
    forall k | k in ratios ensures ratios[k] <= 1.0 {
      ByNameKeys(t.outputs);
      var i :| 0 <= i < |t.outputs| && t.outputs[i].name == k;
      ByNameDistinct(t.outputs, i);
      RatioAtMostOne(pool[k].mass, time, t.outputs[i]);
      assert OutputMasses(t, time)[k] == time * t.outputs[i].rate;
    }
  }

  /** request records the duty cycle, Δt × power × duty as its energy demand
      and the upstream conditioning energy, and changes nothing else. */
  lemma AnswerState(env: Env, temperature: Option<real>, pressure: Option<real>, t: Transform,
                    s: NodeState, time: real, pool: Pool)
    requires ValidTransform(t) && time > 0.0
    requires Answer(env, temperature, pressure, t, s, time, pool).Ok?
    ensures Upstream(env, temperature, pressure, Restrict(pool, ByName(t.outputs).Keys)).Ok?
    ensures Answer(env, temperature, pressure, t, s, time, pool).value.node ==
            s.(upstreamEnergyDemand := Upstream(env, temperature, pressure, Restrict(pool, ByName(t.outputs).Keys)).value,
               dutyCycle := RequestDuty(t, time, Restrict(pool, ByName(t.outputs).Keys)),
               energyDemand := WorkEnergy(time, t.power, RequestDuty(t, time, Restrict(pool, ByName(t.outputs).Keys))))
  {
  }

  /** Every non-wildcard input is asked for at Δt × duty × rate in its phase,
      unless a passed-on request of the same kind shadows it. */
  lemma AnswerInputs(env: Env, temperature: Option<real>, pressure: Option<real>, t: Transform,
                     s: NodeState, time: real, pool: Pool, i: int)
    requires ValidTransform(t) && time > 0.0
    requires Answer(env, temperature, pressure, t, s, time, pool).Ok?
    requires 0 <= i < |t.inputs| && t.inputs[i].name != ANY
    requires !(t.inputs[i].name in pool && t.inputs[i].name !in ByName(t.outputs))
    ensures t.inputs[i].name in Answer(env, temperature, pressure, t, s, time, pool).value.out.value
    ensures Answer(env, temperature, pressure, t, s, time, pool).value.out.value[t.inputs[i].name].mass ==
            DutyMass(time, RequestDuty(t, time, Restrict(pool, ByName(t.outputs).Keys)), t.inputs[i].rate)
    ensures Answer(env, temperature, pressure, t, s, time, pool).value.out.value[t.inputs[i].name].phase ==
            t.inputs[i].phase
  {
    var duty := RequestDuty(t, time, Restrict(pool, ByName(t.outputs).Keys));
    var cs := WithoutAny(t.inputs);
    assert t.inputs[i] in cs;
    var j :| 0 <= j < |cs| && cs[j] == t.inputs[i];
    WithoutAnyDistinct(t.inputs);
    MakeAllAt(env.registry, cs, time, duty, temperature, pressure, j);
  }

  /** Every requested kind the transform does not make is passed on unchanged. */
  lemma AnswerPassthrough(env: Env, temperature: Option<real>, pressure: Option<real>, t: Transform,
                          s: NodeState, time: real, pool: Pool, k: string)
    requires ValidTransform(t) && time > 0.0
    requires Answer(env, temperature, pressure, t, s, time, pool).Ok?
    requires k in pool && k !in ByName(t.outputs)
    ensures k in Answer(env, temperature, pressure, t, s, time, pool).value.out.value
    ensures Answer(env, temperature, pressure, t, s, time, pool).value.out.value[k] == pool[k]
  {
  }

  /** The wildcard-free list keeps the distinct names of a list with distinct names. */
  lemma {:induction false} WithoutAnyDistinct(cs: seq<Component>)
    requires DistinctNames(cs)
    ensures DistinctNames(WithoutAny(cs))
  {
    if cs != [] {
      WithoutAnyDistinct(cs[1..]);
      var rest := WithoutAny(cs[1..]);
      forall c | c in rest ensures c.name != cs[0].name {
        var m :| 0 <= m < |cs[1..]| && cs[1..][m] == c;
        assert cs[m + 1] == c;
      }
    }
  }

  // ------------------------------------------------------------ round trip

  /** A list without wildcards is its own wildcard-free list. */
  lemma {:induction false} WithoutAnyNone(cs: seq<Component>)
    requires forall i :: 0 <= i < |cs| ==> cs[i].name != ANY
    ensures WithoutAny(cs) == cs
  {
    if cs != [] {
      assert forall i :: 0 <= i < |cs[1..]| ==> cs[1..][i] == cs[i + 1];
      WithoutAnyNone(cs[1..]);
    }
  }

  /** Nothing passed on and nothing left over: the made pool alone. */
  lemma PassedNothing(made: Pool, pool: Pool, taken: set<string>, left: Pool)
    requires pool.Keys <= taken && left == map[]
    ensures made + ((pool - taken) + left) == made && made + (pool - taken) == made
  {
    assert pool - taken == map[];
  }

  /** Removing a resource's whole mass leaves no remainder. */
  lemma ResidualOfWhole(mass: real)
    requires mass != 0.0
    ensures Residual(mass, mass) == 0.0
  {
    assert mass / mass == 1.0;
  }

  /** Δt × duty × rate is the duty cycle times the full-duty mass Δt × rate. */
  lemma DutyMassScales(time: real, duty: real, rate: real, full: real)
    requires full == time * rate
    ensures DutyMass(time, duty, rate) == duty * full
  {
  }

  /** A mass whose share of the full-duty mass Δt × rate is at most the duty
      cycle is covered by what the component makes at that duty cycle, exactly
      when the share is the duty cycle itself. */
  lemma DutyMassCovers(mass: real, time: real, duty: real, rate: real, full: real)
    requires full == time * rate && full > 0.0 && Ratio(mass, full) <= duty
    ensures mass <= DutyMass(time, duty, rate)
    ensures Ratio(mass, full) == duty ==> mass == DutyMass(time, duty, rate)
  {
    assert mass == Ratio(mass, full) * full;
    assert DutyMass(time, duty, rate) == duty * full;
  }

  /** Outputs made at the largest requested share d of their full-duty masses
      cover every requested mass, and match the one that set d. */
  lemma CoveredAtDuty(pool: Pool, out: Pool, per: map<string, real>, byName: map<string, Component>,
                      time: real, d: real)
    requires NonZero(per)
    requires forall k :: k in pool ==> k in byName && k in per && k in out && per[k] > 0.0 &&
                                       per[k] == time * byName[k].rate
    requires forall k :: k in pool ==> out[k].mass == DutyMass(time, d, byName[k].rate)
    requires IsMaxFrom(d, 0.0, Ratios(pool, per)) && d > 0.0
    ensures forall k :: k in pool ==> out[k].mass >= pool[k].mass
    ensures exists k :: k in pool && out[k].mass == pool[k].mass
  {
    forall k | k in pool
      ensures out[k].mass >= pool[k].mass
      ensures Ratios(pool, per)[k] == d ==> out[k].mass == pool[k].mass
    {
      RatioAt(pool, per, k);
      DutyMassCovers(pool[k].mass, time, d, byName[k].rate, per[k]);
    }
    var k :| k in Ratios(pool, per) && d == Ratios(pool, per)[k];
    assert k in pool;
  }

  /** An output kind's full-duty mass is Δt × its rate, and positive. */
  lemma OutputMassOf(t: Transform, time: real, k: string)
    requires ValidTransform(t) && time > 0.0 && k in ByName(t.outputs)
    ensures k in OutputMasses(t, time) && OutputMasses(t, time)[k] > 0.0
    ensures OutputMasses(t, time)[k] == time * ByName(t.outputs)[k].rate
  {
    FullDutyPositive(t, time);
  }

  /** The duty cycle a request that asks only for kinds the transform makes
      records: the largest requested mass over its full-duty mass, at most 1. */
  lemma RequestDutyOf(env: Env, temperature: Option<real>, pressure: Option<real>, t: Transform,
                      s: NodeState, time: real, pool: Pool, n: NodeState, asked: Pool)
    requires ValidTransform(t) && time > 0.0
    requires pool.Keys <= ByName(t.outputs).Keys
    requires RequestSpec(env, temperature, pressure, t, s, time, Some(pool)) == Ok(Step(n, Some(asked)))
    ensures NonZero(OutputMasses(t, time)) && n.dutyCycle == RequestDuty(t, time, pool)
    ensures IsMaxFrom(n.dutyCycle, 0.0, Ratios(pool, OutputMasses(t, time))) && n.dutyCycle <= 1.0
  {
    RequestChecks(env, temperature, pressure, t, s, time, pool);
    RestrictAll(pool, ByName(t.outputs).Keys);
    RequestDutyBounds(t, time, pool);
  }

  /** Of a transform without a wildcard input, a request that asks only for
      kinds the transform makes asks for every input made at the request's duty
      cycle, and for nothing else. */
  lemma RequestAsks(env: Env, temperature: Option<real>, pressure: Option<real>, t: Transform,
                    s: NodeState, time: real, pool: Pool, n: NodeState, asked: Pool)
    requires ValidTransform(t) && time > 0.0
    requires forall i :: 0 <= i < |t.inputs| ==> t.inputs[i].name != ANY
    requires pool.Keys <= ByName(t.outputs).Keys
    requires Answer(env, temperature, pressure, t, s, time, pool) == Ok(Step(n, Some(asked)))
    ensures MakeAll(env.registry, t.inputs, time, RequestDuty(t, time, pool), temperature, pressure) == Ok(asked)
  {
    var targeted := Restrict(pool, ByName(t.outputs).Keys);
    assert targeted == pool;
    var made := MakeAll(env.registry, WithoutAny(t.inputs), time, RequestDuty(t, time, targeted), temperature, pressure);
    assert made.Ok? && asked == made.value + (pool - targeted.Keys);
    PassedNothing(made.value, pool, targeted.Keys, map[]);
    WithoutAnyNone(t.inputs);
  }

  /** Inputs holding exactly what each input component takes at duty cycle d
      (0 < d <= 1) are all consumed, allow duty cycle d, and are used up
      without remainder. */
  lemma ConsumedWhole(t: Transform, time: real, d: real, used: Pool)
    requires ValidTransform(t) && time > 0.0 && 0.0 < d <= 1.0
    requires ANY !in ByName(t.inputs) && used.Keys == ByName(t.inputs).Keys && used != map[]
    requires forall k :: k in used ==> used[k].mass == DutyMass(time, d, ByName(t.inputs)[k].rate)
    ensures Consumed(t, used) == used.Keys
    ensures RunDuty(t, time, used) == d
    ensures Deducted(t, time, d, 0.0, used).Ok? ==> Deducted(t, time, d, 0.0, used).value == map[]
  {
    ConsumedAll(t, used);
    RunDutyIs(t, time, d, used);
    if Deducted(t, time, d, 0.0, used).Ok? {
      NoRemainder(t, time, d, used);
    }
  }

  /** Without a wildcard, run consumes every input it holds of a declared kind. */
  lemma ConsumedAll(t: Transform, used: Pool)
    requires ANY !in ByName(t.inputs) && used.Keys == ByName(t.inputs).Keys
    ensures Consumed(t, used) == used.Keys
  {
    assert forall k :: k in Consumed(t, used) <==> k in used;
  }

  /** Every full-duty input mass is non-zero. */
  lemma InputMassesNonZero(t: Transform, time: real)
    requires ValidTransform(t) && time > 0.0
    ensures NonZero(InputMasses(t, time))
  {
    FullDutyPositive(t, time);
  }

  /** Inputs held at duty d of every rate are each d of their full-duty mass. */
  lemma RatiosAllDuty(t: Transform, time: real, d: real, used: Pool)
    requires ValidTransform(t) && time > 0.0
    requires used.Keys == ByName(t.inputs).Keys
    requires forall k :: k in used ==> used[k].mass == DutyMass(time, d, ByName(t.inputs)[k].rate)
    ensures NonZero(InputMasses(t, time))
    ensures forall k :: k in Ratios(used, InputMasses(t, time)) ==> Ratios(used, InputMasses(t, time))[k] == d
  {
    InputMassesNonZero(t, time);
    forall k | k in used ensures k in InputMasses(t, time) && InputMasses(t, time)[k] == time * ByName(t.inputs)[k].rate {
      InputMassOf(t, time, k);
    }
    RatiosOfDuty(used, InputMasses(t, time), ByName(t.inputs), time, d);
  }

  /** Masses each made at duty d, over full-duty masses of the same rates,
      all have ratio d. */
  lemma RatiosOfDuty(used: Pool, per: map<string, real>, byName: map<string, Component>, time: real, d: real)
    requires NonZero(per)
    requires forall k :: k in used ==> k in byName && k in per && per[k] == time * byName[k].rate
    requires forall k :: k in used ==> used[k].mass == DutyMass(time, d, byName[k].rate)
    ensures forall k :: k in Ratios(used, per) ==> Ratios(used, per)[k] == d
  {
    forall k | k in Ratios(used, per) ensures Ratios(used, per)[k] == d {
      RatioOfDutyMass(used, per, k, time, d, byName[k].rate);
    }
  }

  /** The ratio of a mass made at duty d over the matching full-duty mass is d. */
  lemma RatioOfDutyMass(used: Pool, per: map<string, real>, k: string, time: real, d: real, rate: real)
    requires NonZero(per) && k in used && k in per
    requires used[k].mass == DutyMass(time, d, rate) && per[k] == time * rate
    ensures k in Ratios(used, per) && Ratios(used, per)[k] == d
  {
    RatioAt(used, per, k);
    DutyMassScales(time, d, rate, per[k]);
    ScaledRatio(d, per[k]);
  }

  lemma ScaledRatio(d: real, full: real)
    requires full != 0.0
    ensures Ratio(d * full, full) == d
  {
  }

  /** ... so the duty cycle run computes from them is d. */
  lemma RunDutyIs(t: Transform, time: real, d: real, used: Pool)
    requires ValidTransform(t) && time > 0.0 && 0.0 < d <= 1.0
    requires ANY !in ByName(t.inputs) && used.Keys == ByName(t.inputs).Keys && used != map[]
    requires forall k :: k in used ==> used[k].mass == DutyMass(time, d, ByName(t.inputs)[k].rate)
    ensures RunDuty(t, time, used) == d
  {
    RatiosAllDuty(t, time, d, used);
    RunDutyBounds(t, time, used);
    var k0 :| k0 in used;
    assert k0 in Ratios(used, InputMasses(t, time));
  }

  /** ... and deducting at d leaves nothing of them. */
  lemma NoRemainder(t: Transform, time: real, d: real, used: Pool)
    requires ANY !in ByName(t.inputs)
    requires forall k :: k in used ==> k in ByName(t.inputs) && used[k].mass == DutyMass(time, d, ByName(t.inputs)[k].rate)
    requires Deducted(t, time, d, 0.0, used).Ok?
    ensures Deducted(t, time, d, 0.0, used).value == map[]
  {
    DeductedEntries(t, time, d, 0.0, used);
    var left := Deducted(t, time, d, 0.0, used).value;
    forall k | k in used ensures k !in left {
      var x := Removed(t, time, d, 0.0, k, used[k]).value;
      assert x == used[k].mass;
      ResidualOfWhole(x);
    }
  }

  /** What MakeAll makes from a list with unique names holds one resource per
      name, made at duty d of that component's rate, in its phase. */
  lemma MadeAtDuty(registry: Registry, cs: seq<Component>, time: real, d: real,
                   temperature: Option<real>, pressure: Option<real>, made: Pool)
    requires DistinctNames(cs) && MakeAll(registry, cs, time, d, temperature, pressure) == Ok(made)
    ensures made.Keys == ByName(cs).Keys
    ensures forall k :: k in made ==> made[k].mass == DutyMass(time, d, ByName(cs)[k].rate) &&
                                      made[k].phase == ByName(cs)[k].phase
  {
    MakeAllKeys(registry, cs, time, d, temperature, pressure);
    ByNameKeys(cs);
    forall k | k in made
      ensures k in ByName(cs) && made[k].mass == DutyMass(time, d, ByName(cs)[k].rate) && made[k].phase == ByName(cs)[k].phase
    {
      var i :| 0 <= i < |cs| && cs[i].name == k;
      ByNameDistinct(cs, i);
      MakeAllAt(registry, cs, time, d, temperature, pressure, i);
    }
  }

  /** A list of condensed, named (non-wildcard) components gives a dict without
      the wildcard whose entries are all condensed. */
  lemma CondensedByName(cs: seq<Component>)
    requires forall i :: 0 <= i < |cs| ==> cs[i].name != ANY && cs[i].phase in {Solid, Liquid}
    ensures ANY !in ByName(cs)
    ensures forall k :: k in ByName(cs) ==> ByName(cs)[k].phase in {Solid, Liquid}
  {
    ByNameValues(cs);
    ByNameKeys(cs);
  }

  /** Conditioning condensed resources keeps their masses. */
  lemma ConfiguredMasses(env: Env, temperature: Option<real>, pressure: Option<real>, pool: Pool)
    requires ConfigureSpec(env, temperature, pressure, pool).Ok?
    requires forall k :: k in pool ==> pool[k].phase in {Solid, Liquid}
    ensures ConfigureSpec(env, temperature, pressure, pool).value.pool.Keys == pool.Keys
    ensures forall k :: k in pool ==> ConfigureSpec(env, temperature, pressure, pool).value.pool[k].mass == pool[k].mass
  {
    ConfigureSpecEntries(env, temperature, pressure, pool);
    forall k | k in pool ensures ConfigureSpec(env, temperature, pressure, pool).value.pool[k].mass == pool[k].mass {
      var c := ConfigureOne(env, temperature, pressure, pool[k]).value.resource;
      assert c.(pressure := pool[k].pressure, temperature := pool[k].temperature) == pool[k];
    }
  }

  /** The inputs a request asks for, once run has conditioned them, hold
      exactly what each input component takes at duty cycle d. */
  lemma AskedConditioned(env: Env, temperature: Option<real>, pressure: Option<real>, t: Transform,
                         time: real, d: real, asked: Pool)
    requires ValidTransform(t) && t.inputs != []
    requires forall i :: 0 <= i < |t.inputs| ==> t.inputs[i].name != ANY && t.inputs[i].phase in {Solid, Liquid}
    requires MakeAll(env.registry, t.inputs, time, d, temperature, pressure) == Ok(asked)
    requires ConfigureSpec(env, temperature, pressure, asked).Ok?
    ensures var used := ConfigureSpec(env, temperature, pressure, asked).value.pool;
            ANY !in ByName(t.inputs) && used.Keys == ByName(t.inputs).Keys && used != map[] &&
            forall k :: k in used ==> used[k].mass == DutyMass(time, d, ByName(t.inputs)[k].rate)
  {
    MadeAtDuty(env.registry, t.inputs, time, d, temperature, pressure, asked);
    CondensedByName(t.inputs);
    ConfiguredMasses(env, temperature, pressure, asked);
    assert t.inputs[0].name in ByName(t.inputs);
  }

  /** Production from conditioned inputs that are all consumed at duty cycle d
      and leave no remainder returns just the outputs made at d. */
  lemma ProduceWhole(registry: Registry, temperature: Option<real>, pressure: Option<real>, t: Transform,
                     s: NodeState, time: real, cp: ConfiguredPool, d: real)
    requires ValidTransform(t) && time > 0.0 && ANY !in ByName(t.inputs)
    requires Consumed(t, cp.pool) == cp.pool.Keys && RunDuty(t, time, cp.pool) == d
    requires Deducted(t, time, d, 0.0, cp.pool).Ok? ==> Deducted(t, time, d, 0.0, cp.pool).value == map[]
    requires Produce(registry, temperature, pressure, t, s, time, cp).Ok?
    ensures Produce(registry, temperature, pressure, t, s, time, cp).value.node.dutyCycle == d
    ensures MakeAll(registry, t.outputs, time, d, temperature, pressure).Ok?
    ensures Produce(registry, temperature, pressure, t, s, time, cp).value.out ==
            Some(MakeAll(registry, t.outputs, time, d, temperature, pressure).value)
  {
    RestrictAll(cp.pool, Consumed(t, cp.pool));
    ProduceState(registry, temperature, pressure, t, s, time, cp);
    assert AnyTotal(t, cp.pool) == 0.0;
    var made := MakeAll(registry, t.outputs, time, d, temperature, pressure).value;
    PassedNothing(made, cp.pool, cp.pool.Keys, map[]);
  }

  /** run handed exactly what such a request asks for works at the request's
      duty cycle, uses every input up and returns just the outputs made at
      that duty cycle. */
  lemma RunOnAsked(env: Env, temperature: Option<real>, pressure: Option<real>, t: Transform,
                   s: NodeState, time: real, d: real, asked: Pool)
    requires ValidTransform(t) && time > 0.0 && 0.0 < d <= 1.0 && t.inputs != []
    requires forall i :: 0 <= i < |t.inputs| ==> t.inputs[i].name != ANY && t.inputs[i].phase in {Solid, Liquid}
    requires MakeAll(env.registry, t.inputs, time, d, temperature, pressure) == Ok(asked)
    requires RunSpec(env, temperature, pressure, t, s, time, Some(asked)).Ok?
    ensures RunSpec(env, temperature, pressure, t, s, time, Some(asked)).value.node.dutyCycle == d
    ensures MakeAll(env.registry, t.outputs, time, d, temperature, pressure).Ok?
    ensures RunSpec(env, temperature, pressure, t, s, time, Some(asked)).value.out ==
            Some(MakeAll(env.registry, t.outputs, time, d, temperature, pressure).value)
  {
    RunStages(env, temperature, pressure, t, s, time, asked);
    var cp := ConfigureSpec(env, temperature, pressure, asked).value;
    AskedConditioned(env, temperature, pressure, t, time, d, asked);
    ConsumedWhole(t, time, d, cp.pool);
    ProduceWhole(env.registry, temperature, pressure, t, s, time, cp, d);
  }

  /** The backward and forward passes agree. A request that asks only for kinds
      the transform makes, of a transform whose inputs are condensed and
      declared by name, asks for its inputs at some duty cycle; run handed
      exactly those inputs works at that duty cycle, uses them up, makes every
      output, makes every requested kind in at least the requested mass, and
      the kind that set the duty cycle in exactly the requested mass. */
  lemma RoundTrip(env: Env, temperature: Option<real>, pressure: Option<real>, t: Transform,
                  s: NodeState, time: real, pool: Pool, n: NodeState, asked: Pool, s2: NodeState)
    requires ValidTransform(t) && time > 0.0 && t.inputs != []
    requires forall i :: 0 <= i < |t.inputs| ==> t.inputs[i].name != ANY && t.inputs[i].phase in {Solid, Liquid}
    requires pool.Keys <= ByName(t.outputs).Keys
    requires RequestSpec(env, temperature, pressure, t, s, time, Some(pool)) == Ok(Step(n, Some(asked)))
    requires n.dutyCycle > 0.0
    requires RunSpec(env, temperature, pressure, t, s2, time, Some(asked)).Ok?
    ensures var st := RunSpec(env, temperature, pressure, t, s2, time, Some(asked)).value;
            st.node.dutyCycle == n.dutyCycle && st.out.value.Keys == ByName(t.outputs).Keys &&
            (forall k :: k in pool ==> st.out.value[k].mass >= pool[k].mass) &&
            exists k :: k in pool && st.out.value[k].mass == pool[k].mass
  {
    RequestDutyOf(env, temperature, pressure, t, s, time, pool, n, asked);
    RequestStages(env, temperature, pressure, t, s, time, pool);
    RequestAsks(env, temperature, pressure, t, s, time, pool, n, asked);
    var d := n.dutyCycle;
    RunOnAsked(env, temperature, pressure, t, s2, time, d, asked);
    var out := MakeAll(env.registry, t.outputs, time, d, temperature, pressure).value;
    MadeAtDuty(env.registry, t.outputs, time, d, temperature, pressure, out);
    forall k | k in pool
      ensures k in OutputMasses(t, time) && OutputMasses(t, time)[k] > 0.0
      ensures OutputMasses(t, time)[k] == time * ByName(t.outputs)[k].rate
    {
      OutputMassOf(t, time, k);
    }
    CoveredAtDuty(pool, out, OutputMasses(t, time), ByName(t.outputs), time, d);
  }
}
