# ISRU plant engine in Dafny

This project models the engine of a Mars in-situ resource utilisation (ISRU)
plant simulator. A plant is a network of nodes. Each node is one of four kinds:

- a *process*, which applies a transform (input and output kinds, each with a
  phase and a rate, plus a power);
- a *multiplexed* process, mocked as several parallel units;
- a resource *deposit*, which supplies the chain;
- a resource *depot*, which stores the chain's products.

Nodes declare their `From` predecessors. The plant links them into `To`
successor lists. It then runs two passes:

- `setup` (backward): each node's `request` runs after all of its successors'.
  Successor requests are merged, and the projected energy is summed.
- `run` (forward): each node's `run` runs after all of its predecessors'.
  Producer output buffers are split among consumers, the actual energy is
  summed, and overages are collected.

Resources are records (`Resources.ResourceState`). A pool is a map from kind
name to resource. Masses, rates, fractions, times and energies are exact
`real`s.

Modules, from the bottom up:

- `Outcomes`: `Option`, `Result`, the error kinds the engine raises, and
  `Agrees`. `Agrees` holds when two outcomes both fail, or both succeed with
  the same value.
- `Mars`: ambient temperature and pressure.
- `Folds`: sum, minimum and maximum over a map, with their characterisations.
  Also "apply to every entry, fail if any fails".
- `Resources`: `setMass` and `setIdealGas`, both as functions on records and as
  methods of the `Resource` class. Also the registry-based constructor that
  stands in for `getattr(resourceLib, name)`.
- `Transforms`: components, transforms, `get_input_masses` and
  `get_output_masses`.
- `Pools`: the ratio loops (min, max, sum) as methods, and pool partitioning.
- `Nodes`: node roles, configurations, whitelists, and the per-node record of
  energy demand, duty cycle, unit count, output rate, request mass, contents
  and overage.
- `Conditioning`: `Compress`, `Heat` and `configureInputs`.
- `Plain`: `Process.run` and `Process.request`, stage by stage.
- `MultiplexNode`, `DepositNode`, `DepotNode`: the three node classes of
  complex_process.py.
- `Processes`: the methods that compute each node operation, and the `Process`
  class whose `Run` and `Request` update its fields.
- `Linking`: `ISRUPlant.__init__`'s linking of `From` into `To`.
- `Sweeps`: ready sets, sweep bookkeeping, and the ordering and dead-end
  predicates shared by both passes.
- `Flow`: request merging (setup) and buffer splitting (run).
- `SetupPass`, `RunPass`: the two worklist loops, proved against recursive
  specifications.
- `PlantModel`: `setup`, `run`, and the `Plant` class.

Each method is proved against a specification function, either with
`ensures r == Spec(...)` or with `ensures Agrees(r, Spec(...))`. Lemmas then
state what the specification guarantees.

Where the documented behaviour and the code differ, the model follows the
code:

- `ResourceDepot.run` formats its "missing resource" message with two
  placeholders and one argument. A missing composition kind therefore raises
  an IndexError (`MessageFormat`), not the intended ValueError.
- `Multiplex.run` and `Multiplex.request` index the per-unit masses by every
  given kind. A kind that is not a transform input or output raises a KeyError
  (`MissingKey`).
- `Process.request(None)` returns None and keeps the node's previous
  `energy_demand`. `setup` then adds that stale value to the projected energy.
- A deposit with an empty request still receives a rate of 0. It therefore
  passes `setup`'s closing check.
- `ResourceDepot.run` starts its running minimum at 100·request_mass², which
  caps what the depot stores (see Findings). Nodes run the depot as written.
  With request mass 0 the cap makes the total 0, and storing a composition
  kind divides by zero (`ZeroDivision`). `DepotRunSpec` also takes the
  corrected total, so the Finding's corrected half is stated on the same
  definition.

## Model

| member | source | states |
|---|---|---|
| Resources.SolveFor | abstract_resource.py:46-48 | the solved pressure (or volume) satisfies P·V·M = m·R·T |
| Resources.SolveForTemperature | abstract_resource.py:50 | the solved temperature satisfies P·V·M = m·R·T |
| Resources.IdealGas | abstract_resource.py:42-52 | any phase but GAS fails; on success P, V and T are known and satisfy the ideal-gas law, and only the solved-for field changed |
| Resources.WithMass | abstract_resource.py:21-40 | only mass and volume change. SOLID/LIQUID: succeeds iff the phase has a density, and then volume = mass × density. GAS/PLASMA with P or T unknown: volume becomes None. Otherwise: succeeds iff GAS with P ≠ 0 and M ≠ 0, and then the ideal-gas law holds |
| Resources.SetMassOverrides | abstract_resource.py:21-40 | setting the mass to a and then to b equals setting it to b |
| Resources.VolumeThenPressure | abstract_resource.py:45-50 | solving for the volume and then for the pressure returns the original pressure when the divisors are nonzero |
| Resources.Make | abstract_process.py:117-118 | an unknown kind name fails; otherwise the resource has the given name, mass, phase and temperature, and the given pressure (0 for kinds that ignore it) |
| Resources.MadeSettled | abstract_resource.py:21-40 | a constructed resource, whose construction ends with setMass, is unchanged by setting its own mass again |
| Resources.Resource.constructor | abstract_resource.py:10-19 | a new resource has mass 0, volume 0, no densities, molar mass 0 and phase SOLID |
| Resources.Resource.SetMass | abstract_resource.py:21-40 | on success the object holds WithMass's result; on failure the mass is already assigned and nothing else changed |
| Resources.Resource.SetIdealGas | abstract_resource.py:42-52 | on success the object holds IdealGas's result; on failure nothing changed |
| Transforms.ByNameKeys | abstract_process.py:19-20 | the name-keyed dict has exactly the components' names as keys |
| Transforms.ByNameLast | abstract_process.py:19-20 | a name maps to the last component carrying it |
| Transforms.ByNameDistinct | abstract_process.py:19-20 | with distinct names, every component is stored under its own name |
| Transforms.MassesDistinct | abstract_process.py:23-27 | each declared component's entry is time × rate |
| Transforms.InputMasses | abstract_process.py:23-24 | keys are exactly the input kinds, each mapped to time × rate |
| Transforms.OutputMasses | abstract_process.py:26-27 | keys are exactly the output kinds, each mapped to time × rate |
| Transforms.WithoutAny | abstract_process.py:174-175 | exactly the components not named ANY |
| Folds.Ceil | complex_process.py:25 | n is the least integer ≥ x |
| Folds.MinFromIsMin | abstract_process.py:101-108 | the running minimum is ≤ its start and every value, and equals one of them |
| Folds.MaxFromIsMax | abstract_process.py:166-168 | the running maximum is ≥ its start and every value, and equals one of them |
| Folds.SumNonNegative | plant_model.py:134 | a sum of non-negative energies is non-negative |
| Folds.SumAdd | plant_model.py:134 | adding a node's demand to the sum adds its value |
| Folds.Traverse | abstract_process.py:55-71 | agrees with TraverseSpec; on success every entry's result is kept under its key; on failure the error is some entry's error |
| Folds.TraverseSpecOk | abstract_process.py:55-71 | when every entry succeeds, the result maps each key to that entry's result |
| Folds.TraverseSpecErr | abstract_process.py:55-71 | one failing entry makes the whole loop fail |
| Pools.MaxRatio | complex_process.py:21-24 | the maximum of mass/per over the pool, starting from init; a pool kind with no per-unit entry fails with MissingKey |
| Pools.MinRatio | abstract_process.py:106-108 | the minimum of mass/per over the pool, starting from init |
| Pools.AddUp | abstract_process.py:104 | the total mass of the pool |
| Pools.Partition | abstract_process.py:88-97 | splits a pool into the given kinds and the rest: disjoint, and together the whole pool |
| Nodes.Whitelist | abstract_process.py:46-50 | a process accepts its transform's input kinds; a depot its composition; a deposit has none |
| Nodes.RequestWhitelist | abstract_process.py:46-50 | a process can be asked for its output kinds; a deposit for its composition; a depot for none |
| Nodes.WhitelistsAreTransformKinds | abstract_process.py:46-50 | a kind is whitelisted iff it names a declared transform input (or output, for RequestWhitelist) |
| Nodes.Initial | abstract_process.py:42-44 | a new node has energy demand, duty cycle and upstream energy 0, one unit, no output rate and no holdings; only a depot has a request mass |
| Conditioning.PumpEnergyNonNegative | abstract_process.py:194-195 | compressing a liquid upwards costs non-negative energy |
| Conditioning.SensibleHeatNonNegative | abstract_process.py:212-214 | heating a condensed phase upwards costs non-negative energy |
| Conditioning.Compress | abstract_process.py:189-209 | SOLID costs 0 and is unchanged. LIQUID succeeds iff pressure and volume are known; it costs ΔP·V/0.8 and ends at the target pressure. Gas phases use the injected gas model |
| Conditioning.Heat | abstract_process.py:211-222 | an unknown temperature fails. A condensed phase succeeds iff it has a cp; it costs m·ΔT·cp and ends at the target temperature. Gas phases use the injected gas model |
| Conditioning.ConfigureOne | abstract_process.py:55-71 | lowering the pressure (or, for a condensed phase, the temperature) to a target below Mars ambient fails. A condensed resource ends at the targets, except that a solid's pressure is only lowered; nothing else changes |
| Conditioning.CondensedConditioningCosts | abstract_process.py:56-66 | conditioning a condensed resource costs non-negative energy |
| Conditioning.ConfigureSpecEntries | abstract_process.py:52-71 | conditioning a pool succeeds iff every resource conditions, and then keeps every kind, each conditioned |
| Conditioning.ConfigureSpecOk | abstract_process.py:52-71 | the energy spent on a pool is the sum of the per-resource energies |
| Conditioning.ConfigureSpecErr | abstract_process.py:52-71 | one failing resource fails the whole pool |
| Conditioning.ConfigureInputs | abstract_process.py:52-71 | agrees with ConfigureSpec; on success every kind is kept and conditioned, and on failure the error is some resource's |
| Plain.FullDutyPositive | abstract_process.py:100 | with positive rates and Δt, every full-duty mass is positive, so the duty ratios are defined |
| Plain.BeforeAny | abstract_process.py:77-79 | the inputs up to (not including) the first ANY |
| Plain.ValidateMeans | abstract_process.py:77-83 | validation passes iff every input before ANY is present in its phase; otherwise the error names a missing or wrong-phase input |
| Plain.ValidateInputs | abstract_process.py:77-83 | the loop computes Validate |
| Plain.Consumed | abstract_process.py:88-97 | the consumed inputs are those in the ANY phase when ANY is declared, otherwise the declared input kinds |
| Plain.RunDutyCycle | abstract_process.py:100-109 | the loop computes RunDuty |
| Plain.RunDutyBounds | abstract_process.py:100-109 | the duty cycle is ≤ 1, and without ANY it is the minimum of 1 and the consumed masses' ratios |
| Plain.MakeAllOk | abstract_process.py:115-118 | creating the outputs succeeds iff every kind is known to the registry |
| Plain.MakeAllKeys | abstract_process.py:115-118 | the created pool has exactly the outputs' names |
| Plain.MakeAllAt | abstract_process.py:115-118 | each output is created with mass Δt × duty × rate in its declared phase |
| Plain.MakeResources | abstract_process.py:115-118 | the loop computes MakeAll |
| Plain.DeductedEntries | abstract_process.py:120-128 | each consumed input loses its share. It is dropped iff |1 − mass/removed| ≤ ZERO_TOL; otherwise its mass is reduced by exactly the share and its phase is kept |
| Plain.DeductedKeys | abstract_process.py:120-128 | deduction never adds kinds |
| Plain.DeductInputs | abstract_process.py:120-128 | agrees with Deducted |
| Plain.RunSpec | abstract_process.py:73-132 | a successful run returns an output pool |
| Plain.RunStages | abstract_process.py:77-86 | a successful run validated its inputs, conditioned them, and produced from the conditioned pool |
| Plain.ProduceState | abstract_process.py:100-112 | duty cycle ≤ 1; energy demand = conditioning energy + Δt × power × duty |
| Plain.ProduceOutputs | abstract_process.py:113-118 | each output not shadowed by a passthrough has mass Δt × duty × rate in its declared phase |
| Plain.ProducePassthrough | abstract_process.py:88-97 | unconsumed inputs are returned unchanged, winning over an output of the same name |
| Plain.ProduceRemainders | abstract_process.py:120-130 | inputs that keep a remainder are returned with it |
| Plain.Emit | abstract_process.py:130 | the run succeeds iff both the outputs and the deduction succeed, and the state is kept |
| Plain.UpstreamCondensedNonNegative | abstract_process.py:155-163 | the upstream conditioning energy for a condensed request is non-negative |
| Plain.UpstreamEnergy | abstract_process.py:155-163 | agrees with Upstream |
| Plain.RequestSpec | abstract_process.py:139-140 | a successful request for a pool returns requests |
| Plain.Respond | abstract_process.py:163-171 | the request succeeds iff the upstream energy and the inputs succeed; then upstream energy, duty and energy demand are set |
| Plain.RequestChecks | abstract_process.py:142-150 | a produced kind with the wrong phase or mass/Δt > rate fails the request; a successful request passed both checks for every produced kind |
| Plain.RatioAtMostOne | abstract_process.py:149 | a kind within its rate has ratio ≤ 1 to its full-duty mass |
| Plain.RequestDutyBounds | abstract_process.py:165-169 | the duty is the maximum of 0 and the targeted kinds' ratios, and lies in [0, 1] |
| Plain.AnswerState | abstract_process.py:163-171 | the node records the upstream energy, the duty and Δt × power × duty |
| Plain.AnswerInputs | abstract_process.py:174-178 | each non-ANY input is requested at Δt × duty × rate in its phase |
| Plain.AnswerPassthrough | abstract_process.py:142-146 | requests for kinds the node does not make are passed on unchanged |
| Plain.RequestDutyOf | abstract_process.py:165-169 | a request for made kinds records as duty the largest requested mass over its full-duty mass, at most 1 |
| Plain.RequestAsks | abstract_process.py:172-178 | without ANY inputs, a request for made kinds asks exactly for every input made at the request's duty |
| Plain.ConsumedWhole | abstract_process.py:88-128 | inputs holding each input component's mass at duty d (0 < d ≤ 1) are all consumed, give duty d, and leave no remainder |
| Plain.RatiosAllDuty | abstract_process.py:100-109 | inputs held at duty d of every rate each have ratio d to their full-duty mass |
| Plain.MadeAtDuty | abstract_process.py:115-118 | with distinct names, the made pool has one resource per name at Δt × d × rate in its phase |
| Plain.ConfiguredMasses | abstract_process.py:52-71 | conditioning condensed resources keeps every kind and every mass |
| Plain.AskedConditioned | abstract_process.py:85-86 | condensed inputs asked for at duty d still hold exactly their duty-d masses after conditioning |
| Plain.ProduceWhole | abstract_process.py:100-132 | inputs all consumed at duty d without remainder return exactly the outputs made at d |
| Plain.RunOnAsked | abstract_process.py:73-132 | run handed what a request asked for works at that duty, uses it up and returns just the outputs made at that duty |
| Plain.RoundTrip | abstract_process.py:73-181 | for a request that names only kinds the transform makes, request then run: run works at the request's duty, makes every output, gives each requested kind at least its requested mass and the kind that set the duty exactly its requested mass |
| MultiplexNode.UnitsLeast | complex_process.py:21-25 | the unit count is the least integer ≥ every mass/per-unit ratio |
| MultiplexNode.CountUnits | complex_process.py:21-25 | the loop computes Units; a kind with no per-unit entry fails with MissingKey |
| MultiplexNode.ScaleDownEntries | complex_process.py:27-28 | zero units on a non-empty pool divide by zero; otherwise every mass is divided by the unit count |
| MultiplexNode.ScaleUpEntries | complex_process.py:32-34 | every returned mass is multiplied by the unit count |
| MultiplexNode.Multiply | complex_process.py:32-34 | the energy demand is multiplied by the unit count |
| MultiplexNode.MuxRunScales | complex_process.py:19-35 | the inputs are divided by N = Units; one unit runs; energy and outputs are multiplied by N |
| MultiplexNode.ShareWithinRate | complex_process.py:45-52 | a share of mass/N with N ≥ ratio stays within the rate |
| MultiplexNode.MuxShareWithinRate | complex_process.py:45-52 | every scaled-down produced kind is within its output rate |
| MultiplexNode.MuxShareChecks | complex_process.py:45-52 | the delegated rate check always passes |
| MultiplexNode.MuxRequestScales | complex_process.py:38-57 | the requests are divided by N; one unit answers; energy and requests are multiplied by N |
| MultiplexNode.MuxUnitRequest | complex_process.py:43-57 | a successful request records N = Units, asks one unit for a 1/N share of every requested kind, and asks for N times what that unit asks for |
| MultiplexNode.UnitAsksAtDuty | complex_process.py:52 | one unit asks for every input at its duty, the largest share over its full-duty mass |
| MultiplexNode.SharedDuty | complex_process.py:43-50 | the largest ratio of a 1/N share, times N, is the largest ratio of the whole request |
| MultiplexNode.AskedUnits | complex_process.py:21-25 | inputs each N × (duty-d mass) make run count ⌈N × d⌉ units |
| MultiplexNode.ShareAsksUnits | complex_process.py:21-57 | what N units ask for makes run count N units again |
| MultiplexNode.MuxRunCount | complex_process.py:21-25 | a successful run records the unit count of its inputs |
| MultiplexNode.MuxUnitsAgree | complex_process.py:19-57 | the inputs a request with N ≥ 1 asks for are exactly the input kinds, and make run count N units |
| MultiplexNode.MuxRoundTrip | complex_process.py:19-57 | request then run on what it asked for: run mocks as many units as the request did |
| MultiplexNode.ScaleUpDown | complex_process.py:27-28 | multiplying settled resources by N and dividing them by N again gives them back |
| MultiplexNode.MuxAskedShare | complex_process.py:43-57 | one unit of a successful request (N ≥ 1) answered a 1/N share at a positive duty, and sharing the request's asked inputs among N units gives exactly what that unit asked for |
| MultiplexNode.MuxRunOnShare | complex_process.py:19-35 | a run whose inputs share out as one unit's ask is that unit's plain run on it, with every output mass times N |
| MultiplexNode.MuxOutputsCover | complex_process.py:19-57 | request then run on what it asked for: run mocks N units, makes every output, gives each requested kind at least its requested mass and some requested kind exactly its requested mass |
| DepositNode.PerRate | complex_process.py:99 | each kind maps to Δt × fraction |
| DepositNode.Named | complex_process.py:96 | the request without its ANY entry |
| DepositNode.DepositRequestSpec | complex_process.py:89-102 | succeeds iff a request is given and its non-ANY kinds are all in the composition. The rate is then the max over kinds of mass/(Δt × fraction), the energy is 0, and nothing is passed on |
| DepositNode.RequestRate | complex_process.py:92-100 | the loop computes Rate, or fails with an unknown kind |
| DepositNode.CoverOne | complex_process.py:99 | mass/(Δt·f) ≤ rate iff mass ≤ Δt·rate·f |
| DepositNode.RateCovers | complex_process.py:92-100 | the rate supplies at least each requested mass |
| DepositNode.RateLeast | complex_process.py:92-100 | the rate is the least one that supplies every requested mass |
| DepositNode.DepositRunSpec | complex_process.py:74-87 | fails with no output rate or with given inputs; otherwise energy 0 and outputs |
| DepositNode.DepositRunOutputs | complex_process.py:82-87 | outputs exactly the composition, each at Δt × rate × fraction in the deposit's phase and temperature |
| DepositNode.DepositSupplies | complex_process.py:74-102 | after request then run, every requested kind is supplied at least at its requested mass |
| DepotNode.DepotRequestSpec | complex_process.py:154-167 | fails with no request mass or a given request; otherwise energy 0 and requests |
| DepotNode.DepotRequestComposition | complex_process.py:161-167 | requests exactly the composition, each at request mass × fraction in the depot's phase |
| DepotNode.PresentMeans | complex_process.py:125-129 | the checks pass iff every composition kind is present in the depot's phase |
| DepotNode.Supplies | complex_process.py:134 | the mass/fraction ratios of the composition kinds present |
| DepotNode.StoredTotalLeast | complex_process.py:134-137 | the stored total is the smallest supply ratio |
| DepotNode.ComputeStoredTotal | complex_process.py:134-137 | the loop computes the stored total: the least of 100·request_mass² and every supply as written, or the least supply as corrected |
| DepotNode.NeverOverdraws | complex_process.py:134-145 | with the total as written or as corrected, no composition kind gives more than it has |
| DepotNode.ZeroRequestAsWritten | complex_process.py:135-147 | as written, request mass 0 with non-negative supplies gives a total of 0, and storing any composition kind raises ZeroDivision |
| DepotNode.StoresWhatItRequested | complex_process.py:135-137 | inputs that match the request make the depot store exactly the request mass |
| DepotNode.CapCounterexample | complex_process.py:135 | as written, a 0.001 kg request met exactly stores 0.0001 kg |
| DepotNode.Keep | complex_process.py:139-152 | a successful run returns None and sets contents and overage; the energy is the conditioning energy |
| DepotNode.DepotRunSpec | complex_process.py:120-152 | fails with no request mass or no inputs; a successful run returns None. Nodes run it with the total as written |
| DepotNode.DepotRunStages | complex_process.py:123-137 | a successful run had every composition kind in phase, conditioned its inputs, and stored by the selected total (as written: capped at 100·request_mass²) |
| DepotNode.StoreKind | complex_process.py:144-151 | a composition kind stores total × fraction. Its remainder goes to overage iff it is beyond ZERO_TOL, and stored + overage = input |
| DepotNode.HoldingsEntries | complex_process.py:141-151 | every input kind is stored or passed as its own entry |
| DepotNode.DepotHolds | complex_process.py:139-151 | contents hold exactly the composition kinds present. Other kinds go to overage unchanged. Composition remainders go to overage iff beyond ZERO_TOL, and then add up to the input |
| DepotNode.PortionOfSupply | complex_process.py:145 | a total ≤ mass/fraction never takes more than the mass |
| DepotNode.DepotStoresScarcest | complex_process.py:134-145 | with the corrected total, no kind gives more than it has, and the scarcest kind is used up |
| Processes.RunPlain | abstract_process.py:73-132 | agrees with Plain.RunSpec |
| Processes.ProducePlain | abstract_process.py:100-132 | agrees with Plain.Produce |
| Processes.RequestPlain | abstract_process.py:135-181 | agrees with Plain.RequestSpec |
| Processes.AnswerPlain | abstract_process.py:155-181 | agrees with Plain.Answer |
| Processes.MultiplyStep | complex_process.py:32-34 | agrees with Multiply |
| Processes.RunMux | complex_process.py:19-35 | agrees with MuxRunSpec |
| Processes.RequestMux | complex_process.py:38-57 | agrees with MuxRequestSpec |
| Processes.RunDeposit | complex_process.py:74-87 | agrees with DepositRunSpec |
| Processes.RequestDeposit | complex_process.py:89-102 | agrees with DepositRequestSpec |
| Processes.RequestDepot | complex_process.py:154-167 | agrees with DepotRequestSpec |
| Processes.RunDepot | complex_process.py:120-152 | agrees with DepotRunSpec, for the total as written or as corrected |
| Processes.NodeRun | plant_model.py:214 | agrees with the role's run specification |
| Processes.NodeRequest | plant_model.py:130 | agrees with the role's request specification |
| Processes.Process.constructor | abstract_process.py:34-44 | the node starts in its Initial state |
| Processes.Process.Run | abstract_process.py:73-132 | the result and the new fields are those of the role's run specification applied to the old fields |
| Processes.Process.Request | abstract_process.py:135-181 | the result and the new fields are those of the role's request specification applied to the old fields |
| Linking.EdgesMembers | plant_model.py:72-78 | (k, b) is an edge iff b is in k's From list |
| Linking.NamingMembers | plant_model.py:75-78 | k is in b's collected To list iff (k, b) is an edge |
| Linking.FirstUnknown | plant_model.py:72-74 | None iff every link target is declared; otherwise an undeclared name |
| Linking.FirstUnknownAt | plant_model.py:72-74 | the reported name is the first undeclared one in definition order |
| Linking.AsLinks | plant_model.py:76-81 | an empty To list becomes None, a non-empty one is kept |
| Linking.LinkedFails | plant_model.py:72-74 | linking fails iff some From entry names an undeclared node, and the error names an undeclared node |
| Linking.LinkedMeans | plant_model.py:68-81 | b is in k's From iff k is in b's To; To lists are non-empty lists of nodes |
| Linking.Link | plant_model.py:68-81 | the loop computes Linked |
| Sweeps.ScheduleAppend | plant_model.py:133-135 | processing a node whose links are done keeps the order distinct and dependency-respecting |
| Sweeps.OrderedNotClosed | plant_model.py:136-137 | nodes processed in dependency order never form a closed set, so a dead end means a cycle |
| Sweeps.ClosedDescends | plant_model.py:136-137 | a closed set has members arbitrarily far back in any dependency order |
| Sweeps.ReadyOf | plant_model.py:99-104 | ready: in the first sweep, no links; afterwards, every link done |
| Sweeps.AllRan | plant_model.py:142-145 | the flag loop is true iff every listed node has been processed |
| Sweeps.ReadySet | plant_model.py:141-146 | the ready nodes among the outstanding |
| Sweeps.Without | plant_model.py:138-139 | removes the processed nodes, keeping the rest in order |
| Sweeps.Picked | plant_model.py:111-135 | the ready nodes, in list order |
| Flow.LinkedFromLinked | plant_model.py:68-81 | after linking, each From entry's To list names the node |
| Flow.LinkedToLinked | plant_model.py:68-81 | after linking, each To entry's From list names the node |
| Flow.LinkedWellFormed | plant_model.py:68-81 | a linked network is well formed |
| Flow.ForwardedMeans | plant_model.py:117-125 | a successor with several predecessors forwards only kinds in this node's RequestWhitelist (a depot has none, so a non-empty request fails); a sole-predecessor successor forwards its whole request |
| Flow.MergeOverOk | plant_model.py:117-125 | merging succeeds iff every successor's forward succeeds |
| Flow.MergeOverKinds | plant_model.py:117-125 | a kind is merged iff some successor forwards it |
| Flow.MergeOverLast | plant_model.py:123-125 | the last successor that forwards a kind wins |
| Flow.MergeRequests | plant_model.py:115-125 | the loop computes Merged |
| Flow.BlacklistMeans | plant_model.py:200-204 | the blacklist is the union of the siblings' whitelists, and fails if a sibling has none |
| Flow.GatherOneFails | plant_model.py:185-213 | collecting from a producer fails iff its buffer is missing or None, or a whitelist or blacklist is needed and missing |
| Flow.GatherOneMeans | plant_model.py:190-213 | accepted kinds move from the producer's buffer to the inputs (later producers win); the others stay; other buffers are untouched |
| Flow.GatherOverShrinks | plant_model.py:185-213 | buffers only lose kinds while collecting |
| Flow.GatheredShrinks | plant_model.py:181-213 | buffers only lose kinds while collecting |
| Flow.GatherInputs | plant_model.py:181-213 | the loop computes Gathered |
| Flow.GatherOverFrom | plant_model.py:185-213 | every collected kind was held before or is the very resource a producer had in its buffer |
| Flow.GatheredFrom | plant_model.py:181-213 | a node is handed None iff it has no From list; otherwise every kind it is handed is the resource one of its From nodes had in its buffer |
| SetupPass.AnswerNode | plant_model.py:112-135 | agrees with AnswerSpec |
| SetupPass.Sweep | plant_model.py:111-139 | agrees with SweepSpec |
| SetupPass.RequestPass | plant_model.py:99-146 | agrees with PassSpec |
| SetupPass.AnswerUpdates | plant_model.py:112-135 | processing q changes q's entries only, records its request and energy, adds its demand to the projected energy, and keeps a deposit's merged request as its baseline |
| SetupPass.AnswerKeeps | plant_model.py:112-135 | earlier answered nodes stay answered |
| SetupPass.AnswerAnswers | plant_model.py:112-135 | q is answered with the merge of its successors' final requests |
| SetupPass.AnswerSums | plant_model.py:134 | the projected energy gains exactly q's demand |
| SetupPass.AnswerRecords | plant_model.py:112-135 | the records invariant is preserved |
| SetupPass.AnswerPreserves | plant_model.py:112-135 | the loop invariant (records and order) is preserved |
| SetupPass.SweepMeans | plant_model.py:111-135 | a sweep answers its ready nodes in order, or stops at a node whose request fails |
| SetupPass.PassMeans | plant_model.py:109-146 | the while loop answers every node or stops at a dead end (a closed set) or a refusing node |
| SetupPass.PassDone | plant_model.py:109 | nothing outstanding ends the pass with every node answered |
| SetupPass.PassFails | plant_model.py:130 | a failed request ends the pass |
| SetupPass.PassStuck | plant_model.py:136-137 | a sweep that processes nothing raises the dead end, and its nodes form a closed set |
| SetupPass.PassRound | plant_model.py:138-146 | after a productive sweep the pass goes on with the rest |
| SetupPass.StuckClosed | plant_model.py:141-146 | unready outstanding nodes each wait on another |
| SetupPass.SetupMeans | plant_model.py:99-146 | either every node is answered once, after its successors, and the projected energy is the sum of all demands; or a dead end at a closed set; or a refusing node |
| RunPass.StepNode | plant_model.py:180-233 | agrees with StepSpec |
| RunPass.FinishNode | plant_model.py:214-233 | agrees with Record of the node's run |
| RunPass.Sweep | plant_model.py:178-237 | agrees with SweepSpec |
| RunPass.RunSweeps | plant_model.py:165-244 | agrees with PassSpec |
| RunPass.StepUpdates | plant_model.py:181-233 | running q records its state, buffer and energy; a deposit's outputs are noted as consumed and a depot's contents as produced; the actual energy gains its demand |
| RunPass.StepKeeps | plant_model.py:181-233 | nodes that ran stay ran |
| RunPass.StepRuns | plant_model.py:181-233 | q ran, on exactly what Gathered collected for it from the buffers |
| RunPass.FedKept | plant_model.py:181-233 | what a node was handed stays what its From nodes put out while other nodes run |
| RunPass.StepFed | plant_model.py:181-213 | what q collects is what its From nodes' runs put out |
| RunPass.KindFed | plant_model.py:181-213 | each kind q collects is one a From node's run put out |
| RunPass.BufferEmitted | plant_model.py:214-233 | what sits in a buffer is what that node's run put out |
| RunPass.StepRecords | plant_model.py:181-233 | the records invariant is preserved |
| RunPass.StepRanAll | plant_model.py:181-233 | all nodes that ran, q included, have run |
| RunPass.StepFrame | plant_model.py:181-233 | buffers exist exactly for nodes that ran; the actual energy is their sum |
| RunPass.StepKeys | plant_model.py:181-233 | nodes not yet run keep their state |
| RunPass.StepEnergy | plant_model.py:232 | the actual energy is the sum of the nodes that ran |
| RunPass.StepSums | plant_model.py:232 | adding a node adds its energy |
| RunPass.StepPreserves | plant_model.py:178-233 | the loop invariant (records and order) is preserved |
| RunPass.SweepMeans | plant_model.py:178-233 | a sweep runs its ready nodes in order, or stops at a failing node |
| RunPass.PassMeans | plant_model.py:176-244 | the while loop runs every node or stops at a dead end or a failing node |
| RunPass.PassDone | plant_model.py:176 | nothing outstanding ends the pass with every node run |
| RunPass.PassFails | plant_model.py:214 | a failed run ends the pass |
| RunPass.PassStuck | plant_model.py:234-235 | a sweep that runs nothing raises the dead end: every node has predecessors, or the outstanding nodes form a closed set |
| RunPass.PassRound | plant_model.py:236-244 | after a productive sweep the pass goes on with the rest |
| RunPass.StuckClosed | plant_model.py:239-244 | unready outstanding nodes each wait on another |
| RunPass.RunMeans | plant_model.py:165-244 | either every node ran once, after its From nodes, on resources its From nodes' runs put out, and the actual energy is the sum of demands; or a dead end; or a failing node |
| RunPass.OveragesFail | plant_model.py:247-251 | collecting overages fails iff a node other than a depot or deposit has no output buffer |
| RunPass.OveragesHold | plant_model.py:247-251 | the overages hold every depot's Overage and every other non-deposit node's non-empty buffer |
| RunPass.OveragesLast | plant_model.py:247-251 | one loop step adds a depot's Overage, or a non-empty buffer, or nothing for a deposit |
| RunPass.CollectOverages | plant_model.py:246-251 | the loop computes Overages |
| PlantModel.Prepared | plant_model.py:88-96 | fails with UnknownDepot iff a requested name is not a depot |
| PlantModel.PreparedMeans | plant_model.py:88-96 | deposits lose their output rate, requested depots get their mass, nothing else changes |
| PlantModel.Prepare | plant_model.py:88-96 | computes Prepared |
| PlantModel.ClearDeposits | plant_model.py:90-91 | the loop computes Cleared |
| PlantModel.AssignMasses | plant_model.py:93-96 | the loop assigns the masses or fails on a non-depot name |
| PlantModel.Unrequested | plant_model.py:149-151 | None iff every deposit has an output rate, else such a deposit |
| PlantModel.UnrequestedFirst | plant_model.py:149-151 | the reported deposit is the first one in definition order |
| PlantModel.FirstUnrequested | plant_model.py:149-151 | the loop computes Unrequested |
| PlantModel.SetupSucceeds | plant_model.py:84-154 | after setup every requested name is a depot, every node was answered after its successors, every deposit has a rate, and the projected energy is the sum of demands |
| PlantModel.SetupStops | plant_model.py:109-137 | a stopped backward pass fails setup with a dead end at a closed set or at a refusing node |
| PlantModel.SetupUnasked | plant_model.py:148-151 | a completed pass fails only at the first deposit with no rate |
| PlantModel.RunSucceeds | plant_model.py:157-254 | after run every node ran after its predecessors, on resources their runs put out; the actual energy is the sum of demands, and the overages are collected |
| PlantModel.PassSucceeds | plant_model.py:165-244 | a completed forward pass ran every node, fed by its From nodes, and summed their energy |
| PlantModel.OveragesOf | plant_model.py:246-251 | the overages, node by node |
| PlantModel.RunFails | plant_model.py:157-251 | a failed run stopped at a dead end or a failing node, or left a non-depot, non-deposit node without a buffer |
| PlantModel.SetupOn | plant_model.py:84-151 | agrees with SetupSpec |
| PlantModel.PassOn | plant_model.py:99-151 | agrees with Checked of the pass |
| PlantModel.RunOn | plant_model.py:157-251 | agrees with RunSpec |
| PlantModel.Plant.constructor | plant_model.py:46-57 | the plant starts with empty records and zero energies |
| PlantModel.Plant.Setup | plant_model.py:84-154 | succeeds iff SetupSpec does, then holds its state; projected power = energy / Δt; the run fields are untouched |
| PlantModel.Plant.Run | plant_model.py:157-254 | succeeds iff RunSpec does, then holds its state; actual power = energy / Δt; the setup fields are untouched |
| PlantModel.Build | plant_model.py:46-81 | fails iff some From entry names an unknown node; otherwise a fresh valid plant over the linked network |

## Left out

- The gas branches of `Compress` and `Heat` (abstract_process.py:198-209, 217-222) use floating-point thermodynamics (`exp`, `log`, fractional powers). They are an injected gas model in `Conditioning.Env`, with no properties assumed.
- `getattr(resourceLib, name)` is replaced by an injected `Resources.Registry`. The catalog files resources.py, processes.py, mars.py and isru_plants.py are constant tables and are not part of this model; `Mars` copies the two ambient constants.
- `reportSummary` and the `DEBUG_PRINT` output only print; they are left out.
- `copy.deepcopy` of a deposit's outputs is a snapshot, which value semantics gives for free.
- Δt = 0 is excluded: `setup`, `run` and the node operations require Δt > 0. The ZeroDivisionError a zero step would raise is not modelled.
- Catalog validity is assumed, not checked: distinct component names, positive rates and positive mass fractions (`Nodes.ValidRole`). The source relies on the same.
- Floating-point rounding is not modelled; all quantities are exact reals. `ZERO_TOL` is a plain real comparison.
- Python's `name is not 'ANY'` identity test is modelled as string equality.
- Folds.Traverse: on failure it states only that the error is some failing entry's, not which. The source reports the first in dict insertion order, which a map does not keep. The same holds for every method stated with `Agrees`.
- Conditioning.ConfigureInputs: the error returned when several resources fail is unspecified (dict order).
- Plain.DeductInputs: the error returned when several inputs fail is unspecified (dict order).
- Plain.UpstreamEnergy: the error returned when several requests fail is unspecified (dict order).
- Processes.Process.Run: on failure the fields are unspecified. The source leaves them partly updated.
- Processes.Process.Request: on failure the fields are unspecified. The source leaves them partly updated.
- PlantModel.Plant.Setup: on failure the fields are unspecified. The source leaves the chain partly updated.
- PlantModel.Plant.Run: on failure the fields are unspecified. The source leaves the chain partly updated.
- Aliasing is not modelled. In the source, `Compress`/`Heat` inside `request` change the downstream node's stored request objects in place, and consumers share resource objects with producers' buffers. `Multiplex.request` also divides every given request object by N in place (complex_process.py:50) and scales back only the requests it returns (lines 55-56), so a later sibling predecessor or a deposit's `baseline_requests` entry holding the same objects sees the divided mass. The model passes values, so none of these later edits is visible elsewhere.
- Stale `Output_Resources` and `Resource_Request` entries from an earlier call are not modelled. Each pass overwrites them before reading them, so the result is the same.
- Setup idempotence (running `setup` again on the state a successful `setup` left, with the same depot masses, gives the same projected energy and deposit rates) is not proved. It would need a non-interference argument over the whole backward pass: each node's request reads only fields the preparation resets, and only requests recorded earlier in the same pass.
- Plain.RoundTrip: stated only for requests that name only kinds the transform makes; requests for other kinds, which request passes upstream unchanged (abstract_process.py:142-146), are not followed through run. It is also stated only for transforms whose inputs are named (no ANY) and condensed, because gas conditioning is the injected model and is not known to keep masses. It needs a positive duty, since at duty 0 run divides by a zero removed mass.
- MultiplexNode.MuxUnitsAgree: stated for transforms whose inputs are named (no ANY), and for N ≥ 1.
- MultiplexNode.MuxOutputsCover: stated for transforms whose inputs are named (no ANY) and condensed, and for N ≥ 1, as Plain.RoundTrip is. A multiplexed request only names kinds the transform makes, because it fails on any other kind.
- RunMeans: each node is shown to run on resources its From nodes' runs put out; which of them the whitelists route to it is stated per producer by Flow.GatherOneMeans, not carried to the pass level.
- A deposit's or depot's `filter` flag is always false in the source (complex_process.py:65, 110); the model's `Config` lets it be set for any role, a generalisation.

## Findings

| source | as written | input that shows it | evidently intended | confidence | as-written member | corrected member |
|---|---|---|---|---|---|---|
| complex_process.py:135-137 | `use_mTot` starts at 100·request_mass², which caps the stored total whenever that is below the smallest supply ratio | request_mass 0.001 kg, composition {Water: 1.0}, 0.001 kg Water arriving: stores 0.0001 kg and moves the rest to Overage | the stored total is the smallest mass/fraction over the composition, as the comment "so high no overage would ever be likely to exceed it" says; a request met exactly is stored whole | high (not executed) | DepotNode.CapCounterexample | DepotNode.StoresWhatItRequested |
