/** The chemical or mechanical change a process performs: the components it
    consumes and produces, each at a rate in kg/s, and its power draw. */
module Transforms {
  import opened Resources

  /** The wildcard input name: any resource of the component's phase. */
  const ANY: string := "ANY"

  datatype Component = Component(name: string, phase: Phase, rate: real)

  datatype Transform = Transform(inputs: seq<Component>, outputs: seq<Component>, power: real)

  /** The component names in declaration order. */
  function Kinds(cs: seq<Component>): (ks: seq<string>)
    ensures |ks| == |cs|
  {
    if cs == [] then [] else [cs[0].name] + Kinds(cs[1..])
  }

  lemma {:induction false} KindsAt(cs: seq<Component>)
    ensures forall i :: 0 <= i < |cs| ==> Kinds(cs)[i] == cs[i].name
  {
    if cs != [] {
      KindsAt(cs[1..]);
      forall i | 1 <= i < |cs| ensures Kinds(cs)[i] == cs[i].name {
        assert cs[1..][i - 1] == cs[i];
      }
    }
  }

  /** No two components share a name. */
  predicate DistinctNames(cs: seq<Component>) {
    forall i, j :: 0 <= i < j < |cs| ==> cs[i].name != cs[j].name
  }

  /** Component i is the last one with its name, so a dict built from the list keeps it. */
  predicate LastOfName(cs: seq<Component>, i: int)
    requires 0 <= i < |cs|
  {
    forall j :: i < j < |cs| ==> cs[j].name != cs[i].name
  }

  /** A catalog transform: names unique on each side, every rate positive. */
  predicate ValidTransform(t: Transform) {
    DistinctNames(t.inputs) && DistinctNames(t.outputs) &&
    (forall i :: 0 <= i < |t.inputs| ==> t.inputs[i].rate > 0.0) &&
    (forall i :: 0 <= i < |t.outputs| ==> t.outputs[i].rate > 0.0)
  }

  /** `{c.Name: c for c in cs}`: a later component overrides an earlier one of the same name. */
  function ByName(cs: seq<Component>): map<string, Component> {
    if cs == [] then map[] else map[cs[0].name := cs[0]] + ByName(cs[1..])
  }

  /** The dict's keys are exactly the component names. */
  lemma {:induction false} ByNameKeys(cs: seq<Component>)
    ensures forall i :: 0 <= i < |cs| ==> cs[i].name in ByName(cs)
    ensures forall k :: k in ByName(cs) ==> exists i :: 0 <= i < |cs| && cs[i].name == k
  {
    if cs != [] {
      ByNameKeys(cs[1..]);
      forall i | 1 <= i < |cs| ensures cs[i].name in ByName(cs) {
        assert cs[1..][i - 1] == cs[i];
      }
      forall k | k in ByName(cs) ensures exists i :: 0 <= i < |cs| && cs[i].name == k {
        if k != cs[0].name {
          var i :| 0 <= i < |cs| - 1 && cs[1..][i].name == k;
          assert cs[i + 1].name == k;
        }
      }
    }
  }

  /** The dict keeps the last component of each name. */
  lemma {:induction false} ByNameLast(cs: seq<Component>, i: int)
    requires 0 <= i < |cs| && LastOfName(cs, i)
    ensures cs[i].name in ByName(cs) && ByName(cs)[cs[i].name] == cs[i]
  {
    ByNameKeys(cs);
    if i > 0 {
      assert cs[1..][i - 1] == cs[i];
      assert LastOfName(cs[1..], i - 1);
      ByNameLast(cs[1..], i - 1);
    } else {
      ByNameKeys(cs[1..]);
    }
  }

  /** On a list with unique names, every component is the dict's entry for its name. */
  lemma ByNameDistinct(cs: seq<Component>, i: int)
    requires DistinctNames(cs) && 0 <= i < |cs|
    ensures LastOfName(cs, i) && cs[i].name in ByName(cs) && ByName(cs)[cs[i].name] == cs[i]
  {
    ByNameLast(cs, i);
  }

  /** The mass a component amounts to over `time` at full duty. */
  function MassOver(c: Component, time: real): real {
    time * c.rate
  }

  /** `{name: time*c.Rate for ...}` over one side of a transform. */
  function Masses(cs: seq<Component>, time: real): (m: map<string, real>)
    ensures m.Keys == ByName(cs).Keys
  {
    var byName := ByName(cs);
    map k | k in byName :: MassOver(byName[k], time)
  }

  /** With unique names, a component's entry is time × its rate. */
  lemma MassesAt(cs: seq<Component>, time: real, i: int)
    requires DistinctNames(cs) && 0 <= i < |cs|
    ensures cs[i].name in Masses(cs, time) && Masses(cs, time)[cs[i].name] == time * cs[i].rate
  {
    ByNameDistinct(cs, i);
  }

  lemma MassesDistinct(cs: seq<Component>, time: real)
    requires DistinctNames(cs)
    ensures forall i :: 0 <= i < |cs| ==> cs[i].name in Masses(cs, time)
    ensures forall i :: 0 <= i < |cs| ==> Masses(cs, time)[cs[i].name] == time * cs[i].rate
  {
    forall i | 0 <= i < |cs| ensures cs[i].name in Masses(cs, time) && Masses(cs, time)[cs[i].name] == time * cs[i].rate {
      MassesAt(cs, time, i);
    }
  }

  /** get_input_masses: what the inputs can supply over `time` at full duty. */
  function InputMasses(t: Transform, time: real): (m: map<string, real>)
    requires ValidTransform(t)
    ensures m.Keys == ByName(t.inputs).Keys
    ensures forall i :: 0 <= i < |t.inputs| ==> t.inputs[i].name in m
    ensures forall i :: 0 <= i < |t.inputs| ==> m[t.inputs[i].name] == time * t.inputs[i].rate
  {
    MassesDistinct(t.inputs, time);
    Masses(t.inputs, time)
  }

  /** An input kind's full-duty mass is time × the rate of its component. */
  lemma InputMassOf(t: Transform, time: real, k: string)
    requires ValidTransform(t) && k in ByName(t.inputs)
    ensures k in InputMasses(t, time) && InputMasses(t, time)[k] == time * ByName(t.inputs)[k].rate
  {
  }

  /** get_output_masses: what the outputs amount to over `time` at full duty. */
  function OutputMasses(t: Transform, time: real): (m: map<string, real>)
    requires ValidTransform(t)
    ensures m.Keys == ByName(t.outputs).Keys
    ensures forall i :: 0 <= i < |t.outputs| ==> t.outputs[i].name in m
    ensures forall i :: 0 <= i < |t.outputs| ==> m[t.outputs[i].name] == time * t.outputs[i].rate
  {
    MassesDistinct(t.outputs, time);
    Masses(t.outputs, time)
  }

  /** The components other than the wildcard, in order. */
  function WithoutAny(cs: seq<Component>): (r: seq<Component>)
    ensures forall c :: c in r <==> c in cs && c.name != ANY
  {
    if cs == [] then []
    else (if cs[0].name == ANY then [] else [cs[0]]) + WithoutAny(cs[1..])
  }
}
