/** The steps of a trigger, kept as a list whose first node also points to its last. */
module TriggerSteps {

  class TriggerStep {
    var pNext: TriggerStep?
    var pLast: TriggerStep?

    constructor ()
      ensures pNext == null && pLast == null
    {
      pNext, pLast := null, null;
    }
  }

  /** `steps` are the nodes of the list that begins with `first`, in order. */
  ghost predicate IsList(first: TriggerStep, steps: seq<TriggerStep>)
    reads steps
  {
    && steps != []
    && steps[0] == first
    && (forall i :: 0 <= i < |steps| - 1 ==> steps[i].pNext == steps[i + 1])
    && steps[|steps| - 1].pNext == null
    && first.pLast == steps[|steps| - 1]
    && (forall i, j :: 0 <= i < j < |steps| ==> steps[i] != steps[j])
  }

  /** Rule 239 */
  method FirstStep(step: TriggerStep)
    requires step.pNext == null
    modifies step`pLast
    ensures IsList(step, [step])
  {
    step.pLast := step;
  }

  /** Rule 238: the new step goes to the end without the list being walked. */
  method AppendStep(first: TriggerStep, step: TriggerStep, ghost steps: seq<TriggerStep>)
    requires IsList(first, steps) && step !in steps && step.pNext == null
    modifies first, steps[|steps| - 1]
    ensures IsList(first, steps + [step])
    ensures step.pNext == null
  {
    assert first.pLast == steps[|steps| - 1];
    first.pLast.pNext := step;
    first.pLast := step;
  }

  /** Reducing any number of steps, one by one, lists them in source order. */
  method BuildSteps(nodes: seq<TriggerStep>)
    requires nodes != []
    requires forall i :: 0 <= i < |nodes| ==> nodes[i].pNext == null
    requires forall i, j :: 0 <= i < j < |nodes| ==> nodes[i] != nodes[j]
    modifies nodes
    ensures IsList(nodes[0], nodes)
  {
    FirstStep(nodes[0]);
    assert nodes[..1] == [nodes[0]];
    for k := 1 to |nodes|
      invariant IsList(nodes[0], nodes[..k])
      invariant forall i :: k <= i < |nodes| ==> nodes[i].pNext == null
    {
      AppendStep(nodes[0], nodes[k], nodes[..k]);
      assert nodes[..k] + [nodes[k]] == nodes[..k + 1];
    }
    assert nodes[..|nodes|] == nodes;
  }
}
