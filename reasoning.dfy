/**
 * ReasoningTrace: the agent's log of reasoning steps, each numbered by a
 * counter that add_step advances. The console rendering of the trace is not
 * modelled.
 */
module Reasoning {

  /** The icon add_step uses when the caller gives none: a rightwards arrow. */
  const DefaultIcon: string := "\U{2192}"

  /** One entry of the trace, the dictionary {"step", "title", "content", "icon"}. */
  datatype Step = Step(step: int, title: string, content: string, icon: string)

  /** Step i (0-based) carries the number i + 1. */
  predicate Numbered(steps: seq<Step>) {
    forall i :: 0 <= i < |steps| ==> steps[i].step == i + 1
  }

  /** The step add_step appends to a well-numbered log of n entries. */
  function NextStep(steps: seq<Step>, title: string, content: string, icon: string): (r: seq<Step>)
    requires Numbered(steps)
    ensures Numbered(r)
    ensures |r| == |steps| + 1 && r[..|steps|] == steps
    ensures r[|steps|] == Step(|steps| + 1, title, content, icon)
  {
    steps + [Step(|steps| + 1, title, content, icon)]
  }

  class ReasoningTrace {
    var steps: seq<Step>
    var currentStep: int

    /** The counter is the number of steps and the steps are numbered 1, 2, ... in order. */
    ghost predicate Valid()
      reads this
    {
      currentStep == |steps| && Numbered(steps)
    }

    constructor ()
      ensures Valid()
      ensures steps == [] && currentStep == 0
    {
      steps := [];
      currentStep := 0;
    }

    /** add_step: the counter goes up by one and exactly one step, carrying the new count, is appended. */
    method AddStep(title: string, content: string, icon: string := DefaultIcon)
      modifies this
      ensures currentStep == old(currentStep) + 1
      ensures steps == old(steps) + [Step(currentStep, title, content, icon)]
      ensures old(Valid()) ==> Valid() && steps == NextStep(old(steps), title, content, icon)
    {
      currentStep := currentStep + 1;
      steps := steps + [Step(currentStep, title, content, icon)];
    }

    /** clear: back to the empty log with the counter at 0. */
    method Clear()
      modifies this
      ensures Valid()
      ensures steps == [] && currentStep == 0
    {
      steps := [];
      currentStep := 0;
    }
  }

  /** The log is append-only: adding a step keeps every earlier one. */
  lemma AddStepKeepsPrefix(steps: seq<Step>, title: string, content: string, icon: string, i: nat)
    requires Numbered(steps) && i < |steps|
    ensures NextStep(steps, title, content, icon)[i] == steps[i]
  {
  }
}
