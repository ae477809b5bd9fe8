/** Runs: any number of enabled steps, one after the other. */
module KernelRuns {
  import opened KernelTypes
  import opened KernelSpec

  datatype Trace = Trace(states: seq<State>, steps: seq<Step>)

  ghost predicate StepOf(r: Trace, i: nat)
    requires i < |r.steps| && |r.states| == |r.steps| + 1
  {
    Enabled(r.states[i], r.steps[i]) && r.states[i + 1] == Next(r.states[i], r.steps[i]).0
  }

  ghost predicate ValidTrace(r: Trace) {
    && |r.states| == |r.steps| + 1
    && forall i: nat :: i < |r.steps| ==> StepOf(r, i)
  }

  /** A run from the state in which the master thread starts. */
  ghost predicate FromBoot(r: Trace) {
    ValidTrace(r) && r.states[0] == Init()
  }

  /** How many of the steps from..to-1 are timer ticks. */
  function Ticks(steps: seq<Step>): nat {
    if steps == [] then 0 else Ticks(steps[..|steps| - 1]) + if steps[|steps| - 1].Tick? then 1 else 0
  }
}
