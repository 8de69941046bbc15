/** Convergence of a run in waves: the waves see to it that completions come after what they complete. */
module ConvergedRun {
  import opened Wrappers
  import opened Lists
  import opened Digraph
  import opened ResourceGraphs
  import opened Schedule
  import opened Waves
  import opened Plans
  import opened Orphans
  import opened ExecutionWaves
  import opened DestroyOrder
  import opened Planning
  import opened PlanLink
  import opened Convergence

  /** An operation that records a completion runs once, for the resource it waits for. */
  ghost predicate CompletionsListed(g: ResourceGraph) {
    forall op :: op in g.operations && op.completion.Some? ==>
      !op.each && op.address != "" && op.completion.value != "" && op.completion.value in op.dependsOn
  }

  /** No item is executed before one of an earlier wave. */
  ghost predicate InStageOrder(stage: map<string, nat>, items: seq<ExecutionItem>) {
    forall i, j :: 0 <= i < j < |items| && items[i].address in stage && items[j].address in stage ==>
      stage[items[i].address] <= stage[items[j].address]
  }

  /** Items are executed under the addresses of their steps. */
  ghost predicate Addressed(items: seq<ExecutionItem>) {
    forall i :: 0 <= i < |items| ==>
      items[i].address == if items[i].ResourceItem? then items[i].step.address else items[i].operation.address
  }

  /** A completion is in a later wave than the step of the resource it completes. */
  lemma CompletionComesLater(g: ResourceGraph, inputs: Inputs, stays: Stays, eachAddress: EachAddress, plan: Plan, overrides: Overrides,
                             stage: map<string, nat>, o: OperationStep)
    requires Setting(g, plan, overrides) && Staged(ExecGraph(g, plan, overrides), stage)
    requires IsPlan(g, inputs, stays, eachAddress, plan) && CompletionsListed(g)
    requires o in plan.operations && o.operation.completion.Some? && o.operation.completion.value in StepMap(plan.steps)
    ensures o.address in stage && o.operation.completion.value in stage && stage[o.operation.completion.value] < stage[o.address]
  {
    var op := CompletionRun(g, inputs, stays, eachAddress, plan, o);
    OperationMapOk(plan.operations);
    assert OperationKey(o) == op.address && op.address in OperationMap(plan.operations);
    OperationInTable(g, op);
    DedupeHas(op.dependsOn, op.completion.value);
    OperationWaits(g, plan, overrides, op.address, op.completion.value);
    EdgeFalls(ExecGraph(g, plan, overrides), stage, op.address, op.completion.value);
  }

  lemma CompletionRun(g: ResourceGraph, inputs: Inputs, stays: Stays, eachAddress: EachAddress, plan: Plan, o: OperationStep) returns (op: Operation)
    requires IsPlan(g, inputs, stays, eachAddress, plan) && CompletionsListed(g)
    requires o in plan.operations && o.operation.completion.Some?
    ensures op in g.operations && op.address == o.address != "" && op.completion == o.operation.completion
    ensures op.completion.value in op.dependsOn && op.completion.value != ""
  {
    var changed := ChangedAddresses(plan.steps);
    var runs := AllRuns(g.operations, changed, eachAddress);
    var i :| 0 <= i < |runs| && plan.operations[i] == o;
    op := RunComesFrom(g.operations, changed, eachAddress, runs[i]);
    RunIsOf(op, changed, eachAddress, runs[i]);
  }

  lemma CompletesInOrder(g: ResourceGraph, inputs: Inputs, stays: Stays, eachAddress: EachAddress, plan: Plan, overrides: Overrides,
                         stage: map<string, nat>, items: seq<ExecutionItem>, i: nat, j: nat)
    requires Setting(g, plan, overrides) && Staged(ExecGraph(g, plan, overrides), stage)
    requires IsPlan(g, inputs, stays, eachAddress, plan) && CompletionsListed(g)
    requires ListsAll(plan, items) && InStageOrder(stage, items) && Addressed(items)
    requires i < |items| && j < |items| && Completes(items, i, j)
    ensures i < j
  {
    var o := CompletingItem(plan, items, i, j);
    CompletionComesLater(g, inputs, stays, eachAddress, plan, overrides, stage, o);
    if j < i { LaterStage(stage, items, j, i); }
  }

  lemma LaterStage(stage: map<string, nat>, items: seq<ExecutionItem>, i: nat, j: nat)
    requires InStageOrder(stage, items) && i < j < |items| && items[i].address in stage && items[j].address in stage
    ensures stage[items[i].address] <= stage[items[j].address]
  {
  }

  lemma CompletingItem(plan: Plan, items: seq<ExecutionItem>, i: nat, j: nat) returns (o: OperationStep)
    requires ListsAll(plan, items) && Addressed(items) && i < |items| && j < |items| && Completes(items, i, j)
    ensures i != j && o in plan.operations && o.operation.completion == Some(items[i].address)
    ensures o.address == items[j].address && items[i].address in StepMap(plan.steps)
  {
    o := items[j].operation;
    StepMapOk(plan.steps);
    assert items[i].step in plan.steps;
    AddressesOfSteps(plan.steps, items[i].step.address);
  }

  /** If the items of a plan have been executed in the order of the waves and without an error, the next
      plan is empty. */
  lemma WavesConverge(g: ResourceGraph, env: Inputs, stays: Stays, eachAddress: EachAddress, plan: Plan, overrides: Overrides,
                      stage: map<string, nat>, items: seq<ExecutionItem>, next: Plan)
    requires Sound(g) && WellFormed(g) && Apart(g, env, eachAddress) && TriggersListed(g) && CompletionsListed(g)
    requires IsPlan(g, env, stays, eachAddress, plan) && OverridesOk(g, plan, overrides)
    requires Staged(ExecGraph(g, plan, overrides), stage)
    requires ListsAll(plan, items) && InStageOrder(stage, items) && Addressed(items) && ExecutedAll(items, env).Some?
    requires IsPlan(g, ExecutedAll(items, env).value, stays, eachAddress, next)
    ensures next.steps == [] && next.operations == []
  {
    PlanFits(g, env, stays, eachAddress, plan);
    PlanIsWithin(g, env, stays, eachAddress, plan);
    forall i, j | 0 <= i < |items| && 0 <= j < |items| && Completes(items, i, j) ensures i < j {
      CompletesInOrder(g, env, stays, eachAddress, plan, overrides, stage, items, i, j);
    }
    AppliedMeansConverged(g, env, stays, eachAddress, plan, items, next);
  }
}
