/** The items of one wave of a plan do nothing that depends on the order among them. */
module WaveEffects {
  import opened Wrappers
  import opened Digraph
  import opened ResourceGraphs
  import opened Plans
  import opened Waves
  import opened Orphans
  import opened ExecutionWaves
  import opened DestroyOrder
  import opened RecordedState
  import opened StepEffects
  import opened Planning
  import opened ConvergedRun
  import opened WaveMachine
  import opened WaveGuarantees

  /** An item of the plan, under its own address, in stage `k` of the graph. */
  ghost predicate InStage(plan: Plan, stage: map<string, nat>, k: nat, item: ExecutionItem) {
    && item.address in stage && stage[item.address] == k
    && match item
       case ResourceItem(a, _, _, _, step) => step in plan.steps && a == step.address
       case OperationItem(a, _, _, o) => o in plan.operations && a == o.address
  }

  predicate DropsStep(s: Step) { s.action.Delete? || s.action.Destroy? || s.action.Forget? }

  /** Steps of different addresses are compatible unless one records a dependency on what the other drops. */
  lemma StepsCompatibleIf(s: Step, t: Step, x: string, y: string)
    requires s.address != t.address
    requires DropsStep(s) && !DropsStep(t) ==> s.address !in t.node.dependsOn
    requires DropsStep(t) && !DropsStep(s) ==> t.address !in s.node.dependsOn
    ensures Compatible(StepEffect(s, x), StepEffect(t, y))
  {
  }

  /** Nothing in a wave depends on what a step of the wave drops. */
  lemma DroppedIsNotNeeded(g: ResourceGraph, plan: Plan, overrides: Overrides, stage: map<string, nat>, s: Step, t: Step)
    requires Setting(g, plan, overrides) && StepsOfGraph(g, plan) && Staged(ExecGraph(g, plan, overrides), stage)
    requires s in plan.steps && t in plan.steps && s.address in stage && t.address in stage && stage[s.address] == stage[t.address]
    ensures DropsStep(s) && !DropsStep(t) ==> s.address !in t.node.dependsOn
  {
    if DropsStep(s) && !DropsStep(t) {
      ScheduledStepIsKnown(g, plan, overrides, stage, s);
      RecordedLaterIsFree(g, plan, overrides, stage, s, t);
    }
  }

  /** Two steps of a wave. */
  lemma StepsAreCompatible(g: ResourceGraph, plan: Plan, overrides: Overrides, stage: map<string, nat>, s: Step, t: Step, x: string, y: string)
    requires Setting(g, plan, overrides) && StepsOfGraph(g, plan) && Staged(ExecGraph(g, plan, overrides), stage)
    requires s in plan.steps && t in plan.steps && s.address != t.address
    requires s.address in stage && t.address in stage && stage[s.address] == stage[t.address]
    ensures Compatible(StepEffect(s, x), StepEffect(t, y))
  {
    DroppedIsNotNeeded(g, plan, overrides, stage, s, t);
    DroppedIsNotNeeded(g, plan, overrides, stage, t, s);
    StepsCompatibleIf(s, t, x, y);
  }

  /** What is scheduled is not an orphan. */
  lemma ScheduledStepIsKnown(g: ResourceGraph, plan: Plan, overrides: Overrides, stage: map<string, nat>, s: Step)
    requires Setting(g, plan, overrides) && StepsOfGraph(g, plan) && Staged(ExecGraph(g, plan, overrides), stage)
    requires s in plan.steps && s.address in stage
    ensures !s.action.Forget? && !s.action.Destroy?
  {
    OperationMapOk(plan.operations);
    var ops := OperationMap(plan.operations);
    assert s.address in ops ==> Filed(plan.operations, s.address, ops[s.address]);
  }

  /** A completion is in another wave than the step of its resource. */
  lemma CompletionIsApart(g: ResourceGraph, inputs: Inputs, stays: Stays, eachAddress: EachAddress, plan: Plan, overrides: Overrides,
                          stage: map<string, nat>, s: Step, o: OperationStep)
    requires Setting(g, plan, overrides) && Staged(ExecGraph(g, plan, overrides), stage)
    requires IsPlan(g, inputs, stays, eachAddress, plan) && CompletionsListed(g)
    requires s in plan.steps && o in plan.operations && o.operation.completion == Some(s.address)
    requires s.address in stage && o.address in stage
    ensures stage[s.address] < stage[o.address]
  {
    StepMapOk(plan.steps);
    AddressesOfSteps(plan.steps, s.address);
    CompletionComesLater(g, inputs, stays, eachAddress, plan, overrides, stage, o);
  }

  /** A step and an operation are compatible unless the operation completes the step's resource. */
  lemma StepAndOperation(s: Step, x: string, o: OperationStep)
    requires o.operation.completion != Some(s.address)
    ensures var e := if o.operation.completion.Some? then Complete(o.operation.completion.value) else Leave;
      Compatible(StepEffect(s, x), e) && Compatible(e, StepEffect(s, x))
  {
  }

  /** Any two items of a wave have compatible effects. */
  lemma ItemsAreCompatible(g: ResourceGraph, inputs: Inputs, stays: Stays, eachAddress: EachAddress, plan: Plan, overrides: Overrides,
                           stage: map<string, nat>, k: nat, a: ExecutionItem, b: ExecutionItem, x: string, y: string)
    requires Setting(g, plan, overrides) && StepsOfGraph(g, plan) && Staged(ExecGraph(g, plan, overrides), stage)
    requires IsPlan(g, inputs, stays, eachAddress, plan) && CompletionsListed(g)
    requires InStage(plan, stage, k, a) && InStage(plan, stage, k, b) && a.address != b.address
    ensures Compatible(ItemEffect(a, x), ItemEffect(b, y))
  {
    if a.ResourceItem? && b.ResourceItem? {
      StepsAreCompatible(g, plan, overrides, stage, a.step, b.step, x, y);
    } else if a.ResourceItem? {
      NotCompleted(g, inputs, stays, eachAddress, plan, overrides, stage, a.step, b.operation);
      StepAndOperation(a.step, x, b.operation);
    } else if b.ResourceItem? {
      NotCompleted(g, inputs, stays, eachAddress, plan, overrides, stage, b.step, a.operation);
      StepAndOperation(b.step, y, a.operation);
    }
  }

  lemma NotCompleted(g: ResourceGraph, inputs: Inputs, stays: Stays, eachAddress: EachAddress, plan: Plan, overrides: Overrides,
                     stage: map<string, nat>, s: Step, o: OperationStep)
    requires Setting(g, plan, overrides) && Staged(ExecGraph(g, plan, overrides), stage)
    requires IsPlan(g, inputs, stays, eachAddress, plan) && CompletionsListed(g)
    requires s in plan.steps && o in plan.operations && s.address in stage && o.address in stage && stage[s.address] == stage[o.address]
    ensures o.operation.completion != Some(s.address)
  {
    if o.operation.completion == Some(s.address) {
      CompletionIsApart(g, inputs, stays, eachAddress, plan, overrides, stage, s, o);
    }
  }

  /** The threads of one wave of a plan. */
  ghost predicate Threads(plan: Plan, stage: map<string, nat>, k: nat, c: Config, items: seq<ExecutionItem>, returned: seq<string>) {
    && |c.items| == |items| == |returned|
    && (forall i :: 0 <= i < |items| ==> InStage(plan, stage, k, items[i]) && c.items[i].effect == ItemEffect(items[i], returned[i]))
    && (forall i, j :: 0 <= i < j < |items| ==> items[i].address != items[j].address)
  }

  /** However the threads of a wave step, if the same of them store something, the states come out the same. */
  lemma WaveOrderDoesNotMatter(g: ResourceGraph, inputs: Inputs, stays: Stays, eachAddress: EachAddress, plan: Plan, overrides: Overrides,
                               stage: map<string, nat>, k: nat, c: Config, items: seq<ExecutionItem>, returned: seq<string>,
                               s: World, t: World, start: map<string, HostState>, h: string)
    requires Setting(g, plan, overrides) && StepsOfGraph(g, plan) && Staged(ExecGraph(g, plan, overrides), stage)
    requires IsPlan(g, inputs, stays, eachAddress, plan) && CompletionsListed(g)
    requires Threads(plan, stage, k, c, items, returned)
    requires WaveMachine.Inv(c, s, start) && WaveMachine.Inv(c, t, start) && AllFinished(s) && AllFinished(t) && h in c.hosts
    requires forall i: nat :: At(s, i) ==> s.phase[i] == t.phase[i]
    ensures s.hosts[h].backend == t.hosts[h].backend
  {
    forall i: nat, j: nat | i < |c.items| && j < |c.items| ensures Compatible(c.items[i].effect, c.items[j].effect) {
      if i != j { ItemsAreCompatible(g, inputs, stays, eachAddress, plan, overrides, stage, k, items[i], items[j], returned[i], returned[j]); }
    }
    InterleavingDoesNotMatter(c, s, t, start, h);
  }
}
