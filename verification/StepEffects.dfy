/** What executing an item of a plan does to the recorded state, and why no reference is left behind. */
module StepEffects {
  import opened Wrappers
  import opened Lists
  import opened Digraph
  import opened ResourceGraphs
  import opened Waves
  import opened Plans
  import opened Orphans
  import opened ExecutionWaves
  import opened DestroyOrder
  import opened RecordedState

  /** The effect of a step that the provider has carried out; `changed` is the change-action digest
      among the values that the provider returned. */
  function StepEffect(step: Step, changed: string): Effect {
    match step.action
    case Create | Update =>
      if step.node.kind == "component_script_output" then Leave else Record(step.address, ResourceOf(step, changed))
    case Delete | Destroy | Forget => Drop(step.address)
    case Adopt => Record(step.address, ResourceOf(step, step.changed))
    case NoOp => Leave
  }

  function ItemEffect(item: ExecutionItem, changed: string): Effect {
    match item
    case ResourceItem(_, _, _, _, step) => StepEffect(step, changed)
    case OperationItem(_, _, _, o) => if o.operation.completion.Some? then Complete(o.operation.completion.value) else Leave
  }

  /** The part of `executeResourceStep` that edits the copied state, with the state to write, if any. */
  method EditForStep(start: HostState, step: Step, changed: string) returns (r: Option<HostState>)
    ensures r == Edit(StepEffect(step, changed), start)
  {
    var st := start;
    match step.action {
      case Create | Update =>
        if step.node.kind == "component_script_output" {
          return None;
        }
        st := st[step.address := ResourceOf(step, changed)];
      case Delete | Destroy | Forget =>
        st := st - {step.address};
        st := RemoveStateDependencyReferences(st, step.address);
      case Adopt =>
        st := st[step.address := ResourceOf(step, step.changed)];
      case NoOp =>
        return None;
    }
    r := Some(st);
  }

  // ---------------------------------------------------------------- no dangling references

  /** Steps that the graph knows carry its nodes; the others destroy or forget. */
  ghost predicate StepsOfGraph(g: ResourceGraph, plan: Plan) {
    && (forall s :: s in plan.steps && s.address in Known(g) ==> s.node in g.nodes && s.node.address == s.address)
    && (forall s :: s in plan.steps ==> (s.address in Known(g) <==> !s.action.Destroy? && !s.action.Forget?))
    && DistinctSteps(plan.steps)
  }

  /** The commits of one host in their order, each with what its provider returned. */
  datatype Commit = Commit(item: ExecutionItem, changed: string)

  function Effects(commits: seq<Commit>): (r: seq<Effect>)
    ensures |r| == |commits| && forall i :: 0 <= i < |r| ==> r[i] == ItemEffect(commits[i].item, commits[i].changed)
  {
    seq(|commits|, i requires 0 <= i < |commits| => ItemEffect(commits[i].item, commits[i].changed))
  }

  /** The commits are of items of the plan, and none comes before one of an earlier wave. */
  ghost predicate InWaveOrder(plan: Plan, stage: map<string, nat>, commits: seq<Commit>) {
    && (forall c :: c in commits && c.item.ResourceItem? ==> c.item.step in plan.steps && c.item.address == c.item.step.address)
    && forall i, j :: 0 <= i < j < |commits| && commits[i].item.address in stage && commits[j].item.address in stage ==>
         stage[commits[i].item.address] <= stage[commits[j].item.address]
  }

  lemma DistinctStepIs(plan: Plan, s: Step)
    requires DistinctSteps(plan.steps) && s in plan.steps
    ensures s.address in StepMap(plan.steps) && StepMap(plan.steps)[s.address] == s
  {
    StepMapOk(plan.steps);
    var i :| 0 <= i < |plan.steps| && plan.steps[i] == s;
    assert Keys(plan.steps, StepAddress)[i] == s.address;
    var t := StepMap(plan.steps)[s.address];
    var j :| 0 <= j < |plan.steps| && plan.steps[j] == t;
    NoDupAt(Keys(plan.steps, StepAddress), i, j);
  }

  /** A step whose node depends on what another step destroys stands in an earlier wave. */
  lemma DependentComesFirst(g: ResourceGraph, plan: Plan, overrides: Overrides, stage: map<string, nat>, gone: Step, step: Step)
    requires Setting(g, plan, overrides) && StepsOfGraph(g, plan) && Staged(ExecGraph(g, plan, overrides), stage)
    requires gone in plan.steps && DestroysResource(gone.action)
    requires step in plan.steps && !step.action.Destroy? && !step.action.Forget? && gone.address in step.node.dependsOn
    ensures gone.address in stage && step.address in stage && stage[step.address] < stage[gone.address]
  {
    DistinctStepIs(plan, gone);
    DistinctStepIs(plan, step);
    StepsInOrder(g, plan, overrides, stage, step.node, gone.address);
  }

  /** What is recorded after a resource was destroyed does not depend on it. */
  lemma RecordedLaterIsFree(g: ResourceGraph, plan: Plan, overrides: Overrides, stage: map<string, nat>, gone: Step, step: Step)
    requires Setting(g, plan, overrides) && StepsOfGraph(g, plan) && Staged(ExecGraph(g, plan, overrides), stage)
    requires gone in plan.steps && DestroysResource(gone.action)
    requires step in plan.steps && !step.action.Destroy? && !step.action.Forget?
    requires gone.address in stage && step.address in stage ==> stage[gone.address] <= stage[step.address]
    ensures gone.address !in step.node.dependsOn
  {
    if gone.address in step.node.dependsOn { DependentComesFirst(g, plan, overrides, stage, gone, step); }
  }

  lemma CommitsInOrder(plan: Plan, stage: map<string, nat>, commits: seq<Commit>, i: nat, j: nat)
    requires InWaveOrder(plan, stage, commits) && i < j < |commits|
    requires commits[i].item.ResourceItem? && Effects(commits)[j].Record?
    ensures var step := commits[j].item;
      && step.ResourceItem? && step.step in plan.steps && !step.step.action.Destroy? && !step.step.action.Forget?
      && commits[i].item.step in plan.steps && commits[i].item.address == commits[i].item.step.address
      && Effects(commits)[j].resource.dependsOn == step.step.node.dependsOn
      && (commits[i].item.address in stage && step.step.address in stage ==> stage[commits[i].item.address] <= stage[step.step.address])
  {
    assert commits[i] in commits && commits[j] in commits;
  }

  /** After any run, complete or not, no resource recorded at a host depends on one that the run has
      deleted or destroyed there. */
  lemma NothingDangles(g: ResourceGraph, plan: Plan, overrides: Overrides, stage: map<string, nat>, commits: seq<Commit>, start: HostState, i: nat)
    requires Setting(g, plan, overrides) && StepsOfGraph(g, plan) && Staged(ExecGraph(g, plan, overrides), stage)
    requires InWaveOrder(plan, stage, commits) && i < |commits|
    requires commits[i].item.ResourceItem? && DestroysResource(commits[i].item.step.action)
    ensures !References(Outcome(start, Effects(commits)), commits[i].item.address)
  {
    var effects, a := Effects(commits), commits[i].item.address;
    assert commits[i] in commits;
    forall j | i < j < |effects| && effects[j].Record? ensures a !in effects[j].resource.dependsOn {
      CommitsInOrder(plan, stage, commits, i, j);
      RecordedLaterIsFree(g, plan, overrides, stage, commits[i].item.step, commits[j].item.step);
    }
    DroppedIsUnreferenced(start, effects, i, a);
  }
}
