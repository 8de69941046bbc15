/** From what is desired, recorded and observed to the steps and operations of a plan. */
module Planning {
  import opened Wrappers
  import opened Lists
  import opened ResourceGraphs
  import opened Plans
  import opened RecordedState

  /** What a provider sees of a resource: the digest of the values it finds, and the change-action
      digest among them. */
  datatype Observed = Observed(present: bool, digest: string, changed: string)

  const Nothing: Observed := Observed(false, "", "")

  type Observations = map<string, Observed>

  datatype ProviderPlan = ProviderPlan(action: Action, ownership: string, changed: string)

  predicate ChangeActionCompletionPending(n: Node, prior: Option<Resource>) {
    n.changeAction != "" && prior.Some? && prior.value.changed != n.digest
  }

  function CompleteChangeActionOnAdopt(n: Node, prior: Option<Resource>, changed: string): string {
    if n.changeAction == "" || prior.Some? then changed else n.digest
  }

  /** What to do about a node, given what is recorded and what is observed. */
  function Compare(n: Node, prior: Option<Resource>, o: Observed): ProviderPlan {
    if n.absent then
      if o.present then ProviderPlan(Delete, "managed", o.changed) else ProviderPlan(NoOp, "managed", o.changed)
    else if !o.present then ProviderPlan(Create, "managed", o.changed)
    else if o.digest == n.digest then
      if prior.None? then ProviderPlan(Adopt, "adopted", CompleteChangeActionOnAdopt(n, prior, o.changed))
      else if ChangeActionCompletionPending(n, prior) then ProviderPlan(Update, prior.value.ownership, o.changed)
      else ProviderPlan(NoOp, prior.value.ownership, o.changed)
    else if prior.Some? && prior.value.digest != "" && o.digest != prior.value.digest then
      ProviderPlan(Update, prior.value.ownership, o.changed)
    else ProviderPlan(Update, "managed", o.changed)
  }

  /** Of what is stored or recorded of a resource nothing has to be changed. */
  predicate AsDesired(n: Node, prior: Option<Resource>, o: Observed) {
    if n.absent then !o.present
    else o.present && o.digest == n.digest && prior.Some? && (n.changeAction == "" || prior.value.changed == n.digest)
  }

  /** What the memory provider sees: what it has stored, or else what is recorded. */
  function Seen(observed: Observations, a: string, prior: Option<Resource>): Observed {
    if a in observed then observed[a]
    else if prior.Some? then Observed(true, prior.value.digest, prior.value.changed)
    else Nothing
  }

  type States = map<string, HostState>

  function PriorResource(st: HostState, a: string): Option<Resource> { if a in st then Some(st[a]) else None }

  /** The step of a node; what does nothing is left out of the plan. */
  function NodeStep(n: Node, st: HostState, observed: Observations): Step {
    var prior := PriorResource(st, n.address);
    var p := Compare(n, prior, Seen(observed, n.address, prior));
    Step(n.address, n.host, p.action, n, prior, p.ownership, p.changed)
  }

  const NoNode: Node := Node("", "", "", [], "", false, "")

  /** A recorded resource that nothing in the configuration names any more: destroyed if it was created
      here, forgotten if it was adopted or is of a kind that stays. */
  function OrphanStep(host: string, a: string, prior: Resource, stays: Resource -> bool): Step {
    Step(a, host, if prior.ownership == "adopted" || stays(prior) then Forget else Destroy, NoNode, Some(prior), "", "")
  }

  function NodeAddresses(nodes: seq<Node>): set<string> { set n | n in nodes :: n.address }

  // ---------------------------------------------------------------- operations

  function Triggered(triggers: seq<string>, changed: set<string>): (r: seq<string>)
    ensures forall t :: t in r <==> t in triggers && t in changed
  {
    if triggers == [] then [] else
      var rest := Triggered(triggers[..|triggers| - 1], changed);
      assert triggers == triggers[..|triggers| - 1] + [triggers[|triggers| - 1]];
      if triggers[|triggers| - 1] in changed then rest + [triggers[|triggers| - 1]] else rest
  }

  function Except(deps: seq<string>, left: set<string>): (r: seq<string>)
    ensures forall d :: d in r <==> d in deps && d !in left
  {
    if deps == [] then [] else
      assert deps == [deps[0]] + deps[1..];
      (if deps[0] in left then [] else [deps[0]]) + Except(deps[1..], left)
  }

  /** The operation as run for some of its triggers: it waits for those, and for all that it waits for
      apart from triggers. */
  function OperationForTriggers(op: Operation, triggers: seq<string>): (r: Operation)
    ensures forall d :: d in r.dependsOn <==> d in triggers || (d in op.dependsOn && d !in op.triggeredBy)
    ensures r.triggeredBy == triggers && r.address == op.address && r.host == op.host && r.completion == op.completion
  {
    var deps := Firsts(triggers + Except(op.dependsOn, Elems(op.triggeredBy)), {});
    assert forall d :: d in deps <==> d in Elems(deps);
    assert forall d :: d in Elems(triggers + Except(op.dependsOn, Elems(op.triggeredBy))) <==> d in triggers + Except(op.dependsOn, Elems(op.triggeredBy));
    op.(dependsOn := deps, triggeredBy := triggers)
  }

  /** The address of the run of an operation for a single trigger. */
  type EachAddress = (string, string) -> string

  function EachSteps(op: Operation, triggers: seq<string>, eachAddress: EachAddress): (r: seq<OperationStep>)
    ensures |r| == |triggers|
    ensures forall i :: 0 <= i < |r| ==>
      r[i] == OperationStep(eachAddress(op.address, triggers[i]), OperationForTriggers(op, [triggers[i]]))
  {
    seq(|triggers|, i requires 0 <= i < |triggers| =>
      OperationStep(eachAddress(op.address, triggers[i]), OperationForTriggers(op, [triggers[i]])))
  }

  /** The runs of one operation. */
  function RunsOf(op: Operation, changed: set<string>, eachAddress: EachAddress): seq<OperationStep> {
    var triggered := Triggered(op.triggeredBy, changed);
    if triggered == [] then []
    else if op.each then EachSteps(op, triggered, eachAddress)
    else [OperationStep(op.address, OperationForTriggers(op, triggered))]
  }

  function AllRuns(operations: seq<Operation>, changed: set<string>, eachAddress: EachAddress): seq<OperationStep> {
    if operations == [] then [] else
      AllRuns(operations[..|operations| - 1], changed, eachAddress) + RunsOf(operations[|operations| - 1], changed, eachAddress)
  }

  function OperationAddresses(operations: seq<Operation>): set<string> { set op | op in operations :: op.address }

  /** Dependencies on operations that do not run are taken out. */
  function OnlyActive(step: OperationStep, inactive: set<string>): (r: OperationStep)
    ensures r == step.(operation := step.operation.(dependsOn := r.operation.dependsOn))
    ensures forall d :: d in r.operation.dependsOn <==> d in step.operation.dependsOn && d !in inactive
  {
    step.(operation := step.operation.(dependsOn := Except(step.operation.dependsOn, inactive)))
  }

  function Inactive(operations: seq<Operation>, runs: seq<OperationStep>): set<string> {
    OperationAddresses(operations) - set o | o in runs :: o.operation.address
  }

  /** `operationSteps`, before sorting */
  function OperationStepsOf(operations: seq<Operation>, changed: set<string>, eachAddress: EachAddress): (r: seq<OperationStep>)
    ensures var runs := AllRuns(operations, changed, eachAddress);
      |r| == |runs| && forall i :: 0 <= i < |r| ==> r[i] == OnlyActive(runs[i], Inactive(operations, runs))
  {
    var runs := AllRuns(operations, changed, eachAddress);
    seq(|runs|, i requires 0 <= i < |runs| => OnlyActive(runs[i], Inactive(operations, runs)))
  }

  /** Every run is of an operation that something triggered. */
  lemma {:induction false} RunComesFrom(operations: seq<Operation>, changed: set<string>, eachAddress: EachAddress, o: OperationStep)
    returns (op: Operation)
    requires o in AllRuns(operations, changed, eachAddress)
    ensures op in operations && o in RunsOf(op, changed, eachAddress)
  {
    var front, last := operations[..|operations| - 1], operations[|operations| - 1];
    if o in AllRuns(front, changed, eachAddress) {
      op := RunComesFrom(front, changed, eachAddress, o);
      assert op in operations;
    } else {
      op := last;
    }
  }

  lemma {:induction false} RunsAreIncluded(operations: seq<Operation>, changed: set<string>, eachAddress: EachAddress, op: Operation)
    requires op in operations
    ensures forall o :: o in RunsOf(op, changed, eachAddress) ==> o in AllRuns(operations, changed, eachAddress)
  {
    var front, last := operations[..|operations| - 1], operations[|operations| - 1];
    assert operations == front + [last];
    if op in front { RunsAreIncluded(front, changed, eachAddress, op); }
  }

  lemma {:induction false} NothingTriggersNothing(operations: seq<Operation>, eachAddress: EachAddress)
    ensures AllRuns(operations, {}, eachAddress) == []
  {
    if operations != [] {
      NothingTriggersNothing(operations[..|operations| - 1], eachAddress);
      NoneTriggered(operations[|operations| - 1].triggeredBy);
    }
  }

  lemma {:induction false} NoneTriggered(triggers: seq<string>)
    ensures Triggered(triggers, {}) == []
  {
    if triggers != [] { NoneTriggered(triggers[..|triggers| - 1]); }
  }

  /** A planned run is of an operation that something triggered. */
  lemma PlannedRun(operations: seq<Operation>, changed: set<string>, eachAddress: EachAddress, o: OperationStep)
    returns (op: Operation, trigger: string)
    requires o in OperationStepsOf(operations, changed, eachAddress)
    ensures op in operations && trigger in op.triggeredBy && trigger in changed
    ensures o.operation.address == op.address && o.operation.completion == op.completion && o.operation.host == op.host
  {
    var runs := AllRuns(operations, changed, eachAddress);
    var i :| 0 <= i < |runs| && OperationStepsOf(operations, changed, eachAddress)[i] == o;
    op := RunComesFrom(operations, changed, eachAddress, runs[i]);
    RunIsOf(op, changed, eachAddress, runs[i]);
    trigger := Triggered(op.triggeredBy, changed)[0];
    assert trigger in Triggered(op.triggeredBy, changed);
  }

  lemma RunIsOf(op: Operation, changed: set<string>, eachAddress: EachAddress, r: OperationStep)
    requires r in RunsOf(op, changed, eachAddress)
    ensures Triggered(op.triggeredBy, changed) != []
    ensures r.operation.address == op.address && r.operation.completion == op.completion && r.operation.host == op.host
  {
  }

  /** A triggered operation has a planned run. */
  lemma TriggeredRuns(operations: seq<Operation>, changed: set<string>, eachAddress: EachAddress, op: Operation, trigger: string)
    returns (o: OperationStep)
    requires op in operations && trigger in op.triggeredBy && trigger in changed
    ensures o in OperationStepsOf(operations, changed, eachAddress)
    ensures o.operation.address == op.address && o.operation.completion == op.completion && o.operation.host == op.host
  {
    var runs := AllRuns(operations, changed, eachAddress);
    var triggered := Triggered(op.triggeredBy, changed);
    assert trigger in triggered;
    var r := RunsOf(op, changed, eachAddress)[0];
    RunsAreIncluded(operations, changed, eachAddress, op);
    assert r in RunsOf(op, changed, eachAddress);
    RunIsOf(op, changed, eachAddress, r);
    var i :| 0 <= i < |runs| && runs[i] == r;
    o := OperationStepsOf(operations, changed, eachAddress)[i];
  }

  method OperationSteps(operations: seq<Operation>, changed: set<string>, eachAddress: EachAddress)
    returns (out: seq<OperationStep>)
    ensures out == OperationStepsOf(operations, changed, eachAddress)
  {
    var runs: seq<OperationStep> := [];
    for i := 0 to |operations|
      invariant runs == AllRuns(operations[..i], changed, eachAddress)
    {
      assert operations[..i + 1][..i] == operations[..i];
      var more := OperationRuns(operations[i], changed, eachAddress);
      runs := runs + more;
    }
    assert operations[..|operations|] == operations;
    out := FilterInactiveOperationDependencies(runs, operations);
    assert out == OperationStepsOf(operations, changed, eachAddress);
  }

  method OperationRuns(op: Operation, changed: set<string>, eachAddress: EachAddress) returns (runs: seq<OperationStep>)
    ensures runs == RunsOf(op, changed, eachAddress)
  {
    var triggered: seq<string> := [];
    for j := 0 to |op.triggeredBy|
      invariant triggered == Triggered(op.triggeredBy[..j], changed)
    {
      assert op.triggeredBy[..j + 1][..j] == op.triggeredBy[..j];
      if op.triggeredBy[j] in changed {
        triggered := triggered + [op.triggeredBy[j]];
      }
    }
    assert op.triggeredBy[..|op.triggeredBy|] == op.triggeredBy;
    if |triggered| == 0 {
      return [];
    }
    if op.each {
      return EachSteps(op, triggered, eachAddress);
    }
    runs := [OperationStep(op.address, OperationForTriggers(op, triggered))];
  }

  method FilterInactiveOperationDependencies(runs: seq<OperationStep>, operations: seq<Operation>) returns (out: seq<OperationStep>)
    ensures |out| == |runs| && forall i :: 0 <= i < |out| ==> out[i] == OnlyActive(runs[i], Inactive(operations, runs))
  {
    var inactive := Inactive(operations, runs);
    out := [];
    for i := 0 to |runs|
      invariant |out| == i && forall k :: 0 <= k < i ==> out[k] == OnlyActive(runs[k], inactive)
    {
      out := out + [OnlyActive(runs[i], inactive)];
    }
  }

  // ---------------------------------------------------------------- plans

  /** What planning depends on beside the graph: the recorded states of the hosts, and what is observed. */
  datatype Inputs = Inputs(states: States, observed: Observations)

  /** Whether an orphan is of a kind that is forgotten rather than destroyed. */
  type Stays = Resource -> bool

  ghost predicate FromNode(g: ResourceGraph, inputs: Inputs, s: Step) {
    exists n :: n in g.nodes && n.host in inputs.states && s == NodeStep(n, inputs.states[n.host], inputs.observed) && !s.action.NoOp?
  }

  ghost predicate FromOrphan(g: ResourceGraph, inputs: Inputs, stays: Stays, s: Step) {
    && s.host in inputs.states && s.address in inputs.states[s.host] && s.address !in NodeAddresses(g.nodes)
    && s == OrphanStep(s.host, s.address, inputs.states[s.host][s.address], stays)
  }

  /** What is to be done about a recorded resource that no node names: one that was adopted, or is of a kind
      that stays, is forgotten; any other is destroyed. */
  ghost predicate OrphanRule(inputs: Inputs, stays: Stays, s: Step) {
    && s.host in inputs.states && s.address in inputs.states[s.host]
    && var prior := inputs.states[s.host][s.address];
       && s.prior == Some(prior)
       && (s.action.Forget? <==> prior.ownership == "adopted" || stays(prior))
       && (s.action.Destroy? <==> prior.ownership != "adopted" && !stays(prior))
  }

  ghost function ChangedAddresses(steps: seq<Step>): set<string> { set s | s in steps && TriggersOperation(s.action) :: s.address }

  /** The plan: a step for every node to act on and for every orphan, and the runs that the changed
      nodes trigger. */
  ghost predicate IsPlan(g: ResourceGraph, inputs: Inputs, stays: Stays, eachAddress: EachAddress, plan: Plan) {
    && (forall s :: s in plan.steps <==> FromNode(g, inputs, s) || FromOrphan(g, inputs, stays, s))
    && plan.operations == OperationStepsOf(g.operations, ChangedAddresses(plan.steps), eachAddress)
  }

  /** The steps of a plan under addresses that no node has follow the rule for orphans, and every recorded
      resource without a node has one. */
  lemma OrphansFollowRule(g: ResourceGraph, inputs: Inputs, stays: Stays, eachAddress: EachAddress, plan: Plan)
    requires IsPlan(g, inputs, stays, eachAddress, plan)
    ensures forall s :: s in plan.steps && s.address !in NodeAddresses(g.nodes) ==> OrphanRule(inputs, stays, s)
    ensures forall s :: s in plan.steps && s.address in NodeAddresses(g.nodes) ==> !s.action.Destroy? && !s.action.Forget?
    ensures forall h, a :: h in inputs.states && a in inputs.states[h] && a !in NodeAddresses(g.nodes) ==>
      exists s :: s in plan.steps && s.host == h && s.address == a
  {
    forall h, a | h in inputs.states && a in inputs.states[h] && a !in NodeAddresses(g.nodes)
      ensures exists s :: s in plan.steps && s.host == h && s.address == a
    {
      var s := OrphanStep(h, a, inputs.states[h][a], stays);
      assert FromOrphan(g, inputs, stays, s);
    }
  }

  /** Steps of the nodes, in their order, and the addresses that changed. */
  method NodeSteps(g: ResourceGraph, inputs: Inputs) returns (r: Option<seq<Step>>, changed: set<string>)
    ensures r.Some? <==> forall n :: n in g.nodes ==> n.host in inputs.states
    ensures r.Some? ==> forall s :: s in r.value <==> FromNode(g, inputs, s)
    ensures r.Some? ==> changed == ChangedAddresses(r.value)
  {
    var steps: seq<Step> := [];
    changed := {};
    for i := 0 to |g.nodes|
      invariant forall n :: n in g.nodes[..i] ==> n.host in inputs.states
      invariant forall s :: s in steps <==> FromNode(g.(nodes := g.nodes[..i]), inputs, s)
      invariant changed == ChangedAddresses(steps)
    {
      var n := g.nodes[i];
      assert g.nodes[..i + 1] == g.nodes[..i] + [n] && n in g.nodes;
      if n.host !in inputs.states {
        return None, changed;
      }
      var step := NodeStep(n, inputs.states[n.host], inputs.observed);
      forall s ensures FromNode(g.(nodes := g.nodes[..i + 1]), inputs, s)
                  <==> FromNode(g.(nodes := g.nodes[..i]), inputs, s) || (s == step && !step.action.NoOp?) {
        FromNodeNext(g, inputs, i, s);
      }
      if step.action.NoOp? {
        continue;
      }
      assert ChangedAddresses(steps + [step])
          == ChangedAddresses(steps) + if TriggersOperation(step.action) then {step.address} else {};
      steps := steps + [step];
      if TriggersOperation(step.action) {
        changed := changed + {step.address};
      }
    }
    assert g.nodes[..|g.nodes|] == g.nodes && g.(nodes := g.nodes) == g;
    r := Some(steps);
  }

  lemma FromNodeNext(g: ResourceGraph, inputs: Inputs, i: nat, s: Step)
    requires i < |g.nodes| && g.nodes[i].host in inputs.states
    ensures var step := NodeStep(g.nodes[i], inputs.states[g.nodes[i].host], inputs.observed);
      FromNode(g.(nodes := g.nodes[..i + 1]), inputs, s)
      <==> FromNode(g.(nodes := g.nodes[..i]), inputs, s) || (s == step && !step.action.NoOp?)
  {
    var next, before := g.nodes[..i + 1], g.nodes[..i];
    assert next == before + [g.nodes[i]];
    assert forall n :: n in next <==> n in before || n == g.nodes[i];
    if FromNode(g.(nodes := before), inputs, s) {
      var n :| n in before && n.host in inputs.states && s == NodeStep(n, inputs.states[n.host], inputs.observed) && !s.action.NoOp?;
      assert n in next;
    }
    assert g.nodes[i] in next;
  }

  /** `orphanSteps`: over hosts and their recorded resources, in any order. */
  method OrphansOf(g: ResourceGraph, inputs: Inputs, stays: Stays) returns (out: seq<Step>)
    ensures forall s :: s in out <==> FromOrphan(g, inputs, stays, s)
    ensures forall s :: s in out ==> s.address !in NodeAddresses(g.nodes) && OrphanRule(inputs, stays, s)
  {
    out := [];
    var desired := NodeAddresses(g.nodes);
    var hosts := inputs.states.Keys;
    while hosts != {}
      invariant hosts <= inputs.states.Keys
      invariant forall s :: s in out <==> FromOrphan(g, inputs, stays, s) && s.host !in hosts
      decreases hosts
    {
      var host :| host in hosts;
      var left := inputs.states[host].Keys;
      while left != {}
        invariant left <= inputs.states[host].Keys
        invariant forall s :: s in out <==>
          FromOrphan(g, inputs, stays, s) && (s.host !in hosts || (s.host == host && s.address !in left))
        decreases left
      {
        var address :| address in left;
        left := left - {address};
        if address !in desired {
          out := out + [OrphanStep(host, address, inputs.states[host][address], stays)];
        }
      }
      hosts := hosts - {host};
    }
  }

  /** The part of `Plan` after the states have been read and the resources observed. */
  method MakePlan(g: ResourceGraph, inputs: Inputs, stays: Stays, eachAddress: EachAddress) returns (r: Option<Plan>)
    ensures r.Some? <==> forall n :: n in g.nodes ==> n.host in inputs.states
    ensures r.Some? ==> IsPlan(g, inputs, stays, eachAddress, r.value)
    ensures r.Some? ==> forall s :: s in r.value.steps && s.address !in NodeAddresses(g.nodes) ==> OrphanRule(inputs, stays, s)
  {
    var steps, changed := NodeSteps(g, inputs);
    if steps.None? {
      return None;
    }
    var orphans := OrphansOf(g, inputs, stays);
    var operations := OperationSteps(g.operations, changed, eachAddress);
    assert ChangedAddresses(steps.value + orphans) == ChangedAddresses(steps.value) by {
      forall s | s in orphans ensures !TriggersOperation(s.action) { assert FromOrphan(g, inputs, stays, s); }
    }
    r := Some(Plan(steps.value + orphans, operations));
  }
}
