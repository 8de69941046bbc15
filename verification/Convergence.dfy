/** After an apply without an error there is nothing left to do: the next plan is empty. */
module Convergence {
  import opened Wrappers
  import opened ResourceGraphs
  import opened Plans
  import opened RecordedState
  import opened StepEffects
  import opened Planning
  import opened Memory

  // ---------------------------------------------------------------- executing an item

  /** The host in whose state an item is recorded. */
  function RecordedAt(item: ExecutionItem): string {
    match item
    case ResourceItem(_, _, _, _, step) => step.host
    case OperationItem(_, _, _, o) => o.operation.host
  }

  predicate Runs(action: Action) { action.Create? || action.Update? || action.Delete? || action.Destroy? }

  /** Whether the item can be executed without an error, when the provider does not fail. */
  predicate Succeeds(item: ExecutionItem, env: Inputs) {
    && (item.ResourceItem? || item.operation.operation.completion.Some? ==> RecordedAt(item) in env.states)
    && (item.OperationItem? && item.operation.operation.completion.Some? ==>
         item.operation.operation.completion.value in env.states[RecordedAt(item)])
  }

  function StateAt(env: Inputs, host: string): HostState { if host in env.states then env.states[host] else map[] }

  /** What is recorded and what can be observed after the item has been executed without an error. */
  function Executed(item: ExecutionItem, env: Inputs): Inputs
    requires Succeeds(item, env)
  {
    var e, host := ItemEffect(item, ""), RecordedAt(item);
    var observed := if item.ResourceItem? && Runs(item.step.action) then env.observed[item.step.address := Stored(item.step)] else env.observed;
    if Edit(e, StateAt(env, host)).None? then Inputs(env.states, observed)
    else Inputs(env.states[host := After(e, StateAt(env, host))], observed)
  }

  /** Executing one item after the other; none if one of them fails. */
  function ExecutedAll(items: seq<ExecutionItem>, env: Inputs): Option<Inputs> {
    if items == [] then Some(env) else
      var before, last := ExecutedAll(items[..|items| - 1], env), items[|items| - 1];
      if before.Some? && Succeeds(last, before.value) then Some(Executed(last, before.value)) else None
  }

  /** `executeItem` over the memory backend and provider. The states that are kept are those of the backend. */
  method ExecuteItem(backend: MemoryBackend, provider: MemoryProvider, item: ExecutionItem) returns (ok: bool)
    modifies backend`states, provider`observed, provider`applied, provider`destroyed, provider`operations
    ensures var env := Inputs(old(backend.states), old(provider.observed));
      ok ==> Succeeds(item, env) && Inputs(backend.states, provider.observed) == Executed(item, env)
    ensures !ok ==> backend.states == old(backend.states)
  {
    match item {
      case ResourceItem(_, _, _, _, step) =>
        if step.host !in backend.states {
          return false;
        }
        if step.action.Create? || step.action.Update? || step.action.Delete? {
          var result := provider.Apply(step);
          if result.None? {
            return false;
          }
        } else if step.action.Destroy? {
          var done := provider.Destroy(step);
          if !done {
            return false;
          }
        }
        var st := backend.Read(step.host);
        var edited := EditForStep(st, step, "");
        if edited.Some? {
          var committed := backend.Write(step.host, edited.value);
        }
      case OperationItem(_, _, _, o) =>
        provider.RunOperation(o.operation);
        if o.operation.completion.None? {
          return true;
        }
        if o.operation.host !in backend.states {
          return false;
        }
        var st := backend.Read(o.operation.host);
        var a := o.operation.completion.value;
        if a !in st {
          return false;
        }
        var committed := backend.Write(o.operation.host, st[a := st[a].(changed := st[a].digest)]);
    }
    ok := true;
  }

  // ---------------------------------------------------------------- one resource

  /** What is recorded of a resource, its dependencies aside, and what is observed of it. */
  datatype Spot = Spot(recorded: Option<Resource>, seen: Option<Observed>)

  function SpotOf(env: Inputs, host: string, a: string): Spot {
    Spot(if a in StateAt(env, host) then Some(StateAt(env, host)[a].(dependsOn := [])) else None,
         if a in env.observed then Some(env.observed[a]) else None)
  }

  /** The item is about the resource, or records that its change action has completed. */
  predicate Touches(item: ExecutionItem, a: string) {
    match item
    case ResourceItem(_, _, _, _, step) => step.address == a
    case OperationItem(_, _, _, o) => o.operation.completion == Some(a)
  }

  lemma Untouched(item: ExecutionItem, env: Inputs, host: string, a: string)
    requires Succeeds(item, env) && !Touches(item, a)
    ensures SpotOf(Executed(item, env), host, a) == SpotOf(env, host, a)
  {
  }

  /** What the node asks for, seen from its spot. */
  function ActionAt(n: Node, spot: Spot): Action {
    var seen := if spot.seen.Some? then spot.seen.value
                else if spot.recorded.Some? then Observed(true, spot.recorded.value.digest, spot.recorded.value.changed) else Nothing;
    Compare(n, spot.recorded, seen).action
  }

  lemma ActionFromSpot(n: Node, env: Inputs)
    requires n.host in env.states
    ensures NodeStep(n, env.states[n.host], env.observed).action == ActionAt(n, SpotOf(env, n.host, n.address))
  {
  }

  /** The spot once the step of its node has been executed, and its change action has completed or not. */
  ghost predicate Done(n: Node, action: Action, spot: Spot, completed: bool) {
    match action
    case Create | Update =>
      && spot.recorded.Some? && spot.recorded.value.digest == n.digest && spot.seen == Some(Observed(true, n.digest, ""))
      && (completed ==> spot.recorded.value.changed == n.digest)
    case Delete => spot.recorded.None? && spot.seen == Some(Nothing)
    case Adopt =>
      && spot.recorded.Some? && spot.recorded.value.digest == n.digest
      && spot.seen.Some? && spot.seen.value.present && spot.seen.value.digest == n.digest
      && (n.changeAction != "" ==> spot.recorded.value.changed == n.digest)
    case _ => false
  }

  /** What comes after the step leaves the spot there; a completion marks it as completed. */
  lemma DoneStays(n: Node, action: Action, item: ExecutionItem, env: Inputs, completed: bool)
    requires Succeeds(item, env) && Done(n, action, SpotOf(env, n.host, n.address), completed)
    requires item.ResourceItem? ==> !Touches(item, n.address)
    requires Touches(item, n.address) ==> RecordedAt(item) == n.host
    ensures Done(n, action, SpotOf(Executed(item, env), n.host, n.address), completed || Touches(item, n.address))
  {
    if !Touches(item, n.address) { Untouched(item, env, n.host, n.address); }
  }

  /** Then the node asks for nothing more, provided that its change action has completed, if it has one. */
  lemma DoneIsEnough(n: Node, action: Action, spot: Spot)
    requires Done(n, action, spot, (action.Create? || action.Update?) && n.changeAction != "")
    requires n.absent ==> action.Delete?
    requires !n.absent ==> !action.Delete?
    ensures ActionAt(n, spot) == NoOp
  {
  }

  // ---------------------------------------------------------------- all items

  lemma {:induction false} SameHosts(items: seq<ExecutionItem>, env: Inputs)
    requires ExecutedAll(items, env).Some?
    ensures ExecutedAll(items, env).value.states.Keys == env.states.Keys
  {
    if items != [] {
      var before := ExecutedAll(items[..|items| - 1], env);
      SameHosts(items[..|items| - 1], env);
      assert Executed(items[|items| - 1], before.value).states.Keys == before.value.states.Keys;
    }
  }

  /** The prefix of one more item, executed. */
  lemma OneMore(items: seq<ExecutionItem>, env: Inputs, m: nat)
    requires m < |items| && ExecutedAll(items[..m + 1], env).Some?
    ensures ExecutedAll(items[..m], env).Some? && Succeeds(items[m], ExecutedAll(items[..m], env).value)
    ensures ExecutedAll(items[..m + 1], env).value == Executed(items[m], ExecutedAll(items[..m], env).value)
  {
    assert items[..m + 1][..m] == items[..m];
  }

  lemma {:induction false} NeverTouched(items: seq<ExecutionItem>, env: Inputs, host: string, a: string, m: nat)
    requires m <= |items| && ExecutedAll(items[..m], env).Some? && forall j :: 0 <= j < m ==> !Touches(items[j], a)
    ensures SpotOf(ExecutedAll(items[..m], env).value, host, a) == SpotOf(env, host, a)
  {
    if m > 0 {
      OneMore(items, env, m - 1);
      NeverTouched(items, env, host, a, m - 1);
      Untouched(items[m - 1], ExecutedAll(items[..m - 1], env).value, host, a);
    }
  }

  /** Item `k` is about node `n`; only completions for it follow, and none precedes. */
  ghost predicate StepAt(n: Node, items: seq<ExecutionItem>, k: nat) {
    && k < |items| && items[k].ResourceItem? && items[k].step.address == n.address && items[k].step.host == n.host
    && forall j :: 0 <= j < |items| && j != k && Touches(items[j], n.address) ==>
         k < j && items[j].OperationItem? && RecordedAt(items[j]) == n.host
  }

  predicate CompletedBy(items: seq<ExecutionItem>, a: string, k: nat, m: nat)
    requires m <= |items|
  {
    exists j :: k < j < m && Touches(items[j], a)
  }

  lemma CompletedNext(items: seq<ExecutionItem>, a: string, k: nat, m: nat)
    requires k < m < |items|
    ensures CompletedBy(items, a, k, m + 1) <==> CompletedBy(items, a, k, m) || Touches(items[m], a)
  {
  }

  lemma {:induction false} SpotAlong(n: Node, items: seq<ExecutionItem>, env: Inputs, k: nat, m: nat)
    requires StepAt(n, items, k) && k < m <= |items| && ExecutedAll(items[..m], env).Some?
    requires n.host in env.states && n.kind != "component_script_output"
    requires items[k].step == NodeStep(n, env.states[n.host], env.observed) && !items[k].step.action.NoOp?
    ensures Done(n, items[k].step.action, SpotOf(ExecutedAll(items[..m], env).value, n.host, n.address),
                 CompletedBy(items, n.address, k, m))
  {
    OneMore(items, env, m - 1);
    var before := ExecutedAll(items[..m - 1], env).value;
    if m == k + 1 {
      NeverTouched(items, env, n.host, n.address, k);
      SameHosts(items[..k], env);
      StepDoesLater(n, items[k], env, before);
      assert !CompletedBy(items, n.address, k, m);
    } else {
      SpotAlong(n, items, env, k, m - 1);
      DoneStays(n, items[k].step.action, items[m - 1], before, CompletedBy(items, n.address, k, m - 1));
      CompletedNext(items, n.address, k, m - 1);
    }
  }

  /** The step was planned in `env`, and its spot has not changed since. */
  lemma StepDoesLater(n: Node, item: ExecutionItem, env: Inputs, now: Inputs)
    requires item.ResourceItem? && n.host in env.states && n.host in now.states && n.kind != "component_script_output"
    requires item.step == NodeStep(n, env.states[n.host], env.observed) && !item.step.action.NoOp?
    requires SpotOf(now, n.host, n.address) == SpotOf(env, n.host, n.address) && Succeeds(item, now)
    ensures Done(n, item.step.action, SpotOf(Executed(item, now), n.host, n.address), false)
  {
  }

  // ---------------------------------------------------------------- orphans

  predicate Records(item: ExecutionItem, a: string) {
    ItemEffect(item, "").Record? && ItemEffect(item, "").address == a
  }

  predicate Drops(item: ExecutionItem, host: string, a: string) { ItemEffect(item, "") == Drop(a) && RecordedAt(item) == host }

  lemma OneOrphanGoes(item: ExecutionItem, env: Inputs, host: string, a: string)
    requires Succeeds(item, env) && !Records(item, a) && a in StateAt(Executed(item, env), host)
    ensures a in StateAt(env, host) && !Drops(item, host, a)
  {
    var e, h := ItemEffect(item, ""), RecordedAt(item);
    if h == host && Edit(e, StateAt(env, h)).Some? {
      assert StateAt(Executed(item, env), host) == After(e, StateAt(env, host));
    } else {
      assert StateAt(Executed(item, env), host) == StateAt(env, host);
    }
  }

  /** What nobody records is not recorded in the end unless it was at the start and nobody dropped it. */
  lemma {:induction false} OrphanGoes(items: seq<ExecutionItem>, env: Inputs, host: string, a: string)
    requires ExecutedAll(items, env).Some? && forall item :: item in items ==> !Records(item, a)
    requires a in StateAt(ExecutedAll(items, env).value, host)
    ensures a in StateAt(env, host) && forall item :: item in items ==> !Drops(item, host, a)
  {
    if items != [] {
      var front, last := items[..|items| - 1], items[|items| - 1];
      assert items == front + [last];
      var before := ExecutedAll(front, env).value;
      OneOrphanGoes(last, before, host, a);
      OrphanGoes(front, env, host, a);
    }
  }

  // ---------------------------------------------------------------- convergence

  /** Nodes have addresses of their own; a completion is for a node of the same host, triggered by that
      node alone; every node with a change action has one; and no node is the output of a script. */
  ghost predicate Sound(g: ResourceGraph) {
    && (forall n, m :: n in g.nodes && m in g.nodes && n.address == m.address ==> n == m)
    && (forall n :: n in g.nodes ==> n.kind != "component_script_output")
    && (forall op {:trigger CompletionOk(g, op)} :: op in g.operations && op.completion.Some? ==> CompletionOk(g, op))
    && (forall n {:trigger HasCompletion(g, n)} :: n in g.nodes && n.changeAction != "" ==> HasCompletion(g, n))
  }

  ghost predicate CompletionOk(g: ResourceGraph, op: Operation)
    requires op.completion.Some?
  {
    op.triggeredBy == [op.completion.value] && exists n :: n in g.nodes && n.address == op.completion.value && n.host == op.host
  }

  ghost predicate HasCompletion(g: ResourceGraph, n: Node) {
    !n.absent && exists op :: op in g.operations && op.completion == Some(n.address)
  }

  /** The items are those of the plan, each resource once. */
  ghost predicate ListsAll(plan: Plan, items: seq<ExecutionItem>) {
    && (forall i :: 0 <= i < |items| ==> if items[i].ResourceItem? then items[i].step in plan.steps else items[i].operation in plan.operations)
    && (forall s :: s in plan.steps ==> exists i :: 0 <= i < |items| && items[i].ResourceItem? && items[i].step == s)
    && (forall o :: o in plan.operations ==> exists i :: 0 <= i < |items| && items[i].OperationItem? && items[i].operation == o)
    && (forall i, j :: 0 <= i < j < |items| && items[i].ResourceItem? && items[j].ResourceItem? ==> items[i].step.address != items[j].step.address)
  }

  /** All are executed, and a completion comes after its resource. */
  ghost predicate RunsAll(plan: Plan, items: seq<ExecutionItem>) {
    && ListsAll(plan, items)
    && (forall i, j :: 0 <= i < |items| && 0 <= j < |items| && Completes(items, i, j) ==> i < j)
  }

  /** Item `j` records that the change action of the resource of item `i` has completed. */
  predicate Completes(items: seq<ExecutionItem>, i: nat, j: nat)
    requires i < |items| && j < |items|
  {
    items[i].ResourceItem? && items[j].OperationItem? && Touches(items[j], items[i].step.address)
  }

  /** Whoever records that a change action has completed was triggered by a change of its resource. */
  lemma CompletionWasTriggered(g: ResourceGraph, inputs: Inputs, stays: Stays, eachAddress: EachAddress, plan: Plan, o: OperationStep)
    returns (n: Node)
    requires Sound(g) && IsPlan(g, inputs, stays, eachAddress, plan) && o in plan.operations && o.operation.completion.Some?
    ensures n in g.nodes && n.address == o.operation.completion.value && n.host == o.operation.host
    ensures n.address in ChangedAddresses(plan.steps)
  {
    var op, trigger := PlannedRun(g.operations, ChangedAddresses(plan.steps), eachAddress, o);
    assert CompletionOk(g, op);
    n :| n in g.nodes && n.address == op.completion.value && n.host == op.host;
  }

  /** A change of a node with a change action triggers a run that will record its completion. */
  lemma ChangeTriggersCompletion(g: ResourceGraph, inputs: Inputs, stays: Stays, eachAddress: EachAddress, plan: Plan, n: Node)
    returns (o: OperationStep)
    requires Sound(g) && IsPlan(g, inputs, stays, eachAddress, plan)
    requires n in g.nodes && n.changeAction != "" && n.address in ChangedAddresses(plan.steps)
    ensures o in plan.operations && o.operation.completion == Some(n.address)
  {
    assert HasCompletion(g, n);
    var op :| op in g.operations && op.completion == Some(n.address);
    assert CompletionOk(g, op);
    assert n.address in op.triggeredBy;
    o := TriggeredRuns(g.operations, ChangedAddresses(plan.steps), eachAddress, op, n.address);
  }

  /** All of an apply that ended without an error. */
  ghost predicate Applied(g: ResourceGraph, env: Inputs, stays: Stays, eachAddress: EachAddress, plan: Plan, items: seq<ExecutionItem>) {
    Sound(g) && IsPlan(g, env, stays, eachAddress, plan) && RunsAll(plan, items) && ExecutedAll(items, env).Some?
  }

  /** No item touches a node that has no step. */
  lemma NoStepNoTouch(g: ResourceGraph, env: Inputs, stays: Stays, eachAddress: EachAddress, plan: Plan, items: seq<ExecutionItem>, n: Node, j: nat)
    requires Applied(g, env, stays, eachAddress, plan, items) && n in g.nodes && j < |items| && Touches(items[j], n.address)
    ensures n.host in env.states && exists s :: s in plan.steps && s == NodeStep(n, env.states[n.host], env.observed) && !s.action.NoOp?
  {
    if items[j].ResourceItem? {
      NodeOfStep(g, env, stays, eachAddress, plan, items[j].step, n);
    } else {
      var m := CompletionWasTriggered(g, env, stays, eachAddress, plan, items[j].operation);
      assert m == n;
      var s :| s in plan.steps && TriggersOperation(s.action) && s.address == n.address;
      NodeOfStep(g, env, stays, eachAddress, plan, s, n);
    }
  }

  /** A step under the address of a node is the step of that node. */
  lemma NodeOfStep(g: ResourceGraph, env: Inputs, stays: Stays, eachAddress: EachAddress, plan: Plan, s: Step, n: Node)
    requires Sound(g) && IsPlan(g, env, stays, eachAddress, plan) && s in plan.steps && n in g.nodes && s.address == n.address
    ensures n.host in env.states && s == NodeStep(n, env.states[n.host], env.observed) && !s.action.NoOp?
  {
    assert n.address in NodeAddresses(g.nodes);
    assert FromNode(g, env, s);
    var m :| m in g.nodes && m.host in env.states && s == NodeStep(m, env.states[m.host], env.observed) && !s.action.NoOp?;
    assert m == n;
  }

  /** The step of a node is executed once, and nothing but completions for it comes after. */
  lemma StepIsExecuted(g: ResourceGraph, env: Inputs, stays: Stays, eachAddress: EachAddress, plan: Plan, items: seq<ExecutionItem>, n: Node)
    returns (k: nat)
    requires Applied(g, env, stays, eachAddress, plan, items) && n in g.nodes && n.host in env.states
    requires NodeStep(n, env.states[n.host], env.observed) in plan.steps
    ensures StepAt(n, items, k) && items[k].step == NodeStep(n, env.states[n.host], env.observed)
  {
    var s := NodeStep(n, env.states[n.host], env.observed);
    k :| 0 <= k < |items| && items[k].ResourceItem? && items[k].step == s;
    forall j | 0 <= j < |items| && j != k && Touches(items[j], n.address)
      ensures k < j && items[j].OperationItem? && RecordedAt(items[j]) == n.host
    {
      if items[j].OperationItem? {
        assert Completes(items, k, j);
        var m := CompletionWasTriggered(g, env, stays, eachAddress, plan, items[j].operation);
        assert m == n;
      }
    }
  }

  /** Afterwards no node asks for anything. */
  lemma NodeIsSettled(g: ResourceGraph, env: Inputs, stays: Stays, eachAddress: EachAddress, plan: Plan, items: seq<ExecutionItem>, n: Node)
    requires Applied(g, env, stays, eachAddress, plan, items) && n in g.nodes && n.host in env.states
    ensures ActionAt(n, SpotOf(ExecutedAll(items, env).value, n.host, n.address)) == NoOp
  {
    if NodeStep(n, env.states[n.host], env.observed).action.NoOp? {
      IdleNodeStays(g, env, stays, eachAddress, plan, items, n);
    } else {
      StepSettlesNode(g, env, stays, eachAddress, plan, items, n);
    }
  }

  /** A node without a step is left as it is. */
  lemma IdleNodeStays(g: ResourceGraph, env: Inputs, stays: Stays, eachAddress: EachAddress, plan: Plan, items: seq<ExecutionItem>, n: Node)
    requires Applied(g, env, stays, eachAddress, plan, items) && n in g.nodes && n.host in env.states
    requires NodeStep(n, env.states[n.host], env.observed).action.NoOp?
    ensures ActionAt(n, SpotOf(ExecutedAll(items, env).value, n.host, n.address)) == NoOp
  {
    forall j | 0 <= j < |items| ensures !Touches(items[j], n.address) {
      if Touches(items[j], n.address) { NoStepNoTouch(g, env, stays, eachAddress, plan, items, n, j); }
    }
    assert items[..|items|] == items;
    NeverTouched(items, env, n.host, n.address, |items|);
    ActionFromSpot(n, env);
  }

  /** A node with a step is brought to where it should be. */
  lemma StepSettlesNode(g: ResourceGraph, env: Inputs, stays: Stays, eachAddress: EachAddress, plan: Plan, items: seq<ExecutionItem>, n: Node)
    requires Applied(g, env, stays, eachAddress, plan, items) && n in g.nodes && n.host in env.states
    requires !NodeStep(n, env.states[n.host], env.observed).action.NoOp?
    ensures ActionAt(n, SpotOf(ExecutedAll(items, env).value, n.host, n.address)) == NoOp
  {
    var s := NodeStep(n, env.states[n.host], env.observed);
    assert FromNode(g, env, s);
    var k := StepIsExecuted(g, env, stays, eachAddress, plan, items, n);
    assert items[..|items|] == items;
    SpotAlong(n, items, env, k, |items|);
    if (s.action.Create? || s.action.Update?) && n.changeAction != "" {
      CompletionIsExecuted(g, env, stays, eachAddress, plan, items, n, k);
    }
    DoneIsEnough(n, s.action, SpotOf(ExecutedAll(items, env).value, n.host, n.address));
  }

  lemma CompletionIsExecuted(g: ResourceGraph, env: Inputs, stays: Stays, eachAddress: EachAddress, plan: Plan, items: seq<ExecutionItem>, n: Node, k: nat)
    requires Applied(g, env, stays, eachAddress, plan, items) && n in g.nodes && n.changeAction != ""
    requires StepAt(n, items, k) && items[k].step in plan.steps && TriggersOperation(items[k].step.action)
    ensures CompletedBy(items, n.address, k, |items|)
  {
    var o := ChangeTriggersCompletion(g, env, stays, eachAddress, plan, n);
    var j :| 0 <= j < |items| && items[j].OperationItem? && items[j].operation == o;
    assert Touches(items[j], n.address) && j != k;
  }

  /** Afterwards nothing is recorded that the configuration does not name. */
  lemma OrphansAreGone(g: ResourceGraph, env: Inputs, stays: Stays, eachAddress: EachAddress, plan: Plan, items: seq<ExecutionItem>, host: string, a: string)
    requires Applied(g, env, stays, eachAddress, plan, items) && a !in NodeAddresses(g.nodes)
    ensures a !in StateAt(ExecutedAll(items, env).value, host)
  {
    if a in StateAt(ExecutedAll(items, env).value, host) {
      forall item | item in items ensures !Records(item, a) { ItemRecordsNode(g, env, stays, eachAddress, plan, items, item, a); }
      OrphanGoes(items, env, host, a);
      OrphanIsDropped(g, env, stays, eachAddress, plan, items, host, a);
    }
  }

  lemma OrphanIsDropped(g: ResourceGraph, env: Inputs, stays: Stays, eachAddress: EachAddress, plan: Plan, items: seq<ExecutionItem>, host: string, a: string)
    requires Applied(g, env, stays, eachAddress, plan, items) && a !in NodeAddresses(g.nodes) && a in StateAt(env, host)
    ensures exists item :: item in items && Drops(item, host, a)
  {
    var s := OrphanStep(host, a, env.states[host][a], stays);
    assert FromOrphan(g, env, stays, s);
    var i :| 0 <= i < |items| && items[i].ResourceItem? && items[i].step == s;
    assert items[i] in items && Drops(items[i], host, a);
  }

  lemma ItemRecordsNode(g: ResourceGraph, env: Inputs, stays: Stays, eachAddress: EachAddress, plan: Plan, items: seq<ExecutionItem>, item: ExecutionItem, a: string)
    requires Applied(g, env, stays, eachAddress, plan, items) && item in items
    ensures Records(item, a) ==> a in NodeAddresses(g.nodes)
  {
    var i :| 0 <= i < |items| && items[i] == item;
    if Records(item, a) { assert FromNode(g, env, item.step); }
  }

  /** If an apply ends without an error, the next plan of the same program is empty, whatever was
      recorded and observed before. */
  lemma AppliedMeansConverged(g: ResourceGraph, env: Inputs, stays: Stays, eachAddress: EachAddress, plan: Plan, items: seq<ExecutionItem>, next: Plan)
    requires Applied(g, env, stays, eachAddress, plan, items)
    requires IsPlan(g, ExecutedAll(items, env).value, stays, eachAddress, next)
    ensures next.steps == [] && next.operations == []
  {
    var after := ExecutedAll(items, env).value;
    SameHosts(items, env);
    if next.steps != [] {
      var s := next.steps[0];
      assert s in next.steps;
      if FromNode(g, after, s) {
        var n :| n in g.nodes && n.host in after.states && s == NodeStep(n, after.states[n.host], after.observed) && !s.action.NoOp?;
        NodeIsSettled(g, env, stays, eachAddress, plan, items, n);
        ActionFromSpot(n, after);
      } else {
        OrphansAreGone(g, env, stays, eachAddress, plan, items, s.host, s.address);
      }
    }
    assert ChangedAddresses(next.steps) == {};
    NothingTriggersNothing(g.operations, eachAddress);
  }
}
