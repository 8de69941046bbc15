/** Whose a resource is: what is found as it should be is adopted and never destroyed for want of a node,
    what is created here is. And what planning can rely on once something has been recorded. */
module Ownership {
  import opened Wrappers
  import opened ResourceGraphs
  import opened Plans
  import opened RecordedState
  import opened StepEffects
  import opened Planning

  /** What a node asks for, by what is recorded and what is observed. */
  lemma ActionsOfNode(n: Node, prior: Option<Resource>, o: Observed)
    ensures var action := Compare(n, prior, o).action;
      && (action.NoOp? <==> AsDesired(n, prior, o))
      && (action.Delete? <==> n.absent && o.present)
      && (action.Create? <==> !n.absent && !o.present)
      && (action.Adopt? <==> !n.absent && o.present && o.digest == n.digest && prior.None?)
      && !action.Destroy? && !action.Forget?
  {
  }

  /** What is there differs from what is recorded, or is as desired with its change action still to come. */
  predicate Repairs(n: Node, prior: Option<Resource>, o: Observed) {
    prior.Some? && (o.digest == n.digest || (prior.value.digest != "" && o.digest != prior.value.digest))
  }

  /** Adopting makes a resource adopted; creating it, or changing it to a new configuration, makes it ours;
      repairing it leaves it whose it was. */
  lemma OwnershipOfNode(n: Node, prior: Option<Resource>, o: Observed)
    ensures var p := Compare(n, prior, o);
      && (p.action.Adopt? ==> p.ownership == "adopted")
      && (p.action.Create? || p.action.Delete? ==> p.ownership == "managed")
      && (p.action.Update? ==> p.ownership == if Repairs(n, prior, o) then prior.value.ownership else "managed")
  {
  }

  /** No effect writes or drops the resource. */
  ghost predicate LeavesAlone(effects: seq<Effect>, a: string) {
    forall e :: e in effects && (e.Record? || e.Drop?) ==> e.address != a
  }

  /** What is recorded is the same but for its completion and for references to what was dropped. */
  predicate SameRecord(r: Resource, was: Resource) {
    && r.host == was.host && r.kind == was.kind && r.ownership == was.ownership && r.digest == was.digest
    && r.changeAction == was.changeAction && (r.changed == was.changed || r.changed == was.digest)
    && forall d :: d in r.dependsOn ==> d in was.dependsOn
  }

  lemma {:induction false} RecordStays(start: HostState, effects: seq<Effect>, a: string)
    requires a in start && LeavesAlone(effects, a)
    ensures a in Outcome(start, effects) && SameRecord(Outcome(start, effects)[a], start[a])
  {
    if effects != [] {
      var front, last := effects[..|effects| - 1], effects[|effects| - 1];
      assert effects == front + [last] && last in effects;
      RecordStays(start, front, a);
    }
  }

  /** What the step of a node leaves recorded. */
  ghost predicate RecordsNode(n: Node, r: Resource) {
    r.host == n.host && r.kind == n.kind && r.digest == n.digest && r.changeAction == n.changeAction && r.ownership != ""
  }

  predicate Records(action: Action) { action.Create? || action.Update? || action.Adopt? }

  /** After the step of a node has been recorded, and whatever is done about other resources, planning finds
      the node's host, kind, digest and change action, its dependencies but for those that were dropped, and
      the ownership of the step. */
  lemma RecordedAsPlanned(n: Node, st: HostState, observed: Observations, changed: string, effects: seq<Effect>)
    requires n.kind != "component_script_output" && LeavesAlone(effects, n.address)
    requires Records(NodeStep(n, st, observed).action)
    ensures var step := NodeStep(n, st, observed);
      var later := Outcome(After(StepEffect(step, changed), st), effects);
      && n.address in later && RecordsNode(n, later[n.address])
      && (step.ownership != "" ==> later[n.address].ownership == step.ownership)
      && (forall d :: d in later[n.address].dependsOn ==> d in n.dependsOn)
  {
    RecordStays(After(StepEffect(NodeStep(n, st, observed), changed), st), effects, n.address);
  }

  /** The step of a plan for what is recorded at a host under an address. */
  ghost predicate HasStep(plan: Plan, h: string, a: string, action: Action) {
    exists s :: s in plan.steps && s.host == h && s.address == a && s.action == action
  }

  /** What was adopted and has not been written since is destroyed by no later plan; if no node names it any
      more, it is forgotten. */
  lemma AdoptedIsNeverDestroyed(n: Node, st: HostState, observed: Observations, changed: string, effects: seq<Effect>,
                                g: ResourceGraph, inputs: Inputs, stays: Stays, eachAddress: EachAddress, plan: Plan, h: string)
    requires n.kind != "component_script_output" && LeavesAlone(effects, n.address)
    requires NodeStep(n, st, observed).action.Adopt?
    requires h in inputs.states && inputs.states[h] == Outcome(After(StepEffect(NodeStep(n, st, observed), changed), st), effects)
    requires IsPlan(g, inputs, stays, eachAddress, plan)
    ensures !HasStep(plan, h, n.address, Destroy)
    ensures n.address !in NodeAddresses(g.nodes) ==> HasStep(plan, h, n.address, Forget)
  {
    OwnershipOfNode(n, PriorResource(st, n.address), Seen(observed, n.address, PriorResource(st, n.address)));
    RecordedAsPlanned(n, st, observed, changed, effects);
    OrphansFollowRule(g, inputs, stays, eachAddress, plan);
    if n.address !in NodeAddresses(g.nodes) {
      var s :| s in plan.steps && s.host == h && s.address == n.address;
      assert OrphanRule(inputs, stays, s);
    }
  }

  /** What was created and has not been written since is destroyed by a later plan if no node names it any
      more, unless it is of a kind that stays. */
  lemma CreatedIsDestroyed(n: Node, st: HostState, observed: Observations, changed: string, effects: seq<Effect>,
                           g: ResourceGraph, inputs: Inputs, stays: Stays, eachAddress: EachAddress, plan: Plan, h: string)
    requires n.kind != "component_script_output" && LeavesAlone(effects, n.address)
    requires NodeStep(n, st, observed).action.Create?
    requires h in inputs.states && inputs.states[h] == Outcome(After(StepEffect(NodeStep(n, st, observed), changed), st), effects)
    requires IsPlan(g, inputs, stays, eachAddress, plan) && n.address !in NodeAddresses(g.nodes)
    ensures n.address in inputs.states[h]
    ensures HasStep(plan, h, n.address, if stays(inputs.states[h][n.address]) then Forget else Destroy)
  {
    OwnershipOfNode(n, PriorResource(st, n.address), Seen(observed, n.address, PriorResource(st, n.address)));
    RecordedAsPlanned(n, st, observed, changed, effects);
    OrphansFollowRule(g, inputs, stays, eachAddress, plan);
    var s :| s in plan.steps && s.host == h && s.address == n.address;
    assert OrphanRule(inputs, stays, s);
  }

  /** An update keeps what was adopted adopted exactly if it only repairs it. */
  lemma AdoptedUntilReconfigured(n: Node, st: HostState, observed: Observations, changed: string)
    requires n.kind != "component_script_output" && n.address in st && st[n.address].ownership == "adopted"
    requires NodeStep(n, st, observed).action.Update?
    ensures var prior := PriorResource(st, n.address);
      var later := After(StepEffect(NodeStep(n, st, observed), changed), st);
      n.address in later && later[n.address].ownership == if Repairs(n, prior, Seen(observed, n.address, prior)) then "adopted" else "managed"
  {
    OwnershipOfNode(n, PriorResource(st, n.address), Seen(observed, n.address, PriorResource(st, n.address)));
  }
}
