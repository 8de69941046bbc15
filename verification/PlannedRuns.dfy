/** Which operations a plan runs, and what each run waits for, said by the steps of the plan: whatever is
    created, updated or deleted triggers the operations that name it. */
module PlannedRuns {
  import opened Wrappers
  import opened ResourceGraphs
  import opened Plans
  import opened Planning

  /** The plan creates, updates or deletes the resource. */
  ghost predicate Acts(plan: Plan, a: string) {
    exists s :: s in plan.steps && s.address == a && (s.action.Create? || s.action.Update? || s.action.Delete?)
  }

  /** One of the triggers of the operation acts. */
  ghost predicate Runs(plan: Plan, op: Operation) { exists t :: t in op.triggeredBy && Acts(plan, t) }

  /** An operation of the graph that does not run. */
  ghost predicate Idle(g: ResourceGraph, plan: Plan, d: string) {
    (exists op :: op in g.operations && op.address == d) && forall op :: op in g.operations && op.address == d ==> !Runs(plan, op)
  }

  /** A run of `op` for `triggers`: it waits for those, and for all that the operation waits for apart from
      its triggers, but not for what is idle. */
  ghost predicate IsRunFor(g: ResourceGraph, plan: Plan, op: Operation, o: OperationStep, triggers: seq<string>) {
    && o.operation.address == op.address && o.operation.host == op.host && o.operation.completion == op.completion
    && o.operation.triggeredBy == triggers
    && forall d :: d in o.operation.dependsOn <==> (d in triggers || (d in op.dependsOn && d !in op.triggeredBy)) && !Idle(g, plan, d)
  }

  /** An operation runs once for all its triggers that act, or once for each of them. */
  ghost predicate IsRun(g: ResourceGraph, plan: Plan, eachAddress: EachAddress, op: Operation, o: OperationStep) {
    if op.each then exists t :: t in op.triggeredBy && Acts(plan, t) && o.address == eachAddress(op.address, t) && IsRunFor(g, plan, op, o, [t])
    else
      && Runs(plan, op) && o.address == op.address && IsRunFor(g, plan, op, o, o.operation.triggeredBy)
      && forall t :: t in o.operation.triggeredBy <==> t in op.triggeredBy && Acts(plan, t)
  }

  lemma ActsIsChanged(plan: Plan, a: string)
    ensures Acts(plan, a) <==> a in ChangedAddresses(plan.steps)
  {
    if Acts(plan, a) {
      var s :| s in plan.steps && s.address == a && (s.action.Create? || s.action.Update? || s.action.Delete?);
      assert TriggersOperation(s.action);
    }
  }

  lemma {:induction false} TriggeredIff(triggers: seq<string>, changed: set<string>)
    ensures Triggered(triggers, changed) != [] <==> exists t :: t in triggers && t in changed
  {
    var r := Triggered(triggers, changed);
    if r != [] { assert r[0] in r; }
  }

  lemma RunsIff(plan: Plan, op: Operation)
    ensures Runs(plan, op) <==> Triggered(op.triggeredBy, ChangedAddresses(plan.steps)) != []
  {
    TriggeredIff(op.triggeredBy, ChangedAddresses(plan.steps));
    forall t ensures Acts(plan, t) <==> t in ChangedAddresses(plan.steps) { ActsIsChanged(plan, t); }
  }

  lemma IdleIff(g: ResourceGraph, plan: Plan, eachAddress: EachAddress, d: string)
    ensures var changed := ChangedAddresses(plan.steps);
      Idle(g, plan, d) <==> d in Inactive(g.operations, AllRuns(g.operations, changed, eachAddress))
  {
    var changed := ChangedAddresses(plan.steps);
    var runs := AllRuns(g.operations, changed, eachAddress);
    forall op | op in g.operations ensures Runs(plan, op) ==> exists o :: o in runs && o.operation.address == op.address {
      RunsIff(plan, op);
      if Runs(plan, op) {
        RunsAreIncluded(g.operations, changed, eachAddress, op);
        var o := RunsOf(op, changed, eachAddress)[0];
        assert o in RunsOf(op, changed, eachAddress);
        RunIsOf(op, changed, eachAddress, o);
      }
    }
    forall o | o in runs ensures exists op :: op in g.operations && op.address == o.operation.address && Runs(plan, op) {
      var op := RunComesFrom(g.operations, changed, eachAddress, o);
      RunIsOf(op, changed, eachAddress, o);
      RunsIff(plan, op);
    }
  }

  /** A run before its idle dependencies are taken out. */
  lemma RunFor(g: ResourceGraph, plan: Plan, eachAddress: EachAddress, op: Operation, triggers: seq<string>, o: OperationStep)
    requires o.operation == OperationForTriggers(op, triggers)
    ensures IsRunFor(g, plan, op, OnlyActive(o, Inactive(g.operations, AllRuns(g.operations, ChangedAddresses(plan.steps), eachAddress))), triggers)
  {
    forall d ensures Idle(g, plan, d) <==> d in Inactive(g.operations, AllRuns(g.operations, ChangedAddresses(plan.steps), eachAddress)) {
      IdleIff(g, plan, eachAddress, d);
    }
  }

  /** Every run of a plan is one of an operation whose triggers act. */
  lemma RunsAreTriggered(g: ResourceGraph, inputs: Inputs, stays: Stays, eachAddress: EachAddress, plan: Plan, o: OperationStep)
    returns (op: Operation)
    requires IsPlan(g, inputs, stays, eachAddress, plan) && o in plan.operations
    ensures op in g.operations && IsRun(g, plan, eachAddress, op, o)
  {
    var changed := ChangedAddresses(plan.steps);
    var runs := AllRuns(g.operations, changed, eachAddress);
    var i :| 0 <= i < |runs| && plan.operations[i] == o;
    op := RunComesFrom(g.operations, changed, eachAddress, runs[i]);
    RunIs(g, plan, eachAddress, op, runs[i]);
  }

  lemma RunIs(g: ResourceGraph, plan: Plan, eachAddress: EachAddress, op: Operation, r: OperationStep)
    requires r in RunsOf(op, ChangedAddresses(plan.steps), eachAddress)
    ensures IsRun(g, plan, eachAddress, op, OnlyActive(r, Inactive(g.operations, AllRuns(g.operations, ChangedAddresses(plan.steps), eachAddress))))
  {
    var changed := ChangedAddresses(plan.steps);
    var triggered := Triggered(op.triggeredBy, changed);
    forall t ensures Acts(plan, t) <==> t in changed { ActsIsChanged(plan, t); }
    RunsIff(plan, op);
    if op.each {
      var j :| 0 <= j < |triggered| && r == EachSteps(op, triggered, eachAddress)[j];
      assert triggered[j] in triggered;
      RunFor(g, plan, eachAddress, op, [triggered[j]], r);
    } else {
      RunFor(g, plan, eachAddress, op, triggered, r);
    }
  }

  /** And for every trigger that acts the plan has a run. */
  lemma TriggersRun(g: ResourceGraph, inputs: Inputs, stays: Stays, eachAddress: EachAddress, plan: Plan, op: Operation, t: string)
    returns (o: OperationStep)
    requires IsPlan(g, inputs, stays, eachAddress, plan) && op in g.operations && t in op.triggeredBy && Acts(plan, t)
    ensures o in plan.operations && IsRun(g, plan, eachAddress, op, o) && t in o.operation.triggeredBy
    ensures o.address == if op.each then eachAddress(op.address, t) else op.address
  {
    var changed := ChangedAddresses(plan.steps);
    var runs, triggered := AllRuns(g.operations, changed, eachAddress), Triggered(op.triggeredBy, changed);
    ActsIsChanged(plan, t);
    var j :| 0 <= j < |triggered| && triggered[j] == t;
    var r := RunsOf(op, changed, eachAddress)[if op.each then j else 0];
    assert r in RunsOf(op, changed, eachAddress);
    RunsAreIncluded(g.operations, changed, eachAddress, op);
    var i :| 0 <= i < |runs| && runs[i] == r;
    o := plan.operations[i];
    assert o in plan.operations;
    RunIs(g, plan, eachAddress, op, r);
  }
}
