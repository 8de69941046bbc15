/** Plans made from a graph are plans that can be executed by it. */
module PlanLink {
  import opened Wrappers
  import opened Lists
  import opened Digraph
  import opened ResourceGraphs
  import opened Schedule
  import opened Waves
  import opened Plans
  import opened Inversion
  import opened Orphans
  import opened ExecutionWaves
  import opened Turning
  import opened DestroyOrder
  import opened Planning

  /** No recorded address is that of an operation or of a run, and the address of a run for a single
      trigger is not one of the graph. */
  ghost predicate Apart(g: ResourceGraph, inputs: Inputs, eachAddress: EachAddress) {
    && (forall op, h, a :: op in g.operations && h in inputs.states && a in inputs.states[h] ==> a != op.address && a != "")
    && (forall op, t {:trigger eachAddress(op.address, t)} :: op in g.operations ==>
         eachAddress(op.address, t) != "" && eachAddress(op.address, t) !in Addresses(g)
         && forall h, a :: h in inputs.states && a in inputs.states[h] ==> a != eachAddress(op.address, t))
    && (forall h, a :: h in inputs.states && a in inputs.states[h] ==> a != "")
  }

  /** Operations that run once for each trigger wait for all their triggers. */
  ghost predicate TriggersListed(g: ResourceGraph) {
    forall op, t :: op in g.operations && op.each && t in op.triggeredBy && t != "" ==> t in op.dependsOn
  }

  lemma NodeIsKnown(g: ResourceGraph, n: Node)
    requires n in g.nodes
    ensures n.address in Known(g)
  {
    var i :| 0 <= i < |g.nodes| && g.nodes[i] == n;
    assert Addresses(g)[i] == n.address;
  }

  lemma NodesAreNotOperations(g: ResourceGraph, n: Node, op: Operation)
    requires WellFormed(g) && n in g.nodes && op in g.operations
    ensures n.address != op.address
  {
    var i :| 0 <= i < |g.nodes| && g.nodes[i] == n;
    var j :| 0 <= j < |g.operations| && g.operations[j] == op;
    assert Addresses(g)[i] == n.address && Addresses(g)[|g.nodes| + j] == op.address;
    if n.address == op.address { NoDupAt(Addresses(g), i, |g.nodes| + j); }
  }

  /** What a run of a plan is: of a graph's operation, under its address or one of its own. */
  ghost predicate RunOf(g: ResourceGraph, eachAddress: EachAddress, op: Operation, o: OperationStep) {
    && op in g.operations && o.operation.address == op.address
    && (o.address == op.address || (op.each && exists t :: t in op.triggeredBy && o.address == eachAddress(op.address, t)))
    && (forall d :: d in o.operation.dependsOn ==> d in op.dependsOn || d in op.triggeredBy)
  }

  lemma RunKind(g: ResourceGraph, inputs: Inputs, stays: Stays, eachAddress: EachAddress, plan: Plan, o: OperationStep) returns (op: Operation)
    requires IsPlan(g, inputs, stays, eachAddress, plan) && o in plan.operations
    ensures RunOf(g, eachAddress, op, o)
  {
    var changed := ChangedAddresses(plan.steps);
    var runs := AllRuns(g.operations, changed, eachAddress);
    var i :| 0 <= i < |runs| && plan.operations[i] == o;
    op := RunComesFrom(g.operations, changed, eachAddress, runs[i]);
    OneRun(op, changed, eachAddress, runs[i]);
  }

  lemma OneRun(op: Operation, changed: set<string>, eachAddress: EachAddress, r: OperationStep)
    requires r in RunsOf(op, changed, eachAddress)
    ensures r.operation.address == op.address
    ensures r.address == op.address || (op.each && exists t :: t in op.triggeredBy && r.address == eachAddress(op.address, t))
    ensures forall d :: d in r.operation.dependsOn ==> d in op.dependsOn || d in op.triggeredBy
  {
    var t := Triggered(op.triggeredBy, changed);
    if op.each && t != [] {
      var i :| 0 <= i < |t| && EachSteps(op, t, eachAddress)[i] == r;
      assert t[i] in t && t[i] in op.triggeredBy;
    }
  }

  /** A step of a plan is about a node, or about what is recorded and has no node. */
  lemma StepKind(g: ResourceGraph, inputs: Inputs, stays: Stays, eachAddress: EachAddress, plan: Plan, s: Step)
    requires IsPlan(g, inputs, stays, eachAddress, plan) && s in plan.steps
    ensures (s.node in g.nodes && s.node.address == s.address && !s.action.Destroy? && !s.action.Forget?)
         || (s.address !in NodeAddresses(g.nodes) && s.host in inputs.states && s.address in inputs.states[s.host]
             && (s.action.Destroy? || s.action.Forget?))
  {
    if !FromNode(g, inputs, s) { assert FromOrphan(g, inputs, stays, s); }
  }

  lemma PlanFits(g: ResourceGraph, inputs: Inputs, stays: Stays, eachAddress: EachAddress, plan: Plan)
    requires WellFormed(g) && IsPlan(g, inputs, stays, eachAddress, plan) && Apart(g, inputs, eachAddress)
    ensures Fits(g, plan)
  {
    forall s, i | s in plan.steps && 0 <= i < |g.operations| ensures s.address != g.operations[i].address {
      StepKind(g, inputs, stays, eachAddress, plan, s);
      if s.node in g.nodes && s.node.address == s.address { NodesAreNotOperations(g, s.node, g.operations[i]); }
    }
    forall o, i | o in plan.operations && 0 <= i < |g.nodes|
      ensures OperationKey(o) != g.nodes[i].address && o.operation.address != g.nodes[i].address
    {
      var op := RunKind(g, inputs, stays, eachAddress, plan, o);
      NodesAreNotOperations(g, g.nodes[i], op);
      NodeIsKnown(g, g.nodes[i]);
    }
    forall s, o | s in plan.steps && o in plan.operations ensures s.address != OperationKey(o) {
      StepNotRun(g, inputs, stays, eachAddress, plan, s, o);
    }
    forall s | s in plan.steps ensures s.address != "" {
      StepKind(g, inputs, stays, eachAddress, plan, s);
      if s.node in g.nodes && s.node.address == s.address { NodeAddress(g, s.node); }
    }
  }

  lemma StepNotRun(g: ResourceGraph, inputs: Inputs, stays: Stays, eachAddress: EachAddress, plan: Plan, s: Step, o: OperationStep)
    requires WellFormed(g) && IsPlan(g, inputs, stays, eachAddress, plan) && Apart(g, inputs, eachAddress)
    requires s in plan.steps && o in plan.operations
    ensures s.address != OperationKey(o)
  {
    var op := RunKind(g, inputs, stays, eachAddress, plan, o);
    StepKind(g, inputs, stays, eachAddress, plan, s);
    if s.node in g.nodes && s.node.address == s.address {
      NodesAreNotOperations(g, s.node, op);
      NodeIsKnown(g, s.node);
    }
  }

  /** The operation that a filed step is a run of. */
  lemma FiledRun(g: ResourceGraph, inputs: Inputs, stays: Stays, eachAddress: EachAddress, plan: Plan, a: string) returns (op: Operation)
    requires WellFormed(g) && IsPlan(g, inputs, stays, eachAddress, plan) && a in OperationMap(plan.operations)
    ensures var o := OperationMap(plan.operations)[a];
      op in g.operations && o.operation.address == op.address
      && (a == op.address || (op.each && exists t :: t in op.triggeredBy && a == eachAddress(op.address, t)))
      && (forall d :: d in o.operation.dependsOn ==> d in op.dependsOn || d in op.triggeredBy)
  {
    OperationMapOk(plan.operations);
    assert Filed(plan.operations, a, OperationMap(plan.operations)[a]);
    var o :| o in plan.operations && OperationKey(o) == a && OperationMap(plan.operations)[a] == o.(address := a);
    op := RunKind(g, inputs, stays, eachAddress, plan, o);
  }

  lemma RunIsWithin(g: ResourceGraph, inputs: Inputs, stays: Stays, eachAddress: EachAddress, plan: Plan, a: string)
    requires WellFormed(g) && IsPlan(g, inputs, stays, eachAddress, plan) && Apart(g, inputs, eachAddress) && TriggersListed(g)
    requires a in AliasMap(OperationMap(plan.operations))
    ensures a !in Table(g)
    ensures forall d :: d in OperationMap(plan.operations)[a].operation.dependsOn && d != "" ==>
      AliasMap(OperationMap(plan.operations))[a] in Table(g)
      && d in Table(g)[AliasMap(OperationMap(plan.operations))[a]].dependsOn
  {
    var op := FiledRun(g, inputs, stays, eachAddress, plan, a);
    OperationInTable(g, op);
    forall d | d in OperationMap(plan.operations)[a].operation.dependsOn && d != "" ensures d in Table(g)[op.address].dependsOn {
      assert d in op.dependsOn;
      assert d in Elems(Dedupe(op.dependsOn));
    }
  }

  lemma PlanIsWithin(g: ResourceGraph, inputs: Inputs, stays: Stays, eachAddress: EachAddress, plan: Plan)
    requires WellFormed(g) && IsPlan(g, inputs, stays, eachAddress, plan) && Apart(g, inputs, eachAddress) && TriggersListed(g)
    ensures AliasesWithin(g, OperationMap(plan.operations))
    ensures AllKnown(Table(g), Some(ActiveSet(g, plan)), AliasMap(OperationMap(plan.operations)))
  {
    var ops := OperationMap(plan.operations);
    forall a | a in AliasMap(ops)
      ensures a !in Table(g)
      ensures forall d :: d in ops[a].operation.dependsOn && d != "" ==>
        AliasMap(ops)[a] in Table(g) && d in Table(g)[AliasMap(ops)[a]].dependsOn
    {
      RunIsWithin(g, inputs, stays, eachAddress, plan, a);
    }
    forall a | On(ActiveSet(g, plan), a) ensures EntryFor(Table(g), AliasMap(ops), a).Some? {
      if a in ops { RunIsFound(g, inputs, stays, eachAddress, plan, a); }
    }
  }

  lemma RunIsFound(g: ResourceGraph, inputs: Inputs, stays: Stays, eachAddress: EachAddress, plan: Plan, a: string)
    requires WellFormed(g) && IsPlan(g, inputs, stays, eachAddress, plan) && a in OperationMap(plan.operations)
    ensures EntryFor(Table(g), AliasMap(OperationMap(plan.operations)), a).Some?
  {
    var op := FiledRun(g, inputs, stays, eachAddress, plan, a);
    OperationInTable(g, op);
    assert "" !in Table(g);
    EntryOfRun(Table(g), OperationMap(plan.operations), a);
  }

  lemma EntryOfRun(entries: map<string, Entry>, ops: OperationSteps, a: string)
    requires a in ops && ops[a].operation.address in entries && "" !in entries
    ensures EntryFor(entries, AliasMap(ops), a).Some?
  {
  }

  /** A plan of an acyclic graph in which no resource that stays waits for an operation that waits for
      one to be destroyed has waves, unless recorded dependencies among orphans are cyclic. */
  lemma PlanIsExecutable(g: ResourceGraph, inputs: Inputs, stays: Stays, eachAddress: EachAddress, plan: Plan, overrides: Overrides)
    requires WellFormed(g) && IsPlan(g, inputs, stays, eachAddress, plan) && Apart(g, inputs, eachAddress) && TriggersListed(g)
    requires OverridesOk(g, plan, overrides) && Acyclic(WholeGraph(g)) && Untangled(TurnOf(g, plan, overrides))
    requires DistinctSteps(OrphanSteps(g, plan.steps)) && Acyclic(OrphanGraph(OrphanSteps(g, plan.steps)))
    ensures Fits(g, plan) && Setting(g, plan, overrides) && Executable(g, plan, overrides)
  {
    PlanFits(g, inputs, stays, eachAddress, plan);
    PlanIsWithin(g, inputs, stays, eachAddress, plan);
    PlanIsSchedulable(g, plan, overrides);
  }
}
