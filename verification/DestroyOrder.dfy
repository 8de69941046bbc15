/** Destroying against the direction of dependencies, in the graph that a plan is executed by: when
    the turned edges leave it acyclic, and what order they bring about. */
module DestroyOrder {
  import opened Wrappers
  import opened Lists
  import opened Digraph
  import opened ResourceGraphs
  import opened Schedule
  import opened Waves
  import opened Plans
  import opened Inversion
  import opened ExecutionWaves
  import opened Turning

  /** Runs under an address of their own do not take the address of anything else, and wait for
      nothing that their operation does not wait for. */
  ghost predicate AliasesWithin(g: ResourceGraph, ops: OperationSteps) {
    && AliasMap(ops).Keys !! Table(g).Keys
    && forall a, d :: a in AliasMap(ops) && AliasMap(ops)[a] in Table(g) && d in ops[a].operation.dependsOn && d != "" ==>
         d in Table(g)[AliasMap(ops)[a]].dependsOn
  }

  ghost predicate Setting(g: ResourceGraph, plan: Plan, overrides: Overrides) {
    && Fits(g, plan) && OverridesOk(g, plan, overrides) && WellFormed(g)
    && AliasesWithin(g, OperationMap(plan.operations))
    && AllKnown(Table(g), Some(ActiveSet(g, plan)), AliasMap(OperationMap(plan.operations)))
  }

  /** The graph of `plan` as a turned part of the resource graph. */
  ghost function TurnOf(g: ResourceGraph, plan: Plan, overrides: Overrides): Turn {
    var active, ops, exec := StepMap(plan.steps), OperationMap(plan.operations), ExecGraph(g, plan, overrides);
    Turn(WholeGraph(g), exec, ops.Keys, set a | a in exec && a !in ops && Destroyed(active, a),
         map a | a in exec :: Base(Table(g), AliasMap(ops), a))
  }

  // ---------------------------------------------------------------- edges

  lemma NodeInTable(g: ResourceGraph, n: Node)
    requires WellFormed(g) && n in g.nodes
    ensures n.address in Table(g) && n.address != "" && Table(g)[n.address].dependsOn == Dedupe(n.dependsOn)
    ensures forall d :: d in n.dependsOn && d != "" ==> d in Table(g) && HasEdge(WholeGraph(g), n.address, d)
  {
    var i :| 0 <= i < |g.nodes| && g.nodes[i] == n;
    TableAt(g, i);
    EveryTableEntry(g);
    forall d | d in n.dependsOn && d != "" ensures d in Table(g) && HasEdge(WholeGraph(g), n.address, d) {
      assert d in Elems(Dedupe(n.dependsOn));
    }
  }

  /** An address of the table that has a step is active, and not filed among the operations. */
  lemma StepIsResource(g: ResourceGraph, plan: Plan, a: string)
    requires Fits(g, plan) && WellFormed(g) && AliasesWithin(g, OperationMap(plan.operations))
    requires a in StepMap(plan.steps) && a in Table(g)
    ensures a !in OperationMap(plan.operations) && On(ActiveSet(g, plan), a)
  {
    var ops := OperationMap(plan.operations);
    StepMapOk(plan.steps);
    OperationMapOk(plan.operations);
    var i := TableEntry(g, a);
    assert a in ops ==> Filed(plan.operations, a, ops[a]) && a !in AliasMap(ops);
  }

  /** What a plan knows of an edge from `a` to `d` that dependency `dep` of the node at `n` puts there. */
  ghost predicate Placed(whole: Graph, active: Steps, ops: OperationSteps, n: string, dep: string, a: string, d: string) {
    && HasEdge(whole, n, dep) && n in active && n !in ops && (dep in active ==> dep !in ops)
    && if Destroyed(active, dep) then a == dep && d == n
       else a == n && d == dep && (dep in active || (dep in ops && !Destroyed(active, n)))
  }

  lemma EdgePlaced(g: ResourceGraph, plan: Plan, a: string, d: string) returns (n: string, dep: string)
    requires Fits(g, plan) && WellFormed(g) && AliasesWithin(g, OperationMap(plan.operations))
    requires Edge(StepMap(plan.steps), OperationMap(plan.operations), g.nodes, a, d) && a != "" && d != ""
    ensures Placed(WholeGraph(g), StepMap(plan.steps), OperationMap(plan.operations), n, dep, a, d)
    ensures On(ActiveSet(g, plan), d) && d in Table(g)
  {
    var active, ops := StepMap(plan.steps), OperationMap(plan.operations);
    var node :| node in g.nodes && PutBy(active, ops, node, node.dependsOn, a, d);
    dep :| dep in node.dependsOn && Puts(active, ops, node, dep, a, d);
    n := node.address;
    NodeInTable(g, node);
    StepIsResource(g, plan, n);
    if dep in active { StepIsResource(g, plan, dep); }
  }

  /** The edges from a resource are those that the overrides give it. */
  lemma ResourceEdges(g: ResourceGraph, plan: Plan, overrides: Overrides, a: string)
    requires Setting(g, plan, overrides) && a in ExecGraph(g, plan, overrides) && a !in OperationMap(plan.operations)
    ensures a in Table(g) && a in StepMap(plan.steps) && a != ""
    ensures forall d :: d in ExecGraph(g, plan, overrides)[a] <==>
      d != "" && Edge(StepMap(plan.steps), OperationMap(plan.operations), g.nodes, a, d)
  {
    var active, ops, on := StepMap(plan.steps), OperationMap(plan.operations), ActiveSet(g, plan);
    StepMapOk(plan.steps);
    assert EntryFor(Table(g), AliasMap(ops), a).Some?;
    var i := TableEntry(g, a);
    forall d | d in overrides[a] && d != "" ensures On(on, d) { var n, dep := EdgePlaced(g, plan, a, d); }
  }

  /** What an active operation waits for: its dependencies in the graph, or fewer if it is a run with its own. */
  lemma OperationDeps(g: ResourceGraph, plan: Plan, overrides: Overrides, a: string) returns (deps: seq<string>)
    requires Setting(g, plan, overrides) && a in ExecGraph(g, plan, overrides) && a in OperationMap(plan.operations)
    ensures ExecGraph(g, plan, overrides)[a] == Resolve(deps, ActiveSet(g, plan), AliasMap(OperationMap(plan.operations)))
    ensures "" !in deps && Base(Table(g), AliasMap(OperationMap(plan.operations)), a) in Table(g)
    ensures forall d :: d in deps ==> d in Table(g)[Base(Table(g), AliasMap(OperationMap(plan.operations)), a)].dependsOn
  {
    var ops := OperationMap(plan.operations);
    var aliases := AliasMap(ops);
    assert EntryFor(Table(g), aliases, a).Some?;
    if a in aliases {
      var own := ops[a].operation.dependsOn;
      ResolveDeduped(own, ActiveSet(g, plan), aliases);
      deps := Dedupe(own);
      forall d | d in deps ensures d in own && d != "" { assert d in Elems(deps); }
    } else {
      var i := TableEntry(g, a);
      if a in StepMap(plan.steps) { StepIsResource(g, plan, a); }
      deps := Table(g)[a].dependsOn;
    }
  }

  lemma OperationEdge(g: ResourceGraph, plan: Plan, overrides: Overrides, a: string, d: string)
    requires Setting(g, plan, overrides) && a in OperationMap(plan.operations) && HasEdge(ExecGraph(g, plan, overrides), a, d)
    ensures HasEdge(WholeGraph(g), Base(Table(g), AliasMap(OperationMap(plan.operations)), a),
                    Base(Table(g), AliasMap(OperationMap(plan.operations)), d))
  {
    var deps := OperationDeps(g, plan, overrides, a);
    var i := TableEntry(g, Base(Table(g), AliasMap(OperationMap(plan.operations)), a));
    ResolvedBase(Table(g), deps, ActiveSet(g, plan), AliasMap(OperationMap(plan.operations)), d);
  }

  lemma ResourceEdge(g: ResourceGraph, plan: Plan, overrides: Overrides, a: string, d: string)
    requires Setting(g, plan, overrides) && a !in OperationMap(plan.operations) && HasEdge(ExecGraph(g, plan, overrides), a, d)
    ensures a in Table(g) && d in Table(g)
    ensures exists n, dep :: Placed(WholeGraph(g), StepMap(plan.steps), OperationMap(plan.operations), n, dep, a, d)
  {
    ResourceEdges(g, plan, overrides, a);
    var n, dep := EdgePlaced(g, plan, a, d);
  }

  /** The graph that is executed obeys the law of turning. */
  lemma ExecObeysLaw(g: ResourceGraph, plan: Plan, overrides: Overrides)
    requires Setting(g, plan, overrides)
    ensures Law(TurnOf(g, plan, overrides))
  {
    var t := TurnOf(g, plan, overrides);
    forall a | a in t.exec ensures t.base[a] in t.whole { ExecBase(g, plan, overrides, a); }
    ExecClosed(g, plan, overrides);
    forall a, d | HasEdge(t.exec, a, d) ensures d in t.exec && EdgeLaw(t, a, d) { ExecEdge(g, plan, overrides, a, d); }
  }

  lemma ExecBase(g: ResourceGraph, plan: Plan, overrides: Overrides, a: string)
    requires a in ExecGraph(g, plan, overrides)
    ensures Base(Table(g), AliasMap(OperationMap(plan.operations)), a) in WholeGraph(g)
  {
    assert EntryFor(Table(g), AliasMap(OperationMap(plan.operations)), a).Some?;
  }

  lemma ExecClosed(g: ResourceGraph, plan: Plan, overrides: Overrides)
    requires Setting(g, plan, overrides)
    ensures Closed(ExecGraph(g, plan, overrides))
  {
    ActiveGraphClosed(g, Some(ActiveSet(g, plan)), AliasMap(OperationMap(plan.operations)), overrides);
  }

  lemma ExecEdge(g: ResourceGraph, plan: Plan, overrides: Overrides, a: string, d: string)
    requires Setting(g, plan, overrides) && HasEdge(ExecGraph(g, plan, overrides), a, d) && d in ExecGraph(g, plan, overrides)
    ensures EdgeLaw(TurnOf(g, plan, overrides), a, d)
  {
    if a in OperationMap(plan.operations) {
      OperationEdge(g, plan, overrides, a, d);
    } else {
      ResourceEdge(g, plan, overrides, a, d);
    }
  }

  // ---------------------------------------------------------------- what follows

  /** A plan can be scheduled if the resource graph is acyclic and no resource that stays waits for an
      operation that waits for a resource to be destroyed. */
  lemma PlanIsSchedulable(g: ResourceGraph, plan: Plan, overrides: Overrides)
    requires Setting(g, plan, overrides) && Acyclic(WholeGraph(g)) && Untangled(TurnOf(g, plan, overrides))
    ensures Schedulable(g, Some(ActiveSet(g, plan)), AliasMap(OperationMap(plan.operations)), overrides)
  {
    ExecObeysLaw(g, plan, overrides);
    ExecClosed(g, plan, overrides);
    WholeIsClosed(g);
    TurnedIsAcyclic(TurnOf(g, plan, overrides));
  }

  /** Exactly when: if the resource graph is acyclic, a plan can be scheduled if and only if the resources
      to be destroyed do not have to wait for each other in a circle. */
  lemma PlanIsSchedulableIff(g: ResourceGraph, plan: Plan, overrides: Overrides)
    requires Setting(g, plan, overrides) && Acyclic(WholeGraph(g))
    ensures Schedulable(g, Some(ActiveSet(g, plan)), AliasMap(OperationMap(plan.operations)), overrides)
       <==> Acyclic(GoneGraph(TurnOf(g, plan, overrides)))
  {
    ExecObeysLaw(g, plan, overrides);
    ExecClosed(g, plan, overrides);
    WholeIsClosed(g);
    TurnedIsAcyclicIff(TurnOf(g, plan, overrides));
  }

  lemma WholeIsClosed(g: ResourceGraph)
    requires WellFormed(g)
    ensures Closed(WholeGraph(g))
  {
    EveryTableEntry(g);
    forall a, d | a in WholeGraph(g) && d in WholeGraph(g)[a] ensures d in WholeGraph(g) { assert d in DepsOf(Table(g))[a]; }
  }

  lemma StepInGraph(g: ResourceGraph, plan: Plan, overrides: Overrides, a: string)
    requires Setting(g, plan, overrides) && a in StepMap(plan.steps) && a in Table(g)
    ensures a in ExecGraph(g, plan, overrides) && a !in OperationMap(plan.operations)
  {
    StepIsResource(g, plan, a);
  }

  lemma NodeAddress(g: ResourceGraph, n: Node)
    requires WellFormed(g) && n in g.nodes
    ensures n.address in Table(g) && n.address != ""
  {
    NodeInTable(g, n);
  }

  lemma DependencyAddress(g: ResourceGraph, n: Node, d: string)
    requires WellFormed(g) && n in g.nodes && d in n.dependsOn && d != ""
    ensures d in Table(g)
  {
    NodeInTable(g, n);
  }

  /** An edge that a node's dependency gives to an active step. */
  lemma EdgeOf(g: ResourceGraph, plan: Plan, overrides: Overrides, n: Node, dep: string, a: string, b: string)
    requires Setting(g, plan, overrides) && n in g.nodes && dep in n.dependsOn && b != ""
    requires Puts(StepMap(plan.steps), OperationMap(plan.operations), n, dep, a, b)
    requires a in ExecGraph(g, plan, overrides) && a !in OperationMap(plan.operations)
    ensures HasEdge(ExecGraph(g, plan, overrides), a, b)
  {
    ResourceEdges(g, plan, overrides, a);
    assert PutBy(StepMap(plan.steps), OperationMap(plan.operations), n, n.dependsOn, a, b);
    assert Edge(StepMap(plan.steps), OperationMap(plan.operations), g.nodes, a, b);
  }

  /** Between the active steps of a node and of a resource it depends on: the dependency goes first,
      unless it is destroyed, and then it goes strictly after the node. */
  lemma StepsInOrder(g: ResourceGraph, plan: Plan, overrides: Overrides, stage: map<string, nat>, n: Node, d: string)
    requires Setting(g, plan, overrides) && Staged(ExecGraph(g, plan, overrides), stage)
    requires n in g.nodes && d in n.dependsOn && d != "" && n.address in StepMap(plan.steps) && d in StepMap(plan.steps)
    ensures n.address in stage && d in stage
    ensures if Destroyed(StepMap(plan.steps), d) then stage[n.address] < stage[d] else stage[d] < stage[n.address]
  {
    NodeAddress(g, n);
    DependencyAddress(g, n, d);
    StepInGraph(g, plan, overrides, n.address);
    StepInGraph(g, plan, overrides, d);
    if Destroyed(StepMap(plan.steps), d) {
      EdgeOf(g, plan, overrides, n, d, d, n.address);
    } else {
      EdgeOf(g, plan, overrides, n, d, n.address, d);
    }
  }

  lemma OperationWaits(g: ResourceGraph, plan: Plan, overrides: Overrides, o: string, d: string)
    requires Setting(g, plan, overrides) && o in OperationMap(plan.operations) && o in Table(g)
    requires d in Table(g)[o].dependsOn && d in StepMap(plan.steps)
    ensures HasEdge(ExecGraph(g, plan, overrides), o, d)
  {
    KnownDependency(g, o, d);
    StepIsResource(g, plan, d);
    NotBoth(g, plan, overrides, o);
    assert o !in overrides;
    PlainEdge(Table(g), ActiveSet(g, plan), AliasMap(OperationMap(plan.operations)), overrides, o, d);
  }

  lemma KnownDependency(g: ResourceGraph, o: string, d: string)
    requires WellFormed(g) && o in Table(g) && d in Table(g)[o].dependsOn
    ensures d in Table(g) && d != ""
  {
    var i := TableEntry(g, o);
  }

  /** As when a unit file goes whose service stays: the service waits for the unit and for the reload,
      the reload waits for the unit to be gone, and the unit waits for the service. The plan cannot be
      scheduled, although the resource graph has no cycle. */
  lemma RemovalUnderReloadIsCyclic(g: ResourceGraph, plan: Plan, overrides: Overrides, service: Node, unit: string, reload: string)
    requires Setting(g, plan, overrides) && service in g.nodes && unit in service.dependsOn && reload in service.dependsOn
    requires service.address in StepMap(plan.steps) && !Destroyed(StepMap(plan.steps), service.address)
    requires Destroyed(StepMap(plan.steps), unit)
    requires reload in OperationMap(plan.operations) && reload in Table(g) && unit in Table(g)[reload].dependsOn
    ensures !Executable(g, plan, overrides)
  {
    var t := TurnOf(g, plan, overrides);
    var i := TableEntry(g, reload);
    assert reload != "" && unit != "" && unit in Table(g);
    NodeAddress(g, service);
    StepInGraph(g, plan, overrides, service.address);
    StepInGraph(g, plan, overrides, unit);
    NotBoth(g, plan, overrides, reload);
    EdgeOf(g, plan, overrides, service, unit, unit, service.address);
    EdgeOf(g, plan, overrides, service, reload, service.address, reload);
    OperationWaits(g, plan, overrides, reload, unit);
    OneStepTaint(t, reload, unit);
    TangledIsCyclic(t, service.address, [reload, unit]);
  }

  lemma NotBoth(g: ResourceGraph, plan: Plan, overrides: Overrides, o: string)
    requires Setting(g, plan, overrides) && o in OperationMap(plan.operations) && o in Table(g)
    ensures o !in StepMap(plan.steps)
  {
    if o in StepMap(plan.steps) { StepIsResource(g, plan, o); }
  }

  lemma OneStepTaint(t: Turn, o: string, d: string)
    requires o in t.ops && d in t.gone && HasEdge(t.exec, o, d)
    ensures Taint(t, [o, d])
  {
  }
}
