/** The executed graph of a plan in terms of the resource graph and of what the plan does, and with it the
    condition under which the plan can be scheduled. */
module TurnedPlans {
  import opened Wrappers
  import opened Lists
  import opened Digraph
  import opened ResourceGraphs
  import opened Schedule
  import opened Waves
  import opened Plans
  import opened Inversion
  import opened ExecutionWaves
  import opened Turning
  import opened DestroyOrder

  /** Of what is `active`, `a` waits for `d`: an operation for its dependencies; a resource that goes for
      the resources that depend on it; any resource for its dependencies, except those that go, and except
      operations if it goes itself. */
  ghost predicate TurnedWait(whole: Graph, ops: set<string>, gone: set<string>, a: string, d: string) {
    if a in ops then HasEdge(whole, a, d)
    else
      || (a in gone && d !in ops && HasEdge(whole, d, a))
      || (d !in gone && (a in gone ==> d !in ops) && HasEdge(whole, a, d))
  }

  ghost function TurnedGraph(whole: Graph, active: set<string>, ops: set<string>, gone: set<string>): Graph {
    map a | a in active :: set d | d in active && TurnedWait(whole, ops, gone, a, d)
  }

  /** The turn of a graph by what is active, which of it are operations and which goes. */
  ghost function TurnOfWhole(whole: Graph, active: set<string>, ops: set<string>, gone: set<string>): Turn {
    Turn(whole, TurnedGraph(whole, active, ops, gone), ops, gone, map a | a in active :: a)
  }

  ghost function ActiveOf(g: ResourceGraph, plan: Plan): set<string> { ActiveSet(g, plan).Keys }

  ghost function OpsOf(plan: Plan): set<string> { OperationMap(plan.operations).Keys }

  /** What the graph knows and the plan deletes. */
  ghost function GoneOf(g: ResourceGraph, plan: Plan): set<string> {
    set a | a in ActiveOf(g, plan) && a !in OpsOf(plan) && Destroyed(StepMap(plan.steps), a)
  }

  /** No operation of the plan runs under an address of its own. */
  ghost predicate NoAliases(plan: Plan) { AliasMap(OperationMap(plan.operations)) == map[] }

  lemma ExecKeys(g: ResourceGraph, plan: Plan, overrides: Overrides)
    requires Setting(g, plan, overrides)
    ensures ExecGraph(g, plan, overrides).Keys == ActiveOf(g, plan)
  {
    forall a | a in ActiveOf(g, plan) ensures a in ExecGraph(g, plan, overrides) {
      assert On(ActiveSet(g, plan), a);
    }
  }

  /** An edge from a resource is a dependency of its node. */
  lemma NodeOf(g: ResourceGraph, plan: Plan, a: string, d: string) returns (n: Node)
    requires WellFormed(g) && Fits(g, plan) && a in StepMap(plan.steps) && HasEdge(WholeGraph(g), a, d)
    ensures n in g.nodes && n.address == a && d in n.dependsOn && d != ""
  {
    var i := TableEntry(g, a);
    StepMapOk(plan.steps);
    n := g.nodes[i];
    assert d in Elems(Dedupe(n.dependsOn));
  }

  lemma ActiveIsStep(g: ResourceGraph, plan: Plan, a: string)
    requires a in ActiveOf(g, plan) && a !in OpsOf(plan)
    ensures a in StepMap(plan.steps)
  {
    StepMapOk(plan.steps);
  }

  /** Every wait of the turned graph is one of the executed graph. */
  lemma WaitIsEdge(g: ResourceGraph, plan: Plan, overrides: Overrides, a: string, d: string)
    requires Setting(g, plan, overrides) && NoAliases(plan)
    requires a in ActiveOf(g, plan) && d in ActiveOf(g, plan) && TurnedWait(WholeGraph(g), OpsOf(plan), GoneOf(g, plan), a, d)
    ensures HasEdge(ExecGraph(g, plan, overrides), a, d)
  {
    ExecKeys(g, plan, overrides);
    if a in OpsOf(plan) {
      OperationWaitIsEdge(g, plan, overrides, a, d);
    } else {
      ActiveIsStep(g, plan, a);
      ResourceWaitIsEdge(g, plan, overrides, a, d);
    }
  }

  lemma OperationWaitIsEdge(g: ResourceGraph, plan: Plan, overrides: Overrides, a: string, d: string)
    requires Setting(g, plan, overrides) && NoAliases(plan) && a in OpsOf(plan)
    requires a in ActiveOf(g, plan) && d in ActiveOf(g, plan) && HasEdge(WholeGraph(g), a, d)
    ensures HasEdge(ExecGraph(g, plan, overrides), a, d)
  {
    NotBoth(g, plan, overrides, a);
    KnownDependency(g, a, d);
    PlainEdge(Table(g), ActiveSet(g, plan), AliasMap(OperationMap(plan.operations)), overrides, a, d);
  }

  lemma ResourceWaitIsEdge(g: ResourceGraph, plan: Plan, overrides: Overrides, a: string, d: string)
    requires Setting(g, plan, overrides) && a !in OpsOf(plan) && a in StepMap(plan.steps) && a in ExecGraph(g, plan, overrides)
    requires d in ActiveOf(g, plan) && TurnedWait(WholeGraph(g), OpsOf(plan), GoneOf(g, plan), a, d)
    ensures HasEdge(ExecGraph(g, plan, overrides), a, d)
  {
    ExecKeys(g, plan, overrides);
    if a in GoneOf(g, plan) && d !in OpsOf(plan) && HasEdge(WholeGraph(g), d, a) {
      ActiveIsStep(g, plan, d);
      GoneWaits(g, plan, overrides, a, d);
    } else {
      NotGone(g, plan, a);
      NotGone(g, plan, d);
      if d in OpsOf(plan) { WaitsForOperation(g, plan, overrides, a, d); } else { WaitsForResource(g, plan, overrides, a, d); }
    }
  }

  lemma NotGone(g: ResourceGraph, plan: Plan, d: string)
    requires d in ActiveOf(g, plan)
    ensures d !in OpsOf(plan) ==> d in StepMap(plan.steps) && (d in GoneOf(g, plan) <==> Destroyed(StepMap(plan.steps), d))
  {
    if d !in OpsOf(plan) { ActiveIsStep(g, plan, d); }
  }

  /** A resource that goes waits for one that depends on it. */
  lemma GoneWaits(g: ResourceGraph, plan: Plan, overrides: Overrides, a: string, d: string)
    requires Setting(g, plan, overrides) && a !in OpsOf(plan) && a in ExecGraph(g, plan, overrides)
    requires Destroyed(StepMap(plan.steps), a) && d in StepMap(plan.steps) && HasEdge(WholeGraph(g), d, a)
    ensures HasEdge(ExecGraph(g, plan, overrides), a, d)
  {
    var n := NodeOf(g, plan, d, a);
    NodeAddress(g, n);
    EdgeOf(g, plan, overrides, n, a, a, d);
  }

  /** A resource that stays waits for an operation. */
  lemma WaitsForOperation(g: ResourceGraph, plan: Plan, overrides: Overrides, a: string, d: string)
    requires Setting(g, plan, overrides) && a !in OpsOf(plan) && a in StepMap(plan.steps) && a in ExecGraph(g, plan, overrides)
    requires HasEdge(WholeGraph(g), a, d) && d in OpsOf(plan) && !Destroyed(StepMap(plan.steps), a)
    ensures HasEdge(ExecGraph(g, plan, overrides), a, d)
  {
    var n := NodeOf(g, plan, a, d);
    DependencyAddress(g, n, d);
    NotBoth(g, plan, overrides, d);
    EdgeOf(g, plan, overrides, n, d, a, d);
  }

  /** And any resource for one that stays. */
  lemma WaitsForResource(g: ResourceGraph, plan: Plan, overrides: Overrides, a: string, d: string)
    requires Setting(g, plan, overrides) && a !in OpsOf(plan) && a in StepMap(plan.steps) && a in ExecGraph(g, plan, overrides)
    requires HasEdge(WholeGraph(g), a, d) && d in StepMap(plan.steps) && !Destroyed(StepMap(plan.steps), d)
    ensures HasEdge(ExecGraph(g, plan, overrides), a, d)
  {
    var n := NodeOf(g, plan, a, d);
    EdgeOf(g, plan, overrides, n, d, a, d);
  }

  /** And the other way round. */
  lemma EdgeIsWait(g: ResourceGraph, plan: Plan, overrides: Overrides, a: string, d: string)
    requires Setting(g, plan, overrides) && NoAliases(plan) && HasEdge(ExecGraph(g, plan, overrides), a, d)
    ensures d in ActiveOf(g, plan) && TurnedWait(WholeGraph(g), OpsOf(plan), GoneOf(g, plan), a, d)
  {
    ExecKeys(g, plan, overrides);
    ExecClosed(g, plan, overrides);
    ExecEdge(g, plan, overrides, a, d);
    TurnOfPlan(g, plan, overrides);
    LawOfWait(TurnOf(g, plan, overrides), a, d);
  }

  lemma LawOfWait(t: Turn, a: string, d: string)
    requires a in t.base && d in t.base && EdgeLaw(t, a, d) && t.base[a] == a && t.base[d] == d
    ensures TurnedWait(t.whole, t.ops, t.gone, a, d)
  {
  }

  lemma TurnOfPlan(g: ResourceGraph, plan: Plan, overrides: Overrides)
    requires Setting(g, plan, overrides) && NoAliases(plan)
    ensures var t := TurnOf(g, plan, overrides);
      && t.whole == WholeGraph(g) && t.ops == OpsOf(plan) && t.gone == GoneOf(g, plan) && t.base.Keys == t.exec.Keys == ActiveOf(g, plan)
      && forall a :: a in t.base ==> t.base[a] == a
  {
    ExecKeys(g, plan, overrides);
    ExecObeysLaw(g, plan, overrides);
  }

  lemma SameEdges(f: Graph, g: Graph)
    requires f.Keys == g.Keys && forall a, d :: HasEdge(f, a, d) <==> HasEdge(g, a, d)
    ensures f == g
  {
    forall a | a in f ensures f[a] == g[a] {
      forall d ensures d in f[a] <==> d in g[a] { assert HasEdge(f, a, d) <==> HasEdge(g, a, d); }
    }
  }

  /** What is executed is the resource graph with its edges turned. */
  lemma ExecIsTurned(g: ResourceGraph, plan: Plan, overrides: Overrides)
    requires Setting(g, plan, overrides) && NoAliases(plan)
    ensures ExecGraph(g, plan, overrides) == TurnedGraph(WholeGraph(g), ActiveOf(g, plan), OpsOf(plan), GoneOf(g, plan))
  {
    ExecKeys(g, plan, overrides);
    forall a, d
      ensures HasEdge(ExecGraph(g, plan, overrides), a, d)
         <==> HasEdge(TurnedGraph(WholeGraph(g), ActiveOf(g, plan), OpsOf(plan), GoneOf(g, plan)), a, d)
    {
      EdgeIffWait(g, plan, overrides, a, d);
    }
    SameEdges(ExecGraph(g, plan, overrides), TurnedGraph(WholeGraph(g), ActiveOf(g, plan), OpsOf(plan), GoneOf(g, plan)));
  }

  lemma EdgeIffWait(g: ResourceGraph, plan: Plan, overrides: Overrides, a: string, d: string)
    requires Setting(g, plan, overrides) && NoAliases(plan)
    ensures HasEdge(ExecGraph(g, plan, overrides), a, d) <==>
      a in ActiveOf(g, plan) && d in ActiveOf(g, plan) && TurnedWait(WholeGraph(g), OpsOf(plan), GoneOf(g, plan), a, d)
  {
    if HasEdge(ExecGraph(g, plan, overrides), a, d) {
      ExecKeys(g, plan, overrides);
      EdgeIsWait(g, plan, overrides, a, d);
    } else if a in ActiveOf(g, plan) && d in ActiveOf(g, plan) && TurnedWait(WholeGraph(g), OpsOf(plan), GoneOf(g, plan), a, d) {
      WaitIsEdge(g, plan, overrides, a, d);
    }
  }

  /** From the resource graph and what the plan does, without looking at what is executed: the plan can be
      scheduled exactly if the resources that go do not have to wait for each other in a circle. */
  lemma SchedulableByActionsIff(g: ResourceGraph, plan: Plan, overrides: Overrides)
    requires Setting(g, plan, overrides) && NoAliases(plan) && Acyclic(WholeGraph(g))
    ensures Schedulable(g, Some(ActiveSet(g, plan)), map[], overrides)
       <==> Acyclic(GoneGraph(TurnOfWhole(WholeGraph(g), ActiveOf(g, plan), OpsOf(plan), GoneOf(g, plan))))
  {
    PlanIsSchedulableIff(g, plan, overrides);
    ExecIsTurned(g, plan, overrides);
    var t, u := TurnOf(g, plan, overrides), TurnOfWhole(WholeGraph(g), ActiveOf(g, plan), OpsOf(plan), GoneOf(g, plan));
    assert t.exec == u.exec && t.gone == u.gone;
    SameGone(t, u);
  }

  lemma SamePresses(t: Turn, u: Turn, d: string, e: string)
    requires t.exec == u.exec && t.gone == u.gone && Presses(t, d, e)
    ensures Presses(u, d, e)
  {
    if !HasEdge(t.exec, d, e) {
      var x :| x !in t.gone && HasEdge(t.exec, d, x) && Reaches(t, x, e);
      var p :| Through(t, p, x, e);
      assert Through(u, p, x, e) && Reaches(u, x, e);
    }
  }

  lemma SameGone(t: Turn, u: Turn)
    requires t.exec == u.exec && t.gone == u.gone
    ensures GoneGraph(t) == GoneGraph(u)
  {
    forall d, e ensures Presses(t, d, e) <==> Presses(u, d, e) {
      if Presses(t, d, e) { SamePresses(t, u, d, e); }
      if Presses(u, d, e) { SamePresses(u, t, d, e); }
    }
    forall d | d in t.gone ensures GoneGraph(t)[d] == GoneGraph(u)[d] {}
    assert GoneGraph(t).Keys == t.gone == GoneGraph(u).Keys;
  }
}
