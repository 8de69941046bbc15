/** A unit file that is deleted while its service stays, with the daemon reload between them: three
    addresses whose graph has no cycle and whose plan cannot be scheduled. */
module RemovalExample {
  import opened Wrappers
  import opened Lists
  import opened Digraph
  import opened ResourceGraphs
  import opened Schedule
  import opened Waves
  import opened Plans
  import opened Inversion
  import opened ExecutionWaves
  import opened DestroyOrder

  /** The addresses of the unit, its service, and the reload. */
  datatype Names = Names(unit: string, service: string, reload: string)

  predicate Distinct(a: Names) {
    "" != a.unit && "" != a.service && "" != a.reload && a.unit != a.service && a.unit != a.reload && a.service != a.reload
  }

  function UnitNode(a: Names): Node { Node(a.unit, "host", "systemd_unit", [], "unit", true, "") }

  function ServiceNode(a: Names): Node { Node(a.service, "host", "service", [a.unit, a.reload], "service", false, "") }

  function Reload(a: Names): Operation { Operation(a.reload, "host", [a.unit], [a.unit], false, None) }

  function Desired(a: Names): ResourceGraph { ResourceGraph([UnitNode(a), ServiceNode(a)], [Reload(a)]) }

  function Steps2(a: Names): seq<Step> {
    [Step(a.unit, "host", Delete, UnitNode(a), None, "", ""), Step(a.service, "host", Update, ServiceNode(a), None, "", "")]
  }

  function Removal(a: Names): Plan { Plan(Steps2(a), [OperationStep(a.reload, Reload(a))]) }

  /** The unit waits for the service; the service only for the reload. */
  function Waits(a: Names): Overrides { map[a.unit := [a.service], a.service := [a.reload]] }

  lemma StepsFiled(a: Names)
    requires Distinct(a)
    ensures StepMap(Steps2(a)) == map[a.unit := Steps2(a)[0], a.service := Steps2(a)[1]]
  {
    var steps := Steps2(a);
    assert steps[..1] == [steps[0]] && steps[..1][..0] == [];
    assert StepMap(steps[..1]) == map[a.unit := steps[0]];
  }

  lemma ReloadFiled(a: Names)
    requires Distinct(a)
    ensures OperationMap(Removal(a).operations) == map[a.reload := OperationStep(a.reload, Reload(a))]
    ensures AliasMap(OperationMap(Removal(a).operations)) == map[]
  {
    var operations := Removal(a).operations;
    assert operations[..0] == [];
  }

  lemma ThreeAddresses(a: Names)
    requires Distinct(a)
    ensures Addresses(Desired(a)) == [a.unit, a.service, a.reload] && NoDup(Addresses(Desired(a)))
  {
    var g := Desired(a);
    assert Size(g) == 3;
    assert AddressAt(g, 0) == a.unit && AddressAt(g, 1) == a.service && AddressAt(g, 2) == a.reload;
  }

  lemma IsWellFormed(a: Names)
    requires Distinct(a)
    ensures WellFormed(Desired(a))
  {
    var g := Desired(a);
    ThreeAddresses(a);
    forall i | 0 <= i < Size(g) ensures HostOk(g, i) && NamesKnown(g, i) {
      forall d | d in EntryAt(g, i).dependsOn ensures d in Addresses(g) {
        DedupeHas(if i < 2 then g.nodes[i].dependsOn else g.operations[i - 2].dependsOn, d);
      }
      forall t | i >= 2 && t in Dedupe(g.operations[i - 2].triggeredBy) ensures t in Addresses(g) {
        DedupeHas(g.operations[i - 2].triggeredBy, t);
      }
    }
  }

  lemma TheTable(a: Names)
    requires Distinct(a)
    ensures var t := Table(Desired(a));
      && t.Keys == {a.unit, a.service, a.reload}
      && t[a.unit].dependsOn == Dedupe([]) && t[a.service].dependsOn == Dedupe([a.unit, a.reload]) && t[a.reload].dependsOn == Dedupe([a.unit])
  {
    ThreeAddresses(a);
    TableAt(Desired(a), 0);
    TableAt(Desired(a), 1);
    TableAt(Desired(a), 2);
  }

  lemma EdgesOfPlan(a: Names, x: string, d: string)
    requires Distinct(a) && (x == a.unit || x == a.service)
    ensures Edge(StepMap(Steps2(a)), OperationMap(Removal(a).operations), Desired(a).nodes, x, d) <==> d in Waits(a)[x]
  {
    StepsFiled(a);
    ReloadFiled(a);
    var active, ops, n := StepMap(Steps2(a)), OperationMap(Removal(a).operations), ServiceNode(a);
    assert Desired(a).nodes[1] == n;
    if d in Waits(a)[x] {
      var dep := if x == a.unit then a.unit else a.reload;
      assert n.dependsOn[if x == a.unit then 0 else 1] == dep;
      assert Puts(active, ops, n, dep, x, d);
      assert PutBy(active, ops, n, n.dependsOn, x, d);
    }
  }

  lemma PlanFitsGraph(a: Names)
    requires Distinct(a)
    ensures Fits(Desired(a), Removal(a))
  {
  }

  lemma WaitsAreOverrides(a: Names)
    requires Distinct(a)
    ensures OverridesOk(Desired(a), Removal(a), Waits(a))
  {
    StepsFiled(a);
    ReloadFiled(a);
    forall x, d | x in StepMap(Steps2(a))
      ensures d in Waits(a)[x] <==> Edge(StepMap(Steps2(a)), OperationMap(Removal(a).operations), Desired(a).nodes, x, d)
    {
      EdgesOfPlan(a, x, d);
    }
  }

  lemma AllAreKnown(a: Names)
    requires Distinct(a)
    ensures AllKnown(Table(Desired(a)), Some(ActiveSet(Desired(a), Removal(a))), map[])
  {
    TheTable(a);
    ReloadFiled(a);
    ThreeAddresses(a);
  }

  lemma WaitsOf(g: ResourceGraph, x: string, deps: seq<string>)
    requires x in Table(g) && Table(g)[x].dependsOn == Dedupe(deps)
    ensures x in WholeGraph(g) && forall d :: d in WholeGraph(g)[x] <==> d in deps && d != ""
  {
    assert Elems(Dedupe(deps)) == Elems(deps) - {""};
  }

  lemma UnitWaits(a: Names)
    requires Distinct(a)
    ensures a.unit in WholeGraph(Desired(a)) && forall d :: d !in WholeGraph(Desired(a))[a.unit]
  {
    TheTable(a);
    WaitsOf(Desired(a), a.unit, []);
  }

  lemma ServiceWaits(a: Names)
    requires Distinct(a)
    ensures a.service in WholeGraph(Desired(a)) && forall d :: d in WholeGraph(Desired(a))[a.service] ==> d == a.unit || d == a.reload
  {
    TheTable(a);
    WaitsOf(Desired(a), a.service, [a.unit, a.reload]);
  }

  lemma OperationWaitsOnly(a: Names)
    requires Distinct(a)
    ensures a.reload in WholeGraph(Desired(a)) && forall d :: d in WholeGraph(Desired(a))[a.reload] ==> d == a.unit
  {
    TheTable(a);
    WaitsOf(Desired(a), a.reload, [a.unit]);
  }

  ghost predicate ThreeWait(g: Graph, a: Names) {
    && g.Keys == {a.unit, a.service, a.reload}
    && (forall d :: d !in g[a.unit]) && (forall d :: d in g[a.service] ==> d == a.unit || d == a.reload) && (forall d :: d in g[a.reload] ==> d == a.unit)
  }

  lemma ThreeAreAcyclic(g: Graph, a: Names)
    requires Distinct(a) && ThreeWait(g, a)
    ensures Acyclic(g)
  {
    StagedIsAcyclic(g, map[a.unit := 0, a.reload := 1, a.service := 2]);
  }

  lemma AllWait(a: Names)
    requires Distinct(a)
    ensures ThreeWait(WholeGraph(Desired(a)), a)
  {
    assert WholeGraph(Desired(a)).Keys == {a.unit, a.service, a.reload} by { TheTable(a); }
    UnitWaits(a);
    ServiceWaits(a);
    OperationWaitsOnly(a);
  }

  lemma IsAcyclic(a: Names)
    requires Distinct(a)
    ensures Acyclic(WholeGraph(Desired(a)))
  {
    AllWait(a);
    ThreeAreAcyclic(WholeGraph(Desired(a)), a);
  }

  lemma IsSetting(a: Names)
    requires Distinct(a)
    ensures Setting(Desired(a), Removal(a), Waits(a))
  {
    ReloadFiled(a);
    PlanFitsGraph(a);
    WaitsAreOverrides(a);
    IsWellFormed(a);
    AllAreKnown(a);
  }

  lemma ReloadWaits(a: Names)
    requires Distinct(a)
    ensures a.reload in OperationMap(Removal(a).operations) && a.reload in Table(Desired(a))
    ensures a.unit in Table(Desired(a))[a.reload].dependsOn
  {
    ReloadFiled(a);
    TheTable(a);
    DedupeHas([a.unit], a.unit);
  }

  lemma RemovalFails(a: Names)
    requires Distinct(a) && Setting(Desired(a), Removal(a), Waits(a))
    ensures !Executable(Desired(a), Removal(a), Waits(a))
  {
    var n := ServiceNode(a);
    assert Desired(a).nodes[1] == n && n.dependsOn[0] == a.unit && n.dependsOn[1] == a.reload;
    ReloadWaits(a);
    StepsFiled(a);
    RemovalUnderReloadIsCyclic(Desired(a), Removal(a), Waits(a), n, a.unit, a.reload);
  }

  /** The setting of the theorems is one that occurs, and in it a plan fails on an acyclic graph. */
  lemma UnitUnderReload(a: Names)
    requires Distinct(a)
    ensures Setting(Desired(a), Removal(a), Waits(a)) && Acyclic(WholeGraph(Desired(a)))
    ensures !Executable(Desired(a), Removal(a), Waits(a))
  {
    IsSetting(a);
    IsAcyclic(a);
    RemovalFails(a);
  }
}
