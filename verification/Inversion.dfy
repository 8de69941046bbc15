/** Dependencies among the active steps of a plan. A step that destroys its resource does not go
    before what depends on it, but after. */
module Inversion {
  import opened Lists
  import opened ResourceGraphs
  import opened Waves
  import opened Plans

  type Steps = map<string, Step>
  type OperationSteps = map<string, OperationStep>

  predicate Destroyed(active: Steps, a: string) { a in active && DestroysResource(active[a].action) }

  /** Dependency `dep` of node `n` puts `d` among what `a` waits for: a resource that is destroyed
      waits for the node that depends on it; any other active dependency is waited for, except an
      operation by a resource that is itself destroyed. */
  ghost predicate Puts(active: Steps, ops: OperationSteps, n: Node, dep: string, a: string, d: string) {
    && n.address in active
    && if Destroyed(active, dep) then a == dep && d == n.address
       else a == n.address && d == dep && (dep in active || (dep in ops && !Destroyed(active, n.address)))
  }

  ghost predicate PutBy(active: Steps, ops: OperationSteps, n: Node, deps: seq<string>, a: string, d: string) {
    exists dep :: dep in deps && Puts(active, ops, n, dep, a, d)
  }

  /** What `a` is made to wait for, by the nodes in `nodes`. */
  ghost predicate Edge(active: Steps, ops: OperationSteps, nodes: seq<Node>, a: string, d: string) {
    exists n :: n in nodes && PutBy(active, ops, n, n.dependsOn, a, d)
  }

  method AddNode(start: Overrides, active: Steps, ops: OperationSteps, n: Node) returns (table: Overrides)
    requires start.Keys == active.Keys && n.address in active
    ensures table.Keys == active.Keys
    ensures forall a, d :: a in active ==> (d in table[a] <==> d in start[a] || PutBy(active, ops, n, n.dependsOn, a, d))
  {
    table := start;
    for j := 0 to |n.dependsOn|
      invariant table.Keys == active.Keys
      invariant forall a, d :: a in active ==>
        (d in table[a] <==> d in start[a] || PutBy(active, ops, n, n.dependsOn[..j], a, d))
    {
      var dependency := n.dependsOn[j];
      assert n.dependsOn[..j + 1] == n.dependsOn[..j] + [dependency];
      ghost var before := table;
      if dependency in active {
        if DestroysResource(active[dependency].action) {
          table := table[dependency := table[dependency] + [n.address]];
        } else {
          table := table[n.address := table[n.address] + [dependency]];
        }
      } else if dependency in ops && !DestroysResource(active[n.address].action) {
        table := table[n.address := table[n.address] + [dependency]];
      }
      forall a, d | a in active
        ensures d in table[a] <==> d in start[a] || PutBy(active, ops, n, n.dependsOn[..j + 1], a, d)
      {
        assert d in table[a] <==> d in before[a] || Puts(active, ops, n, dependency, a, d);
        PutByNext(active, ops, n, n.dependsOn[..j], dependency, a, d);
      }
    }
    assert n.dependsOn[..|n.dependsOn|] == n.dependsOn;
  }

  lemma PutByNext(active: Steps, ops: OperationSteps, n: Node, deps: seq<string>, dep: string, a: string, d: string)
    ensures PutBy(active, ops, n, deps + [dep], a, d)
       <==> PutBy(active, ops, n, deps, a, d) || Puts(active, ops, n, dep, a, d)
  {
    if PutBy(active, ops, n, deps, a, d) {
      var x :| x in deps && Puts(active, ops, n, x, a, d);
      assert x in deps + [dep];
    }
    if Puts(active, ops, n, dep, a, d) { assert dep in deps + [dep]; }
  }

  lemma EdgeNext(active: Steps, ops: OperationSteps, nodes: seq<Node>, n: Node, a: string, d: string)
    ensures Edge(active, ops, nodes + [n], a, d)
       <==> Edge(active, ops, nodes, a, d) || PutBy(active, ops, n, n.dependsOn, a, d)
  {
    if Edge(active, ops, nodes, a, d) {
      var x :| x in nodes && PutBy(active, ops, x, x.dependsOn, a, d);
      assert x in nodes + [n];
    }
    if PutBy(active, ops, n, n.dependsOn, a, d) { assert n in nodes + [n]; }
  }

  /** `activeDependencyOverrides` */
  method ActiveDependencyOverrides(g: ResourceGraph, active: Steps, ops: OperationSteps) returns (overrides: Overrides)
    ensures overrides.Keys == active.Keys
    ensures forall a, d :: a in active ==> (d in overrides[a] <==> Edge(active, ops, g.nodes, a, d))
    ensures forall a :: a in active ==> NoDup(overrides[a])
  {
    var table: Overrides := map a | a in active :: [];
    for i := 0 to |g.nodes|
      invariant table.Keys == active.Keys
      invariant forall a, d :: a in active ==> (d in table[a] <==> Edge(active, ops, g.nodes[..i], a, d))
    {
      var n := g.nodes[i];
      assert g.nodes[..i + 1] == g.nodes[..i] + [n];
      forall a, d { EdgeNext(active, ops, g.nodes[..i], n, a, d); }
      if n.address !in active {
        continue;
      }
      table := AddNode(table, active, ops, n);
    }
    assert g.nodes[..|g.nodes|] == g.nodes;
    overrides := map a | a in table :: Firsts(table[a], {});
    forall a, d | a in active ensures d in overrides[a] <==> d in table[a] {
      assert d in Elems(overrides[a]) <==> d in Elems(table[a]);
    }
  }
}
