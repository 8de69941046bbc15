/** Scheduling a resource graph: every active address is put into the wave after the last one that
    holds something it waits for. An alias stands for one run of an operation that runs once for
    each of its triggers. */
module Schedule {
  import opened Wrappers
  import opened Lists
  import opened ResourceGraphs

  datatype Entry = Entry(item: ScheduleItem, dependsOn: seq<string>, order: nat)

  datatype GraphError =
    | EmptyAddress
    | DuplicateAddress(address: string)
    | EmptyHost(address: string)
    | UnknownDependency(address: string, dependency: string)
    | UnknownTrigger(address: string, trigger: string)

  datatype ScheduleError =
    | BadGraph(error: GraphError)
    | GraphCycle(path: seq<string>)
    | UnknownActive(address: string)
    | ActiveCycle

  // ---------------------------------------------------------------- entries

  function NodeEntry(n: Node, order: nat): Entry {
    Entry(ScheduleItem(n.address, n.host, n.kind, false, SafeParallelKind(n.kind), []), Dedupe(n.dependsOn), order)
  }

  function OperationEntry(op: Operation, order: nat): Entry {
    Entry(ScheduleItem(op.address, op.host, "operation", true, false, []), Dedupe(op.dependsOn), order)
  }

  function Size(g: ResourceGraph): nat { |g.nodes| + |g.operations| }

  function AddressAt(g: ResourceGraph, i: nat): string
    requires i < Size(g)
  {
    if i < |g.nodes| then g.nodes[i].address else g.operations[i - |g.nodes|].address
  }

  function EntryAt(g: ResourceGraph, i: nat): Entry
    requires i < Size(g)
  {
    if i < |g.nodes| then NodeEntry(g.nodes[i], i) else OperationEntry(g.operations[i - |g.nodes|], i)
  }

  predicate HostOk(g: ResourceGraph, i: nat)
    requires i < Size(g)
  {
    i >= |g.nodes| ==> g.operations[i - |g.nodes|].host != ""
  }

  predicate DependenciesKnown(g: ResourceGraph, i: nat)
    requires i < Size(g)
  {
    forall d :: d in EntryAt(g, i).dependsOn ==> d in Addresses(g)
  }

  predicate NamesKnown(g: ResourceGraph, i: nat)
    requires i < Size(g)
  {
    && DependenciesKnown(g, i)
    && (i >= |g.nodes| ==> forall t :: t in Dedupe(g.operations[i - |g.nodes|].triggeredBy) ==> t in Addresses(g))
  }

  function Addresses(g: ResourceGraph): (r: seq<string>)
    ensures |r| == Size(g) && forall i :: 0 <= i < |r| ==> r[i] == AddressAt(g, i)
  {
    seq(Size(g), i requires 0 <= i < Size(g) => AddressAt(g, i))
  }

  /** The entry of every address. */
  function Table(g: ResourceGraph): map<string, Entry> {
    map a | a in Addresses(g) :: EntryAt(g, FirstIndex(Addresses(g), a))
  }

  /** Addresses are present and distinct, operations have hosts, and every name that is mentioned exists. */
  predicate WellFormed(g: ResourceGraph) {
    && NoDup(Addresses(g)) && "" !in Addresses(g)
    && (forall i :: 0 <= i < Size(g) ==> HostOk(g, i))
    && (forall i :: 0 <= i < Size(g) ==> NamesKnown(g, i))
  }

  /** What an error says about the graph is true. */
  predicate Truthful(g: ResourceGraph, e: GraphError) {
    match e
    case EmptyAddress => "" in Addresses(g)
    case DuplicateAddress(a) => !NoDup(Addresses(g)) && a in Addresses(g)
    case EmptyHost(a) => exists i :: 0 <= i < Size(g) && AddressAt(g, i) == a && !HostOk(g, i)
    case UnknownDependency(a, d) =>
      d !in Addresses(g) && exists i :: 0 <= i < Size(g) && AddressAt(g, i) == a && d in EntryAt(g, i).dependsOn
    case UnknownTrigger(a, t) =>
      t !in Addresses(g) && exists op :: op in g.operations && op.address == a && t in op.triggeredBy
  }

  lemma TableAt(g: ResourceGraph, i: nat)
    requires NoDup(Addresses(g)) && i < Size(g)
    ensures AddressAt(g, i) in Table(g) && Table(g)[AddressAt(g, i)] == EntryAt(g, i)
  {
    assert Addresses(g)[i] == AddressAt(g, i);
    NoDupAt(Addresses(g), FirstIndex(Addresses(g), AddressAt(g, i)), i);
  }

  /** The entry of a node is under its address, for its host and of its kind, runs beside others if the kind
      may, and waits for the node's dependencies. */
  lemma EntryOfNode(g: ResourceGraph, n: Node)
    requires NoDup(Addresses(g)) && n in g.nodes
    ensures n.address in Table(g)
    ensures var e := Table(g)[n.address];
      && e.item.address == n.address && e.item.host == n.host && e.item.kind == n.kind && !e.item.operation
      && (e.item.safeParallel <==> n.kind in SAFE_PARALLEL_KINDS)
      && forall d :: d in e.dependsOn <==> d in n.dependsOn && d != ""
  {
    var i :| 0 <= i < |g.nodes| && g.nodes[i] == n;
    TableAt(g, i);
    forall d ensures d in Dedupe(n.dependsOn) <==> d in n.dependsOn && d != "" { DedupeHas(n.dependsOn, d); }
  }

  /** And that of an operation is for its host, runs beside no other, and waits for its dependencies. */
  lemma EntryOfOperation(g: ResourceGraph, op: Operation)
    requires NoDup(Addresses(g)) && op in g.operations
    ensures op.address in Table(g)
    ensures var e := Table(g)[op.address];
      && e.item.address == op.address && e.item.host == op.host && e.item.operation && !e.item.safeParallel
      && forall d :: d in e.dependsOn <==> d in op.dependsOn && d != ""
  {
    var i :| 0 <= i < |g.operations| && g.operations[i] == op;
    TableAt(g, |g.nodes| + i);
    forall d ensures d in Dedupe(op.dependsOn) <==> d in op.dependsOn && d != "" { DedupeHas(op.dependsOn, d); }
  }

  lemma OperationInTable(g: ResourceGraph, op: Operation)
    requires WellFormed(g) && op in g.operations
    ensures op.address in Table(g) && Table(g)[op.address].dependsOn == Dedupe(op.dependsOn)
  {
    var i :| 0 <= i < |g.operations| && g.operations[i] == op;
    TableAt(g, |g.nodes| + i);
  }

  method ScheduleEntries(g: ResourceGraph) returns (r: Result<map<string, Entry>, GraphError>)
    ensures r.Ok? <==> WellFormed(g)
    ensures r.Ok? ==> r.value == Table(g)
    ensures r.Err? ==> Truthful(g, r.error)
  {
    r := CollectEntries(g);
    if r.Ok? {
      var bad := UnknownName(g, r.value);
      if bad.Some? {
        r := Err(bad.value);
      }
    }
  }

  /** The entries of the first `n` addresses. */
  ghost predicate Collected(g: ResourceGraph, n: nat, entries: map<string, Entry>)
    requires n <= Size(g)
  {
    && NoDup(Addresses(g)[..n])
    && (forall i :: 0 <= i < n ==> AddressAt(g, i) != "" && HostOk(g, i))
    && (forall a :: a in entries <==> a in Addresses(g)[..n])
    && (forall i :: 0 <= i < n ==> AddressAt(g, i) in entries && entries[AddressAt(g, i)] == EntryAt(g, i))
  }

  lemma CollectNext(g: ResourceGraph, n: nat, entries: map<string, Entry>)
    requires n < Size(g) && Collected(g, n, entries)
    requires AddressAt(g, n) != "" && HostOk(g, n) && AddressAt(g, n) !in entries
    ensures Collected(g, n + 1, entries[AddressAt(g, n) := EntryAt(g, n)])
  {
    assert Addresses(g)[..n + 1] == Addresses(g)[..n] + [AddressAt(g, n)];
    NoDupAppend(Addresses(g)[..n], AddressAt(g, n));
  }

  lemma CollectedAll(g: ResourceGraph, entries: map<string, Entry>)
    requires Collected(g, Size(g), entries)
    ensures entries == Table(g) && NoDup(Addresses(g)) && "" !in Addresses(g)
  {
    assert Addresses(g)[..Size(g)] == Addresses(g);
    SameTable(g, entries);
  }

  lemma SameTable(g: ResourceGraph, entries: map<string, Entry>)
    requires forall a :: a in entries <==> a in Addresses(g)
    requires forall i :: 0 <= i < Size(g) ==> AddressAt(g, i) in entries && entries[AddressAt(g, i)] == EntryAt(g, i)
    ensures entries == Table(g)
  {
    forall a | a in entries ensures entries[a] == EntryAt(g, FirstIndex(Addresses(g), a)) {
      assert AddressAt(g, FirstIndex(Addresses(g), a)) == a;
    }
  }

  lemma Repeated(g: ResourceGraph, n: nat, entries: map<string, Entry>)
    requires n < Size(g) && Collected(g, n, entries) && AddressAt(g, n) in entries
    ensures !NoDup(Addresses(g)) && AddressAt(g, n) in Addresses(g)
  {
    var all := Addresses(g);
    assert all[n] in all;
    var i :| 0 <= i < n && all[..n][i] == AddressAt(g, n);
    if NoDup(all) { NoDupAt(all, i, n); }
  }

  /** The first two loops: one entry for every node and operation. */
  method CollectEntries(g: ResourceGraph) returns (r: Result<map<string, Entry>, GraphError>)
    ensures r.Ok? ==> NoDup(Addresses(g)) && "" !in Addresses(g) && forall i :: 0 <= i < Size(g) ==> HostOk(g, i)
    ensures r.Ok? ==> r.value == Table(g)
    ensures r.Err? ==> Truthful(g, r.error) && !WellFormed(g)
  {
    var entries: map<string, Entry> := map[];
    for order := 0 to Size(g)
      invariant Collected(g, order, entries)
    {
      var address := AddressAt(g, order);
      assert Addresses(g)[order] == address;
      if address == "" {
        return Err(EmptyAddress);
      }
      if order >= |g.nodes| && g.operations[order - |g.nodes|].host == "" {
        assert !HostOk(g, order);
        return Err(EmptyHost(address));
      }
      if address in entries {
        Repeated(g, order, entries);
        return Err(DuplicateAddress(address));
      }
      CollectNext(g, order, entries);
      entries := entries[address := EntryAt(g, order)];
    }
    CollectedAll(g, entries);
    r := Ok(entries);
  }

  /** The last two loops: dependencies, then triggers. */
  method UnknownName(g: ResourceGraph, entries: map<string, Entry>) returns (bad: Option<GraphError>)
    requires NoDup(Addresses(g)) && entries == Table(g)
    ensures bad.Some? ==> Truthful(g, bad.value) && !WellFormed(g)
    ensures bad.None? ==> forall i :: 0 <= i < Size(g) ==> NamesKnown(g, i)
  {
    bad := UnknownDependencyOf(g, entries);
    if bad.None? {
      bad := UnknownTriggerOf(g, entries);
    }
  }

  method UnknownDependencyOf(g: ResourceGraph, entries: map<string, Entry>) returns (bad: Option<GraphError>)
    requires NoDup(Addresses(g)) && entries == Table(g)
    ensures bad.Some? ==> Truthful(g, bad.value) && !WellFormed(g)
    ensures bad.None? ==> forall i :: 0 <= i < Size(g) ==> DependenciesKnown(g, i)
  {
    for i := 0 to Size(g)
      invariant forall j :: 0 <= j < i ==> DependenciesKnown(g, j)
    {
      TableAt(g, i);
      var unknown := FirstUnknown(entries[AddressAt(g, i)].dependsOn, entries);
      if unknown.Some? {
        assert !NamesKnown(g, i);
        return Some(UnknownDependency(AddressAt(g, i), unknown.value));
      }
    }
    bad := None;
  }

  method UnknownTriggerOf(g: ResourceGraph, entries: map<string, Entry>) returns (bad: Option<GraphError>)
    requires entries == Table(g)
    requires forall i :: 0 <= i < Size(g) ==> DependenciesKnown(g, i)
    ensures bad.Some? ==> Truthful(g, bad.value) && !WellFormed(g)
    ensures bad.None? ==> forall i :: 0 <= i < Size(g) ==> NamesKnown(g, i)
  {
    for i := 0 to |g.operations|
      invariant forall j :: 0 <= j < |g.nodes| + i ==> NamesKnown(g, j)
    {
      var triggers := DedupeStrings(g.operations[i].triggeredBy);
      var unknown := FirstUnknown(triggers, entries);
      if unknown.Some? {
        assert g.operations[i] in g.operations && unknown.value in Elems(triggers);
        assert !NamesKnown(g, |g.nodes| + i);
        return Some(UnknownTrigger(g.operations[i].address, unknown.value));
      }
    }
    bad := None;
  }

  method FirstUnknown(names: seq<string>, entries: map<string, Entry>) returns (r: Option<string>)
    ensures r.None? <==> forall d :: d in names ==> d in entries
    ensures r.Some? ==> r.value in names && r.value !in entries
  {
    for j := 0 to |names|
      invariant forall i :: 0 <= i < j ==> names[i] in entries
    {
      if names[j] !in entries {
        return Some(names[j]);
      }
    }
    r := None;
  }
}
