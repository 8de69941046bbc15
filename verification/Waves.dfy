/** From the entries to the waves: which active address waits for which, and the order that follows. */
module Waves {
  import opened Wrappers
  import opened Lists
  import opened Digraph
  import opened Kahn
  import opened Acyclicity
  import opened ResourceGraphs
  import opened Schedule

  type Active = map<string, bool>
  type Aliases = map<string, string>
  type Overrides = map<string, seq<string>>

  predicate On(active: Active, a: string) { a in active && active[a] }

  /** An active address is an entry, or an alias of one. */
  function EntryFor(entries: map<string, Entry>, aliases: Aliases, a: string): Option<Entry> {
    if a in entries then Some(entries[a])
    else if a in aliases && aliases[a] != "" && aliases[a] in entries then Some(entries[aliases[a]])
    else None
  }

  /** The active addresses that a dependency list stands for: an active dependency itself, or else
      every active alias of it. */
  ghost function Resolve(deps: seq<string>, active: Active, aliases: Aliases): set<string> {
    (set d | d in deps && On(active, d))
    + (set a | a in aliases && aliases[a] in deps && aliases[a] != "" && On(active, a) && !On(active, aliases[a]))
    - {""}
  }

  /** What each active address waits for; with no active set, every address and its dependencies. */
  ghost function ActiveGraph(entries: map<string, Entry>, active: Option<Active>, aliases: Aliases, overrides: Overrides): Graph {
    match active
    case None => map a | a in entries :: Elems(entries[a].dependsOn)
    case Some(on) =>
      map a | a in on && on[a] && EntryFor(entries, aliases, a).Some? ::
        Resolve(if a in overrides then overrides[a] else EntryFor(entries, aliases, a).value.dependsOn, on, aliases)
  }

  ghost predicate AllKnown(entries: map<string, Entry>, active: Option<Active>, aliases: Aliases) {
    active.Some? ==> forall a :: On(active.value, a) ==> EntryFor(entries, aliases, a).Some?
  }

  function DepsOf(entries: map<string, Entry>): Waits { map a | a in entries :: entries[a].dependsOn }

  ghost function WholeGraph(g: ResourceGraph): Graph { GraphOf(DepsOf(Table(g))) }

  method ActiveDependencies(deps: seq<string>, active: Active, aliases: Aliases) returns (r: seq<string>)
    requires "" !in deps
    ensures NoDup(r) && Elems(r) == Resolve(deps, active, aliases)
  {
    var out: seq<string> := [];
    for i := 0 to |deps|
      invariant Elems(out) - {""} == Resolve(deps[..i], active, aliases)
    {
      var dep := deps[i];
      assert deps[..i + 1] == deps[..i] + [dep];
      ResolveNext(deps[..i], dep, active, aliases);
      if On(active, dep) {
        assert Elems(out + [dep]) == Elems(out) + {dep};
        out := out + [dep];
        continue;
      }
      var found := AliasesOf(dep, active, aliases);
      assert Elems(out + found) == Elems(out) + Elems(found);
      out := out + found;
    }
    assert deps[..|deps|] == deps;
    r := DedupeStrings(out);
  }

  lemma ResolveNext(deps: seq<string>, dep: string, active: Active, aliases: Aliases)
    requires dep != ""
    ensures Resolve(deps + [dep], active, aliases)
         == Resolve(deps, active, aliases)
            + ((if On(active, dep) then {dep} else set a | a in aliases && aliases[a] == dep && On(active, a)) - {""})
  {
  }

  lemma ResolvesActive(deps: seq<string>, active: Active, aliases: Aliases, d: string)
    requires d in deps && d != "" && On(active, d)
    ensures d in Resolve(deps, active, aliases)
  {
  }

  /** What is active and waits as its entry says has an edge to each active dependency. */
  lemma PlainEdge(entries: map<string, Entry>, active: Active, aliases: Aliases, overrides: Overrides, a: string, d: string)
    requires On(active, a) && On(active, d) && a !in overrides && a in entries && d in entries[a].dependsOn && d != ""
    ensures HasEdge(ActiveGraph(entries, Some(active), aliases, overrides), a, d)
  {
    ResolvesActive(entries[a].dependsOn, active, aliases, d);
  }

  /** The aliases of an operation, in whatever order the map yields them. */
  method AliasesOf(dep: string, active: Active, aliases: Aliases) returns (out: seq<string>)
    ensures Elems(out) == set a | a in aliases && aliases[a] == dep && On(active, a)
  {
    out := [];
    var left := aliases.Keys;
    while left != {}
      invariant left <= aliases.Keys
      invariant forall a :: a in out <==> a in aliases && a !in left && aliases[a] == dep && On(active, a)
      decreases |left|
    {
      var alias :| alias in left;
      left := left - {alias};
      if aliases[alias] == dep && On(active, alias) {
        out := out + [alias];
      }
    }
  }

  /** Resolving what is resolved already changes nothing. */
  lemma ResolveTwice(deps: seq<string>, active: Active, aliases: Aliases, again: seq<string>)
    requires Elems(again) == Resolve(deps, active, aliases)
    ensures Resolve(again, active, aliases) == Elems(again)
  {
    assert forall d :: d in again ==> d in Elems(again);
    assert forall d :: d in again ==> On(active, d) && d != "";
  }

  /** The entries of the active addresses, their dependencies resolved. */
  method ActivateEntries(entries: map<string, Entry>, active: Active, aliases: Aliases, overrides: Overrides)
    returns (r: Result<map<string, Entry>, ScheduleError>)
    requires forall a :: a in entries ==> "" !in entries[a].dependsOn
    ensures r.Ok? <==> AllKnown(entries, Some(active), aliases)
    ensures r.Err? ==> r.error.UnknownActive? && On(active, r.error.address)
                       && EntryFor(entries, aliases, r.error.address).None?
    ensures r.Ok? ==> Activated(entries, active, aliases, overrides, r.value)
  {
    var activeEntries: map<string, Entry> := map[];
    var left := active.Keys;
    while left != {}
      invariant left <= active.Keys
      invariant forall a :: a in active.Keys - left && active[a] ==> EntryFor(entries, aliases, a).Some?
      invariant activeEntries.Keys == set a | a in active.Keys - left && active[a]
      invariant forall a :: a in activeEntries ==>
        ActivatedEntry(entries, active, aliases, overrides, a, activeEntries[a])
      decreases |left|
    {
      var address :| address in left;
      left := left - {address};
      if !active[address] {
        continue;
      }
      var found := EntryFor(entries, aliases, address);
      if found.None? {
        return Err(UnknownActive(address));
      }
      var entry := found.value;
      if address in overrides {
        var deps := DedupeStrings(overrides[address]);
        entry := entry.(dependsOn := deps);
        assert "" !in deps by { assert "" !in Elems(deps); }
        ResolveDeduped(overrides[address], active, aliases);
      }
      var resolved := ActiveDependencies(entry.dependsOn, active, aliases);
      entry := entry.(item := entry.item.(address := address), dependsOn := resolved);
      activeEntries := activeEntries[address := entry];
    }
    r := Ok(activeEntries);
  }

  lemma ResolveDeduped(deps: seq<string>, active: Active, aliases: Aliases)
    ensures Resolve(Dedupe(deps), active, aliases) == Resolve(deps, active, aliases)
  {
    assert forall d :: d in Dedupe(deps) <==> d in Elems(Dedupe(deps));
    assert forall d :: d in deps <==> d in Elems(deps);
  }

  ghost predicate ActivatedEntry(entries: map<string, Entry>, active: Active, aliases: Aliases, overrides: Overrides,
                                 a: string, e: Entry) {
    && EntryFor(entries, aliases, a).Some?
    && e.item == EntryFor(entries, aliases, a).value.item.(address := a)
    && NoDup(e.dependsOn)
    && Elems(e.dependsOn)
       == Resolve(if a in overrides then overrides[a] else EntryFor(entries, aliases, a).value.dependsOn, active, aliases)
  }

  ghost predicate Activated(entries: map<string, Entry>, active: Active, aliases: Aliases, overrides: Overrides,
                            activeEntries: map<string, Entry>) {
    && (forall a :: a in activeEntries <==> On(active, a))
    && (forall a :: a in activeEntries ==> ActivatedEntry(entries, active, aliases, overrides, a, activeEntries[a]))
  }

  // ---------------------------------------------------------------- in-degrees

  lemma MirrorNew(waits: Waits, dependents: map<string, seq<string>>, a: string)
    requires AllMirrored(waits, dependents) && a !in waits
    ensures AllMirrored(waits[a := []], dependents)
  {
    forall x ensures Mirrored(waits[a := []], Dependents(dependents, x), x) {
      assert Mirrored(waits, Dependents(dependents, x), x);
    }
  }

  lemma MirrorSame(waits: Waits, out: seq<string>, a: string, deps: seq<string>, d: string, x: string)
    requires Mirrored(waits[a := deps], out, x) && x != d
    ensures Mirrored(waits[a := deps + [d]], out, x)
  {
    assert multiset(deps + [d])[x] == multiset(deps)[x];
  }

  lemma MirrorMore(waits: Waits, out: seq<string>, a: string, deps: seq<string>, d: string)
    requires Mirrored(waits[a := deps], out, d)
    ensures Mirrored(waits[a := deps + [d]], out + [a], d)
  {
    var more := waits[a := deps + [d]];
    forall b | b in more ensures multiset(out + [a])[b] == multiset(more[b])[d] {
      assert multiset(out)[b] == multiset(waits[a := deps][b])[d];
    }
  }

  lemma MirrorOne(waits: Waits, dependents: map<string, seq<string>>, a: string, deps: seq<string>, d: string)
    requires AllMirrored(waits[a := deps], dependents)
    ensures AllMirrored(waits[a := deps + [d]], dependents[d := Dependents(dependents, d) + [a]])
  {
    var more, table := waits[a := deps + [d]], dependents[d := Dependents(dependents, d) + [a]];
    forall x ensures Mirrored(more, Dependents(table, x), x) {
      assert Mirrored(waits[a := deps], Dependents(dependents, x), x);
      if x == d { MirrorMore(waits, Dependents(dependents, x), a, deps, d); }
      else { MirrorSame(waits, Dependents(dependents, x), a, deps, d, x); }
    }
  }

  /** The in-degree of every entry and the list of what waits for it. */
  method BuildTables(entries: map<string, Entry>, active: Option<Active>, aliases: Aliases)
    returns (indegree: map<string, int>, dependents: map<string, seq<string>>, ghost waits: Waits)
    requires Settable(entries, active, aliases)
    ensures waits.Keys == entries.Keys && Tables(waits, indegree, dependents)
    ensures forall a :: a in entries ==> Elems(waits[a]) == Elems(entries[a].dependsOn)
  {
    indegree, dependents, waits := map[], map[], map[];
    forall x ensures Mirrored(waits, Dependents(dependents, x), x) {}
    var left := entries.Keys;
    while left != {}
      invariant left <= entries.Keys && waits.Keys == entries.Keys - left
      invariant Tables(waits, indegree, dependents)
      invariant forall a :: a in waits ==> Elems(waits[a]) == Elems(entries[a].dependsOn)
      decreases |left|
    {
      var address :| address in left;
      left := left - {address};
      var deps := ResolvedAgain(entries, address, active, aliases);
      MirrorNew(waits, dependents, address);
      for i := 0 to |deps|
        invariant AllMirrored(waits[address := deps[..i]], dependents)
      {
        MirrorOne(waits, dependents, address, deps[..i], deps[i]);
        assert deps[..i + 1] == deps[..i] + [deps[i]];
        dependents := dependents[deps[i] := Dependents(dependents, deps[i]) + [address]];
      }
      assert deps[..|deps|] == deps;
      indegree := indegree[address := |deps|];
      waits := waits[address := deps];
    }
  }

  /** The dependencies are resolved already, so that resolving them again yields the same addresses. */
  ghost predicate Settable(entries: map<string, Entry>, active: Option<Active>, aliases: Aliases) {
    forall a :: a in entries ==>
      && "" !in entries[a].dependsOn && NoDup(entries[a].dependsOn)
      && (active.Some? ==> Resolve(entries[a].dependsOn, active.value, aliases) == Elems(entries[a].dependsOn))
  }

  method ResolvedAgain(entries: map<string, Entry>, a: string, active: Option<Active>, aliases: Aliases)
    returns (deps: seq<string>)
    requires Settable(entries, active, aliases) && a in entries
    ensures NoDup(deps) && Elems(deps) == Elems(entries[a].dependsOn)
  {
    if active.None? {
      deps := entries[a].dependsOn;
    } else {
      deps := ActiveDependencies(entries[a].dependsOn, active.value, aliases);
    }
  }

  /** What waits for nothing, in any order: the order inside a wave is settled when it is sorted. */
  method Unblocked(indegree: map<string, int>) returns (ready: seq<string>)
    ensures Listed(ready, indegree, {})
  {
    ready := [];
    var left := indegree.Keys;
    while left != {}
      invariant left <= indegree.Keys && NoDup(ready)
      invariant forall a :: a in ready <==> a in indegree && a !in left && indegree[a] == 0
      decreases |left|
    {
      var address :| address in left;
      left := left - {address};
      if indegree[address] == 0 {
        NoDupAppend(ready, address);
        ready := ready + [address];
      }
    }
  }

  // ---------------------------------------------------------------- waves

  function AddressOf(item: ScheduleItem): string { item.address }

  /** The item of an active address: its entry's, with the active dependencies in some order. */
  ghost predicate ItemOk(entries: map<string, Entry>, aliases: Aliases, g: Graph, item: ScheduleItem) {
    && item.address in g && EntryFor(entries, aliases, item.address).Some?
    && item == EntryFor(entries, aliases, item.address).value.item.(address := item.address, dependsOn := item.dependsOn)
    && NoDup(item.dependsOn) && Elems(item.dependsOn) == g[item.address]
  }

  /** A wave lists the items of one stage by address. */
  ghost predicate WaveOk(entries: map<string, Entry>, aliases: Aliases, g: Graph, stage: map<string, nat>, k: nat,
                         wave: seq<ScheduleItem>) {
    && wave != [] && StrictlyAscending(Keys(wave, AddressOf))
    && (forall a :: a in Keys(wave, AddressOf) <==> a in stage && stage[a] == k)
    && (forall i :: 0 <= i < |wave| ==> ItemOk(entries, aliases, g, wave[i]))
  }

  /** The waves are the layers of the graph: nothing is missing, repeated, too early or too late. */
  ghost predicate IsSchedule(entries: map<string, Entry>, aliases: Aliases, g: Graph, stage: map<string, nat>,
                             waves: seq<seq<ScheduleItem>>) {
    && Layered(g, stage)
    && (forall a :: a in stage ==> stage[a] < |waves|)
    && (forall k :: 0 <= k < |waves| ==> WaveOk(entries, aliases, g, stage, k, waves[k]))
  }

  /** The addresses of a wave in their order. */
  function InOrder(current: seq<string>): seq<string> { SortBy(current, Itself) }

  lemma InOrderOk(current: seq<string>)
    requires NoDup(current)
    ensures StrictlyAscending(InOrder(current)) && |InOrder(current)| == |current|
    ensures forall a :: a in InOrder(current) <==> a in current
  {
    var sorted := InOrder(current);
    SortAscending(current, Itself);
    assert Keys(sorted, Itself) == sorted;
    SameMembers(sorted, current);
    assert forall a :: a in sorted <==> a in Elems(sorted);
    SizeOfDistinct(current);
    DistinctBySize(sorted);
    AscendingWithoutRepeats(sorted);
  }

  /** The items of one wave, sorted by address. */
  method WaveItems(current: seq<string>, scheduled: map<string, Entry>, active: Option<Active>, aliases: Aliases,
                   ghost entries: map<string, Entry>, ghost g: Graph)
    returns (wave: seq<ScheduleItem>)
    requires Settable(scheduled, active, aliases) && NoDup(current)
    requires forall a :: a in current ==> Faithful(entries, aliases, g, scheduled, a)
    ensures Keys(wave, AddressOf) == InOrder(current)
    ensures forall i :: 0 <= i < |wave| ==> ItemOk(entries, aliases, g, wave[i])
  {
    var sorted := InOrder(current);
    InOrderOk(current);
    wave := [];
    for i := 0 to |sorted|
      invariant |wave| == i && forall j :: 0 <= j < i ==> wave[j].address == sorted[j]
      invariant forall j :: 0 <= j < i ==> ItemOk(entries, aliases, g, wave[j])
    {
      var address := sorted[i];
      assert address in current && Faithful(entries, aliases, g, scheduled, address);
      var deps := ResolvedAgain(scheduled, address, active, aliases);
      wave := wave + [scheduled[address].item.(dependsOn := deps)];
    }
  }

  /** The scheduled entry of `a` is its entry, waiting for what `a` waits for in the graph. */
  ghost predicate Faithful(entries: map<string, Entry>, aliases: Aliases, g: Graph, scheduled: map<string, Entry>, a: string) {
    && a in scheduled && a in g && Elems(scheduled[a].dependsOn) == g[a]
    && EntryFor(entries, aliases, a).Some?
    && scheduled[a].item == EntryFor(entries, aliases, a).value.item.(address := a)
  }

  lemma {:induction false} DistinctBySize(s: seq<string>)
    ensures |Elems(s)| == |s| ==> NoDup(s)
  {
    if s != [] {
      assert Elems(s) == {s[0]} + Elems(s[1..]);
      AtMostLength(s[1..]);
      if s[0] in s[1..] { assert Elems(s) == Elems(s[1..]); } else { DistinctBySize(s[1..]); }
      NoDupTail(s);
    }
  }

  lemma {:induction false} AtMostLength(s: seq<string>)
    ensures |Elems(s)| <= |s|
  {
    if s != [] {
      assert Elems(s) == {s[0]} + Elems(s[1..]);
      AtMostLength(s[1..]);
    }
  }

  // ---------------------------------------------------------------- the scheduler

  /** What has to hold for a schedule to exist. */
  ghost predicate Schedulable(g: ResourceGraph, active: Option<Active>, aliases: Aliases, overrides: Overrides) {
    && WellFormed(g) && Acyclic(WholeGraph(g)) && AllKnown(Table(g), active, aliases)
    && Acyclic(ActiveGraph(Table(g), active, aliases, overrides))
  }

  ghost predicate Plain(a: string, e: Entry) { NoDup(e.dependsOn) && "" !in e.dependsOn && e.item.address == a }

  lemma TableEntry(g: ResourceGraph, a: string) returns (i: nat)
    requires WellFormed(g) && a in Table(g)
    ensures i < Size(g) && AddressAt(g, i) == a && Table(g)[a] == EntryAt(g, i)
    ensures NoDup(Table(g)[a].dependsOn) && "" !in Table(g)[a].dependsOn && Table(g)[a].item.address == a
    ensures forall d :: d in Table(g)[a].dependsOn ==> d in Table(g)
    ensures Table(g)[a].item.dependsOn == []
  {
    i :| 0 <= i < |Addresses(g)| && Addresses(g)[i] == a;
    TableAt(g, i);
    assert NamesKnown(g, i);
    assert "" !in Elems(Table(g)[a].dependsOn);
  }

  lemma EveryTableEntry(g: ResourceGraph)
    requires WellFormed(g)
    ensures forall a :: a in Table(g) ==> Plain(a, Table(g)[a])
    ensures ClosedWaits(DepsOf(Table(g))) && DepsOf(Table(g)).Keys == Elems(Addresses(g))
  {
    forall a | a in Table(g)
      ensures Plain(a, Table(g)[a])
      ensures forall d :: d in Table(g)[a].dependsOn ==> d in Table(g)
    {
      var i := TableEntry(g, a);
    }
    SortedAddresses(g);
  }

  lemma SortedAddresses(g: ResourceGraph)
    ensures Elems(InOrder(Addresses(g))) == Elems(Addresses(g))
  {
    SameMembers(InOrder(Addresses(g)), Addresses(g));
  }

  /** Which entries take part: all of them, or those of the active addresses. */
  method Select(entries: map<string, Entry>, active: Option<Active>, aliases: Aliases, overrides: Overrides)
    returns (r: Result<map<string, Entry>, ScheduleError>)
    requires forall a :: a in entries ==> Plain(a, entries[a])
    ensures r.Ok? <==> AllKnown(entries, active, aliases)
    ensures r.Err? ==> r.error.UnknownActive? && active.Some? && On(active.value, r.error.address)
                       && EntryFor(entries, aliases, r.error.address).None?
    ensures r.Ok? ==>
      var g := ActiveGraph(entries, active, aliases, overrides);
      && Settable(r.value, active, aliases) && r.value.Keys == g.Keys
      && forall a :: a in g ==> Faithful(entries, aliases, g, r.value, a)
  {
    if active.None? {
      return Ok(entries);
    }
    r := ActivateEntries(entries, active.value, aliases, overrides);
    if r.Ok? {
      ActivatedSettable(entries, active.value, aliases, overrides, r.value);
    }
  }

  lemma ActivatedSettable(entries: map<string, Entry>, active: Active, aliases: Aliases, overrides: Overrides,
                          scheduled: map<string, Entry>)
    requires Activated(entries, active, aliases, overrides, scheduled) && AllKnown(entries, Some(active), aliases)
    ensures Settable(scheduled, Some(active), aliases)
    ensures var g := ActiveGraph(entries, Some(active), aliases, overrides);
      scheduled.Keys == g.Keys && forall a :: a in g ==> Faithful(entries, aliases, g, scheduled, a)
  {
    forall a | a in scheduled
      ensures NoDup(scheduled[a].dependsOn) && "" !in scheduled[a].dependsOn
      ensures Resolve(scheduled[a].dependsOn, active, aliases) == Elems(scheduled[a].dependsOn)
    {
      assert ActivatedEntry(entries, active, aliases, overrides, a, scheduled[a]);
      var deps := if a in overrides then overrides[a] else EntryFor(entries, aliases, a).value.dependsOn;
      ResolveTwice(deps, active, aliases, scheduled[a].dependsOn);
      assert "" !in Elems(scheduled[a].dependsOn);
    }
    var g := ActiveGraph(entries, Some(active), aliases, overrides);
    forall a | a in g ensures Faithful(entries, aliases, g, scheduled, a) {
      assert ActivatedEntry(entries, active, aliases, overrides, a, scheduled[a]);
    }
  }

  /** `scheduleWavesWithAliases`: an error says what is wrong, and otherwise the waves are the
      layers of the active graph. */
  method ScheduleWaves(g: ResourceGraph, active: Option<Active>, aliases: Aliases, overrides: Overrides)
    returns (r: Result<seq<seq<ScheduleItem>>, ScheduleError>, ghost stage: map<string, nat>)
    ensures r.Ok? <==> Schedulable(g, active, aliases, overrides)
    ensures r.Ok? ==> IsSchedule(Table(g), aliases, ActiveGraph(Table(g), active, aliases, overrides), stage, r.value)
    ensures r.Err? && r.error.BadGraph? ==> Truthful(g, r.error.error)
    ensures r.Err? && r.error.GraphCycle? ==> IsCycle(WholeGraph(g), r.error.path)
    ensures r.Err? && r.error.UnknownActive? ==>
      active.Some? && On(active.value, r.error.address) && EntryFor(Table(g), aliases, r.error.address).None?
    ensures r.Err? && r.error.ActiveCycle? ==> !Acyclic(ActiveGraph(Table(g), active, aliases, overrides))
  {
    stage := map[];
    var collected := ScheduleEntries(g);
    if collected.Err? {
      return Err(BadGraph(collected.error)), stage;
    }
    var entries := collected.value;
    EveryTableEntry(g);
    SortedAddresses(g);
    var cycle := ValidateAcyclic(DepsOf(entries), InOrder(Addresses(g)));
    if cycle.Some? {
      return Err(GraphCycle(cycle.value)), stage;
    }
    var selected := Select(entries, active, aliases, overrides);
    if selected.Err? {
      return Err(selected.error), stage;
    }
    ghost var graph := ActiveGraph(entries, active, aliases, overrides);
    ActiveGraphClosed(g, active, aliases, overrides);
    r, stage := LayerEntries(selected.value, active, aliases, entries, graph);
  }

  /** What an active address waits for is active. */
  lemma ActiveGraphClosed(g: ResourceGraph, active: Option<Active>, aliases: Aliases, overrides: Overrides)
    requires WellFormed(g) && AllKnown(Table(g), active, aliases)
    ensures Closed(ActiveGraph(Table(g), active, aliases, overrides))
  {
    EveryTableEntry(g);
    if active.None? {
      forall a, d | a in Table(g) && d in Table(g)[a].dependsOn ensures d in Table(g) {
        assert d in DepsOf(Table(g))[a];
      }
    }
  }

  /** From the in-degree tables on. */
  method LayerEntries(scheduled: map<string, Entry>, active: Option<Active>, aliases: Aliases,
                      ghost entries: map<string, Entry>, ghost graph: Graph)
    returns (r: Result<seq<seq<ScheduleItem>>, ScheduleError>, ghost stage: map<string, nat>)
    requires Settable(scheduled, active, aliases) && scheduled.Keys == graph.Keys && Closed(graph)
    requires forall a :: a in graph ==> Faithful(entries, aliases, graph, scheduled, a)
    ensures r.Ok? <==> Acyclic(graph)
    ensures r.Ok? ==> IsSchedule(entries, aliases, graph, stage, r.value)
    ensures r.Err? ==> r.error.ActiveCycle?
  {
    var indegree, dependents, waits := BuildTables(scheduled, active, aliases);
    WaitsGraph(scheduled, waits, entries, aliases, graph);
    var ready := Unblocked(indegree);
    var layers, emitted;
    layers, emitted, stage := Layers(indegree, dependents, ready, waits);
    if emitted != |indegree| {
      return Err(ActiveCycle), stage;
    }
    var waves := ItemWaves(layers, scheduled, active, aliases, entries, graph, stage);
    r := Ok(waves);
  }

  method ItemWaves(layers: seq<seq<string>>, scheduled: map<string, Entry>, active: Option<Active>, aliases: Aliases,
                   ghost entries: map<string, Entry>, ghost graph: Graph, ghost stage: map<string, nat>)
    returns (waves: seq<seq<ScheduleItem>>)
    requires Settable(scheduled, active, aliases) && WavesOf(layers, stage) && stage.Keys == graph.Keys
    requires forall a :: a in graph ==> Faithful(entries, aliases, graph, scheduled, a)
    ensures |waves| == |layers|
    ensures forall k :: 0 <= k < |waves| ==> WaveOk(entries, aliases, graph, stage, k, waves[k])
  {
    waves := [];
    for k := 0 to |layers|
      invariant |waves| == k
      invariant forall j {:trigger waves[j]} :: 0 <= j < k ==> WaveOk(entries, aliases, graph, stage, j, waves[j])
    {
      var wave := WaveOfLayer(layers, k, scheduled, active, aliases, entries, graph, stage);
      waves := waves + [wave];
    }
  }

  method WaveOfLayer(layers: seq<seq<string>>, k: nat, scheduled: map<string, Entry>, active: Option<Active>,
                     aliases: Aliases, ghost entries: map<string, Entry>, ghost graph: Graph, ghost stage: map<string, nat>)
    returns (wave: seq<ScheduleItem>)
    requires Settable(scheduled, active, aliases) && WavesOf(layers, stage) && stage.Keys == graph.Keys && k < |layers|
    requires forall a :: a in graph ==> Faithful(entries, aliases, graph, scheduled, a)
    ensures WaveOk(entries, aliases, graph, stage, k, wave)
  {
    forall a | a in layers[k] ensures Faithful(entries, aliases, graph, scheduled, a) { assert a in stage; }
    wave := WaveItems(layers[k], scheduled, active, aliases, entries, graph);
    WaveListsLayer(layers, stage, k, wave);
  }

  lemma WaveListsLayer(layers: seq<seq<string>>, stage: map<string, nat>, k: nat, wave: seq<ScheduleItem>)
    requires WavesOf(layers, stage) && k < |layers| && Keys(wave, AddressOf) == InOrder(layers[k])
    ensures wave != [] && StrictlyAscending(Keys(wave, AddressOf))
    ensures forall a :: a in Keys(wave, AddressOf) <==> a in stage && stage[a] == k
  {
    InOrderOk(layers[k]);
    assert |layers[k]| > 0;
  }

  lemma WaitsGraph(scheduled: map<string, Entry>, waits: Waits, entries: map<string, Entry>, aliases: Aliases, graph: Graph)
    requires scheduled.Keys == graph.Keys == waits.Keys && Closed(graph)
    requires forall a :: a in graph ==> Faithful(entries, aliases, graph, scheduled, a)
    requires forall a :: a in waits ==> Elems(waits[a]) == Elems(scheduled[a].dependsOn)
    ensures GraphOf(waits) == graph && ClosedWaits(waits)
  {
    forall a | a in waits ensures GraphOf(waits)[a] == graph[a] { assert Faithful(entries, aliases, graph, scheduled, a); }
    forall a, d | a in waits && d in waits[a] ensures d in waits { assert d in GraphOf(waits)[a]; }
  }

  // ---------------------------------------------------------------- what a schedule promises

  /** The wave that lists `a`. */
  lemma WaveOf(entries: map<string, Entry>, aliases: Aliases, g: Graph, stage: map<string, nat>,
               waves: seq<seq<ScheduleItem>>, a: string) returns (i: nat)
    requires IsSchedule(entries, aliases, g, stage, waves) && a in g
    ensures stage[a] < |waves| && i < |waves[stage[a]]| && waves[stage[a]][i].address == a
  {
    assert WaveOk(entries, aliases, g, stage, stage[a], waves[stage[a]]);
    assert a in Keys(waves[stage[a]], AddressOf);
    i :| 0 <= i < |waves[stage[a]]| && Keys(waves[stage[a]], AddressOf)[i] == a;
  }

  /** Whatever an item waits for stands in an earlier wave. */
  lemma DependenciesComeEarlier(entries: map<string, Entry>, aliases: Aliases, g: Graph, stage: map<string, nat>,
                                waves: seq<seq<ScheduleItem>>, k: nat, i: nat, d: string)
    requires IsSchedule(entries, aliases, g, stage, waves)
    requires k < |waves| && i < |waves[k]| && d in waves[k][i].dependsOn
    ensures exists j, m :: 0 <= j < k && 0 <= m < |waves[j]| && waves[j][m].address == d
  {
    assert WaveOk(entries, aliases, g, stage, k, waves[k]);
    var item := waves[k][i];
    assert ItemOk(entries, aliases, g, item);
    assert Keys(waves[k], AddressOf)[i] == item.address;
    assert item.address in Keys(waves[k], AddressOf);
    assert d in Elems(item.dependsOn);
    var m := WaveOf(entries, aliases, g, stage, waves, d);
  }

  /** The same inputs give the same addresses in the same waves in the same order; only the order in
      which an item lists its dependencies is left to map iteration. */
  lemma ScheduleDetermined(entries: map<string, Entry>, aliases: Aliases, g: Graph,
                           stage: map<string, nat>, waves: seq<seq<ScheduleItem>>,
                           other: map<string, nat>, others: seq<seq<ScheduleItem>>)
    requires IsSchedule(entries, aliases, g, stage, waves) && IsSchedule(entries, aliases, g, other, others)
    ensures |waves| == |others|
    ensures forall k :: 0 <= k < |waves| ==> SameItems(waves[k], others[k])
  {
    LayeringUnique(g, stage, other);
    SameWaves(entries, aliases, g, stage, waves, others);
    SameWaves(entries, aliases, g, stage, others, waves);
  }

  ghost predicate SameItems(wave: seq<ScheduleItem>, other: seq<ScheduleItem>) {
    && |wave| == |other|
    && forall i :: 0 <= i < |wave| ==>
      && wave[i].(dependsOn := []) == other[i].(dependsOn := [])
      && Elems(wave[i].dependsOn) == Elems(other[i].dependsOn)
  }

  lemma SameWaves(entries: map<string, Entry>, aliases: Aliases, g: Graph, stage: map<string, nat>,
                  waves: seq<seq<ScheduleItem>>, others: seq<seq<ScheduleItem>>)
    requires IsSchedule(entries, aliases, g, stage, waves) && IsSchedule(entries, aliases, g, stage, others)
    ensures |waves| <= |others|
    ensures forall k :: 0 <= k < |waves| ==> SameItems(waves[k], others[k])
  {
    if |waves| > 0 {
      var last := waves[|waves| - 1];
      assert WaveOk(entries, aliases, g, stage, |waves| - 1, last);
      assert Keys(last, AddressOf)[0] in Keys(last, AddressOf);
    }
    forall k | 0 <= k < |waves| ensures SameItems(waves[k], others[k]) {
      SameWave(entries, aliases, g, stage, k, waves[k], others[k]);
    }
  }

  lemma SameWave(entries: map<string, Entry>, aliases: Aliases, g: Graph, stage: map<string, nat>, k: nat,
                 wave: seq<ScheduleItem>, other: seq<ScheduleItem>)
    requires WaveOk(entries, aliases, g, stage, k, wave) && WaveOk(entries, aliases, g, stage, k, other)
    ensures SameItems(wave, other)
  {
    assert Elems(Keys(wave, AddressOf)) == Elems(Keys(other, AddressOf));
    AscendingUnique(Keys(wave, AddressOf), Keys(other, AddressOf));
    forall i | 0 <= i < |wave|
      ensures wave[i].(dependsOn := []) == other[i].(dependsOn := [])
      ensures Elems(wave[i].dependsOn) == Elems(other[i].dependsOn)
    {
      assert Keys(wave, AddressOf)[i] == Keys(other, AddressOf)[i];
      assert ItemOk(entries, aliases, g, wave[i]) && ItemOk(entries, aliases, g, other[i]);
    }
  }

  /** Without overrides, and with aliases that are not themselves entries, an acyclic graph has an
      acyclic active part: the count after the loop never falls short. */
  lemma NoActiveCycleWithoutOverrides(g: ResourceGraph, active: Option<Active>, aliases: Aliases)
    requires WellFormed(g) && Acyclic(WholeGraph(g)) && AllKnown(Table(g), active, aliases)
    requires aliases.Keys !! Table(g).Keys
    ensures Acyclic(ActiveGraph(Table(g), active, aliases, map[]))
    ensures Schedulable(g, active, aliases, map[])
  {
    var base := BasesMapInto(g, active, aliases);
    ImageAcyclic(ActiveGraph(Table(g), active, aliases, map[]), WholeGraph(g), base);
  }

  lemma BasesMapInto(g: ResourceGraph, active: Option<Active>, aliases: Aliases) returns (base: map<string, string>)
    requires WellFormed(g) && AllKnown(Table(g), active, aliases) && aliases.Keys !! Table(g).Keys
    ensures MapsInto(ActiveGraph(Table(g), active, aliases, map[]), WholeGraph(g), base)
  {
    var part := ActiveGraph(Table(g), active, aliases, map[]);
    forall a | a in part ensures Base(Table(g), aliases, a) in WholeGraph(g) { BaseIsEntry(g, active, aliases, a); }
    forall a, d | HasEdge(part, a, d) ensures HasEdge(WholeGraph(g), Base(Table(g), aliases, a), Base(Table(g), aliases, d)) {
      BaseEdge(g, active, aliases, a, d);
    }
    ActiveGraphClosed(g, active, aliases, map[]);
    base := BaseMap(Table(g), aliases, part, WholeGraph(g));
  }

  lemma BaseMap(entries: map<string, Entry>, aliases: Aliases, part: Graph, whole: Graph) returns (base: map<string, string>)
    requires Closed(part) && forall a :: a in part ==> Base(entries, aliases, a) in whole
    requires forall a, d :: HasEdge(part, a, d) ==> HasEdge(whole, Base(entries, aliases, a), Base(entries, aliases, d))
    ensures MapsInto(part, whole, base)
  {
    base := map a | a in part :: Base(entries, aliases, a);
    forall a, d | a in part && d in part[a] ensures d in part && HasEdge(whole, base[a], base[d]) {
      assert HasEdge(part, a, d);
    }
  }

  /** The entry that an address stands for. */
  function Base(entries: map<string, Entry>, aliases: Aliases, a: string): string {
    if a in entries || a !in aliases then a else aliases[a]
  }

  lemma BaseIsEntry(g: ResourceGraph, active: Option<Active>, aliases: Aliases, a: string)
    requires a in ActiveGraph(Table(g), active, aliases, map[])
    ensures Base(Table(g), aliases, a) in WholeGraph(g)
  {
    if active.Some? { assert EntryFor(Table(g), aliases, a).Some?; }
  }

  lemma BaseEdge(g: ResourceGraph, active: Option<Active>, aliases: Aliases, a: string, d: string)
    requires WellFormed(g) && AllKnown(Table(g), active, aliases) && aliases.Keys !! Table(g).Keys
    requires a in ActiveGraph(Table(g), active, aliases, map[])
    requires d in ActiveGraph(Table(g), active, aliases, map[])[a]
    ensures HasEdge(WholeGraph(g), Base(Table(g), aliases, a), Base(Table(g), aliases, d))
  {
    BaseIsEntry(g, active, aliases, a);
    var b := Base(Table(g), aliases, a);
    var i := TableEntry(g, b);
    var deps := Table(g)[b].dependsOn;
    assert WholeGraph(g)[b] == Elems(deps);
    if active.Some? { ResolvedBase(Table(g), deps, active.value, aliases, d); }
  }

  lemma ResolvedBase(entries: map<string, Entry>, deps: seq<string>, active: Active, aliases: Aliases, d: string)
    requires aliases.Keys !! entries.Keys && (forall x :: x in deps ==> x in entries)
    requires d in Resolve(deps, active, aliases)
    ensures Base(entries, aliases, d) in deps
  {
  }
}
