/** What networkd is told to do after its files change: reload first, then reconfigure interfaces in the
    order of their names, then run scripts in the order of their keys, one after the other. */
module Networkd {
  import opened Wrappers
  import opened Lists
  import opened Digraph
  import opened ResourceGraphs
  import opened Schedule
  import opened Waves

  datatype ScriptRef = ScriptRef(scope: string, name: string, declaration: string)

  datatype Activation = Activation(reconfigure: seq<string>, postReload: Option<ScriptRef>)

  /** A script to run after the reload, and the files that trigger it. */
  datatype Group = Group(component: string, name: string, declaration: string, triggers: seq<string>)

  type Reconfigure = map<string, seq<string>>

  type PostReload = map<string, Group>

  function TriggersOf(reconfigure: Reconfigure, name: string): seq<string> { if name in reconfigure then reconfigure[name] else [] }

  function GroupTriggers(groups: PostReload, key: string): seq<string> { if key in groups then groups[key].triggers else [] }

  function KeyOf(r: ScriptRef, component: string): string {
    var key := r.scope + ":" + r.declaration;
    if r.scope == "component" then component + ":" + key else key
  }

  function NamedBy(activation: Option<Activation>, n: string, address: string): set<string> {
    if activation.Some? && n in activation.value.reconfigure then {address} else {}
  }

  /** `collectNetworkdActivation`: the file becomes a trigger of every interface it names, and of its script. */
  method Collect(activation: Option<Activation>, address: string, component: string, startReconfigure: Reconfigure, startPost: PostReload)
    returns (ok: bool, reconfigure: Reconfigure, postReload: PostReload)
    ensures ok <==> !(activation.Some? && activation.value.postReload.Some? && activation.value.postReload.value.declaration == "")
    ensures forall n :: Elems(TriggersOf(reconfigure, n)) == Elems(TriggersOf(startReconfigure, n)) + NamedBy(activation, n, address)
    ensures activation.Some? && activation.value.postReload.Some? && ok ==>
      var key := KeyOf(activation.value.postReload.value, component);
      key in postReload && postReload - {key} == startPost - {key}
      && postReload[key].triggers == GroupTriggers(startPost, key) + [address]
    ensures activation.None? || activation.value.postReload.None? || !ok ==> postReload == startPost
  {
    reconfigure, postReload := startReconfigure, startPost;
    if activation.None? {
      return true, reconfigure, postReload;
    }
    reconfigure := CollectInterfaces(activation.value.reconfigure, address, startReconfigure);
    if activation.value.postReload.None? {
      return true, reconfigure, postReload;
    }
    var r := activation.value.postReload.value;
    if r.declaration == "" {
      return false, reconfigure, postReload;
    }
    var key := KeyOf(r, component);
    var group := if key in postReload then postReload[key]
                 else Group(if r.scope == "root" then "" else component, r.name, r.declaration, []);
    postReload := postReload[key := group.(triggers := group.triggers + [address])];
    ok := true;
  }

  method CollectInterfaces(names: seq<string>, address: string, start: Reconfigure) returns (reconfigure: Reconfigure)
    ensures forall n :: Elems(TriggersOf(reconfigure, n)) == Elems(TriggersOf(start, n)) + (if n in names then {address} else {})
  {
    reconfigure := start;
    for i := 0 to |names|
      invariant forall n :: Elems(TriggersOf(reconfigure, n)) == Elems(TriggersOf(start, n)) + (if n in names[..i] then {address} else {})
    {
      assert names[..i + 1] == names[..i] + [names[i]];
      ghost var before := reconfigure;
      reconfigure := reconfigure[names[i] := TriggersOf(reconfigure, names[i]) + [address]];
      assert Elems(TriggersOf(before, names[i]) + [address]) == Elems(TriggersOf(before, names[i])) + {address};
      assert forall n :: n != names[i] ==> TriggersOf(reconfigure, n) == TriggersOf(before, n);
    }
    assert names[..|names|] == names;
  }

  // ---------------------------------------------------------------- operations

  /** An operation under address `a` waits for `d`. */
  predicate WaitsOn(operations: seq<Operation>, a: string, d: string) {
    exists op :: op in operations && op.address == a && d in op.dependsOn
  }

  /** Every address of the chain waits for all that come before it. */
  ghost predicate Chained(operations: seq<Operation>, chain: seq<string>) {
    && "" !in chain
    && forall i, j {:trigger WaitsOn(operations, chain[j], chain[i])} :: 0 <= i < j < |chain| ==> WaitsOn(operations, chain[j], chain[i])
  }

  /** All that was waited for still is. */
  ghost predicate KeepsWaits(before: seq<Operation>, after: seq<Operation>) {
    forall a, d {:trigger WaitsOn(after, a, d)} {:trigger WaitsOn(before, a, d)} :: WaitsOn(before, a, d) && d != "" ==> WaitsOn(after, a, d)
  }

  lemma WaitsAppend(operations: seq<Operation>, op: Operation)
    ensures KeepsWaits(operations, operations + [op])
    ensures forall d :: d in op.dependsOn ==> WaitsOn(operations + [op], op.address, d)
  {
    forall a, d | WaitsOn(operations, a, d) ensures WaitsOn(operations + [op], a, d) {
      var o :| o in operations && o.address == a && d in o.dependsOn;
      assert o in operations + [op];
    }
    assert op in operations + [op];
  }

  lemma WaitsReplace(operations: seq<Operation>, i: nat, op: Operation)
    requires i < |operations| && op.address == operations[i].address
    requires forall d :: d in operations[i].dependsOn && d != "" ==> d in op.dependsOn
    ensures KeepsWaits(operations, operations[i := op])
    ensures forall d :: d in op.dependsOn ==> WaitsOn(operations[i := op], op.address, d)
  {
    var more := operations[i := op];
    forall a, d | WaitsOn(operations, a, d) && d != "" ensures WaitsOn(more, a, d) {
      var j :| 0 <= j < |operations| && operations[j].address == a && d in operations[j].dependsOn;
      assert more[j] in more;
    }
    assert more[i] == op && op in more;
  }

  lemma ChainNext(before: seq<Operation>, after: seq<Operation>, chain: seq<string>, a: string)
    requires Chained(before, chain) && KeepsWaits(before, after) && a != ""
    requires forall d :: d in chain ==> WaitsOn(after, a, d)
    ensures Chained(after, chain + [a])
  {
    var more := chain + [a];
    forall i, j | 0 <= i < j < |more| ensures WaitsOn(after, more[j], more[i]) {
      assert chain[i] in chain;
      if j < |chain| { assert WaitsOn(before, chain[j], chain[i]); }
    }
  }

  /** The addresses of interfaces and scripts are worked out from names that this model does not look into. */
  type AddressOf = string -> string

  function Named(names: seq<string>, addressOf: AddressOf): (r: seq<string>)
    ensures |r| == |names| && forall i :: 0 <= i < |r| ==> r[i] == addressOf(names[i])
  {
    seq(|names|, i requires 0 <= i < |names| => addressOf(names[i]))
  }

  /** A new operation that waits for the whole chain extends it. */
  lemma ChainGrows(start: seq<Operation>, operations: seq<Operation>, chain: seq<string>, op: Operation)
    requires Chained(operations, chain) && KeepsWaits(start, operations) && op.address != "" && op.dependsOn == Dedupe(chain)
    ensures Chained(operations + [op], chain + [op.address]) && KeepsWaits(start, operations + [op])
  {
    WaitsAppend(operations, op);
    forall d | d in chain ensures WaitsOn(operations + [op], op.address, d) { DedupeHas(chain, d); }
    ChainNext(operations, operations + [op], chain, op.address);
    forall a, d | WaitsOn(start, a, d) && d != "" ensures WaitsOn(operations + [op], a, d) { assert WaitsOn(operations, a, d); }
  }

  /** The interfaces `names` have been appended to `start`, behind the reload. */
  ghost predicate Appended(start: seq<Operation>, operations: seq<Operation>, added: seq<Operation>, reload: string,
                           addresses: seq<string>, names: seq<string>, triggers: Reconfigure, addressOf: AddressOf) {
    && addresses == Named(names, addressOf) && |added| == |names| && operations == start + added
    && Chained(operations, [reload] + addresses) && KeepsWaits(start, operations)
    && forall k :: 0 <= k < |names| ==>
         names[k] in triggers && added[k].address == addresses[k] && added[k].triggeredBy == Dedupe(triggers[names[k]])
  }

  lemma AppendedNext(start: seq<Operation>, operations: seq<Operation>, added: seq<Operation>, reload: string, addresses: seq<string>,
                     names: seq<string>, triggers: Reconfigure, addressOf: AddressOf, name: string, op: Operation)
    requires Appended(start, operations, added, reload, addresses, names, triggers, addressOf) && name in triggers
    requires op.address == addressOf(name) != "" && op.dependsOn == Dedupe([reload] + addresses) && op.triggeredBy == Dedupe(triggers[name])
    ensures Appended(start, operations + [op], added + [op], reload, addresses + [op.address], names + [name], triggers, addressOf)
  {
    ChainGrows(start, operations, [reload] + addresses, op);
    assert [reload] + addresses + [op.address] == [reload] + (addresses + [op.address]);
    assert operations + [op] == start + (added + [op]);
    assert addresses + [op.address] == Named(names + [name], addressOf);
  }

  /** One operation for each interface, by name, each after the reload and all those before it. */
  method AppendReconfigure(host: string, reload: string, triggers: Reconfigure, addressOf: AddressOf, start: seq<Operation>)
    returns (operations: seq<Operation>, addresses: seq<string>, ghost names: seq<string>, ghost added: seq<Operation>)
    requires reload != "" && forall n :: addressOf(n) != ""
    ensures StrictlyAscending(names) && (forall n :: n in names <==> n in triggers) && addresses == Named(names, addressOf)
    ensures Chained(operations, [reload] + addresses) && KeepsWaits(start, operations)
    ensures operations == start + added && |added| == |names|
    ensures forall k :: 0 <= k < |names| ==> added[k].address == addresses[k] && added[k].triggeredBy == Dedupe(triggers[names[k]])
  {
    var sorted := SortedSet(triggers.Keys);
    names := sorted;
    operations, addresses, added := start, [], [];
    for k := 0 to |sorted|
      invariant Appended(start, operations, added, reload, addresses, sorted[..k], triggers, addressOf)
    {
      var name := sorted[k];
      assert name in sorted;
      var op := Operation(addressOf(name), host, Dedupe([reload] + addresses), Dedupe(triggers[name]), false, None);
      AppendedNext(start, operations, added, reload, addresses, sorted[..k], triggers, addressOf, name, op);
      operations, addresses, added := operations + [op], addresses + [op.address], added + [op];
      assert sorted[..k + 1] == sorted[..k] + [name];
    }
    assert sorted[..|sorted|] == sorted;
  }

  /** The index of the first operation under an address. */
  method OperationIndex(operations: seq<Operation>, address: string) returns (index: int)
    ensures index == -1 ==> forall op :: op in operations ==> op.address != address
    ensures index != -1 ==> 0 <= index < |operations| && operations[index].address == address
    ensures index != -1 ==> forall j :: 0 <= j < index ==> operations[j].address != address
  {
    for i := 0 to |operations|
      invariant forall j :: 0 <= j < i ==> operations[j].address != address
    {
      if operations[i].address == address {
        return i;
      }
    }
    index := -1;
  }

  /** One script: a new operation, or one that is there already gets the triggers and the predecessors. */
  method AppendPostReload(host: string, group: Group, address: string, chain: seq<string>, start: seq<Operation>)
    returns (operations: seq<Operation>)
    requires Chained(start, chain) && address != ""
    ensures Chained(operations, chain + [address]) && KeepsWaits(start, operations)
    ensures exists op :: op in operations && op.address == address && forall t :: t in group.triggers && t != "" ==> t in op.triggeredBy
  {
    var index := OperationIndex(start, address);
    if index >= 0 {
      var op := start[index];
      var deps := op.dependsOn + chain;
      op := op.(triggeredBy := Dedupe(op.triggeredBy + group.triggers), dependsOn := Dedupe(deps));
      forall d ensures d in op.dependsOn <==> d in deps && d != "" { DedupeHas(deps, d); }
      WaitsReplace(start, index, op);
      operations := start[index := op];
      forall t ensures t in op.triggeredBy <==> t in start[index].triggeredBy + group.triggers && t != "" {
        DedupeHas(start[index].triggeredBy + group.triggers, t);
      }
      assert operations[index] == op;
    } else {
      var deps := chain + group.triggers;
      var op := Operation(address, host, Dedupe(deps), Dedupe(group.triggers), false, None);
      forall d ensures d in op.dependsOn <==> d in deps && d != "" { DedupeHas(deps, d); }
      forall t ensures t in op.triggeredBy <==> t in group.triggers && t != "" { DedupeHas(group.triggers, t); }
      WaitsAppend(start, op);
      operations := start + [op];
      assert op in operations;
    }
    ChainNext(start, operations, chain, address);
  }

  /** All scripts, by key. `scriptAddress` has no address for a script that is not declared. */
  method AppendPostReloads(host: string, groups: PostReload, after: seq<string>, scriptAddress: Group -> Option<string>, start: seq<Operation>)
    returns (r: Option<seq<Operation>>, addresses: seq<string>, ghost keys: seq<string>)
    requires Chained(start, after) && forall g: Group :: scriptAddress(g) != Some("")
    ensures StrictlyAscending(keys) && forall k :: k in keys <==> k in groups
    ensures r.Some? <==> forall k :: k in groups ==> scriptAddress(groups[k]).Some?
    ensures r.Some? ==> |addresses| == |keys| && forall i :: 0 <= i < |keys| ==> Some(addresses[i]) == scriptAddress(groups[keys[i]])
    ensures r.Some? ==> Chained(r.value, after + addresses) && KeepsWaits(start, r.value)
  {
    var sorted := SortedSet(groups.Keys);
    keys := sorted;
    var operations := start;
    addresses := [];
    assert after + [] == after;
    for i := 0 to |sorted|
      invariant |addresses| == i && forall j :: 0 <= j < i ==> sorted[j] in groups && Some(addresses[j]) == scriptAddress(groups[sorted[j]])
      invariant Chained(operations, after + addresses) && KeepsWaits(start, operations)
    {
      assert sorted[i] in sorted;
      var group := groups[sorted[i]];
      var address := scriptAddress(group);
      if address.None? {
        return None, addresses, keys;
      }
      ghost var before := operations;
      operations := AppendPostReload(host, group, address.value, after + addresses, operations);
      assert after + (addresses + [address.value]) == (after + addresses) + [address.value];
      addresses := addresses + [address.value];
    }
    r := Some(operations);
  }

  /** The chain that a host gets: the reload, the interfaces, the scripts. */
  method AppendActivation(host: string, reload: string, triggers: Reconfigure, groups: PostReload, addressOf: AddressOf,
                          scriptAddress: Group -> Option<string>, start: seq<Operation>)
    returns (r: Option<seq<Operation>>, ghost chain: seq<string>)
    requires reload != "" && (forall n :: addressOf(n) != "") && forall g: Group :: scriptAddress(g) != Some("")
    ensures r.Some? <==> forall k :: k in groups ==> scriptAddress(groups[k]).Some?
    ensures r.Some? ==> Chained(r.value, chain) && KeepsWaits(start, r.value)
    ensures r.Some? ==> exists names, keys, scripts ::
      && StrictlyAscending(names) && (forall n :: n in names <==> n in triggers)
      && StrictlyAscending(keys) && (forall k :: k in keys <==> k in groups) && |scripts| == |keys|
      && (forall i :: 0 <= i < |keys| ==> Some(scripts[i]) == scriptAddress(groups[keys[i]]))
      && chain == [reload] + Named(names, addressOf) + scripts
  {
    var operations, interfaces, names, added := AppendReconfigure(host, reload, triggers, addressOf, start);
    var scripts;
    ghost var keys;
    r, scripts, keys := AppendPostReloads(host, groups, [reload] + interfaces, scriptAddress, operations);
    chain := [reload] + interfaces + scripts;
  }

  // ---------------------------------------------------------------- order

  /** Whichever of the chain are active: of any two, the earlier one is in an earlier wave, so that none
      share a wave. */
  lemma ChainIsInOrder(g: ResourceGraph, active: Active, aliases: Aliases, overrides: Overrides, stage: map<string, nat>,
                       chain: seq<string>, i: nat, j: nat)
    requires WellFormed(g) && Chained(g.operations, chain) && i < j < |chain|
    requires Staged(ActiveGraph(Table(g), Some(active), aliases, overrides), stage)
    requires On(active, chain[i]) && On(active, chain[j]) && chain[j] !in overrides
    ensures chain[i] in stage && chain[j] in stage && stage[chain[i]] < stage[chain[j]]
  {
    ChainWaits(g, chain, i, j);
    PlainEdge(Table(g), active, aliases, overrides, chain[j], chain[i]);
    EdgeFalls(ActiveGraph(Table(g), Some(active), aliases, overrides), stage, chain[j], chain[i]);
  }

  lemma ChainWaits(g: ResourceGraph, chain: seq<string>, i: nat, j: nat)
    requires WellFormed(g) && Chained(g.operations, chain) && i < j < |chain|
    ensures chain[i] != "" && chain[j] in Table(g) && chain[i] in Table(g)[chain[j]].dependsOn
  {
    assert WaitsOn(g.operations, chain[j], chain[i]) && chain[i] in chain;
    TableWaits(g, chain[j], chain[i]);
  }

  lemma TableWaits(g: ResourceGraph, a: string, d: string)
    requires WellFormed(g) && WaitsOn(g.operations, a, d) && d != ""
    ensures a in Table(g) && d in Table(g)[a].dependsOn
  {
    var op :| op in g.operations && op.address == a && d in op.dependsOn;
    OperationInTable(g, op);
    DedupeHas(op.dependsOn, d);
  }
}
