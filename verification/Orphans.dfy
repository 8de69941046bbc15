/** Steps for recorded resources that the configuration no longer has. Among them, a resource goes
    only after everything that was recorded to depend on it. */
module Orphans {
  import opened Wrappers
  import opened Lists
  import opened Digraph
  import opened Kahn
  import opened ResourceGraphs
  import opened Waves
  import opened Plans

  function RecordedDependencies(s: Step): seq<string> { if s.prior.Some? then s.prior.value.dependsOn else [] }

  function StepAddress(s: Step): string { s.address }

  function StepAddresses(steps: seq<Step>): set<string> { Elems(Keys(steps, StepAddress)) }

  /** Each orphan waits for the orphans that were recorded to depend on it. */
  ghost function OrphanGraph(steps: seq<Step>): Graph {
    map a | a in StepAddresses(steps) :: set s | s in steps && a in RecordedDependencies(s) :: s.address
  }

  predicate DistinctSteps(steps: seq<Step>) { NoDup(Keys(steps, StepAddress)) }

  lemma StepsNext(steps: seq<Step>, i: nat)
    requires i < |steps|
    ensures steps[..i + 1] == steps[..i] + [steps[i]]
    ensures StepAddresses(steps[..i + 1]) == StepAddresses(steps[..i]) + {steps[i].address}
  {
    assert Keys(steps[..i + 1], StepAddress) == Keys(steps[..i], StepAddress) + [steps[i].address];
  }

  lemma AddressesOfSteps(steps: seq<Step>, a: string)
    ensures a in StepAddresses(steps) <==> exists s :: s in steps && s.address == a
  {
    if a in StepAddresses(steps) {
      var i :| 0 <= i < |steps| && Keys(steps, StepAddress)[i] == a;
      assert steps[i] in steps;
    }
    if s :| s in steps && s.address == a {
      var i :| 0 <= i < |steps| && steps[i] == s;
      assert Keys(steps, StepAddress)[i] == a;
    }
  }

  /** The tables while they are being filled: `waits` says from one end what `dependents` says from the other. */
  ghost predicate Filling(waits: Waits, indegree: map<string, int>, dependents: map<string, seq<string>>,
                          keys: set<string>) {
    waits.Keys == keys && Tables(waits, indegree, dependents)
  }

  lemma FillOne(waits: Waits, indegree: map<string, int>, dependents: map<string, seq<string>>, keys: set<string>,
                a: string, d: string)
    requires Filling(waits, indegree, dependents, keys) && a in keys
    ensures Filling(waits[a := waits[a] + [d]], indegree[a := indegree[a] + 1],
                    dependents[d := Dependents(dependents, d) + [a]], keys)
  {
    assert waits[a := waits[a]] == waits;
    MirrorOne(waits, dependents, a, waits[a], d);
  }

  /** The dependencies recorded for one step. */
  method CountStep(step: Step, start: map<string, int>, startDependents: map<string, seq<string>>, ghost startWaits: Waits)
    returns (indegree: map<string, int>, dependents: map<string, seq<string>>, ghost waits: Waits)
    requires Filling(startWaits, start, startDependents, start.Keys)
    ensures indegree.Keys == start.Keys && Filling(waits, indegree, dependents, start.Keys)
    ensures forall a, d :: a in start ==>
      (d in waits[a] <==> d in startWaits[a] || (d == step.address && a in RecordedDependencies(step)))
  {
    indegree, dependents, waits := start, startDependents, startWaits;
    var deps := RecordedDependencies(step);
    for j := 0 to |deps|
      invariant indegree.Keys == start.Keys && Filling(waits, indegree, dependents, start.Keys)
      invariant forall a, d :: a in start ==>
        (d in waits[a] <==> d in startWaits[a] || (d == step.address && a in deps[..j]))
    {
      var dependency := deps[j];
      assert deps[..j + 1] == deps[..j] + [dependency];
      if dependency !in start {
        continue;
      }
      FillOne(waits, indegree, dependents, start.Keys, dependency, step.address);
      waits := waits[dependency := waits[dependency] + [step.address]];
      indegree := indegree[dependency := indegree[dependency] + 1];
      dependents := dependents[step.address := Dependents(dependents, step.address) + [dependency]];
    }
    assert deps[..|deps|] == deps;
  }

  /** One of the steps has address `d` and was recorded to depend on `a`. */
  ghost predicate Recorded(steps: seq<Step>, a: string, d: string) {
    exists s :: s in steps && d == s.address && a in RecordedDependencies(s)
  }

  lemma RecordedNext(steps: seq<Step>, step: Step, a: string, d: string)
    ensures Recorded(steps + [step], a, d) <==> Recorded(steps, a, d) || (d == step.address && a in RecordedDependencies(step))
  {
    if Recorded(steps, a, d) {
      var s :| s in steps && d == s.address && a in RecordedDependencies(s);
      assert s in steps + [step];
    }
    assert step in steps + [step];
  }

  method CountSteps(steps: seq<Step>)
    returns (byAddress: map<string, Step>, indegree: map<string, int>, dependents: map<string, seq<string>>, ghost waits: Waits)
    ensures byAddress.Keys == StepAddresses(steps) && forall a :: a in byAddress ==> byAddress[a] in steps && byAddress[a].address == a
    ensures Tables(waits, indegree, dependents) && indegree.Keys == StepAddresses(steps)
    ensures GraphOf(waits) == OrphanGraph(steps) && ClosedWaits(waits)
  {
    byAddress, indegree, waits := IndexSteps(steps);
    dependents := map[];
    forall x ensures Mirrored(waits, Dependents(dependents, x), x) {}
    for i := 0 to |steps|
      invariant indegree.Keys == StepAddresses(steps) && Filling(waits, indegree, dependents, indegree.Keys)
      invariant forall a, d :: a in waits ==> (d in waits[a] <==> Recorded(steps[..i], a, d))
    {
      assert steps[..i + 1] == steps[..i] + [steps[i]];
      forall a, d { RecordedNext(steps[..i], steps[i], a, d); }
      indegree, dependents, waits := CountStep(steps[i], indegree, dependents, waits);
    }
    assert steps[..|steps|] == steps;
    WaitsAreOrphanGraph(steps, waits);
  }

  lemma WaitsAreOrphanGraph(steps: seq<Step>, waits: Waits)
    requires waits.Keys == StepAddresses(steps)
    requires forall a, d :: a in waits ==> (d in waits[a] <==> Recorded(steps, a, d))
    ensures GraphOf(waits) == OrphanGraph(steps) && ClosedWaits(waits)
  {
    forall a | a in waits ensures GraphOf(waits)[a] == OrphanGraph(steps)[a] {
      forall d ensures d in waits[a] <==> d in OrphanGraph(steps)[a] { assert d in waits[a] <==> Recorded(steps, a, d); }
    }
    forall a, d | a in waits && d in waits[a] ensures d in waits {
      assert Recorded(steps, a, d);
      AddressesOfSteps(steps, d);
    }
  }

  method IndexSteps(steps: seq<Step>)
    returns (byAddress: map<string, Step>, indegree: map<string, int>, ghost waits: Waits)
    ensures byAddress.Keys == indegree.Keys == waits.Keys == StepAddresses(steps)
    ensures forall a :: a in byAddress ==> byAddress[a] in steps && byAddress[a].address == a
    ensures forall a :: a in waits ==> waits[a] == [] && indegree[a] == 0
  {
    byAddress, indegree, waits := map[], map[], map[];
    for i := 0 to |steps|
      invariant byAddress.Keys == indegree.Keys == waits.Keys == StepAddresses(steps[..i])
      invariant forall a :: a in byAddress ==> byAddress[a] in steps && byAddress[a].address == a
      invariant forall a :: a in waits ==> waits[a] == [] && indegree[a] == 0
    {
      StepsNext(steps, i);
      byAddress := byAddress[steps[i].address := steps[i]];
      indegree := indegree[steps[i].address := 0];
      waits := waits[steps[i].address := []];
    }
    assert steps[..|steps|] == steps;
  }

  /** `orphanExecutionWaves`: fails when the recorded dependencies are cyclic, or when two steps have
      the same address; otherwise the waves are the layers, each sorted by address. */
  method OrphanWaves(steps: seq<Step>) returns (r: Option<seq<seq<ExecutionItem>>>, ghost stage: map<string, nat>)
    ensures r.Some? <==> DistinctSteps(steps) && Acyclic(OrphanGraph(steps))
    ensures r.Some? ==> Layered(OrphanGraph(steps), stage) && forall a :: a in stage ==> stage[a] < |r.value|
    ensures r.Some? ==> forall k :: 0 <= k < |r.value| ==> OrphanWaveOk(steps, stage, k, r.value[k])
  {
    var byAddress, indegree, dependents, waits := CountSteps(steps);
    var ready := Unblocked(indegree);
    var layers, emitted;
    layers, emitted, stage := Layers(indegree, dependents, ready, waits);
    HowManyAddresses(steps, indegree);
    if emitted != |steps| {
      return None, stage;
    }
    var waves := OrphanItemWaves(steps, byAddress, layers, stage);
    r := Some(waves);
  }

  lemma HowManyAddresses(steps: seq<Step>, indegree: map<string, int>)
    requires indegree.Keys == StepAddresses(steps)
    ensures |indegree| <= |steps| && (|indegree| == |steps| <==> DistinctSteps(steps))
  {
    assert |indegree| == |indegree.Keys|;
    var addresses := Keys(steps, StepAddress);
    AtMostLength(addresses);
    DistinctBySize(addresses);
    if NoDup(addresses) { SizeOfDistinct(addresses); }
  }

  method OrphanItemWaves(steps: seq<Step>, byAddress: map<string, Step>, layers: seq<seq<string>>, ghost stage: map<string, nat>)
    returns (waves: seq<seq<ExecutionItem>>)
    requires WavesOf(layers, stage) && stage.Keys <= byAddress.Keys
    requires forall a :: a in byAddress ==> byAddress[a] in steps && byAddress[a].address == a
    ensures |waves| == |layers|
    ensures forall k :: 0 <= k < |waves| ==> OrphanWaveOk(steps, stage, k, waves[k])
  {
    waves := [];
    for k := 0 to |layers|
      invariant |waves| == k
      invariant forall j {:trigger waves[j]} :: 0 <= j < k ==> OrphanWaveOk(steps, stage, j, waves[j])
    {
      forall a | a in layers[k] ensures a in byAddress { assert a in stage; }
      var wave := OrphanItems(steps, byAddress, layers[k], stage, k);
      waves := waves + [wave];
    }
  }

  function ItemAddress(item: ExecutionItem): string { item.address }

  /** The items of the orphans of one stage: they carry no dependencies. */
  ghost predicate OrphanWaveOk(steps: seq<Step>, stage: map<string, nat>, k: nat, wave: seq<ExecutionItem>) {
    && StrictlyAscending(Keys(wave, ItemAddress))
    && (forall a :: a in Keys(wave, ItemAddress) <==> a in stage && stage[a] == k)
    && (forall i :: 0 <= i < |wave| ==> OrphanItemOk(steps, wave[i]))
  }

  /** The item of an orphan: for the host of its step, waiting for nothing by address, and beside others if
      the kind that is recorded may run so. */
  ghost predicate OrphanItemOk(steps: seq<Step>, item: ExecutionItem) {
    && item.ResourceItem? && item.step in steps
    && item.address == item.step.address && item.host == item.step.host && item.dependsOn == []
    && (item.safeParallel <==> item.step.prior.Some? && item.step.prior.value.kind in SAFE_PARALLEL_KINDS)
  }

  function OrphanItem(step: Step): ExecutionItem {
    var kind := if step.prior.Some? then step.prior.value.kind else "";
    ResourceItem(step.address, step.host, SafeParallelKind(kind), [], step)
  }

  method OrphanItems(steps: seq<Step>, byAddress: map<string, Step>, layer: seq<string>, ghost stage: map<string, nat>, ghost k: nat)
    returns (wave: seq<ExecutionItem>)
    requires NoDup(layer) && forall a :: a in layer <==> a in stage && stage[a] == k
    requires forall a :: a in layer ==> a in byAddress && byAddress[a] in steps && byAddress[a].address == a
    ensures OrphanWaveOk(steps, stage, k, wave)
  {
    InOrderOk(layer);
    var sorted := InOrder(layer);
    wave := [];
    for i := 0 to |sorted|
      invariant |wave| == i && forall j :: 0 <= j < i ==> wave[j].address == sorted[j] && OrphanItemOk(steps, wave[j])
    {
      assert sorted[i] in layer;
      wave := wave + [OrphanItem(byAddress[sorted[i]])];
    }
    assert Keys(wave, ItemAddress) == sorted;
  }
}
