/** From the plan to the run: the waves that are built are waves that the executor can run. */
module Execution {
  import opened Wrappers
  import opened Lists
  import opened Digraph
  import opened ResourceGraphs
  import opened Schedule
  import opened Waves
  import opened Plans
  import opened Inversion
  import opened Orphans
  import opened ExecutionWaves
  import opened Executor

  ghost predicate ListsStage(wave: seq<ExecutionItem>, stage: map<string, nat>, k: nat) {
    NoDup(Keys(wave, ItemAddress)) && forall a :: a in Keys(wave, ItemAddress) <==> a in stage && stage[a] == k
  }

  /** The item waits for what the graph says, all of it in earlier stages. */
  ghost predicate WaitsEarlier(item: ExecutionItem, stage: map<string, nat>, deps: Graph, k: nat) {
    && item.address in deps && Elems(item.dependsOn) == deps[item.address]
    && forall d :: d in deps[item.address] ==> d in stage && stage[d] < k
  }

  ghost predicate AllWaitEarlier(wave: seq<ExecutionItem>, stage: map<string, nat>, deps: Graph, k: nat) {
    forall i {:trigger wave[i]} :: 0 <= i < |wave| ==> WaitsEarlier(wave[i], stage, deps, k)
  }

  /** Each wave lists one stage of the graph. */
  ghost predicate ListStages(waves: seq<seq<ExecutionItem>>, stage: map<string, nat>, deps: Graph) {
    && stage.Keys == deps.Keys && (forall a :: a in stage ==> stage[a] < |waves|)
    && (forall k {:trigger waves[k]} :: 0 <= k < |waves| ==>
         ListsStage(waves[k], stage, k) && AllWaitEarlier(waves[k], stage, deps, k))
  }

  lemma {:induction false} ListedOnce(waves: seq<seq<ExecutionItem>>, stage: map<string, nat>, deps: Graph, n: nat)
    requires ListStages(waves, stage, deps) && n <= |waves|
    ensures NoDup(WaveAddresses(waves[..n]))
    ensures forall a :: a in WaveAddresses(waves[..n]) <==> a in stage && stage[a] < n
  {
    if n > 0 {
      ListedOnce(waves, stage, deps, n - 1);
      assert waves[..n][..n - 1] == waves[..n - 1] && waves[..n][n - 1] == waves[n - 1];
      assert ListsStage(waves[n - 1], stage, n - 1);
      NoDupJoined(WaveAddresses(waves[..n - 1]), Keys(waves[n - 1], ItemAddress));
    }
  }

  lemma ListedIsOrdered(waves: seq<seq<ExecutionItem>>, stage: map<string, nat>, deps: Graph)
    requires ListStages(waves, stage, deps) && "" !in deps
    ensures Ordered(deps, waves)
  {
    ListedOnce(waves, stage, deps, |waves|);
    assert waves[..|waves|] == waves;
    forall k | 0 <= k < |waves| ensures WaitsForAll(deps, Elems(WaveAddresses(waves[..k])), waves[k]) {
      ListedOnce(waves, stage, deps, k);
      var wave := waves[k];
      assert AllWaitEarlier(wave, stage, deps, k);
      forall i | 0 <= i < |wave| ensures WaitsFor(deps, Elems(WaveAddresses(waves[..k])), wave[i]) {
        assert WaitsEarlier(wave[i], stage, deps, k);
      }
    }
  }

  /** The stages of two graphs, one after the other. */
  ghost function Joined(first: map<string, nat>, n: nat, second: map<string, nat>): map<string, nat> {
    map a | a in first.Keys + second.Keys :: if a in first then first[a] else n + second[a]
  }

  ghost function JoinedGraph(first: Graph, second: Graph): Graph {
    map a | a in first.Keys + second.Keys :: if a in first then first[a] else second[a]
  }

  lemma JoinedLists(first: seq<seq<ExecutionItem>>, s: map<string, nat>, g: Graph,
                    second: seq<seq<ExecutionItem>>, t: map<string, nat>, h: Graph)
    requires ListStages(first, s, g) && ListStages(second, t, h) && s.Keys !! t.Keys
    ensures ListStages(first + second, Joined(s, |first|, t), JoinedGraph(g, h))
  {
    var stage, deps := Joined(s, |first|, t), JoinedGraph(g, h);
    forall k | 0 <= k < |first + second|
      ensures ListsStage((first + second)[k], stage, k) && AllWaitEarlier((first + second)[k], stage, deps, k)
    {
      if k < |first| {
        JoinedFirst(first[k], s, g, |first|, t, h, k);
      } else {
        JoinedSecond(second[k - |first|], s, g, |first|, t, h, k - |first|);
      }
    }
  }

  lemma JoinedFirst(wave: seq<ExecutionItem>, s: map<string, nat>, g: Graph, n: nat, t: map<string, nat>, h: Graph, k: nat)
    requires ListsStage(wave, s, k) && AllWaitEarlier(wave, s, g, k) && k < n && s.Keys == g.Keys && t.Keys == h.Keys
    ensures ListsStage(wave, Joined(s, n, t), k) && AllWaitEarlier(wave, Joined(s, n, t), JoinedGraph(g, h), k)
  {
    forall i | 0 <= i < |wave| ensures WaitsEarlier(wave[i], Joined(s, n, t), JoinedGraph(g, h), k) {
      assert WaitsEarlier(wave[i], s, g, k);
    }
  }

  lemma JoinedSecond(wave: seq<ExecutionItem>, s: map<string, nat>, g: Graph, n: nat, t: map<string, nat>, h: Graph, k: nat)
    requires ListsStage(wave, t, k) && AllWaitEarlier(wave, t, h, k)
    requires s.Keys == g.Keys && t.Keys == h.Keys && s.Keys !! t.Keys && forall a :: a in s ==> s[a] < n
    ensures ListsStage(wave, Joined(s, n, t), n + k) && AllWaitEarlier(wave, Joined(s, n, t), JoinedGraph(g, h), n + k)
  {
    forall i | 0 <= i < |wave| ensures WaitsEarlier(wave[i], Joined(s, n, t), JoinedGraph(g, h), n + k) {
      assert WaitsEarlier(wave[i], t, h, k);
    }
  }

  /** Orphans wait for nothing by address. */
  ghost function NoDeps(stage: map<string, nat>): Graph { map a | a in stage :: {} }

  lemma OrphansList(orphans: seq<Step>, stage: map<string, nat>, waves: seq<seq<ExecutionItem>>)
    requires OrphansLaid(orphans, stage, waves)
    ensures ListStages(waves, stage, NoDeps(stage))
  {
    forall k | 0 <= k < |waves| ensures ListsStage(waves[k], stage, k) && AllWaitEarlier(waves[k], stage, NoDeps(stage), k) {
      var wave := waves[k];
      assert OrphanWaveOk(orphans, stage, k, wave);
      AscendingHasNoRepeats(Keys(wave, ItemAddress));
      forall i | 0 <= i < |wave| ensures WaitsEarlier(wave[i], stage, NoDeps(stage), k) {
        assert OrphanItemOk(orphans, wave[i]) && Keys(wave, ItemAddress)[i] in Keys(wave, ItemAddress);
      }
    }
  }

  lemma ScheduledList(active: Steps, ops: OperationSteps, kinds: Kinds, exec: Graph, stage: map<string, nat>, waves: seq<seq<ExecutionItem>>)
    requires ScheduledLaid(active, ops, kinds, exec, stage, waves)
    ensures ListStages(waves, stage, exec)
  {
    forall k | 0 <= k < |waves| ensures ListsStage(waves[k], stage, k) && AllWaitEarlier(waves[k], stage, exec, k) {
      var wave := waves[k];
      assert ExecWaveOk(active, ops, kinds, exec, stage, k, wave);
      AscendingHasNoRepeats(Keys(wave, ItemAddress));
      forall i | 0 <= i < |wave| ensures WaitsEarlier(wave[i], stage, exec, k) {
        assert ExecItemOk(active, ops, kinds, exec, wave[i]) && Keys(wave, ItemAddress)[i] in Keys(wave, ItemAddress);
      }
    }
  }

  /** Orphans wait for nothing by address; all else waits as in the graph. */
  ghost function AllDeps(g: ResourceGraph, plan: Plan, layout: Layout): Graph {
    JoinedGraph(NoDeps(layout.orphanStage), ExecGraph(g, plan, layout.overrides))
  }

  lemma {:induction false} OrphanStepsOk(g: ResourceGraph, steps: seq<Step>)
    ensures forall s :: s in OrphanSteps(g, steps) <==> s in steps && s.address !in Known(g)
  {
    if steps != [] {
      var front, last := steps[..|steps| - 1], steps[|steps| - 1];
      OrphanStepsOk(g, front);
      assert steps == front + [last];
    }
  }

  lemma OrphanStaged(g: ResourceGraph, plan: Plan, layout: Layout, a: string)
    requires Layered(OrphanGraph(OrphanSteps(g, plan.steps)), layout.orphanStage) && a in layout.orphanStage
    ensures a !in Known(g) && exists s :: s in plan.steps && s.address == a
  {
    OrphanStepsOk(g, plan.steps);
    AddressesOfSteps(OrphanSteps(g, plan.steps), a);
  }

  lemma ScheduledAddress(g: ResourceGraph, plan: Plan, overrides: Overrides, a: string)
    requires Fits(g, plan) && WellFormed(g) && a in ExecGraph(g, plan, overrides)
    ensures a != "" && (a in Known(g) || exists o :: o in plan.operations && OperationKey(o) == a)
  {
    var ops := OperationMap(plan.operations);
    OperationMapOk(plan.operations);
    assert EntryFor(Table(g), AliasMap(ops), a).Some?;
    if a in ops {
      assert Filed(plan.operations, a, ops[a]);
      assert a in AliasMap(ops) ==> a != "";
    }
    if a in Table(g) { var i := TableEntry(g, a); }
  }

  lemma OrphansAreApart(g: ResourceGraph, plan: Plan, layout: Layout)
    requires Fits(g, plan) && WellFormed(g)
    requires Layered(OrphanGraph(OrphanSteps(g, plan.steps)), layout.orphanStage)
    ensures layout.orphanStage.Keys !! ExecGraph(g, plan, layout.overrides).Keys
    ensures "" !in layout.orphanStage && "" !in ExecGraph(g, plan, layout.overrides)
  {
    forall a | a in layout.orphanStage ensures a != "" && a !in ExecGraph(g, plan, layout.overrides) {
      OrphanStaged(g, plan, layout, a);
      if a in ExecGraph(g, plan, layout.overrides) { ScheduledAddress(g, plan, layout.overrides, a); }
    }
    if "" in ExecGraph(g, plan, layout.overrides) { ScheduledAddress(g, plan, layout.overrides, ""); }
  }

  /** The waves that `executionWaves` builds are in order: every address once, and whatever an item
      waits for in an earlier wave. */
  lemma LaidOutIsOrdered(g: ResourceGraph, plan: Plan, layout: Layout, waves: seq<seq<ExecutionItem>>)
    requires Fits(g, plan) && WellFormed(g) && LaidOut(g, plan, layout, waves)
    ensures Ordered(AllDeps(g, plan, layout), waves)
  {
    OrphansList(OrphanSteps(g, plan.steps), layout.orphanStage, layout.orphans);
    ScheduledList(StepMap(plan.steps), OperationMap(plan.operations), KindsOf(g, plan), ExecGraph(g, plan, layout.overrides),
                  layout.stage, layout.scheduled);
    OrphansAreApart(g, plan, layout);
    JoinedIsOrdered(layout.orphans, layout.orphanStage, layout.scheduled, layout.stage,
                    ExecGraph(g, plan, layout.overrides), waves);
  }

  lemma JoinedIsOrdered(first: seq<seq<ExecutionItem>>, s: map<string, nat>, second: seq<seq<ExecutionItem>>, t: map<string, nat>,
                        exec: Graph, waves: seq<seq<ExecutionItem>>)
    requires ListStages(first, s, NoDeps(s)) && ListStages(second, t, exec) && waves == first + second
    requires s.Keys !! exec.Keys && "" !in s && "" !in exec
    ensures Ordered(JoinedGraph(NoDeps(s), exec), waves)
  {
    JoinedLists(first, s, NoDeps(s), second, t, exec);
    ListedIsOrdered(waves, Joined(s, |first|, t), JoinedGraph(NoDeps(s), exec));
  }

  /** Building the waves and running them. */
  method BuildAndRun(g: ResourceGraph, plan: Plan, outcome: Outcomes)
    returns (r: Result<Option<string>, WavesError>, ran: seq<string>, ghost layout: Layout,
             ghost failed: Failures, ghost blocked: Failures)
    requires Fits(g, plan)
    ensures OverridesOk(g, plan, layout.overrides)
    ensures r.Ok? <==> Executable(g, plan, layout.overrides)
    ensures r.Err? ==> ran == []
    ensures r.Ok? ==> NoDup(ran) && r.value == FirstError(ran, outcome)
    ensures r.Ok? ==> Accounted(AllDeps(g, plan, layout), outcome, AllDeps(g, plan, layout).Keys, Elems(ran), failed, blocked)
  {
    var waves;
    waves, layout := Build(g, plan);
    if waves.Err? {
      return Err(waves.error), [], layout, map[], map[];
    }
    LaidOutIsOrdered(g, plan, layout, waves.value);
    var firstErr;
    firstErr, ran, failed, blocked := RunExecutionWaves(waves.value, outcome, AllDeps(g, plan, layout));
    r := Ok(firstErr);
  }
}
