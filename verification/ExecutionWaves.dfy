/** The waves in which a plan is executed: orphans first, then the active part of the graph. */
module ExecutionWaves {
  import opened Wrappers
  import opened Lists
  import opened Digraph
  import opened ResourceGraphs
  import opened Schedule
  import opened Waves
  import opened Plans
  import opened Inversion
  import opened Orphans

  datatype WavesError = Unscheduled(error: ScheduleError) | OrphanCycle

  /** The steps by address; a later one replaces an earlier one. */
  function StepMap(steps: seq<Step>): Steps {
    if steps == [] then map[] else
      var last := steps[|steps| - 1];
      StepMap(steps[..|steps| - 1])[last.address := last]
  }

  function OperationKey(o: OperationStep): string { if o.address == "" then o.operation.address else o.address }

  function OperationMap(operations: seq<OperationStep>): OperationSteps {
    if operations == [] then map[] else
      var last := operations[|operations| - 1];
      OperationMap(operations[..|operations| - 1])[OperationKey(last) := last.(address := OperationKey(last))]
  }

  lemma {:induction false} StepMapOk(steps: seq<Step>)
    ensures StepMap(steps).Keys == StepAddresses(steps)
    ensures forall a :: a in StepMap(steps) ==> StepMap(steps)[a] in steps && StepMap(steps)[a].address == a
  {
    if steps != [] {
      var front := steps[..|steps| - 1];
      StepMapOk(front);
      StepsNext(steps, |steps| - 1);
      assert steps[..|steps|] == steps;
      assert forall s :: s in front ==> s in steps;
    }
  }

  /** One of the operation steps is filed under `a`. */
  ghost predicate Filed(operations: seq<OperationStep>, a: string, step: OperationStep) {
    exists o :: o in operations && OperationKey(o) == a && step == o.(address := a)
  }

  lemma {:induction false} OperationMapOk(operations: seq<OperationStep>)
    ensures forall a :: a in OperationMap(operations) ==> Filed(operations, a, OperationMap(operations)[a])
    ensures forall o :: o in operations ==> OperationKey(o) in OperationMap(operations)
  {
    if operations != [] {
      var front, last := operations[..|operations| - 1], operations[|operations| - 1];
      OperationMapOk(front);
      assert operations == front + [last];
      forall a | a in OperationMap(operations) ensures Filed(operations, a, OperationMap(operations)[a]) {
        if a != OperationKey(last) {
          assert Filed(front, a, OperationMap(front)[a]);
          var o :| o in front && OperationKey(o) == a && OperationMap(front)[a] == o.(address := a);
          assert o in operations;
        } else {
          assert last in operations;
        }
      }
    }
  }

  method ActiveStepMap(plan: Plan) returns (out: Steps)
    ensures out == StepMap(plan.steps)
  {
    out := map[];
    for i := 0 to |plan.steps|
      invariant out == StepMap(plan.steps[..i])
    {
      assert plan.steps[..i + 1][..i] == plan.steps[..i];
      out := out[plan.steps[i].address := plan.steps[i]];
    }
    assert plan.steps[..|plan.steps|] == plan.steps;
  }

  method ActiveOperationMap(plan: Plan) returns (out: OperationSteps)
    ensures out == OperationMap(plan.operations)
  {
    out := map[];
    for i := 0 to |plan.operations|
      invariant out == OperationMap(plan.operations[..i])
    {
      var step := plan.operations[i];
      assert plan.operations[..i + 1][..i] == plan.operations[..i];
      var address := step.address;
      if address == "" {
        address := step.operation.address;
      }
      step := step.(address := address);
      out := out[address := step];
    }
    assert plan.operations[..|plan.operations|] == plan.operations;
  }

  function Known(g: ResourceGraph): set<string> { Elems(Addresses(g)) }

  /** The steps that the graph has no address for, in their order. */
  function OrphanSteps(g: ResourceGraph, steps: seq<Step>): seq<Step> {
    if steps == [] then [] else
      var last := steps[|steps| - 1];
      OrphanSteps(g, steps[..|steps| - 1]) + (if last.address in Known(g) then [] else [last])
  }

  /** What is scheduled: the steps that the graph knows, and the operations. */
  function ActiveSet(g: ResourceGraph, plan: Plan): Active {
    map a | a in StepAddresses(plan.steps) * Known(g) + OperationMap(plan.operations).Keys :: true
  }

  /** Operations that run under an address of their own, each with the operation it is a run of. */
  function AliasMap(ops: OperationSteps): Aliases {
    map a | a in ops && IsAlias(ops, a) :: ops[a].operation.address
  }

  /** What active steps and aliases wait for, before it is resolved to active addresses. */
  ghost predicate OverridesOk(g: ResourceGraph, plan: Plan, overrides: Overrides) {
    var active, ops := StepMap(plan.steps), OperationMap(plan.operations);
    && overrides.Keys == active.Keys + AliasMap(ops).Keys
    && (forall a :: a in AliasMap(ops) ==> overrides[a] == ops[a].operation.dependsOn)
    && (forall a, d :: a in active && a !in AliasMap(ops) ==> (d in overrides[a] <==> Edge(active, ops, g.nodes, a, d)))
  }

  type Kinds = map<string, ScheduleItem>

  /** What the graph says of each active address, or of the operation it is a run of. */
  function KindsOf(g: ResourceGraph, plan: Plan): Kinds {
    map a | a in ActiveSet(g, plan) && EntryFor(Table(g), AliasMap(OperationMap(plan.operations)), a).Some? ::
      EntryFor(Table(g), AliasMap(OperationMap(plan.operations)), a).value.item
  }

  /** The graph that is executed. */
  ghost function ExecGraph(g: ResourceGraph, plan: Plan, overrides: Overrides): Graph {
    ActiveGraph(Table(g), Some(ActiveSet(g, plan)), AliasMap(OperationMap(plan.operations)), overrides)
  }

  /** Steps are about resources and operation steps about operations, under different addresses. */
  ghost predicate Fits(g: ResourceGraph, plan: Plan) {
    && (forall s, i :: s in plan.steps && 0 <= i < |g.operations| ==> s.address != g.operations[i].address)
    && (forall o, i :: o in plan.operations && 0 <= i < |g.nodes| ==>
         OperationKey(o) != g.nodes[i].address && o.operation.address != g.nodes[i].address)
    && (forall s, o :: s in plan.steps && o in plan.operations ==> s.address != OperationKey(o))
    && (forall s :: s in plan.steps ==> s.address != "")
  }

  /** The item of an active address: its step or operation, with what the address waits for. */
  ghost predicate ExecItemOk(active: Steps, ops: OperationSteps, kinds: Kinds, exec: Graph, item: ExecutionItem) {
    && item.address in kinds && item.address in exec && NoDup(item.dependsOn) && Elems(item.dependsOn) == exec[item.address]
    && if item.address in ops
       then item.OperationItem? && item.operation == ops[item.address] && item.host == kinds[item.address].host
       else item.ResourceItem? && item.address in active && item.step == active[item.address]
            && item.host == item.step.host && item.safeParallel == kinds[item.address].safeParallel
  }

  /** One wave: exactly the addresses of one stage, by address. */
  ghost predicate ExecWaveOk(active: Steps, ops: OperationSteps, kinds: Kinds, exec: Graph, stage: map<string, nat>, k: nat, wave: seq<ExecutionItem>) {
    && StrictlyAscending(Keys(wave, ItemAddress))
    && (forall a :: a in Keys(wave, ItemAddress) <==> a in stage && stage[a] == k)
    && (forall i :: 0 <= i < |wave| ==> ExecItemOk(active, ops, kinds, exec, wave[i]))
  }

  /** What `executionWaves` builds: the waves of the orphans, then those of the graph. */
  datatype Layout = Layout(
    overrides: Overrides, orphanStage: map<string, nat>, orphans: seq<seq<ExecutionItem>>,
    stage: map<string, nat>, scheduled: seq<seq<ExecutionItem>>)

  ghost predicate OrphansLaid(orphans: seq<Step>, stage: map<string, nat>, waves: seq<seq<ExecutionItem>>) {
    && Layered(OrphanGraph(orphans), stage) && (forall a :: a in stage ==> stage[a] < |waves|)
    && (forall k {:trigger waves[k]} :: 0 <= k < |waves| ==> OrphanWaveOk(orphans, stage, k, waves[k]))
  }

  ghost predicate ScheduledLaid(active: Steps, ops: OperationSteps, kinds: Kinds, exec: Graph, stage: map<string, nat>, waves: seq<seq<ExecutionItem>>) {
    && Layered(exec, stage) && (forall a :: a in stage ==> stage[a] < |waves|)
    && (forall k {:trigger waves[k]} :: 0 <= k < |waves| ==> ExecWaveOk(active, ops, kinds, exec, stage, k, waves[k]))
  }

  ghost predicate LaidOut(g: ResourceGraph, plan: Plan, layout: Layout, waves: seq<seq<ExecutionItem>>) {
    && waves == layout.orphans + layout.scheduled
    && OrphansLaid(OrphanSteps(g, plan.steps), layout.orphanStage, layout.orphans)
    && ScheduledLaid(StepMap(plan.steps), OperationMap(plan.operations), KindsOf(g, plan), ExecGraph(g, plan, layout.overrides),
                     layout.stage, layout.scheduled)
  }

  /** When there are waves to execute the plan in. */
  ghost predicate Executable(g: ResourceGraph, plan: Plan, overrides: Overrides) {
    var orphans := OrphanSteps(g, plan.steps);
    && Schedulable(g, Some(ActiveSet(g, plan)), AliasMap(OperationMap(plan.operations)), overrides)
    && (orphans != [] ==> DistinctSteps(orphans) && Acyclic(OrphanGraph(orphans)))
  }

  method SplitSteps(g: ResourceGraph, plan: Plan) returns (activeAddresses: set<string>, orphans: seq<Step>)
    ensures orphans == OrphanSteps(g, plan.steps)
    ensures activeAddresses == StepAddresses(plan.steps) * Known(g)
  {
    var known := Known(g);
    activeAddresses, orphans := {}, [];
    for i := 0 to |plan.steps|
      invariant orphans == OrphanSteps(g, plan.steps[..i])
      invariant activeAddresses == StepAddresses(plan.steps[..i]) * Known(g)
    {
      StepsNext(plan.steps, i);
      assert plan.steps[..i + 1][..i] == plan.steps[..i];
      if plan.steps[i].address in known {
        activeAddresses := activeAddresses + {plan.steps[i].address};
      } else {
        orphans := orphans + [plan.steps[i]];
      }
    }
    assert plan.steps[..|plan.steps|] == plan.steps;
  }

  predicate IsAlias(ops: OperationSteps, a: string) { a in ops && a != ops[a].operation.address }

  /** The tables once the operations in `done` have been added. */
  ghost predicate Added(ops: OperationSteps, done: set<string>, start: Overrides, aliases: Aliases, overrides: Overrides) {
    && (forall a :: a in aliases <==> a in done && IsAlias(ops, a))
    && (forall a :: a in aliases ==> aliases[a] == ops[a].operation.address)
    && (forall a :: a in overrides <==> a in start || a in aliases)
    && (forall a :: a in overrides ==> overrides[a] == if a in aliases then ops[a].operation.dependsOn else start[a])
  }

  lemma AddedNext(ops: OperationSteps, done: set<string>, start: Overrides, aliases: Aliases, overrides: Overrides, a: string)
    requires Added(ops, done, start, aliases, overrides) && a in ops && a !in done
    ensures if IsAlias(ops, a)
      then Added(ops, done + {a}, start, aliases[a := ops[a].operation.address], overrides[a := ops[a].operation.dependsOn])
      else Added(ops, done + {a}, start, aliases, overrides)
  {
  }

  /** Operation steps with an address of their own become aliases, with their own dependencies. */
  method AddOperations(ops: OperationSteps, start: Overrides) returns (aliases: Aliases, overrides: Overrides)
    ensures Added(ops, ops.Keys, start, aliases, overrides)
  {
    aliases, overrides := map[], start;
    var left := ops.Keys;
    ghost var done: set<string> := {};
    while left != {}
      invariant left !! done && left + done == ops.Keys
      invariant Added(ops, done, start, aliases, overrides)
      decreases left
    {
      var address :| address in left;
      left := left - {address};
      var step := ops[address];
      AddedNext(ops, done, start, aliases, overrides, address);
      done := done + {address};
      if address != step.operation.address {
        aliases := aliases[address := step.operation.address];
        overrides := overrides[address := step.operation.dependsOn];
      }
    }
  }

  /** `executionWaves` */
  method Build(g: ResourceGraph, plan: Plan) returns (r: Result<seq<seq<ExecutionItem>>, WavesError>, ghost layout: Layout)
    requires Fits(g, plan)
    ensures OverridesOk(g, plan, layout.overrides)
    ensures r.Ok? <==> Executable(g, plan, layout.overrides)
    ensures r.Ok? ==> LaidOut(g, plan, layout, r.value)
  {
    var activeAddresses, orphans := SplitSteps(g, plan);
    var aliases, overrides := BuildOverrides(g, plan);
    var rest, stage := ScheduledPart(g, plan, activeAddresses, aliases, overrides);
    layout := Layout(overrides, map[], [], stage, []);
    if rest.Err? {
      return Err(Unscheduled(rest.error)), layout;
    }
    var first, orphanStage := OrphanPart(orphans);
    if first.None? {
      return Err(OrphanCycle), layout;
    }
    layout := Layout(overrides, orphanStage, first.value, stage, rest.value);
    r := Ok(first.value + rest.value);
  }

  method BuildOverrides(g: ResourceGraph, plan: Plan) returns (aliases: Aliases, overrides: Overrides)
    ensures aliases == AliasMap(OperationMap(plan.operations)) && OverridesOk(g, plan, overrides)
  {
    var active := ActiveStepMap(plan);
    var ops := ActiveOperationMap(plan);
    var stepOverrides := ActiveDependencyOverrides(g, active, ops);
    aliases, overrides := AddOperations(ops, stepOverrides);
    StepMapOk(plan.steps);
  }

  method OrphanPart(orphans: seq<Step>) returns (r: Option<seq<seq<ExecutionItem>>>, ghost stage: map<string, nat>)
    ensures r.Some? <==> (orphans != [] ==> DistinctSteps(orphans) && Acyclic(OrphanGraph(orphans)))
    ensures r.Some? ==> OrphansLaid(orphans, stage, r.value)
  {
    if |orphans| > 0 {
      r, stage := OrphanWaves(orphans);
    } else {
      r, stage := Some([]), map[];
    }
  }

  method ScheduledPart(g: ResourceGraph, plan: Plan, activeSteps: set<string>, aliases: Aliases, overrides: Overrides)
    returns (r: Result<seq<seq<ExecutionItem>>, ScheduleError>, ghost stage: map<string, nat>)
    requires Fits(g, plan) && aliases == AliasMap(OperationMap(plan.operations))
    requires activeSteps == StepAddresses(plan.steps) * Known(g)
    ensures r.Ok? <==> Schedulable(g, Some(ActiveSet(g, plan)), aliases, overrides)
    ensures r.Ok? ==>
      ScheduledLaid(StepMap(plan.steps), OperationMap(plan.operations), KindsOf(g, plan), ExecGraph(g, plan, overrides), stage, r.value)
  {
    var active := ActiveStepMap(plan);
    var ops := ActiveOperationMap(plan);
    var scheduled;
    scheduled, stage := ScheduleWaves(g, Some(map a | a in activeSteps + ops.Keys :: true), aliases, overrides);
    if scheduled.Err? {
      return Err(scheduled.error), stage;
    }
    AllRunnable(g, plan, overrides, stage, scheduled.value);
    var waves := ExecItemWaves(scheduled.value, active, ops, KindsOf(g, plan), ExecGraph(g, plan, overrides), stage);
    r := Ok(waves);
  }

  /** A scheduled item whose step or operation can be found. */
  ghost predicate Runnable(active: Steps, ops: OperationSteps, kinds: Kinds, exec: Graph, item: ScheduleItem) {
    && item.address in kinds && item.host == kinds[item.address].host && item.safeParallel == kinds[item.address].safeParallel
    && item.address in exec && NoDup(item.dependsOn) && Elems(item.dependsOn) == exec[item.address]
    && (item.operation <==> item.address in ops) && (!item.operation ==> item.address in active)
  }

  ghost predicate RunnableWave(active: Steps, ops: OperationSteps, kinds: Kinds, exec: Graph, stage: map<string, nat>, k: nat, items: seq<ScheduleItem>) {
    && StrictlyAscending(Keys(items, AddressOf))
    && (forall a :: a in Keys(items, AddressOf) <==> a in stage && stage[a] == k)
    && (forall i :: 0 <= i < |items| ==> Runnable(active, ops, kinds, exec, items[i]))
  }

  /** The scheduled items, with the steps and operations they are to execute. */
  method ExecItemWaves(scheduled: seq<seq<ScheduleItem>>, active: Steps, ops: OperationSteps,
                       ghost kinds: Kinds, ghost exec: Graph, ghost stage: map<string, nat>)
    returns (waves: seq<seq<ExecutionItem>>)
    requires forall k {:trigger scheduled[k]} :: 0 <= k < |scheduled| ==> RunnableWave(active, ops, kinds, exec, stage, k, scheduled[k])
    ensures |waves| == |scheduled|
    ensures forall k {:trigger waves[k]} :: 0 <= k < |waves| ==> ExecWaveOk(active, ops, kinds, exec, stage, k, waves[k])
  {
    waves := [];
    for k := 0 to |scheduled|
      invariant |waves| == k
      invariant forall j {:trigger waves[j]} :: 0 <= j < k ==> ExecWaveOk(active, ops, kinds, exec, stage, j, waves[j])
    {
      var wave := ExecItems(scheduled[k], active, ops, kinds, exec);
      assert Keys(wave, ItemAddress) == Keys(scheduled[k], AddressOf);
      waves := waves + [wave];
    }
  }

  method ExecItems(items: seq<ScheduleItem>, active: Steps, ops: OperationSteps, ghost kinds: Kinds, ghost exec: Graph)
    returns (wave: seq<ExecutionItem>)
    requires forall i :: 0 <= i < |items| ==> Runnable(active, ops, kinds, exec, items[i])
    ensures |wave| == |items|
    ensures forall i :: 0 <= i < |wave| ==> wave[i].address == items[i].address && ExecItemOk(active, ops, kinds, exec, wave[i])
  {
    wave := [];
    for i := 0 to |items|
      invariant |wave| == i
      invariant forall j :: 0 <= j < i ==> wave[j].address == items[j].address && ExecItemOk(active, ops, kinds, exec, wave[j])
    {
      var item := items[i];
      assert Runnable(active, ops, kinds, exec, item);
      if item.operation {
        wave := wave + [OperationItem(item.address, item.host, item.dependsOn, ops[item.address])];
        continue;
      }
      var step := active[item.address];
      wave := wave + [ResourceItem(item.address, step.host, item.safeParallel, item.dependsOn, step)];
    }
  }

  lemma AllRunnable(g: ResourceGraph, plan: Plan, overrides: Overrides, stage: map<string, nat>, scheduled: seq<seq<ScheduleItem>>)
    requires Fits(g, plan) && WellFormed(g)
    requires IsSchedule(Table(g), AliasMap(OperationMap(plan.operations)), ExecGraph(g, plan, overrides), stage, scheduled)
    ensures forall k {:trigger scheduled[k]} :: 0 <= k < |scheduled| ==>
      RunnableWave(StepMap(plan.steps), OperationMap(plan.operations), KindsOf(g, plan), ExecGraph(g, plan, overrides), stage, k, scheduled[k])
  {
    var aliases, exec := AliasMap(OperationMap(plan.operations)), ExecGraph(g, plan, overrides);
    forall k | 0 <= k < |scheduled|
      ensures RunnableWave(StepMap(plan.steps), OperationMap(plan.operations), KindsOf(g, plan), exec, stage, k, scheduled[k])
    {
      assert WaveOk(Table(g), aliases, exec, stage, k, scheduled[k]);
      forall i | 0 <= i < |scheduled[k]| ensures Runnable(StepMap(plan.steps), OperationMap(plan.operations), KindsOf(g, plan), exec, scheduled[k][i]) {
        ItemKind(g, plan, overrides, scheduled[k][i]);
      }
    }
  }

  /** An item is about an operation exactly when its address is filed among the operation steps. */
  lemma ItemKind(g: ResourceGraph, plan: Plan, overrides: Overrides, item: ScheduleItem)
    requires Fits(g, plan) && WellFormed(g)
    requires ItemOk(Table(g), AliasMap(OperationMap(plan.operations)), ExecGraph(g, plan, overrides), item)
    ensures Runnable(StepMap(plan.steps), OperationMap(plan.operations), KindsOf(g, plan), ExecGraph(g, plan, overrides), item)
  {
    var ops := OperationMap(plan.operations);
    OperationMapOk(plan.operations);
    StepMapOk(plan.steps);
    if item.address in ops { assert Filed(plan.operations, item.address, ops[item.address]); }
    var i := TableEntry(g, Base(Table(g), AliasMap(ops), item.address));
  }
}
