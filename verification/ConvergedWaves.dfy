/** Executing the waves of a plan one after the other, each in any order, executes the whole plan in an
    order in which it converges. */
module ConvergedWaves {
  import opened Wrappers
  import opened Lists
  import opened Digraph
  import opened ResourceGraphs
  import opened Schedule
  import opened Waves
  import opened Plans
  import opened Inversion
  import opened Orphans
  import opened ExecutionWaves
  import opened DestroyOrder
  import opened TurnedPlans
  import opened Executor
  import opened Execution
  import opened StepEffects
  import opened Planning
  import opened PlanLink
  import opened Convergence
  import opened ConvergedRun
  import WholeRuns

  /** Each turn executes the items of its wave, each once and in some order. */
  ghost predicate TurnOk(turn: seq<ExecutionItem>, wave: seq<ExecutionItem>) {
    NoDup(Keys(turn, ItemAddress)) && forall x :: x in turn <==> x in wave
  }

  ghost predicate InTurn(turns: seq<seq<ExecutionItem>>, waves: seq<seq<ExecutionItem>>) {
    |turns| == |waves| && forall k {:trigger waves[k]} :: 0 <= k < |waves| ==> TurnOk(turns[k], waves[k])
  }

  /** All turns, one after the other. */
  function Flat(turns: seq<seq<ExecutionItem>>): seq<ExecutionItem> {
    if turns == [] then [] else Flat(turns[..|turns| - 1]) + turns[|turns| - 1]
  }

  /** Steps and runs are of addresses of their own. */
  ghost predicate OwnAddresses(plan: Plan) {
    && DistinctSteps(plan.steps) && NoDup(Keys(plan.operations, OperationKey))
    && forall o :: o in plan.operations ==> o.address != ""
  }

  // ---------------------------------------------------------------- each item is of the plan

  ghost predicate OfPlan(plan: Plan, x: ExecutionItem) {
    if x.ResourceItem? then x.step in plan.steps && x.address == x.step.address
    else x.operation in plan.operations && x.address == x.operation.address
  }

  lemma FiledIs(plan: Plan, a: string)
    requires OwnAddresses(plan) && a in OperationMap(plan.operations)
    ensures OperationMap(plan.operations)[a] in plan.operations && OperationMap(plan.operations)[a].address == a
  {
    OperationMapOk(plan.operations);
    assert Filed(plan.operations, a, OperationMap(plan.operations)[a]);
  }

  lemma LaidOutOfPlan(g: ResourceGraph, plan: Plan, layout: Layout, waves: seq<seq<ExecutionItem>>, k: nat, x: ExecutionItem)
    requires OwnAddresses(plan) && LaidOut(g, plan, layout, waves) && k < |waves| && x in waves[k]
    ensures OfPlan(plan, x)
  {
    var i :| 0 <= i < |waves[k]| && waves[k][i] == x;
    if k < |layout.orphans| {
      assert OrphanWaveOk(OrphanSteps(g, plan.steps), layout.orphanStage, k, layout.orphans[k]);
      OrphanStepsOk(g, plan.steps);
    } else {
      var j := k - |layout.orphans|;
      assert ExecWaveOk(StepMap(plan.steps), OperationMap(plan.operations), KindsOf(g, plan), ExecGraph(g, plan, layout.overrides), layout.stage, j, layout.scheduled[j]);
      assert ExecItemOk(StepMap(plan.steps), OperationMap(plan.operations), KindsOf(g, plan), ExecGraph(g, plan, layout.overrides), x);
      StepMapOk(plan.steps);
      if x.address in OperationMap(plan.operations) { FiledIs(plan, x.address); }
    }
  }

  lemma KindOfNode(g: ResourceGraph, plan: Plan, n: Node)
    requires WellFormed(g) && n in g.nodes && n.address in KindsOf(g, plan)
    ensures KindsOf(g, plan)[n.address].safeParallel <==> n.kind in SAFE_PARALLEL_KINDS
  {
    EntryOfNode(g, n);
  }

  lemma KindOfOperation(g: ResourceGraph, plan: Plan, a: string, op: Operation)
    requires WellFormed(g) && AliasesWithin(g, OperationMap(plan.operations)) && op in g.operations
    requires a in KindsOf(g, plan) && a in OperationMap(plan.operations) && op.address == OperationMap(plan.operations)[a].operation.address
    ensures KindsOf(g, plan)[a].host == op.host
  {
    EntryOfOperation(g, op);
    var aliases := AliasMap(OperationMap(plan.operations));
    if a != op.address {
      assert a in aliases && aliases[a] == op.address && a !in Table(g);
    }
  }

  /** An item of the graph runs beside others exactly if it is about a resource of a kind that may, and a run
      of an operation is for the host of the operation. */
  lemma ItemCarriesNode(g: ResourceGraph, plan: Plan, layout: Layout, waves: seq<seq<ExecutionItem>>, k: nat, x: ExecutionItem)
    requires Setting(g, plan, layout.overrides) && LaidOut(g, plan, layout, waves) && |layout.orphans| <= k < |waves| && x in waves[k]
    ensures x.ResourceItem? ==> (
      x.host == x.step.host && forall n :: n in g.nodes && n.address == x.address ==> (x.safeParallel <==> n.kind in SAFE_PARALLEL_KINDS))
    ensures x.OperationItem? ==> forall op :: op in g.operations && op.address == x.operation.operation.address ==> x.host == op.host
  {
    var j := k - |layout.orphans|;
    var i :| 0 <= i < |waves[k]| && waves[k][i] == x;
    InSecond(layout.orphans, layout.scheduled, waves, j);
    assert ExecWaveOk(StepMap(plan.steps), OperationMap(plan.operations), KindsOf(g, plan), ExecGraph(g, plan, layout.overrides), layout.stage, j, layout.scheduled[j]);
    assert ExecItemOk(StepMap(plan.steps), OperationMap(plan.operations), KindsOf(g, plan), ExecGraph(g, plan, layout.overrides), x);
    if x.ResourceItem? {
      forall n | n in g.nodes && n.address == x.address ensures x.safeParallel <==> n.kind in SAFE_PARALLEL_KINDS { KindOfNode(g, plan, n); }
    } else {
      forall op | op in g.operations && op.address == x.operation.operation.address ensures x.host == op.host {
        KindOfOperation(g, plan, x.address, op);
      }
    }
  }

  // ---------------------------------------------------------------- all of the plan has an item

  lemma StagedItem(active: Steps, ops: OperationSteps, kinds: Kinds, exec: Graph, stage: map<string, nat>, waves: seq<seq<ExecutionItem>>, a: string)
    returns (k: nat, x: ExecutionItem)
    requires ScheduledLaid(active, ops, kinds, exec, stage, waves) && a in exec
    ensures k < |waves| && x in waves[k] && x.address == a && ExecItemOk(active, ops, kinds, exec, x)
  {
    k := stage[a];
    var wave := waves[k];
    assert ExecWaveOk(active, ops, kinds, exec, stage, k, wave);
    assert a in Keys(wave, ItemAddress);
    var i :| 0 <= i < |wave| && Keys(wave, ItemAddress)[i] == a;
    x := wave[i];
  }

  /** An active address has an item, for its operation or else for its step. */
  ghost predicate ItemFor(active: Steps, ops: OperationSteps, a: string, x: ExecutionItem) {
    if a in ops then x.OperationItem? && x.operation == ops[a] else x.ResourceItem? && a in active && x.step == active[a]
  }

  lemma ScheduledItem(active: Steps, ops: OperationSteps, kinds: Kinds, exec: Graph, stage: map<string, nat>,
                      first: seq<seq<ExecutionItem>>, second: seq<seq<ExecutionItem>>, waves: seq<seq<ExecutionItem>>, a: string)
    returns (k: nat, x: ExecutionItem)
    requires ScheduledLaid(active, ops, kinds, exec, stage, second) && a in exec && waves == first + second
    ensures k < |waves| && x in waves[k] && ItemFor(active, ops, a, x)
  {
    var j;
    j, x := StagedItem(active, ops, kinds, exec, stage, second, a);
    k := |first| + j;
    InSecond(first, second, waves, j);
  }

  lemma ActiveItem(g: ResourceGraph, plan: Plan, layout: Layout, waves: seq<seq<ExecutionItem>>, a: string) returns (k: nat, x: ExecutionItem)
    requires LaidOut(g, plan, layout, waves) && a in ExecGraph(g, plan, layout.overrides)
    ensures k < |waves| && x in waves[k] && ItemFor(StepMap(plan.steps), OperationMap(plan.operations), a, x)
  {
    k, x := ScheduledItem(StepMap(plan.steps), OperationMap(plan.operations), KindsOf(g, plan), ExecGraph(g, plan, layout.overrides),
                          layout.stage, layout.orphans, layout.scheduled, waves, a);
  }

  lemma InSecond(first: seq<seq<ExecutionItem>>, second: seq<seq<ExecutionItem>>, waves: seq<seq<ExecutionItem>>, j: nat)
    requires waves == first + second && j < |second|
    ensures |first| + j < |waves| && waves[|first| + j] == second[j]
  {
  }

  lemma OrphanedItem(g: ResourceGraph, plan: Plan, layout: Layout, waves: seq<seq<ExecutionItem>>, s: Step) returns (k: nat, x: ExecutionItem)
    requires OwnAddresses(plan) && LaidOut(g, plan, layout, waves) && s in plan.steps && s.address !in Known(g)
    ensures k < |waves| && x in waves[k] && x.ResourceItem? && x.step == s
  {
    OrphanStepsOk(g, plan.steps);
    AddressesOfSteps(OrphanSteps(g, plan.steps), s.address);
    k := layout.orphanStage[s.address];
    var wave := layout.orphans[k];
    assert OrphanWaveOk(OrphanSteps(g, plan.steps), layout.orphanStage, k, wave);
    assert s.address in Keys(wave, ItemAddress);
    var i :| 0 <= i < |wave| && Keys(wave, ItemAddress)[i] == s.address;
    x := wave[i];
    assert waves[k] == wave && OrphanItemOk(OrphanSteps(g, plan.steps), x);
    DistinctStepIs(plan, s);
    DistinctStepIs(plan, x.step);
  }

  lemma StepHasItem(g: ResourceGraph, plan: Plan, layout: Layout, waves: seq<seq<ExecutionItem>>, s: Step) returns (k: nat, x: ExecutionItem)
    requires OwnAddresses(plan) && Setting(g, plan, layout.overrides) && LaidOut(g, plan, layout, waves) && s in plan.steps
    ensures k < |waves| && x in waves[k] && x.ResourceItem? && x.step == s
  {
    DistinctStepIs(plan, s);
    if s.address in Known(g) {
      assert s.address in Table(g);
      StepInGraph(g, plan, layout.overrides, s.address);
      k, x := ActiveItem(g, plan, layout, waves, s.address);
    } else {
      k, x := OrphanedItem(g, plan, layout, waves, s);
    }
  }

  lemma RunHasItem(g: ResourceGraph, plan: Plan, layout: Layout, waves: seq<seq<ExecutionItem>>, o: OperationStep) returns (k: nat, x: ExecutionItem)
    requires OwnAddresses(plan) && Setting(g, plan, layout.overrides) && LaidOut(g, plan, layout, waves) && o in plan.operations
    ensures k < |waves| && x in waves[k] && x.OperationItem? && x.operation == o
  {
    OperationMapOk(plan.operations);
    ExecKeys(g, plan, layout.overrides);
    k, x := ActiveItem(g, plan, layout, waves, o.address);
    FiledIs(plan, o.address);
    SameRun(plan, o, OperationMap(plan.operations)[o.address]);
  }

  lemma SameRun(plan: Plan, o: OperationStep, p: OperationStep)
    requires OwnAddresses(plan) && o in plan.operations && p in plan.operations && o.address == p.address
    ensures o == p
  {
    var i :| 0 <= i < |plan.operations| && plan.operations[i] == o;
    var j :| 0 <= j < |plan.operations| && plan.operations[j] == p;
    NoDupAt(Keys(plan.operations, OperationKey), i, j);
  }

  // ---------------------------------------------------------------- one turn after the other

  lemma {:induction false} InFlat(turns: seq<seq<ExecutionItem>>, waves: seq<seq<ExecutionItem>>, n: nat, x: ExecutionItem)
    requires InTurn(turns, waves) && n <= |turns|
    ensures x in Flat(turns[..n]) <==> exists k :: 0 <= k < n && x in waves[k]
  {
    if n > 0 {
      assert turns[..n][..n - 1] == turns[..n - 1] && TurnOk(turns[n - 1], waves[n - 1]);
      InFlat(turns, waves, n - 1, x);
      if x in turns[n - 1] { assert x in waves[n - 1]; }
    }
  }

  lemma KeysAppended(a: seq<ExecutionItem>, b: seq<ExecutionItem>)
    ensures Keys(a + b, ItemAddress) == Keys(a, ItemAddress) + Keys(b, ItemAddress)
  {
  }

  lemma SameAddresses(turn: seq<ExecutionItem>, wave: seq<ExecutionItem>)
    requires forall x :: x in turn <==> x in wave
    ensures forall a :: a in Keys(turn, ItemAddress) <==> a in Keys(wave, ItemAddress)
  {
    forall a ensures a in Keys(turn, ItemAddress) <==> a in Keys(wave, ItemAddress) {
      if a in Keys(turn, ItemAddress) {
        var i :| 0 <= i < |turn| && Keys(turn, ItemAddress)[i] == a;
        assert turn[i] in wave;
        var j :| 0 <= j < |wave| && wave[j] == turn[i];
        assert Keys(wave, ItemAddress)[j] == a;
      }
      if a in Keys(wave, ItemAddress) {
        var i :| 0 <= i < |wave| && Keys(wave, ItemAddress)[i] == a;
        assert wave[i] in turn;
        var j :| 0 <= j < |turn| && turn[j] == wave[i];
        assert Keys(turn, ItemAddress)[j] == a;
      }
    }
  }

  lemma {:induction false} FlatOnce(turns: seq<seq<ExecutionItem>>, waves: seq<seq<ExecutionItem>>, n: nat)
    requires InTurn(turns, waves) && NoDup(WaveAddresses(waves)) && n <= |turns|
    ensures NoDup(Keys(Flat(turns[..n]), ItemAddress))
    ensures forall a :: a in Keys(Flat(turns[..n]), ItemAddress) <==> a in WaveAddresses(waves[..n])
  {
    if n > 0 {
      assert turns[..n][..n - 1] == turns[..n - 1] && waves[..n][..n - 1] == waves[..n - 1] && TurnOk(turns[n - 1], waves[n - 1]);
      FlatOnce(turns, waves, n - 1);
      KeysAppended(Flat(turns[..n - 1]), turns[n - 1]);
      SameAddresses(turns[n - 1], waves[n - 1]);
      LaterAreNew(waves, n - 1);
      NoDupJoined(Keys(Flat(turns[..n - 1]), ItemAddress), Keys(turns[n - 1], ItemAddress));
    }
  }

  lemma PartsAreApart(before: seq<string>, wave: seq<string>, rest: seq<string>, all: seq<string>)
    requires NoDup(all) && all == before + wave + rest
    ensures forall a :: a in before ==> a !in wave
  {
    forall i, j | 0 <= i < |before| && 0 <= j < |wave| ensures before[i] != wave[j] {
      assert all[i] == before[i] && all[|before| + j] == wave[j];
      if before[i] == wave[j] { NoDupAt(all, i, |before| + j); }
    }
  }

  /** Addresses of a wave are in no wave before it. */
  lemma LaterAreNew(waves: seq<seq<ExecutionItem>>, k: nat)
    requires NoDup(WaveAddresses(waves)) && k < |waves|
    ensures forall a :: a in WaveAddresses(waves[..k]) ==> a !in Keys(waves[k], ItemAddress)
  {
    var n := k + 1;
    WavesSplit(waves, n);
    var rest :| WaveAddresses(waves) == WaveAddresses(waves[..n]) + rest;
    NextWave(waves, k, n);
    PartsAreApart(WaveAddresses(waves[..k]), Keys(waves[k], ItemAddress), rest, WaveAddresses(waves));
  }

  lemma NextWave(waves: seq<seq<ExecutionItem>>, k: nat, n: nat)
    requires k < |waves| && n == k + 1
    ensures WaveAddresses(waves[..n]) == WaveAddresses(waves[..k]) + Keys(waves[k], ItemAddress)
  {
    assert waves[..n][..k] == waves[..k];
  }

  lemma {:induction false} WavesSplit(waves: seq<seq<ExecutionItem>>, n: nat)
    requires n <= |waves|
    ensures exists rest :: WaveAddresses(waves) == WaveAddresses(waves[..n]) + rest
    decreases |waves| - n
  {
    if n == |waves| {
      assert waves[..n] == waves && WaveAddresses(waves) == WaveAddresses(waves[..n]) + [];
    } else {
      WavesSplit(waves, n + 1);
      var rest :| WaveAddresses(waves) == WaveAddresses(waves[..n + 1]) + rest;
      assert waves[..n + 1][..n] == waves[..n];
      assert WaveAddresses(waves) == WaveAddresses(waves[..n]) + (Keys(waves[n], ItemAddress) + rest);
    }
  }

  /** No item of a later stage comes first. */
  ghost predicate EarlierThan(stage: map<string, nat>, n: nat, k: nat, items: seq<ExecutionItem>) {
    forall x :: x in items && x.address in stage ==> n + stage[x.address] < k
  }

  lemma OrderContinues(stage: map<string, nat>, n: nat, k: nat, before: seq<ExecutionItem>, turn: seq<ExecutionItem>)
    requires InStageOrder(stage, before) && EarlierThan(stage, n, k, before)
    requires forall x :: x in turn && x.address in stage ==> n + stage[x.address] == k
    ensures InStageOrder(stage, before + turn) && EarlierThan(stage, n, k + 1, before + turn)
  {
    var items := before + turn;
    forall i, j | 0 <= i < j < |items| && items[i].address in stage && items[j].address in stage
      ensures stage[items[i].address] <= stage[items[j].address]
    {
      assert i < |before| ==> items[i] in before;
      assert i >= |before| ==> items[i] in turn;
      assert j >= |before| ==> items[j] in turn;
    }
  }

  lemma {:induction false} TurnsInOrder(g: ResourceGraph, plan: Plan, layout: Layout, waves: seq<seq<ExecutionItem>>, turns: seq<seq<ExecutionItem>>, n: nat)
    requires Setting(g, plan, layout.overrides) && LaidOut(g, plan, layout, waves) && InTurn(turns, waves) && n <= |turns|
    ensures InStageOrder(layout.stage, Flat(turns[..n])) && EarlierThan(layout.stage, |layout.orphans|, n, Flat(turns[..n]))
  {
    if n > 0 {
      assert turns[..n][..n - 1] == turns[..n - 1] && TurnOk(turns[n - 1], waves[n - 1]);
      TurnsInOrder(g, plan, layout, waves, turns, n - 1);
      forall x | x in turns[n - 1] && x.address in layout.stage ensures |layout.orphans| + layout.stage[x.address] == n - 1 {
        WholeRuns.LaidOutBelongs(g, plan, layout, waves, n - 1, x);
      }
      OrderContinues(layout.stage, |layout.orphans|, n - 1, Flat(turns[..n - 1]), turns[n - 1]);
    }
  }

  // ---------------------------------------------------------------- what follows

  lemma EachOfPlan(g: ResourceGraph, plan: Plan, layout: Layout, waves: seq<seq<ExecutionItem>>, turns: seq<seq<ExecutionItem>>)
    requires OwnAddresses(plan) && LaidOut(g, plan, layout, waves) && InTurn(turns, waves)
    ensures forall x :: x in Flat(turns) ==> OfPlan(plan, x)
  {
    assert turns[..|turns|] == turns;
    forall x | x in Flat(turns) ensures OfPlan(plan, x) {
      InFlat(turns, waves, |turns|, x);
      var k :| 0 <= k < |waves| && x in waves[k];
      LaidOutOfPlan(g, plan, layout, waves, k, x);
    }
  }

  lemma StepListed(g: ResourceGraph, plan: Plan, layout: Layout, waves: seq<seq<ExecutionItem>>, turns: seq<seq<ExecutionItem>>, s: Step)
    requires OwnAddresses(plan) && Setting(g, plan, layout.overrides) && LaidOut(g, plan, layout, waves) && InTurn(turns, waves) && s in plan.steps
    ensures exists i :: 0 <= i < |Flat(turns)| && Flat(turns)[i].ResourceItem? && Flat(turns)[i].step == s
  {
    assert turns[..|turns|] == turns;
    var k, x := StepHasItem(g, plan, layout, waves, s);
    InFlat(turns, waves, |turns|, x);
  }

  lemma RunListed(g: ResourceGraph, plan: Plan, layout: Layout, waves: seq<seq<ExecutionItem>>, turns: seq<seq<ExecutionItem>>, o: OperationStep)
    requires OwnAddresses(plan) && Setting(g, plan, layout.overrides) && LaidOut(g, plan, layout, waves) && InTurn(turns, waves) && o in plan.operations
    ensures exists i :: 0 <= i < |Flat(turns)| && Flat(turns)[i].OperationItem? && Flat(turns)[i].operation == o
  {
    assert turns[..|turns|] == turns;
    var k, x := RunHasItem(g, plan, layout, waves, o);
    InFlat(turns, waves, |turns|, x);
  }

  lemma AllListed(g: ResourceGraph, plan: Plan, layout: Layout, waves: seq<seq<ExecutionItem>>, turns: seq<seq<ExecutionItem>>)
    requires OwnAddresses(plan) && Setting(g, plan, layout.overrides) && LaidOut(g, plan, layout, waves) && InTurn(turns, waves)
    ensures ListsAll(plan, Flat(turns)) && Addressed(Flat(turns))
  {
    var items := Flat(turns);
    EachOfPlan(g, plan, layout, waves, turns);
    forall s | s in plan.steps ensures exists i :: 0 <= i < |items| && items[i].ResourceItem? && items[i].step == s {
      StepListed(g, plan, layout, waves, turns, s);
    }
    forall o | o in plan.operations ensures exists i :: 0 <= i < |items| && items[i].OperationItem? && items[i].operation == o {
      RunListed(g, plan, layout, waves, turns, o);
    }
    assert NoDup(Keys(items, ItemAddress)) by {
      LaidOutIsOrdered(g, plan, layout, waves);
      FlatOnce(turns, waves, |turns|);
      assert turns[..|turns|] == turns;
    }
    forall i, j | 0 <= i < j < |items| ensures items[i].address != items[j].address {
      if items[i].address == items[j].address { NoDupAt(Keys(items, ItemAddress), i, j); }
    }
    assert forall i :: 0 <= i < |items| ==> OfPlan(plan, items[i]);
  }

  /** If the waves that are built for a plan have been executed one after the other, each in any order, and
      without an error, the next plan is empty. */
  lemma WaveAfterWaveConverges(g: ResourceGraph, env: Inputs, stays: Stays, eachAddress: EachAddress, plan: Plan, layout: Layout,
                               waves: seq<seq<ExecutionItem>>, turns: seq<seq<ExecutionItem>>, next: Plan)
    requires Sound(g) && WellFormed(g) && Apart(g, env, eachAddress) && TriggersListed(g) && CompletionsListed(g)
    requires IsPlan(g, env, stays, eachAddress, plan) && OverridesOk(g, plan, layout.overrides) && OwnAddresses(plan)
    requires LaidOut(g, plan, layout, waves) && InTurn(turns, waves) && ExecutedAll(Flat(turns), env).Some?
    requires IsPlan(g, ExecutedAll(Flat(turns), env).value, stays, eachAddress, next)
    ensures next.steps == [] && next.operations == []
  {
    PlanFits(g, env, stays, eachAddress, plan);
    PlanIsWithin(g, env, stays, eachAddress, plan);
    AllListed(g, plan, layout, waves, turns);
    TurnsInOrder(g, plan, layout, waves, turns, |turns|);
    assert turns[..|turns|] == turns;
    WavesConverge(g, env, stays, eachAddress, plan, layout.overrides, layout.stage, Flat(turns), next);
  }
}
