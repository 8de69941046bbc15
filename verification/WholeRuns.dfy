/** A whole run of a plan: the threads of one wave after those of the other, each wave starting from the
    states that the one before has kept. A run may stop anywhere in its last wave. */
module WholeRuns {
  import opened Wrappers
  import opened Lists
  import opened Digraph
  import opened ResourceGraphs
  import opened Plans
  import opened Orphans
  import opened ExecutionWaves
  import opened DestroyOrder
  import opened Execution
  import opened RecordedState
  import opened StepEffects
  import opened WaveMachine
  import opened WaveGuarantees
  import opened WaveLogs

  type HostStates = map<string, HostState>

  /** The threads of one wave: the items that are not blocked, what their providers return, the steps that
      the threads have taken, and how far they have come. */
  datatype WaveRun = WaveRun(c: Config, items: seq<ExecutionItem>, returned: seq<string>, labels: seq<Label>, end: World)

  function WorkOf(item: ExecutionItem, returned: string): Work {
    Work(item.address, item.host, item.ResourceItem? && item.safeParallel, ItemEffect(item, returned))
  }

  ghost predicate ReachedBy(c: Config, end: World, start: HostStates, states: seq<World>, labels: seq<Label>) {
    IsRun(c, states, labels) && Initial(c, states[0], start) && states[|labels|] == end
  }

  ghost predicate RunsWave(w: WaveRun, wave: seq<ExecutionItem>, start: HostStates) {
    && |w.c.items| == |w.items| == |w.returned|
    && (forall i :: 0 <= i < |w.items| ==> w.items[i] in wave && w.c.items[i] == WorkOf(w.items[i], w.returned[i]))
    && exists states :: ReachedBy(w.c, w.end, start, states, w.labels)
  }

  function KeptBy(s: World): HostStates { map h | h in s.hosts :: s.hosts[h].kept }

  function StartOf(runs: seq<WaveRun>, start: HostStates, k: nat): HostStates
    requires k <= |runs|
  {
    if k == 0 then start else KeptBy(runs[k - 1].end)
  }

  ghost predicate RunsAt(waves: seq<seq<ExecutionItem>>, runs: seq<WaveRun>, start: HostStates, k: nat)
    requires k < |runs| <= |waves|
  {
    && RunsWave(runs[k], waves[k], StartOf(runs, start, k))
    && (k < |runs| - 1 ==> AllFinished(runs[k].end))
  }

  ghost predicate RunsWaves(waves: seq<seq<ExecutionItem>>, runs: seq<WaveRun>, start: HostStates) {
    |runs| <= |waves| && forall k {:trigger RunsAt(waves, runs, start, k)} :: 0 <= k < |runs| ==> RunsAt(waves, runs, start, k)
  }

  lemma WaveKeepsInv(w: WaveRun, wave: seq<ExecutionItem>, start: HostStates)
    requires RunsWave(w, wave, start)
    ensures Inv(w.c, w.end, start) && AllTracked(w.c, w.end, w.labels) && w.end.commits == Written(w.labels)
  {
    var states :| ReachedBy(w.c, w.end, start, states, w.labels);
    RunInv(w.c, states, w.labels, start, |w.labels|);
    RunTracked(w.c, states, w.labels, start, |w.labels|);
    assert w.labels[..|w.labels|] == w.labels;
  }

  // ---------------------------------------------------------------- the commits

  /** The commits of one host in one wave, in their order. */
  ghost function CommitsAt(w: WaveRun, commits: seq<nat>, h: string): seq<Commit> {
    if commits == [] then [] else
      var before, i := CommitsAt(w, commits[..|commits| - 1], h), commits[|commits| - 1];
      if i < |w.c.items| && i < |w.items| && i < |w.returned| && w.c.items[i].host == h
      then before + [Commit(w.items[i], w.returned[i])] else before
  }

  /** The commits of one host in a run: its successful writes. */
  ghost function History(runs: seq<WaveRun>, h: string): seq<Commit> {
    if runs == [] then [] else
      var last := runs[|runs| - 1];
      History(runs[..|runs| - 1], h) + CommitsAt(last, Written(last.labels), h)
  }

  lemma EffectsAppended(a: seq<Commit>, b: seq<Commit>)
    ensures Effects(a + b) == Effects(a) + Effects(b)
  {
  }

  lemma {:induction false} EffectsOfCommits(w: WaveRun, wave: seq<ExecutionItem>, start: HostStates, commits: seq<nat>, h: string)
    requires RunsWave(w, wave, start)
    ensures Effects(CommitsAt(w, commits, h)) == EffectsAt(w.c, commits, h)
    ensures forall c :: c in CommitsAt(w, commits, h) ==> c.item in wave
  {
    if commits != [] {
      var front, i := commits[..|commits| - 1], commits[|commits| - 1];
      EffectsOfCommits(w, wave, start, front, h);
      if i < |w.items| && w.c.items[i].host == h {
        assert w.items[i] in wave && w.c.items[i] == WorkOf(w.items[i], w.returned[i]);
        EffectsAppended(CommitsAt(w, front, h), [Commit(w.items[i], w.returned[i])]);
      }
    }
  }

  lemma {:induction false} OutcomeJoined(start: HostState, a: seq<Effect>, b: seq<Effect>)
    ensures Outcome(start, a + b) == Outcome(Outcome(start, a), b)
  {
    if b == [] { assert a + b == a; } else {
      assert (a + b)[..|a + b| - 1] == a + b[..|b| - 1];
      OutcomeJoined(start, a, b[..|b| - 1]);
    }
  }

  lemma RunsBefore(waves: seq<seq<ExecutionItem>>, runs: seq<WaveRun>, start: HostStates)
    requires RunsWaves(waves, runs, start) && runs != []
    ensures RunsWaves(waves, runs[..|runs| - 1], start)
    ensures |runs| > 1 ==> AllFinished(runs[|runs| - 2].end)
  {
    var front := runs[..|runs| - 1];
    forall k | 0 <= k < |front| ensures RunsAt(waves, front, start, k) { assert RunsAt(waves, runs, start, k); }
    if |runs| > 1 { assert RunsAt(waves, runs, start, |runs| - 2); }
  }

  /** What is in the backend is what all commits so far have made of the state at the start, wave after
      wave and in each wave in their order; between waves it is also what is kept. */
  lemma {:induction false} BackendIsHistory(waves: seq<seq<ExecutionItem>>, runs: seq<WaveRun>, start: HostStates, h: string)
    requires RunsWaves(waves, runs, start) && runs != [] && h in start
    ensures var end := runs[|runs| - 1].end;
      && end.hosts.Keys == start.Keys
      && end.hosts[h].backend == Outcome(start[h], Effects(History(runs, h)))
      && (AllFinished(end) ==> end.hosts[h].kept == end.hosts[h].backend)
  {
    var front, last := runs[..|runs| - 1], runs[|runs| - 1];
    RunsBefore(waves, runs, start);
    assert RunsAt(waves, runs, start, |runs| - 1);
    var from := StartOf(runs, start, |runs| - 1);
    if front != [] { BackendIsHistory(waves, front, start, h); }
    assert from.Keys == start.Keys && from[h] == Outcome(start[h], Effects(History(front, h)));
    WaveIsHistory(last, waves[|runs| - 1], from, h);
    EffectsAppended(History(front, h), CommitsAt(last, Written(last.labels), h));
    OutcomeJoined(start[h], Effects(History(front, h)), Effects(CommitsAt(last, Written(last.labels), h)));
  }

  lemma WaveIsHistory(w: WaveRun, wave: seq<ExecutionItem>, start: HostStates, h: string)
    requires RunsWave(w, wave, start) && h in start
    ensures w.end.hosts.Keys == start.Keys
    ensures w.end.hosts[h].backend == Outcome(start[h], Effects(CommitsAt(w, Written(w.labels), h)))
    ensures AllFinished(w.end) ==> w.end.hosts[h].kept == w.end.hosts[h].backend
  {
    WaveKeepsInv(w, wave, start);
    EffectsOfCommits(w, wave, start, Written(w.labels), h);
    assert SideOk(w.c, w.end, h, start[h]);
    if AllFinished(w.end) { FreeLockMeansInStep(w.c, w.end, start, h); }
  }

  // ---------------------------------------------------------------- nothing is left out

  lemma {:induction false} CommitOf(w: WaveRun, commits: seq<nat>, i: nat, h: string)
    requires |w.c.items| == |w.items| == |w.returned| && i in commits && i < |w.items| && w.c.items[i].host == h
    ensures Commit(w.items[i], w.returned[i]) in CommitsAt(w, commits, h)
  {
    if commits[|commits| - 1] != i { CommitOf(w, commits[..|commits| - 1], i, h); }
  }

  lemma {:induction false} HistoryHas(runs: seq<WaveRun>, k: nat, x: Commit, h: string)
    requires k < |runs| && x in CommitsAt(runs[k], Written(runs[k].labels), h)
    ensures x in History(runs, h)
  {
    if k < |runs| - 1 { HistoryHas(runs[..|runs| - 1], k, x, h); }
  }

  /** In every wave that is over, each item with a place has performed, and if it then had something to
      write, its write has failed or is in the history of its host. */
  lemma EverySuccessIsRecorded(waves: seq<seq<ExecutionItem>>, runs: seq<WaveRun>, start: HostStates, k: nat, i: nat)
    requires RunsWaves(waves, runs, start) && k < |runs| && AllFinished(runs[k].end) && i < |runs[k].items|
    ensures i < |runs[k].c.items| == |runs[k].returned|
    ensures HasPlace(runs[k].c, i) <==> Performs(runs[k].labels, i)
    ensures Perform(i, true) in runs[k].labels ==> (
      Write(i, false) in runs[k].labels || Commit(runs[k].items[i], runs[k].returned[i]) in History(runs, runs[k].items[i].host))
  {
    var w := runs[k];
    assert RunsAt(waves, runs, start, k);
    WaveKeepsInv(w, waves[k], StartOf(runs, start, k));
    assert At(w.end, i) && Tracked(w.c, w.labels, i, w.end.phase[i]);
    if Write(i, true) in w.labels {
      WrittenHas(w.labels, i);
      assert w.c.items[i] == WorkOf(w.items[i], w.returned[i]);
      CommitOf(w, Written(w.labels), i, w.items[i].host);
      HistoryHas(runs, k, Commit(w.items[i], w.returned[i]), w.items[i].host);
    }
  }

  // ---------------------------------------------------------------- the order of the commits

  /** An item of wave `k`: of the plan, and in that stage if it is in a stage. */
  ghost predicate Belongs(plan: Plan, stage: map<string, nat>, n: nat, k: nat, item: ExecutionItem) {
    && (item.ResourceItem? ==> item.step in plan.steps && item.address == item.step.address)
    && (item.address in stage ==> n + stage[item.address] == k)
  }

  lemma LaidOutBelongs(g: ResourceGraph, plan: Plan, layout: Layout, waves: seq<seq<ExecutionItem>>, k: nat, item: ExecutionItem)
    requires Setting(g, plan, layout.overrides) && LaidOut(g, plan, layout, waves) && k < |waves| && item in waves[k]
    ensures Belongs(plan, layout.stage, |layout.orphans|, k, item)
  {
    var i :| 0 <= i < |waves[k]| && waves[k][i] == item;
    assert Keys(waves[k], ItemAddress)[i] == item.address && item.address in Keys(waves[k], ItemAddress);
    if k < |layout.orphans| {
      assert OrphanWaveOk(OrphanSteps(g, plan.steps), layout.orphanStage, k, layout.orphans[k]);
      OrphanStepsOk(g, plan.steps);
      OrphansAreApart(g, plan, layout);
    } else {
      var j := k - |layout.orphans|;
      assert ExecWaveOk(StepMap(plan.steps), OperationMap(plan.operations), KindsOf(g, plan), ExecGraph(g, plan, layout.overrides), layout.stage, j, layout.scheduled[j]);
      assert ExecItemOk(StepMap(plan.steps), OperationMap(plan.operations), KindsOf(g, plan), ExecGraph(g, plan, layout.overrides), item);
      StepMapOk(plan.steps);
    }
  }

  /** All commits are of waves before `k`. */
  ghost predicate Before(stage: map<string, nat>, n: nat, k: nat, commits: seq<Commit>) {
    forall c :: c in commits && c.item.address in stage ==> n + stage[c.item.address] < k
  }

  ghost predicate AllBelong(plan: Plan, stage: map<string, nat>, n: nat, k: nat, commits: seq<Commit>) {
    forall c :: c in commits ==> Belongs(plan, stage, n, k, c.item)
  }

  lemma OrderGrows(plan: Plan, stage: map<string, nat>, n: nat, k: nat, before: seq<Commit>, more: seq<Commit>)
    requires InWaveOrder(plan, stage, before) && Before(stage, n, k, before) && AllBelong(plan, stage, n, k, more)
    ensures InWaveOrder(plan, stage, before + more) && Before(stage, n, k + 1, before + more)
  {
    var commits := before + more;
    forall i, j | 0 <= i < j < |commits| && commits[i].item.address in stage && commits[j].item.address in stage
      ensures stage[commits[i].item.address] <= stage[commits[j].item.address]
    {
      assert i < |before| ==> commits[i] in before;
      assert i >= |before| ==> commits[i] in more;
      assert j >= |before| ==> commits[j] in more;
    }
  }

  /** So the commits of a host come in the order of the waves. */
  lemma {:induction false} HistoryInOrder(g: ResourceGraph, plan: Plan, layout: Layout, waves: seq<seq<ExecutionItem>>, runs: seq<WaveRun>, start: HostStates, h: string)
    requires Setting(g, plan, layout.overrides) && LaidOut(g, plan, layout, waves) && RunsWaves(waves, runs, start)
    ensures InWaveOrder(plan, layout.stage, History(runs, h)) && Before(layout.stage, |layout.orphans|, |runs|, History(runs, h))
  {
    if runs != [] {
      var k := |runs| - 1;
      var more := CommitsAt(runs[k], Written(runs[k].labels), h);
      RunsBefore(waves, runs, start);
      HistoryInOrder(g, plan, layout, waves, runs[..k], start, h);
      assert RunsAt(waves, runs, start, k);
      EffectsOfCommits(runs[k], waves[k], StartOf(runs, start, k), Written(runs[k].labels), h);
      forall c | c in more ensures Belongs(plan, layout.stage, |layout.orphans|, k, c.item) {
        LaidOutBelongs(g, plan, layout, waves, k, c.item);
      }
      OrderGrows(plan, layout.stage, |layout.orphans|, k, History(runs[..k], h), more);
    }
  }

  // ---------------------------------------------------------------- what follows

  /** At any moment of any run of the waves of a plan, whatever has failed and however the threads of a
      wave were interleaved, no resource that is stored at a host depends on one that the run has deleted or
      destroyed there. */
  lemma NothingEverDangles(g: ResourceGraph, plan: Plan, layout: Layout, waves: seq<seq<ExecutionItem>>, runs: seq<WaveRun>, start: HostStates,
                           h: string, gone: Commit)
    requires Setting(g, plan, layout.overrides) && StepsOfGraph(g, plan) && LaidOut(g, plan, layout, waves)
    requires RunsWaves(waves, runs, start) && runs != [] && h in start
    requires gone in History(runs, h) && gone.item.ResourceItem? && DestroysResource(gone.item.step.action)
    ensures h in runs[|runs| - 1].end.hosts && !References(runs[|runs| - 1].end.hosts[h].backend, gone.item.address)
  {
    BackendIsHistory(waves, runs, start, h);
    HistoryInOrder(g, plan, layout, waves, runs, start, h);
    var i :| 0 <= i < |History(runs, h)| && History(runs, h)[i] == gone;
    NothingDangles(g, plan, layout.overrides, layout.stage, History(runs, h), start[h], i);
  }
}
