/** The worklist loop that both the graph scheduler and the orphan scheduler run: emit what waits
    for nothing, count down what waits for it, and go on with whatever has reached zero. */
module Kahn {
  import opened Lists
  import opened Digraph

  /** What every address waits for, repetitions included. */
  type Waits = map<string, seq<string>>

  function GraphOf(waits: Waits): Graph { map a | a in waits :: Elems(waits[a]) }

  ghost predicate ClosedWaits(waits: Waits) { forall a, d :: a in waits && d in waits[a] ==> d in waits }

  /** Everything that `a` waits for is done. */
  ghost predicate Free(waits: Waits, done: set<string>, a: string)
    requires a in waits
  {
    forall d :: d in waits[a] ==> d in done
  }

  /** How many entries are not in `done`. */
  ghost function Open(s: seq<string>, done: set<string>): nat {
    if s == [] then 0 else (if s[0] in done then 0 else 1) + Open(s[1..], done)
  }

  lemma {:induction false} OpenNothingDone(s: seq<string>)
    ensures Open(s, {}) == |s|
  {
    if s != [] { OpenNothingDone(s[1..]); }
  }

  lemma {:induction false} OpenZero(s: seq<string>, done: set<string>)
    ensures Open(s, done) == 0 <==> forall d :: d in s ==> d in done
  {
    if s != [] {
      OpenZero(s[1..], done);
      assert forall d :: d in s <==> d == s[0] || d in s[1..];
    }
  }

  lemma {:induction false} OpenFalls(s: seq<string>, done: set<string>, x: string)
    requires x !in done
    ensures Open(s, done) == Open(s, done + {x}) + multiset(s)[x]
  {
    if s != [] {
      OpenFalls(s[1..], done, x);
      assert s == [s[0]] + s[1..];
      assert multiset(s) == multiset{s[0]} + multiset(s[1..]);
    }
  }

  function Dependents(dependents: map<string, seq<string>>, x: string): seq<string> {
    if x in dependents then dependents[x] else []
  }

  /** `out` lists what waits for `x`, as often as it does. */
  ghost predicate Mirrored(waits: Waits, out: seq<string>, x: string) {
    && (forall a :: a in out ==> a in waits)
    && (forall a :: a in waits ==> multiset(out)[a] == multiset(waits[a])[x])
  }

  ghost predicate AllMirrored(waits: Waits, dependents: map<string, seq<string>>) {
    forall x {:trigger Dependents(dependents, x)} :: Mirrored(waits, Dependents(dependents, x), x)
  }

  /** The two tables describe the same edges, one from each end. */
  ghost predicate Tables(waits: Waits, indegree: map<string, int>, dependents: map<string, seq<string>>) {
    && indegree.Keys == waits.Keys
    && (forall a :: a in waits ==> indegree[a] == |waits[a]|)
    && AllMirrored(waits, dependents)
  }

  ghost predicate Counted(waits: Waits, indegree: map<string, int>, done: set<string>) {
    && indegree.Keys == waits.Keys
    && forall a :: a in waits ==> indegree[a] == Open(waits[a], done)
  }

  /** `ready` lists what has reached zero and is not shut, that is emitted or being emitted. */
  ghost predicate Listed(ready: seq<string>, indegree: map<string, int>, shut: set<string>) {
    && NoDup(ready)
    && forall a :: a in ready <==> a in indegree && indegree[a] == 0 && a !in shut
  }

  /** The table is above `target` by what is `left` to count down. */
  ghost predicate Above(left: multiset<string>, indegree: map<string, int>, target: map<string, nat>) {
    && indegree.Keys == target.Keys && (forall a :: a in left ==> a in indegree)
    && (forall a :: a in indegree ==> indegree[a] == target[a] + left[a])
  }

  ghost predicate ZeroIn(shut: set<string>, indegree: map<string, int>) {
    forall a :: a in shut && a in indegree ==> indegree[a] == 0
  }

  ghost predicate Counting(left: multiset<string>, indegree: map<string, int>, ready: seq<string>,
                           target: map<string, nat>, shut: set<string>) {
    Above(left, indegree, target) && ZeroIn(shut, indegree) && Listed(ready, indegree, shut)
  }

  lemma ListedNext(indegree: map<string, int>, ready: seq<string>, shut: set<string>, x: string)
    requires ZeroIn(shut, indegree) && Listed(ready, indegree, shut) && x in indegree && indegree[x] > 0
    ensures ZeroIn(shut, indegree[x := indegree[x] - 1])
    ensures Listed(if indegree[x] == 1 then ready + [x] else ready, indegree[x := indegree[x] - 1], shut)
  {
    assert x !in ready;
    NoDupAppend(ready, x);
  }

  lemma CountingNext(left: multiset<string>, indegree: map<string, int>, ready: seq<string>,
                     target: map<string, nat>, shut: set<string>, x: string)
    requires x in left && Counting(left, indegree, ready, target, shut)
    ensures x in indegree
    ensures Counting(left - multiset{x}, indegree[x := indegree[x] - 1],
                     if indegree[x] == 1 then ready + [x] else ready, target, shut)
  {
    ListedNext(indegree, ready, shut, x);
  }

  lemma Drop(out: seq<string>, i: nat)
    requires i < |out|
    ensures out[i] in multiset(out[i..]) && multiset(out[i..]) - multiset{out[i]} == multiset(out[i + 1..])
  {
    assert out[i..] == [out[i]] + out[i + 1..];
  }

  /** Counts down one table by the entries of `out`, and lists what reaches zero. */
  method CountDown(out: seq<string>, start: map<string, int>, listed: seq<string>,
                   ghost target: map<string, nat>, ghost shut: set<string>)
    returns (indegree: map<string, int>, ready: seq<string>)
    requires Counting(multiset(out), start, listed, target, shut)
    ensures Counting(multiset{}, indegree, ready, target, shut)
  {
    indegree, ready := start, listed;
    ghost var left := multiset(out);
    assert out[0..] == out;
    for i := 0 to |out|
      invariant left == multiset(out[i..]) && Counting(left, indegree, ready, target, shut)
    {
      var dependent := out[i];
      Drop(out, i);
      CountingNext(left, indegree, ready, target, shut, dependent);
      left := left - multiset{dependent};
      indegree := indegree[dependent := indegree[dependent] - 1];
      if indegree[dependent] == 0 {
        ready := ready + [dependent];
      }
    }
    assert out[|out|..] == [];
  }

  /** Counts down everything that waits for `x`. */
  method Release(x: string, out: seq<string>, start: map<string, int>, listed: seq<string>,
                 ghost waits: Waits, ghost done: set<string>, ghost shut: set<string>)
    returns (indegree: map<string, int>, ready: seq<string>)
    requires Counted(waits, start, done) && x !in done
    requires forall a :: a in shut && a in waits ==> start[a] == 0
    requires Mirrored(waits, out, x)
    requires Listed(listed, start, shut)
    ensures Counted(waits, indegree, done + {x})
    ensures Listed(ready, indegree, shut)
    ensures forall a :: a in shut && a in waits ==> indegree[a] == 0
  {
    ghost var target: map<string, nat> := map a | a in waits :: Open(waits[a], done + {x});
    forall a | a in waits ensures start[a] == target[a] + multiset(out)[a] { OpenFalls(waits[a], done, x); }
    indegree, ready := CountDown(out, start, listed, target, shut);
  }

  /** Whatever is not emitted still waits for something that was not emitted before the last wave. */
  ghost predicate StillWaits(waits: Waits, stage: map<string, nat>, last: int, a: string)
    requires a in waits
  {
    last >= 0 ==> exists d :: d in waits[a] && (d in stage ==> stage[d] >= last)
  }

  ghost predicate Late(waits: Waits, stage: map<string, nat>, last: int) {
    forall a {:trigger StillWaits(waits, stage, last, a)} ::
      a in waits && a !in stage ==> StillWaits(waits, stage, last, a)
  }

  ghost predicate NoLaterThan(waits: Waits, stage: map<string, nat>, a: string)
    requires a in waits && a in stage
  {
    stage[a] > 0 ==> exists d :: d in waits[a] && d in stage && stage[d] + 1 == stage[a]
  }

  /** All that `a` waits for was emitted before it. */
  ghost predicate Settled(waits: Waits, stage: map<string, nat>, a: string)
    requires a in waits && a in stage
  {
    forall d :: d in waits[a] ==> d in stage && stage[d] < stage[a]
  }

  /** What has been emitted is staged, and nothing in it came later than it had to. */
  ghost predicate Emitted(waits: Waits, stage: map<string, nat>) {
    && stage.Keys <= waits.Keys
    && (forall a {:trigger Settled(waits, stage, a)} :: a in stage ==> Settled(waits, stage, a))
    && (forall a {:trigger NoLaterThan(waits, stage, a)} :: a in stage ==> NoLaterThan(waits, stage, a))
  }

  /** The waves list the stages. */
  ghost predicate WavesOf(waves: seq<seq<string>>, stage: map<string, nat>) {
    && (forall a :: a in stage ==> stage[a] < |waves|)
    && (forall k, a :: 0 <= k < |waves| ==> (a in waves[k] <==> a in stage && stage[a] == k))
    && (forall k :: 0 <= k < |waves| ==> NoDup(waves[k]) && waves[k] != [])
  }

  /** `current` is exactly what is left and waits only for what has been emitted. */
  ghost predicate IsNextWave(waits: Waits, stage: map<string, nat>, current: seq<string>) {
    && current != [] && NoDup(current)
    && (forall a :: a in current ==> a in waits && a !in stage && Free(waits, stage.Keys, a))
    && (forall a {:trigger Free(waits, stage.Keys, a)} :: a in waits && a !in stage && Free(waits, stage.Keys, a) ==> a in current)
  }

  ghost function AfterWave(stage: map<string, nat>, current: seq<string>, k: nat): map<string, nat> {
    map a | a in stage.Keys + Elems(current) :: if a in stage then stage[a] else k
  }

  lemma NewInWave(waits: Waits, stage: map<string, nat>, current: seq<string>, n: nat, a: string)
    requires Late(waits, stage, n - 1) && IsNextWave(waits, stage, current) && a in current
    requires forall d :: d in stage ==> stage[d] < n
    ensures var next := AfterWave(stage, current, n); Settled(waits, next, a) && NoLaterThan(waits, next, a)
  {
    var next := AfterWave(stage, current, n);
    assert next[a] == n;
    assert Free(waits, stage.Keys, a);
    forall d | d in waits[a] ensures d in next && next[d] < n { assert d in stage; }
    if n > 0 {
      assert StillWaits(waits, stage, n - 1, a);
      var d :| d in waits[a] && (d in stage ==> stage[d] >= n - 1);
      assert d in next && next[d] + 1 == next[a];
    }
  }

  lemma NextWaveEmitted(waits: Waits, stage: map<string, nat>, current: seq<string>, n: nat)
    requires Emitted(waits, stage) && Late(waits, stage, n - 1) && IsNextWave(waits, stage, current)
    requires forall a :: a in stage ==> stage[a] < n
    ensures Emitted(waits, AfterWave(stage, current, n))
  {
    var next := AfterWave(stage, current, n);
    forall a | a in next ensures Settled(waits, next, a) && NoLaterThan(waits, next, a) {
      if a in stage {
        assert Settled(waits, stage, a) && NoLaterThan(waits, stage, a);
        forall d | d in waits[a] ensures d in next && next[d] < next[a] { assert d in stage; }
      } else {
        NewInWave(waits, stage, current, n, a);
      }
    }
  }

  lemma NextWaveLate(waits: Waits, stage: map<string, nat>, current: seq<string>, n: nat)
    requires IsNextWave(waits, stage, current)
    requires forall a :: a in stage ==> stage[a] < n
    ensures Late(waits, AfterWave(stage, current, n), n)
  {
    var next := AfterWave(stage, current, n);
    forall a | a in waits && a !in next ensures StillWaits(waits, next, n, a) {
      assert a !in current && !Free(waits, stage.Keys, a);
      var d :| d in waits[a] && d !in stage;
      assert d in next ==> next[d] == n;
    }
  }

  lemma NextWaveListed(waves: seq<seq<string>>, stage: map<string, nat>, current: seq<string>)
    requires WavesOf(waves, stage) && current != [] && NoDup(current) && forall a :: a in current ==> a !in stage
    ensures WavesOf(waves + [current], AfterWave(stage, current, |waves|))
  {
    var next, more := AfterWave(stage, current, |waves|), waves + [current];
    forall k, a | 0 <= k < |more| ensures a in more[k] <==> a in next && next[a] == k {
      if k < |waves| { assert more[k] == waves[k]; }
    }
  }

  /** `current` is new, and with it everything at zero is emitted. */
  ghost predicate Reached(waits: Waits, indegree: map<string, int>, before: set<string>, current: seq<string>) {
    && NoDup(current) && Elems(current) !! before && before + Elems(current) <= waits.Keys <= indegree.Keys
    && forall a :: a in waits ==> (indegree[a] == 0 <==> a in before + Elems(current))
  }

  /** Emits one wave: counts down after each of its addresses. */
  method EmitWave(current: seq<string>, dependents: map<string, seq<string>>, start: map<string, int>,
                  ghost waits: Waits, ghost before: set<string>)
    returns (indegree: map<string, int>, ready: seq<string>)
    requires Counted(waits, start, before) && Reached(waits, start, before, current)
    requires AllMirrored(waits, dependents)
    ensures Counted(waits, indegree, before + Elems(current))
    ensures Listed(ready, indegree, before + Elems(current))
  {
    indegree, ready := start, [];
    ghost var shut, done := before + Elems(current), before;
    for i := 0 to |current|
      invariant done == before + Elems(current[..i])
      invariant Counted(waits, indegree, done)
      invariant Listed(ready, indegree, shut)
      invariant forall a :: a in shut && a in waits ==> indegree[a] == 0
    {
      var address := current[i];
      assert address in Elems(current);
      forall j | 0 <= j < i ensures current[j] != address { assert Differ(current, j, i); }
      assert current[..i + 1] == current[..i] + [address];
      assert Elems(current[..i + 1]) == Elems(current[..i]) + {address};
      indegree, ready := Release(address, Dependents(dependents, address), indegree, ready, waits, done, shut);
      done := done + {address};
    }
    assert current[..|current|] == current;
  }

  ghost predicate Zeros(waits: Waits, indegree: map<string, int>, done: set<string>) {
    && indegree.Keys == waits.Keys
    && forall a {:trigger Free(waits, done, a)} :: a in waits ==> (indegree[a] == 0 <==> Free(waits, done, a))
  }

  lemma CountedZeros(waits: Waits, indegree: map<string, int>, done: set<string>)
    requires Counted(waits, indegree, done)
    ensures Zeros(waits, indegree, done)
  {
    forall a | a in waits ensures indegree[a] == 0 <==> Free(waits, done, a) { OpenZero(waits[a], done); }
  }

  /** Where the loop stands: what is emitted is layered, and the rest is counted and listed. */
  ghost predicate Underway(waits: Waits, waves: seq<seq<string>>, stage: map<string, nat>,
                           indegree: map<string, int>, ready: seq<string>) {
    && Counted(waits, indegree, stage.Keys) && Listed(ready, indegree, stage.Keys)
    && Emitted(waits, stage) && Late(waits, stage, |waves| - 1) && WavesOf(waves, stage)
  }

  lemma Begin(waits: Waits, indegree: map<string, int>, ready: seq<string>)
    requires forall a :: a in waits ==> a in indegree && indegree[a] == |waits[a]|
    requires indegree.Keys == waits.Keys && Listed(ready, indegree, {})
    ensures Underway(waits, [], map[], indegree, ready)
  {
    forall a | a in waits ensures indegree[a] == Open(waits[a], {}) { OpenNothingDone(waits[a]); }
    var nothing: map<string, nat> := map[];
    assert nothing.Keys == {};
  }

  /** The loop itself. All addresses are emitted exactly when the graph has no cycle, and then the
      waves are its layers. */
  method Layers(start: map<string, int>, dependents: map<string, seq<string>>, first: seq<string>, ghost waits: Waits)
    returns (waves: seq<seq<string>>, emitted: nat, ghost stage: map<string, nat>)
    requires ClosedWaits(waits) && Tables(waits, start, dependents)
    requires Listed(first, start, {})
    ensures WavesOf(waves, stage) && emitted == |stage| <= |start|
    ensures emitted == |start| ==> Layered(GraphOf(waits), stage)
    ensures emitted == |start| <==> Acyclic(GraphOf(waits))
  {
    var indegree, ready := start, first;
    waves, emitted, stage := [], 0, map[];
    Begin(waits, indegree, ready);
    while |ready| > 0
      invariant Underway(waits, waves, stage, indegree, ready)
      invariant emitted == Total(waves)
      decreases waits.Keys - stage.Keys
    {
      var current := ready;
      WaveIsNext(waits, stage, current, indegree);
      FewerLeft(waits.Keys, stage.Keys, current);
      indegree, ready := EmitWave(current, dependents, indegree, waits, stage.Keys);
      WaveKeeps(waits, waves, stage, current, indegree, ready);
      WaveAdds(stage, current, |waves|);
      TotalNext(waves, current);
      stage := AfterWave(stage, current, |waves|);
      waves, emitted := waves + [current], emitted + |current|;
    }
    End(waits, waves, stage, indegree);
  }

  /** How many addresses the waves hold. */
  ghost function Total(waves: seq<seq<string>>): nat {
    if waves == [] then 0 else Total(waves[..|waves| - 1]) + |waves[|waves| - 1]|
  }

  lemma TotalNext(waves: seq<seq<string>>, wave: seq<string>)
    ensures Total(waves + [wave]) == Total(waves) + |wave|
  {
    assert (waves + [wave])[..|waves|] == waves;
  }

  lemma {:induction false} TotalUpTo(waves: seq<seq<string>>, stage: map<string, nat>, n: nat)
    requires WavesOf(waves, stage) && n <= |waves|
    ensures Total(waves[..n]) == |set a | a in stage && stage[a] < n|
  {
    if n > 0 {
      TotalUpTo(waves, stage, n - 1);
      assert waves[..n][..n - 1] == waves[..n - 1] && waves[..n][n - 1] == waves[n - 1];
      var before, layer := (set a | a in stage && stage[a] < n - 1), Elems(waves[n - 1]);
      assert (set a | a in stage && stage[a] < n) == before + layer;
      assert before !! layer;
      SizeOfDistinct(waves[n - 1]);
    }
  }

  lemma TotalIsSize(waves: seq<seq<string>>, stage: map<string, nat>)
    requires WavesOf(waves, stage)
    ensures Total(waves) == |stage|
  {
    TotalUpTo(waves, stage, |waves|);
    assert waves[..|waves|] == waves;
    assert (set a | a in stage && stage[a] < |waves|) == stage.Keys;
  }

  lemma End(waits: Waits, waves: seq<seq<string>>, stage: map<string, nat>, indegree: map<string, int>)
    requires ClosedWaits(waits) && Underway(waits, waves, stage, indegree, [])
    ensures Total(waves) == |stage| <= |indegree|
    ensures |stage| == |indegree| ==> Layered(GraphOf(waits), stage)
    ensures |stage| == |indegree| <==> Acyclic(GraphOf(waits))
  {
    TotalIsSize(waves, stage);
    SubsetSize(stage.Keys, waits.Keys);
    if stage.Keys == waits.Keys {
      FinishedIsLayered(waits, stage);
    } else {
      CountedZeros(waits, indegree, stage.Keys);
      UnfinishedIsCyclic(waits, stage);
    }
  }

  /** What is listed at the head of the loop is the next wave. */
  lemma WaveIsNext(waits: Waits, stage: map<string, nat>, current: seq<string>, indegree: map<string, int>)
    requires Emitted(waits, stage) && current != []
    requires Counted(waits, indegree, stage.Keys) && Listed(current, indegree, stage.Keys)
    ensures IsNextWave(waits, stage, current)
    ensures Reached(waits, indegree, stage.Keys, current)
  {
    CountedZeros(waits, indegree, stage.Keys);
    forall a | a in stage ensures indegree[a] == 0 { assert Settled(waits, stage, a) && Free(waits, stage.Keys, a); }
    forall a | a in current ensures Free(waits, stage.Keys, a) {}
  }

  lemma WaveAdds(stage: map<string, nat>, current: seq<string>, k: nat)
    ensures AfterWave(stage, current, k).Keys == stage.Keys + Elems(current)
  {
  }

  lemma FewerLeft(all: set<string>, before: set<string>, current: seq<string>)
    requires current != [] && Elems(current) !! before && before + Elems(current) <= all
    ensures all - (before + Elems(current)) < all - before
  {
    assert current[0] in Elems(current) && current[0] in all - before;
  }

  /** The wave keeps the invariant, given the tables counted down for it. */
  lemma WaveKeeps(waits: Waits, waves: seq<seq<string>>, stage: map<string, nat>, current: seq<string>,
                  indegree: map<string, int>, ready: seq<string>)
    requires Emitted(waits, stage) && Late(waits, stage, |waves| - 1) && WavesOf(waves, stage)
    requires IsNextWave(waits, stage, current)
    requires Counted(waits, indegree, stage.Keys + Elems(current)) && Listed(ready, indegree, stage.Keys + Elems(current))
    ensures Underway(waits, waves + [current], AfterWave(stage, current, |waves|), indegree, ready)
  {
    NextWaveEmitted(waits, stage, current, |waves|);
    NextWaveLate(waits, stage, current, |waves|);
    NextWaveListed(waves, stage, current);
    WaveAdds(stage, current, |waves|);
  }

  lemma {:induction false} SizeOfDistinct(s: seq<string>)
    requires NoDup(s)
    ensures |Elems(s)| == |s|
  {
    if s != [] {
      NoDupTail(s);
      assert Elems(s) == {s[0]} + Elems(s[1..]);
      SizeOfDistinct(s[1..]);
    }
  }

  lemma SubsetSize(a: set<string>, b: set<string>)
    requires a <= b
    ensures |a| <= |b| && (|a| == |b| <==> a == b)
  {
    assert b == a + (b - a);
  }

  lemma NoLaterInGraph(waits: Waits, stage: map<string, nat>, a: string)
    requires a in waits && a in stage && NoLaterThan(waits, stage, a)
    ensures NoLater(GraphOf(waits), stage, a)
  {
    if stage[a] > 0 {
      var d :| d in waits[a] && d in stage && stage[d] + 1 == stage[a];
      assert d in GraphOf(waits)[a];
    }
  }

  lemma FinishedIsStaged(waits: Waits, stage: map<string, nat>)
    requires stage.Keys == waits.Keys
    requires forall a {:trigger Settled(waits, stage, a)} :: a in stage ==> Settled(waits, stage, a)
    ensures Staged(GraphOf(waits), stage)
  {
    var g := GraphOf(waits);
    forall a, d | a in g && d in g[a] ensures d in g && stage[d] < stage[a] { assert Settled(waits, stage, a); }
  }

  lemma FinishedIsLeast(waits: Waits, stage: map<string, nat>)
    requires stage.Keys == waits.Keys
    requires forall a {:trigger NoLaterThan(waits, stage, a)} :: a in stage ==> NoLaterThan(waits, stage, a)
    ensures forall a {:trigger NoLater(GraphOf(waits), stage, a)} :: a in GraphOf(waits) ==> NoLater(GraphOf(waits), stage, a)
  {
    forall a | a in GraphOf(waits) ensures NoLater(GraphOf(waits), stage, a) {
      assert NoLaterThan(waits, stage, a);
      NoLaterInGraph(waits, stage, a);
    }
  }

  lemma FinishedIsLayered(waits: Waits, stage: map<string, nat>)
    requires Emitted(waits, stage) && stage.Keys == waits.Keys
    ensures Layered(GraphOf(waits), stage) && Acyclic(GraphOf(waits))
  {
    FinishedIsStaged(waits, stage);
    FinishedIsLeast(waits, stage);
    StagedIsAcyclic(GraphOf(waits), stage);
  }

  lemma UnfinishedIsCyclic(waits: Waits, stage: map<string, nat>)
    requires ClosedWaits(waits) && stage.Keys <= waits.Keys && stage.Keys != waits.Keys
    requires forall a {:trigger Free(waits, stage.Keys, a)} :: a in waits && a !in stage ==> !Free(waits, stage.Keys, a)
    ensures !Acyclic(GraphOf(waits))
  {
    var g := GraphOf(waits);
    var stuck := waits.Keys - stage.Keys;
    forall a | a in stuck ensures g[a] * stuck != {} {
      assert !Free(waits, stage.Keys, a);
      var d :| d in waits[a] && d !in stage;
      assert d in g[a] * stuck;
    }
    assert stuck != {} by { assert stuck + stage.Keys == waits.Keys; }
    StuckIsCyclic(g, stuck);
  }
}
