/** What the invariant of a wave's threads gives: the slots are never overrun, some thread can always
    go on until all have finished, no commit is lost, and the order of the threads does not matter. */
module WaveGuarantees {
  import opened Wrappers
  import opened Lists
  import opened Tallies
  import opened RecordedState
  import opened WaveMachine

  // ---------------------------------------------------------------- slots

  /** At most `parallel` items are at work, and at most `perHost` of them for any one host. */
  lemma SlotsAreLimited(c: Config, s: World, start: map<string, HostState>, some: set<nat>)
    requires Inv(c, s, start) && Valid(c)
    ensures (forall i :: i in some ==> At(s, i) && HoldsRun(s.phase[i])) ==> |some| <= c.parallel
    ensures forall h :: h in c.hosts && h != "" && (forall i :: i in some ==> At(s, i) && WorksFor(c, s, i, h)) ==> |some| <= c.perHost
  {
    if forall i :: i in some ==> At(s, i) && HoldsRun(s.phase[i]) {
      CountAtMostTally(RunLoads(s.phase), some);
    }
    forall h | h in c.hosts && h != "" && (forall i :: i in some ==> At(s, i) && WorksFor(c, s, i, h))
      ensures |some| <= c.perHost
    {
      assert SideOk(c, s, h, start[h]);
      CountAtMostTally(HostLoads(c, s.phase, h), some);
    }
  }

  ghost predicate WorksFor(c: Config, s: World, i: nat, h: string)
    requires Shaped(c, s) && At(s, i)
  {
    c.items[i].host == h && HoldsHost(s.phase[i])
  }

  /** An item that is not safe to run beside others is alone at its host. */
  lemma UnsafeItemsRunAlone(c: Config, s: World, start: map<string, HostState>, i: nat, j: nat)
    requires Inv(c, s, start) && Valid(c) && At(s, i) && At(s, j) && i != j
    requires c.items[i].host == c.items[j].host != "" && c.items[i].host in c.hosts && !c.items[i].safeParallel
    ensures !(HoldsHost(s.phase[i]) && HoldsHost(s.phase[j]))
  {
    var h := c.items[i].host;
    assert SideOk(c, s, h, start[h]);
    TallyAtLeastBoth(HostLoads(c, s.phase, h), if i < j then i else j, if i < j then j else i);
  }

  // ---------------------------------------------------------------- progress

  ghost predicate AllFinished(s: World) { forall i: nat :: At(s, i) ==> s.phase[i].Finished? }

  /** As long as something has not finished, there is a step that can be taken: the nested semaphores
      and the state locks do not deadlock. */
  lemma SomeStepIsEnabled(c: Config, s: World, start: map<string, HostState>) returns (l: Label)
    requires Inv(c, s, start) && Valid(c) && !AllFinished(s)
    ensures Enabled(c, s, l)
  {
    if i: nat :| At(s, i) && !s.phase[i].Finished? && !s.phase[i].AwaitRun? && !s.phase[i].AwaitHost? {
      l := StepOf(c, s, start, i);
    } else if i: nat :| At(s, i) && s.phase[i].AwaitHost? {
      assert Placed(c, i, s.phase[i]);
      l := GrantWaitingHost(c, s, start, i);
    } else {
      var i: nat :| At(s, i) && !s.phase[i].Finished?;
      TallyOfZeros(RunLoads(s.phase));
      assert i in s.run.queue;
      Unqueue(s.run, RunLoads(s.phase), RunWaits(s.phase), c.parallel);
      l := GrantRun;
    }
  }

  /** An item that waits for no semaphore can step, or waits for a lock whose holder can. */
  lemma StepOf(c: Config, s: World, start: map<string, HostState>, i: nat) returns (l: Label)
    requires Inv(c, s, start) && At(s, i)
    requires !s.phase[i].Finished? && !s.phase[i].AwaitRun? && !s.phase[i].AwaitHost?
    ensures Enabled(c, s, l)
  {
    var h := c.items[i].host;
    assert Placed(c, i, s.phase[i]);
    match s.phase[i]
    case Start => l := Begin(i);
    case Admitted => l := Admit(i);
    case Running => l := Perform(i, false);
    case AwaitLock =>
      assert SideOk(c, s, h, start[h]);
      if s.hosts[h].lock.None? { l := Lock(i); } else {
        var j := s.hosts[h].lock.value;
        assert InHand(s.hosts[h], s.phase[j]);
        l := if s.phase[j].Editing? then Write(j, false) else Keep(j);
      }
    case Editing(_) => l := Write(i, false);
    case Storing(_) => l := Keep(i);
    case Releasing(_) =>
      if h in c.hosts { assert SideOk(c, s, h, start[h]); TallyAtLeast(HostLoads(c, s.phase, h), i); }
      l := LeaveHost(i);
    case Leaving(_) =>
      TallyAtLeast(RunLoads(s.phase), i);
      l := LeaveRun(i);
  }

  /** When nobody is at work, the longest waiting item of a host gets its slots. */
  lemma GrantWaitingHost(c: Config, s: World, start: map<string, HostState>, i: nat) returns (l: Label)
    requires Inv(c, s, start) && Valid(c) && At(s, i) && s.phase[i].AwaitHost? && c.items[i].host in c.hosts
    requires forall j: nat :: At(s, j) ==> !HoldsHost(s.phase[j])
    ensures Enabled(c, s, l)
  {
    var h := c.items[i].host;
    assert SideOk(c, s, h, start[h]);
    TallyOfZeros(HostLoads(c, s.phase, h));
    assert HostWaits(c, s.phase, h)[i];
    assert i in s.hosts[h].slots.queue;
    Unqueue(s.hosts[h].slots, HostLoads(c, s.phase, h), HostWaits(c, s.phase, h), c.perHost);
    l := GrantHost(h);
  }

  function Rank(p: Phase): nat {
    match p
    case Start => 10
    case AwaitRun => 9
    case Admitted => 8
    case AwaitHost => 7
    case Running => 6
    case AwaitLock => 5
    case Editing(_) => 4
    case Storing(_) => 3
    case Releasing(_) => 2
    case Leaving(_) => 1
    case Finished(_) => 0
  }

  function Ranks(phase: seq<Phase>): (r: seq<nat>)
    ensures |r| == |phase| && forall i :: 0 <= i < |r| ==> r[i] == Rank(phase[i])
  {
    seq(|phase|, i requires 0 <= i < |phase| => Rank(phase[i]))
  }

  /** Every step brings the end closer, so that no run goes on for ever. */
  lemma StepsRunOut(c: Config, s: World, l: Label, start: map<string, HostState>)
    requires Inv(c, s, start) && Enabled(c, s, l)
    ensures Tally(Ranks(Next(c, s, l).phase)) < Tally(Ranks(s.phase))
  {
    QueueHeads(c, s, l, start);
    var i := Mover(c, s, l);
    var p := Next(c, s, l).phase[i];
    assert Rank(p) < Rank(s.phase[i]);
    assert Next(c, s, l).phase == s.phase[i := p];
    assert Ranks(s.phase[i := p]) == Ranks(s.phase)[i := Rank(p)];
    TallyUpdate(Ranks(s.phase), i, Rank(p));
  }

  // ---------------------------------------------------------------- commits

  /** While the lock of a host's state is free, what is kept is what is committed. */
  lemma FreeLockMeansInStep(c: Config, s: World, start: map<string, HostState>, h: string)
    requires Inv(c, s, start) && h in c.hosts && (forall i: nat :: At(s, i) && c.items[i].host == h ==> !HoldsLock(s.phase[i]))
    ensures s.hosts[h].lock.None? && s.hosts[h].kept == s.hosts[h].backend
  {
    assert SideOk(c, s, h, start[h]);
    var side := s.hosts[h];
    forall i: nat | At(s, i) && c.items[i].host == h ensures side.lock != Some(i) { assert InHand(side, s.phase[i]); }
  }

  /** At the end no update is lost: what is kept is what is in the backend, and that is what the items
      that stored something make of the state at the start, each once, in the order of their commits. */
  lemma StatesAtEnd(c: Config, s: World, start: map<string, HostState>, h: string)
    requires Inv(c, s, start) && AllFinished(s) && h in c.hosts
    ensures s.hosts[h].kept == s.hosts[h].backend == Outcome(start[h], EffectsAt(c, s.commits, h))
    ensures NoDup(s.commits) && forall i: nat :: i in s.commits <==> At(s, i) && s.phase[i].stored
  {
    FreeLockMeansInStep(c, s, start, h);
    assert SideOk(c, s, h, start[h]);
  }

  lemma {:induction false} EffectsJoined(c: Config, a: seq<nat>, b: seq<nat>, h: string)
    ensures EffectsAt(c, a + b, h) == EffectsAt(c, a, h) + EffectsAt(c, b, h)
  {
    if b == [] {
      assert a + b == a;
    } else {
      assert (a + b)[..|a + b| - 1] == a + b[..|b| - 1];
      EffectsJoined(c, a, b[..|b| - 1], h);
    }
  }

  lemma EffectsWithout(c: Config, before: seq<nat>, i: nat, after: seq<nat>, h: string)
    ensures multiset(EffectsAt(c, before + [i] + after, h))
         == multiset(EffectsAt(c, before + after, h)) + multiset(EffectsAt(c, [i], h))
  {
    EffectsJoined(c, before + [i], after, h);
    EffectsJoined(c, before, [i], h);
    EffectsJoined(c, before, after, h);
  }

  lemma {:induction false} SameEffects(c: Config, commits: seq<nat>, others: seq<nat>, h: string)
    requires multiset(commits) == multiset(others)
    ensures multiset(EffectsAt(c, commits, h)) == multiset(EffectsAt(c, others, h))
  {
    SameMembers(commits, others);
    if commits != [] {
      var i, front := commits[|commits| - 1], commits[..|commits| - 1];
      assert commits == front + [i];
      var before, after := SplitAt(others, i);
      WithoutSame(front, i, before, after);
      SameEffects(c, front, before + after, h);
      EffectsWithout(c, before, i, after, h);
      EffectsJoined(c, front, [i], h);
    }
  }

  lemma SplitAt(s: seq<nat>, i: nat) returns (before: seq<nat>, after: seq<nat>)
    requires i in multiset(s)
    ensures s == before + [i] + after
  {
    var k :| 0 <= k < |s| && s[k] == i;
    before, after := s[..k], s[k + 1..];
  }

  lemma WithoutSame(front: seq<nat>, i: nat, before: seq<nat>, after: seq<nat>)
    requires multiset(front + [i]) == multiset(before + [i] + after)
    ensures multiset(front) == multiset(before + after)
  {
    assert multiset(before + [i] + after) == multiset(before + after) + multiset{i};
    assert multiset(front + [i]) == multiset(front) + multiset{i};
    assert multiset(front) == multiset(front) + multiset{i} - multiset{i};
  }

  lemma EffectsOfItems(c: Config, commits: seq<nat>, h: string, e: Effect)
    requires e in EffectsAt(c, commits, h)
    ensures exists i :: i in commits && i < |c.items| && c.items[i].host == h && c.items[i].effect == e
    decreases |commits|
  {
    var front, last := commits[..|commits| - 1], commits[|commits| - 1];
    if e in EffectsAt(c, front, h) {
      EffectsOfItems(c, front, h, e);
      var i :| i in front && i < |c.items| && c.items[i].host == h && c.items[i].effect == e;
      assert i in commits;
    } else {
      assert last in commits;
    }
  }

  /** Two runs in which the same items stored something end with the same states, in whatever order
      the threads stepped, if what the items of a host do is compatible. */
  lemma InterleavingDoesNotMatter(c: Config, s: World, t: World, start: map<string, HostState>, h: string)
    requires Inv(c, s, start) && Inv(c, t, start) && AllFinished(s) && AllFinished(t) && h in c.hosts
    requires forall i: nat :: At(s, i) ==> s.phase[i] == t.phase[i]
    requires forall i: nat, j: nat {:trigger Compatible(c.items[i].effect, c.items[j].effect)} ::
      i < |c.items| && j < |c.items| && c.items[i].host == c.items[j].host == h ==> Compatible(c.items[i].effect, c.items[j].effect)
    ensures s.hosts[h].backend == t.hosts[h].backend
  {
    StatesAtEnd(c, s, start, h);
    StatesAtEnd(c, t, start, h);
    SameMultiset(s.commits, t.commits);
    SameEffects(c, s.commits, t.commits, h);
    var effects := EffectsAt(c, s.commits, h);
    forall e, f | e in effects && f in effects ensures Compatible(e, f) {
      EffectsOfItems(c, s.commits, h, e);
      EffectsOfItems(c, s.commits, h, f);
    }
    OrderDoesNotMatter(start[h], effects, EffectsAt(c, t.commits, h));
  }

  lemma {:induction false} SameMultiset(a: seq<nat>, b: seq<nat>)
    requires NoDup(a) && NoDup(b) && forall i :: i in a <==> i in b
    ensures multiset(a) == multiset(b)
  {
    OnceEach(a);
    OnceEach(b);
  }

  lemma {:induction false} OnceEach(a: seq<nat>)
    requires NoDup(a)
    ensures forall i :: multiset(a)[i] == if i in a then 1 else 0
  {
    if a != [] {
      NoDupTail(a);
      OnceEach(a[1..]);
      assert a == [a[0]] + a[1..];
      assert multiset(a) == multiset{a[0]} + multiset(a[1..]);
    }
  }
}
