/** What the threads of a wave have done, by the steps they have taken: every item that performs and has
    something to write goes on to write it, and what has been written is what is stored. */
module WaveLogs {
  import opened Wrappers
  import opened Lists
  import opened RecordedState
  import opened WaveMachine
  import opened WaveGuarantees

  /** The items whose write to the backend has succeeded, in the order of their writes. */
  function Written(labels: seq<Label>): seq<nat> {
    if labels == [] then [] else
      var before, last := Written(labels[..|labels| - 1]), labels[|labels| - 1];
      if last.Write? && last.succeeds then before + [last.item] else before
  }

  lemma {:induction false} WrittenHas(labels: seq<Label>, i: nat)
    ensures i in Written(labels) <==> Write(i, true) in labels
  {
    if labels != [] {
      var front, last := labels[..|labels| - 1], labels[|labels| - 1];
      assert labels == front + [last];
      WrittenHas(front, i);
    }
  }

  predicate Performs(labels: seq<Label>, i: nat) { Perform(i, true) in labels || Perform(i, false) in labels }

  predicate Writes(labels: seq<Label>, i: nat) { Write(i, true) in labels || Write(i, false) in labels }

  /** An item without a host, or with one that the run knows. */
  predicate HasPlace(c: Config, i: nat)
    requires i < |c.items|
  {
    c.items[i].host == "" || c.items[i].host in c.hosts
  }

  /** What the phase of an item says about the steps that it has taken. */
  predicate Tracked(c: Config, labels: seq<Label>, i: nat, p: Phase)
    requires i < |c.items|
  {
    match p
    case Start | AwaitRun | Admitted => !Performs(labels, i) && !Writes(labels, i)
    case AwaitHost | Running => HasPlace(c, i) && !Performs(labels, i) && !Writes(labels, i)
    case AwaitLock | Editing(_) => HasPlace(c, i) && Perform(i, true) in labels && Perform(i, false) !in labels && !Writes(labels, i)
    case Storing(_) => HasPlace(c, i) && Wrote(labels, i, true) && Write(i, true) in labels
    case Releasing(stored) => HasPlace(c, i) && Performs(labels, i) && Wrote(labels, i, stored)
    case Leaving(stored) => (HasPlace(c, i) <==> Performs(labels, i)) && Wrote(labels, i, stored)
    case Finished(stored) => (HasPlace(c, i) <==> Performs(labels, i)) && Wrote(labels, i, stored)
  }

  /** The item has written exactly if it had something to write, and it is known how that ended. */
  predicate Wrote(labels: seq<Label>, i: nat, stored: bool) {
    && (Writes(labels, i) <==> Perform(i, true) in labels)
    && !(Perform(i, true) in labels && Perform(i, false) in labels) && !(Write(i, true) in labels && Write(i, false) in labels)
    && (stored <==> Write(i, true) in labels)
  }

  ghost predicate AllTracked(c: Config, s: World, labels: seq<Label>)
    requires |s.phase| == |c.items|
  {
    forall i: nat {:trigger Tracked(c, labels, i, s.phase[i])} :: At(s, i) ==> Tracked(c, labels, i, s.phase[i])
  }

  lemma LabelAdded(labels: seq<Label>, l: Label, m: Label)
    ensures m in labels + [l] <==> m in labels || m == l
  {
  }

  /** Steps of other items do not count. */
  lemma OthersTracked(c: Config, labels: seq<Label>, l: Label, i: nat, p: Phase)
    requires i < |c.items| && Tracked(c, labels, i, p)
    requires (l.Perform? || l.Write?) ==> l.item != i
    ensures Tracked(c, labels + [l], i, p)
  {
    forall m ensures m in labels + [l] <==> m in labels || m == l { LabelAdded(labels, l, m); }
  }

  lemma MoverTracked(c: Config, s: World, l: Label, labels: seq<Label>, start: map<string, HostState>)
    requires Inv(c, s, start) && Enabled(c, s, l)
    requires Tracked(c, labels, Mover(c, s, l), s.phase[Mover(c, s, l)])
    ensures |Next(c, s, l).phase| == |s.phase| && Tracked(c, labels + [l], Mover(c, s, l), Next(c, s, l).phase[Mover(c, s, l)])
  {
    QueueHeads(c, s, l, start);
    var i := Mover(c, s, l);
    assert Placed(c, i, s.phase[i]);
    forall m ensures m in labels + [l] <==> m in labels || m == l { LabelAdded(labels, l, m); }
  }

  lemma OnlyMoverMoves(c: Config, s: World, l: Label)
    requires Shaped(c, s) && Enabled(c, s, l)
    ensures var i, t := Mover(c, s, l), Next(c, s, l); |t.phase| == |s.phase| && t.phase == s.phase[i := t.phase[i]]
  {
  }

  lemma StepTracked(c: Config, s: World, l: Label, labels: seq<Label>, start: map<string, HostState>)
    requires Inv(c, s, start) && Enabled(c, s, l) && AllTracked(c, s, labels)
    ensures |Next(c, s, l).phase| == |c.items| && AllTracked(c, Next(c, s, l), labels + [l])
  {
    var i, t := Mover(c, s, l), Next(c, s, l);
    assert Tracked(c, labels, i, s.phase[i]);
    MoverTracked(c, s, l, labels, start);
    OnlyMoverMoves(c, s, l);
    forall j: nat | At(t, j) ensures Tracked(c, labels + [l], j, t.phase[j]) {
      if j != i {
        assert Tracked(c, labels, j, s.phase[j]);
        OthersTracked(c, labels, l, j, s.phase[j]);
      }
    }
  }

  lemma StepCommits(c: Config, s: World, l: Label)
    requires Shaped(c, s) && Enabled(c, s, l)
    ensures Next(c, s, l).commits == if l.Write? && l.succeeds then s.commits + [l.item] else s.commits
  {
  }

  /** Along a run: the phases are tracked, and the commits are the successful writes. */
  lemma {:induction false} RunTracked(c: Config, run: seq<World>, labels: seq<Label>, start: map<string, HostState>, k: nat)
    requires IsRun(c, run, labels) && Initial(c, run[0], start) && k < |run|
    ensures |run[k].phase| == |c.items| && AllTracked(c, run[k], labels[..k]) && run[k].commits == Written(labels[..k])
  {
    if k > 0 {
      var l := labels[k - 1];
      RunTracked(c, run, labels, start, k - 1);
      RunInv(c, run, labels, start, k - 1);
      assert labels[..k] == labels[..k - 1] + [l] && labels[..k][..k - 1] == labels[..k - 1];
      StepTracked(c, run[k - 1], l, labels[..k - 1], start);
      StepCommits(c, run[k - 1], l);
    }
  }

  /** No update is lost. When all have finished: every item with a place has performed; whatever had
      something to write has written it, successfully or with an error; and what is kept and stored of a host
      is what the successful writes make of the state at the start, each once, in their order. */
  lemma NoUpdateIsLost(c: Config, run: seq<World>, labels: seq<Label>, start: map<string, HostState>, h: string)
    requires IsRun(c, run, labels) && Initial(c, run[0], start) && AllFinished(run[|labels|]) && h in c.hosts
    ensures forall i: nat :: i < |c.items| ==> (HasPlace(c, i) <==> Performs(labels, i))
    ensures forall i: nat :: i < |c.items| ==> (Writes(labels, i) <==> Perform(i, true) in labels)
    ensures NoDup(Written(labels)) && forall i: nat :: i in Written(labels) <==> Write(i, true) in labels
    ensures run[|labels|].hosts[h].kept == run[|labels|].hosts[h].backend == Outcome(start[h], EffectsAt(c, Written(labels), h))
  {
    var s := run[|labels|];
    RunTracked(c, run, labels, start, |labels|);
    RunInv(c, run, labels, start, |labels|);
    assert labels[..|labels|] == labels;
    StatesAtEnd(c, s, start, h);
    forall i: nat ensures i in Written(labels) <==> Write(i, true) in labels { WrittenHas(labels, i); }
    forall i: nat | i < |c.items|
      ensures HasPlace(c, i) <==> Performs(labels, i)
      ensures Writes(labels, i) <==> Perform(i, true) in labels
    {
      assert At(s, i) && s.phase[i].Finished? && Tracked(c, labels, i, s.phase[i]);
    }
  }
}
