/** The semaphores of a wave serve first come, first served: nobody who comes later gets the slots for
    which somebody else is already waiting. */
module WaveOrder {
  import opened Wrappers
  import opened Lists
  import opened RecordedState
  import opened WaveMachine
  import opened WaveGuarantees

  ghost predicate Precedes(queue: seq<nat>, i: nat, j: nat) { exists a: nat, b: nat :: InPlaces(queue, i, j, a, b) }

  predicate InPlaces(queue: seq<nat>, i: nat, j: nat, a: nat, b: nat) { a < b < |queue| && queue[a] == i && queue[b] == j }

  lemma PrecedesAppended(queue: seq<nat>, i: nat, j: nat, x: nat)
    ensures Precedes(queue, i, j) ==> Precedes(queue + [x], i, j)
    ensures i in queue ==> Precedes(queue + [j], i, j)
  {
    if a: nat, b: nat :| InPlaces(queue, i, j, a, b) { assert InPlaces(queue + [x], i, j, a, b); }
    if i in queue {
      var a :| 0 <= a < |queue| && queue[a] == i;
      assert InPlaces(queue + [j], i, j, a, |queue|);
    }
  }

  lemma PrecedesServed(queue: seq<nat>, i: nat, j: nat)
    requires NoDup(queue) && queue != [] && Precedes(queue, i, j)
    ensures queue[0] != j && (queue[0] != i ==> Precedes(queue[1..], i, j))
  {
    var a: nat, b: nat :| InPlaces(queue, i, j, a, b);
    if queue[0] == j { NoDupAt(queue, 0, b); }
    if queue[0] != i { assert InPlaces(queue[1..], i, j, a - 1, b - 1); }
  }

  // ---------------------------------------------------------------- the slots of the run

  /** As long as `i` waits for the run, `j` has not come, or waits behind it. */
  ghost predicate RunBehind(s: World, i: nat, j: nat) {
    At(s, i) && At(s, j) && (s.phase[i].AwaitRun? ==> s.phase[j].Start? || (s.phase[j].AwaitRun? && Precedes(s.run.queue, i, j)))
  }

  /** Where the queue of the run changes, and who moves then. */
  lemma RunQueueStep(c: Config, s: World, l: Label, start: map<string, HostState>)
    requires Inv(c, s, start) && Enabled(c, s, l)
    ensures var t := Next(c, s, l);
      && |t.phase| == |s.phase| && (forall x: nat :: At(s, x) && x != Mover(c, s, l) ==> t.phase[x] == s.phase[x])
      && match l
         case Begin(x) =>
           && s.phase[x].Start?
           && ((s.run.queue == [] && t.run.queue == [] && t.phase[x].Admitted?) || (t.run.queue == s.run.queue + [x] && t.phase[x].AwaitRun?))
         case GrantRun => t.run.queue == s.run.queue[1..] && t.phase[s.run.queue[0]].Admitted?
         case _ => t.run.queue == s.run.queue && !s.phase[Mover(c, s, l)].Start? && !s.phase[Mover(c, s, l)].AwaitRun?
                   && !t.phase[Mover(c, s, l)].Start? && !t.phase[Mover(c, s, l)].AwaitRun?
  {
    QueueHeads(c, s, l, start);
  }

  lemma RunBehindStep(c: Config, s: World, l: Label, start: map<string, HostState>, i: nat, j: nat)
    requires Inv(c, s, start) && Enabled(c, s, l) && i != j && RunBehind(s, i, j) && !s.phase[i].Start?
    ensures RunBehind(Next(c, s, l), i, j) && !Next(c, s, l).phase[i].Start?
  {
    RunQueueStep(c, s, l, start);
    if s.phase[i].AwaitRun? { assert i in s.run.queue; }
    match l
    case Begin(x) => PrecedesAppended(s.run.queue, i, j, x);
    case GrantRun => if Precedes(s.run.queue, i, j) { PrecedesServed(s.run.queue, i, j); }
    case _ =>
  }

  /** Whoever waits for the run is admitted before anybody who had not yet begun. */
  lemma {:induction false} RunIsFair(c: Config, run: seq<World>, labels: seq<Label>, start: map<string, HostState>, k: nat, m: nat, i: nat, j: nat)
    requires IsRun(c, run, labels) && Initial(c, run[0], start) && k <= m < |run|
    requires i != j && At(run[k], i) && At(run[k], j) && run[k].phase[i].AwaitRun? && run[k].phase[j].Start?
    ensures RunBehind(run[m], i, j) && !run[m].phase[i].Start?
  {
    if k < m {
      RunIsFair(c, run, labels, start, k, m - 1, i, j);
      RunInv(c, run, labels, start, m - 1);
      RunBehindStep(c, run[m - 1], labels[m - 1], start, i, j);
    }
  }

  // ---------------------------------------------------------------- the slots of a host

  predicate NotAtHost(p: Phase) { p.Start? || p.AwaitRun? || p.Admitted? }

  /** As long as `i` waits for its host, `j` has not come there, or waits behind it. */
  ghost predicate HostBehind(c: Config, s: World, h: string, i: nat, j: nat) {
    && At(s, i) && At(s, j) && h in s.hosts
    && (s.phase[i].AwaitHost? ==> NotAtHost(s.phase[j]) || (s.phase[j].AwaitHost? && Precedes(s.hosts[h].slots.queue, i, j)))
  }

  /** Where the queue of a host changes, and who moves then. */
  ghost predicate HostQueueStep(c: Config, s: World, l: Label, h: string, x: nat, t: World)
    requires |c.items| == |s.phase| && h in s.hosts
  {
    && |t.phase| == |s.phase| && h in t.hosts && x < |s.phase| && (forall y: nat :: At(s, y) && y != x ==> t.phase[y] == s.phase[y])
    && var queue, next := s.hosts[h].slots.queue, t.hosts[h].slots.queue;
       if l.Admit? && c.items[x].host == h then
         && s.phase[x].Admitted?
         && ((queue == [] && next == [] && t.phase[x].Running?) || (next == queue + [x] && t.phase[x].AwaitHost?))
       else if l == GrantHost(h) then queue != [] && x == queue[0] && s.phase[x].AwaitHost? && next == queue[1..] && t.phase[x].Running?
       else next == queue && (c.items[x].host == h ==> !t.phase[x].AwaitHost? && !s.phase[x].AwaitHost? && (NotAtHost(s.phase[x]) <==> NotAtHost(t.phase[x])))
  }

  lemma HostQueueSteps(c: Config, s: World, l: Label, start: map<string, HostState>, h: string)
    requires Inv(c, s, start) && Enabled(c, s, l) && h in c.hosts && h != ""
    ensures HostQueueStep(c, s, l, h, Mover(c, s, l), Next(c, s, l))
  {
    QueueHeads(c, s, l, start);
    match l
    case Admit(x) => AdmitStep(c, s, x, h);
    case GrantHost(g) => GrantStep(c, s, g, h, start);
    case _ => OtherStep(c, s, l, h);
  }

  lemma AdmitStep(c: Config, s: World, x: nat, h: string)
    requires Shaped(c, s) && Enabled(c, s, Admit(x)) && h in c.hosts && h != ""
    ensures HostQueueStep(c, s, Admit(x), h, x, Next(c, s, Admit(x)))
  {
  }

  lemma GrantStep(c: Config, s: World, g: string, h: string, start: map<string, HostState>)
    requires Inv(c, s, start) && Enabled(c, s, GrantHost(g)) && h in c.hosts && h != ""
    ensures HostQueueStep(c, s, GrantHost(g), h, s.hosts[g].slots.queue[0], Next(c, s, GrantHost(g)))
  {
    var x := s.hosts[g].slots.queue[0];
    assert SideOk(c, s, g, start[g]);
    assert x in s.hosts[g].slots.queue && HostWaits(c, s.phase, g)[x];
  }

  lemma OtherStep(c: Config, s: World, l: Label, h: string)
    requires Shaped(c, s) && Enabled(c, s, l) && h in c.hosts && h != "" && !l.Admit? && !l.GrantHost?
    requires l.GrantRun? ==> s.phase[s.run.queue[0]].AwaitRun?
    ensures HostQueueStep(c, s, l, h, Mover(c, s, l), Next(c, s, l))
  {
  }

  lemma HostBehindStep(c: Config, s: World, l: Label, start: map<string, HostState>, h: string, i: nat, j: nat)
    requires Inv(c, s, start) && Enabled(c, s, l) && i != j && HostBehind(c, s, h, i, j) && !NotAtHost(s.phase[i])
    requires i < |c.items| && j < |c.items| && c.items[i].host == c.items[j].host == h && h != ""
    ensures HostBehind(c, Next(c, s, l), h, i, j) && !NotAtHost(Next(c, s, l).phase[i])
  {
    HostQueueSteps(c, s, l, start, h);
    assert SideOk(c, s, h, start[h]);
    assert s.phase[i].AwaitHost? ==> HostWaits(c, s.phase, h)[i];
    BehindMoves(c, s, l, h, i, j, Mover(c, s, l), Next(c, s, l));
  }

  lemma BehindMoves(c: Config, s: World, l: Label, h: string, i: nat, j: nat, x: nat, t: World)
    requires |c.items| == |s.phase| && h in s.hosts && HostQueueStep(c, s, l, h, x, t) && NoDup(s.hosts[h].slots.queue)
    requires i != j && HostBehind(c, s, h, i, j) && !NotAtHost(s.phase[i]) && (s.phase[i].AwaitHost? ==> i in s.hosts[h].slots.queue)
    requires c.items[i].host == c.items[j].host == h
    ensures HostBehind(c, t, h, i, j) && !NotAtHost(t.phase[i])
  {
    var queue := s.hosts[h].slots.queue;
    PrecedesAppended(queue, i, j, x);
    if queue != [] && Precedes(queue, i, j) { PrecedesServed(queue, i, j); }
  }

  /** Whoever waits for its host gets its slots before anybody who had not yet asked for any there. */
  lemma {:induction false} HostIsFair(c: Config, run: seq<World>, labels: seq<Label>, start: map<string, HostState>, k: nat, m: nat, h: string, i: nat, j: nat)
    requires IsRun(c, run, labels) && Initial(c, run[0], start) && k <= m < |run| && h in c.hosts && h != ""
    requires i != j && At(run[k], i) && At(run[k], j) && run[k].phase[i].AwaitHost? && NotAtHost(run[k].phase[j])
    requires i < |c.items| && j < |c.items| && c.items[i].host == c.items[j].host == h
    ensures HostBehind(c, run[m], h, i, j) && !NotAtHost(run[m].phase[i])
  {
    if k < m {
      HostIsFair(c, run, labels, start, k, m - 1, h, i, j);
      RunInv(c, run, labels, start, m - 1);
      HostBehindStep(c, run[m - 1], labels[m - 1], start, h, i, j);
    }
  }
}
