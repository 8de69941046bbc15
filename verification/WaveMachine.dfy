/** The items of one wave, each a thread of its own. An item takes a slot of the whole run, then its
    slots of its host; it works; then, holding the lock of its host's state, it edits a copy of that
    state, writes it to the backend and keeps what was committed. Threads step in any order. Both
    semaphores serve waiting threads first come, first served. */
module WaveMachine {
  import opened Wrappers
  import opened Lists
  import opened Tallies
  import opened RecordedState

  /** An item, and what it does to the state of its host. */
  datatype Work = Work(address: string, host: string, safeParallel: bool, effect: Effect)

  datatype Config = Config(items: seq<Work>, parallel: nat, perHost: nat, hosts: set<string>)

  datatype Phase =
    | Start
    | AwaitRun
    | Admitted
    | AwaitHost
    | Running
    | AwaitLock
    | Editing(copy: HostState)
    | Storing(committed: HostState)
    | Releasing(stored: bool)
    | Leaving(stored: bool)
    | Finished(stored: bool)

  /** `queue` lists the waiting items, the longest waiting first. */
  datatype Semaphore = Semaphore(used: nat, queue: seq<nat>)

  /** What belongs to a host: its slots, the lock of its state, the state as it is kept, and as it is
      in the backend. */
  datatype Side = Side(slots: Semaphore, lock: Option<nat>, kept: HostState, backend: HostState)

  datatype World = World(phase: seq<Phase>, run: Semaphore, hosts: map<string, Side>, commits: seq<nat>)

  predicate Valid(c: Config) { c.parallel >= 1 && c.perHost >= 1 }

  /** The slots of its host that an item takes: all of them, unless it may run beside others. */
  function HostSlots(c: Config, i: nat): nat
    requires i < |c.items|
  {
    if c.items[i].host == "" then 0 else if c.items[i].safeParallel then 1 else c.perHost
  }

  predicate HoldsRun(p: Phase) { !p.Start? && !p.AwaitRun? && !p.Finished? }

  predicate HoldsHost(p: Phase) {
    p.Running? || p.AwaitLock? || p.Editing? || p.Storing? || p.Releasing?
  }

  predicate HoldsLock(p: Phase) { p.Editing? || p.Storing? }

  predicate HasStored(p: Phase) {
    p.Storing? || (p.Releasing? && p.stored) || (p.Leaving? && p.stored) || (p.Finished? && p.stored)
  }

  datatype Label =
    | Begin(item: nat)
    | GrantRun
    | Admit(item: nat)
    | GrantHost(host: string)
    | Perform(item: nat, writes: bool)
    | Lock(item: nat)
    | Write(item: nat, succeeds: bool)
    | Keep(item: nat)
    | LeaveHost(item: nat)
    | LeaveRun(item: nat)

  predicate At(s: World, i: nat) { i < |s.phase| }

  ghost predicate Shaped(c: Config, s: World) {
    |s.phase| == |c.items| && forall h :: h in c.hosts <==> h in s.hosts
  }

  /** When a step can be taken. */
  ghost predicate Enabled(c: Config, s: World, l: Label)
    requires Shaped(c, s)
  {
    match l
    case Begin(i) => At(s, i) && s.phase[i].Start?
    case GrantRun => s.run.queue != [] && At(s, s.run.queue[0]) && s.run.used + 1 <= c.parallel
    case Admit(i) => At(s, i) && s.phase[i].Admitted?
    case GrantHost(h) => h in c.hosts && s.hosts[h].slots.queue != [] && At(s, s.hosts[h].slots.queue[0])
                         && s.hosts[h].slots.used + HostSlots(c, s.hosts[h].slots.queue[0]) <= c.perHost
    case Perform(i, writes) => At(s, i) && s.phase[i].Running? && (writes ==> c.items[i].host in c.hosts)
    case Lock(i) => At(s, i) && s.phase[i].AwaitLock? && c.items[i].host in c.hosts && s.hosts[c.items[i].host].lock.None?
    case Write(i, succeeds) => At(s, i) && s.phase[i].Editing? && c.items[i].host in c.hosts
                               && (succeeds ==> Edit(c.items[i].effect, s.phase[i].copy).Some?)
    case Keep(i) => At(s, i) && s.phase[i].Storing? && c.items[i].host in c.hosts
    case LeaveHost(i) => At(s, i) && s.phase[i].Releasing?
                         && (c.items[i].host in c.hosts ==> s.hosts[c.items[i].host].slots.used >= HostSlots(c, i))
    case LeaveRun(i) => At(s, i) && s.phase[i].Leaving? && s.run.used >= 1
  }

  function Move(s: World, i: nat, p: Phase): World
    requires At(s, i)
  {
    s.(phase := s.phase[i := p])
  }

  function Put(s: World, h: string, side: Side): World { s.(hosts := s.hosts[h := side]) }

  /** What the step does. */
  ghost function Next(c: Config, s: World, l: Label): World
    requires Shaped(c, s) && Enabled(c, s, l)
  {
    match l
    case Begin(i) =>
      if s.run.queue == [] && s.run.used + 1 <= c.parallel
      then Move(s, i, Admitted).(run := s.run.(used := s.run.used + 1))
      else Move(s, i, AwaitRun).(run := s.run.(queue := s.run.queue + [i]))
    case GrantRun =>
      Move(s, s.run.queue[0], Admitted).(run := Semaphore(s.run.used + 1, s.run.queue[1..]))
    case Admit(i) => NextAdmit(c, s, i)
    case GrantHost(h) =>
      var side := s.hosts[h];
      var i := side.slots.queue[0];
      Put(Move(s, i, Running), h, side.(slots := Semaphore(side.slots.used + HostSlots(c, i), side.slots.queue[1..])))
    case Perform(i, writes) => Move(s, i, if writes then AwaitLock else Releasing(false))
    case Lock(i) =>
      var side := s.hosts[c.items[i].host];
      Put(Move(s, i, Editing(side.kept)), c.items[i].host, side.(lock := Some(i)))
    case Write(i, succeeds) =>
      var side := s.hosts[c.items[i].host];
      if succeeds then
        var edited := Edit(c.items[i].effect, s.phase[i].copy).value;
        Put(Move(s, i, Storing(edited)), c.items[i].host, side.(backend := edited)).(commits := s.commits + [i])
      else Put(Move(s, i, Releasing(false)), c.items[i].host, side.(lock := None))
    case Keep(i) =>
      var side := s.hosts[c.items[i].host];
      Put(Move(s, i, Releasing(true)), c.items[i].host, side.(kept := s.phase[i].committed, lock := None))
    case LeaveHost(i) =>
      var h, left := c.items[i].host, Move(s, i, Leaving(s.phase[i].stored));
      if h != "" && h in s.hosts
      then Put(left, h, s.hosts[h].(slots := s.hosts[h].slots.(used := s.hosts[h].slots.used - HostSlots(c, i)))) else left
    case LeaveRun(i) => Move(s, i, Finished(s.phase[i].stored)).(run := s.run.(used := s.run.used - 1))
  }

  /** An admitted item asks for the slots of its host: it needs none without a host, and fails with an
      unknown one. */
  ghost function NextAdmit(c: Config, s: World, i: nat): World
    requires Shaped(c, s) && At(s, i)
  {
    var h := c.items[i].host;
    if h == "" then Move(s, i, Running)
    else if h !in s.hosts then Move(s, i, Leaving(false))
    else
      var side := s.hosts[h];
      if side.slots.queue == [] && side.slots.used + HostSlots(c, i) <= c.perHost
      then Put(Move(s, i, Running), h, side.(slots := side.slots.(used := side.slots.used + HostSlots(c, i))))
      else Put(Move(s, i, AwaitHost), h, side.(slots := side.slots.(queue := side.slots.queue + [i])))
  }

  ghost predicate Initial(c: Config, s: World, start: map<string, HostState>) {
    && s.phase == seq(|c.items|, i => Start) && s.run == Semaphore(0, []) && s.commits == []
    && start.Keys == c.hosts && s.hosts == map h | h in c.hosts :: Side(Semaphore(0, []), None, start[h], start[h])
  }

  // ---------------------------------------------------------------- semaphores

  /** The slots in use are those held, and the queue lists who waits. */
  ghost predicate SlotsOk(sem: Semaphore, loads: seq<nat>, waits: seq<bool>, size: nat) {
    && sem.used == Tally(loads) <= size && NoDup(sem.queue)
    && forall i: nat :: i in sem.queue <==> i < |waits| && waits[i]
  }

  lemma TakeSlots(sem: Semaphore, loads: seq<nat>, waits: seq<bool>, size: nat, i: nat, w: nat)
    requires SlotsOk(sem, loads, waits, size) && i < |loads| && loads[i] == 0 && sem.used + w <= size
    ensures SlotsOk(sem.(used := sem.used + w), loads[i := w], waits, size)
  {
    TallyUpdate(loads, i, w);
  }

  lemma GiveSlots(sem: Semaphore, loads: seq<nat>, waits: seq<bool>, size: nat, i: nat)
    requires SlotsOk(sem, loads, waits, size) && i < |loads|
    ensures loads[i] <= sem.used && SlotsOk(sem.(used := sem.used - loads[i]), loads[i := 0], waits, size)
  {
    TallyAtLeast(loads, i);
    TallyUpdate(loads, i, 0);
  }

  lemma Queue(sem: Semaphore, loads: seq<nat>, waits: seq<bool>, size: nat, i: nat)
    requires SlotsOk(sem, loads, waits, size) && i < |waits| && !waits[i]
    ensures SlotsOk(sem.(queue := sem.queue + [i]), loads, waits[i := true], size)
  {
    NoDupAppend(sem.queue, i);
  }

  lemma Unqueue(sem: Semaphore, loads: seq<nat>, waits: seq<bool>, size: nat)
    requires SlotsOk(sem, loads, waits, size) && sem.queue != []
    ensures sem.queue[0] < |waits| && waits[sem.queue[0]]
    ensures SlotsOk(sem.(queue := sem.queue[1..]), loads, waits[sem.queue[0] := false], size)
  {
    var i := sem.queue[0];
    assert i in sem.queue;
    NoDupTail(sem.queue);
    assert forall j: nat :: j in sem.queue <==> j == i || j in sem.queue[1..];
  }

  // ---------------------------------------------------------------- slots of the run

  function RunLoad(p: Phase): nat { if HoldsRun(p) then 1 else 0 }

  function RunLoads(phase: seq<Phase>): (r: seq<nat>)
    ensures |r| == |phase| && forall i :: 0 <= i < |r| ==> r[i] == RunLoad(phase[i])
  {
    seq(|phase|, i requires 0 <= i < |phase| => RunLoad(phase[i]))
  }

  function RunWaits(phase: seq<Phase>): (r: seq<bool>)
    ensures |r| == |phase| && forall i :: 0 <= i < |r| ==> r[i] == phase[i].AwaitRun?
  {
    seq(|phase|, i requires 0 <= i < |phase| => phase[i].AwaitRun?)
  }

  ghost predicate RunOk(c: Config, s: World) { SlotsOk(s.run, RunLoads(s.phase), RunWaits(s.phase), c.parallel) }

  lemma RunMoves(phase: seq<Phase>, i: nat, p: Phase)
    requires i < |phase|
    ensures RunLoads(phase[i := p]) == RunLoads(phase)[i := RunLoad(p)]
    ensures RunWaits(phase[i := p]) == RunWaits(phase)[i := p.AwaitRun?]
    ensures RunLoad(p) == RunLoad(phase[i]) ==> RunLoads(phase[i := p]) == RunLoads(phase)
    ensures p.AwaitRun? == phase[i].AwaitRun? ==> RunWaits(phase[i := p]) == RunWaits(phase)
  {
  }

  /** The item that a step moves. */
  ghost function Mover(c: Config, s: World, l: Label): (i: nat)
    requires Shaped(c, s) && Enabled(c, s, l)
    ensures At(s, i)
  {
    match l
    case GrantRun => s.run.queue[0]
    case GrantHost(h) => s.hosts[h].slots.queue[0]
    case _ => l.item
  }

  /** Most steps leave the slots of the run alone. */
  lemma RunUntouched(c: Config, s: World, l: Label)
    requires Shaped(c, s) && Enabled(c, s, l) && !l.Begin? && !l.GrantRun? && !l.LeaveRun?
    requires l.GrantHost? ==> s.phase[s.hosts[l.host].slots.queue[0]].AwaitHost?
    ensures var i, t := Mover(c, s, l), Next(c, s, l);
      t.run == s.run && t.phase == s.phase[i := t.phase[i]]
      && RunLoad(t.phase[i]) == RunLoad(s.phase[i]) && t.phase[i].AwaitRun? == s.phase[i].AwaitRun?
  {
  }

  lemma BeginKeepsRun(c: Config, s: World, i: nat)
    requires Shaped(c, s) && RunOk(c, s) && Enabled(c, s, Begin(i))
    ensures RunOk(c, Next(c, s, Begin(i)))
  {
    var p := Next(c, s, Begin(i)).phase[i];
    RunMoves(s.phase, i, p);
    if p.Admitted? { TakeSlots(s.run, RunLoads(s.phase), RunWaits(s.phase), c.parallel, i, 1); }
    else { Queue(s.run, RunLoads(s.phase), RunWaits(s.phase), c.parallel, i); }
  }

  lemma GrantKeepsRun(c: Config, s: World)
    requires Shaped(c, s) && RunOk(c, s) && Enabled(c, s, GrantRun)
    ensures RunOk(c, Next(c, s, GrantRun))
  {
    var i := s.run.queue[0];
    RunMoves(s.phase, i, Admitted);
    Unqueue(s.run, RunLoads(s.phase), RunWaits(s.phase), c.parallel);
    TakeSlots(s.run.(queue := s.run.queue[1..]), RunLoads(s.phase), RunWaits(s.phase)[i := false], c.parallel, i, 1);
  }

  lemma StepKeepsRun(c: Config, s: World, l: Label)
    requires Shaped(c, s) && RunOk(c, s) && Enabled(c, s, l)
    requires l.GrantHost? ==> s.phase[s.hosts[l.host].slots.queue[0]].AwaitHost?
    ensures RunOk(c, Next(c, s, l))
  {
    match l
    case Begin(i) => BeginKeepsRun(c, s, i);
    case GrantRun => GrantKeepsRun(c, s);
    case LeaveRun(i) =>
      RunMoves(s.phase, i, Finished(s.phase[i].stored));
      GiveSlots(s.run, RunLoads(s.phase), RunWaits(s.phase), c.parallel, i);
    case _ =>
      RunUntouched(c, s, l);
      RunMoves(s.phase, Mover(c, s, l), Next(c, s, l).phase[Mover(c, s, l)]);
  }

  // ---------------------------------------------------------------- slots of a host

  function HostLoad(c: Config, h: string, i: nat, p: Phase): nat
    requires i < |c.items|
  {
    if c.items[i].host == h && HoldsHost(p) then HostSlots(c, i) else 0
  }

  predicate HostWait(c: Config, h: string, i: nat, p: Phase)
    requires i < |c.items|
  {
    c.items[i].host == h && p.AwaitHost?
  }

  function HostLoads(c: Config, phase: seq<Phase>, h: string): (r: seq<nat>)
    requires |phase| == |c.items|
    ensures |r| == |phase| && forall i :: 0 <= i < |r| ==> r[i] == HostLoad(c, h, i, phase[i])
  {
    seq(|phase|, i requires 0 <= i < |phase| => HostLoad(c, h, i, phase[i]))
  }

  function HostWaits(c: Config, phase: seq<Phase>, h: string): (r: seq<bool>)
    requires |phase| == |c.items|
    ensures |r| == |phase| && forall i :: 0 <= i < |r| ==> r[i] == HostWait(c, h, i, phase[i])
  {
    seq(|phase|, i requires 0 <= i < |phase| => HostWait(c, h, i, phase[i]))
  }

  ghost predicate HostOk(c: Config, s: World, h: string)
    requires Shaped(c, s) && h in c.hosts
  {
    SlotsOk(s.hosts[h].slots, HostLoads(c, s.phase, h), HostWaits(c, s.phase, h), c.perHost)
  }

  /** Whoever works for a host, or waits for it, has a host that exists. */
  ghost predicate Placed(c: Config, i: nat, p: Phase)
    requires i < |c.items|
  {
    && (p.AwaitHost? ==> c.items[i].host in c.hosts && c.items[i].host != "")
    && (HoldsHost(p) ==> c.items[i].host in c.hosts || c.items[i].host == "")
    && (p.AwaitLock? || HoldsLock(p) ==> c.items[i].host in c.hosts)
  }

  ghost predicate AllPlaced(c: Config, s: World)
    requires |s.phase| == |c.items|
  {
    forall i: nat {:trigger Placed(c, i, s.phase[i])} :: At(s, i) ==> Placed(c, i, s.phase[i])
  }

  lemma HostMoves(c: Config, phase: seq<Phase>, h: string, i: nat, p: Phase)
    requires i < |phase| == |c.items|
    ensures HostLoads(c, phase[i := p], h) == HostLoads(c, phase, h)[i := HostLoad(c, h, i, p)]
    ensures HostWaits(c, phase[i := p], h) == HostWaits(c, phase, h)[i := HostWait(c, h, i, p)]
    ensures HostLoad(c, h, i, p) == HostLoad(c, h, i, phase[i]) ==> HostLoads(c, phase[i := p], h) == HostLoads(c, phase, h)
    ensures HostWait(c, h, i, p) == HostWait(c, h, i, phase[i]) ==> HostWaits(c, phase[i := p], h) == HostWaits(c, phase, h)
  {
  }

  /** Whoever neither joins a host, nor leaves it, nor starts to wait for it, leaves its slots alone. */
  lemma HostUntouched(c: Config, s: World, l: Label, h: string)
    requires Shaped(c, s) && Enabled(c, s, l) && h in c.hosts
    requires !l.Admit? && !l.LeaveHost? && !l.GrantHost?
    requires l.GrantRun? ==> s.phase[s.run.queue[0]].AwaitRun?
    ensures var i, t := Mover(c, s, l), Next(c, s, l);
      && Shaped(c, t) && t.hosts[h].slots == s.hosts[h].slots && t.phase == s.phase[i := t.phase[i]]
      && HostLoad(c, h, i, t.phase[i]) == HostLoad(c, h, i, s.phase[i])
      && HostWait(c, h, i, t.phase[i]) == HostWait(c, h, i, s.phase[i])
  {
  }

  lemma AdmitKeepsHost(c: Config, s: World, i: nat, h: string)
    requires Shaped(c, s) && h in c.hosts && HostOk(c, s, h) && Enabled(c, s, Admit(i))
    ensures Shaped(c, Next(c, s, Admit(i))) && HostOk(c, Next(c, s, Admit(i)), h)
  {
    var p := Next(c, s, Admit(i)).phase[i];
    HostMoves(c, s.phase, h, i, p);
    if c.items[i].host == h && h != "" {
      if p.Running? { TakeSlots(s.hosts[h].slots, HostLoads(c, s.phase, h), HostWaits(c, s.phase, h), c.perHost, i, HostSlots(c, i)); }
      else { Queue(s.hosts[h].slots, HostLoads(c, s.phase, h), HostWaits(c, s.phase, h), c.perHost, i); }
    }
  }

  lemma GrantKeepsHost(c: Config, s: World, g: string, h: string)
    requires Shaped(c, s) && h in c.hosts && HostOk(c, s, h) && Enabled(c, s, GrantHost(g)) && HostOk(c, s, g)
    ensures Shaped(c, Next(c, s, GrantHost(g))) && HostOk(c, Next(c, s, GrantHost(g)), h)
  {
    var i := s.hosts[g].slots.queue[0];
    HostMoves(c, s.phase, h, i, Running);
    Unqueue(s.hosts[g].slots, HostLoads(c, s.phase, g), HostWaits(c, s.phase, g), c.perHost);
    if g == h {
      TakeSlots(s.hosts[h].slots.(queue := s.hosts[h].slots.queue[1..]), HostLoads(c, s.phase, h), HostWaits(c, s.phase, h)[i := false],
                c.perHost, i, HostSlots(c, i));
    }
  }

  lemma LeaveKeepsHost(c: Config, s: World, i: nat, h: string)
    requires Shaped(c, s) && h in c.hosts && HostOk(c, s, h) && Enabled(c, s, LeaveHost(i))
    ensures Shaped(c, Next(c, s, LeaveHost(i))) && HostOk(c, Next(c, s, LeaveHost(i)), h)
  {
    HostMoves(c, s.phase, h, i, Leaving(s.phase[i].stored));
    if c.items[i].host == h { GiveSlots(s.hosts[h].slots, HostLoads(c, s.phase, h), HostWaits(c, s.phase, h), c.perHost, i); }
  }

  lemma StepKeepsHost(c: Config, s: World, l: Label, h: string)
    requires Shaped(c, s) && h in c.hosts && HostOk(c, s, h) && Enabled(c, s, l)
    requires l.GrantRun? ==> s.phase[s.run.queue[0]].AwaitRun?
    requires l.GrantHost? ==> HostOk(c, s, l.host)
    ensures Shaped(c, Next(c, s, l)) && HostOk(c, Next(c, s, l), h)
  {
    match l
    case Admit(i) => AdmitKeepsHost(c, s, i, h);
    case GrantHost(g) => GrantKeepsHost(c, s, g, h);
    case LeaveHost(i) => LeaveKeepsHost(c, s, i, h);
    case _ =>
      HostUntouched(c, s, l, h);
      HostMoves(c, s.phase, h, Mover(c, s, l), Next(c, s, l).phase[Mover(c, s, l)]);
  }

  lemma StepKeepsPlaces(c: Config, s: World, l: Label)
    requires Shaped(c, s) && Enabled(c, s, l) && AllPlaced(c, s)
    requires l.GrantHost? ==> s.phase[s.hosts[l.host].slots.queue[0]].AwaitHost?
    ensures Shaped(c, Next(c, s, l)) && AllPlaced(c, Next(c, s, l))
  {
    var i, t := Mover(c, s, l), Next(c, s, l);
    assert Placed(c, i, s.phase[i]);
    assert Placed(c, i, t.phase[i]);
    forall j: nat | At(t, j) ensures Placed(c, j, t.phase[j]) { assert j != i ==> Placed(c, j, s.phase[j]); }
  }

  // ---------------------------------------------------------------- states

  /** What the holder of a state's lock has in hand. */
  ghost predicate InHand(side: Side, p: Phase) {
    && (p.Editing? ==> p.copy == side.kept == side.backend)
    && (p.Storing? ==> p.committed == side.backend)
  }

  /** The lock says who holds it, and while nobody does, what is kept is what is committed. */
  ghost predicate StateOk(c: Config, s: World, h: string)
    requires Shaped(c, s) && h in c.hosts
  {
    var side := s.hosts[h];
    && (if side.lock.None? then side.kept == side.backend else At(s, side.lock.value) && c.items[side.lock.value].host == h)
    && (forall i: nat {:trigger InHand(side, s.phase[i])} :: At(s, i) && c.items[i].host == h ==>
         InHand(side, s.phase[i]) && (HoldsLock(s.phase[i]) <==> side.lock == Some(i)))
  }

  /** The effects of the commits to `h`, in their order. */
  ghost function EffectsAt(c: Config, commits: seq<nat>, h: string): seq<Effect> {
    if commits == [] then [] else
      var before, i := EffectsAt(c, commits[..|commits| - 1], h), commits[|commits| - 1];
      if i < |c.items| && c.items[i].host == h then before + [c.items[i].effect] else before
  }

  /** The commits are those of the items that have stored something. */
  ghost predicate Logged(c: Config, s: World) {
    NoDup(s.commits) && forall i: nat :: i in s.commits <==> At(s, i) && HasStored(s.phase[i])
  }

  /** What is in the backend is what the commits have made of the state at the start. */
  ghost predicate Replayed(c: Config, s: World, h: string, start: HostState)
    requires Shaped(c, s) && h in c.hosts
  {
    s.hosts[h].backend == Outcome(start, EffectsAt(c, s.commits, h))
  }

  lemma StateUntouched(c: Config, s: World, l: Label)
    requires Shaped(c, s) && Enabled(c, s, l) && !l.Lock? && !l.Write? && !l.Keep?
    requires l.GrantRun? ==> s.phase[s.run.queue[0]].AwaitRun?
    requires l.GrantHost? ==> s.phase[s.hosts[l.host].slots.queue[0]].AwaitHost?
    ensures var i, t := Mover(c, s, l), Next(c, s, l);
      t.phase == s.phase[i := t.phase[i]] && !HoldsLock(s.phase[i]) && !HoldsLock(t.phase[i])
      && (HasStored(s.phase[i]) <==> HasStored(t.phase[i]))
      && t.commits == s.commits && (forall h :: h in s.hosts <==> h in t.hosts)
      && (forall h :: h in s.hosts ==> t.hosts[h] == s.hosts[h].(slots := t.hosts[h].slots))
  {
  }

  lemma LockKeepsState(c: Config, s: World, i: nat, h: string)
    requires Shaped(c, s) && h in c.hosts && StateOk(c, s, h) && Enabled(c, s, Lock(i))
    ensures Shaped(c, Next(c, s, Lock(i))) && StateOk(c, Next(c, s, Lock(i)), h)
  {
    var t := Next(c, s, Lock(i));
    forall j: nat | At(t, j) && c.items[j].host == h
      ensures InHand(t.hosts[h], t.phase[j]) && (HoldsLock(t.phase[j]) <==> t.hosts[h].lock == Some(j))
    {
      assert InHand(s.hosts[h], s.phase[j]);
    }
  }

  lemma WriteKeepsState(c: Config, s: World, i: nat, succeeds: bool, h: string)
    requires Shaped(c, s) && h in c.hosts && StateOk(c, s, h) && Enabled(c, s, Write(i, succeeds))
    ensures Shaped(c, Next(c, s, Write(i, succeeds))) && StateOk(c, Next(c, s, Write(i, succeeds)), h)
  {
    var t := Next(c, s, Write(i, succeeds));
    assert c.items[i].host == h ==> InHand(s.hosts[h], s.phase[i]);
    forall j: nat | At(t, j) && c.items[j].host == h
      ensures InHand(t.hosts[h], t.phase[j]) && (HoldsLock(t.phase[j]) <==> t.hosts[h].lock == Some(j))
    {
      assert InHand(s.hosts[h], s.phase[j]);
    }
  }

  lemma KeepKeepsState(c: Config, s: World, i: nat, h: string)
    requires Shaped(c, s) && h in c.hosts && StateOk(c, s, h) && Enabled(c, s, Keep(i))
    ensures Shaped(c, Next(c, s, Keep(i))) && StateOk(c, Next(c, s, Keep(i)), h)
  {
    var t := Next(c, s, Keep(i));
    assert c.items[i].host == h ==> InHand(s.hosts[h], s.phase[i]);
    forall j: nat | At(t, j) && c.items[j].host == h
      ensures InHand(t.hosts[h], t.phase[j]) && (HoldsLock(t.phase[j]) <==> t.hosts[h].lock == Some(j))
    {
      assert InHand(s.hosts[h], s.phase[j]);
    }
  }

  lemma OtherKeepsState(c: Config, s: World, l: Label, h: string)
    requires Shaped(c, s) && h in c.hosts && StateOk(c, s, h) && Enabled(c, s, l) && !l.Lock? && !l.Write? && !l.Keep?
    requires l.GrantRun? ==> s.phase[s.run.queue[0]].AwaitRun?
    requires l.GrantHost? ==> s.phase[s.hosts[l.host].slots.queue[0]].AwaitHost?
    ensures Shaped(c, Next(c, s, l)) && StateOk(c, Next(c, s, l), h)
  {
    StateUntouched(c, s, l);
    var t := Next(c, s, l);
    forall j: nat | At(t, j) && c.items[j].host == h
      ensures InHand(t.hosts[h], t.phase[j]) && (HoldsLock(t.phase[j]) <==> t.hosts[h].lock == Some(j))
    {
      assert InHand(s.hosts[h], s.phase[j]);
    }
  }

  lemma StepKeepsState(c: Config, s: World, l: Label, h: string)
    requires Shaped(c, s) && h in c.hosts && StateOk(c, s, h) && Enabled(c, s, l)
    requires l.GrantRun? ==> s.phase[s.run.queue[0]].AwaitRun?
    requires l.GrantHost? ==> s.phase[s.hosts[l.host].slots.queue[0]].AwaitHost?
    ensures Shaped(c, Next(c, s, l)) && StateOk(c, Next(c, s, l), h)
  {
    match l
    case Lock(i) => LockKeepsState(c, s, i, h);
    case Write(i, succeeds) => WriteKeepsState(c, s, i, succeeds, h);
    case Keep(i) => KeepKeepsState(c, s, i, h);
    case _ => OtherKeepsState(c, s, l, h);
  }

  lemma WriteKeepsReplay(c: Config, s: World, i: nat, succeeds: bool, h: string, start: HostState)
    requires Shaped(c, s) && h in c.hosts && Enabled(c, s, Write(i, succeeds)) && Replayed(c, s, h, start)
    requires StateOk(c, s, h)
    ensures Shaped(c, Next(c, s, Write(i, succeeds))) && Replayed(c, Next(c, s, Write(i, succeeds)), h, start)
  {
    assert c.items[i].host == h ==> InHand(s.hosts[h], s.phase[i]);
    assert (s.commits + [i])[..|s.commits|] == s.commits;
    OutcomeNext(start, EffectsAt(c, s.commits, h), c.items[i].effect);
  }

  lemma StepKeepsReplay(c: Config, s: World, l: Label, h: string, start: HostState)
    requires Shaped(c, s) && h in c.hosts && Enabled(c, s, l) && Replayed(c, s, h, start) && StateOk(c, s, h)
    requires l.GrantRun? ==> s.phase[s.run.queue[0]].AwaitRun?
    requires l.GrantHost? ==> s.phase[s.hosts[l.host].slots.queue[0]].AwaitHost?
    ensures Shaped(c, Next(c, s, l)) && Replayed(c, Next(c, s, l), h, start)
  {
    match l
    case Write(i, succeeds) => WriteKeepsReplay(c, s, i, succeeds, h, start);
    case Lock(i) =>
    case Keep(i) =>
    case _ => StateUntouched(c, s, l);
  }

  lemma StepKeepsLog(c: Config, s: World, l: Label)
    requires Shaped(c, s) && Enabled(c, s, l) && Logged(c, s)
    requires l.GrantRun? ==> s.phase[s.run.queue[0]].AwaitRun?
    requires l.GrantHost? ==> s.phase[s.hosts[l.host].slots.queue[0]].AwaitHost?
    ensures Logged(c, Next(c, s, l))
  {
    match l
    case Write(i, succeeds) => NoDupAppend(s.commits, i);
    case Lock(i) =>
    case Keep(i) =>
    case _ => StateUntouched(c, s, l);
  }

  // ---------------------------------------------------------------- runs

  ghost predicate SideOk(c: Config, s: World, h: string, start: HostState)
    requires Shaped(c, s) && h in c.hosts
  {
    HostOk(c, s, h) && StateOk(c, s, h) && Replayed(c, s, h, start)
  }

  /** What holds in every state that the threads can reach. */
  ghost predicate Inv(c: Config, s: World, start: map<string, HostState>) {
    && Shaped(c, s) && start.Keys == c.hosts && RunOk(c, s) && AllPlaced(c, s) && Logged(c, s)
    && forall h {:trigger SideOk(c, s, h, start[h])} :: h in c.hosts ==> SideOk(c, s, h, start[h])
  }

  lemma QueueHeads(c: Config, s: World, l: Label, start: map<string, HostState>)
    requires Inv(c, s, start) && Enabled(c, s, l)
    ensures l.GrantRun? ==> s.phase[s.run.queue[0]].AwaitRun?
    ensures l.GrantHost? ==> HostOk(c, s, l.host) && s.phase[s.hosts[l.host].slots.queue[0]].AwaitHost?
  {
    if l.GrantRun? {
      Unqueue(s.run, RunLoads(s.phase), RunWaits(s.phase), c.parallel);
    } else if l.GrantHost? {
      assert SideOk(c, s, l.host, start[l.host]);
      Unqueue(s.hosts[l.host].slots, HostLoads(c, s.phase, l.host), HostWaits(c, s.phase, l.host), c.perHost);
    }
  }

  lemma StepKeepsInv(c: Config, s: World, l: Label, start: map<string, HostState>)
    requires Inv(c, s, start) && Enabled(c, s, l)
    ensures Inv(c, Next(c, s, l), start)
  {
    QueueHeads(c, s, l, start);
    StepKeepsRun(c, s, l);
    StepKeepsPlaces(c, s, l);
    StepKeepsLog(c, s, l);
    var t := Next(c, s, l);
    forall h | h in c.hosts ensures SideOk(c, t, h, start[h]) {
      assert SideOk(c, s, h, start[h]);
      StepKeepsHost(c, s, l, h);
      StepKeepsState(c, s, l, h);
      StepKeepsReplay(c, s, l, h, start[h]);
    }
  }

  lemma InitialInv(c: Config, s: World, start: map<string, HostState>)
    requires Initial(c, s, start)
    ensures Inv(c, s, start)
  {
    TallyOfZeros(RunLoads(s.phase));
    assert NoDup<nat>([]);
    forall h | h in c.hosts ensures SideOk(c, s, h, start[h]) {
      TallyOfZeros(HostLoads(c, s.phase, h));
      forall i: nat | At(s, i) ensures InHand(s.hosts[h], s.phase[i]) {}
    }
  }

  /** A run takes one enabled step after another. */
  ghost predicate IsRun(c: Config, run: seq<World>, labels: seq<Label>) {
    && |run| == |labels| + 1 && (forall k :: 0 <= k < |run| ==> Shaped(c, run[k]))
    && forall k {:trigger labels[k]} :: 0 <= k < |labels| ==> Enabled(c, run[k], labels[k]) && run[k + 1] == Next(c, run[k], labels[k])
  }

  lemma {:induction false} RunInv(c: Config, run: seq<World>, labels: seq<Label>, start: map<string, HostState>, k: nat)
    requires IsRun(c, run, labels) && Initial(c, run[0], start) && k < |run|
    ensures Inv(c, run[k], start)
  {
    if k == 0 { InitialInv(c, run[0], start); } else {
      RunInv(c, run, labels, start, k - 1);
      StepKeepsInv(c, run[k - 1], labels[k - 1], start);
    }
  }
}
