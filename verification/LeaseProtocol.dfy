/** The remote state lock: a guard flock, a lease record, an ownership marker and a lock directory.
    Acquire, renew and unlock are shell scripts; here each file operation of a script is one step of
    its process, any number of processes interleave, and any process may die between two steps. */
module LeaseProtocol {
  import opened Wrappers

  /** The random token of one `Lock` call, with the whole-second lease and grace its client uses. */
  datatype Token = Token(id: nat, ttl: nat, grace: nat)

  /** What the lock path holds: a record the scripts accept, a damaged version 2 record, or anything else. */
  datatype LockFile =
    | NoFile
    | Lease(token: Token, expires: nat, mtime: nat)
    | Malformed(mtime: nat)
    | Legacy
    | Irregular

  datatype LockDir = Missing | Directory | NotDirectory

  /** The marker inside the lock directory; it is torn between truncation and write. */
  datatype Marker = NoMarker | Torn(mtime: nat) | Owner(token: Token, mtime: nat)

  /** The per-token temporary file that is renamed over the lock path. */
  datatype Temp = Partial(mtime: nat) | Full(token: Token, expires: nat, mtime: nat)

  /** A script run. A token is drawn for one `Lock` call, so it has one acquire script. */
  datatype Pid =
    | AcquireBy(token: Token)
    | RenewBy(token: Token, run: nat)
    | UnlockBy(token: Token, run: nat)

  /** Where a script stands: `now` is the clock value (in seconds) that it read and will use. */
  datatype Pc =
    | Waiting
    | GotGuard
    | Inspect(now: nat)
    | OpenTemp(now: nat)
    | WriteTemp(now: nat)
    | MakeDir(now: nat)
    | OpenMarker(now: nat)
    | WriteMarker(now: nat)
    | Publish(now: nat)
    | Touch
    | RemoveRecord
    | RemoveMarker
    | RemoveDir
    | RemoveTemp
    | Leaving(done: bool)
    | Exited(ok: bool)
    | Dead

  datatype Proc = Proc(pc: Pc, deadline: nat)

  /** The clock counts nanoseconds; the guard is the process whose descriptor holds the flock. */
  datatype State = State(
    clock: nat,
    guard: Option<Pid>,
    lockFile: LockFile,
    lockDir: LockDir,
    marker: Marker,
    temps: map<Token, Temp>,
    procs: map<Pid, Proc>)

  const NANOS: nat := 1_000_000_000

  /** `date +%s` */
  function Now(s: State): nat { s.clock / NANOS }

  predicate Marked(s: State, t: Token) { s.marker.Owner? && s.marker.token == t }

  /** The record and the marker both name `t`. */
  predicate Held(s: State, t: Token) {
    s.lockFile.Lease? && s.lockFile.token == t && Marked(s, t)
  }

  /** `t` is held and its lease has not expired. */
  predicate Live(s: State, t: Token) { Held(s, t) && Now(s) < s.lockFile.expires }

  // ---------------------------------------------------------------- steps

  function Goto(s: State, p: Pid, pc: Pc): State
    requires p in s.procs
  {
    s.(procs := s.procs[p := s.procs[p].(pc := pc)])
  }

  datatype Verdict = Claim | Wait | Refuse

  /** The decision tree of the acquire script, made with the guard held. */
  function Judge(s: State, t: Token, now: nat): Verdict {
    if s.lockFile.Irregular? || s.lockDir.NotDirectory? then Refuse
    else match s.lockFile
      case Lease(owner, expires, mtime) =>
        if Marked(s, owner) then (if now >= expires then Claim else Wait)
        else if now - mtime >= t.grace then Claim else Wait
      case Malformed(mtime) => if now - mtime >= t.grace then Claim else Wait
      case Legacy => Wait
      case _ =>
        if s.lockDir.Missing? then Claim
        else if s.marker.Owner? && now - s.marker.mtime >= t.grace then Claim
        else Wait
  }

  /** `mv -f` of the temporary file over the lock path. */
  function Renamed(f: Temp): LockFile {
    match f
    case Partial(mtime) => Malformed(mtime)
    case Full(token, expires, mtime) => Lease(token, expires, mtime)
  }

  /** Opening the temporary file, filling it and renaming it: shared by acquire and renew. */
  function OpenTempEffect(s: State, p: Pid, now: nat): State
    requires p in s.procs
  {
    Goto(s.(temps := s.temps[p.token := Partial(Now(s))]), p, WriteTemp(now))
  }

  function WriteTempEffect(s: State, p: Pid, now: nat, next: Pc): State
    requires p in s.procs
  {
    var full := Full(p.token, now + p.token.ttl, Now(s));
    Goto(if p.token in s.temps then s.(temps := s.temps[p.token := full]) else s, p, next)
  }

  function PublishEffect(s: State, p: Pid, next: Pc): State
    requires p in s.procs
  {
    if p.token in s.temps then
      Goto(s.(lockFile := Renamed(s.temps[p.token]), temps := s.temps - {p.token}), p, next)
    else
      Goto(s, p, Exited(false))
  }

  ghost predicate AcquireMove(s: State, p: Pid, s': State)
    requires p in s.procs && p.AcquireBy?
  {
    var deadline := s.procs[p].deadline;
    match s.procs[p].pc
    case Waiting =>
      || (s.guard.None? && s' == Goto(s.(guard := Some(p)), p, GotGuard))
      || (s.guard.Some? && s.clock >= deadline && s' == Goto(s, p, Exited(false)))
    case GotGuard =>
      s' == Goto(s, p, if s.clock >= deadline then Leaving(false) else Inspect(Now(s)))
    case Inspect(now) =>
      s' == Goto(s, p, match Judge(s, p.token, now)
                       case Claim => OpenTemp(now)
                       case Wait => Leaving(false)
                       case Refuse => Exited(false))
    case OpenTemp(now) => s' == OpenTempEffect(s, p, now)
    case WriteTemp(now) =>
      s' == WriteTempEffect(s, p, now, if s.lockDir.Directory? then OpenMarker(now) else MakeDir(now))
    case MakeDir(now) =>
      || (s.lockDir.Missing? && s' == Goto(s.(lockDir := Directory, marker := NoMarker), p, OpenMarker(now)))
      || s' == Goto(s, p, RemoveTemp)
    case RemoveTemp => s' == Goto(s.(temps := s.temps - {p.token}), p, Leaving(false))
    case OpenMarker(now) =>
      s' == (if s.lockDir.Directory? then Goto(s.(marker := Torn(Now(s))), p, WriteMarker(now))
             else Goto(s, p, Exited(false)))
    case WriteMarker(now) =>
      s' == Goto(s.(marker := Owner(p.token, Now(s))), p, Publish(now))
    case Publish(now) => s' == PublishEffect(s, p, Leaving(true))
    case Leaving(done) =>
      s' == Goto(s.(guard := None), p,
                 if done then Exited(true) else if s.clock >= deadline then Exited(false) else Waiting)
    case _ => false
  }

  /** The checks of renew and unlock up to the token comparison. */
  predicate OwnRecord(s: State, t: Token) { Held(s, t) }

  ghost predicate RenewMove(s: State, p: Pid, s': State)
    requires p in s.procs && p.RenewBy?
  {
    match s.procs[p].pc
    case Waiting =>
      || (s.guard.None? && s' == Goto(s.(guard := Some(p)), p, GotGuard))
      || (s.guard.Some? && s.clock >= s.procs[p].deadline && s' == Goto(s, p, Exited(false)))
    case GotGuard =>
      s' == Goto(s, p, if OwnRecord(s, p.token) && Now(s) < s.lockFile.expires
                       then OpenTemp(Now(s)) else Exited(false))
    case OpenTemp(now) => s' == OpenTempEffect(s, p, now)
    case WriteTemp(now) => s' == WriteTempEffect(s, p, now, Publish(now))
    case Publish(now) => s' == PublishEffect(s, p, Touch)
    case Touch =>
      s' == Goto(match s.marker
                 case Owner(t, _) => s.(marker := Owner(t, Now(s)))
                 case _ => if s.lockDir.Directory? then s.(marker := Torn(Now(s))) else s, p, Leaving(true))
    case Leaving(done) => s' == Goto(s.(guard := None), p, Exited(done))
    case _ => false
  }

  ghost predicate UnlockMove(s: State, p: Pid, s': State)
    requires p in s.procs && p.UnlockBy?
  {
    match s.procs[p].pc
    case Waiting => s.guard.None? && s' == Goto(s.(guard := Some(p)), p, GotGuard)
    case GotGuard =>
      s' == Goto(s, p, if s.lockFile.NoFile? then Leaving(true)
                       else if OwnRecord(s, p.token) then RemoveRecord else Leaving(false))
    case RemoveRecord => s' == Goto(s.(lockFile := NoFile), p, RemoveMarker)
    case RemoveMarker => s' == Goto(s.(marker := NoMarker), p, RemoveDir)
    case RemoveDir =>
      || s' == Goto(s, p, Leaving(true))
      || (s.marker.NoMarker? && s.lockDir.Directory? && s' == Goto(s.(lockDir := Missing), p, Leaving(true)))
    case Leaving(done) => s' == Goto(s.(guard := None), p, Exited(done))
    case _ => false
  }

  ghost predicate Move(s: State, p: Pid, s': State)
    requires p in s.procs
  {
    match p
    case AcquireBy(_) => AcquireMove(s, p, s')
    case RenewBy(_, _) => RenewMove(s, p, s')
    case UnlockBy(_, _) => UnlockMove(s, p, s')
  }

  predicate Stopped(pc: Pc) { pc.Exited? || pc.Dead? }

  /** One step of the whole system. */
  datatype Label =
    | Tick(to: nat)
    | Start(who: Pid, deadline: nat)
    | Kill(who: Pid)
    | Reap
    | DropTemp(token: Token)
    | Run(who: Pid)

  ghost predicate StepBy(s: State, l: Label, s': State) {
    match l
    case Tick(to) => s.clock <= to && s' == s.(clock := to)
    case Start(p, deadline) => p !in s.procs && s' == s.(procs := s.procs[p := Proc(Waiting, deadline)])
    case Kill(p) => p in s.procs && !Stopped(s.procs[p].pc) && s' == Goto(s, p, Dead)
    // The kernel drops the flock of a process that has gone, at some later time.
    case Reap =>
      && s.guard.Some? && s.guard.value in s.procs && Stopped(s.procs[s.guard.value].pc)
      && s' == s.(guard := None)
    // The cleanup trap of an acquire or renew script runs on exit and on signals, guard or not.
    case DropTemp(t) => s' == s.(temps := s.temps - {t})
    case Run(p) => p in s.procs && Move(s, p, s')
  }

  ghost predicate Step(s: State, s': State) { exists l :: StepBy(s, l, s') }

  /** No script has run yet and no version 2 lease is recorded. */
  predicate Init(s: State) {
    && s.procs == map[] && s.guard.None? && s.temps == map[]
    && !s.lockFile.Lease? && (s.marker.NoMarker? || s.lockDir.Directory?)
  }

  ghost predicate StepAt(run: seq<State>, i: nat)
    requires i < |run| - 1
  {
    Step(run[i], run[i + 1])
  }

  ghost predicate IsRun(run: seq<State>) {
    && |run| > 0 && Init(run[0])
    && forall i :: 0 <= i < |run| - 1 ==> StepAt(run, i)
  }

  // ---------------------------------------------------------------- invariant

  predicate Critical(pc: Pc) { !pc.Waiting? && !Stopped(pc) }

  /** The acquire script of a token has passed its rename and will not rename again. */
  predicate Spent(s: State, t: Token) {
    && AcquireBy(t) in s.procs
    && var pc := s.procs[AcquireBy(t)].pc; Stopped(pc) || pc == Leaving(true)
  }

  predicate TempReady(s: State, t: Token, now: nat) {
    t in s.temps ==> s.temps[t].Full? && s.temps[t].token == t && s.temps[t].expires == now + t.ttl
  }

  predicate NoLiveLease(s: State) { s.lockFile.Lease? ==> s.lockFile.expires <= Now(s) }

  /** What the process inside the guard has established, by script and position. */
  predicate HolderOk(s: State, p: Pid)
    requires p in s.procs
  {
    var pc := s.procs[p].pc;
    match p
    case AcquireBy(t) =>
      (match pc
       case Inspect(now) => now <= Now(s)
       case OpenTemp(now) => now <= Now(s) && NoLiveLease(s)
       case WriteTemp(now) => now <= Now(s) && NoLiveLease(s)
       case MakeDir(now) => now <= Now(s) && NoLiveLease(s) && TempReady(s, t, now)
       case OpenMarker(now) => now <= Now(s) && NoLiveLease(s) && TempReady(s, t, now) && s.lockDir.Directory?
       case WriteMarker(now) => now <= Now(s) && NoLiveLease(s) && TempReady(s, t, now) && s.lockDir.Directory?
       case Publish(now) => now <= Now(s) && NoLiveLease(s) && TempReady(s, t, now) && Marked(s, t)
       case RemoveTemp => NoLiveLease(s)
       case _ => true)
    case RenewBy(t, _) =>
      (match pc
       case OpenTemp(now) => now <= Now(s) && Held(s, t) && now < s.lockFile.expires <= now + t.ttl
       case WriteTemp(now) => now <= Now(s) && Held(s, t) && now < s.lockFile.expires <= now + t.ttl
       case Publish(now) =>
         now <= Now(s) && Held(s, t) && now < s.lockFile.expires <= now + t.ttl && TempReady(s, t, now)
       case Touch => Held(s, t)
       case _ => true)
    case UnlockBy(t, _) =>
      (match pc
       case RemoveRecord => Held(s, t)
       case RemoveMarker => s.lockFile.NoFile? && Marked(s, t)
       case RemoveDir => s.lockFile.NoFile? && s.marker.NoMarker?
       case _ => true)
  }

  /** What the files say, whoever runs. */
  predicate FilesOk(s: State) {
    && (s.marker.NoMarker? || s.lockDir.Directory?)
    // A record whose marker is missing or names another token has expired.
    && (s.lockFile.Lease? && !Marked(s, s.lockFile.token) ==> s.lockFile.expires <= Now(s))
    && (s.lockFile.Lease? ==> s.lockFile.expires <= Now(s) + s.lockFile.token.ttl)
    && (s.lockFile.Lease? ==> Spent(s, s.lockFile.token))
  }

  /** Only the process that holds the guard is between taking and leaving it. */
  ghost predicate GuardOk(s: State) {
    && (forall p :: p in s.procs && Critical(s.procs[p].pc) ==> s.guard == Some(p))
    && (s.guard.Some? ==> s.guard.value in s.procs)
  }

  ghost predicate Inv(s: State) {
    FilesOk(s) && GuardOk(s) && (s.guard.Some? ==> HolderOk(s, s.guard.value))
  }

  lemma ClockOrder(a: nat, b: nat)
    requires a <= b
    ensures a / NANOS <= b / NANOS
  {
  }

  /** Taking, keeping and leaving the guard. */
  lemma MoveKeepsGuard(s: State, p: Pid, s': State)
    requires GuardOk(s) && p in s.procs && Move(s, p, s')
    ensures GuardOk(s')
    ensures s'.guard.Some? ==> s'.guard == s.guard || s'.guard == Some(p)
    ensures Critical(s.procs[p].pc) ==> s.guard == Some(p)
    ensures s.procs[p].pc.Waiting? && s'.guard == s.guard ==> s' == Goto(s, p, s'.procs[p].pc)
  {
    match p
    case AcquireBy(_) => assert AcquireMove(s, p, s');
    case RenewBy(_, _) => assert RenewMove(s, p, s');
    case UnlockBy(_, _) => assert UnlockMove(s, p, s');
  }

  /** Every script step that is neither entering nor refused happens with the guard held. */
  predicate Inside(s: State, p: Pid) { p in s.procs && s.guard == Some(p) && HolderOk(s, p) }

  /** The acquire script looks at the files: it goes on only when no lease is live. */
  lemma AcquireDecides(s: State, p: Pid, s': State)
    requires FilesOk(s) && p in s.procs && p.AcquireBy? && AcquireMove(s, p, s')
    requires s.procs[p].pc.Waiting? || Inside(s, p)
    requires s.procs[p].pc.Waiting? || s.procs[p].pc.GotGuard? || s.procs[p].pc.Inspect?
          || s.procs[p].pc.RemoveTemp? || s.procs[p].pc.Leaving?
    ensures FilesOk(s') && (s'.guard == Some(p) ==> HolderOk(s', p))
  {
  }

  lemma AcquirePrepares(s: State, p: Pid, s': State)
    requires FilesOk(s) && p in s.procs && p.AcquireBy? && AcquireMove(s, p, s') && Inside(s, p)
    requires s.procs[p].pc.OpenTemp? || s.procs[p].pc.WriteTemp? || s.procs[p].pc.MakeDir?
    ensures FilesOk(s') && HolderOk(s', p)
  {
  }

  /** Marker first, record second: in between the old record is expired and its marker is gone. */
  lemma AcquireTakes(s: State, p: Pid, s': State)
    requires FilesOk(s) && p in s.procs && p.AcquireBy? && AcquireMove(s, p, s') && Inside(s, p)
    requires s.procs[p].pc.OpenMarker? || s.procs[p].pc.WriteMarker? || s.procs[p].pc.Publish?
    ensures FilesOk(s') && HolderOk(s', p)
  {
  }

  lemma RenewKeepsFiles(s: State, p: Pid, s': State)
    requires FilesOk(s) && p in s.procs && p.RenewBy? && RenewMove(s, p, s')
    requires s.procs[p].pc.Waiting? || Inside(s, p)
    ensures FilesOk(s') && (s'.guard == Some(p) ==> HolderOk(s', p))
  {
    match s.procs[p].pc
    case Publish(now) =>
      if p.token in s.temps { assert s'.lockFile == Renamed(s.temps[p.token]); }
    case _ =>
  }

  lemma UnlockKeepsFiles(s: State, p: Pid, s': State)
    requires FilesOk(s) && p in s.procs && p.UnlockBy? && UnlockMove(s, p, s')
    requires s.procs[p].pc.Waiting? || Inside(s, p)
    ensures FilesOk(s') && (s'.guard == Some(p) ==> HolderOk(s', p))
  {
  }

  /** A step of one script while another holds the guard changes nothing the holder relies on. */
  lemma OthersOk(s: State, p: Pid, s': State, q: Pid)
    requires p in s.procs && q in s.procs && p != q && HolderOk(s, q)
    requires s.procs[p].pc.Waiting? && s' == Goto(s, p, Exited(false))
    ensures HolderOk(s', q)
  {
  }

  lemma MoveKeepsInv(s: State, p: Pid, s': State)
    requires Inv(s) && p in s.procs && Move(s, p, s')
    ensures Inv(s')
  {
    MoveKeepsGuard(s, p, s');
    match p {
      case AcquireBy(_) =>
        match s.procs[p].pc {
          case OpenTemp(_) => AcquirePrepares(s, p, s');
          case WriteTemp(_) => AcquirePrepares(s, p, s');
          case MakeDir(_) => AcquirePrepares(s, p, s');
          case OpenMarker(_) => AcquireTakes(s, p, s');
          case WriteMarker(_) => AcquireTakes(s, p, s');
          case Publish(_) => AcquireTakes(s, p, s');
          case _ => AcquireDecides(s, p, s');
        }
      case RenewBy(_, _) => RenewKeepsFiles(s, p, s');
      case UnlockBy(_, _) => UnlockKeepsFiles(s, p, s');
    }
    if s'.guard.Some? && s'.guard.value != p { OthersOk(s, p, s', s.guard.value); }
  }

  lemma TickKeepsInv(s: State, to: nat)
    requires Inv(s) && s.clock <= to
    ensures Inv(s.(clock := to))
  {
    ClockOrder(s.clock, to);
    var s' := s.(clock := to);
    assert GuardOk(s');
    assert s.guard.Some? ==> HolderOk(s', s.guard.value);
  }

  lemma KillKeepsInv(s: State, p: Pid)
    requires Inv(s) && p in s.procs && !Stopped(s.procs[p].pc)
    ensures Inv(Goto(s, p, Dead))
  {
    var s' := Goto(s, p, Dead);
    assert GuardOk(s') by { assert forall q :: q in s'.procs && Critical(s'.procs[q].pc) ==> s.procs[q] == s'.procs[q]; }
    if s.guard.Some? && s.guard.value != p { assert s'.procs[s.guard.value] == s.procs[s.guard.value]; }
  }

  lemma EnvironmentKeepsInv(s: State, l: Label, s': State)
    requires Inv(s) && StepBy(s, l, s') && !l.Run?
    ensures Inv(s')
  {
    if l.Tick? { TickKeepsInv(s, l.to); }
    if l.Kill? { KillKeepsInv(s, l.who); }
  }

  lemma StepKeepsInv(s: State, l: Label, s': State)
    requires Inv(s) && StepBy(s, l, s')
    ensures Inv(s')
  {
    if l.Run? { MoveKeepsInv(s, l.who, s'); } else { EnvironmentKeepsInv(s, l, s'); }
  }

  // ---------------------------------------------------------------- one step

  lemma InitInv(s: State)
    requires Init(s)
    ensures Inv(s)
  {
  }

  /** The unlock script of `t` removes the record it has just checked. */
  ghost predicate OwnUnlock(s: State, l: Label, t: Token) {
    && l.Run? && l.who.UnlockBy? && l.who.token == t
    && l.who in s.procs && s.procs[l.who].pc.RemoveRecord?
  }

  /** Eviction: a held token stops being held by its own unlock, or once its lease has expired. */
  lemma HoldEndsByUnlockOrExpiry(s: State, l: Label, s': State, t: Token)
    requires Inv(s) && StepBy(s, l, s') && Held(s, t) && !Held(s', t)
    ensures OwnUnlock(s, l, t) || s.lockFile.expires <= Now(s)
  {
    assert l.Run?;
    MoveKeepsGuard(s, l.who, s');
  }

  /** The record of a held token only grows. */
  lemma RecordOnlyGrows(s: State, l: Label, s': State, t: Token)
    requires Inv(s) && StepBy(s, l, s') && Held(s, t) && Held(s', t)
    ensures s.lockFile.expires <= s'.lockFile.expires
    ensures !l.Tick? ==> s'.clock == s.clock
  {
    if l.Run? { MoveKeepsGuard(s, l.who, s'); }
  }

  /** A live lease ends only by its own unlock or by the clock reaching its expiry. */
  lemma LiveEndsByUnlockOrExpiry(s: State, l: Label, s': State, t: Token)
    requires Inv(s) && StepBy(s, l, s') && Live(s, t) && !Live(s', t)
    ensures OwnUnlock(s, l, t) || (l.Tick? && s.lockFile.expires <= Now(s'))
  {
    if !Held(s', t) {
      HoldEndsByUnlockOrExpiry(s, l, s', t);
    } else {
      RecordOnlyGrows(s, l, s', t);
    }
  }

  /** Only the rename of its own acquire script makes a token held. */
  lemma HoldBeginsByAcquire(s: State, l: Label, s': State, t: Token)
    requires Inv(s) && StepBy(s, l, s') && !Held(s, t) && Held(s', t)
    ensures l == Run(AcquireBy(t)) && AcquireBy(t) in s.procs && s.procs[AcquireBy(t)].pc.Publish?
    ensures !Spent(s, t) && Spent(s', t)
  {
    assert l.Run?;
    MoveKeepsGuard(s, l.who, s');
  }

  lemma MoveTouchesOwnProcess(s: State, p: Pid, s': State, q: Pid)
    requires p in s.procs && q in s.procs && p != q && Move(s, p, s')
    ensures q in s'.procs && s'.procs[q] == s.procs[q]
  {
  }

  lemma SpentStays(s: State, l: Label, s': State, t: Token)
    requires StepBy(s, l, s') && Spent(s, t)
    ensures Spent(s', t)
  {
    var p := AcquireBy(t);
    if l.Run? && l.who != p {
      MoveTouchesOwnProcess(s, l.who, s', p);
    } else if l == Run(p) {
      assert AcquireMove(s, p, s');
    }
  }

  /** A renew or unlock script of `t` leaves the record alone unless `t` is held, and the renew
      script also unless the lease had not expired when it looked. */
  lemma ForeignScriptChangesNothing(s: State, p: Pid, s': State)
    requires Inv(s) && StepBy(s, Run(p), s') && !p.AcquireBy? && s'.lockFile != s.lockFile
    ensures Held(s, p.token)
    ensures p.RenewBy? ==> s.procs[p].pc.Publish? && s.procs[p].pc.now < s.lockFile.expires
  {
    MoveKeepsGuard(s, p, s');
  }

  /** The marker and the directory, likewise: they are the script's own, or its record is already gone. */
  lemma ForeignScriptKeepsMarker(s: State, p: Pid, s': State)
    requires Inv(s) && StepBy(s, Run(p), s') && !p.AcquireBy?
    requires s'.marker != s.marker || s'.lockDir != s.lockDir
    ensures Held(s, p.token) || (p.UnlockBy? && s.lockFile.NoFile? && (Marked(s, p.token) || s.marker.NoMarker?))
  {
    MoveKeepsGuard(s, p, s');
  }

  /** A renewal of `t` that has its new record ready, looked before the lease expired and renames it
      after that, while what it read plus the lease is still to come. */
  ghost predicate LatePublish(s: State, l: Label, t: Token) {
    && l.Run? && l.who.RenewBy? && l.who.token == t && l.who in s.procs && s.procs[l.who].pc.Publish?
    && t in s.temps && s.lockFile.Lease?
    && s.procs[l.who].pc.now < s.lockFile.expires <= Now(s) < s.procs[l.who].pc.now + t.ttl
  }

  /** A lease that has expired comes back to life exactly by a late publication. */
  lemma LateRenewalRevives(s: State, l: Label, s': State, t: Token)
    requires Inv(s) && StepBy(s, l, s') && Held(s, t) && !Live(s, t)
    ensures Live(s', t) <==> LatePublish(s, l, t)
  {
    if l.Run? { MoveKeepsGuard(s, l.who, s'); }
  }

  // ---------------------------------------------------------------- whole runs

  lemma {:induction false} RunInv(run: seq<State>, i: nat)
    requires IsRun(run) && i < |run|
    ensures Inv(run[i])
  {
    if i == 0 {
      InitInv(run[0]);
    } else {
      RunInv(run, i - 1);
      assert StepAt(run, i - 1);
      var l :| StepBy(run[i - 1], l, run[i]);
      StepKeepsInv(run[i - 1], l, run[i]);
    }
  }

  /** The step from `run[k]` takes the lease of `t` away, by its own unlock or after its expiry. */
  ghost predicate Ends(run: seq<State>, k: nat, t: Token)
    requires k < |run| - 1
  {
    && Held(run[k], t) && !Held(run[k + 1], t)
    && (run[k].lockFile.expires <= Now(run[k])
        || exists l :: StepBy(run[k], l, run[k + 1]) && OwnUnlock(run[k], l, t))
  }

  lemma StepEnds(run: seq<State>, k: nat, t: Token)
    requires k < |run| - 1 && Inv(run[k]) && Step(run[k], run[k + 1])
    requires Held(run[k], t) && !Held(run[k + 1], t)
    ensures Ends(run, k, t)
  {
    var l :| StepBy(run[k], l, run[k + 1]);
    HoldEndsByUnlockOrExpiry(run[k], l, run[k + 1], t);
  }

  /** Whenever a token that was held is not held any more, its tenure ended lawfully in between. */
  lemma {:induction false} TenureEndsLawfully(run: seq<State>, i: nat, j: nat, t: Token) returns (k: nat)
    requires IsRun(run) && i <= j < |run| && Held(run[i], t) && !Held(run[j], t)
    ensures i <= k < j && Ends(run, k, t)
  {
    k := j - 1;
    if Held(run[k], t) {
      RunInv(run, k);
      assert StepAt(run, k);
      StepEnds(run, k, t);
    } else {
      k := TenureEndsLawfully(run, i, k, t);
    }
  }

  /** Exclusion: between a lease of `t` and a lease of another token lies the lawful end of `t`. */
  lemma LeaseExclusion(run: seq<State>, i: nat, j: nat, t: Token, u: Token) returns (k: nat)
    requires IsRun(run) && i <= j < |run| && t != u && Live(run[i], t) && Live(run[j], u)
    ensures i <= k < j && Ends(run, k, t)
  {
    k := TenureEndsLawfully(run, i, j, t);
  }

  /** A token that has been acquired and lost is not held after the next step either. */
  lemma NeverRegained(s: State, s': State, t: Token)
    requires Inv(s) && Step(s, s') && Spent(s, t)
    ensures Spent(s', t) && (Held(s', t) ==> Held(s, t))
  {
    var l :| StepBy(s, l, s');
    SpentStays(s, l, s', t);
    if Held(s', t) && !Held(s, t) { HoldBeginsByAcquire(s, l, s', t); }
  }

  lemma {:induction false} SpentForGood(run: seq<State>, i: nat, j: nat, t: Token)
    requires IsRun(run) && i <= j < |run| && Spent(run[i], t)
    ensures Spent(run[j], t)
  {
    if i < j {
      SpentForGood(run, i, j - 1, t);
      RunInv(run, j - 1);
      assert StepAt(run, j - 1);
      NeverRegained(run[j - 1], run[j], t);
    }
  }

  lemma {:induction false} LostForGood(run: seq<State>, j: nat, k: nat, t: Token)
    requires IsRun(run) && j <= k < |run| && Spent(run[j], t) && !Held(run[j], t)
    ensures Spent(run[k], t) && !Held(run[k], t)
  {
    if j < k {
      LostForGood(run, j, k - 1, t);
      RunInv(run, k - 1);
      assert StepAt(run, k - 1);
      NeverRegained(run[k - 1], run[k], t);
    }
  }

  /** Each token is held over one contiguous stretch of the run: once lost it never comes back. */
  lemma TenureIsContiguous(run: seq<State>, i: nat, j: nat, k: nat, t: Token)
    requires IsRun(run) && i <= j <= k < |run| && Held(run[i], t) && Held(run[k], t)
    ensures Held(run[j], t)
  {
    RunInv(run, i);
    SpentForGood(run, i, j, t);
    if !Held(run[j], t) { LostForGood(run, j, k, t); }
  }

  /** The step from `run[m]` is a late publication of `t`. */
  ghost predicate Revives(run: seq<State>, m: nat, t: Token)
    requires m < |run| - 1
  {
    exists l :: StepBy(run[m], l, run[m + 1]) && LatePublish(run[m], l, t)
  }

  lemma StaysExpired(run: seq<State>, m: nat, t: Token)
    requires m < |run| - 1 && Inv(run[m]) && Step(run[m], run[m + 1])
    requires Held(run[m], t) && !Live(run[m], t) && !Revives(run, m, t)
    ensures !Live(run[m + 1], t)
  {
    var l :| StepBy(run[m], l, run[m + 1]);
    LateRenewalRevives(run[m], l, run[m + 1], t);
  }

  /** Between two states in which `t` is held, an expired lease stays expired up to a late publication. */
  lemma {:induction false} ExpiredUntilRevived(run: seq<State>, i: nat, j: nat, k: nat, t: Token)
    requires IsRun(run) && i <= j <= k < |run| && Held(run[i], t) && Held(run[k], t) && !Live(run[j], t)
    requires forall m :: j <= m < k ==> !Revives(run, m, t)
    ensures !Live(run[k], t)
  {
    if j < k {
      TenureIsContiguous(run, i, k - 1, k, t);
      ExpiredUntilRevived(run, i, j, k - 1, t);
      RunInv(run, k - 1);
      assert StepAt(run, k - 1);
      StaysExpired(run, k - 1, t);
    }
  }

  /** Between two states in which `t` is live it is live throughout, exactly if no renewal of it is
      published late in between. */
  lemma LiveIsContiguousIff(run: seq<State>, i: nat, k: nat, t: Token)
    requires IsRun(run) && i <= k < |run| && Live(run[i], t) && Live(run[k], t)
    ensures (forall j :: i <= j <= k ==> Live(run[j], t)) <==> (forall m :: i <= m < k ==> !Revives(run, m, t))
  {
    if forall m :: i <= m < k ==> !Revives(run, m, t) {
      forall j | i <= j <= k ensures Live(run[j], t) {
        if !Live(run[j], t) { ExpiredUntilRevived(run, i, j, k, t); }
      }
    } else {
      var m :| i <= m < k && Revives(run, m, t);
      var l :| StepBy(run[m], l, run[m + 1]) && LatePublish(run[m], l, t);
      assert !Live(run[m], t);
    }
  }

  /** The step from `run[m]` publishes a renewal of `t` that looked in second `now`. */
  ghost predicate Publishes(run: seq<State>, m: nat, t: Token, now: nat)
    requires m < |run| - 1
  {
    && t in run[m].temps
    && exists n :: RenewBy(t, n) in run[m].procs && run[m].procs[RenewBy(t, n)].pc == Publish(now) && StepBy(run[m], Run(RenewBy(t, n)), run[m + 1])
  }

  ghost predicate Unlocks(run: seq<State>, m: nat, t: Token)
    requires m < |run| - 1
  {
    exists l :: StepBy(run[m], l, run[m + 1]) && OwnUnlock(run[m], l, t)
  }

  ghost predicate NotUnlocked(run: seq<State>, i: nat, j: nat, t: Token) {
    forall m :: i <= m < j && m < |run| - 1 ==> !Unlocks(run, m, t)
  }

  /** `t` is held at least until second `expires`. */
  predicate HeldUntil(s: State, t: Token, expires: int) { Held(s, t) && expires <= s.lockFile.expires }

  lemma PublicationHolds(run: seq<State>, m: nat, t: Token, now: nat)
    requires m < |run| - 1 && Inv(run[m]) && Publishes(run, m, t, now)
    ensures HeldUntil(run[m + 1], t, now + t.ttl)
  {
    var n :| RenewBy(t, n) in run[m].procs && run[m].procs[RenewBy(t, n)].pc == Publish(now) && StepBy(run[m], Run(RenewBy(t, n)), run[m + 1]);
    assert HolderOk(run[m], RenewBy(t, n));
  }

  lemma StepHolds(run: seq<State>, m: nat, t: Token, expires: int)
    requires m < |run| - 1 && Inv(run[m]) && StepAt(run, m) && !Unlocks(run, m, t)
    requires HeldUntil(run[m], t, expires) && Now(run[m]) < expires
    ensures HeldUntil(run[m + 1], t, expires)
  {
    var l :| StepBy(run[m], l, run[m + 1]);
    if !Held(run[m + 1], t) { HoldEndsByUnlockOrExpiry(run[m], l, run[m + 1], t); }
    else { RecordOnlyGrows(run[m], l, run[m + 1], t); }
  }

  lemma ClockOnlyGrows(run: seq<State>, m: nat)
    requires m < |run| - 1 && StepAt(run, m)
    ensures Now(run[m]) <= Now(run[m + 1])
  {
    var l :| StepBy(run[m], l, run[m + 1]);
    ClockOrder(run[m].clock, run[m + 1].clock);
  }

  /** What a renewal has published protects the token to its last second, if it is not unlocked. */
  lemma {:induction false} PublishedLeaseProtects(run: seq<State>, m: nat, j: nat, t: Token, now: nat)
    requires IsRun(run) && m < j < |run| && Publishes(run, m, t, now)
    requires NotUnlocked(run, m + 1, j, t)
    requires Now(run[j]) < now + t.ttl
    ensures HeldUntil(run[j], t, now + t.ttl)
  {
    RunInv(run, j - 1);
    assert StepAt(run, j - 1);
    if j == m + 1 {
      PublicationHolds(run, m, t, now);
    } else {
      ClockOnlyGrows(run, j - 1);
      assert NotUnlocked(run, m + 1, j - 1, t);
      PublishedLeaseProtects(run, m, j - 1, t, now);
      StepHolds(run, j - 1, t, now + t.ttl);
    }
  }

  lemma Extend(run: seq<State>, l: Label, s: State)
    requires IsRun(run) && StepBy(run[|run| - 1], l, s)
    ensures IsRun(run + [s])
  {
    var longer := run + [s];
    forall i | 0 <= i < |longer| - 1 ensures StepAt(longer, i) {
      if i == |run| - 1 { assert longer[i] == run[|run| - 1] && longer[i + 1] == s; }
      else { assert StepAt(run, i); }
    }
  }

  const SLOW: Token := Token(0, 10, 300)

  /** A first client, at second 0: claims the free lock and prepares its record and the directory. */
  lemma FirstClientClaims() returns (run: seq<State>, s: State)
    ensures IsRun(run) && |run| > 0 && s == run[|run| - 1]
    ensures s == State(0, Some(AcquireBy(SLOW)), NoFile, Directory, NoMarker, map[SLOW := Full(SLOW, 10, 0)],
                       map[AcquireBy(SLOW) := Proc(OpenMarker(0), 300 * NANOS)])
  {
    var p := AcquireBy(SLOW);
    s := State(0, None, NoFile, Missing, NoMarker, map[], map[]);
    run := [s];
    assert IsRun(run);
    s := s.(procs := map[p := Proc(Waiting, 300 * NANOS)]);
    Extend(run, Start(p, 300 * NANOS), s); run := run + [s];
    s := Goto(s.(guard := Some(p)), p, GotGuard);
    Extend(run, Run(p), s); run := run + [s];
    s := Goto(s, p, Inspect(0));
    Extend(run, Run(p), s); run := run + [s];
    s := Goto(s, p, OpenTemp(0));
    Extend(run, Run(p), s); run := run + [s];
    s := OpenTempEffect(s, p, 0);
    Extend(run, Run(p), s); run := run + [s];
    s := WriteTempEffect(s, p, 0, MakeDir(0));
    Extend(run, Run(p), s); run := run + [s];
    s := Goto(s.(lockDir := Directory), p, OpenMarker(0));
    Extend(run, Run(p), s); run := run + [s];
  }

  /** ... and then takes it with a ten second lease. */
  lemma FirstClientAcquires() returns (run: seq<State>, s: State)
    ensures IsRun(run) && |run| > 0 && s == run[|run| - 1] && Live(s, SLOW)
    ensures s == State(0, None, Lease(SLOW, 10, 0), Directory, Owner(SLOW, 0), map[],
                       map[AcquireBy(SLOW) := Proc(Exited(true), 300 * NANOS)])
  {
    run, s := FirstClientClaims();
    var p := AcquireBy(SLOW);
    s := Goto(s.(marker := Torn(0)), p, WriteMarker(0));
    Extend(run, Run(p), s); run := run + [s];
    s := Goto(s.(marker := Owner(SLOW, 0)), p, Publish(0));
    Extend(run, Run(p), s); run := run + [s];
    s := PublishEffect(s, p, Leaving(true));
    Extend(run, Run(p), s); run := run + [s];
    s := Goto(s.(guard := None), p, Exited(true));
    Extend(run, Run(p), s); run := run + [s];
  }

  /** Its renewal looks at the lease at second 5. */
  lemma RenewalLooks() returns (run: seq<State>, s: State, i: nat)
    ensures IsRun(run) && i < |run| - 1 && s == run[|run| - 1] && Live(run[i], SLOW)
    ensures s == State(5 * NANOS, Some(RenewBy(SLOW, 0)), Lease(SLOW, 10, 0), Directory, Owner(SLOW, 0), map[],
                       map[AcquireBy(SLOW) := Proc(Exited(true), 300 * NANOS),
                           RenewBy(SLOW, 0) := Proc(OpenTemp(5), 300 * NANOS)])
  {
    run, s := FirstClientAcquires();
    i := |run| - 1;
    var p := RenewBy(SLOW, 0);
    s := s.(clock := 5 * NANOS);
    Extend(run, Tick(5 * NANOS), s); run := run + [s];
    s := s.(procs := s.procs[p := Proc(Waiting, 300 * NANOS)]);
    Extend(run, Start(p, 300 * NANOS), s); run := run + [s];
    s := Goto(s.(guard := Some(p)), p, GotGuard);
    Extend(run, Run(p), s); run := run + [s];
    s := Goto(s, p, OpenTemp(5));
    Extend(run, Run(p), s); run := run + [s];
  }

  /** Being live is not contiguous: a renewal that looks at second 5 and is held up until second 12
      publishes a lease until 15, although the lease had expired at 10. Nobody else got in between. */
  lemma LivenessCanLapse() returns (run: seq<State>, i: nat, j: nat, k: nat)
    ensures IsRun(run) && i < j < k < |run|
    ensures Live(run[i], SLOW) && !Live(run[j], SLOW) && Live(run[k], SLOW)
  {
    var s;
    run, s, i := RenewalLooks();
    var p := RenewBy(SLOW, 0);
    s := OpenTempEffect(s, p, 5);
    Extend(run, Run(p), s); run := run + [s];
    s := WriteTempEffect(s, p, 5, Publish(5));
    Extend(run, Run(p), s); run := run + [s];
    s := s.(clock := 12 * NANOS);
    Extend(run, Tick(12 * NANOS), s); run := run + [s];
    j := |run| - 1;
    s := PublishEffect(s, p, Touch);
    Extend(run, Run(p), s); run := run + [s];
    k := |run| - 1;
  }
}
