/** What the lock scripts achieve: what their success means over every run, and that a script which nobody
    disturbs gets where it is meant to. */
module LeaseOutcomes {
  import opened Wrappers
  import opened LeaseProtocol

  /** What a step of anything else does to a process: it may be started or killed. */
  lemma OthersStep(s: State, l: Label, s': State, p: Pid)
    requires StepBy(s, l, s') && l != Run(p)
    ensures p in s.procs ==> p in s'.procs && (s'.procs[p] == s.procs[p] || s'.procs[p].pc.Dead?)
    ensures p !in s.procs && p in s'.procs ==> s'.procs[p].pc.Waiting?
  {
    if l.Run? && p in s.procs { MoveTouchesOwnProcess(s, l.who, s', p); }
  }

  // ---------------------------------------------------------------- unlocking releases

  /** An unlock script has removed the record, or is on its way out with success. */
  predicate Released(pc: Pc) { pc.RemoveMarker? || pc.RemoveDir? || pc == Leaving(true) || pc == Exited(true) }

  ghost predicate UnlockOk(s: State, p: Pid) {
    Spent(s, p.token) && (p in s.procs && Released(s.procs[p].pc) ==> !Held(s, p.token))
  }

  lemma UnlockMoves(s: State, p: Pid, s': State)
    requires Inv(s) && p.UnlockBy? && p in s.procs && UnlockMove(s, p, s')
    requires Released(s.procs[p].pc) ==> !Held(s, p.token)
    ensures p in s'.procs && Released(s'.procs[p].pc) ==> !Held(s', p.token)
  {
  }

  lemma UnlockStep(s: State, l: Label, s': State, p: Pid)
    requires Inv(s) && StepBy(s, l, s') && p.UnlockBy? && UnlockOk(s, p)
    ensures UnlockOk(s', p)
  {
    NeverRegained(s, s', p.token);
    if l == Run(p) { UnlockMoves(s, p, s'); } else { OthersStep(s, l, s', p); }
  }

  lemma {:induction false} UnlockAlong(run: seq<State>, i: nat, j: nat, p: Pid)
    requires IsRun(run) && i <= j < |run| && p.UnlockBy? && UnlockOk(run[i], p)
    ensures UnlockOk(run[j], p)
  {
    if i < j {
      UnlockAlong(run, i, j - 1, p);
      RunInv(run, j - 1);
      assert StepAt(run, j - 1);
      var l :| StepBy(run[j - 1], l, run[j]);
      UnlockStep(run[j - 1], l, run[j], p);
    }
  }

  /** If a token is held when its unlock script has yet to get the guard, and the script succeeds, the token
      is not held any more, then or later. */
  lemma UnlockReleases(run: seq<State>, i: nat, j: nat, k: nat, p: Pid)
    requires IsRun(run) && i <= j <= k < |run| && p.UnlockBy? && Held(run[i], p.token)
    requires p in run[i].procs ==> run[i].procs[p].pc.Waiting?
    requires p in run[j].procs && run[j].procs[p].pc == Exited(true)
    ensures !Held(run[k], p.token)
  {
    RunInv(run, i);
    UnlockAlong(run, i, j, p);
    LostForGood(run, j, k, p.token);
  }

  /** A script that has found its own record: on the way to removing it, or it and the marker are gone. */
  predicate Cleaning(s: State, p: Pid) {
    && p in s.procs && !s.procs[p].pc.Waiting? && !s.procs[p].pc.GotGuard?
    && (s.procs[p].pc.Leaving? ==> s.lockFile.NoFile? && s.marker.NoMarker?)
  }

  lemma CleaningStep(s: State, l: Label, s': State, p: Pid)
    requires Inv(s) && StepBy(s, l, s') && p.UnlockBy? && Cleaning(s, p)
    ensures Cleaning(s', p)
  {
    if l.Run? {
      MoveKeepsGuard(s, l.who, s');
      if l.who != p { MoveTouchesOwnProcess(s, l.who, s', p); }
    }
  }

  lemma {:induction false} CleaningAlong(run: seq<State>, i: nat, j: nat, p: Pid)
    requires IsRun(run) && i <= j < |run| && p.UnlockBy? && Cleaning(run[i], p)
    ensures Cleaning(run[j], p)
  {
    if i < j {
      CleaningAlong(run, i, j - 1, p);
      RunInv(run, j - 1);
      assert StepAt(run, j - 1);
      var l :| StepBy(run[j - 1], l, run[j]);
      CleaningStep(run[j - 1], l, run[j], p);
    }
  }

  /** A script that looked while its token was held leaves the guard only with record and marker gone, and
      with the directory gone, too, the lock is there to be claimed by anybody. */
  lemma UnlockCleans(run: seq<State>, i: nat, j: nat, p: Pid, u: Token, now: nat)
    requires IsRun(run) && i < j < |run| && p.UnlockBy? && Held(run[i], p.token)
    requires p in run[i].procs && run[i].procs[p].pc.GotGuard? && StepBy(run[i], Run(p), run[i + 1])
    requires p in run[j].procs && run[j].procs[p].pc.Leaving?
    ensures run[j].lockFile.NoFile? && run[j].marker.NoMarker?
    ensures run[j].lockDir.Missing? ==> Judge(run[j], u, now) == Claim
  {
    CleaningAlong(run, i + 1, j, p);
  }

  // ---------------------------------------------------------------- renewing and acquiring extend

  /** Some renewal of `t` that read the clock no earlier than in second `since` was published. */
  ghost predicate Renewed(run: seq<State>, i: nat, j: nat, t: Token, since: nat) {
    exists m: nat, now: nat :: i <= m < j < |run| && since <= now && Publishes(run, m, t, now)
  }

  predicate Succeeded(pc: Pc) { pc.Touch? || pc == Leaving(true) || pc == Exited(true) }

  /** The readings of the clock that a renew script carries. */
  predicate ReadSince(pc: Pc, since: nat) { (pc.OpenTemp? || pc.WriteTemp? || pc.Publish?) ==> since <= pc.now }

  ghost predicate RenewOk(run: seq<State>, i: nat, j: nat, p: Pid, since: nat)
    requires j < |run|
  {
    && since <= Now(run[j])
    && (p in run[j].procs ==> ReadSince(run[j].procs[p].pc, since) && (Succeeded(run[j].procs[p].pc) ==> Renewed(run, i, j, p.token, since)))
  }

  lemma RenewStep(s: State, l: Label, s': State, p: Pid, since: nat)
    requires StepBy(s, l, s') && p.RenewBy? && since <= Now(s) && (p in s.procs ==> ReadSince(s.procs[p].pc, since))
    ensures since <= Now(s') && (p in s'.procs ==> ReadSince(s'.procs[p].pc, since))
    ensures p in s'.procs && Succeeded(s'.procs[p].pc) ==> (
      p in s.procs && (Succeeded(s.procs[p].pc) || (l == Run(p) && s.procs[p].pc.Publish? && p.token in s.temps)))
  {
    ClockOrder(s.clock, s'.clock);
    if l == Run(p) { assert RenewMove(s, p, s'); } else { OthersStep(s, l, s', p); }
  }

  lemma RenewedLater(run: seq<State>, i: nat, j: nat, n: nat, t: Token, since: nat)
    requires j < n < |run| && Renewed(run, i, j, t, since)
    ensures Renewed(run, i, n, t, since)
  {
    var m: nat, now: nat :| i <= m < j < |run| && since <= now && Publishes(run, m, t, now);
    assert m < n;
  }

  lemma PublishedNow(run: seq<State>, i: nat, j: nat, n: nat, p: Pid, since: nat)
    requires i <= j < n < |run| && n == j + 1 && p.RenewBy? && StepBy(run[j], Run(p), run[n])
    requires p in run[j].procs && run[j].procs[p].pc.Publish? && p.token in run[j].temps && since <= run[j].procs[p].pc.now
    ensures Renewed(run, i, n, p.token, since)
  {
    assert p == RenewBy(p.token, p.run);
    assert Publishes(run, j, p.token, run[j].procs[p].pc.now);
  }

  lemma RenewOkNext(run: seq<State>, i: nat, j: nat, n: nat, p: Pid, since: nat)
    requires IsRun(run) && i <= j < n < |run| && n == j + 1 && p.RenewBy? && RenewOk(run, i, j, p, since)
    ensures RenewOk(run, i, n, p, since)
  {
    assert StepAt(run, j);
    var l :| StepBy(run[j], l, run[n]);
    RenewStep(run[j], l, run[n], p, since);
    if p in run[n].procs && Succeeded(run[n].procs[p].pc) {
      if Succeeded(run[j].procs[p].pc) { RenewedLater(run, i, j, n, p.token, since); }
      else { PublishedNow(run, i, j, n, p, since); }
    }
  }

  lemma {:induction false} RenewAlong(run: seq<State>, i: nat, j: nat, p: Pid, since: nat)
    requires IsRun(run) && i <= j < |run| && p.RenewBy? && RenewOk(run, i, i, p, since)
    ensures RenewOk(run, i, j, p, since)
  {
    if i < j {
      RenewAlong(run, i, j - 1, p, since);
      RenewOkNext(run, i, j - 1, j, p, since);
    }
  }

  /** A renew script that succeeds has published a lease, from a second not before the one in which it had
      yet to get the guard. */
  lemma RenewExtends(run: seq<State>, i: nat, j: nat, p: Pid)
    requires IsRun(run) && i <= j < |run| && p.RenewBy?
    requires p in run[i].procs ==> run[i].procs[p].pc.Waiting?
    requires p in run[j].procs && run[j].procs[p].pc == Exited(true)
    ensures Renewed(run, i, j, p.token, Now(run[i]))
  {
    RenewAlong(run, i, j, p, Now(run[i]));
  }

  /** The acquire script of `t` has taken the lock, for a lease counted from no earlier than second `since`. */
  ghost predicate Granted(run: seq<State>, i: nat, j: nat, t: Token, since: nat) {
    exists m: nat, now: nat :: i < m <= j < |run| && since <= now && HeldFrom(run[m], t, now)
  }

  /** `t` is held with a lease counted from second `now`. */
  predicate HeldFrom(s: State, t: Token, now: nat) { Held(s, t) && s.lockFile.expires == now + t.ttl && now <= Now(s) }

  predicate AcquireReadSince(pc: Pc, since: nat) {
    (pc.Inspect? || pc.OpenTemp? || pc.WriteTemp? || pc.MakeDir? || pc.OpenMarker? || pc.WriteMarker? || pc.Publish?) ==> since <= pc.now
  }

  predicate Taken(pc: Pc) { pc == Leaving(true) || pc == Exited(true) }

  ghost predicate AcquireOk(run: seq<State>, i: nat, j: nat, p: Pid, since: nat)
    requires j < |run|
  {
    && since <= Now(run[j])
    && (p in run[j].procs ==> AcquireReadSince(run[j].procs[p].pc, since) && (Taken(run[j].procs[p].pc) ==> Granted(run, i, j, p.token, since)))
  }

  lemma AcquireReads(s: State, l: Label, s': State, p: Pid, since: nat)
    requires StepBy(s, l, s') && p.AcquireBy? && since <= Now(s) && (p in s.procs ==> AcquireReadSince(s.procs[p].pc, since))
    ensures since <= Now(s') && (p in s'.procs ==> AcquireReadSince(s'.procs[p].pc, since))
  {
    ClockOrder(s.clock, s'.clock);
    if l == Run(p) { assert AcquireMove(s, p, s'); } else { OthersStep(s, l, s', p); }
  }

  lemma AcquireLeaves(s: State, p: Pid, s': State)
    requires p.AcquireBy? && p in s.procs && AcquireMove(s, p, s') && p in s'.procs && Taken(s'.procs[p].pc)
    ensures Taken(s.procs[p].pc) || (s.procs[p].pc.Publish? && p.token in s.temps && s' == PublishEffect(s, p, Leaving(true)))
  {
  }

  lemma PublishGrants(s: State, p: Pid)
    requires Inv(s) && p.AcquireBy? && p in s.procs && s.procs[p].pc.Publish? && p.token in s.temps
    ensures HeldFrom(PublishEffect(s, p, Leaving(true)), p.token, s.procs[p].pc.now)
  {
    assert HolderOk(s, p);
  }

  lemma AcquireStep(s: State, l: Label, s': State, p: Pid)
    requires Inv(s) && StepBy(s, l, s') && p.AcquireBy? && p in s'.procs && Taken(s'.procs[p].pc)
    ensures p in s.procs && (Taken(s.procs[p].pc) || (s.procs[p].pc.Publish? && HeldFrom(s', p.token, s.procs[p].pc.now)))
  {
    if l != Run(p) {
      OthersStep(s, l, s', p);
    } else {
      AcquireLeaves(s, p, s');
      if !Taken(s.procs[p].pc) { PublishGrants(s, p); }
    }
  }

  lemma GrantedLater(run: seq<State>, i: nat, j: nat, n: nat, t: Token, since: nat)
    requires j < n < |run| && Granted(run, i, j, t, since)
    ensures Granted(run, i, n, t, since)
  {
    var m: nat, now: nat :| i < m <= j < |run| && since <= now && HeldFrom(run[m], t, now);
    assert m <= n;
  }

  lemma AcquireOkNext(run: seq<State>, i: nat, j: nat, n: nat, p: Pid, since: nat)
    requires IsRun(run) && i <= j < n < |run| && n == j + 1 && p.AcquireBy? && AcquireOk(run, i, j, p, since)
    ensures AcquireOk(run, i, n, p, since)
  {
    RunInv(run, j);
    assert StepAt(run, j);
    var l :| StepBy(run[j], l, run[n]);
    AcquireReads(run[j], l, run[n], p, since);
    if p in run[n].procs && Taken(run[n].procs[p].pc) {
      AcquireStep(run[j], l, run[n], p);
      if Taken(run[j].procs[p].pc) { GrantedLater(run, i, j, n, p.token, since); }
      else { assert HeldFrom(run[n], p.token, run[j].procs[p].pc.now); }
    }
  }

  lemma {:induction false} AcquireAlong(run: seq<State>, i: nat, j: nat, p: Pid, since: nat)
    requires IsRun(run) && i <= j < |run| && p.AcquireBy? && AcquireOk(run, i, i, p, since)
    ensures AcquireOk(run, i, j, p, since)
  {
    if i < j {
      AcquireAlong(run, i, j - 1, p, since);
      AcquireOkNext(run, i, j - 1, j, p, since);
    }
  }

  /** An acquire script that succeeds has held the lock, with a whole lease from a second not before the one
      in which it had yet to get the guard. */
  lemma AcquireTakesHold(run: seq<State>, i: nat, j: nat, p: Pid)
    requires IsRun(run) && i <= j < |run| && p.AcquireBy?
    requires p in run[i].procs ==> run[i].procs[p].pc.Waiting?
    requires p in run[j].procs && run[j].procs[p].pc == Exited(true)
    ensures Granted(run, i, j, p.token, Now(run[i]))
  {
    AcquireAlong(run, i, j, p, Now(run[i]));
  }

  // ---------------------------------------------------------------- what is never taken

  /** Something that the scripts do not know, where the record or the directory should be. */
  predicate Unknown(s: State) { s.lockFile.Legacy? || s.lockFile.Irregular? }

  /** An acquire script that has decided to take the lock. */
  predicate Taking(pc: Pc) {
    pc.OpenTemp? || pc.WriteTemp? || pc.MakeDir? || pc.OpenMarker? || pc.WriteMarker? || pc.Publish?
  }

  ghost predicate NobodyTakes(s: State) {
    Unknown(s) ==> forall p :: p in s.procs && p.AcquireBy? ==> !Taking(s.procs[p].pc)
  }

  lemma UnknownStays(s: State, l: Label, s': State)
    requires Inv(s) && NobodyTakes(s) && StepBy(s, l, s') && Unknown(s)
    ensures s'.lockFile == s.lockFile
  {
    if l.Run? { MoveKeepsGuard(s, l.who, s'); }
  }

  /** No script puts anything unknown there. */
  lemma UnknownWasThere(s: State, l: Label, s': State)
    requires Inv(s) && StepBy(s, l, s') && Unknown(s')
    ensures Unknown(s)
  {
    if l.Run? { MoveKeepsGuard(s, l.who, s'); }
  }

  lemma TakesAfterLooking(s: State, p: Pid, s': State)
    requires p.AcquireBy? && p in s.procs && AcquireMove(s, p, s') && p in s'.procs && Taking(s'.procs[p].pc)
    ensures Taking(s.procs[p].pc) || !Unknown(s)
  {
  }

  lemma NobodyTakesStep(s: State, l: Label, s': State)
    requires Inv(s) && NobodyTakes(s) && StepBy(s, l, s')
    ensures NobodyTakes(s')
  {
    if Unknown(s') {
      UnknownWasThere(s, l, s');
      forall p | p in s'.procs && p.AcquireBy? ensures !Taking(s'.procs[p].pc) {
        if l != Run(p) { OthersStep(s, l, s', p); } else if Taking(s'.procs[p].pc) { TakesAfterLooking(s, p, s'); }
      }
    }
  }

  lemma {:induction false} NobodyTakesAlong(run: seq<State>, j: nat)
    requires IsRun(run) && j < |run|
    ensures NobodyTakes(run[j])
  {
    if j > 0 {
      NobodyTakesAlong(run, j - 1);
      RunInv(run, j - 1);
      assert StepAt(run, j - 1);
      var l :| StepBy(run[j - 1], l, run[j]);
      NobodyTakesStep(run[j - 1], l, run[j]);
    }
  }

  /** A lock of an older kind, or a path that is no regular file, is left alone by all scripts for good. */
  lemma {:induction false} UnknownIsNeverTaken(run: seq<State>, i: nat, j: nat)
    requires IsRun(run) && i <= j < |run| && Unknown(run[i])
    ensures run[j].lockFile == run[i].lockFile
  {
    if i < j {
      UnknownIsNeverTaken(run, i, j - 1);
      NobodyTakesAlong(run, j - 1);
      RunInv(run, j - 1);
      assert StepAt(run, j - 1);
      var l :| StepBy(run[j - 1], l, run[j]);
      UnknownStays(run[j - 1], l, run[j]);
    }
  }

  // ---------------------------------------------------------------- undisturbed scripts

  /** Steps of `p` alone. */
  ghost predicate Solo(path: seq<State>, p: Pid) {
    |path| > 0 && forall k {:trigger path[k]} :: 0 <= k < |path| - 1 ==> StepBy(path[k], Run(p), path[k + 1])
  }

  /** From `s`, `p` alone gets to `e`. */
  ghost predicate Gets(s: State, p: Pid, e: State) { exists path :: Solo(path, p) && path[0] == s && path[|path| - 1] == e }

  lemma Stays(s: State, p: Pid)
    ensures Gets(s, p, s)
  {
    assert Solo([s], p);
  }

  lemma Then(s: State, p: Pid, e: State, m: State)
    requires Gets(s, p, e) && StepBy(e, Run(p), m)
    ensures Gets(s, p, m)
  {
    var path :| Solo(path, p) && path[0] == s && path[|path| - 1] == e;
    var longer := path + [m];
    forall k | 0 <= k < |longer| - 1 ensures StepBy(longer[k], Run(p), longer[k + 1]) {
      if k < |path| - 1 { assert longer[k] == path[k] && longer[k + 1] == path[k + 1]; }
    }
    assert Solo(longer, p);
  }

  lemma ThenAcquire(s: State, p: Pid, e: State, m: State)
    requires Gets(s, p, e) && p.AcquireBy? && p in e.procs && AcquireMove(e, p, m)
    ensures Gets(s, p, m)
  {
    Then(s, p, e, m);
  }

  predicate AtStart(s: State, p: Pid) { p in s.procs && s.procs[p].pc.Waiting? && s.guard.None? }

  /** An unlock script of a held token removes record, marker and directory. */
  lemma SoloUnlock(s: State, p: Pid)
    requires Inv(s) && p.UnlockBy? && AtStart(s, p) && Held(s, p.token)
    ensures Gets(s, p, Goto(s.(lockFile := NoFile, marker := NoMarker, lockDir := Missing), p, Exited(true)))
  {
    Stays(s, p);
    var e := Goto(s.(guard := Some(p)), p, GotGuard);
    Then(s, p, s, e);
    var m := Goto(e, p, RemoveRecord);
    Then(s, p, e, m);
    SoloRemoves(s, p, m);
  }

  lemma SoloRemoves(s: State, p: Pid, e: State)
    requires p.UnlockBy? && AtStart(s, p) && s.lockDir.Directory? && Gets(s, p, e) && e == Goto(s.(guard := Some(p)), p, RemoveRecord)
    ensures Gets(s, p, Goto(s.(lockFile := NoFile, marker := NoMarker, lockDir := Missing), p, Exited(true)))
  {
    var a := Goto(e.(lockFile := NoFile), p, RemoveMarker);
    Then(s, p, e, a);
    var b := Goto(a.(marker := NoMarker), p, RemoveDir);
    Then(s, p, a, b);
    var c := Goto(b.(lockDir := Missing), p, Leaving(true));
    Then(s, p, b, c);
    var d := Goto(c.(guard := None), p, Exited(true));
    Then(s, p, c, d);
    assert d == Goto(s.(lockFile := NoFile, marker := NoMarker, lockDir := Missing), p, Exited(true));
  }

  /** The state with a whole lease of `t` from now on. */
  function WithLease(s: State, t: Token): State {
    s.(lockFile := Lease(t, Now(s) + t.ttl, Now(s)), lockDir := Directory, marker := Owner(t, Now(s)), temps := s.temps - {t})
  }

  /** `s` with `p` at `pc`, and with these files. */
  function Shape(s: State, p: Pid, guard: Option<Pid>, pc: Pc, lockFile: LockFile, lockDir: LockDir, marker: Marker, temps: map<Token, Temp>): State
    requires p in s.procs
  {
    State(s.clock, guard, lockFile, lockDir, marker, temps, s.procs[p := Proc(pc, s.procs[p].deadline)])
  }

  /** ... inside the guard, the record being the old one. */
  function Inside(s: State, p: Pid, pc: Pc, lockDir: LockDir, marker: Marker, temps: map<Token, Temp>): State
    requires p in s.procs
  {
    Shape(s, p, Some(p), pc, s.lockFile, lockDir, marker, temps)
  }

  lemma GotoShape(s: State, p: Pid, guard: Option<Pid>, pc: Pc, next: Pc, lockFile: LockFile, lockDir: LockDir, marker: Marker, temps: map<Token, Temp>)
    requires p in s.procs
    ensures Goto(Shape(s, p, guard, pc, lockFile, lockDir, marker, temps), p, next) == Shape(s, p, guard, next, lockFile, lockDir, marker, temps)
  {
  }

  lemma GotoInside(s: State, p: Pid, pc: Pc, next: Pc, lockDir: LockDir, marker: Marker, temps: map<Token, Temp>)
    requires p in s.procs
    ensures Goto(Inside(s, p, pc, lockDir, marker, temps), p, next) == Inside(s, p, next, lockDir, marker, temps)
  {
    GotoShape(s, p, Some(p), pc, next, s.lockFile, lockDir, marker, temps);
  }

  /** The record of a whole lease from now on. */
  function NewLease(s: State, t: Token): LockFile { Lease(t, Now(s) + t.ttl, Now(s)) }

  /** ... is in place, and `p` at `pc`. */
  function Placed(s: State, p: Pid, guard: Option<Pid>, pc: Pc, marker: Marker): State
    requires p in s.procs
  {
    Shape(s, p, guard, pc, NewLease(s, p.token), Directory, marker, s.temps - {p.token})
  }

  /** The temporary file is renamed. */
  lemma PublishShape(s: State, p: Pid, now: nat, next: Pc, marker: Marker)
    requires p in s.procs
    ensures PublishEffect(Inside(s, p, Publish(now), Directory, marker, Record(s, p)), p, next) == Placed(s, p, Some(p), next, marker)
  {
    assert Record(s, p) - {p.token} == s.temps - {p.token};
    GotoShape(s, p, Some(p), Publish(now), next, NewLease(s, p.token), Directory, marker, s.temps - {p.token});
  }

  lemma PlacedAtEnd(s: State, p: Pid)
    requires p in s.procs && s.guard.None?
    ensures Placed(s, p, None, Exited(true), Owner(p.token, Now(s))) == Goto(WithLease(s, p.token), p, Exited(true))
  {
  }

  /** The temporary file with the record of a lease from now on. */
  function Record(s: State, p: Pid): map<Token, Temp> { s.temps[p.token := Full(p.token, Now(s) + p.token.ttl, Now(s))] }

  /** A renew script of a live lease begins a whole lease. */
  lemma SoloRenew(s: State, p: Pid)
    requires Inv(s) && p.RenewBy? && AtStart(s, p) && Live(s, p.token)
    ensures Gets(s, p, Goto(WithLease(s, p.token), p, Exited(true)))
  {
    Stays(s, p);
    var e := Goto(s.(guard := Some(p)), p, GotGuard);
    ThenRenew(s, p, s, e);
    var m := Inside(s, p, OpenTemp(Now(s)), s.lockDir, s.marker, s.temps);
    GotoInside(s, p, GotGuard, OpenTemp(Now(s)), s.lockDir, s.marker, s.temps);
    ThenRenew(s, p, e, m);
    SoloRenewWrites(s, p, m);
  }

  lemma ThenRenew(s: State, p: Pid, e: State, m: State)
    requires Gets(s, p, e) && p.RenewBy? && p in e.procs && RenewMove(e, p, m)
    ensures Gets(s, p, m)
  {
    Then(s, p, e, m);
  }

  lemma SoloRenewWrites(s: State, p: Pid, m: State)
    requires p.RenewBy? && AtStart(s, p) && s.lockDir.Directory? && s.marker.Owner? && s.marker.token == p.token
    requires Gets(s, p, m) && m == Inside(s, p, OpenTemp(Now(s)), s.lockDir, s.marker, s.temps)
    ensures Gets(s, p, Goto(WithLease(s, p.token), p, Exited(true)))
  {
    var torn := s.temps[p.token := Partial(Now(s))];
    GotoInside(s, p, OpenTemp(Now(s)), WriteTemp(Now(s)), s.lockDir, s.marker, torn);
    var a := Inside(s, p, WriteTemp(Now(s)), s.lockDir, s.marker, torn);
    ThenRenew(s, p, m, a);
    assert torn[p.token := Full(p.token, Now(s) + p.token.ttl, Now(s))] == Record(s, p);
    GotoInside(s, p, WriteTemp(Now(s)), Publish(Now(s)), s.lockDir, s.marker, Record(s, p));
    var b := Inside(s, p, Publish(Now(s)), s.lockDir, s.marker, Record(s, p));
    ThenRenew(s, p, a, b);
    SoloRenewPublishes(s, p, b);
  }

  lemma SoloRenewPublishes(s: State, p: Pid, b: State)
    requires p.RenewBy? && AtStart(s, p) && s.lockDir.Directory? && s.marker.Owner? && s.marker.token == p.token
    requires Gets(s, p, b) && b == Inside(s, p, Publish(Now(s)), s.lockDir, s.marker, Record(s, p))
    ensures Gets(s, p, Goto(WithLease(s, p.token), p, Exited(true)))
  {
    PublishShape(s, p, Now(s), Touch, s.marker);
    var c := Placed(s, p, Some(p), Touch, s.marker);
    ThenRenew(s, p, b, c);
    SoloRenewTouches(s, p, c);
  }

  lemma SoloRenewTouches(s: State, p: Pid, c: State)
    requires p.RenewBy? && AtStart(s, p) && s.marker.Owner? && s.marker.token == p.token
    requires Gets(s, p, c) && c == Placed(s, p, Some(p), Touch, s.marker)
    ensures Gets(s, p, Goto(WithLease(s, p.token), p, Exited(true)))
  {
    var now := Owner(p.token, Now(s));
    GotoShape(s, p, Some(p), Touch, Leaving(true), NewLease(s, p.token), Directory, now, s.temps - {p.token});
    var d := Placed(s, p, Some(p), Leaving(true), now);
    ThenRenew(s, p, c, d);
    GotoShape(s, p, None, Leaving(true), Exited(true), NewLease(s, p.token), Directory, now, s.temps - {p.token});
    var f := Placed(s, p, None, Exited(true), now);
    ThenRenew(s, p, d, f);
    PlacedAtEnd(s, p);
  }

  /** The lock is free, its lease has expired, or what has been left there has been left for the grace of
      the one who asks. */
  predicate Available(s: State, t: Token, now: nat) {
    && !s.lockFile.Irregular? && !s.lockDir.NotDirectory?
    && ((s.lockFile.NoFile? && s.lockDir.Missing?)
       || (s.lockFile.NoFile? && s.marker.Owner? && now - s.marker.mtime >= t.grace)
       || (s.lockFile.Malformed? && now - s.lockFile.mtime >= t.grace)
       || (s.lockFile.Lease? && Marked(s, s.lockFile.token) && s.lockFile.expires <= now)
       || (s.lockFile.Lease? && !Marked(s, s.lockFile.token) && now - s.lockFile.mtime >= t.grace))
  }

  lemma ClaimIffAvailable(s: State, t: Token, now: nat)
    ensures Judge(s, t, now) == Claim <==> Available(s, t, now)
  {
  }

  /** An acquire script that is in time takes an available lock, and has a whole lease. */
  lemma SoloAcquire(s: State, p: Pid)
    requires Inv(s) && p.AcquireBy? && AtStart(s, p) && s.clock < s.procs[p].deadline && Available(s, p.token, Now(s))
    ensures Gets(s, p, Goto(WithLease(s, p.token), p, Exited(true)))
  {
    var e := SoloInspect(s, p);
    ClaimIffAvailable(s, p.token, Now(s));
    var m := Goto(e, p, OpenTemp(Now(s)));
    Then(s, p, e, m);
    SoloPrepares(s, p, m);
  }

  /** It gets the guard and reads the clock. */
  lemma SoloInspect(s: State, p: Pid) returns (e: State)
    requires p.AcquireBy? && AtStart(s, p) && s.clock < s.procs[p].deadline
    ensures Gets(s, p, e) && e == Goto(s.(guard := Some(p)), p, Inspect(Now(s)))
  {
    Stays(s, p);
    var m := Goto(s.(guard := Some(p)), p, GotGuard);
    ThenAcquire(s, p, s, m);
    e := Goto(m, p, Inspect(Now(s)));
    ThenAcquire(s, p, m, e);
    assert e == Goto(s.(guard := Some(p)), p, Inspect(Now(s)));
  }

  /** It writes its temporary file. */
  lemma SoloPrepares(s: State, p: Pid, e: State)
    requires p.AcquireBy? && AtStart(s, p) && !s.lockDir.NotDirectory?
    requires Gets(s, p, e) && e == Goto(s.(guard := Some(p)), p, OpenTemp(Now(s)))
    ensures Gets(s, p, Goto(WithLease(s, p.token), p, Exited(true)))
  {
    assert e == Inside(s, p, OpenTemp(Now(s)), s.lockDir, s.marker, s.temps);
    var torn := s.temps[p.token := Partial(Now(s))];
    GotoInside(s, p, OpenTemp(Now(s)), WriteTemp(Now(s)), s.lockDir, s.marker, torn);
    var a := Inside(s, p, WriteTemp(Now(s)), s.lockDir, s.marker, torn);
    ThenAcquire(s, p, e, a);
    SoloWritesRecord(s, p, a, torn);
  }

  lemma SoloWritesRecord(s: State, p: Pid, a: State, torn: map<Token, Temp>)
    requires p.AcquireBy? && AtStart(s, p) && !s.lockDir.NotDirectory? && torn == s.temps[p.token := Partial(Now(s))]
    requires Gets(s, p, a) && a == Inside(s, p, WriteTemp(Now(s)), s.lockDir, s.marker, torn)
    ensures Gets(s, p, Goto(WithLease(s, p.token), p, Exited(true)))
  {
    var next := if s.lockDir.Directory? then OpenMarker(Now(s)) else MakeDir(Now(s));
    assert torn[p.token := Full(p.token, Now(s) + p.token.ttl, Now(s))] == Record(s, p);
    GotoInside(s, p, WriteTemp(Now(s)), next, s.lockDir, s.marker, Record(s, p));
    var b := Inside(s, p, next, s.lockDir, s.marker, Record(s, p));
    ThenAcquire(s, p, a, b);
    if s.lockDir.Directory? { SoloMarks(s, p, b, s.marker); } else { SoloMakesDir(s, p, b); }
  }

  /** It makes the directory, if there is none. */
  lemma SoloMakesDir(s: State, p: Pid, b: State)
    requires p.AcquireBy? && AtStart(s, p) && s.lockDir.Missing?
    requires Gets(s, p, b) && b == Inside(s, p, MakeDir(Now(s)), s.lockDir, s.marker, Record(s, p))
    ensures Gets(s, p, Goto(WithLease(s, p.token), p, Exited(true)))
  {
    GotoInside(s, p, MakeDir(Now(s)), OpenMarker(Now(s)), Directory, NoMarker, Record(s, p));
    var c := Inside(s, p, OpenMarker(Now(s)), Directory, NoMarker, Record(s, p));
    ThenAcquire(s, p, b, c);
    SoloMarks(s, p, c, NoMarker);
  }

  /** It writes its marker. */
  lemma SoloMarks(s: State, p: Pid, b: State, before: Marker)
    requires p.AcquireBy? && AtStart(s, p)
    requires Gets(s, p, b) && b == Inside(s, p, OpenMarker(Now(s)), Directory, before, Record(s, p))
    ensures Gets(s, p, Goto(WithLease(s, p.token), p, Exited(true)))
  {
    GotoInside(s, p, OpenMarker(Now(s)), WriteMarker(Now(s)), Directory, Torn(Now(s)), Record(s, p));
    var c := Inside(s, p, WriteMarker(Now(s)), Directory, Torn(Now(s)), Record(s, p));
    ThenAcquire(s, p, b, c);
    SoloFillsMarker(s, p, c);
  }

  lemma SoloFillsMarker(s: State, p: Pid, c: State)
    requires p.AcquireBy? && AtStart(s, p)
    requires Gets(s, p, c) && c == Inside(s, p, WriteMarker(Now(s)), Directory, Torn(Now(s)), Record(s, p))
    ensures Gets(s, p, Goto(WithLease(s, p.token), p, Exited(true)))
  {
    GotoInside(s, p, WriteMarker(Now(s)), Publish(Now(s)), Directory, Owner(p.token, Now(s)), Record(s, p));
    var d := Inside(s, p, Publish(Now(s)), Directory, Owner(p.token, Now(s)), Record(s, p));
    ThenAcquire(s, p, c, d);
    SoloTakes(s, p, d);
  }

  lemma SoloTakes(s: State, p: Pid, d: State)
    requires p.AcquireBy? && AtStart(s, p)
    requires Gets(s, p, d) && d == Inside(s, p, Publish(Now(s)), Directory, Owner(p.token, Now(s)), Record(s, p))
    ensures Gets(s, p, Goto(WithLease(s, p.token), p, Exited(true)))
  {
    var now := Owner(p.token, Now(s));
    PublishShape(s, p, Now(s), Leaving(true), now);
    var e := Placed(s, p, Some(p), Leaving(true), now);
    ThenAcquire(s, p, d, e);
    GotoShape(s, p, None, Leaving(true), Exited(true), NewLease(s, p.token), Directory, now, s.temps - {p.token});
    var f := Placed(s, p, None, Exited(true), now);
    ThenAcquire(s, p, e, f);
    PlacedAtEnd(s, p);
  }

  /** And leaves any other as it is, to try again or, if it is not to be touched, to fail. */
  lemma SoloAcquireWaits(s: State, p: Pid)
    requires p.AcquireBy? && AtStart(s, p) && s.clock < s.procs[p].deadline && !Available(s, p.token, Now(s))
    ensures if s.lockFile.Irregular? || s.lockDir.NotDirectory?
            then Gets(s, p, Goto(s.(guard := Some(p)), p, Exited(false))) else Gets(s, p, s)
  {
    var e := SoloInspect(s, p);
    ClaimIffAvailable(s, p.token, Now(s));
    if s.lockFile.Irregular? || s.lockDir.NotDirectory? {
      var m := Goto(e, p, Exited(false));
      ThenAcquire(s, p, e, m);
      assert m == Goto(s.(guard := Some(p)), p, Exited(false));
    } else {
      var m := Goto(e, p, Leaving(false));
      ThenAcquire(s, p, e, m);
      var w := Goto(m.(guard := None), p, Waiting);
      ThenAcquire(s, p, m, w);
      assert w == s;
    }
  }

  /** An acquire or renew script that is out of time gives up and leaves everything as it is. */
  lemma SoloGivesUp(s: State, p: Pid)
    requires !p.UnlockBy? && p in s.procs && s.procs[p].pc.Waiting? && s.clock >= s.procs[p].deadline && (p.RenewBy? ==> s.guard.Some?)
    ensures Gets(s, p, Goto(s, p, Exited(false)))
  {
    Stays(s, p);
    if s.guard.Some? {
      Then(s, p, s, Goto(s, p, Exited(false)));
    } else {
      var m := Goto(s.(guard := Some(p)), p, GotGuard);
      ThenAcquire(s, p, s, m);
      var n := Goto(m, p, Leaving(false));
      ThenAcquire(s, p, m, n);
      var e := Goto(n.(guard := None), p, Exited(false));
      ThenAcquire(s, p, n, e);
      assert e == Goto(s, p, Exited(false));
    }
  }

  /** An acquire script that cannot make the directory removes its temporary file and waits again, as long as
      it has time. */
  lemma SoloRetries(s: State, p: Pid)
    requires p.AcquireBy? && p in s.procs && s.guard == Some(p) && s.procs[p].pc.MakeDir?
    ensures Gets(s, p, Goto(s.(guard := None, temps := s.temps - {p.token}), p, if s.clock >= s.procs[p].deadline then Exited(false) else Waiting))
  {
    Stays(s, p);
    var m := Goto(s, p, RemoveTemp);
    ThenAcquire(s, p, s, m);
    var n := Goto(m.(temps := m.temps - {p.token}), p, Leaving(false));
    ThenAcquire(s, p, m, n);
    var e := Goto(n.(guard := None), p, if s.clock >= s.procs[p].deadline then Exited(false) else Waiting);
    ThenAcquire(s, p, n, e);
    assert e == Goto(s.(guard := None, temps := s.temps - {p.token}), p, e.procs[p].pc);
  }

  /** An unlock script that does not find its own record changes nothing: it succeeds if there is none, and
      fails otherwise. */
  lemma SoloUnlockLeaves(s: State, p: Pid)
    requires p.UnlockBy? && AtStart(s, p) && !Held(s, p.token)
    ensures Gets(s, p, Goto(s, p, Exited(s.lockFile.NoFile?)))
  {
    Stays(s, p);
    var m := Goto(s.(guard := Some(p)), p, GotGuard);
    Then(s, p, s, m);
    var n := Goto(m, p, Leaving(s.lockFile.NoFile?));
    Then(s, p, m, n);
    var e := Goto(n.(guard := None), p, Exited(s.lockFile.NoFile?));
    Then(s, p, n, e);
    assert e == Goto(s, p, Exited(s.lockFile.NoFile?));
  }

  /** A renew script whose lease is not live changes nothing and fails. */
  lemma SoloRenewFails(s: State, p: Pid)
    requires p.RenewBy? && AtStart(s, p) && !Live(s, p.token)
    ensures Gets(s, p, Goto(s.(guard := Some(p)), p, Exited(false)))
  {
    Stays(s, p);
    var m := Goto(s.(guard := Some(p)), p, GotGuard);
    ThenRenew(s, p, s, m);
    var e := Goto(m, p, Exited(false));
    ThenRenew(s, p, m, e);
    assert e == Goto(s.(guard := Some(p)), p, Exited(false));
  }
}
