/** The client and the scripts together: as long as a client goes on working, its token is live on the
    host, and nobody else's is. */
module LeaseEndToEnd {
  import opened Wrappers
  import P = LeaseProtocol
  import T = LeaseTiming

  /** Some step before `run[i]` published a renewal of `t` that looked in second `now`. */
  ghost predicate PublishedBefore(run: seq<P.State>, i: nat, t: P.Token, now: int) {
    exists m: nat :: m < i < |run| && now >= 0 && P.Publishes(run, m, t, now)
  }

  /** A renewal that the client takes for successful has been published on the host, with the reading
      of the clock that the client counts from. */
  ghost predicate Answered(run: seq<P.State>, i: nat, t: P.Token, e: T.Event) {
    match e
    case Validated(read) => PublishedBefore(run, i, t, read / T.SECOND)
    case Renewed(read) => PublishedBefore(run, i, t, read / T.SECOND)
    case _ => true
  }

  ghost predicate AnsweredStep(run: seq<P.State>, i: nat, k: T.Timing, t: P.Token, s: T.Client, e: T.Event, s': T.Client) {
    T.StepBy(k, s, e, s') && Answered(run, i, t, e)
  }

  ghost predicate StepTogether(run: seq<P.State>, i: nat, k: T.Timing, t: P.Token, s: T.Client, s': T.Client) {
    exists e :: AnsweredStep(run, i, k, t, s, e, s')
  }

  ghost predicate ClientStep(run: seq<P.State>, b: nat, k: T.Timing, t: P.Token, client: seq<T.Client>, i: nat)
    requires i < |client| - 1
  {
    StepTogether(run, b + i, k, t, client[i], client[i + 1])
  }

  /** The client of `t`, from the state `run[b]` on, in which its acquire script has succeeded. A step of one
      of the two alone is a step of the clock that does not move for the other. */
  ghost predicate Together(run: seq<P.State>, b: nat, k: T.Timing, t: P.Token, client: seq<T.Client>) {
    && P.IsRun(run) && |client| > 0 && b + |client| <= |run|
    && k.lease == t.ttl
    && T.Init(client[0])
    && (forall i :: 0 <= i < |client| ==> client[i].time == run[b + i].clock)
    && (forall i :: 0 <= i < |client| - 1 ==> ClientStep(run, b, k, t, client, i))
  }

  lemma ClientRuns(run: seq<P.State>, b: nat, k: T.Timing, t: P.Token, client: seq<T.Client>)
    requires Together(run, b, k, t, client)
    ensures T.IsRun(k, client)
  {
    forall i | 0 <= i < |client| - 1 ensures T.Step(k, client[i], client[i + 1]) {
      assert ClientStep(run, b, k, t, client, i);
      var e :| AnsweredStep(run, b + i, k, t, client[i], e, client[i + 1]);
    }
  }

  lemma LaterToo(run: seq<P.State>, i: nat, j: nat, t: P.Token, now: int)
    requires i <= j < |run|
    ensures PublishedBefore(run, i, t, now) ==> PublishedBefore(run, j, t, now)
  {
  }

  predicate CountsOn(s: T.Client, expires: int) { T.Working(s) && s.expires == expires }

  lemma StepCounts(run: seq<P.State>, i: nat, k: T.Timing, t: P.Token, s: T.Client, e: T.Event, s': T.Client, expires: int)
    requires AnsweredStep(run, i, k, t, s, e, s') && k.lease == t.ttl && i < |run| - 1
    requires CountsOn(s', expires)
    requires CountsOn(s, expires) ==> PublishedBefore(run, i, t, expires - t.ttl)
    ensures PublishedBefore(run, i + 1, t, expires - t.ttl)
  {
    LaterToo(run, i, i + 1, t, expires - t.ttl);
  }

  /** A working client counts on an expiry that has been published. */
  lemma {:induction false} CountsOnPublished(run: seq<P.State>, b: nat, k: T.Timing, t: P.Token, client: seq<T.Client>, i: nat, expires: int)
    requires Together(run, b, k, t, client) && i < |client| && CountsOn(client[i], expires)
    ensures PublishedBefore(run, b + i, t, expires - t.ttl)
  {
    if i > 0 {
      assert ClientStep(run, b, k, t, client, i - 1);
      var e :| AnsweredStep(run, b + i - 1, k, t, client[i - 1], e, client[i]);
      if CountsOn(client[i - 1], expires) { CountsOnPublished(run, b, k, t, client, i - 1, expires); }
      StepCounts(run, b + i - 1, k, t, client[i - 1], e, client[i], expires);
    }
  }

  /** A client whose timing fits its lease and that goes on working without unlocking is the one that
      holds the lock: its own token is live on the host, no other is, and any other script that looks at
      the lock has to wait. */
  lemma WorkingMeansExclusive(run: seq<P.State>, b: nat, k: T.Timing, t: P.Token, client: seq<T.Client>, i: nat, u: P.Token)
    requires Together(run, b, k, t, client) && i < |client| && T.Working(client[i])
    requires T.Positive(k) && k.interval + 2 * k.timeout <= (k.lease - 1) * T.SECOND
    requires P.NotUnlocked(run, 0, b + i, t)
    ensures P.Live(run[b + i], t)
    ensures u != t ==> !P.Live(run[b + i], u)
    ensures P.Judge(run[b + i], u, P.Now(run[b + i])) == P.Wait
  {
    assert T.Covered(client[i]) by {
      ClientRuns(run, b, k, t, client);
      T.TenureCoveredIff(k);
    }
    var expires := client[i].expires;
    CountsOnPublished(run, b, k, t, client, i, expires);
    var m: nat :| m < b + i && expires - t.ttl >= 0 && P.Publishes(run, m, t, expires - t.ttl);
    P.PublishedLeaseProtects(run, m, b + i, t, expires - t.ttl);
    P.RunInv(run, b + i);
  }

  // ---------------------------------------------------------------- an example

  lemma StartedStays(s: P.State, l: P.Label, s': P.State, p: P.Pid)
    requires P.StepBy(s, l, s') && p in s.procs
    ensures p in s'.procs
  {
    if l.Run? && l.who != p { P.MoveTouchesOwnProcess(s, l.who, s', p); }
  }

  ghost predicate HasUnlock(s: P.State, t: P.Token) { exists n :: P.UnlockBy(t, n) in s.procs }

  /** Where no unlock script of a token has been started, none has run. */
  lemma {:induction false} NeverUnlocked(run: seq<P.State>, j: nat, t: P.Token)
    requires P.IsRun(run) && j < |run| && !HasUnlock(run[j], t)
    ensures P.NotUnlocked(run, 0, j, t)
  {
    if j > 0 {
      assert P.StepAt(run, j - 1);
      var l :| P.StepBy(run[j - 1], l, run[j]);
      forall n | P.UnlockBy(t, n) in run[j - 1].procs ensures false { StartedStays(run[j - 1], l, run[j], P.UnlockBy(t, n)); }
      NeverUnlocked(run, j - 1, t);
      assert !P.Unlocks(run, j - 1, t);
    }
  }

  const BRISK: T.Timing := T.Timing(2 * T.SECOND, 3 * T.SECOND, 10)

  const RENEWAL: P.Pid := P.RenewBy(P.SLOW, 0)

  /** The first client looks at its lease at once. */
  lemma FirstClientLooks() returns (run: seq<P.State>, b: nat, s: P.State)
    ensures P.IsRun(run) && |run| == b + 4 && s == run[b + 3] && forall i :: b <= i < b + 4 ==> run[i].clock == 0
    ensures s == P.State(0, Some(RENEWAL), P.Lease(P.SLOW, 10, 0), P.Directory, P.Owner(P.SLOW, 0), map[],
                         map[P.AcquireBy(P.SLOW) := P.Proc(P.Exited(true), 300 * P.NANOS), RENEWAL := P.Proc(P.OpenTemp(0), 0)])
  {
    run, s := P.FirstClientAcquires();
    b := |run| - 1;
    s := s.(procs := s.procs[RENEWAL := P.Proc(P.Waiting, 0)]);
    P.Extend(run, P.Start(RENEWAL, 0), s); run := run + [s];
    s := P.Goto(s.(guard := Some(RENEWAL)), RENEWAL, P.GotGuard);
    P.Extend(run, P.Run(RENEWAL), s); run := run + [s];
    s := P.Goto(s, RENEWAL, P.OpenTemp(0));
    P.Extend(run, P.Run(RENEWAL), s); run := run + [s];
  }

  /** And renews it. */
  lemma FirstClientRenews() returns (run: seq<P.State>, b: nat)
    ensures P.IsRun(run) && |run| == b + 7 && forall i :: b <= i < b + 7 ==> run[i].clock == 0
    ensures P.Publishes(run, b + 5, P.SLOW, 0) && !HasUnlock(run[b + 6], P.SLOW)
  {
    var s;
    run, b, s := FirstClientLooks();
    s := P.OpenTempEffect(s, RENEWAL, 0);
    P.Extend(run, P.Run(RENEWAL), s); run := run + [s];
    s := P.WriteTempEffect(s, RENEWAL, 0, P.Publish(0));
    P.Extend(run, P.Run(RENEWAL), s); run := run + [s];
    s := P.PublishEffect(s, RENEWAL, P.Touch);
    P.Extend(run, P.Run(RENEWAL), s); run := run + [s];
    assert P.StepBy(run[b + 5], P.Run(P.RenewBy(P.SLOW, 0)), run[b + 6]);
  }

  /** It works, and so, by the theorem, it alone has the lock. */
  lemma FirstClientWorks() returns (run: seq<P.State>, b: nat, client: seq<T.Client>)
    ensures Together(run, b, BRISK, P.SLOW, client) && |client| == 8 && T.Working(client[7])
    ensures P.NotUnlocked(run, 0, b + 7, P.SLOW)
    ensures P.Live(run[b + 7], P.SLOW)
  {
    run, b := FirstClientRenews();
    var r := run;
    var s := run[b + 6];
    P.Extend(run, P.Tick(0), s); run := run + [s];
    assert forall i :: 0 <= i < 7 + b ==> run[i] == r[i];
    NeverUnlocked(run, b + 7, P.SLOW);
    var before := T.Client(0, 0, T.Validating(0));
    client := seq(7, _ => before) + [T.Client(0, 10, T.Idle(0, 2 * T.SECOND, false))];
    assert P.Publishes(run, b + 5, P.SLOW, 0) by {
      assert run[b + 5] == r[b + 5] && run[b + 6] == r[b + 6];
    }
    assert PublishedBefore(run, b + 6, P.SLOW, 0);
    forall i | 0 <= i < 7 ensures ClientStep(run, b, BRISK, P.SLOW, client, i) {
      var e := if i < 6 then T.Advance(0) else T.Validated(0);
      assert AnsweredStep(run, b + i, BRISK, P.SLOW, client[i], e, client[i + 1]);
    }
    WorkingMeansExclusive(run, b, BRISK, P.SLOW, client, 7, P.SLOW);
  }
}
