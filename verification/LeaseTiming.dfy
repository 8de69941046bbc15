/** The client's side of a lease: it renews on a ticker, and gives the lease up when a renewal fails.
    The question is whether it always gives up before the remote whole-second clock lets another
    client take over. Durations and clock readings are nanoseconds. */
module LeaseTiming {
  const SECOND: int := 1_000_000_000
  const MILLISECOND: int := 1_000_000
  const DEFAULT_LEASE_TTL: int := 120 * SECOND
  const DEFAULT_RENEW_INTERVAL: int := 30 * SECOND
  const DEFAULT_RENEW_TIMEOUT: int := 20 * SECOND

  /** The configured values; zero or less means the default. */
  datatype Settings = Settings(leaseTTL: int, renewInterval: int, renewTimeout: int)

  function LeaseTTL(c: Settings): int { if c.leaseTTL > 0 then c.leaseTTL else DEFAULT_LEASE_TTL }

  /** A configured value or its default, cut to a third of the lease, and at least a millisecond. */
  function AtMostAThird(configured: int, default: int, ttl: int): int {
    var value := if configured <= 0 then default else configured;
    var cut := if value > ttl / 3 then ttl / 3 else value;
    if cut <= 0 then MILLISECOND else cut
  }

  function RenewInterval(c: Settings): int {
    AtMostAThird(c.renewInterval, DEFAULT_RENEW_INTERVAL, LeaseTTL(c))
  }

  function RenewTimeout(c: Settings): int {
    AtMostAThird(c.renewTimeout, DEFAULT_RENEW_TIMEOUT, LeaseTTL(c))
  }

  /** The lease length in whole seconds that the scripts are given. */
  function SecondsCeil(value: int): (r: int)
    requires value >= 0
    ensures r >= 1 && (value > 0 ==> (r - 1) * SECOND < value <= r * SECOND)
  {
    var seconds := value / SECOND + (if value % SECOND != 0 then 1 else 0);
    if seconds < 1 then 1 else seconds
  }

  // ---------------------------------------------------------------- the renewal loop

  /** Interval and timeout in nanoseconds, lease in seconds. */
  datatype Timing = Timing(interval: int, timeout: int, lease: int)

  predicate Positive(k: Timing) { k.interval > 0 && k.timeout > 0 && k.lease > 0 }

  function TimingOf(c: Settings): Timing {
    Timing(RenewInterval(c), RenewTimeout(c), SecondsCeil(LeaseTTL(c)))
  }

  /** `base` is when the last successful renewal was started, `due` is the earliest unread tick;
      `steady` says that a renewal from the ticker has succeeded. */
  datatype Phase =
    | Validating(started: int)
    | Idle(base: int, due: int, steady: bool)
    | Renewing(base: int, started: int, due: int, steady: bool)
    | Lost

  datatype Client = Client(time: int, expires: int, phase: Phase)

  /** `Lock` has taken the lease and starts the renewal that validates it. */
  predicate Init(s: Client) { s.time >= 0 && s.phase == Validating(s.time) }

  /** Ticks are read on time and a renewal is cut off at its timeout. A successful renewal read the
      remote clock at some moment between its start and its end, and set the expiry from there. */
  datatype Event = Advance(to: int) | Validated(read: int) | Tick(due: int) | Renewed(read: int) | Failed

  ghost predicate StepBy(k: Timing, s: Client, e: Event, s': Client) {
    match e
    case Advance(to) =>
      && s.time <= to && s' == s.(time := to)
      && (match s.phase
          case Validating(started) => to <= started + k.timeout
          case Idle(_, due, _) => to <= due
          case Renewing(_, started, _, _) => to <= started + k.timeout
          case Lost => true)
    case Validated(read) =>
      && s.phase.Validating? && s.phase.started <= read <= s.time
      // The ticker is created only now.
      && s' == s.(expires := read / SECOND + k.lease, phase := Idle(s.phase.started, s.time + k.interval, false))
    case Tick(due) =>
      && s.phase.Idle? && s.phase.due <= s.time < due <= s.time + k.interval
      && s' == s.(phase := Renewing(s.phase.base, s.time, due, s.phase.steady))
    case Renewed(read) =>
      && s.phase.Renewing? && s.phase.started <= read <= s.time
      && s' == s.(expires := read / SECOND + k.lease, phase := Idle(s.phase.started, s.phase.due, true))
    case Failed => (s.phase.Renewing? || s.phase.Validating?) && s' == s.(phase := Lost)
  }

  ghost predicate Step(k: Timing, s: Client, s': Client) { exists e :: StepBy(k, s, e, s') }

  ghost predicate IsRun(k: Timing, run: seq<Client>) {
    && |run| > 0 && Init(run[0])
    && forall i :: 0 <= i < |run| - 1 ==> Step(k, run[i], run[i + 1])
  }

  predicate Working(s: Client) { s.phase.Idle? || s.phase.Renewing? }

  /** Nobody can take the lease over: the remote clock, in whole seconds, is below the expiry. */
  predicate Covered(s: Client) { s.time / SECOND < s.expires }

  ghost predicate AlwaysCovered(k: Timing) {
    forall run: seq<Client>, i: nat :: IsRun(k, run) && i < |run| && Working(run[i]) ==> Covered(run[i])
  }

  ghost predicate CoveredOnceSteady(k: Timing) {
    forall run: seq<Client>, i: nat :: IsRun(k, run) && i < |run| && Working(run[i]) && run[i].phase.steady ==> Covered(run[i])
  }

  function Max(a: int, b: int): int { if a > b then a else b }

  /** How far the clock can get, counted from the start of the last successful renewal. */
  predicate Inv(k: Timing, s: Client) {
    && s.time >= 0
    && match s.phase
       case Validating(started) => 0 <= started <= s.time <= started + k.timeout
       case Idle(base, due, steady) =>
         && 0 <= base <= s.time
         && base / SECOND + k.lease <= s.expires
         && (if steady then due <= base + k.interval && s.time <= base + Max(k.interval, k.timeout)
             else due <= base + k.timeout + k.interval && s.time <= base + k.timeout + k.interval)
       case Renewing(base, started, due, steady) =>
         && 0 <= base <= started <= s.time <= started + k.timeout
         && base / SECOND + k.lease <= s.expires
         && due <= started + k.interval
         && (if steady then started <= base + Max(k.interval, k.timeout)
             else started <= base + k.timeout + k.interval)
       case Lost => true
  }

  lemma FloorMonotone(a: int, b: int)
    requires a <= b
    ensures a / SECOND <= b / SECOND
  {
  }

  lemma StepKeepsInv(k: Timing, s: Client, e: Event, s': Client)
    requires Positive(k) && Inv(k, s) && StepBy(k, s, e, s')
    ensures Inv(k, s')
  {
    match e
    case Validated(read) => FloorMonotone(s.phase.started, read);
    case Renewed(read) => FloorMonotone(s.phase.started, read);
    case _ =>
  }

  lemma {:induction false} RunInv(k: Timing, run: seq<Client>, i: nat)
    requires Positive(k) && IsRun(k, run) && i < |run|
    ensures Inv(k, run[i])
  {
    if i > 0 {
      RunInv(k, run, i - 1);
      assert Step(k, run[i - 1], run[i - 1 + 1]);
      var e :| StepBy(k, run[i - 1], e, run[i]);
      StepKeepsInv(k, run[i - 1], e, run[i]);
    }
  }

  /** The ticker does not tick before its time: before the first ticked renewal lies a whole interval. */
  predicate Ticking(k: Timing, s: Client) {
    match s.phase
    case Idle(base, due, steady) => !steady ==> base + k.interval <= due
    case Renewing(base, started, _, steady) => !steady ==> base + k.interval <= started
    case Validating(started) => started <= s.time
    case Lost => true
  }

  lemma {:induction false} FirstTickWaits(k: Timing, run: seq<Client>, i: nat)
    requires IsRun(k, run) && i < |run|
    ensures Ticking(k, run[i])
  {
    if i > 0 {
      FirstTickWaits(k, run, i - 1);
      assert Step(k, run[i - 1], run[i - 1 + 1]);
    }
  }

  lemma WithinLease(base: int, time: int, lease: int, slack: int)
    requires 0 <= base && time <= base + slack && slack <= (lease - 1) * SECOND
    ensures time / SECOND < base / SECOND + lease
  {
    var whole := base / SECOND;
    assert base < (whole + 1) * SECOND;
    assert time < (whole + lease) * SECOND;
  }

  /** The client's tenure is covered from first to last exactly when a whole interval and two
      timeouts fit into the lease less one second. */
  lemma TenureCoveredIff(k: Timing)
    requires Positive(k)
    ensures AlwaysCovered(k) <==> k.interval + 2 * k.timeout <= (k.lease - 1) * SECOND
  {
    if k.interval + 2 * k.timeout <= (k.lease - 1) * SECOND {
      forall run: seq<Client>, i: nat | IsRun(k, run) && i < |run| && Working(run[i]) ensures Covered(run[i]) {
        RunInv(k, run, i);
        WithinLease(run[i].phase.base, run[i].time, k.lease, k.interval + 2 * k.timeout);
      }
    } else {
      var run := SlowFirstRenewal(k);
      assert Working(run[|run| - 1]) && !Covered(run[|run| - 1]);
    }
  }

  /** Once a renewal from the ticker has succeeded, the longer of interval and timeout and one timeout
      more have to fit. */
  lemma SteadyTenureCoveredIff(k: Timing)
    requires Positive(k)
    ensures CoveredOnceSteady(k) <==> Max(k.interval, k.timeout) + k.timeout <= (k.lease - 1) * SECOND
  {
    if Max(k.interval, k.timeout) + k.timeout <= (k.lease - 1) * SECOND {
      forall run: seq<Client>, i: nat | IsRun(k, run) && i < |run| && Working(run[i]) && run[i].phase.steady ensures Covered(run[i]) {
        RunInv(k, run, i);
        WithinLease(run[i].phase.base, run[i].time, k.lease, Max(k.interval, k.timeout) + k.timeout);
      }
    } else {
      var run := SlowSteadyRenewal(k);
      assert Working(run[|run| - 1]) && run[|run| - 1].phase.steady && !Covered(run[|run| - 1]);
    }
  }

  lemma Extend(k: Timing, run: seq<Client>, e: Event, s: Client)
    requires IsRun(k, run) && StepBy(k, run[|run| - 1], e, s)
    ensures IsRun(k, run + [s])
  {
    var longer := run + [s];
    forall i | 0 <= i < |longer| - 1 ensures Step(k, longer[i], longer[i + 1]) {
      if i < |run| - 1 { assert Step(k, run[i], run[i + 1]); }
    }
  }

  /** Validation reads the clock at the end of a second and returns at its timeout; the first ticked
      renewal comes a whole interval later and hangs until its timeout. */
  lemma SlowFirstRenewal(k: Timing) returns (run: seq<Client>)
    requires Positive(k) && k.interval + 2 * k.timeout > (k.lease - 1) * SECOND
    ensures IsRun(k, run) && |run| > 0 && Working(run[|run| - 1]) && !Covered(run[|run| - 1])
  {
    var t := SECOND - 1;
    var s := Client(t, 0, Validating(t));
    run := [s];
    s := s.(time := t + k.timeout);
    Extend(k, run, Advance(s.time), s); run := run + [s];
    s := s.(expires := k.lease, phase := Idle(t, s.time + k.interval, false));
    Extend(k, run, Validated(t), s); run := run + [s];
    s := s.(time := s.time + k.interval);
    Extend(k, run, Advance(s.time), s); run := run + [s];
    s := s.(phase := Renewing(t, s.time, s.time + k.interval, false));
    Extend(k, run, Tick(s.time + k.interval), s); run := run + [s];
    s := s.(time := s.time + k.timeout);
    Extend(k, run, Advance(s.time), s); run := run + [s];
    assert s.time >= k.lease * SECOND;
  }

  /** The first ticked renewal starts at the end of a second and reads the clock at once; it returns when
      the next one is due, or at its timeout if that is later, and the next one hangs until its timeout. */
  lemma SlowSteadyRenewal(k: Timing) returns (run: seq<Client>)
    requires Positive(k) && Max(k.interval, k.timeout) + k.timeout > (k.lease - 1) * SECOND
    ensures IsRun(k, run) && |run| > 0 && Working(run[|run| - 1]) && run[|run| - 1].phase.steady && !Covered(run[|run| - 1])
  {
    var seconds := k.interval + 1;
    var base := seconds * SECOND - 1;
    var t := base - k.interval;
    var s := Client(t, 0, Validating(t));
    run := [s];
    s := s.(expires := t / SECOND + k.lease, phase := Idle(t, base, false));
    Extend(k, run, Validated(t), s); run := run + [s];
    s := s.(time := base);
    Extend(k, run, Advance(base), s); run := run + [s];
    s := s.(phase := Renewing(t, base, base + k.interval, false));
    Extend(k, run, Tick(base + k.interval), s); run := run + [s];
    s := s.(time := base + if k.timeout > k.interval then k.timeout else 0);
    Extend(k, run, Advance(s.time), s); run := run + [s];
    s := s.(expires := base / SECOND + k.lease, phase := Idle(base, base + k.interval, true));
    Extend(k, run, Renewed(base), s); run := run + [s];
    if k.timeout <= k.interval {
      s := s.(time := base + k.interval);
      Extend(k, run, Advance(s.time), s); run := run + [s];
    }
    s := s.(phase := Renewing(base, s.time, s.time + k.interval, true));
    Extend(k, run, Tick(s.time + k.interval), s); run := run + [s];
    s := s.(time := s.time + k.timeout);
    Extend(k, run, Advance(s.time), s); run := run + [s];
    assert base / SECOND == seconds - 1;
    assert s.time >= (seconds - 1 + k.lease) * SECOND;
  }

  // ---------------------------------------------------------------- the settings

  /** Whatever the settings, interval and timeout are positive and at most a third of the lease; if that
      is no whole nanosecond, they are a millisecond. */
  lemma ThirdsOfTheLease(c: Settings)
    ensures Positive(TimingOf(c))
    ensures LeaseTTL(c) >= 3 ==> 3 * RenewInterval(c) <= LeaseTTL(c) && 3 * RenewTimeout(c) <= LeaseTTL(c)
    ensures LeaseTTL(c) < 3 ==> RenewInterval(c) == RenewTimeout(c) == MILLISECOND
  {
  }

  /** What is configured is used as it is, if interval and timeout are at most a third of the lease; what is
      longer is cut to just a third of it; and what is not configured is the default. */
  lemma SettingsAreUsed(c: Settings)
    ensures LeaseTTL(c) == if c.leaseTTL > 0 then c.leaseTTL else 120 * SECOND
    ensures var interval := if c.renewInterval > 0 then c.renewInterval else 30 * SECOND;
      && (3 * interval <= LeaseTTL(c) ==> RenewInterval(c) == interval)
      && (3 * interval > LeaseTTL(c) >= 3 ==> 3 * RenewInterval(c) <= LeaseTTL(c) < 3 * RenewInterval(c) + 3)
    ensures var timeout := if c.renewTimeout > 0 then c.renewTimeout else 20 * SECOND;
      && (3 * timeout <= LeaseTTL(c) ==> RenewTimeout(c) == timeout)
      && (3 * timeout > LeaseTTL(c) >= 3 ==> 3 * RenewTimeout(c) <= LeaseTTL(c) < 3 * RenewTimeout(c) + 3)
  {
  }

  /** With a lease of three seconds or more every setting is safe once the ticker has renewed. */
  lemma SteadyForEverySetting(c: Settings)
    requires LeaseTTL(c) >= 3 * SECOND
    ensures Max(RenewInterval(c), RenewTimeout(c)) + RenewTimeout(c) <= 2 * LeaseTTL(c) / 3
    ensures 2 * LeaseTTL(c) / 3 <= (SecondsCeil(LeaseTTL(c)) - 1) * SECOND
    ensures CoveredOnceSteady(TimingOf(c))
  {
    ThirdsOfTheLease(c);
    SteadyTenureCoveredIff(TimingOf(c));
  }

  /** A lease makes every setting safe from then on exactly if two thirds of it fit. */
  lemma SteadyForEverySettingIff(ttl: int)
    requires ttl > 0
    ensures (forall c: Settings :: LeaseTTL(c) == ttl ==> CoveredOnceSteady(TimingOf(c)))
       <==> ttl >= 3 && 2 * (ttl / 3) <= (SecondsCeil(ttl) - 1) * SECOND
  {
    var longest := Settings(ttl, ttl, ttl);
    assert LeaseTTL(longest) == ttl;
    ThirdsOfTheLease(longest);
    SteadyTenureCoveredIff(TimingOf(longest));
    if ttl >= 3 && 2 * (ttl / 3) <= (SecondsCeil(ttl) - 1) * SECOND {
      forall c: Settings | LeaseTTL(c) == ttl ensures CoveredOnceSteady(TimingOf(c)) {
        ThirdsOfTheLease(c);
        SteadyTenureCoveredIff(TimingOf(c));
      }
    }
  }

  /** The lease is so little past a whole second that rounding a third of it down makes up for it: by one
      nanosecond or two. */
  predicate BarelyPastASecond(ttl: int) { (ttl - 1) % SECOND < ttl % 3 }

  lemma Ceil(ttl: int)
    requires ttl > 0
    ensures (SecondsCeil(ttl) - 1) * SECOND == ttl - 1 - (ttl - 1) % SECOND
  {
    var n := SecondsCeil(ttl);
    assert (n - 1) * SECOND <= ttl - 1 < n * SECOND;
    assert (ttl - 1) / SECOND == n - 1;
  }

  /** The first renewal is the weak spot: with interval and timeout at a third of the lease it is covered
      only by rounding. */
  lemma FullThirdsCoveredIff(c: Settings)
    requires RenewInterval(c) == RenewTimeout(c) == LeaseTTL(c) / 3
    ensures AlwaysCovered(TimingOf(c)) <==> BarelyPastASecond(LeaseTTL(c))
  {
    ThirdsOfTheLease(c);
    TenureCoveredIff(TimingOf(c));
    Ceil(LeaseTTL(c));
  }

  /** The default interval and timeout need a lease of more than 61 seconds; the default has 120. */
  lemma DefaultsCoveredIff(ttl: int)
    requires ttl > 0
    ensures AlwaysCovered(TimingOf(Settings(ttl, 0, 0))) <==> ttl > 61 * SECOND || (ttl >= 3 && BarelyPastASecond(ttl))
  {
    var c := Settings(ttl, 0, 0);
    ThirdsOfTheLease(c);
    TenureCoveredIff(TimingOf(c));
    Ceil(ttl);
    if ttl > 60 * SECOND { FloorMonotone(60 * SECOND, ttl - 1); }
  }
}
