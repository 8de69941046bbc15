/** Running the waves in order: an item runs unless something it waits for, directly or not, failed. */
module Executor {
  import opened Wrappers
  import opened Lists
  import opened Digraph
  import opened Plans
  import opened Orphans

  type Failures = map<string, string>

  /** What came of running an item: an error, or none. Any answers are possible. */
  type Outcomes = string -> Option<string>

  function Stops(d: string, failed: Failures, blocked: Failures): bool { d in failed || d in blocked }

  /** `blockedDependency`: the failed item that the first stopped dependency is or was blocked by. */
  function BlockedDependency(deps: seq<string>, failed: Failures, blocked: Failures): (r: string)
    requires "" !in failed && forall a :: a in blocked ==> blocked[a] in failed
    ensures r == "" <==> forall d :: d in deps ==> !Stops(d, failed, blocked)
    ensures r != "" ==> r in failed && exists d :: d in deps && (d == r || (d in blocked && blocked[d] == r))
  {
    if deps == [] then "" else
      assert forall d :: d in deps <==> d == deps[0] || d in deps[1..];
      assert deps[0] in deps && (Stops(deps[0], failed, blocked) <==> deps[0] in failed || deps[0] in blocked);
      if deps[0] in failed then deps[0]
      else if deps[0] in blocked then blocked[deps[0]]
      else BlockedDependency(deps[1..], failed, blocked)
  }

  /** The addresses of all items, wave after wave. */
  function WaveAddresses(waves: seq<seq<ExecutionItem>>): seq<string> {
    if waves == [] then [] else WaveAddresses(waves[..|waves| - 1]) + Keys(waves[|waves| - 1], ItemAddress)
  }

  /** The item waits for what the graph says, and for nothing that is not in `before`. */
  ghost predicate WaitsFor(deps: Graph, before: set<string>, item: ExecutionItem) {
    item.address != "" && item.address in deps && Elems(item.dependsOn) == deps[item.address] && deps[item.address] <= before
  }

  ghost predicate WaitsForAll(deps: Graph, before: set<string>, items: seq<ExecutionItem>) {
    forall i :: 0 <= i < |items| ==> WaitsFor(deps, before, items[i])
  }

  /** Addresses are distinct, and whatever an item waits for stands in an earlier wave. */
  ghost predicate Ordered(deps: Graph, waves: seq<seq<ExecutionItem>>) {
    && NoDup(WaveAddresses(waves)) && deps.Keys == Elems(WaveAddresses(waves))
    && forall k {:trigger waves[k]} :: 0 <= k < |waves| ==> WaitsForAll(deps, Elems(WaveAddresses(waves[..k])), waves[k])
  }

  /** What has become of the items in `done`: each has run or is blocked, never both. The ones that
      failed are those that ran with an error, and an item is blocked exactly when it waits for one
      that failed or is blocked. */
  ghost predicate Accounted(deps: Graph, outcome: Outcomes, done: set<string>, attempted: set<string>,
                            failed: Failures, blocked: Failures) {
    && done <= deps.Keys && "" !in done && (forall a :: a in done ==> deps[a] <= done)
    && attempted + blocked.Keys == done && attempted !! blocked.Keys
    && ErrorsOf(outcome, attempted, failed) && Decided(deps, done, failed, blocked) && AllBlame(deps, failed, blocked)
  }

  ghost predicate ErrorsOf(outcome: Outcomes, attempted: set<string>, failed: Failures) {
    && (forall a :: a in failed <==> a in attempted && outcome(a).Some?)
    && (forall a :: a in failed ==> outcome(a) == Some(failed[a]))
  }

  ghost predicate Decided(deps: Graph, done: set<string>, failed: Failures, blocked: Failures)
    requires done <= deps.Keys
  {
    forall a {:trigger Blocking(deps, failed, blocked, a)} :: a in done ==> (a in blocked <==> Blocking(deps, failed, blocked, a))
  }

  ghost predicate AllBlame(deps: Graph, failed: Failures, blocked: Failures) {
    forall a {:trigger Blames(deps, failed, a, blocked[a])} :: a in blocked ==> Blames(deps, failed, a, blocked[a])
  }

  ghost predicate Blocking(deps: Graph, failed: Failures, blocked: Failures, a: string)
    requires a in deps
  {
    exists d :: d in deps[a] && Stops(d, failed, blocked)
  }

  /** `f` failed, and `a` waits for it, directly or not. */
  ghost predicate Blames(deps: Graph, failed: Failures, a: string, f: string) {
    f in failed && exists p :: Chain(deps, p, a, f)
  }

  ghost predicate Chain(deps: Graph, p: seq<string>, a: string, f: string) {
    IsPath(deps, p) && |p| > 1 && p[0] == a && p[|p| - 1] == f
  }

  lemma ChainFromDependency(deps: Graph, failed: Failures, blocked: Failures, a: string, d: string, f: string)
    requires a in deps && d in deps[a] && ((d == f && f in failed) || (d in blocked && blocked[d] == f && Blames(deps, failed, d, f)))
    ensures Blames(deps, failed, a, f)
  {
    if d == f && f in failed {
      assert Chain(deps, [a, f], a, f);
    } else {
      var p :| Chain(deps, p, d, f);
      var q := [a] + p;
      forall i | 0 <= i < |q| - 1 ensures q[i] in deps && q[i + 1] in deps[q[i]] {
        if i > 0 { assert p[i - 1 + 1] in deps[p[i - 1]]; }
      }
      assert Chain(deps, q, a, f);
    }
  }

  /** Nothing that the item waits for failed or is blocked. */
  ghost predicate Clear(deps: Graph, failed: Failures, blocked: Failures, item: ExecutionItem) {
    item.address in deps && !Blocking(deps, failed, blocked, item.address)
  }

  /** A blocked item joins those accounted for. */
  lemma AccountBlocked(deps: Graph, outcome: Outcomes, done: set<string>, attempted: set<string>, failed: Failures, blocked: Failures,
                       item: ExecutionItem, culprit: string)
    requires Accounted(deps, outcome, done, attempted, failed, blocked)
    requires WaitsFor(deps, done, item) && item.address !in done && culprit in failed
    requires exists d :: d in item.dependsOn && (d == culprit || (d in blocked && blocked[d] == culprit))
    ensures Accounted(deps, outcome, done + {item.address}, attempted, failed, blocked[item.address := culprit])
  {
    var a, more := item.address, blocked[item.address := culprit];
    var d :| d in item.dependsOn && (d == culprit || (d in blocked && blocked[d] == culprit));
    assert d in Elems(item.dependsOn);
    if d in blocked { assert Blames(deps, failed, d, blocked[d]); }
    ChainFromDependency(deps, failed, blocked, a, d, culprit);
    BlameNext(deps, failed, blocked, a, culprit);
    assert Stops(d, failed, blocked) && d != a;
    DecidedNext(deps, done, failed, blocked, failed, more, a);
  }

  /** An item that has run joins those accounted for. */
  lemma AccountRun(deps: Graph, outcome: Outcomes, done: set<string>, attempted: set<string>, failed: Failures, blocked: Failures,
                   item: ExecutionItem)
    requires Accounted(deps, outcome, done, attempted, failed, blocked)
    requires WaitsFor(deps, done, item) && item.address !in done && Clear(deps, failed, blocked, item)
    ensures var a := item.address;
      Accounted(deps, outcome, done + {a}, attempted + {a}, WithResult(failed, a, outcome(a)), blocked)
  {
    var a := item.address;
    var more := WithResult(failed, a, outcome(a));
    ErrorsNext(outcome, attempted, failed, a);
    DecidedNext(deps, done, failed, blocked, more, blocked, a);
    BlameKept(deps, failed, blocked, more);
  }

  function WithResult(failed: Failures, a: string, err: Option<string>): Failures {
    if err.Some? then failed[a := err.value] else failed
  }

  lemma ErrorsNext(outcome: Outcomes, attempted: set<string>, failed: Failures, a: string)
    requires ErrorsOf(outcome, attempted, failed) && a !in attempted
    ensures ErrorsOf(outcome, attempted + {a}, WithResult(failed, a, outcome(a)))
  {
  }

  /** A newcomer stops nothing that is accounted for, and not itself. */
  lemma DecidedNext(deps: Graph, done: set<string>, failed: Failures, blocked: Failures,
                    moreFailed: Failures, moreBlocked: Failures, a: string)
    requires a in deps && done <= deps.Keys && deps[a] <= done && a !in done && (forall x :: x in done ==> deps[x] <= done)
    requires Decided(deps, done, failed, blocked) && (a in moreBlocked <==> Blocking(deps, failed, blocked, a))
    requires forall d :: d != a ==> (d in blocked <==> d in moreBlocked) && (d in failed <==> d in moreFailed)
    ensures Decided(deps, done + {a}, moreFailed, moreBlocked)
  {
    forall x | x in done + {a} ensures x in moreBlocked <==> Blocking(deps, moreFailed, moreBlocked, x) {
      assert Blocking(deps, failed, blocked, x) <==> Blocking(deps, moreFailed, moreBlocked, x) by {
        forall d | d in deps[x] ensures Stops(d, failed, blocked) <==> Stops(d, moreFailed, moreBlocked) { assert d in done; }
      }
    }
  }

  lemma BlameNext(deps: Graph, failed: Failures, blocked: Failures, a: string, culprit: string)
    requires AllBlame(deps, failed, blocked) && Blames(deps, failed, a, culprit)
    ensures AllBlame(deps, failed, blocked[a := culprit])
  {
    var more := blocked[a := culprit];
    forall x | x in more ensures Blames(deps, failed, x, more[x]) {
      if x != a { assert Blames(deps, failed, x, blocked[x]); }
    }
  }

  lemma BlameKept(deps: Graph, failed: Failures, blocked: Failures, more: Failures)
    requires AllBlame(deps, failed, blocked) && failed.Keys <= more.Keys
    ensures AllBlame(deps, more, blocked)
  {
    forall x | x in blocked ensures Blames(deps, more, x, blocked[x]) { assert Blames(deps, failed, x, blocked[x]); }
  }

  // ---------------------------------------------------------------- one wave

  /** The items still to run: each clear of failures, and none of them accounted for. */
  ghost predicate ToRun(deps: Graph, before: set<string>, done: set<string>, failed: Failures, blocked: Failures, items: seq<ExecutionItem>) {
    && NoDup(Keys(items, ItemAddress))
    && forall i {:trigger items[i]} :: 0 <= i < |items| ==>
         WaitsFor(deps, before, items[i]) && items[i].address !in done && Clear(deps, failed, blocked, items[i])
  }

  lemma KeysAppend(items: seq<ExecutionItem>, item: ExecutionItem)
    ensures Keys(items + [item], ItemAddress) == Keys(items, ItemAddress) + [item.address]
    ensures Elems(Keys(items + [item], ItemAddress)) == Elems(Keys(items, ItemAddress)) + {item.address}
  {
    assert Keys(items + [item], ItemAddress) == Keys(items, ItemAddress) + [item.address];
  }

  /** Where a wave stands: what is accounted for, and what is still to run. */
  ghost predicate Midway(deps: Graph, outcome: Outcomes, before: set<string>, done: set<string>, ran: seq<string>,
                         failed: Failures, blocked: Failures, rest: seq<ExecutionItem>) {
    && before <= done && NoDup(ran) && Accounted(deps, outcome, done, Elems(ran), failed, blocked)
    && ToRun(deps, before, done, failed, blocked, rest)
  }

  lemma BlockNext(deps: Graph, outcome: Outcomes, before: set<string>, done: set<string>, ran: seq<string>,
                  failed: Failures, blocked: Failures, rest: seq<ExecutionItem>, item: ExecutionItem, dep: string)
    requires Midway(deps, outcome, before, done, ran, failed, blocked, rest)
    requires WaitsFor(deps, before, item) && item.address !in done && item.address !in Keys(rest, ItemAddress)
    requires "" !in failed && (forall a :: a in blocked ==> blocked[a] in failed)
    requires dep == BlockedDependency(item.dependsOn, failed, blocked) && dep != ""
    ensures Midway(deps, outcome, before, done + {item.address}, ran, failed, blocked[item.address := dep], rest)
  {
    AccountBlocked(deps, outcome, done, Elems(ran), failed, blocked, item, dep);
    StillToRun(deps, before, done, failed, blocked, failed, blocked[item.address := dep], rest, item.address);
  }

  lemma KeepNext(deps: Graph, outcome: Outcomes, before: set<string>, done: set<string>, ran: seq<string>,
                 failed: Failures, blocked: Failures, rest: seq<ExecutionItem>, item: ExecutionItem)
    requires Midway(deps, outcome, before, done, ran, failed, blocked, rest)
    requires WaitsFor(deps, before, item) && item.address !in done && item.address !in Keys(rest, ItemAddress)
    requires "" !in failed && (forall a :: a in blocked ==> blocked[a] in failed)
    requires BlockedDependency(item.dependsOn, failed, blocked) == ""
    ensures Midway(deps, outcome, before, done, ran, failed, blocked, rest + [item])
  {
    KeysAppend(rest, item);
    NoDupAppend(Keys(rest, ItemAddress), item.address);
    assert forall d :: d in item.dependsOn <==> d in Elems(item.dependsOn);
    assert Clear(deps, failed, blocked, item);
  }

  lemma RunNext(deps: Graph, outcome: Outcomes, before: set<string>, done: set<string>, ran: seq<string>,
                failed: Failures, blocked: Failures, rest: seq<ExecutionItem>)
    requires Midway(deps, outcome, before, done, ran, failed, blocked, rest) && rest != []
    ensures var a := rest[0].address;
      && Midway(deps, outcome, before, done + {a}, ran + [a], WithResult(failed, a, outcome(a)), blocked, rest[1..])
      && done + {a} + Elems(Keys(rest[1..], ItemAddress)) == done + Elems(Keys(rest, ItemAddress))
  {
    assert Keys(rest, ItemAddress) == [rest[0].address] + Keys(rest[1..], ItemAddress);
    var a := rest[0].address;
    NextToRun(deps, before, done, failed, blocked, rest);
    AccountRun(deps, outcome, done, Elems(ran), failed, blocked, rest[0]);
    assert Elems(ran + [a]) == Elems(ran) + {a};
    assert a !in Elems(ran);
    NoDupAppend(ran, a);
    StillToRun(deps, before, done, failed, blocked, WithResult(failed, a, outcome(a)), blocked, rest[1..], a);
  }

  lemma Blamed(deps: Graph, outcome: Outcomes, done: set<string>, attempted: set<string>, failed: Failures, blocked: Failures)
    requires Accounted(deps, outcome, done, attempted, failed, blocked)
    ensures "" !in failed && forall a :: a in blocked ==> blocked[a] in failed
  {
    forall a | a in blocked ensures blocked[a] in failed { assert Blames(deps, failed, a, blocked[a]); }
  }

  /** Which items of a wave are blocked, and which are to run. */
  method SortOut(wave: seq<ExecutionItem>, failed: Failures, start: Failures,
                 ghost deps: Graph, ghost outcome: Outcomes, ghost before: set<string>, ghost ran: seq<string>)
    returns (runnable: seq<ExecutionItem>, blocked: Failures, ghost done: set<string>)
    requires Accounted(deps, outcome, before, Elems(ran), failed, start) && NoDup(ran)
    requires WaitsForAll(deps, before, wave) && NoDup(Keys(wave, ItemAddress)) && Elems(Keys(wave, ItemAddress)) !! before
    ensures Midway(deps, outcome, before, done, ran, failed, blocked, runnable)
    ensures done + Elems(Keys(runnable, ItemAddress)) == before + Elems(Keys(wave, ItemAddress))
  {
    runnable, blocked, done := [], start, before;
    for i := 0 to |wave|
      invariant Midway(deps, outcome, before, done, ran, failed, blocked, runnable)
      invariant done + Elems(Keys(runnable, ItemAddress)) == before + Elems(Keys(wave[..i], ItemAddress))
    {
      var item := wave[i];
      NewAt(wave, i, before, done, runnable);
      Blamed(deps, outcome, done, Elems(ran), failed, blocked);
      var dep := BlockedDependency(item.dependsOn, failed, blocked);
      if dep != "" {
        BlockNext(deps, outcome, before, done, ran, failed, blocked, runnable, item, dep);
        blocked := blocked[item.address := dep];
        done := done + {item.address};
        continue;
      }
      KeepNext(deps, outcome, before, done, ran, failed, blocked, runnable, item);
      KeysAppend(runnable, item);
      runnable := runnable + [item];
    }
    assert wave[..|wave|] == wave;
  }

  lemma NewAt(wave: seq<ExecutionItem>, i: nat, before: set<string>, done: set<string>, rest: seq<ExecutionItem>)
    requires NoDup(Keys(wave, ItemAddress)) && Elems(Keys(wave, ItemAddress)) !! before && i < |wave|
    requires done + Elems(Keys(rest, ItemAddress)) == before + Elems(Keys(wave[..i], ItemAddress))
    ensures wave[i].address !in done && wave[i].address !in Keys(rest, ItemAddress)
    ensures Elems(Keys(wave[..i + 1], ItemAddress)) == Elems(Keys(wave[..i], ItemAddress)) + {wave[i].address}
  {
    NewHere(wave, i, before);
    assert wave[..i + 1] == wave[..i] + [wave[i]];
    KeysAppend(wave[..i], wave[i]);
    assert wave[i].address !in done + Elems(Keys(rest, ItemAddress));
  }

  lemma NewHere(wave: seq<ExecutionItem>, i: nat, before: set<string>)
    requires NoDup(Keys(wave, ItemAddress)) && Elems(Keys(wave, ItemAddress)) !! before && i < |wave|
    ensures wave[i].address !in before && wave[i].address !in Keys(wave[..i], ItemAddress)
  {
    var addresses := Keys(wave, ItemAddress);
    assert addresses[i] in Elems(addresses);
    assert Keys(wave[..i], ItemAddress) == addresses[..i];
    if wave[i].address in addresses[..i] {
      var j :| 0 <= j < i && addresses[j] == addresses[i];
      NoDupAt(addresses, i, j);
    }
  }

  /** What becomes of an item of the wave does not concern the others. */
  lemma StillToRun(deps: Graph, before: set<string>, done: set<string>, failed: Failures, blocked: Failures,
                   moreFailed: Failures, moreBlocked: Failures, items: seq<ExecutionItem>, a: string)
    requires ToRun(deps, before, done, failed, blocked, items) && a !in before && a !in Keys(items, ItemAddress)
    requires forall d :: d != a ==> (Stops(d, failed, blocked) <==> Stops(d, moreFailed, moreBlocked))
    ensures ToRun(deps, before, done + {a}, moreFailed, moreBlocked, items)
  {
    forall i | 0 <= i < |items|
      ensures WaitsFor(deps, before, items[i]) && items[i].address !in done + {a} && Clear(deps, moreFailed, moreBlocked, items[i])
    {
      assert Keys(items, ItemAddress)[i] == items[i].address;
    }
  }

  /** `runExecutionWave`: what came of each item. */
  method RunWave(items: seq<ExecutionItem>, outcome: Outcomes) returns (results: map<string, Option<string>>)
    ensures forall i :: 0 <= i < |items| ==> items[i].address in results && results[items[i].address] == outcome(items[i].address)
  {
    results := map[];
    for i := 0 to |items|
      invariant forall a :: a in results ==> results[a] == outcome(a)
      invariant forall j :: 0 <= j < i ==> items[j].address in results
    {
      results := results[items[i].address := outcome(items[i].address)];
    }
  }

  /** Takes note of the failures of a wave. */
  method Note(items: seq<ExecutionItem>, results: map<string, Option<string>>, start: Failures, firstBefore: Option<string>, ranBefore: seq<string>,
              ghost deps: Graph, ghost outcome: Outcomes, ghost before: set<string>, ghost doneBefore: set<string>, ghost blocked: Failures)
    returns (failed: Failures, firstErr: Option<string>, ran: seq<string>)
    requires forall i :: 0 <= i < |items| ==> items[i].address in results && results[items[i].address] == outcome(items[i].address)
    requires Midway(deps, outcome, before, doneBefore, ranBefore, start, blocked, items)
    requires firstBefore == FirstError(ranBefore, outcome)
    ensures Midway(deps, outcome, before, doneBefore + Elems(Keys(items, ItemAddress)), ran, failed, blocked, [])
    ensures firstErr == FirstError(ran, outcome)
  {
    failed, firstErr, ran := start, firstBefore, ranBefore;
    ghost var done := doneBefore;
    assert items[0..] == items;
    for i := 0 to |items|
      invariant done + Elems(Keys(items[i..], ItemAddress)) == doneBefore + Elems(Keys(items, ItemAddress))
      invariant Midway(deps, outcome, before, done, ran, failed, blocked, items[i..])
      invariant firstErr == FirstError(ran, outcome)
    {
      var item := items[i];
      var err := results[item.address];
      RunNext(deps, outcome, before, done, ran, failed, blocked, items[i..]);
      assert items[i..][1..] == items[i + 1..];
      FirstErrorNext(ran, item.address, outcome);
      ran, done := ran + [item.address], done + {item.address};
      if err.Some? {
        failed := failed[item.address := err.value];
        if firstErr.None? {
          firstErr := err;
        }
      }
    }
    assert items[|items|..] == [];
  }

  lemma NextToRun(deps: Graph, before: set<string>, done: set<string>, failed: Failures, blocked: Failures, items: seq<ExecutionItem>)
    requires ToRun(deps, before, done, failed, blocked, items) && items != []
    ensures ToRun(deps, before, done, failed, blocked, items[1..]) && items[0].address !in Keys(items[1..], ItemAddress)
    ensures WaitsFor(deps, before, items[0]) && items[0].address !in done && Clear(deps, failed, blocked, items[0])
  {
    assert Keys(items, ItemAddress)[1..] == Keys(items[1..], ItemAddress);
    NoDupTail(Keys(items, ItemAddress));
    forall i | 0 <= i < |items| - 1
      ensures WaitsFor(deps, before, items[1..][i]) && items[1..][i].address !in done && Clear(deps, failed, blocked, items[1..][i])
    {
      assert items[1..][i] == items[i + 1];
    }
  }

  /** The error of the first item that failed, in the order in which the items are listed. */
  function FirstError(ran: seq<string>, outcome: Outcomes): (r: Option<string>)
    ensures r.None? <==> forall a :: a in ran ==> outcome(a).None?
  {
    if ran == [] then None else if outcome(ran[0]).Some? then outcome(ran[0]) else FirstError(ran[1..], outcome)
  }

  lemma {:induction false} FirstErrorNext(ran: seq<string>, a: string, outcome: Outcomes)
    ensures FirstError(ran + [a], outcome) == if FirstError(ran, outcome).Some? then FirstError(ran, outcome) else outcome(a)
  {
    if ran != [] {
      assert (ran + [a])[1..] == ran[1..] + [a];
      FirstErrorNext(ran[1..], a, outcome);
    }
  }

  // ---------------------------------------------------------------- all waves

  /** `runExecutionWaves` */
  method RunExecutionWaves(waves: seq<seq<ExecutionItem>>, outcome: Outcomes, ghost deps: Graph)
    returns (firstErr: Option<string>, ran: seq<string>, failed: Failures, blocked: Failures)
    requires Ordered(deps, waves)
    ensures NoDup(ran) && Accounted(deps, outcome, Elems(WaveAddresses(waves)), Elems(ran), failed, blocked)
    ensures firstErr == FirstError(ran, outcome)
  {
    failed, blocked, firstErr, ran := map[], map[], None, [];
    for k := 0 to |waves|
      invariant Accounted(deps, outcome, Elems(WaveAddresses(waves[..k])), Elems(ran), failed, blocked)
      invariant NoDup(ran) && firstErr == FirstError(ran, outcome)
    {
      var runnable;
      ghost var before, done := Elems(WaveAddresses(waves[..k])), {};
      WaveIsNew(deps, waves, k);
      assert waves[..k + 1][..k] == waves[..k] && waves[..k + 1][k] == waves[k];
      runnable, blocked, done := SortOut(waves[k], failed, blocked, deps, outcome, before, ran);
      var results := RunWave(runnable, outcome);
      failed, firstErr, ran := Note(runnable, results, failed, firstErr, ran, deps, outcome, before, done, blocked);
    }
    assert waves[..|waves|] == waves;
  }

  lemma WaveIsNew(deps: Graph, waves: seq<seq<ExecutionItem>>, k: nat)
    requires Ordered(deps, waves) && k < |waves|
    ensures NoDup(Keys(waves[k], ItemAddress)) && Elems(Keys(waves[k], ItemAddress)) !! Elems(WaveAddresses(waves[..k]))
    ensures Elems(WaveAddresses(waves[..k + 1])) == Elems(WaveAddresses(waves[..k])) + Elems(Keys(waves[k], ItemAddress))
  {
    NoDupPrefix(waves, k + 1);
    assert waves[..k + 1][..k] == waves[..k] && waves[..k + 1][k] == waves[k];
    NoDupParts(WaveAddresses(waves[..k]), Keys(waves[k], ItemAddress));
  }

  lemma {:induction false} NoDupPrefix(waves: seq<seq<ExecutionItem>>, k: nat)
    requires NoDup(WaveAddresses(waves)) && k <= |waves|
    ensures NoDup(WaveAddresses(waves[..k]))
    decreases |waves| - k
  {
    if k == |waves| {
      assert waves[..k] == waves;
    } else {
      NoDupPrefix(waves, k + 1);
      assert waves[..k + 1][..k] == waves[..k];
      NoDupParts(WaveAddresses(waves[..k]), Keys(waves[k], ItemAddress));
    }
  }

  // ---------------------------------------------------------------- containment

  /** Everything on the way to a failed item is blocked. */
  lemma {:induction false} ChainBlocks(deps: Graph, outcome: Outcomes, attempted: set<string>, failed: Failures, blocked: Failures,
                                       p: seq<string>, f: string)
    requires Accounted(deps, outcome, deps.Keys, attempted, failed, blocked)
    requires f in failed && |p| > 1 && Chain(deps, p, p[0], f)
    ensures p[0] in blocked
    decreases |p|
  {
    assert p[0 + 1] in deps[p[0]];
    if |p| > 2 {
      SubPath(deps, p, 1, |p|);
      ChainBlocks(deps, outcome, attempted, failed, blocked, p[1..], f);
    }
    assert Stops(p[1], failed, blocked);
    assert Blocking(deps, failed, blocked, p[0]);
  }

  /** An item runs exactly when it waits for no failed item, directly or not; any other item is blocked
      by one that it waits for. */
  lemma FailuresAreContained(deps: Graph, outcome: Outcomes, attempted: set<string>, failed: Failures, blocked: Failures, a: string)
    requires Accounted(deps, outcome, deps.Keys, attempted, failed, blocked) && a in deps
    ensures a in attempted <==> !exists f :: Blames(deps, failed, a, f)
    ensures a !in attempted <==> a in blocked
    ensures a in blocked ==> Blames(deps, failed, a, blocked[a])
  {
    if a in blocked { assert Blames(deps, failed, a, blocked[a]); }
    forall f | Blames(deps, failed, a, f) ensures a in blocked {
      var p :| Chain(deps, p, a, f);
      ChainBlocks(deps, outcome, attempted, failed, blocked, p, f);
    }
  }

  /** There is no error exactly when every item has run without one. */
  lemma NoErrorMeansAllRan(deps: Graph, outcome: Outcomes, ran: seq<string>, failed: Failures, blocked: Failures)
    requires Accounted(deps, outcome, deps.Keys, Elems(ran), failed, blocked)
    ensures FirstError(ran, outcome).None? <==> forall a :: a in deps ==> a in ran && outcome(a).None?
  {
    if FirstError(ran, outcome).None? {
      forall a | a in deps ensures a in ran && outcome(a).None? {
        assert a in blocked ==> Blames(deps, failed, a, blocked[a]);
        assert a in ran <==> a in Elems(ran);
      }
    } else {
      var a :| a in ran && outcome(a).Some?;
      assert a in Elems(ran) && a in deps;
    }
  }
}
