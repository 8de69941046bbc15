/** The recorded state of one host, and what executing steps and operations does to it. */
module RecordedState {
  import opened Wrappers
  import opened Lists
  import opened Plans

  type HostState = map<string, Resource>

  /** What an item does to the state of its host: it records a resource, drops one together with every
      reference to it, marks the change action of one as completed at its digest, or leaves the state alone. */
  datatype Effect = Record(address: string, resource: Resource) | Drop(address: string) | Complete(address: string) | Leave

  function Without(deps: seq<string>, removed: string): (r: seq<string>)
    ensures forall d :: d in r <==> d in deps && d != removed
  {
    if deps == [] then [] else
      var rest := Without(deps[1..], removed);
      assert deps == [deps[0]] + deps[1..];
      if deps[0] == removed then rest else [deps[0]] + rest
  }

  lemma {:induction false} WithoutAbsent(deps: seq<string>, removed: string)
    requires removed !in deps
    ensures Without(deps, removed) == deps
  {
    if deps != [] { WithoutAbsent(deps[1..], removed); }
  }

  lemma {:induction false} WithoutLast(deps: seq<string>, last: string, removed: string)
    ensures Without(deps + [last], removed) == Without(deps, removed) + (if last == removed then [] else [last])
  {
    if deps != [] {
      assert (deps + [last])[1..] == deps[1..] + [last];
      WithoutLast(deps[1..], last, removed);
    }
  }

  /** The state with every dependency on `removed` taken out. */
  function Unreferenced(st: HostState, removed: string): HostState {
    map a | a in st :: st[a].(dependsOn := Without(st[a].dependsOn, removed))
  }

  /** `removeStateDependencyReferences` */
  method RemoveStateDependencyReferences(start: HostState, removed: string) returns (st: HostState)
    ensures st == Unreferenced(start, removed)
  {
    st := start;
    var left := start.Keys;
    while left != {}
      invariant left <= start.Keys == st.Keys
      invariant forall a :: a in st ==> st[a] == if a in left then start[a] else start[a].(dependsOn := Without(start[a].dependsOn, removed))
      decreases left
    {
      var address :| address in left;
      left := left - {address};
      var resource := st[address];
      if removed !in resource.dependsOn {
        WithoutAbsent(resource.dependsOn, removed);
        continue;
      }
      var dependsOn: seq<string> := [];
      for i := 0 to |resource.dependsOn|
        invariant dependsOn == Without(resource.dependsOn[..i], removed)
      {
        var dependency := resource.dependsOn[i];
        WithoutLast(resource.dependsOn[..i], dependency, removed);
        assert resource.dependsOn[..i + 1] == resource.dependsOn[..i] + [dependency];
        if dependency != removed {
          dependsOn := dependsOn + [dependency];
        }
      }
      assert resource.dependsOn[..|resource.dependsOn|] == resource.dependsOn;
      st := st[address := resource.(dependsOn := dependsOn)];
    }
  }

  /** The edited state, or none if there is nothing to write: because nothing changes, or because the
      resource whose completion is to be recorded is not there. */
  function Edit(e: Effect, st: HostState): Option<HostState> {
    match e
    case Record(a, r) => Some(st[a := r])
    case Drop(a) => Some(Unreferenced(st - {a}, a))
    case Complete(a) => if a in st then Some(st[a := st[a].(changed := st[a].digest)]) else None
    case Leave => None
  }

  function After(e: Effect, st: HostState): HostState { if Edit(e, st).Some? then Edit(e, st).value else st }

  /** `resourceStateForStep`, with the change-action digest among the observed values `changed`. */
  function ResourceOf(step: Step, changed: string): Resource {
    Resource(step.host, step.node.kind, if step.ownership == "" then "managed" else step.ownership,
             step.node.digest, step.node.changeAction, changed, step.node.dependsOn)
  }

  /** The state after all effects, the first one first. */
  function Outcome(start: HostState, effects: seq<Effect>): HostState {
    if effects == [] then start else After(effects[|effects| - 1], Outcome(start, effects[..|effects| - 1]))
  }

  lemma OutcomeNext(start: HostState, effects: seq<Effect>, e: Effect)
    ensures Outcome(start, effects + [e]) == After(e, Outcome(start, effects))
  {
    assert (effects + [e])[..|effects|] == effects;
  }

  // ---------------------------------------------------------------- references

  predicate References(st: HostState, a: string) { exists x :: x in st && a in st[x].dependsOn }

  /** Once a resource is dropped, nothing refers to it until something that depends on it is recorded. */
  lemma {:induction false} DroppedIsUnreferenced(start: HostState, effects: seq<Effect>, i: nat, a: string)
    requires i < |effects| && effects[i] == Drop(a)
    requires forall j :: i < j < |effects| && effects[j].Record? ==> a !in effects[j].resource.dependsOn
    ensures !References(Outcome(start, effects), a)
  {
    var last, front := effects[|effects| - 1], effects[..|effects| - 1];
    if i < |effects| - 1 {
      assert effects[|effects| - 1].Record? ==> a !in last.resource.dependsOn;
      DroppedIsUnreferenced(start, front, i, a);
    }
  }

  // ---------------------------------------------------------------- the order of commits

  /** Two effects that may be committed in either order: they are about different addresses, and
      neither records a resource that depends on what the other drops; or they are the same. */
  predicate Compatible(e: Effect, f: Effect) {
    || e == f || e.Leave? || f.Leave?
    || (e.address != f.address && Spares(e, f) && Spares(f, e))
  }

  predicate Spares(e: Effect, f: Effect) { e.Drop? && f.Record? ==> e.address !in f.resource.dependsOn }

  lemma {:induction false} WithoutBoth(deps: seq<string>, a: string, b: string)
    ensures Without(Without(deps, a), b) == Without(Without(deps, b), a)
  {
    if deps != [] { WithoutBoth(deps[1..], a, b); }
  }

  lemma DropAndRecord(a: string, b: string, r: Resource, st: HostState)
    requires a != b && a !in r.dependsOn
    ensures Unreferenced(st[b := r] - {a}, a) == Unreferenced(st - {a}, a)[b := r]
  {
    WithoutAbsent(r.dependsOn, a);
  }

  lemma DropBoth(a: string, b: string, st: HostState)
    ensures Unreferenced(Unreferenced(st - {a}, a) - {b}, b) == Unreferenced(Unreferenced(st - {b}, b) - {a}, a)
  {
    var ab, ba := Unreferenced(Unreferenced(st - {a}, a) - {b}, b), Unreferenced(Unreferenced(st - {b}, b) - {a}, a);
    assert ab.Keys == st.Keys - {a} - {b} == ba.Keys;
    forall x | x in ab ensures ab[x] == ba[x] { WithoutBoth(st[x].dependsOn, a, b); }
  }

  lemma DropAndComplete(a: string, b: string, st: HostState)
    requires a != b
    ensures After(Drop(a), After(Complete(b), st)) == After(Complete(b), After(Drop(a), st))
  {
    if b in st {
      var r := st[b].(changed := st[b].digest);
      assert Unreferenced(st[b := r] - {a}, a) == Unreferenced(st - {a}, a)[b := r.(dependsOn := Without(r.dependsOn, a))];
    }
  }

  lemma CompatibleCommute(e: Effect, f: Effect, st: HostState)
    requires Compatible(e, f)
    ensures After(e, After(f, st)) == After(f, After(e, st))
  {
    match (e, f)
    case (Drop(a), Record(b, r)) => DropAndRecord(a, b, r, st);
    case (Record(b, r), Drop(a)) => DropAndRecord(a, b, r, st);
    case (Drop(a), Drop(b)) => DropBoth(a, b, st);
    case (Drop(a), Complete(b)) => DropAndComplete(a, b, st);
    case (Complete(b), Drop(a)) => DropAndComplete(a, b, st);
    case (Record(a, r), Record(b, q)) => assert e != f ==> st[a := r][b := q] == st[b := q][a := r];
    case (Record(a, r), Complete(b)) => RecordAndComplete(a, r, b, st);
    case (Complete(b), Record(a, r)) => RecordAndComplete(a, r, b, st);
    case (Complete(a), Complete(b)) => CompleteBoth(a, b, st);
    case _ =>
  }

  lemma RecordAndComplete(a: string, r: Resource, b: string, st: HostState)
    requires a != b
    ensures After(Record(a, r), After(Complete(b), st)) == After(Complete(b), After(Record(a, r), st))
  {
    if b in st {
      var q := st[b].(changed := st[b].digest);
      assert st[a := r][b := q] == st[b := q][a := r];
    }
  }

  lemma CompleteBoth(a: string, b: string, st: HostState)
    ensures After(Complete(a), After(Complete(b), st)) == After(Complete(b), After(Complete(a), st))
  {
    if a in st && b in st && a != b {
      var p, q := st[a].(changed := st[a].digest), st[b].(changed := st[b].digest);
      assert st[a := p][b := q] == st[b := q][a := p];
    }
  }

  predicate AllCompatible(effects: seq<Effect>) {
    forall e, f {:trigger Compatible(e, f)} :: e in effects && f in effects ==> Compatible(e, f)
  }

  /** An effect that is compatible with all that follow may as well come last. */
  lemma {:induction false} MoveToEnd(start: HostState, before: seq<Effect>, e: Effect, after: seq<Effect>)
    requires forall f :: f in after ==> Compatible(e, f)
    ensures Outcome(start, before + [e] + after) == Outcome(start, before + after + [e])
  {
    if after == [] {
      assert before + [e] + after == before + after + [e];
    } else {
      var f, rest := after[|after| - 1], after[..|after| - 1];
      MoveToEnd(start, before, e, rest);
      assert before + [e] + after == (before + [e] + rest) + [f] && before + after + [e] == ((before + rest) + [f]) + [e];
      OutcomeNext(start, before + [e] + rest, f);
      OutcomeNext(start, before + rest, e);
      OutcomeNext(start, before + rest, f);
      OutcomeNext(start, before + rest + [f], e);
      CompatibleCommute(e, f, Outcome(start, before + rest));
    }
  }

  /** Compatible effects have the same outcome in whatever order they are committed. */
  lemma {:induction false} OrderDoesNotMatter(start: HostState, effects: seq<Effect>, others: seq<Effect>)
    requires multiset(effects) == multiset(others) && AllCompatible(effects)
    ensures Outcome(start, effects) == Outcome(start, others)
  {
    SameMembers(effects, others);
    if effects != [] {
      var e, front := effects[|effects| - 1], effects[..|effects| - 1];
      var before, after := Around(effects, others, e);
      MoveToEnd(start, before, e, after);
      assert effects == front + [e];
      WithoutOne(front, e, before, after);
      assert AllCompatible(front);
      OrderDoesNotMatter(start, front, before + after);
      OutcomeNext(start, before + after, e);
    }
  }

  lemma Around(effects: seq<Effect>, others: seq<Effect>, e: Effect) returns (before: seq<Effect>, after: seq<Effect>)
    requires multiset(effects) == multiset(others) && AllCompatible(effects) && e in effects
    ensures others == before + [e] + after && forall f :: f in after ==> Compatible(e, f)
  {
    assert e in multiset(others);
    var i :| 0 <= i < |others| && others[i] == e;
    before, after := others[..i], others[i + 1..];
    forall f | f in after ensures Compatible(e, f) { assert f in multiset(others); assert f in effects; }
  }

  lemma WithoutOne(front: seq<Effect>, e: Effect, before: seq<Effect>, after: seq<Effect>)
    requires multiset(front + [e]) == multiset(before + [e] + after)
    ensures multiset(front) == multiset(before + after)
  {
    assert multiset(before + [e] + after) == multiset(before + after) + multiset{e};
    assert multiset(front + [e]) == multiset(front) + multiset{e};
    assert multiset(front) == multiset(front) + multiset{e} - multiset{e};
  }
}
