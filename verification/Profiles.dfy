/** Resolving a profile: its imports in their order, each resolved in the same way, then its own body.
    What is resolved is remembered, and an import that is still being resolved is a cycle. */
module Profiles {
  import opened Wrappers
  import opened Lists
  import opened Digraph
  import opened MergeValues

  datatype Profile = Profile(imports: seq<string>, body: Value, asserts: seq<string>)

  datatype Resolved = Resolved(body: Value, asserts: seq<string>)

  /** A merge fails at one of the imports, or at the body that comes after them; of a profile, or of a host. */
  datatype ProfileError =
    | UnknownProfile(name: string)
    | ImportCycle(path: seq<string>)
    | CannotMerge(name: string, imported: Option<string>, error: MergeError)
    | HostCannotMerge(imported: Option<string>, error: MergeError)

  type Config = map<string, Profile>

  function ImportGraph(cfg: Config): Graph { map n | n in cfg :: Elems(cfg[n].imports) }

  /** Bodies that can be merged in any grouping: unmodified maps of agreeing kinds that list no label twice. */
  ghost predicate Mergeable(v: Value) { Unmodified(v) && v.body.Map? && NoDup(v.body.order) }

  ghost predicate Uniform(cfg: Config) {
    && (forall n :: n in cfg ==> Mergeable(cfg[n].body))
    && forall n, m {:trigger Agree(cfg[n].body, cfg[m].body)} :: n in cfg && m in cfg ==> Agree(cfg[n].body, cfg[m].body)
  }

  /** The bodies of the named profiles, merged one after the other into `start`. */
  ghost function Fold(cfg: Config, start: Value, names: seq<string>, key: Key): Value {
    if names == [] then start else
      var last := names[|names| - 1];
      Join(Fold(cfg, start, names[..|names| - 1], key), if last in cfg then cfg[last].body else Empty, key)
  }

  ghost function FoldAsserts(cfg: Config, names: seq<string>): seq<string> {
    if names == [] then [] else
      var last := names[|names| - 1];
      FoldAsserts(cfg, names[..|names| - 1]) + if last in cfg then cfg[last].asserts else []
  }

  lemma {:induction false} FoldJoined(cfg: Config, start: Value, a: seq<string>, b: seq<string>, key: Key)
    ensures Fold(cfg, start, a + b, key) == Fold(cfg, Fold(cfg, start, a, key), b, key)
  {
    if b == [] { assert a + b == a; } else {
      assert (a + b)[..|a + b| - 1] == a + b[..|b| - 1];
      FoldJoined(cfg, start, a, b[..|b| - 1], key);
    }
  }

  lemma {:induction false} FoldAssertsJoined(cfg: Config, a: seq<string>, b: seq<string>)
    ensures FoldAsserts(cfg, a + b) == FoldAsserts(cfg, a) + FoldAsserts(cfg, b)
  {
    if b == [] { assert a + b == a; } else {
      assert (a + b)[..|a + b| - 1] == a + b[..|b| - 1];
      FoldAssertsJoined(cfg, a, b[..|b| - 1]);
    }
  }

  /** `v` may be merged with any of the bodies. */
  ghost predicate Fitting(cfg: Config, v: Value) {
    Mergeable(v) && forall n {:trigger Agree(v, cfg[n].body)} :: n in cfg ==> Agree(v, cfg[n].body)
  }

  ghost predicate Named(cfg: Config, names: seq<string>) { forall n :: n in names ==> n in cfg }

  lemma JoinFits(cfg: Config, v: Value, w: Value, key: Key)
    requires Fitting(cfg, v) && Fitting(cfg, w) && Agree(v, w)
    ensures Fitting(cfg, Join(v, w, key))
  {
    JoinIsUnmodified(v, w, key);
    forall n | n in cfg ensures Agree(Join(v, w, key), cfg[n].body) {
      AgreeSymmetric(v, cfg[n].body);
      AgreeSymmetric(w, cfg[n].body);
      AgreeWithJoin(cfg[n].body, v, w, key);
      AgreeSymmetric(cfg[n].body, Join(v, w, key));
    }
  }

  lemma {:induction false} FoldFits(cfg: Config, start: Value, names: seq<string>, key: Key)
    requires Uniform(cfg) && Fitting(cfg, start) && Named(cfg, names)
    ensures Fitting(cfg, Fold(cfg, start, names, key))
  {
    if names != [] {
      var last := names[|names| - 1];
      FoldFits(cfg, start, names[..|names| - 1], key);
      assert Fitting(cfg, cfg[last].body);
      JoinFits(cfg, Fold(cfg, start, names[..|names| - 1], key), cfg[last].body, key);
    }
  }

  /** What agrees with all bodies agrees with what they come to. */
  lemma {:induction false} FoldAgrees(cfg: Config, v: Value, start: Value, names: seq<string>, key: Key)
    requires Uniform(cfg) && Fitting(cfg, v) && Fitting(cfg, start) && Agree(v, start) && Named(cfg, names)
    ensures Agree(v, Fold(cfg, start, names, key))
  {
    if names != [] {
      var last, before := names[|names| - 1], Fold(cfg, start, names[..|names| - 1], key);
      FoldAgrees(cfg, v, start, names[..|names| - 1], key);
      FoldFits(cfg, start, names[..|names| - 1], key);
      assert Agree(before, cfg[last].body);
      AgreeWithJoin(v, before, cfg[last].body, key);
    }
  }

  lemma EmptyFits(cfg: Config, v: Value)
    requires Uniform(cfg) && Mergeable(v)
    ensures Fitting(cfg, Empty) && Agree(v, Empty)
  {
  }

  /** Merging what some bodies come to is merging the bodies one by one. */
  lemma {:induction false} FoldOntoIsFold(cfg: Config, v: Value, names: seq<string>, key: Key)
    requires Uniform(cfg) && Fitting(cfg, v) && Named(cfg, names)
    ensures Join(v, Fold(cfg, Empty, names, key), key) == Fold(cfg, v, names, key)
  {
    EmptyFits(cfg, v);
    if names == [] {
      UnmodifiedMergeIsJoin(v, Empty, key);
      EmptyIsRightIdentityIff(v, key);
    } else {
      var last, before := names[|names| - 1], Fold(cfg, Empty, names[..|names| - 1], key);
      FoldOntoIsFold(cfg, v, names[..|names| - 1], key);
      FoldFits(cfg, Empty, names[..|names| - 1], key);
      FoldAgrees(cfg, v, Empty, names[..|names| - 1], key);
      AgreeingAssociate(v, before, cfg[last].body, key);
      JoinAssociativeIff(v, before, cfg[last].body, key);
    }
  }

  // ---------------------------------------------------------------- flattened imports

  type Flats = map<string, seq<string>>

  /** The flattened imports of several profiles, one after the other. */
  function Flatten(flats: Flats, names: seq<string>): seq<string> {
    if names == [] then [] else
      var last := names[|names| - 1];
      Flatten(flats, names[..|names| - 1]) + if last in flats then flats[last] else []
  }

  /** Each profile is listed after all its imports, each flattened as often as it is imported. */
  ghost predicate Flattened(cfg: Config, flats: Flats) {
    forall n {:trigger FlatOk(cfg, flats, n)} :: n in flats ==> FlatOk(cfg, flats, n)
  }

  ghost predicate FlatOk(cfg: Config, flats: Flats, n: string)
    requires n in flats
  {
    && n in cfg && (forall m :: m in cfg[n].imports ==> m in flats)
    && flats[n] == Flatten(flats, cfg[n].imports) + [n]
  }

  lemma {:induction false} FlattenLength(flats: Flats, names: seq<string>, n: string)
    requires n in names && n in flats
    ensures |flats[n]| <= |Flatten(flats, names)|
  {
    if names[|names| - 1] != n {
      assert n in names[..|names| - 1];
      FlattenLength(flats, names[..|names| - 1], n);
    }
  }

  lemma {:induction false} FlattenSame(flats: Flats, more: Flats, names: seq<string>)
    requires forall n :: n in names ==> n in flats && n in more && more[n] == flats[n]
    ensures Flatten(flats, names) == Flatten(more, names)
  {
    if names != [] { FlattenSame(flats, more, names[..|names| - 1]); }
  }

  lemma {:induction false} ConcatNamed(cfg: Config, flats: Flats, names: seq<string>)
    requires forall n :: n in flats ==> Named(cfg, flats[n])
    ensures Named(cfg, Flatten(flats, names))
  {
    if names != [] { ConcatNamed(cfg, flats, names[..|names| - 1]); }
  }

  /** Along a path from a flattened profile all is flattened, ever shorter: no cycle can be reached. */
  lemma {:induction false} FlatsShrink(cfg: Config, flats: Flats, p: seq<string>, i: nat)
    requires Flattened(cfg, flats) && IsPath(ImportGraph(cfg), p) && p[0] in flats && i < |p|
    ensures p[i] in flats && |flats[p[i]]| + i <= |flats[p[0]]|
  {
    if i > 0 {
      FlatsShrink(cfg, flats, p, i - 1);
      var n := p[i - 1];
      assert p[i - 1 + 1] in ImportGraph(cfg)[n];
      assert FlatOk(cfg, flats, n);
      FlattenLength(flats, cfg[n].imports, p[i]);
    }
  }

  /** A path that comes back to a profile it has passed */
  ghost predicate Revisits(g: Graph, p: seq<string>) { IsPath(g, p) && |p| > 1 && p[|p| - 1] in p[..|p| - 1] }

  /** A profile can be flattened in at most one way. */
  lemma {:induction false} FlatUnique(cfg: Config, flats: Flats, others: Flats, n: string)
    requires Flattened(cfg, flats) && Flattened(cfg, others) && n in flats && n in others
    ensures flats[n] == others[n]
    decreases |flats[n]|
  {
    assert FlatOk(cfg, flats, n) && FlatOk(cfg, others, n);
    forall m | m in cfg[n].imports ensures m in others && others[m] == flats[m] {
      FlattenLength(flats, cfg[n].imports, m);
      FlatUnique(cfg, flats, others, m);
    }
    FlattenSame(flats, others, cfg[n].imports);
  }

  lemma FlattenedHasNoCycle(cfg: Config, flats: Flats, n: string, p: seq<string>)
    requires Flattened(cfg, flats) && n in flats && IsPath(ImportGraph(cfg), p) && p[0] == n
    ensures !Revisits(ImportGraph(cfg), p) && p[|p| - 1] in cfg
  {
    FlatsShrink(cfg, flats, p, |p| - 1);
    assert FlatOk(cfg, flats, p[|p| - 1]);
    if Revisits(ImportGraph(cfg), p) {
      var i :| 0 <= i < |p| - 1 && p[i] == p[|p| - 1];
      SubPath(ImportGraph(cfg), p, i, |p|);
      FlatsShrink(cfg, flats, p, i);
      FlatsShrink(cfg, flats, p[i..], |p| - 1 - i);
    }
  }

  // ---------------------------------------------------------------- the compiler

  /** A path whose end need not be a profile */
  ghost predicate Trail(g: Graph, p: seq<string>) { |p| > 0 && forall i :: 0 <= i < |p| - 1 ==> p[i] in g && p[i + 1] in g[p[i]] }

  /** A trail that ends at an unknown profile, or at one that it has passed */
  ghost predicate DeadEnd(cfg: Config, p: seq<string>) {
    Trail(ImportGraph(cfg), p) && (p[|p| - 1] !in cfg || p[|p| - 1] in p[..|p| - 1])
  }

  /** What is remembered of a profile is what its flattened imports come to. */
  ghost predicate Right(cfg: Config, flat: seq<string>, r: Resolved, key: Key) {
    Named(cfg, flat) && r.asserts == FoldAsserts(cfg, flat) && (Uniform(cfg) ==> r.body == Fold(cfg, Empty, flat, key))
  }

  ghost predicate Remembered(cfg: Config, flats: Flats, cache: map<string, Resolved>, key: Key) {
    && Flattened(cfg, flats) && cache.Keys == flats.Keys
    && forall n {:trigger Right(cfg, flats[n], cache[n], key)} :: n in flats ==> Right(cfg, flats[n], cache[n], key)
  }

  /** Nothing that was flattened is forgotten or changed. */
  ghost predicate Grown(before: Flats, flats: Flats) { forall n :: n in before ==> n in flats && flats[n] == before[n] }

  /** Some imports have been merged into `raw`. */
  ghost predicate Partly(cfg: Config, flats: Flats, names: seq<string>, raw: Value, asserts: seq<string>, key: Key) {
    && (forall m :: m in names ==> m in flats) && Named(cfg, Flatten(flats, names))
    && asserts == FoldAsserts(cfg, Flatten(flats, names))
    && (Uniform(cfg) ==> raw == Fold(cfg, Empty, Flatten(flats, names), key))
  }

  lemma PartlyGrown(cfg: Config, flats: Flats, more: Flats, names: seq<string>, raw: Value, asserts: seq<string>, key: Key)
    requires Partly(cfg, flats, names, raw, asserts, key) && Grown(flats, more)
    ensures Partly(cfg, more, names, raw, asserts, key)
  {
    FlattenSame(flats, more, names);
  }

  /** One more import. */
  lemma ImportNext(cfg: Config, flats: Flats, names: seq<string>, raw: Value, asserts: seq<string>, m: string, r: Resolved, key: Key)
    requires Partly(cfg, flats, names, raw, asserts, key) && m in flats && Right(cfg, flats[m], r, key)
    ensures Uniform(cfg) ==> Merge(raw, r.body, key).Ok?
    ensures Merge(raw, r.body, key).Ok? ==>
      Partly(cfg, flats, names + [m], Merge(raw, r.body, key).value, asserts + r.asserts, key)
  {
    var before, flat := Flatten(flats, names), flats[m];
    assert (names + [m])[..|names|] == names && Flatten(flats, names + [m]) == before + flat;
    FoldAssertsJoined(cfg, before, flat);
    if Uniform(cfg) { MergeIsFold(cfg, raw, before, flat, r.body, key); }
  }

  lemma RememberedAt(cfg: Config, flats: Flats, cache: map<string, Resolved>, m: string, key: Key)
    requires Remembered(cfg, flats, cache, key) && m in flats
    ensures m in cache && Right(cfg, flats[m], cache[m], key)
  {
  }

  lemma GrownNext(cfg: Config, before: Flats, flats: Flats, names: seq<string>, more: seq<string>, raw: Value, asserts: seq<string>,
                  m: string, r: Resolved, key: Key)
    requires Partly(cfg, before, names, raw, asserts, key) && Grown(before, flats) && m in flats && Right(cfg, flats[m], r, key)
    requires more == names + [m]
    ensures Uniform(cfg) ==> Merge(raw, r.body, key).Ok?
    ensures Merge(raw, r.body, key).Ok? ==> Partly(cfg, flats, more, Merge(raw, r.body, key).value, asserts + r.asserts, key)
  {
    PartlyGrown(cfg, before, flats, names, raw, asserts, key);
    ImportNext(cfg, flats, names, raw, asserts, m, r, key);
  }

  lemma GrownFurther(first: Flats, second: Flats, third: Flats)
    requires Grown(first, second) && Grown(second, third)
    ensures Grown(first, third)
  {
  }

  lemma MergeIsFold(cfg: Config, raw: Value, before: seq<string>, flat: seq<string>, body: Value, key: Key)
    requires Uniform(cfg) && Named(cfg, before) && Named(cfg, flat)
    requires raw == Fold(cfg, Empty, before, key) && body == Fold(cfg, Empty, flat, key)
    ensures Merge(raw, body, key) == Ok(Fold(cfg, Empty, before + flat, key))
  {
    EmptyFits(cfg, Empty);
    FoldFits(cfg, Empty, flat, key);
    FoldFits(cfg, Empty, before, key);
    UnmodifiedMergeIsJoin(raw, body, key);
    FoldOntoIsFold(cfg, raw, flat, key);
    FoldJoined(cfg, Empty, before, flat, key);
  }

  /** At last the profile's own body. */
  lemma OwnBody(cfg: Config, flats: Flats, name: string, raw: Value, asserts: seq<string>, key: Key)
    requires name in cfg && Partly(cfg, flats, cfg[name].imports, raw, asserts, key)
    ensures Uniform(cfg) ==> Merge(raw, cfg[name].body, key).Ok?
    ensures Merge(raw, cfg[name].body, key).Ok? ==>
      Right(cfg, Flatten(flats, cfg[name].imports) + [name], Resolved(Merge(raw, cfg[name].body, key).value, asserts + cfg[name].asserts), key)
  {
    var before := Flatten(flats, cfg[name].imports);
    assert (before + [name])[..|before|] == before;
    if Uniform(cfg) { UnmodifiedMergeIsJoin(raw, cfg[name].body, key); }
  }

  lemma Remember(cfg: Config, flats: Flats, cache: map<string, Resolved>, name: string, r: Resolved, key: Key)
    requires Remembered(cfg, flats, cache, key) && name in cfg && name !in flats && forall m :: m in cfg[name].imports ==> m in flats
    requires Right(cfg, Flatten(flats, cfg[name].imports) + [name], r, key)
    ensures Remembered(cfg, flats[name := Flatten(flats, cfg[name].imports) + [name]], cache[name := r], key)
  {
    var more := flats[name := Flatten(flats, cfg[name].imports) + [name]];
    forall n | n in more ensures FlatOk(cfg, more, n) {
      if n != name { assert FlatOk(cfg, flats, n); }
      FlattenSame(flats, more, cfg[n].imports);
    }
    forall n | n in more ensures Right(cfg, more[n], cache[name := r][n], key) {
      if n != name { assert Right(cfg, flats[n], cache[n], key); }
    }
  }

  // ---------------------------------------------------------------- bodies of any kind

  type Cache = map<string, Resolved>

  /** The resolved bodies of some imports, merged one after the other. */
  ghost function MergedImports(cache: Cache, names: seq<string>, key: Key): Result<Value, MergeError> {
    if names == [] then Ok(Empty) else
      var before, last := MergedImports(cache, names[..|names| - 1], key), names[|names| - 1];
      if before.Err? || last !in cache then before else Merge(before.value, cache[last].body, key)
  }

  ghost predicate ImportsCome(cache: Cache, names: seq<string>, raw: Value, key: Key) {
    (forall m :: m in names ==> m in cache) && MergedImports(cache, names, key) == Ok(raw)
  }

  /** Whatever the bodies, a profile is its resolved imports and then its own body. */
  ghost predicate OneStep(cfg: Config, cache: Cache, n: string, key: Key)
    requires n in cache
  {
    && n in cfg && (forall m :: m in cfg[n].imports ==> m in cache)
    && exists raw :: ImportsCome(cache, cfg[n].imports, raw, key) && Merge(raw, cfg[n].body, key) == Ok(cache[n].body)
  }

  ghost predicate AllOneStep(cfg: Config, cache: Cache, key: Key) {
    forall n {:trigger OneStep(cfg, cache, n, key)} :: n in cache ==> OneStep(cfg, cache, n, key)
  }

  ghost predicate CacheGrown(before: Cache, cache: Cache) { forall n :: n in before ==> n in cache && cache[n] == before[n] }

  lemma {:induction false} SameImports(before: Cache, cache: Cache, names: seq<string>, key: Key)
    requires CacheGrown(before, cache) && forall m :: m in names ==> m in before
    ensures MergedImports(cache, names, key) == MergedImports(before, names, key)
  {
    if names != [] { SameImports(before, cache, names[..|names| - 1], key); }
  }

  lemma ImportsComeNext(before: Cache, cache: Cache, names: seq<string>, more: seq<string>, raw: Value, m: string, key: Key)
    requires ImportsCome(before, names, raw, key) && CacheGrown(before, cache) && m in cache && more == names + [m]
    ensures Merge(raw, cache[m].body, key).Ok? ==> ImportsCome(cache, more, Merge(raw, cache[m].body, key).value, key)
    ensures ImportsCome(cache, names, raw, key)
  {
    SameImports(before, cache, names, key);
    assert more[..|more| - 1] == names;
  }

  lemma OneStepMore(cfg: Config, cache: Cache, name: string, r: Resolved, raw: Value, key: Key)
    requires AllOneStep(cfg, cache, key) && name in cfg && name !in cache
    requires ImportsCome(cache, cfg[name].imports, raw, key) && Merge(raw, cfg[name].body, key) == Ok(r.body)
    ensures AllOneStep(cfg, cache[name := r], key)
  {
    var more := cache[name := r];
    forall n | n in more ensures OneStep(cfg, more, n, key) {
      if n == name {
        SameImports(cache, more, cfg[name].imports, key);
        assert ImportsCome(more, cfg[name].imports, raw, key);
      } else {
        assert OneStep(cfg, cache, n, key);
        var v :| ImportsCome(cache, cfg[n].imports, v, key) && Merge(v, cfg[n].body, key) == Ok(cache[n].body);
        SameImports(cache, more, cfg[n].imports, key);
        assert ImportsCome(more, cfg[n].imports, v, key);
      }
    }
  }

  // ---------------------------------------------------------------- errors

  /** What is remembered is right, for bodies that agree and for any others. */
  ghost predicate Standing(cfg: Config, flats: Flats, cache: Cache, key: Key) {
    Remembered(cfg, flats, cache, key) && AllOneStep(cfg, cache, key)
  }

  /** The resolved imports before the `i`th come to something onto which it cannot be merged. */
  ghost predicate ImportBreaks(cache: Cache, imports: seq<string>, i: nat, e: MergeError, key: Key)
    requires i < |imports|
  {
    && imports[i] in cache
    && exists raw :: ImportsCome(cache, imports[..i], raw, key) && Merge(raw, cache[imports[i]].body, key) == Err(e)
  }

  /** The merge of some imports, or of the body after them, is where it fails. */
  ghost predicate MergeBreaks(cache: Cache, imports: seq<string>, body: Value, imported: Option<string>, e: MergeError, key: Key) {
    match imported
    case Some(m) => exists i :: 0 <= i < |imports| && imports[i] == m && ImportBreaks(cache, imports, i, e, key)
    case None => exists raw :: ImportsCome(cache, imports, raw, key) && Merge(raw, body, key) == Err(e)
  }

  ghost predicate CauseAt(cfg: Config, start: string, n: string, imported: Option<string>, e: MergeError, key: Key,
                          flats: Flats, cache: Cache, p: seq<string>) {
    && Standing(cfg, flats, cache, key)
    && Trail(ImportGraph(cfg), p) && p[0] == start && p[|p| - 1] == n
    && n in cfg && MergeBreaks(cache, cfg[n].imports, cfg[n].body, imported, e, key)
  }

  /** What an error says is so: the imports lead to an unknown profile, or round a cycle, or to a profile
      whose resolved imports and body fail to merge in just this way. */
  ghost predicate TrueError(cfg: Config, start: string, e: ProfileError, key: Key) {
    match e
    case UnknownProfile(n) => exists p :: DeadEnd(cfg, p) && p[0] == start && p[|p| - 1] == n && n !in cfg
    case ImportCycle(p) => DeadEnd(cfg, p) && p[0] == start && p[|p| - 1] in p[..|p| - 1]
    case CannotMerge(n, imported, error) =>
      && !Uniform(cfg)
      && exists flats, cache, p :: CauseAt(cfg, start, n, imported, error, key, flats, cache, p)
    case HostCannotMerge(_, _) => false
  }

  /** And of a host: it is that of one of its imports, or its own merge that fails. */
  ghost predicate TrueHostError(cfg: Config, imports: seq<string>, body: Value, e: ProfileError, key: Key) {
    match e
    case HostCannotMerge(imported, error) =>
      exists flats, cache :: Standing(cfg, flats, cache, key) && MergeBreaks(cache, imports, body, imported, error, key)
    case _ => exists i :: 0 <= i < |imports| && TrueError(cfg, imports[i], e, key)
  }

  lemma ImportFails(cache: Cache, imports: seq<string>, body: Value, i: nat, raw: Value, e: MergeError, key: Key)
    requires i < |imports| && imports[i] in cache && ImportsCome(cache, imports[..i], raw, key)
    requires Merge(raw, cache[imports[i]].body, key) == Err(e)
    ensures MergeBreaks(cache, imports, body, Some(imports[i]), e, key)
  {
    assert ImportBreaks(cache, imports, i, e, key);
  }

  /** The first imports of some have been resolved and merged into `raw`. */
  ghost predicate Progress(cfg: Config, flats: Flats, cache: Cache, names: seq<string>, raw: Value, asserts: seq<string>, key: Key) {
    Partly(cfg, flats, names, raw, asserts, key) && ImportsCome(cache, names, raw, key)
  }

  lemma ProgressNext(cfg: Config, before: Flats, earlier: Cache, flats: Flats, cache: Cache, names: seq<string>, more: seq<string>,
                     raw: Value, asserts: seq<string>, m: string, key: Key)
    requires Progress(cfg, before, earlier, names, raw, asserts, key) && more == names + [m]
    requires Grown(before, flats) && CacheGrown(earlier, cache) && Remembered(cfg, flats, cache, key) && m in flats
    ensures m in cache && ImportsCome(cache, names, raw, key)
    ensures Uniform(cfg) ==> Merge(raw, cache[m].body, key).Ok?
    ensures Merge(raw, cache[m].body, key).Ok? ==>
      Progress(cfg, flats, cache, more, Merge(raw, cache[m].body, key).value, asserts + cache[m].asserts, key)
  {
    RememberedAt(cfg, flats, cache, m, key);
    GrownNext(cfg, before, flats, names, more, raw, asserts, m, cache[m], key);
    ImportsComeNext(earlier, cache, names, more, raw, m, key);
  }

  /** The next import has been resolved, by which others may have been remembered: it merges, or fails to. */
  lemma ImportDone(cfg: Config, before: Flats, earlier: Cache, flats: Flats, cache: Cache, imports: seq<string>, body: Value, i: nat,
                   raw: Value, asserts: seq<string>, key: Key)
    requires i < |imports| && Progress(cfg, before, earlier, imports[..i], raw, asserts, key)
    requires Grown(before, flats) && CacheGrown(earlier, cache) && Remembered(cfg, flats, cache, key) && imports[i] in flats
    ensures imports[i] in cache
    ensures match Merge(raw, cache[imports[i]].body, key)
            case Ok(v) => Progress(cfg, flats, cache, imports[..i + 1], v, asserts + cache[imports[i]].asserts, key)
            case Err(e) => !Uniform(cfg) && MergeBreaks(cache, imports, body, Some(imports[i]), e, key)
  {
    var names, more, m := imports[..i], imports[..i + 1], imports[i];
    assert more == names + [m];
    ProgressNext(cfg, before, earlier, flats, cache, names, more, raw, asserts, m, key);
    match Merge(raw, cache[m].body, key)
    case Ok(_) =>
    case Err(e) => ImportFails(cache, imports, body, i, raw, e, key);
  }

  lemma Cause(cfg: Config, stack: seq<string>, imported: Option<string>, e: MergeError, key: Key, flats: Flats, cache: Cache)
    requires Standing(cfg, flats, cache, key) && !Uniform(cfg)
    requires IsPath(ImportGraph(cfg), stack)
    requires var n := stack[|stack| - 1]; n in cfg && MergeBreaks(cache, cfg[n].imports, cfg[n].body, imported, e, key)
    ensures TrueError(cfg, stack[0], CannotMerge(stack[|stack| - 1], imported, e), key)
  {
    assert CauseAt(cfg, stack[0], stack[|stack| - 1], imported, e, key, flats, cache, stack);
  }

  lemma TrailAppend(g: Graph, stack: seq<string>, name: string)
    requires stack != [] ==> IsPath(g, stack) && stack[|stack| - 1] in g && name in g[stack[|stack| - 1]]
    ensures Trail(g, stack + [name])
    ensures name in g ==> IsPath(g, stack + [name])
  {
    if stack != [] { PathAppend(g, stack, name); }
  }

  class Compiler {
    const cfg: Config
    const key: Key
    var visiting: set<string>
    var profileCache: map<string, Resolved>
    ghost var flats: Flats

    constructor (cfg: Config, key: Key)
      ensures this.cfg == cfg && this.key == key && visiting == {} && Valid()
    {
      this.cfg, this.key := cfg, key;
      visiting, profileCache, flats := {}, map[], map[];
    }

    ghost predicate Valid()
      reads this
    {
      Standing(cfg, flats, profileCache, key) && visiting !! flats.Keys
    }

    /** The stack is the path of imports that led here. */
    ghost predicate Coming(name: string, stack: seq<string>)
      reads this
    {
      && visiting == Elems(stack)
      && (stack != [] ==> IsPath(ImportGraph(cfg), stack) && stack[|stack| - 1] in cfg && name in cfg[stack[|stack| - 1]].imports)
      && (forall n :: n in stack ==> n in cfg)
    }

    method ResolveProfile(name: string, stack: seq<string>) returns (r: Result<Resolved, ProfileError>)
      requires Valid() && Coming(name, stack)
      modifies this
      decreases cfg.Keys - visiting, 1
      ensures r.Ok? ==> Valid() && visiting == old(visiting) && Grown(old(flats), flats) && CacheGrown(old(profileCache), profileCache)
      ensures r.Ok? ==> name in flats && profileCache[name] == r.value
      ensures r.Err? ==> TrueError(cfg, (stack + [name])[0], r.error, key)
    {
      if name in profileCache {
        return Ok(profileCache[name]);
      }
      TrailAppend(ImportGraph(cfg), stack, name);
      if name !in cfg {
        assert DeadEnd(cfg, stack + [name]);
        return Err(UnknownProfile(name));
      }
      if name in visiting {
        assert name in stack && (stack + [name])[..|stack|] == stack;
        return Err(ImportCycle(stack + [name]));
      }
      assert name in cfg.Keys - visiting;
      visiting := visiting + {name};
      var nextStack := stack + [name];
      assert Elems(nextStack) == Elems(stack) + {name};
      var imported := ResolveImports(name, nextStack);
      if imported.Err? {
        return Err(imported.error);
      }
      var merged := ComputeMerge(imported.value.body, cfg[name].body, key);
      OwnBody(cfg, flats, name, imported.value.body, imported.value.asserts, key);
      if merged.Err? {
        Cause(cfg, nextStack, None, merged.error, key, flats, profileCache);
        return Err(CannotMerge(name, None, merged.error));
      }
      var resolved := Resolved(merged.value, imported.value.asserts + cfg[name].asserts);
      assert name !in flats;
      OneStepMore(cfg, profileCache, name, resolved, imported.value.body, key);
      Remember(cfg, flats, profileCache, name, resolved, key);
      visiting := visiting - {name};
      profileCache := profileCache[name := resolved];
      flats := flats[name := Flatten(flats, cfg[name].imports) + [name]];
      r := Ok(resolved);
    }

    /** The loop over the imports of `name`, which is being visited. */
    method ResolveImports(name: string, nextStack: seq<string>) returns (r: Result<Resolved, ProfileError>)
      requires Valid() && nextStack != [] && nextStack[|nextStack| - 1] == name && name in cfg
      requires visiting == Elems(nextStack) && IsPath(ImportGraph(cfg), nextStack) && forall n :: n in nextStack ==> n in cfg
      modifies this
      decreases cfg.Keys - visiting, 2
      ensures r.Ok? ==> Valid() && visiting == old(visiting) && Grown(old(flats), flats) && CacheGrown(old(profileCache), profileCache)
      ensures r.Ok? ==> Progress(cfg, flats, profileCache, cfg[name].imports, r.value.body, r.value.asserts, key)
      ensures r.Err? ==> TrueError(cfg, nextStack[0], r.error, key)
    {
      var raw, asserts := Empty, [];
      var imports := cfg[name].imports;
      for i := 0 to |imports|
        invariant Valid() && visiting == old(visiting) && Grown(old(flats), flats) && CacheGrown(old(profileCache), profileCache)
        invariant Progress(cfg, flats, profileCache, imports[..i], raw, asserts, key)
      {
        ghost var before, earlier := flats, profileCache;
        var imported := ResolveProfile(imports[i], nextStack);
        if imported.Err? {
          assert (nextStack + [imports[i]])[0] == nextStack[0];
          return Err(imported.error);
        }
        ImportDone(cfg, before, earlier, flats, profileCache, imports, cfg[name].body, i, raw, asserts, key);
        GrownFurther(old(flats), before, flats);
        var merged := ComputeMerge(raw, imported.value.body, key);
        if merged.Err? {
          Cause(cfg, nextStack, Some(imports[i]), merged.error, key, flats, profileCache);
          return Err(CannotMerge(name, Some(imports[i]), merged.error));
        }
        raw, asserts := merged.value, asserts + imported.value.asserts;
      }
      assert imports[..|imports|] == imports;
      r := Ok(Resolved(raw, asserts));
    }

    /** Resolving a profile from outside: if all bodies can be merged, it fails exactly when following the
        imports leads to an unknown profile or round a cycle; otherwise the result is what the flattened
        imports come to. */
    method Resolve(name: string) returns (r: Result<Resolved, ProfileError>)
      requires Valid() && visiting == {}
      modifies this
      ensures r.Ok? ==> Valid() && visiting == {} && name in flats && Flattened(cfg, flats) && Right(cfg, flats[name], r.value, key)
      ensures r.Ok? ==> forall p :: p != [] && p[0] == name ==> !DeadEnd(cfg, p)
      ensures r.Err? ==> TrueError(cfg, name, r.error, key)
      ensures r.Err? && Uniform(cfg) ==> exists p :: DeadEnd(cfg, p) && p[0] == name
    {
      r := ResolveProfile(name, []);
      assert ([] + [name])[0] == name;
      if r.Ok? {
        assert Right(cfg, flats[name], profileCache[name], key) && FlatOk(cfg, flats, name);
        forall p | p != [] && p[0] == name ensures !DeadEnd(cfg, p) { NoDeadEnd(cfg, flats, name, p); }
      }
    }

    /** The merged body of a host: its resolved imports, then its own body. What was remembered for other
        hosts makes no difference. */
    method MergeHost(imports: seq<string>, body: Value, ownAsserts: seq<string>) returns (r: Result<Resolved, ProfileError>)
      requires Valid() && visiting == {}
      modifies this
      ensures r.Ok? ==> Valid() && visiting == {} && HostRight(cfg, flats, profileCache, imports, body, r.value.body, key)
      ensures r.Ok? ==> r.value.asserts == FoldAsserts(cfg, Flatten(flats, imports)) + ownAsserts
      ensures r.Err? ==> TrueHostError(cfg, imports, body, r.error, key)
      ensures r.Err? && Uniform(cfg) && Unmodified(body) ==> exists p, i :: DeadEnd(cfg, p) && 0 <= i < |imports| && p[0] == imports[i]
    {
      var raw, asserts := Empty, [];
      for i := 0 to |imports|
        invariant Valid() && visiting == {} && Progress(cfg, flats, profileCache, imports[..i], raw, asserts, key)
      {
        ghost var before, earlier := flats, profileCache;
        var profile := ResolveProfile(imports[i], []);
        if profile.Err? {
          assert ([] + [imports[i]])[0] == imports[i];
          return Err(profile.error);
        }
        ImportDone(cfg, before, earlier, flats, profileCache, imports, body, i, raw, asserts, key);
        var merged := ComputeMerge(raw, profile.value.body, key);
        if merged.Err? {
          return Err(HostCannotMerge(Some(imports[i]), merged.error));
        }
        raw, asserts := merged.value, asserts + profile.value.asserts;
      }
      assert imports[..|imports|] == imports;
      var merged := ComputeMerge(raw, body, key);
      if merged.Err? {
        BodyMerges(raw, body, key);
        return Err(HostCannotMerge(None, merged.error));
      }
      r := Ok(Resolved(merged.value, asserts + ownAsserts));
    }
  }

  lemma BodyMerges(raw: Value, body: Value, key: Key)
    ensures Unmodified(body) ==> Merge(raw, body, key).Ok?
  {
    if Unmodified(body) { UnmodifiedMergeIsJoin(raw, body, key); }
  }

  /** What a host's imports and body come to: the resolved imports, or their flattened bodies, and then
      its own body. */
  ghost predicate HostRight(cfg: Config, flats: Flats, cache: Cache, imports: seq<string>, body: Value, r: Value, key: Key) {
    && (forall m :: m in imports ==> m in flats)
    && (exists raw :: ImportsCome(cache, imports, raw, key) && Merge(raw, body, key) == Ok(r))
    && (Uniform(cfg) ==> Merge(Fold(cfg, Empty, Flatten(flats, imports), key), body, key) == Ok(r))
  }

  lemma NoDeadEnd(cfg: Config, flats: Flats, n: string, p: seq<string>)
    requires Flattened(cfg, flats) && n in flats && n in cfg && p != [] && p[0] == n
    ensures !DeadEnd(cfg, p)
  {
    if Trail(ImportGraph(cfg), p) { FlattenedHasNoCycle(cfg, flats, n, p); }
  }
}
