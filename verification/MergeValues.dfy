/** Merging configuration values: maps key by key, lists without repetition, anything else by the overlay;
    modifiers of the overlay remove, replace, or say on which side of a list to join. */
module MergeValues {
  import opened Wrappers
  import opened Lists

  /** A modifier; what is to be unset is known by its path. */
  datatype Modifier = Plain | Unset(path: string) | Force | Before | After

  /** Null, strings, booleans and numbers are leaves. A map remembers an order of labels. */
  datatype Body = Leaf(kind: string, text: string) | List(items: seq<Value>) | Map(fields: map<string, Value>, order: seq<string>)

  datatype Value = Value(body: Body, modifier: Modifier)

  datatype MergeError = UnsetList(path: string) | ModifierNeedsList

  datatype Merged = Removed | Kept(value: Value)

  /** The key by which list items are the same. */
  type Key = Value -> string

  function WithoutModifier(v: Value): Value { v.(modifier := Plain) }

  predicate HasSuffix(s: string, suffix: string) { |suffix| <= |s| && s[|s| - |suffix|..] == suffix }

  predicate IsKnownListPath(path: string) {
    HasSuffix(path, ".install") || HasSuffix(path, ".modules") || HasSuffix(path, ".repositories")
  }

  // ---------------------------------------------------------------- lists

  /** The items whose key is not among `seen` and not that of an earlier item. */
  function Distinct(items: seq<Value>, key: Key, seen: set<string>): (r: seq<Value>)
    ensures forall v :: v in r ==> v in items
  {
    if items == [] then []
    else if key(items[0]) in seen then Distinct(items[1..], key, seen)
    else [items[0]] + Distinct(items[1..], key, seen + {key(items[0])})
  }

  function KeySet(items: seq<Value>, key: Key): set<string> { Elems(Keys(items, key)) }

  lemma KeySetNext(items: seq<Value>, key: Key)
    requires items != []
    ensures KeySet(items, key) == {key(items[0])} + KeySet(items[1..], key)
  {
    assert Keys(items, key) == [key(items[0])] + Keys(items[1..], key);
  }

  lemma {:induction false} DistinctJoin(a: seq<Value>, b: seq<Value>, key: Key, seen: set<string>)
    ensures Distinct(a + b, key, seen) == Distinct(a, key, seen) + Distinct(b, key, seen + KeySet(a, key))
  {
    if a == [] {
      assert a + b == b && seen + KeySet(a, key) == seen;
    } else {
      assert (a + b)[1..] == a[1..] + b;
      KeySetNext(a, key);
      var grown := seen + {key(a[0])};
      assert grown + KeySet(a[1..], key) == seen + KeySet(a, key);
      if key(a[0]) in seen { assert grown == seen; }
      DistinctJoin(a[1..], b, key, grown);
    }
  }

  lemma {:induction false} DistinctKeys(a: seq<Value>, key: Key, seen: set<string>)
    ensures seen + KeySet(Distinct(a, key, seen), key) == seen + KeySet(a, key)
  {
    if a != [] {
      KeySetNext(a, key);
      var grown := seen + {key(a[0])};
      DistinctKeys(a[1..], key, grown);
      if key(a[0]) in seen { assert grown == seen; } else {
        var rest := Distinct(a[1..], key, grown);
        KeySetNext([a[0]] + rest, key);
        assert ([a[0]] + rest)[1..] == rest;
      }
    }
  }

  lemma {:induction false} DistinctTwice(a: seq<Value>, key: Key, inner: set<string>, outer: set<string>)
    requires inner <= outer
    ensures Distinct(Distinct(a, key, inner), key, outer) == Distinct(a, key, outer)
  {
    if a != [] {
      var k := key(a[0]);
      if k in inner {
        DistinctTwice(a[1..], key, inner, outer);
      } else {
        var rest := Distinct(a[1..], key, inner + {k});
        assert Distinct(a, key, inner)[0] == a[0] && Distinct(a, key, inner)[1..] == rest;
        DistinctTwice(a[1..], key, inner + {k}, outer + {k});
        if k in outer { assert outer + {k} == outer; }
      }
    }
  }

  /** `appendDedup` */
  function Appended(first: seq<Value>, second: seq<Value>, key: Key): seq<Value> { Distinct(first + second, key, {}) }

  lemma DistinctLeft(a: seq<Value>, b: seq<Value>, key: Key)
    ensures Distinct(Distinct(a, key, {}) + b, key, {}) == Distinct(a + b, key, {})
  {
    DistinctJoin(Distinct(a, key, {}), b, key, {});
    DistinctTwice(a, key, {}, {});
    DistinctKeys(a, key, {});
    DistinctJoin(a, b, key, {});
  }

  lemma DistinctRight(a: seq<Value>, b: seq<Value>, key: Key)
    ensures Distinct(a + Distinct(b, key, {}), key, {}) == Distinct(a + b, key, {})
  {
    DistinctJoin(a, Distinct(b, key, {}), key, {});
    DistinctTwice(b, key, {}, {} + KeySet(a, key));
    DistinctJoin(a, b, key, {});
  }

  lemma AppendedAssociative(a: seq<Value>, b: seq<Value>, c: seq<Value>, key: Key)
    ensures Appended(Appended(a, b, key), c, key) == Appended(a, Appended(b, c, key), key)
  {
    DistinctLeft(a + b, c, key);
    DistinctRight(a, b + c, key);
    assert (a + b) + c == a + (b + c);
  }

  method AppendDedup(first: seq<Value>, second: seq<Value>, key: Key) returns (out: seq<Value>)
    ensures out == Appended(first, second, key)
  {
    out := [];
    var seen: set<string> := {};
    var values := first + second;
    for i := 0 to |values|
      invariant out == Distinct(values[..i], key, {}) && seen == KeySet(values[..i], key)
    {
      var k := key(values[i]);
      assert values[..i + 1] == values[..i] + [values[i]];
      DistinctJoin(values[..i], [values[i]], key, {});
      assert {} + KeySet(values[..i], key) == seen;
      assert Keys(values[..i + 1], key) == Keys(values[..i], key) + [k];
      if k in seen {
        continue;
      }
      seen := seen + {k};
      out := out + [values[i]];
    }
    assert values[..|values|] == values;
  }

  // ---------------------------------------------------------------- map order

  function MapOrder(a: seq<string>, b: seq<string>): (r: seq<string>)
    ensures NoDup(r)
  {
    Firsts(a + b, {})
  }

  lemma FirstsLeft(a: seq<string>, b: seq<string>)
    ensures Firsts(Firsts(a, {}) + b, {}) == Firsts(a + b, {})
  {
    var inner := Firsts(a, {});
    FirstsAppend(inner, b, {});
    FirstsTwice(a, {}, {});
    FirstsAppend(a, b, {});
    assert {} + Elems(inner) == {} + Elems(a);
  }

  lemma FirstsRight(a: seq<string>, b: seq<string>)
    ensures Firsts(a + Firsts(b, {}), {}) == Firsts(a + b, {})
  {
    FirstsAppend(a, Firsts(b, {}), {});
    FirstsTwice(b, {}, {} + Elems(a));
    FirstsAppend(a, b, {});
  }

  lemma MapOrderAssociative(a: seq<string>, b: seq<string>, c: seq<string>)
    ensures MapOrder(MapOrder(a, b), c) == MapOrder(a, MapOrder(b, c))
  {
    FirstsLeft(a + b, c);
    FirstsRight(a, b + c);
    assert (a + b) + c == a + (b + c);
  }

  method MergeMapOrder(base: seq<string>, overlay: seq<string>) returns (order: seq<string>)
    ensures order == MapOrder(base, overlay)
  {
    if |base| == 0 && |overlay| == 0 {
      return [];
    }
    order := DedupeAll(base + overlay);
  }

  method DedupeAll(labels: seq<string>) returns (order: seq<string>)
    ensures order == Firsts(labels, {})
  {
    order := [];
    var seen: set<string> := {};
    for i := 0 to |labels|
      invariant order == Firsts(labels[..i], {}) && seen == Elems(labels[..i])
    {
      var name := labels[i];
      assert labels[..i + 1] == labels[..i] + [name];
      FirstsAppend(labels[..i], [name], {});
      assert {} + Elems(labels[..i]) == seen;
      assert Elems(labels[..i + 1]) == seen + {name};
      if name in seen {
        continue;
      }
      seen := seen + {name};
      order := order + [name];
    }
    assert labels[..|labels|] == labels;
  }

  // ---------------------------------------------------------------- values

  function Field(fields: map<string, Value>, k: string): Option<Value> { if k in fields then Some(fields[k]) else None }

  /** The first of some labels */
  ghost predicate IsFirst(k: string, some: set<string>) { k in some && forall j :: j in some ==> AtMost(k, j) }

  lemma {:induction false} FirstExists(some: set<string>)
    requires some != {}
    ensures exists k :: IsFirst(k, some)
    decreases some
  {
    var k :| k in some;
    LessIrreflexive(k);
    if some == {k} {
      assert IsFirst(k, some);
    } else {
      assert some - {k} != {};
      FirstExists(some - {k});
      var other :| IsFirst(other, some - {k});
      LessTotal(k, other);
      if Less(other, k) {
        forall j | j in some ensures AtMost(other, j) { if j == k { LessAsymmetric(other, k); } }
        assert IsFirst(other, some);
      } else {
        forall j | j in some ensures AtMost(k, j) { if j != k { AtMostTransitive(k, other, j); } }
        assert IsFirst(k, some);
      }
    }
  }

  ghost function First(some: set<string>): (k: string)
    requires some != {}
    ensures IsFirst(k, some)
  {
    FirstExists(some);
    var k :| IsFirst(k, some);
    k
  }

  type Results = map<string, Result<Merged, MergeError>>

  function Failing(results: Results): set<string> { set k | k in results && results[k].Err? }

  /** The fields of a base with the results for the fields of an overlay: the first error, if there is one. */
  ghost function Combined(base: map<string, Value>, results: Results): Result<map<string, Value>, MergeError> {
    if Failing(results) != {} then Err(results[First(Failing(results))].error)
    else Ok(map k | k in base.Keys + results.Keys && (k in results ==> results[k].Ok? && results[k].value.Kept?) ::
              if k in results then results[k].value.value else base[k])
  }

  /** `mergeValue`, with no base where the key is new. */
  ghost function MergeValue(base: Option<Value>, overlay: Value, key: Key): Result<Merged, MergeError>
    decreases overlay
  {
    match overlay.modifier
    case Unset(path) =>
      if (base.Some? && base.value.body.List?) || IsKnownListPath(path) then Err(UnsetList(path)) else Ok(Removed)
    case Force => Ok(Kept(WithoutModifier(overlay)))
    case _ =>
      if base.None? then
        if !overlay.modifier.Plain? && !overlay.body.List? then Err(ModifierNeedsList) else Ok(Kept(WithoutModifier(overlay)))
      else if base.value.body.Map? && overlay.body.Map? then
        var results: Results := map k | k in overlay.body.fields ::
          MergeValue(Field(base.value.body.fields, k), overlay.body.fields[k], key);
        var fields := Combined(base.value.body.fields, results);
        if fields.Err? then Err(fields.error)
        else Ok(Kept(Value(Map(fields.value, MapOrder(base.value.body.order, overlay.body.order)), Plain)))
      else if !overlay.modifier.Plain? && !overlay.body.List? then Err(ModifierNeedsList)
      else if base.value.body.List? && overlay.body.List? then
        Ok(Kept(Value(List(if overlay.modifier.Before? then Appended(overlay.body.items, base.value.body.items, key)
                           else Appended(base.value.body.items, overlay.body.items, key)), Plain)))
      else Ok(Kept(WithoutModifier(overlay)))
  }

  lemma FirstIsUnique(k: string, j: string, some: set<string>)
    requires IsFirst(k, some) && IsFirst(j, some)
    ensures k == j
  {
    LessTotal(k, j);
  }

  // ---------------------------------------------------------------- the program

  /** `mergeValue` as it computes: over a copy of the base's fields, in the order of the overlay's keys. */
  method Compute(base: Option<Value>, overlay: Value, key: Key) returns (r: Result<Merged, MergeError>)
    ensures r == MergeValue(base, overlay, key)
    decreases overlay, 1
  {
    if overlay.modifier.Unset? {
      if (base.Some? && base.value.body.List?) || IsKnownListPath(overlay.modifier.path) {
        return Err(UnsetList(overlay.modifier.path));
      }
      return Ok(Removed);
    }
    if overlay.modifier.Force? {
      return Ok(Kept(WithoutModifier(overlay)));
    }
    if base.None? {
      if (overlay.modifier.Before? || overlay.modifier.After?) && !overlay.body.List? {
        return Err(ModifierNeedsList);
      }
      return Ok(Kept(WithoutModifier(overlay)));
    }
    if base.value.body.Map? && overlay.body.Map? {
      var order := MergeMapOrder(base.value.body.order, overlay.body.order);
      var fields := ComputeFields(base.value.body.fields, overlay, key);
      if fields.Err? {
        return Err(fields.error);
      }
      return Ok(Kept(Value(Map(fields.value, order), Plain)));
    }
    var listModifier := overlay.modifier;
    if (listModifier.Before? || listModifier.After?) && !overlay.body.List? {
      return Err(ModifierNeedsList);
    }
    if base.value.body.List? && overlay.body.List? {
      var items;
      if listModifier.Before? {
        items := AppendDedup(overlay.body.items, base.value.body.items, key);
      } else {
        items := AppendDedup(base.value.body.items, overlay.body.items, key);
      }
      return Ok(Kept(Value(List(items), Plain)));
    }
    r := Ok(Kept(WithoutModifier(overlay)));
  }

  ghost function ResultsOf(base: map<string, Value>, overlay: Value, key: Key): Results
    requires overlay.body.Map?
  {
    map k | k in overlay.body.fields :: MergeValue(Field(base, k), overlay.body.fields[k], key)
  }

  /** The copy while it is being filled: the keys in `done` have their results, the others their base. */
  ghost predicate Filled(base: map<string, Value>, results: Results, done: seq<string>, fields: map<string, Value>) {
    && (forall k :: k in done ==> k in results && results[k].Ok?)
    && (forall k :: k in done ==> (k in fields <==> results[k].value.Kept?) && (k in fields ==> fields[k] == results[k].value.value))
    && (forall k :: k !in done ==> (k in fields <==> k in base) && (k in base ==> fields[k] == base[k]))
  }

  method ComputeFields(base: map<string, Value>, overlay: Value, key: Key) returns (r: Result<map<string, Value>, MergeError>)
    requires overlay.body.Map?
    ensures r == Combined(base, ResultsOf(base, overlay, key))
    decreases overlay, 0
  {
    var fields := base;
    var keys := SortedSet(overlay.body.fields.Keys);
    ghost var results := ResultsOf(base, overlay, key);
    AscendingHasNoRepeats(keys);
    for i := 0 to |keys|
      invariant Filled(base, results, keys[..i], fields)
    {
      var k := keys[i];
      NextKey(base, results, keys, i, fields);
      var merged := Compute(Field(fields, k), overlay.body.fields[k], key);
      if merged.Err? {
        FirstError(results, keys, i);
        return Err(merged.error);
      }
      FilledNext(base, results, keys, i, fields);
      if merged.value.Removed? {
        fields := fields - {k};
        continue;
      }
      fields := fields[k := merged.value.value];
    }
    assert keys[..|keys|] == keys;
    AllFilled(base, results, keys, fields);
    r := Ok(fields);
  }

  lemma NextKey(base: map<string, Value>, results: Results, keys: seq<string>, i: nat, fields: map<string, Value>)
    requires i < |keys| && Filled(base, results, keys[..i], fields) && NoDup(keys)
    ensures keys[i] in keys && Field(fields, keys[i]) == Field(base, keys[i])
    ensures forall m :: 0 <= m < i ==> keys[m] in results && results[keys[m]].Ok?
  {
    if keys[i] in keys[..i] {
      var m :| 0 <= m < i && keys[m] == keys[i];
      NoDupAt(keys, m, i);
    }
    forall m | 0 <= m < i ensures keys[m] in results && results[keys[m]].Ok? { assert keys[m] in keys[..i]; }
  }

  lemma FilledNext(base: map<string, Value>, results: Results, keys: seq<string>, i: nat, fields: map<string, Value>)
    requires i < |keys| && Filled(base, results, keys[..i], fields) && NoDup(keys) && keys[i] in results && results[keys[i]].Ok?
    ensures match results[keys[i]].value
      case Removed => Filled(base, results, keys[..i + 1], fields - {keys[i]})
      case Kept(v) => Filled(base, results, keys[..i + 1], fields[keys[i] := v])
  {
    NextKey(base, results, keys, i, fields);
    assert keys[..i + 1] == keys[..i] + [keys[i]];
    assert forall k :: k in keys[..i + 1] <==> k in keys[..i] || k == keys[i];
  }

  lemma FirstError(results: Results, keys: seq<string>, i: nat)
    requires StrictlyAscending(keys) && (forall k :: k in keys <==> k in results) && i < |keys|
    requires (forall m :: 0 <= m < i ==> keys[m] in results && results[keys[m]].Ok?)
    requires keys[i] in results && results[keys[i]].Err?
    ensures Failing(results) != {} && First(Failing(results)) == keys[i]
  {
    assert keys[i] in keys;
    assert keys[i] in Failing(results);
    forall j | j in Failing(results) ensures AtMost(keys[i], j) {
      var m :| 0 <= m < |keys| && keys[m] == j;
      LessIrreflexive(j);
      if m > i { LessAsymmetric(keys[i], keys[m]); }
    }
    FirstIsUnique(First(Failing(results)), keys[i], Failing(results));
  }

  lemma AllFilled(base: map<string, Value>, results: Results, keys: seq<string>, fields: map<string, Value>)
    requires Filled(base, results, keys, fields) && forall k :: k in keys <==> k in results
    ensures Combined(base, results) == Ok(fields)
  {
    assert Failing(results) == {};
    var combined := Combined(base, results).value;
    assert forall k :: k in combined <==> k in fields;
    assert forall k :: k in combined ==> combined[k] == fields[k];
    assert combined == fields;
  }

  // ---------------------------------------------------------------- algebra

  /** No modifier anywhere */
  ghost predicate Unmodified(v: Value) {
    v.modifier.Plain? &&
    match v.body
    case Leaf(_, _) => true
    case List(items) => forall x :: x in items ==> Unmodified(x)
    case Map(fields, _) => forall k :: k in fields ==> Unmodified(fields[k])
  }

  /** At every path that both have, both have a map, or both a list, or both a leaf. */
  ghost predicate Agree(a: Value, b: Value) {
    match (a.body, b.body)
    case (Leaf(_, _), Leaf(_, _)) => true
    case (List(_), List(_)) => true
    case (Map(f, _), Map(g, _)) => forall k :: k in f && k in g ==> Agree(f[k], g[k])
    case _ => false
  }

  /** What merging comes to without modifiers. */
  ghost function Join(a: Value, b: Value, key: Key): Value
    decreases b
  {
    if a.body.Map? && b.body.Map? then
      Value(Map(map k | k in a.body.fields.Keys + b.body.fields.Keys ::
                  if k !in b.body.fields then a.body.fields[k]
                  else if k !in a.body.fields then b.body.fields[k]
                  else Join(a.body.fields[k], b.body.fields[k], key),
                MapOrder(a.body.order, b.body.order)), Plain)
    else if a.body.List? && b.body.List? then Value(List(Appended(a.body.items, b.body.items, key)), Plain)
    else b
  }

  /** Without modifiers, merging never fails and never removes. */
  lemma {:induction false} UnmodifiedMergeIsJoin(a: Value, b: Value, key: Key)
    requires Unmodified(b)
    ensures MergeValue(Some(a), b, key) == Ok(Kept(Join(a, b, key)))
    decreases b
  {
    if a.body.Map? && b.body.Map? {
      var f, g := a.body.fields, b.body.fields;
      var results: Results := map k | k in g :: MergeValue(Field(f, k), g[k], key);
      forall k | k in g ensures results[k] == Ok(Kept(if k in f then Join(f[k], g[k], key) else g[k])) {
        if k in f { UnmodifiedMergeIsJoin(f[k], g[k], key); }
      }
      assert Failing(results) == {};
      assert Combined(f, results).value == Join(a, b, key).body.fields;
    }
  }

  lemma {:induction false} JoinIsUnmodified(a: Value, b: Value, key: Key)
    requires Unmodified(a) && Unmodified(b)
    ensures Unmodified(Join(a, b, key))
    decreases b
  {
    if a.body.Map? && b.body.Map? {
      var f, g := a.body.fields, b.body.fields;
      forall k | k in f && k in g ensures Unmodified(Join(f[k], g[k], key)) { JoinIsUnmodified(f[k], g[k], key); }
    }
  }

  lemma {:induction false} AgreeSymmetric(a: Value, b: Value)
    requires Agree(a, b)
    ensures Agree(b, a)
    decreases a
  {
    if a.body.Map? {
      forall k | k in a.body.fields && k in b.body.fields ensures Agree(b.body.fields[k], a.body.fields[k]) {
        AgreeSymmetric(a.body.fields[k], b.body.fields[k]);
      }
    }
  }

  /** What agrees with two values that agree, agrees with their join. */
  lemma {:induction false} AgreeWithJoin(c: Value, a: Value, b: Value, key: Key)
    requires Agree(c, a) && Agree(c, b) && Agree(a, b)
    ensures Agree(c, Join(a, b, key))
    decreases b
  {
    if a.body.Map? && b.body.Map? {
      var f, g, h := a.body.fields, b.body.fields, c.body.fields;
      forall k | k in h && k in f && k in g ensures Agree(h[k], Join(f[k], g[k], key)) {
        AgreeWithJoin(h[k], f[k], g[k], key);
      }
    }
  }

  /** Something of another kind between two maps, or between two lists, does away with the first of them;
      it has to be one that adds nothing to the last. */
  ghost predicate Assoc(a: Value, b: Value, c: Value, key: Key)
    decreases c
  {
    if a.body.Map? && c.body.Map? then
      if b.body.Map? then
        var f, g, h := a.body.fields, b.body.fields, c.body.fields;
        forall k :: k in f && k in g && k in h ==> Assoc(f[k], g[k], h[k], key)
      else Join(a, c, key) == c
    else a.body.List? && c.body.List? && !b.body.List? ==> Join(a, c, key) == c
  }

  /** Joining three values from either end comes to the same in just these cases. */
  lemma {:induction false} JoinAssociativeIff(a: Value, b: Value, c: Value, key: Key)
    ensures Join(Join(a, b, key), c, key) == Join(a, Join(b, c, key), key) <==> Assoc(a, b, c, key)
    decreases c
  {
    if a.body.List? && b.body.List? && c.body.List? {
      AppendedAssociative(a.body.items, b.body.items, c.body.items, key);
    } else if a.body.Map? && b.body.Map? && c.body.Map? {
      var f, g, h := a.body.fields, b.body.fields, c.body.fields;
      forall k | k in f && k in g && k in h
        ensures Join(Join(f[k], g[k], key), h[k], key) == Join(f[k], Join(g[k], h[k], key), key) <==> Assoc(f[k], g[k], h[k], key)
      {
        JoinAssociativeIff(f[k], g[k], h[k], key);
      }
      MapsAssociativeIff(a, b, c, key);
      assert (forall k :: AssociatesAt(a, b, c, key, k)) <==> Assoc(a, b, c, key) by {
        forall k ensures AssociatesAt(a, b, c, key, k) <==> (k in f && k in g && k in h ==> Assoc(f[k], g[k], h[k], key)) {}
      }
    }
  }

  /** Kinds that agree are such a case. */
  lemma {:induction false} AgreeingAssociate(a: Value, b: Value, c: Value, key: Key)
    requires Agree(a, b) && Agree(b, c) && Agree(a, c)
    ensures Assoc(a, b, c, key)
    decreases c
  {
    if a.body.Map? {
      var f, g, h := a.body.fields, b.body.fields, c.body.fields;
      forall k | k in f && k in g && k in h ensures Assoc(f[k], g[k], h[k], key) { AgreeingAssociate(f[k], g[k], h[k], key); }
    }
  }

  ghost predicate AssociatesAt(a: Value, b: Value, c: Value, key: Key, k: string)
    requires a.body.Map? && b.body.Map? && c.body.Map?
  {
    k in a.body.fields && k in b.body.fields && k in c.body.fields ==>
      Join(Join(a.body.fields[k], b.body.fields[k], key), c.body.fields[k], key)
      == Join(a.body.fields[k], Join(b.body.fields[k], c.body.fields[k], key), key)
  }

  /** Maps associate exactly if their fields do. */
  lemma MapsAssociativeIff(a: Value, b: Value, c: Value, key: Key)
    requires a.body.Map? && b.body.Map? && c.body.Map?
    ensures Join(Join(a, b, key), c, key) == Join(a, Join(b, c, key), key) <==> forall k :: AssociatesAt(a, b, c, key, k)
  {
    MapOrderAssociative(a.body.order, b.body.order, c.body.order);
    var left, right := Join(Join(a, b, key), c, key), Join(a, Join(b, c, key), key);
    forall k ensures Field(left.body.fields, k) == Field(right.body.fields, k) <==> AssociatesAt(a, b, c, key, k) {
      FieldAssociative(a, b, c, key, k);
    }
    if forall k :: AssociatesAt(a, b, c, key, k) {
      forall k ensures Field(left.body.fields, k) == Field(right.body.fields, k) { assert AssociatesAt(a, b, c, key, k); }
      SameFields(left.body.fields, right.body.fields);
    }
  }

  lemma FieldOfJoin(a: Value, b: Value, key: Key, k: string)
    requires a.body.Map? && b.body.Map?
    ensures var f, g := a.body.fields, b.body.fields;
      Field(Join(a, b, key).body.fields, k)
      == if k !in g then Field(f, k) else if k !in f then Field(g, k) else Some(Join(f[k], g[k], key))
  {
  }

  lemma FieldAssociative(a: Value, b: Value, c: Value, key: Key, k: string)
    requires a.body.Map? && b.body.Map? && c.body.Map?
    ensures Field(Join(Join(a, b, key), c, key).body.fields, k) == Field(Join(a, Join(b, c, key), key).body.fields, k)
       <==> AssociatesAt(a, b, c, key, k)
  {
    FieldOfJoin(a, b, key, k);
    FieldOfJoin(b, c, key, k);
    FieldOfJoin(Join(a, b, key), c, key, k);
    FieldOfJoin(a, Join(b, c, key), key, k);
  }

  lemma SameFields(f: map<string, Value>, g: map<string, Value>)
    requires forall k :: Field(f, k) == Field(g, k)
    ensures f == g
  {
    forall k ensures k in f <==> k in g { assert Field(f, k) == Field(g, k); }
    forall k | k in f ensures f[k] == g[k] { assert Field(f, k) == Field(g, k); }
  }

  const Empty: Value := Value(Map(map[], []), Plain)

  /** `Merge`: the empty map if nothing is kept. */
  ghost function Merge(base: Value, overlay: Value, key: Key): Result<Value, MergeError> {
    match MergeValue(Some(base), overlay, key)
    case Err(e) => Err(e)
    case Ok(Removed) => Ok(Empty)
    case Ok(Kept(v)) => Ok(v)
  }

  method ComputeMerge(base: Value, overlay: Value, key: Key) returns (r: Result<Value, MergeError>)
    ensures r == Merge(base, overlay, key)
  {
    var merged := Compute(Some(base), overlay, key);
    match merged
    case Err(e) => r := Err(e);
    case Ok(Removed) => r := Ok(Empty);
    case Ok(Kept(v)) => r := Ok(v);
  }

  /** The law of merging, as the program computes it: whatever is merged into, unmodified overlays never
      fail and are grouped in either way exactly if what is lost in between adds nothing. */
  lemma MergeAssociativeIff(a: Value, b: Value, c: Value, key: Key)
    requires Unmodified(b) && Unmodified(c)
    ensures Merge(a, b, key).Ok? && Merge(b, c, key).Ok? && Merge(a, Merge(b, c, key).value, key).Ok?
    ensures Merge(Merge(a, b, key).value, c, key) == Merge(a, Merge(b, c, key).value, key) <==> Assoc(a, b, c, key)
  {
    UnmodifiedMergeIsJoin(a, b, key);
    UnmodifiedMergeIsJoin(b, c, key);
    JoinIsUnmodified(b, c, key);
    UnmodifiedMergeIsJoin(Join(a, b, key), c, key);
    UnmodifiedMergeIsJoin(a, Join(b, c, key), key);
    JoinAssociativeIff(a, b, c, key);
  }

  /** A list, a leaf and a list: the first list is lost in one grouping and kept in the other. */
  lemma LostListDoesNotAssociate(key: Key)
    ensures !Assoc(Value(List([Value(Leaf("string", "x"), Plain)]), Plain), Value(Leaf("string", "y"), Plain), Value(List([]), Plain), key)
  {
    var x := Value(Leaf("string", "x"), Plain);
    assert [x] + [] == [x];
    assert Appended([x], [], key)[0] == x;
  }

  lemma OrderOfOne(order: seq<string>)
    ensures MapOrder([], order) == order <==> NoDup(order)
    ensures MapOrder(order, []) == order <==> NoDup(order)
  {
    assert [] + order == order && order + [] == order;
    if NoDup(order) { FirstsOfDistinct(order, {}); }
  }

  /** What is new comes out as it is exactly if it is not modified. */
  lemma NewIsKept(v: Value, key: Key)
    ensures MergeValue(None, v, key) == Ok(Kept(v)) <==> v.modifier.Plain?
  {
  }

  lemma NewFieldsAreKept(fields: map<string, Value>, results: Results)
    requires results.Keys == fields.Keys
    requires forall k :: k in fields ==> (results[k] == Ok(Kept(fields[k])) <==> fields[k].modifier.Plain?)
    ensures Combined(map[], results) == Ok(fields) <==> forall k :: k in fields ==> fields[k].modifier.Plain?
  {
    if forall k :: k in fields ==> fields[k].modifier.Plain? {
      assert Failing(results) == {};
      assert Combined(map[], results).value == fields;
    } else {
      var k :| k in fields && !fields[k].modifier.Plain?;
      assert results[k] != Ok(Kept(fields[k]));
    }
  }

  /** Merging into the empty map changes nothing exactly if nothing is modified, at the top or right below
      it, and no label is listed twice. */
  lemma EmptyIsLeftIdentityIff(v: Value, key: Key)
    ensures Merge(Empty, v, key) == Ok(v)
       <==> v.modifier.Plain? && (v.body.Map? ==> NoDup(v.body.order) && forall k :: k in v.body.fields ==> v.body.fields[k].modifier.Plain?)
  {
    if v.modifier.Plain? && v.body.Map? {
      var results := ResultsOf(map[], v, key);
      forall k | k in v.body.fields
        ensures results[k] == Ok(Kept(v.body.fields[k])) <==> v.body.fields[k].modifier.Plain?
      {
        NewIsKept(v.body.fields[k], key);
      }
      NewFieldsAreKept(v.body.fields, results);
      OrderOfOne(v.body.order);
      MergeOfMaps(Empty, v, key);
    }
  }

  lemma MergeOfMaps(base: Value, overlay: Value, key: Key)
    requires overlay.modifier.Plain? && base.body.Map? && overlay.body.Map?
    ensures MergeValue(Some(base), overlay, key) == match Combined(base.body.fields, ResultsOf(base.body.fields, overlay, key))
      case Err(e) => Err(e)
      case Ok(fields) => Ok(Kept(Value(Map(fields, MapOrder(base.body.order, overlay.body.order)), Plain)))
  {
    var results: Results := map k | k in overlay.body.fields :: MergeValue(Field(base.body.fields, k), overlay.body.fields[k], key);
    assert results == ResultsOf(base.body.fields, overlay, key);
  }

  /** Merging the empty map changes nothing exactly for an unmodified map that lists no label twice. */
  lemma EmptyIsRightIdentityIff(v: Value, key: Key)
    ensures Merge(v, Empty, key) == Ok(v) <==> v.modifier.Plain? && v.body.Map? && NoDup(v.body.order)
  {
    UnmodifiedMergeIsJoin(v, Empty, key);
    if v.body.Map? {
      OrderOfOne(v.body.order);
      forall k ensures Field(Join(v, Empty, key).body.fields, k) == Field(v.body.fields, k) { FieldOfJoin(v, Empty, key, k); }
      SameFields(Join(v, Empty, key).body.fields, v.body.fields);
    }
  }
}
