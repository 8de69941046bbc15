/** Bringing the inputs of a component into the form of their types: missing attributes are filled in,
    sets are sorted and lose their repetitions, and anything that does not fit is an error. */
module InputTypes {
  import opened Wrappers
  import opened Lists
  import opened MergeValues

  datatype Type =
    | Any | Text | Number | Boolean
    | ListOf(element: Type) | SetOf(element: Type) | MapOf(element: Type)
    | Object(attributes: map<string, Attribute>)
    | Tuple(parts: seq<Type>)
    | OtherType

  datatype Attribute = Attribute(valueType: Type, optional: bool, default: Option<Value>)

  datatype InputError = WrongKind(want: Type) | UnsupportedAttribute | MissingAttribute(name: string) | WrongLength | UnsupportedType | NotNullable

  type Outcome = Result<Value, InputError>

  const Null: Value := Value(Leaf("null", ""), Plain)

  predicate IsNull(v: Value) { v.body.Leaf? && v.body.kind == "null" }

  predicate IsLeaf(v: Value, kind: string) { v.body.Leaf? && v.body.kind == kind }

  // ---------------------------------------------------------------- sets

  /** The items of which the key is not that of the item just before. */
  function WithoutNeighbours(items: seq<Value>, key: Key): seq<Value> {
    if |items| <= 1 then items else
      var last, before := items[|items| - 1], items[|items| - 2];
      WithoutNeighbours(items[..|items| - 1], key) + if key(last) == key(before) then [] else [last]
  }

  function AsSet(items: seq<Value>, key: Key): seq<Value> { WithoutNeighbours(SortBy(items, key), key) }

  /** What is left is strictly ascending, and ends with the key of the last item. */
  lemma {:induction false} WithoutNeighboursAscends(items: seq<Value>, key: Key)
    requires Ascending(Keys(items, key))
    ensures var r := WithoutNeighbours(items, key);
      && StrictlyAscending(Keys(r, key)) && (forall v :: v in r ==> v in items)
      && (items != [] ==> r != [] && key(r[|r| - 1]) == key(items[|items| - 1]))
  {
    if |items| > 1 {
      var front := items[..|items| - 1];
      var last, before := items[|items| - 1], items[|items| - 2];
      assert Keys(front, key) == Keys(items, key)[..|front|];
      WithoutNeighboursAscends(front, key);
      var kept := WithoutNeighbours(front, key);
      if key(last) != key(before) {
        assert AtMost(Keys(items, key)[|items| - 2], Keys(items, key)[|items| - 1]);
        LessTotal(key(before), key(last));
        AppendStrict(kept, last, key);
      }
    }
  }

  lemma AppendStrict(kept: seq<Value>, last: Value, key: Key)
    requires StrictlyAscending(Keys(kept, key)) && kept != [] && Less(key(kept[|kept| - 1]), key(last))
    ensures StrictlyAscending(Keys(kept + [last], key))
  {
    var keys := Keys(kept + [last], key);
    forall i, j | 0 <= i < j < |keys| ensures Less(keys[i], keys[j]) {
      if j < |kept| {
        assert Less(Keys(kept, key)[i], Keys(kept, key)[j]);
      } else if i < |kept| - 1 {
        assert Less(Keys(kept, key)[i], Keys(kept, key)[|kept| - 1]);
        LessTransitive(keys[i], keys[|kept| - 1], keys[j]);
      }
    }
  }

  lemma AsSetAscends(items: seq<Value>, key: Key)
    ensures StrictlyAscending(Keys(AsSet(items, key), key)) && forall v :: v in AsSet(items, key) ==> v in items
  {
    SortAscending(items, key);
    WithoutNeighboursAscends(SortBy(items, key), key);
    forall v | v in SortBy(items, key) ensures v in items { assert v in multiset(SortBy(items, key)); }
  }

  lemma {:induction false} StrictHasNoNeighbours(items: seq<Value>, key: Key)
    requires StrictlyAscending(Keys(items, key))
    ensures WithoutNeighbours(items, key) == items
  {
    if |items| > 1 {
      var front := items[..|items| - 1];
      assert Keys(front, key) == Keys(items, key)[..|front|];
      StrictHasNoNeighbours(front, key);
      assert Less(Keys(items, key)[|items| - 2], Keys(items, key)[|items| - 1]);
      LessIrreflexive(key(items[|items| - 1]));
      assert items == front + [items[|items| - 1]];
    }
  }

  lemma AsSetOfSet(items: seq<Value>, key: Key)
    requires StrictlyAscending(Keys(items, key))
    ensures AsSet(items, key) == items
  {
    var keys := Keys(items, key);
    forall i, j | 0 <= i < j < |keys| ensures AtMost(keys[i], keys[j]) { LessAsymmetric(keys[i], keys[j]); }
    SortOfAscending(items, key);
    StrictHasNoNeighbours(items, key);
  }

  /** The loop over the sorted slice: what is kept is moved to the front of the same array. */
  method DedupeInPlace(a: array<Value>, key: Key) returns (n: nat)
    modifies a
    ensures n <= a.Length && a[..n] == WithoutNeighbours(old(a[..]), key)
  {
    n := 0;
    var last := "";
    for i := 0 to a.Length
      invariant n <= i && a[i..] == old(a[..])[i..]
      invariant a[..n] == WithoutNeighbours(old(a[..])[..i], key)
      invariant i > 0 ==> last == key(old(a[i - 1]))
    {
      var item := a[i];
      assert item == a[i..][0] == old(a[i]);
      assert old(a[..])[..i + 1][..i] == old(a[..])[..i];
      var k := key(item);
      if i == 0 || k != last {
        a[n] := item;
        n := n + 1;
      }
      last := k;
    }
    assert old(a[..])[..a.Length] == old(a[..]);
  }

  // ---------------------------------------------------------------- normalising

  /** All the values, or the first error. */
  function Listed(results: seq<Outcome>): Result<seq<Value>, InputError> {
    if results == [] then Ok([]) else
      var before, last := Listed(results[..|results| - 1]), results[|results| - 1];
      if before.Err? then before else if last.Err? then Err(last.error) else Ok(before.value + [last.value])
  }

  type Outcomes = map<string, Outcome>

  function Bad(results: Outcomes): set<string> { set k | k in results && results[k].Err? }

  /** All the fields, or the error of the first name that has one. */
  ghost function Gathered(results: Outcomes): Result<map<string, Value>, InputError> {
    if Bad(results) != {} then Err(results[First(Bad(results))].error)
    else Ok(map k | k in results && results[k].Ok? :: results[k].value)
  }

  function AsList(v: Value, r: Result<seq<Value>, InputError>): Outcome {
    if r.Err? then Err(r.error) else Ok(v.(body := List(r.value)))
  }

  function AsSetValue(v: Value, r: Result<seq<Value>, InputError>, key: Key): Outcome {
    if r.Err? then Err(r.error) else Ok(v.(body := List(AsSet(r.value, key))))
  }

  function AsMap(v: Value, r: Result<map<string, Value>, InputError>): Outcome
    requires v.body.Map?
  {
    if r.Err? then Err(r.error) else Ok(v.(body := Map(r.value, v.body.order)))
  }

  /** `normalizeComponentInputValue` */
  ghost function Normalized(t: Type, v: Value, key: Key): Outcome
    decreases t, 2
  {
    if IsNull(v) then Ok(v) else
    match t
    case Any => Ok(v)
    case Text => if IsLeaf(v, "string") then Ok(v) else Err(WrongKind(t))
    case Number => if IsLeaf(v, "number") then Ok(v) else Err(WrongKind(t))
    case Boolean => if IsLeaf(v, "bool") then Ok(v) else Err(WrongKind(t))
    case ListOf(e) => if !v.body.List? then Err(WrongKind(t)) else AsList(v, Listed(Items(t, v.body.items, key)))
    case SetOf(e) => if !v.body.List? then Err(WrongKind(t)) else AsSetValue(v, Listed(Items(t, v.body.items, key)), key)
    case MapOf(e) => if !v.body.Map? then Err(WrongKind(t)) else AsMap(v, Gathered(Fields(t, v.body.fields, key)))
    case Object(attributes) =>
      if !v.body.Map? then Err(WrongKind(t))
      else if !(v.body.fields.Keys <= attributes.Keys) then Err(UnsupportedAttribute)
      else AsMap(v, Gathered(Fields(t, v.body.fields, key)))
    case Tuple(parts) =>
      if !v.body.List? then Err(WrongKind(t))
      else if |v.body.items| != |parts| then Err(WrongLength)
      else AsList(v, Listed(Items(t, v.body.items, key)))
    case OtherType => Err(UnsupportedType)
  }

  predicate OfItems(t: Type, n: nat) { t.ListOf? || t.SetOf? || (t.Tuple? && |t.parts| == n) }

  /** The type of the item at `i` */
  function ItemType(t: Type, n: nat, i: nat): Type
    requires OfItems(t, n) && i < n
  {
    if t.Tuple? then t.parts[i] else t.element
  }

  ghost function Items(t: Type, items: seq<Value>, key: Key): seq<Outcome>
    requires OfItems(t, |items|)
    decreases t, 1
  {
    seq(|items|, i requires 0 <= i < |items| => Normalized(ItemType(t, |items|, i), items[i], key))
  }

  predicate OfFields(t: Type) { t.MapOf? || t.Object? }

  predicate HasField(t: Type, fields: map<string, Value>, k: string)
    requires OfFields(t)
  {
    if t.Object? then k in t.attributes else k in fields
  }

  function FieldNames(t: Type, fields: map<string, Value>): set<string>
    requires OfFields(t)
  {
    if t.Object? then t.attributes.Keys else fields.Keys
  }

  function FieldType(t: Type, fields: map<string, Value>, k: string): Type
    requires OfFields(t) && HasField(t, fields, k)
  {
    if t.Object? then t.attributes[k].valueType else t.element
  }

  /** The value that a field is made from: its own, or the default of the attribute. */
  function Given(t: Type, fields: map<string, Value>, k: string): Option<Value>
    requires OfFields(t) && HasField(t, fields, k)
  {
    if k in fields then Some(fields[k]) else t.attributes[k].default
  }

  function NotGiven(t: Type, fields: map<string, Value>, k: string): Outcome
    requires OfFields(t) && HasField(t, fields, k) && k !in fields
  {
    if t.attributes[k].optional then Ok(Null) else Err(MissingAttribute(k))
  }

  ghost function Fields(t: Type, fields: map<string, Value>, key: Key): Outcomes
    requires OfFields(t)
    decreases t, 1
  {
    map k | k in FieldNames(t, fields) :: if Given(t, fields, k).Some?
      then Normalized(FieldType(t, fields, k), Given(t, fields, k).value, key) else NotGiven(t, fields, k)
  }

  // ---------------------------------------------------------------- the program

  /** `normalizeComponentInput` */
  method NormalizeInput(nullable: bool, t: Type, v: Value, key: Key) returns (r: Outcome)
    ensures r.Ok? ==> Conforms(t, r.value, key) && (IsNull(r.value) <==> IsNull(v))
    ensures r == Ok(v) <==> Conforms(t, v, key) && (IsNull(v) ==> nullable)
    ensures IsNull(v) ==> r == if nullable then Ok(v) else Err(NotNullable)
    ensures !IsNull(v) ==> r == Normalized(t, v, key)
  {
    if IsNull(v) && !nullable {
      return Err(NotNullable);
    }
    r := Normalize(t, v, key);
    NormalizingTwice(t, v, key);
    if r.Ok? {
      NormalizedConforms(t, v, key);
      OnlyNullBecomesNull(t, v, key);
    }
  }

  lemma OnlyNullBecomesNull(t: Type, v: Value, key: Key)
    requires Normalized(t, v, key).Ok?
    ensures IsNull(Normalized(t, v, key).value) <==> IsNull(v)
  {
  }

  method Normalize(t: Type, v: Value, key: Key) returns (r: Outcome)
    ensures r == Normalized(t, v, key)
    decreases t, 3
  {
    if IsNull(v) {
      return Ok(v);
    }
    match t {
      case Any => r := Ok(v);
      case Text => r := if IsLeaf(v, "string") then Ok(v) else Err(WrongKind(t));
      case Number => r := if IsLeaf(v, "number") then Ok(v) else Err(WrongKind(t));
      case Boolean => r := if IsLeaf(v, "bool") then Ok(v) else Err(WrongKind(t));
      case OtherType => r := Err(UnsupportedType);
      case MapOf(_) =>
        if !v.body.Map? {
          return Err(WrongKind(t));
        }
        var fields := NormalizeFields(t, v.body.fields, key);
        r := AsMap(v, fields);
      case Object(attributes) =>
        if !v.body.Map? {
          return Err(WrongKind(t));
        }
        if !(v.body.fields.Keys <= attributes.Keys) {
          return Err(UnsupportedAttribute);
        }
        var fields := NormalizeFields(t, v.body.fields, key);
        r := AsMap(v, fields);
      case Tuple(parts) =>
        if !v.body.List? {
          return Err(WrongKind(t));
        }
        if |v.body.items| != |parts| {
          return Err(WrongLength);
        }
        var items := NormalizeItems(t, v.body.items, key);
        r := AsList(v, items);
      case ListOf(_) =>
        if !v.body.List? {
          return Err(WrongKind(t));
        }
        var items := NormalizeItems(t, v.body.items, key);
        r := AsList(v, items);
      case SetOf(_) =>
        if !v.body.List? {
          return Err(WrongKind(t));
        }
        var items := NormalizeItems(t, v.body.items, key);
        if items.Err? {
          return Err(items.error);
        }
        var unique := SortAndDedupe(items.value, key);
        r := Ok(v.(body := List(unique)));
    }
  }

  method SortAndDedupe(items: seq<Value>, key: Key) returns (r: seq<Value>)
    ensures r == AsSet(items, key)
  {
    var sorted := SortBy(items, key);
    var a := new Value[|sorted|](i requires 0 <= i < |sorted| => sorted[i]);
    assert a[..] == sorted;
    var n := DedupeInPlace(a, key);
    r := a[..n];
  }

  method NormalizeItems(t: Type, items: seq<Value>, key: Key) returns (r: Result<seq<Value>, InputError>)
    requires OfItems(t, |items|)
    ensures r == Listed(Items(t, items, key))
    decreases t, 2
  {
    var out: seq<Value> := [];
    ghost var results := Items(t, items, key);
    for i := 0 to |items|
      invariant Listed(results[..i]) == Ok(out)
    {
      var normalized := Normalize(ItemType(t, |items|, i), items[i], key);
      assert results[..i + 1][..i] == results[..i];
      if normalized.Err? {
        ListedStops(results, i + 1);
        return Err(normalized.error);
      }
      out := out + [normalized.value];
    }
    assert results[..|items|] == results;
    r := Ok(out);
  }

  /** The first error is the error of the whole. */
  lemma {:induction false} ListedStops(results: seq<Outcome>, n: nat)
    requires n <= |results| && Listed(results[..n]).Err?
    ensures Listed(results) == Listed(results[..n])
    decreases |results| - n
  {
    if n == |results| { assert results[..n] == results; } else {
      assert results[..n + 1][..n] == results[..n];
      ListedStops(results, n + 1);
    }
  }

  method NormalizeFields(t: Type, fields: map<string, Value>, key: Key) returns (r: Result<map<string, Value>, InputError>)
    requires OfFields(t)
    ensures r == Gathered(Fields(t, fields, key))
    decreases t, 2
  {
    var out: map<string, Value> := map[];
    ghost var results := Fields(t, fields, key);
    var names := SortedSet(FieldNames(t, fields));
    for i := 0 to |names|
      invariant Gathering(results, names, i, out)
    {
      var name := names[i];
      assert name in names;
      var given := Given(t, fields, name);
      var normalized;
      if given.Some? {
        normalized := Normalize(FieldType(t, fields, name), given.value, key);
      } else {
        normalized := NotGiven(t, fields, name);
      }
      if normalized.Err? {
        FirstBad(results, names, i);
        return Err(normalized.error);
      }
      GatheringNext(results, names, i, out);
      out := out[name := normalized.value];
    }
    assert names[..|names|] == names;
    GatheredOk(results, out);
    r := Ok(out);
  }

  /** The values of the first `i` names have been gathered. */
  ghost predicate Gathering(results: Outcomes, names: seq<string>, i: nat, out: map<string, Value>) {
    && i <= |names| && (forall j :: 0 <= j < i ==> names[j] in results && results[names[j]].Ok?)
    && (forall k :: k in out <==> k in names[..i]) && (forall k :: k in out ==> k in results && results[k] == Ok(out[k]))
  }

  lemma GatheringNext(results: Outcomes, names: seq<string>, i: nat, out: map<string, Value>)
    requires i < |names| && Gathering(results, names, i, out) && names[i] in results && results[names[i]].Ok?
    ensures Gathering(results, names, i + 1, out[names[i] := results[names[i]].value])
  {
    assert names[..i + 1] == names[..i] + [names[i]];
  }

  lemma FirstBad(results: Outcomes, names: seq<string>, i: nat)
    requires StrictlyAscending(names) && (forall k :: k in names <==> k in results) && i < |names|
    requires (forall j :: 0 <= j < i ==> names[j] in results && results[names[j]].Ok?)
    requires names[i] in results && results[names[i]].Err?
    ensures Gathered(results) == Err(results[names[i]].error)
  {
    assert names[i] in Bad(results);
    forall k | k in Bad(results) ensures AtMost(names[i], k) {
      var j :| 0 <= j < |names| && names[j] == k;
      LessIrreflexive(k);
      if j > i { LessAsymmetric(names[i], names[j]); }
    }
    FirstIsUnique(First(Bad(results)), names[i], Bad(results));
  }

  // ---------------------------------------------------------------- what a normal value is

  /** A value in the form of its type; null is of every type. */
  ghost predicate Conforms(t: Type, v: Value, key: Key)
    decreases t
  {
    IsNull(v) ||
    match t
    case Any => true
    case Text => IsLeaf(v, "string")
    case Number => IsLeaf(v, "number")
    case Boolean => IsLeaf(v, "bool")
    case ListOf(_) => v.body.List? && forall i :: 0 <= i < |v.body.items| ==> Conforms(ItemType(t, |v.body.items|, i), v.body.items[i], key)
    case SetOf(_) =>
      && v.body.List? && (forall i :: 0 <= i < |v.body.items| ==> Conforms(ItemType(t, |v.body.items|, i), v.body.items[i], key))
      && StrictlyAscending(Keys(v.body.items, key))
    case Tuple(parts) =>
      && v.body.List? && |v.body.items| == |parts|
      && forall i :: 0 <= i < |v.body.items| ==> Conforms(ItemType(t, |v.body.items|, i), v.body.items[i], key)
    case MapOf(_) => v.body.Map? && forall k :: k in v.body.fields ==> Conforms(FieldType(t, v.body.fields, k), v.body.fields[k], key)
    case Object(attributes) =>
      && v.body.Map? && v.body.fields.Keys == attributes.Keys
      && forall k :: k in v.body.fields ==> Conforms(FieldType(t, v.body.fields, k), v.body.fields[k], key)
    case OtherType => false
  }

  lemma {:induction false} ListedValues(results: seq<Outcome>)
    requires Listed(results).Ok?
    ensures |Listed(results).value| == |results|
    ensures forall i :: 0 <= i < |results| ==> results[i].Ok? && Listed(results).value[i] == results[i].value
  {
    if results != [] { ListedValues(results[..|results| - 1]); }
  }

  lemma {:induction false} ListedOk(results: seq<Outcome>, values: seq<Value>)
    requires |results| == |values| && forall i :: 0 <= i < |results| ==> results[i] == Ok(values[i])
    ensures Listed(results) == Ok(values)
  {
    if results != [] {
      ListedOk(results[..|results| - 1], values[..|values| - 1]);
      assert values == values[..|values| - 1] + [values[|values| - 1]];
    }
  }

  lemma GatheredValues(results: Outcomes)
    requires Gathered(results).Ok?
    ensures Gathered(results).value.Keys == results.Keys
    ensures forall k :: k in results ==> results[k].Ok? && Gathered(results).value[k] == results[k].value
  {
    forall k | k in results ensures results[k].Ok? { assert k !in Bad(results); }
  }

  lemma GatheredOk(results: Outcomes, values: map<string, Value>)
    requires results.Keys == values.Keys && forall k :: k in results ==> results[k] == Ok(values[k])
    ensures Gathered(results) == Ok(values)
  {
    assert Bad(results) == {};
    assert Gathered(results).value == values;
  }

  /** Whatever comes out of normalising conforms to the type. */
  lemma {:induction false} NormalizedConforms(t: Type, v: Value, key: Key)
    requires Normalized(t, v, key).Ok?
    ensures Conforms(t, Normalized(t, v, key).value, key)
    decreases t, 1
  {
    if !IsNull(v) {
      match t
      case ListOf(_) => ItemsConform(t, v.body.items, key);
      case SetOf(_) =>
        ItemsConform(t, v.body.items, key);
        var values := Listed(Items(t, v.body.items, key)).value;
        AsSetAscends(values, key);
        forall i | 0 <= i < |AsSet(values, key)| ensures Conforms(t.element, AsSet(values, key)[i], key) {
          assert AsSet(values, key)[i] in values;
        }
      case Tuple(_) => ItemsConform(t, v.body.items, key);
      case MapOf(_) => FieldsConform(t, v.body.fields, key);
      case Object(_) => FieldsConform(t, v.body.fields, key);
      case _ =>
    }
  }

  lemma {:induction false} ItemsConform(t: Type, items: seq<Value>, key: Key)
    requires OfItems(t, |items|) && Listed(Items(t, items, key)).Ok?
    ensures var values := Listed(Items(t, items, key)).value;
      |values| == |items| && forall i :: 0 <= i < |items| ==> Conforms(ItemType(t, |items|, i), values[i], key)
    decreases t, 0
  {
    ListedValues(Items(t, items, key));
    var values := Listed(Items(t, items, key)).value;
    forall i | 0 <= i < |items| ensures Conforms(ItemType(t, |items|, i), values[i], key) {
      assert Items(t, items, key)[i] == Normalized(ItemType(t, |items|, i), items[i], key);
      NormalizedConforms(ItemType(t, |items|, i), items[i], key);
    }
  }

  lemma {:induction false} FieldsConform(t: Type, fields: map<string, Value>, key: Key)
    requires OfFields(t) && Gathered(Fields(t, fields, key)).Ok?
    ensures var values := Gathered(Fields(t, fields, key)).value;
      values.Keys == FieldNames(t, fields) && forall k :: k in values ==> Conforms(FieldType(t, fields, k), values[k], key)
    decreases t, 0
  {
    GatheredValues(Fields(t, fields, key));
    var values := Gathered(Fields(t, fields, key)).value;
    forall k | k in values ensures Conforms(FieldType(t, fields, k), values[k], key) {
      if Given(t, fields, k).Some? { NormalizedConforms(FieldType(t, fields, k), Given(t, fields, k).value, key); }
    }
  }

  /** A value that conforms is left as it is. */
  lemma {:induction false} ConformingIsNormal(t: Type, v: Value, key: Key)
    requires Conforms(t, v, key)
    ensures Normalized(t, v, key) == Ok(v)
    decreases t, 1
  {
    if !IsNull(v) {
      match t
      case ListOf(_) => ConformingItems(t, v.body.items, key);
      case SetOf(_) =>
        ConformingItems(t, v.body.items, key);
        AsSetOfSet(v.body.items, key);
      case Tuple(_) => ConformingItems(t, v.body.items, key);
      case MapOf(_) => ConformingFields(t, v.body.fields, key);
      case Object(_) => ConformingFields(t, v.body.fields, key);
      case _ =>
    }
  }

  lemma {:induction false} ConformingItems(t: Type, items: seq<Value>, key: Key)
    requires OfItems(t, |items|) && forall i :: 0 <= i < |items| ==> Conforms(ItemType(t, |items|, i), items[i], key)
    ensures Listed(Items(t, items, key)) == Ok(items)
    decreases t, 0
  {
    forall i | 0 <= i < |items| ensures Items(t, items, key)[i] == Ok(items[i]) { ConformingIsNormal(ItemType(t, |items|, i), items[i], key); }
    ListedOk(Items(t, items, key), items);
  }

  lemma {:induction false} ConformingFields(t: Type, fields: map<string, Value>, key: Key)
    requires OfFields(t) && fields.Keys == FieldNames(t, fields)
    requires forall k :: k in fields ==> Conforms(FieldType(t, fields, k), fields[k], key)
    ensures Gathered(Fields(t, fields, key)) == Ok(fields)
    decreases t, 0
  {
    forall k | k in fields ensures Fields(t, fields, key)[k] == Ok(fields[k]) { ConformingIsNormal(FieldType(t, fields, k), fields[k], key); }
    GatheredOk(Fields(t, fields, key), fields);
  }

  /** Normalising again changes nothing, and nothing else is left unchanged than what conforms. */
  lemma NormalizingTwice(t: Type, v: Value, key: Key)
    ensures Normalized(t, v, key).Ok? ==> Normalized(t, Normalized(t, v, key).value, key) == Normalized(t, v, key)
    ensures Normalized(t, v, key) == Ok(v) <==> Conforms(t, v, key)
  {
    if Normalized(t, v, key).Ok? {
      NormalizedConforms(t, v, key);
      ConformingIsNormal(t, Normalized(t, v, key).value, key);
    }
    if Conforms(t, v, key) { ConformingIsNormal(t, v, key); }
  }
}
