/** What the normal form of an input is, said of the value and its form without computing: and that
    normalising finds it exactly if there is one. */
module InputForms {
  import opened Wrappers
  import opened Lists
  import opened MergeValues
  import opened InputTypes

  // ---------------------------------------------------------------- sets

  /** The first item with a key */
  function FirstWith(items: seq<Value>, key: Key, k: string): Option<Value> {
    if items == [] then None else if key(items[0]) == k then Some(items[0]) else FirstWith(items[1..], key, k)
  }

  /** `members` holds the items as a set: by key, of each key the first. */
  ghost predicate IsSetOf(members: seq<Value>, items: seq<Value>, key: Key) {
    StrictlyAscending(Keys(members, key)) && forall k :: FirstWith(members, key, k) == FirstWith(items, key, k)
  }

  lemma {:induction false} FirstWithIn(items: seq<Value>, key: Key, k: string)
    ensures FirstWith(items, key, k).Some? <==> k in Keys(items, key)
    ensures FirstWith(items, key, k).Some? ==> FirstWith(items, key, k).value in items && key(FirstWith(items, key, k).value) == k
  {
    if items != [] {
      FirstWithIn(items[1..], key, k);
      assert Keys(items, key) == [key(items[0])] + Keys(items[1..], key);
      assert items == [items[0]] + items[1..];
    }
  }

  lemma {:induction false} FirstOfInserted(x: Value, s: seq<Value>, key: Key, k: string)
    ensures FirstWith(Insert(x, s, key), key, k) == if key(x) == k then Some(x) else FirstWith(s, key, k)
  {
    if s == [] {
    } else if AtMost(key(x), key(s[0])) {
      assert ([x] + s)[1..] == s;
    } else {
      FirstOfInserted(x, s[1..], key, k);
      var rest := Insert(x, s[1..], key);
      assert ([s[0]] + rest)[1..] == rest;
      LessIrreflexive(key(x));
    }
  }

  lemma {:induction false} FirstOfSorted(s: seq<Value>, key: Key, k: string)
    ensures FirstWith(SortBy(s, key), key, k) == FirstWith(s, key, k)
  {
    if s != [] {
      FirstOfSorted(s[1..], key, k);
      FirstOfInserted(s[0], SortBy(s[1..], key), key, k);
    }
  }

  lemma {:induction false} FirstOfAppended(a: seq<Value>, x: Value, key: Key, k: string)
    ensures FirstWith(a + [x], key, k) == if FirstWith(a, key, k).Some? then FirstWith(a, key, k) else if key(x) == k then Some(x) else None
  {
    if a == [] { assert a + [x] == [x]; } else {
      assert (a + [x])[1..] == a[1..] + [x];
      FirstOfAppended(a[1..], x, key, k);
    }
  }

  lemma {:induction false} FirstWithoutNeighbours(items: seq<Value>, key: Key, k: string)
    ensures FirstWith(WithoutNeighbours(items, key), key, k) == FirstWith(items, key, k)
  {
    if |items| > 1 {
      var front, last, before := items[..|items| - 1], items[|items| - 1], items[|items| - 2];
      assert items == front + [last];
      FirstWithoutNeighbours(front, key, k);
      FirstOfAppended(front, last, key, k);
      FirstOfAppended(WithoutNeighbours(front, key), last, key, k);
      assert Keys(front, key)[|front| - 1] == key(before);
      FirstWithIn(front, key, key(before));
      assert WithoutNeighbours(front, key) + [] == WithoutNeighbours(front, key);
    }
  }

  lemma AsSetIsSet(items: seq<Value>, key: Key)
    ensures IsSetOf(AsSet(items, key), items, key)
  {
    AsSetAscends(items, key);
    forall k ensures FirstWith(AsSet(items, key), key, k) == FirstWith(items, key, k) {
      FirstWithoutNeighbours(SortBy(items, key), key, k);
      FirstOfSorted(items, key, k);
    }
  }

  lemma {:induction false} OnlyWith(items: seq<Value>, key: Key, i: nat)
    requires StrictlyAscending(Keys(items, key)) && i < |items|
    ensures FirstWith(items, key, key(items[i])) == Some(items[i])
  {
    if i > 0 {
      var keys := Keys(items, key);
      assert Less(keys[0], keys[i]);
      LessIrreflexive(keys[0]);
      assert Keys(items[1..], key) == keys[1..];
      OnlyWith(items[1..], key, i - 1);
    }
  }

  /** There is only one. */
  lemma SetIsUnique(a: seq<Value>, b: seq<Value>, items: seq<Value>, key: Key)
    requires IsSetOf(a, items, key) && IsSetOf(b, items, key)
    ensures a == b
  {
    forall k ensures k in Keys(a, key) <==> k in Keys(b, key) {
      FirstWithIn(a, key, k);
      FirstWithIn(b, key, k);
      assert FirstWith(a, key, k) == FirstWith(b, key, k);
    }
    assert Elems(Keys(a, key)) == Elems(Keys(b, key));
    AscendingUnique(Keys(a, key), Keys(b, key));
    forall i | 0 <= i < |a| ensures a[i] == b[i] {
      OnlyWith(a, key, i);
      OnlyWith(b, key, i);
      assert key(a[i]) == Keys(a, key)[i] == Keys(b, key)[i] == key(b[i]);
    }
  }

  // ---------------------------------------------------------------- normal forms

  predicate SameShell(v: Value, w: Value) {
    && v.modifier == w.modifier
    && ((v.body.List? && w.body.List?) || (v.body.Map? && w.body.Map? && w.body.order == v.body.order))
  }

  /** `w` is the normal form of `v` as a `t`. Null stays null, and what is not made of parts stays as it is;
      parts are in their normal form. A set holds the normal forms of the items once each. An object has all
      its attributes and no others: one that is missing is in the normal form of its default, and null if it
      has no default and is optional. */
  ghost predicate Becomes(t: Type, v: Value, w: Value, key: Key)
    decreases t, 0
  {
    if IsNull(v) then w == v else
    match t
    case Any => w == v
    case Text => w == v && IsLeaf(v, "string")
    case Number => w == v && IsLeaf(v, "number")
    case Boolean => w == v && IsLeaf(v, "bool")
    case ListOf(e) => SameShell(v, w) && v.body.List? && |w.body.items| == |v.body.items|
      && forall i :: 0 <= i < |v.body.items| ==> Becomes(e, v.body.items[i], w.body.items[i], key)
    case SetOf(e) => SameShell(v, w) && v.body.List? && (exists forms: seq<Value> ::
      IsSetOf(w.body.items, forms, key) && SetForms(e, v.body.items, forms, key))
    case Tuple(parts) => SameShell(v, w) && v.body.List? && |w.body.items| == |v.body.items| == |parts|
      && forall i :: 0 <= i < |parts| ==> Becomes(parts[i], v.body.items[i], w.body.items[i], key)
    case MapOf(e) => SameShell(v, w) && v.body.Map? && w.body.fields.Keys == v.body.fields.Keys
      && forall k :: k in v.body.fields ==> Becomes(e, v.body.fields[k], w.body.fields[k], key)
    case Object(attributes) => SameShell(v, w) && v.body.Map? && v.body.fields.Keys <= attributes.Keys && w.body.fields.Keys == attributes.Keys
      && forall k :: k in attributes ==>
           if k in v.body.fields then Becomes(attributes[k].valueType, v.body.fields[k], w.body.fields[k], key)
           else if attributes[k].default.Some? then Becomes(attributes[k].valueType, attributes[k].default.value, w.body.fields[k], key)
           else attributes[k].optional && w.body.fields[k] == Null
    case OtherType => false
  }

  /** The normal forms of the items, one by one. */
  ghost predicate SetForms(e: Type, items: seq<Value>, forms: seq<Value>, key: Key)
    decreases e, 1
  {
    |forms| == |items| && forall i :: 0 <= i < |items| ==> Becomes(e, items[i], forms[i], key)
  }

  /** Normalising comes to `w` exactly if `w` is the normal form. */
  lemma {:induction false} NormalizedIff(t: Type, v: Value, w: Value, key: Key)
    ensures Normalized(t, v, key) == Ok(w) <==> Becomes(t, v, w, key)
    decreases t, 4
  {
    if !IsNull(v) {
      match t
      case ListOf(_) => if v.body.List? && SameShell(v, w) { ItemsIff(t, v.body.items, w.body.items, key); }
      case Tuple(_) => if v.body.List? && SameShell(v, w) && |v.body.items| == |t.parts| { ItemsIff(t, v.body.items, w.body.items, key); }
      case SetOf(_) => SetIff(t, v, w, key);
      case MapOf(_) => if v.body.Map? && SameShell(v, w) { FieldsIff(t, v.body.fields, w.body.fields, key); }
      case Object(_) => if v.body.Map? && SameShell(v, w) { FieldsIff(t, v.body.fields, w.body.fields, key); }
      case _ =>
    }
  }

  lemma {:induction false} ItemsIff(t: Type, items: seq<Value>, forms: seq<Value>, key: Key)
    requires OfItems(t, |items|)
    ensures Listed(Items(t, items, key)) == Ok(forms)
       <==> |forms| == |items| && forall i :: 0 <= i < |items| ==> Becomes(ItemType(t, |items|, i), items[i], forms[i], key)
    decreases t, 1
  {
    var results := Items(t, items, key);
    if Listed(results) == Ok(forms) {
      ListedValues(results);
      forall i | 0 <= i < |items| ensures Becomes(ItemType(t, |items|, i), items[i], forms[i], key) {
        assert results[i] == Ok(forms[i]);
        NormalizedIff(ItemType(t, |items|, i), items[i], forms[i], key);
      }
    } else if |forms| == |items| && forall i :: 0 <= i < |items| ==> Becomes(ItemType(t, |items|, i), items[i], forms[i], key) {
      forall i | 0 <= i < |items| ensures results[i] == Ok(forms[i]) {
        NormalizedIff(ItemType(t, |items|, i), items[i], forms[i], key);
      }
      ListedOk(results, forms);
    }
  }

  lemma {:induction false} SetIff(t: Type, v: Value, w: Value, key: Key)
    requires t.SetOf? && !IsNull(v)
    ensures Normalized(t, v, key) == Ok(w) <==> Becomes(t, v, w, key)
    decreases t, 3
  {
    if v.body.List? {
      if Normalized(t, v, key) == Ok(w) {
        var forms := Listed(Items(t, v.body.items, key)).value;
        SetFormsIff(t, v.body.items, forms, key);
        AsSetIsSet(forms, key);
      } else if Becomes(t, v, w, key) {
        var forms: seq<Value> :| IsSetOf(w.body.items, forms, key) && SetForms(t.element, v.body.items, forms, key);
        SetFormsIff(t, v.body.items, forms, key);
        AsSetIsSet(forms, key);
        SetIsUnique(AsSet(forms, key), w.body.items, forms, key);
      }
    }
  }

  lemma {:induction false} SetFormsIff(t: Type, items: seq<Value>, forms: seq<Value>, key: Key)
    requires t.SetOf?
    ensures Listed(Items(t, items, key)) == Ok(forms) <==> SetForms(t.element, items, forms, key)
    decreases t, 2
  {
    ItemsIff(t, items, forms, key);
  }

  /** The field is as its own value or its attribute says. */
  ghost predicate FieldBecomes(t: Type, fields: map<string, Value>, k: string, w: Value, key: Key)
    requires OfFields(t) && HasField(t, fields, k)
    decreases t, 0
  {
    if t.MapOf? then Becomes(t.element, fields[k], w, key)
    else if k in fields then Becomes(t.attributes[k].valueType, fields[k], w, key)
    else if t.attributes[k].default.Some? then Becomes(t.attributes[k].valueType, t.attributes[k].default.value, w, key)
    else t.attributes[k].optional && w == Null
  }

  lemma {:induction false} FieldIff(t: Type, fields: map<string, Value>, k: string, w: Value, key: Key)
    requires OfFields(t) && HasField(t, fields, k)
    ensures Fields(t, fields, key)[k] == Ok(w) <==> FieldBecomes(t, fields, k, w, key)
    decreases t, 2
  {
    if t.MapOf? {
      NormalizedIff(t.element, fields[k], w, key);
    } else if k in fields {
      NormalizedIff(t.attributes[k].valueType, fields[k], w, key);
    } else if t.attributes[k].default.Some? {
      NormalizedIff(t.attributes[k].valueType, t.attributes[k].default.value, w, key);
    }
  }

  lemma {:induction false} FieldsIff(t: Type, fields: map<string, Value>, forms: map<string, Value>, key: Key)
    requires OfFields(t)
    ensures Gathered(Fields(t, fields, key)) == Ok(forms)
       <==> forms.Keys == FieldNames(t, fields) && forall k :: k in forms ==> FieldBecomes(t, fields, k, forms[k], key)
    decreases t, 3
  {
    var results := Fields(t, fields, key);
    if Gathered(results) == Ok(forms) {
      GatheredValues(results);
      forall k | k in forms ensures FieldBecomes(t, fields, k, forms[k], key) {
        assert results[k] == Ok(forms[k]);
        FieldIff(t, fields, k, forms[k], key);
      }
    } else if forms.Keys == FieldNames(t, fields) && forall k :: k in forms ==> FieldBecomes(t, fields, k, forms[k], key) {
      forall k | k in forms ensures results[k] == Ok(forms[k]) { FieldIff(t, fields, k, forms[k], key); }
      GatheredOk(results, forms);
    }
  }

  // ---------------------------------------------------------------- defaults

  /** An object that is normalised without an error has every attribute that was missing: in the normal form
      of its default, which is the default itself if that conforms to its type; or null if it has no default
      and is optional. */
  lemma DefaultsAreFilledIn(attributes: map<string, Attribute>, v: Value, k: string, key: Key)
    requires v.body.Map? && k in attributes && k !in v.body.fields && Normalized(Object(attributes), v, key).Ok?
    ensures var w := Normalized(Object(attributes), v, key).value;
      && w.body.Map? && k in w.body.fields
      && match attributes[k].default
         case Some(d) => Normalized(attributes[k].valueType, d, key) == Ok(w.body.fields[k])
                         && (Conforms(attributes[k].valueType, d, key) ==> w.body.fields[k] == d)
         case None => attributes[k].optional && w.body.fields[k] == Null
  {
    var w := Normalized(Object(attributes), v, key).value;
    NormalizedIff(Object(attributes), v, w, key);
    if attributes[k].default.Some? {
      NormalizedIff(attributes[k].valueType, attributes[k].default.value, w.body.fields[k], key);
      NormalizingTwice(attributes[k].valueType, attributes[k].default.value, key);
    }
  }

  // ---------------------------------------------------------------- errors

  /** The value, or a part of it, or a default that stands for a part of it, does not fit its type in the way
      that the error says. */
  ghost predicate Faulty(t: Type, v: Value, e: InputError, key: Key)
    decreases t, 0
  {
    !IsNull(v) &&
    match t
    case Any => false
    case Text => !IsLeaf(v, "string") && e == WrongKind(t)
    case Number => !IsLeaf(v, "number") && e == WrongKind(t)
    case Boolean => !IsLeaf(v, "bool") && e == WrongKind(t)
    case ListOf(p) => if !v.body.List? then e == WrongKind(t) else exists i :: 0 <= i < |v.body.items| && Faulty(p, v.body.items[i], e, key)
    case SetOf(p) => if !v.body.List? then e == WrongKind(t) else exists i :: 0 <= i < |v.body.items| && Faulty(p, v.body.items[i], e, key)
    case Tuple(parts) =>
      if !v.body.List? then e == WrongKind(t)
      else if |v.body.items| != |parts| then e == WrongLength
      else exists i :: 0 <= i < |parts| && Faulty(parts[i], v.body.items[i], e, key)
    case MapOf(p) => if !v.body.Map? then e == WrongKind(t) else exists k :: k in v.body.fields && Faulty(p, v.body.fields[k], e, key)
    case Object(attributes) =>
      if !v.body.Map? then e == WrongKind(t)
      else if !(v.body.fields.Keys <= attributes.Keys) then e == UnsupportedAttribute
      else exists k :: k in attributes && AttributeFaulty(attributes[k], v.body.fields, k, e, key)
    case OtherType => e == UnsupportedType
  }

  /** What is there does not fit, or the default does not, or there is neither although there has to be. */
  ghost predicate AttributeFaulty(a: Attribute, fields: map<string, Value>, k: string, e: InputError, key: Key)
    decreases a.valueType, 1
  {
    if k in fields then Faulty(a.valueType, fields[k], e, key)
    else if a.default.Some? then Faulty(a.valueType, a.default.value, e, key)
    else !a.optional && e == MissingAttribute(k)
  }

  lemma {:induction false} ListedError(results: seq<Outcome>) returns (i: nat)
    requires Listed(results).Err?
    ensures i < |results| && results[i].Err? && results[i].error == Listed(results).error
  {
    var front := results[..|results| - 1];
    if Listed(front).Err? { i := ListedError(front); } else { i := |results| - 1; }
  }

  /** What an error says is so. */
  lemma {:induction false} ErrorsAreTrue(t: Type, v: Value, key: Key)
    requires Normalized(t, v, key).Err?
    ensures Faulty(t, v, Normalized(t, v, key).error, key)
    decreases t, 1
  {
    match t
    case ListOf(_) => if v.body.List? { ItemError(t, v.body.items, key); }
    case SetOf(_) => if v.body.List? { ItemError(t, v.body.items, key); }
    case Tuple(parts) => if v.body.List? && |v.body.items| == |parts| { ItemError(t, v.body.items, key); }
    case MapOf(_) => if v.body.Map? { FieldError(t, v.body.fields, key); }
    case Object(attributes) => if v.body.Map? && v.body.fields.Keys <= attributes.Keys { FieldError(t, v.body.fields, key); }
    case _ =>
  }

  lemma {:induction false} ItemError(t: Type, items: seq<Value>, key: Key)
    requires OfItems(t, |items|) && Listed(Items(t, items, key)).Err?
    ensures exists i :: 0 <= i < |items| && Faulty(ItemType(t, |items|, i), items[i], Listed(Items(t, items, key)).error, key)
    decreases t, 0
  {
    var i := ListedError(Items(t, items, key));
    ErrorsAreTrue(ItemType(t, |items|, i), items[i], key);
  }

  ghost predicate FieldFaulty(t: Type, fields: map<string, Value>, k: string, e: InputError, key: Key)
    requires OfFields(t) && HasField(t, fields, k)
  {
    if t.MapOf? then Faulty(t.element, fields[k], e, key) else AttributeFaulty(t.attributes[k], fields, k, e, key)
  }

  lemma {:induction false} FieldError(t: Type, fields: map<string, Value>, key: Key)
    requires OfFields(t) && Gathered(Fields(t, fields, key)).Err?
    ensures exists k :: k in FieldNames(t, fields) && FieldFaulty(t, fields, k, Gathered(Fields(t, fields, key)).error, key)
    decreases t, 0
  {
    var results := Fields(t, fields, key);
    var k := First(Bad(results));
    if t.MapOf? {
      ErrorsAreTrue(t.element, fields[k], key);
    } else if k in fields {
      ErrorsAreTrue(t.attributes[k].valueType, fields[k], key);
    } else if t.attributes[k].default.Some? {
      ErrorsAreTrue(t.attributes[k].valueType, t.attributes[k].default.value, key);
    }
    assert FieldFaulty(t, fields, k, Gathered(results).error, key);
  }

  /** A value with a fault has no normal form. */
  lemma {:induction false} FaultyHasNoForm(t: Type, v: Value, e: InputError, w: Value, key: Key)
    requires Faulty(t, v, e, key)
    ensures !Becomes(t, v, w, key)
    decreases t
  {
    if Becomes(t, v, w, key) {
      match t
      case ListOf(p) =>
        var i :| 0 <= i < |v.body.items| && Faulty(p, v.body.items[i], e, key);
        FaultyHasNoForm(p, v.body.items[i], e, w.body.items[i], key);
      case SetOf(p) =>
        var i :| 0 <= i < |v.body.items| && Faulty(p, v.body.items[i], e, key);
        var forms: seq<Value> :| IsSetOf(w.body.items, forms, key) && SetForms(p, v.body.items, forms, key);
        FaultyHasNoForm(p, v.body.items[i], e, forms[i], key);
      case Tuple(parts) =>
        var i :| 0 <= i < |parts| && Faulty(parts[i], v.body.items[i], e, key);
        FaultyHasNoForm(parts[i], v.body.items[i], e, w.body.items[i], key);
      case MapOf(p) =>
        var k :| k in v.body.fields && Faulty(p, v.body.fields[k], e, key);
        FaultyHasNoForm(p, v.body.fields[k], e, w.body.fields[k], key);
      case Object(attributes) =>
        var k :| k in attributes && AttributeFaulty(attributes[k], v.body.fields, k, e, key);
        var given := if k in v.body.fields then v.body.fields[k] else attributes[k].default.value;
        FaultyHasNoForm(attributes[k].valueType, given, e, w.body.fields[k], key);
    }
  }
}
