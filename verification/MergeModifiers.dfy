/** What the modifiers of an overlay do, field by field, and what the errors of merging say. */
module MergeModifiers {
  import opened Wrappers
  import opened Lists
  import opened MergeValues

  predicate IsMap(v: Option<Value>) { v.Some? && v.value.body.Map? }

  predicate IsList(v: Option<Value>) { v.Some? && v.value.body.List? }

  /** What becomes of a field of the base under a field of the overlay. An unset removes it; a forced value
      takes its place whatever it was; two maps are merged; two lists are joined, the overlay in front of the
      base if it says before, and behind it otherwise; and anything else is the overlay's. */
  ghost predicate FieldBecomes(base: Option<Value>, overlay: Value, r: Option<Value>, key: Key) {
    if overlay.modifier.Unset? then r == None
    else if overlay.modifier.Force? then r == Some(WithoutModifier(overlay))
    else if IsMap(base) && overlay.body.Map? then r.Some? && MergeValue(base, overlay, key) == Ok(Kept(r.value))
    else if IsList(base) && overlay.body.List? then
      r.Some? && r.value.modifier.Plain? && r.value.body.List?
      && if overlay.modifier.Before? then Joins(r.value.body.items, overlay.body.items, base.value.body.items, key)
         else Joins(r.value.body.items, base.value.body.items, overlay.body.items, key)
    else r == Some(WithoutModifier(overlay))
  }

  /** `items` are those of `first`, and then those of `second`, of each key the first one. */
  ghost predicate Joins(items: seq<Value>, first: seq<Value>, second: seq<Value>, key: Key) {
    && NoDup(Keys(items, key))
    && (forall k :: k in Keys(items, key) <==> k in Keys(first, key) || k in Keys(second, key))
    && exists n :: 0 <= n <= |items| && Picked(items[..n], first, {}, key) && Picked(items[n..], second, KeySet(first, key), key)
  }

  /** `items` are some of `from`, in their order: the first of each key that is not among `others`. */
  predicate Picked(items: seq<Value>, from: seq<Value>, others: set<string>, key: Key) {
    if from == [] then items == []
    else if key(from[0]) in others then Picked(items, from[1..], others, key)
    else items != [] && items[0] == from[0] && Picked(items[1..], from[1..], others + {key(from[0])}, key)
  }

  lemma {:induction false} DistinctIsPicked(from: seq<Value>, others: set<string>, key: Key)
    ensures Picked(Distinct(from, key, others), from, others, key)
  {
    if from != [] {
      if key(from[0]) in others {
        DistinctIsPicked(from[1..], others, key);
      } else {
        DistinctIsPicked(from[1..], others + {key(from[0])}, key);
        assert Distinct(from, key, others)[1..] == Distinct(from[1..], key, others + {key(from[0])});
      }
    }
  }

  lemma {:induction false} DistinctHasNoRepeats(from: seq<Value>, others: set<string>, key: Key)
    ensures NoDup(Keys(Distinct(from, key, others), key))
    ensures forall k :: k in Keys(Distinct(from, key, others), key) <==> k in Keys(from, key) && k !in others
  {
    if from != [] {
      var k := key(from[0]);
      assert Keys(from, key) == [k] + Keys(from[1..], key);
      DistinctHasNoRepeats(from[1..], if k in others then others else others + {k}, key);
      if k !in others {
        var rest := Distinct(from[1..], key, others + {k});
        assert Keys([from[0]] + rest, key) == [k] + Keys(rest, key);
        NoDupJoined([k], Keys(rest, key));
      }
    }
  }

  lemma AppendedKeys(first: seq<Value>, second: seq<Value>, key: Key)
    ensures NoDup(Keys(Appended(first, second, key), key))
    ensures forall k :: k in Keys(Appended(first, second, key), key) <==> k in Keys(first, key) || k in Keys(second, key)
  {
    DistinctHasNoRepeats(first + second, {}, key);
    assert Keys(first + second, key) == Keys(first, key) + Keys(second, key);
  }

  lemma AppendedParts(first: seq<Value>, second: seq<Value>, key: Key) returns (n: nat)
    ensures n <= |Appended(first, second, key)|
    ensures Appended(first, second, key)[..n] == Distinct(first, key, {})
    ensures Appended(first, second, key)[n..] == Distinct(second, key, KeySet(first, key))
  {
    DistinctJoin(first, second, key, {});
    assert {} + KeySet(first, key) == KeySet(first, key);
    n := |Distinct(first, key, {})|;
  }

  lemma AppendedJoins(first: seq<Value>, second: seq<Value>, key: Key)
    ensures Joins(Appended(first, second, key), first, second, key)
  {
    AppendedKeys(first, second, key);
    var n := AppendedParts(first, second, key);
    DistinctIsPicked(first, {}, key);
    DistinctIsPicked(second, KeySet(first, key), key);
    var items := Appended(first, second, key);
    assert Picked(items[..n], first, {}, key) && Picked(items[n..], second, KeySet(first, key), key);
  }

  /** Merging two maps: every field becomes what the two fields say, a field that the overlay does not have is
      the base's, and the labels are those of both, each once, in the order of their first mention. */
  lemma FieldsOfMerge(base: Value, overlay: Value, key: Key, k: string)
    requires base.body.Map? && overlay.body.Map? && !overlay.modifier.Unset? && !overlay.modifier.Force?
    requires MergeValue(Some(base), overlay, key).Ok?
    ensures var r := MergeValue(Some(base), overlay, key).value;
      && r.Kept? && r.value.modifier.Plain? && r.value.body.Map? && r.value.body.order == MapOrder(base.body.order, overlay.body.order)
      && if k in overlay.body.fields
         then FieldBecomes(Field(base.body.fields, k), overlay.body.fields[k], Field(r.value.body.fields, k), key)
         else Field(r.value.body.fields, k) == Field(base.body.fields, k)
  {
    var results := ResultsOf(base.body.fields, overlay, key);
    MergeOfMapsWith(base, overlay, key);
    if k in overlay.body.fields {
      assert k !in Failing(results);
      OneField(Field(base.body.fields, k), overlay.body.fields[k], key);
    }
  }

  lemma MergeOfMapsWith(base: Value, overlay: Value, key: Key)
    requires base.body.Map? && overlay.body.Map? && !overlay.modifier.Unset? && !overlay.modifier.Force?
    ensures MergeValue(Some(base), overlay, key) == match Combined(base.body.fields, ResultsOf(base.body.fields, overlay, key))
      case Err(e) => Err(e)
      case Ok(fields) => Ok(Kept(Value(Map(fields, MapOrder(base.body.order, overlay.body.order)), Plain)))
  {
    var results: Results := map k | k in overlay.body.fields :: MergeValue(Field(base.body.fields, k), overlay.body.fields[k], key);
    assert results == ResultsOf(base.body.fields, overlay, key);
  }

  lemma OneField(base: Option<Value>, overlay: Value, key: Key)
    requires MergeValue(base, overlay, key).Ok?
    ensures FieldBecomes(base, overlay, match MergeValue(base, overlay, key).value { case Removed => None case Kept(v) => Some(v) }, key)
  {
    if IsList(base) && overlay.body.List? {
      AppendedJoins(overlay.body.items, base.value.body.items, key);
      AppendedJoins(base.value.body.items, overlay.body.items, key);
    } else if IsMap(base) && overlay.body.Map? && !overlay.modifier.Unset? && !overlay.modifier.Force? {
      MergeOfMapsWith(base.value, overlay, key);
    }
  }

  // ---------------------------------------------------------------- errors

  /** An unset of a list, or a side named for something that is no list, here or in a field of two maps that
      are merged. */
  ghost predicate Faulty(base: Option<Value>, overlay: Value, e: MergeError)
    decreases overlay
  {
    match overlay.modifier
    case Unset(path) => (IsList(base) || IsKnownListPath(path)) && e == UnsetList(path)
    case Force => false
    case _ =>
      if IsMap(base) && overlay.body.Map? then
        exists k :: k in overlay.body.fields && Faulty(Field(base.value.body.fields, k), overlay.body.fields[k], e)
      else !overlay.modifier.Plain? && !overlay.body.List? && e == ModifierNeedsList
  }

  /** Merging fails exactly if there is such a fault, and then with one that is there. */
  lemma {:induction false} FailsIffFaulty(base: Option<Value>, overlay: Value, key: Key)
    ensures MergeValue(base, overlay, key).Err? ==> Faulty(base, overlay, MergeValue(base, overlay, key).error)
    ensures forall e :: Faulty(base, overlay, e) ==> MergeValue(base, overlay, key).Err?
    decreases overlay
  {
    if IsMap(base) && overlay.body.Map? && !overlay.modifier.Unset? && !overlay.modifier.Force? {
      var f, g := base.value.body.fields, overlay.body.fields;
      var results := ResultsOf(f, overlay, key);
      MergeOfMapsWith(base.value, overlay, key);
      forall k | k in g
        ensures results[k].Err? ==> Faulty(Field(f, k), g[k], results[k].error)
        ensures forall e :: Faulty(Field(f, k), g[k], e) ==> k in Failing(results)
      {
        FailsIffFaulty(Field(f, k), g[k], key);
      }
    }
  }
}
