/** Sequences without repetition, byte-wise string order and stable sorting: the parts of the Go
    helpers and of its `sort` package that results depend on. */
module Lists {
  predicate Differ<T(==)>(s: seq<T>, i: int, j: int)
    requires 0 <= i < j < |s|
  {
    s[i] != s[j]
  }

  /** No element occurs twice. */
  predicate NoDup<T(==)>(s: seq<T>) {
    forall i, j {:trigger Differ(s, i, j)} :: 0 <= i < j < |s| ==> Differ(s, i, j)
  }

  lemma NoDupAt<T>(s: seq<T>, i: int, j: int)
    requires NoDup(s) && 0 <= i < |s| && 0 <= j < |s| && s[i] == s[j]
    ensures i == j
  {
    assert i < j ==> Differ(s, i, j);
    assert j < i ==> Differ(s, j, i);
  }

  lemma NoDupAppend<T>(s: seq<T>, x: T)
    ensures NoDup(s + [x]) <==> NoDup(s) && x !in s
  {
    if NoDup(s + [x]) {
      forall i, j | 0 <= i < j < |s| ensures Differ(s, i, j) { assert Differ(s + [x], i, j); }
      forall i | 0 <= i < |s| ensures s[i] != x { assert Differ(s + [x], i, |s|); }
    } else {
      var i, j :| 0 <= i < j < |s| + 1 && !Differ(s + [x], i, j);
      if j < |s| { assert !Differ(s, i, j); } else { assert s[i] == x; }
    }
  }

  lemma NoDupTail<T>(s: seq<T>)
    requires s != []
    ensures NoDup(s) <==> NoDup(s[1..]) && s[0] !in s[1..]
  {
    if NoDup(s) {
      forall i, j | 0 <= i < j < |s| - 1 ensures Differ(s[1..], i, j) { assert Differ(s, i + 1, j + 1); }
      forall i | 0 <= i < |s| - 1 ensures s[1..][i] != s[0] { assert Differ(s, 0, i + 1); }
    } else {
      var i, j :| 0 <= i < j < |s| && !Differ(s, i, j);
      if i > 0 { assert !Differ(s[1..], i - 1, j - 1); } else { assert s[1..][j - 1] == s[0]; }
    }
  }

  lemma NoDupJoined<T>(a: seq<T>, b: seq<T>)
    requires NoDup(a) && NoDup(b) && forall x :: x in a ==> x !in b
    ensures NoDup(a + b)
  {
    forall i, j | 0 <= i < j < |a + b| ensures Differ(a + b, i, j) {
      if j < |a| { assert Differ(a, i, j); } else if i >= |a| { assert Differ(b, i - |a|, j - |a|); } else { assert a[i] in a; }
    }
  }

  lemma NoDupParts<T>(a: seq<T>, b: seq<T>)
    requires NoDup(a + b)
    ensures NoDup(a) && NoDup(b) && forall x :: x in a ==> x !in b
  {
    forall i, j | 0 <= i < j < |a| ensures Differ(a, i, j) { assert Differ(a + b, i, j); }
    forall i, j | 0 <= i < j < |b| ensures Differ(b, i, j) { assert Differ(a + b, |a| + i, |a| + j); }
    forall i, j | 0 <= i < |a| && 0 <= j < |b| ensures a[i] != b[j] { assert Differ(a + b, i, |a| + j); }
  }

  function Elems<T>(s: seq<T>): set<T> { set x | x in s }

  // ---------------------------------------------------------------- first occurrences

  function FirstIndex<T(==)>(s: seq<T>, a: T): (i: nat)
    requires a in s
    ensures i < |s| && s[i] == a && a !in s[..i]
  {
    if s[0] == a then 0 else
      var i := 1 + FirstIndex(s[1..], a);
      assert s[..i] == [s[0]] + s[1..][..i - 1];
      i
  }

  lemma FirstIndexIn<T>(s: seq<T>, k: nat, a: T)
    requires k <= |s| && a in s[..k]
    ensures a in s && FirstIndex(s, a) < k
  {
    var i := FirstIndex(s, a);
    assert forall j :: 0 <= j < i ==> s[j] in s[..i];
  }

  /** The sequence with every element that repeats an earlier one, or that is in `seen`, left out. */
  function Firsts<T(==)>(s: seq<T>, seen: set<T>): (r: seq<T>)
    ensures NoDup(r)
    ensures Elems(r) == Elems(s) - seen
  {
    if s == [] then []
    else if s[0] in seen then
      assert Elems(s) == {s[0]} + Elems(s[1..]);
      Firsts(s[1..], seen)
    else
      var rest := Firsts(s[1..], seen + {s[0]});
      assert Elems(s) == {s[0]} + Elems(s[1..]);
      assert Elems([s[0]] + rest) == {s[0]} + Elems(rest);
      assert s[0] !in Elems(rest) && ([s[0]] + rest)[1..] == rest;
      NoDupTail([s[0]] + rest);
      [s[0]] + rest
  }

  lemma {:induction false} FirstsAppend<T>(a: seq<T>, b: seq<T>, seen: set<T>)
    ensures Firsts(a + b, seen) == Firsts(a, seen) + Firsts(b, seen + Elems(a))
  {
    if a == [] {
      assert a + b == b && seen + Elems(a) == seen;
    } else {
      assert (a + b)[1..] == a[1..] + b;
      var grown := seen + {a[0]};
      assert grown + Elems(a[1..]) == seen + Elems(a) by { assert Elems(a) == {a[0]} + Elems(a[1..]); }
      if a[0] in seen { assert grown == seen; }
      FirstsAppend(a[1..], b, grown);
    }
  }

  lemma {:induction false} FirstsOfDistinct<T>(s: seq<T>, seen: set<T>)
    requires NoDup(s) && Elems(s) !! seen
    ensures Firsts(s, seen) == s
  {
    if s != [] {
      NoDupTail(s);
      assert s[0] in Elems(s);
      assert forall x :: x in s[1..] ==> x in Elems(s);
      FirstsOfDistinct(s[1..], seen + {s[0]});
    }
  }

  /** Leaving out twice is leaving out once. */
  lemma {:induction false} FirstsTwice<T>(s: seq<T>, inner: set<T>, outer: set<T>)
    requires inner <= outer
    ensures Firsts(Firsts(s, inner), outer) == Firsts(s, outer)
  {
    if s != [] {
      if s[0] in inner {
        FirstsTwice(s[1..], inner, outer);
      } else {
        var rest := Firsts(s[1..], inner + {s[0]});
        assert Firsts(s, inner)[0] == s[0] && Firsts(s, inner)[1..] == rest;
        FirstsTwice(s[1..], inner + {s[0]}, outer + {s[0]});
        if s[0] in outer { assert outer + {s[0]} == outer; }
      }
    }
  }

  // ---------------------------------------------------------------- string order

  /** `<` on Go strings */
  predicate Less(a: string, b: string) {
    b != [] && (a == [] || a[0] < b[0] || (a[0] == b[0] && Less(a[1..], b[1..])))
  }

  predicate AtMost(a: string, b: string) { !Less(b, a) }

  lemma {:induction false} LessTotal(a: string, b: string)
    ensures a == b || Less(a, b) || Less(b, a)
  {
    if a != [] && b != [] && a[0] == b[0] {
      LessTotal(a[1..], b[1..]);
      assert a == [a[0]] + a[1..] && b == [b[0]] + b[1..];
    }
  }

  lemma {:induction false} LessTransitive(a: string, b: string, c: string)
    requires Less(a, b) && Less(b, c)
    ensures Less(a, c)
  {
    if a != [] && a[0] == b[0] == c[0] { LessTransitive(a[1..], b[1..], c[1..]); }
  }

  lemma {:induction false} LessIrreflexive(a: string)
    ensures !Less(a, a)
  {
    if a != [] { LessIrreflexive(a[1..]); }
  }

  lemma LessAsymmetric(a: string, b: string)
    requires Less(a, b)
    ensures AtMost(a, b)
  {
    if Less(b, a) { LessTransitive(a, b, a); LessIrreflexive(a); }
  }

  lemma AtMostTransitive(a: string, b: string, c: string)
    requires AtMost(a, b) && AtMost(b, c)
    ensures AtMost(a, c)
  {
    if Less(c, a) {
      LessTotal(a, b);
      if Less(a, b) { LessTransitive(c, a, b); }
    }
  }

  // ---------------------------------------------------------------- sorting

  predicate Ascending(keys: seq<string>) { forall i, j :: 0 <= i < j < |keys| ==> AtMost(keys[i], keys[j]) }

  predicate StrictlyAscending(keys: seq<string>) { forall i, j :: 0 <= i < j < |keys| ==> Less(keys[i], keys[j]) }

  function Keys<T>(s: seq<T>, key: T -> string): (r: seq<string>)
    ensures |r| == |s| && forall i :: 0 <= i < |s| ==> r[i] == key(s[i])
  {
    seq(|s|, i requires 0 <= i < |s| => key(s[i]))
  }

  /** Puts `x` in front of the first element whose key is not below its own. */
  function Insert<T>(x: T, s: seq<T>, key: T -> string): (r: seq<T>)
    ensures multiset(r) == multiset(s) + multiset{x}
  {
    if s == [] then [x]
    else if AtMost(key(x), key(s[0])) then
      [x] + s
    else
      assert s == [s[0]] + s[1..];
      [s[0]] + Insert(x, s[1..], key)
  }

  /** `sort.SliceStable` by key */
  function SortBy<T>(s: seq<T>, key: T -> string): (r: seq<T>)
    ensures multiset(r) == multiset(s)
  {
    if s == [] then [] else
      assert s == [s[0]] + s[1..];
      Insert(s[0], SortBy(s[1..], key), key)
  }

  lemma SameMembers<T>(a: seq<T>, b: seq<T>)
    requires multiset(a) == multiset(b)
    ensures |a| == |b| && Elems(a) == Elems(b)
  {
    assert |a| == |multiset(a)| && |b| == |multiset(b)|;
    forall x ensures x in a <==> x in b {
      assert x in a <==> x in multiset(a);
      assert x in b <==> x in multiset(b);
    }
  }

  lemma PrependAscending<T>(x: T, s: seq<T>, key: T -> string)
    requires Ascending(Keys(s, key))
    requires forall y :: y in s ==> AtMost(key(x), key(y))
    ensures Ascending(Keys([x] + s, key))
  {
    var keys := Keys([x] + s, key);
    forall i, j | 0 <= i < j < |keys| ensures AtMost(keys[i], keys[j]) {
      assert s[j - 1] in s;
      if i > 0 { assert AtMost(Keys(s, key)[i - 1], Keys(s, key)[j - 1]); }
    }
  }

  lemma HeadAtMost<T>(s: seq<T>, key: T -> string, y: T)
    requires Ascending(Keys(s, key)) && y in s
    ensures AtMost(key(s[0]), key(y))
  {
    var i :| 0 <= i < |s| && s[i] == y;
    if i == 0 { LessIrreflexive(key(y)); } else { assert AtMost(Keys(s, key)[0], Keys(s, key)[i]); }
  }

  lemma {:induction false} InsertAscending<T>(x: T, s: seq<T>, key: T -> string)
    requires Ascending(Keys(s, key))
    ensures Ascending(Keys(Insert(x, s, key), key))
  {
    if s == [] {
    } else if AtMost(key(x), key(s[0])) {
      forall y | y in s ensures AtMost(key(x), key(y)) {
        HeadAtMost(s, key, y);
        AtMostTransitive(key(x), key(s[0]), key(y));
      }
      PrependAscending(x, s, key);
    } else {
      LessAsymmetric(key(s[0]), key(x));
      assert Keys(s[1..], key) == Keys(s, key)[1..];
      InsertAscending(x, s[1..], key);
      var rest := Insert(x, s[1..], key);
      forall y | y in rest ensures AtMost(key(s[0]), key(y)) {
        assert y in multiset(rest);
        if y != x { assert y in s[1..]; HeadAtMost(s, key, y); }
      }
      PrependAscending(s[0], rest, key);
    }
  }

  lemma {:induction false} SortAscending<T>(s: seq<T>, key: T -> string)
    ensures Ascending(Keys(SortBy(s, key), key))
  {
    if s != [] {
      SortAscending(s[1..], key);
      InsertAscending(s[0], SortBy(s[1..], key), key);
    }
  }

  lemma {:induction false} SortOfAscending<T>(s: seq<T>, key: T -> string)
    requires Ascending(Keys(s, key))
    ensures SortBy(s, key) == s
  {
    if s != [] {
      var keys := Keys(s, key);
      assert Keys(s[1..], key) == keys[1..];
      SortOfAscending(s[1..], key);
      if |s| > 1 { assert AtMost(keys[0], keys[1]); }
    }
  }

  /** Strictly ascending sequences with the same elements are the same sequence. */
  lemma {:induction false} AscendingUnique(a: seq<string>, b: seq<string>)
    requires StrictlyAscending(a) && StrictlyAscending(b) && Elems(a) == Elems(b)
    ensures a == b
  {
    if a == [] {
      assert forall x :: x in b ==> x in Elems(b);
    } else {
      assert a[0] in Elems(a);
      var i :| 0 <= i < |b| && b[i] == a[0];
      assert b[0] in Elems(b);
      var j :| 0 <= j < |a| && a[j] == b[0];
      if i > 0 && j > 0 { LessTransitive(a[0], b[0], a[0]); LessIrreflexive(a[0]); }
      if i > 0 && j == 0 { LessIrreflexive(a[0]); }
      assert b[0] == a[0];
      forall x ensures x in a[1..] <==> x in b[1..] {
        LessIrreflexive(a[0]);
        assert x in Elems(a) <==> x in Elems(b);
        if x in a[1..] { assert x in a; assert x in b; assert x != a[0]; }
        if x in b[1..] { assert x in b; assert x in a; assert x != b[0]; }
      }
      assert Elems(a[1..]) == Elems(b[1..]);
      AscendingUnique(a[1..], b[1..]);
      assert a == [a[0]] + a[1..] && b == [b[0]] + b[1..];
    }
  }

  lemma AscendingHasNoRepeats(keys: seq<string>)
    requires StrictlyAscending(keys)
    ensures NoDup(keys)
  {
    forall i, j | 0 <= i < j < |keys| ensures Differ(keys, i, j) {
      assert Less(keys[i], keys[j]);
      LessIrreflexive(keys[i]);
    }
  }

  lemma AscendingWithoutRepeats(keys: seq<string>)
    requires Ascending(keys) && NoDup(keys)
    ensures StrictlyAscending(keys)
  {
    forall i, j | 0 <= i < j < |keys| ensures Less(keys[i], keys[j]) {
      assert Differ(keys, i, j);
      LessTotal(keys[i], keys[j]);
    }
  }

  // ---------------------------------------------------------------- the Go helpers

  function Itself(a: string): string { a }

  /** The strings of a set in their order: `sortedKeys` */
  method SortedSet(names: set<string>) returns (keys: seq<string>)
    ensures StrictlyAscending(keys) && NoDup(keys) && forall k :: k in keys <==> k in names
  {
    var found: seq<string> := [];
    var left := names;
    while left != {}
      invariant left <= names && NoDup(found) && forall k :: k in found <==> k in names && k !in left
      decreases left
    {
      var k :| k in left;
      left := left - {k};
      NoDupAppend(found, k);
      found := found + [k];
    }
    keys := SortBy(found, Itself);
    SortAscending(found, Itself);
    assert Keys(keys, Itself) == keys;
    SameMembers(keys, found);
    assert forall k :: k in keys <==> k in Elems(keys);
    SortedHasNoRepeats(found, keys);
    AscendingWithoutRepeats(keys);
  }

  lemma SortedHasNoRepeats(found: seq<string>, keys: seq<string>)
    requires NoDup(found) && multiset(keys) == multiset(found)
    ensures NoDup(keys)
  {
    forall i, j | 0 <= i < j < |keys| ensures Differ(keys, i, j) {
      if keys[i] == keys[j] {
        TwiceInMultiset(keys, i, j);
        OnceInMultiset(found, keys[i]);
      }
    }
  }

  lemma TwiceInMultiset(s: seq<string>, i: nat, j: nat)
    requires i < j < |s| && s[i] == s[j]
    ensures multiset(s)[s[i]] >= 2
  {
    assert s == s[..i] + [s[i]] + s[i + 1..j] + [s[j]] + s[j + 1..];
  }

  lemma {:induction false} OnceInMultiset(s: seq<string>, x: string)
    requires NoDup(s)
    ensures multiset(s)[x] <= 1
  {
    if s != [] {
      NoDupTail(s);
      OnceInMultiset(s[1..], x);
      assert s == [s[0]] + s[1..];
      assert multiset(s) == multiset{s[0]} + multiset(s[1..]);
    }
  }

  /** `dedupeStrings`: first occurrences, without the empty string. */
  function Dedupe(values: seq<string>): (r: seq<string>)
    ensures NoDup(r) && Elems(r) == Elems(values) - {""}
  {
    Firsts(values, {""})
  }

  lemma DedupeHas(values: seq<string>, d: string)
    ensures d in Dedupe(values) <==> d in values && d != ""
  {
    assert d in Elems(Dedupe(values)) <==> d in Elems(values) - {""};
  }

  method DedupeStrings(values: seq<string>) returns (out: seq<string>)
    ensures out == Dedupe(values)
  {
    out := [];
    var seen: set<string> := {};
    for i := 0 to |values|
      invariant seen + {""} == Elems(values[..i]) + {""}
      invariant out == Firsts(values[..i], {""})
    {
      var value := values[i];
      FirstsAppend(values[..i], [value], {""});
      assert values[..i + 1] == values[..i] + [value];
      assert Elems(values[..i + 1]) == Elems(values[..i]) + {value};
      if value == "" || value in seen {
        continue;
      }
      seen := seen + {value};
      out := out + [value];
    }
    assert values[..|values|] == values;
  }
}
