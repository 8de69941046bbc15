/** Sums over sequences. */
module Tallies {
  function Tally(s: seq<nat>): nat { if s == [] then 0 else s[0] + Tally(s[1..]) }

  lemma {:induction false} TallyUpdate(s: seq<nat>, i: nat, x: nat)
    requires i < |s|
    ensures Tally(s[i := x]) + s[i] == Tally(s) + x
  {
    if i == 0 {
      assert s[i := x][1..] == s[1..];
    } else {
      assert s[i := x][1..] == s[1..][i - 1 := x];
      TallyUpdate(s[1..], i - 1, x);
    }
  }

  lemma {:induction false} TallyAtLeast(s: seq<nat>, i: nat)
    requires i < |s|
    ensures s[i] <= Tally(s)
  {
    if i > 0 { TallyAtLeast(s[1..], i - 1); }
  }

  /** Two terms together are at most the sum. */
  lemma {:induction false} TallyAtLeastBoth(s: seq<nat>, i: nat, j: nat)
    requires i < j < |s|
    ensures s[i] + s[j] <= Tally(s)
  {
    if i == 0 { TallyAtLeast(s[1..], j - 1); } else { TallyAtLeastBoth(s[1..], i - 1, j - 1); }
  }

  lemma {:induction false} TallyOfZeros(s: seq<nat>)
    requires forall i :: 0 <= i < |s| ==> s[i] == 0
    ensures Tally(s) == 0
  {
    if s != [] { TallyOfZeros(s[1..]); }
  }

  /** There are no more positive terms than the sum. */
  lemma {:induction false} CountAtMostTally(s: seq<nat>, some: set<nat>)
    requires forall i :: i in some ==> i < |s| && s[i] >= 1
    ensures |some| <= Tally(s)
    decreases |some|
  {
    if some != {} {
      var i :| i in some;
      TallyUpdate(s, i, 0);
      CountAtMostTally(s[i := 0], some - {i});
    }
  }
}
