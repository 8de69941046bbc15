/** Turning some edges of an acyclic graph around. `exec` is a part of `whole`, renamed by `base`,
    in which a resource that is `gone` is waited for by nothing that depends on it, but waits for it. */
module Turning {
  import opened Digraph

  datatype Turn = Turn(whole: Graph, exec: Graph, ops: set<string>, gone: set<string>, base: map<string, string>)

  /** The direction is that of `whole`, unless a resource that is gone waits for one that depends on it.
      Nothing but operations waits for what is gone, and what is gone waits for no operation. */
  ghost predicate EdgeLaw(t: Turn, a: string, d: string)
    requires a in t.base && d in t.base
  {
    if a in t.ops then HasEdge(t.whole, t.base[a], t.base[d])
    else
      || (a in t.gone && d !in t.ops && HasEdge(t.whole, t.base[d], t.base[a]))
      || (d !in t.gone && (a in t.gone ==> d !in t.ops) && HasEdge(t.whole, t.base[a], t.base[d]))
  }

  ghost predicate Law(t: Turn) {
    && t.base.Keys == t.exec.Keys && t.gone !! t.ops && t.gone <= t.exec.Keys
    && (forall a :: a in t.exec ==> t.base[a] in t.whole)
    && (forall a, d :: HasEdge(t.exec, a, d) ==> d in t.exec && EdgeLaw(t, a, d))
  }

  /** A path of operations that ends in a resource that is gone. */
  ghost predicate Taint(t: Turn, p: seq<string>) {
    && IsPath(t.exec, p) && |p| > 1 && p[|p| - 1] in t.gone
    && forall i :: 0 <= i < |p| - 1 ==> p[i] in t.ops
  }

  /** Through operations only, `o` waits for a resource that is gone. */
  ghost predicate Tainted(t: Turn, o: string) { exists p :: Taint(t, p) && p[0] == o }

  /** No resource that stays waits for an operation that, through operations, waits for one that goes. */
  ghost predicate Untangled(t: Turn) {
    forall n, o :: HasEdge(t.exec, n, o) && n !in t.ops && n !in t.gone && o in t.ops ==> !Tainted(t, o)
  }

  lemma TaintSpreads(t: Turn, a: string, d: string)
    requires Law(t) && a in t.ops && HasEdge(t.exec, a, d) && (d in t.gone || Tainted(t, d))
    ensures Tainted(t, a)
  {
    if d in t.gone {
      assert Taint(t, [a, d]);
    } else {
      var p :| Taint(t, p) && p[0] == d;
      var q := [a] + p;
      forall i | 0 <= i < |q| - 1 ensures q[i] in t.exec && q[i + 1] in t.exec[q[i]] && q[i] in t.ops {
        if i > 0 { assert p[i - 1 + 1] in t.exec[p[i - 1]]; }
      }
      assert Taint(t, q);
    }
  }

  lemma {:induction false} Bounded(r: map<string, nat>, keys: set<string>) returns (top: nat)
    requires keys <= r.Keys
    ensures forall a :: a in keys ==> r[a] < top
  {
    if keys == {} { top := 0; } else {
      var a :| a in keys;
      top := Bounded(r, keys - {a});
      if r[a] >= top { top := r[a] + 1; }
    }
  }

  /** The hypothesis cannot be dropped: a resource that stays cannot depend on one that goes and wait
      for an operation that waits for it to be gone. */
  lemma TangledIsCyclic(t: Turn, n: string, p: seq<string>)
    requires Taint(t, p) && HasEdge(t.exec, n, p[0]) && HasEdge(t.exec, p[|p| - 1], n)
    ensures !Acyclic(t.exec)
  {
    assert IsPath(t.exec, [n, p[0]]);
    Concat(t.exec, [n, p[0]], p);
    var q := [n, p[0]] + p[1..];
    PathAppend(t.exec, q, n);
    assert IsCycle(t.exec, q + [n]);
  }

  // ---------------------------------------------------------------- exactly when

  /** A path to a resource that is gone, over nothing else that is gone. */
  ghost predicate Through(t: Turn, p: seq<string>, x: string, e: string) {
    && IsPath(t.exec, p) && p[0] == x && p[|p| - 1] == e
    && forall i :: 0 <= i < |p| - 1 ==> p[i] !in t.gone
  }

  ghost predicate Reaches(t: Turn, x: string, e: string) { exists p :: Through(t, p, x, e) }

  /** `d` has to wait for `e`, both gone: directly, or because it waits for something that stays and that
      waits for `e` to be gone. */
  ghost predicate Presses(t: Turn, d: string, e: string) {
    HasEdge(t.exec, d, e) || exists x :: x !in t.gone && HasEdge(t.exec, d, x) && Reaches(t, x, e)
  }

  /** The resources that are gone, and which of them each has to wait for. */
  ghost function GoneGraph(t: Turn): Graph { map d | d in t.gone :: set e | e in t.gone && Presses(t, d, e) }

  lemma ReachesFurther(t: Turn, a: string, x: string, e: string)
    requires a !in t.gone && HasEdge(t.exec, a, x) && Reaches(t, x, e)
    ensures Reaches(t, a, e)
  {
    var p :| Through(t, p, x, e);
    var q := [a] + p;
    forall i | 0 <= i < |q| - 1 ensures q[i] in t.exec && q[i + 1] in t.exec[q[i]] && q[i] !in t.gone {
      if i > 0 { assert p[i - 1 + 1] in t.exec[p[i - 1]]; }
    }
    assert Through(t, q, a, e);
  }

  /** What is staged as a whole is staged among those that are gone. */
  lemma GoneIsStaged(t: Turn, stage: map<string, nat>)
    requires t.gone <= t.exec.Keys && Staged(t.exec, stage)
    ensures Acyclic(GoneGraph(t))
  {
    var part := map d | d in t.gone :: stage[d];
    forall d, e | d in GoneGraph(t) && e in GoneGraph(t)[d] ensures e in GoneGraph(t) && part[e] < part[d] {
      if !HasEdge(t.exec, d, e) {
        var x :| x !in t.gone && HasEdge(t.exec, d, x) && Reaches(t, x, e);
        var p :| Through(t, p, x, e);
        StagesFallAlongPath(t.exec, stage, p, |p| - 1);
      }
    }
    StagedIsAcyclic(GoneGraph(t), part);
  }

  /** What `a` reaches among those that are gone. */
  ghost function Reached(t: Turn, a: string): set<string> { set e | e in t.gone && Reaches(t, a, e) }

  /** Every stage in `some` is below `n`. */
  ghost predicate Below(s: map<string, nat>, some: set<string>, n: nat)
  {
    forall e :: e in some ==> e in s && s[e] < n
  }

  lemma {:induction false} LeastAbove(s: map<string, nat>, some: set<string>)
    requires some <= s.Keys
    ensures exists n: nat :: Below(s, some, n) && (n > 0 ==> exists e :: e in some && s[e] + 1 == n)
    decreases some
  {
    if some == {} {
      assert Below(s, some, 0);
    } else {
      var e :| e in some;
      LeastAbove(s, some - {e});
      var n: nat :| Below(s, some - {e}, n) && (n > 0 ==> exists f :: f in some - {e} && s[f] + 1 == n);
      if s[e] < n { assert Below(s, some, n); } else { assert Below(s, some, s[e] + 1); }
    }
  }

  /** One more than the latest stage of what is reached, or zero. */
  ghost function Level(s: map<string, nat>, some: set<string>): (n: nat)
    requires some <= s.Keys
    ensures Below(s, some, n) && (n > 0 ==> exists e :: e in some && s[e] + 1 == n)
  {
    LeastAbove(s, some);
    var n: nat :| Below(s, some, n) && (n > 0 ==> exists e :: e in some && s[e] + 1 == n);
    n
  }

  lemma LevelLeast(s: map<string, nat>, some: set<string>, n: nat)
    requires some <= s.Keys && Below(s, some, n)
    ensures Level(s, some) <= n
  {
  }

  /** A stage for everything: by the level of what is reached, and within a level as in `whole`. */
  ghost function FineRank(t: Turn, s: map<string, nat>, r: map<string, nat>, width: nat, a: string): nat
    requires t.gone <= s.Keys && a in t.base && t.base[a] in r
  {
    if a in t.gone then width * (s[a] + 1) else width * Level(s, Reached(t, a)) + r[t.base[a]] + 1
  }

  lemma WidthTimes(width: nat, m: nat, n: nat)
    requires m <= n
    ensures width * m <= width * n && width * (n + 1) == width * n + width
  {
  }

  lemma GoneAfterGone(t: Turn, s: map<string, nat>, a: string, d: string)
    requires t.gone <= t.exec.Keys && Staged(GoneGraph(t), s) && a in t.gone && d in t.gone && HasEdge(t.exec, a, d)
    ensures s[d] < s[a]
  {
    assert Presses(t, a, d) && d in GoneGraph(t)[a];
  }

  lemma GoneAfterLevel(t: Turn, s: map<string, nat>, a: string, d: string)
    requires t.gone <= t.exec.Keys && Staged(GoneGraph(t), s) && a in t.gone && d !in t.gone && HasEdge(t.exec, a, d)
    ensures Level(s, Reached(t, d)) <= s[a]
  {
    forall e | e in Reached(t, d) ensures s[e] < s[a] { assert Presses(t, a, e) && e in GoneGraph(t)[a]; }
    LevelLeast(s, Reached(t, d), s[a]);
  }

  lemma LevelAfterGone(t: Turn, s: map<string, nat>, a: string, d: string)
    requires t.gone <= s.Keys && a !in t.gone && d in t.gone && HasEdge(t.exec, a, d)
    ensures s[d] + 1 <= Level(s, Reached(t, a))
  {
    assert Through(t, [a, d], a, d);
    assert d in Reached(t, a);
  }

  lemma LevelAfterLevel(t: Turn, s: map<string, nat>, a: string, d: string)
    requires t.gone <= s.Keys && a !in t.gone && HasEdge(t.exec, a, d)
    ensures Level(s, Reached(t, d)) <= Level(s, Reached(t, a))
  {
    forall e | e in Reached(t, d) ensures e in Reached(t, a) { ReachesFurther(t, a, d, e); }
    LevelLeast(s, Reached(t, d), Level(s, Reached(t, a)));
  }

  lemma FineRankFalls(t: Turn, s: map<string, nat>, r: map<string, nat>, width: nat, a: string, d: string)
    requires Law(t) && Staged(t.whole, r) && (forall b :: b in r ==> r[b] + 1 < width)
    requires Staged(GoneGraph(t), s) && HasEdge(t.exec, a, d)
    ensures d in t.exec && FineRank(t, s, r, width, d) < FineRank(t, s, r, width, a)
  {
    assert EdgeLaw(t, a, d);
    var m, n := r[t.base[a]], r[t.base[d]];
    if a in t.gone && d in t.gone {
      GoneAfterGone(t, s, a, d);
      WidthTimes(width, s[d] + 2, s[a] + 1);
      WidthTimes(width, s[d] + 1, s[d] + 1);
    } else if a in t.gone {
      GoneAfterLevel(t, s, a, d);
      WidthTimes(width, Level(s, Reached(t, d)), s[a]);
      WidthTimes(width, s[a], s[a]);
    } else if d in t.gone {
      LevelAfterGone(t, s, a, d);
      WidthTimes(width, s[d] + 1, Level(s, Reached(t, a)));
    } else {
      LevelAfterLevel(t, s, a, d);
      WidthTimes(width, Level(s, Reached(t, d)), Level(s, Reached(t, a)));
    }
  }

  lemma GoneStagesAll(t: Turn, s: map<string, nat>, r: map<string, nat>, top: nat)
    requires Law(t) && Staged(t.whole, r) && Staged(GoneGraph(t), s) && forall b :: b in r ==> r[b] < top
    ensures Acyclic(t.exec)
  {
    var stage := map a | a in t.exec :: FineRank(t, s, r, top + 1, a);
    forall a, d | a in t.exec && d in t.exec[a] ensures d in t.exec && stage[d] < stage[a] {
      assert HasEdge(t.exec, a, d);
      FineRankFalls(t, s, r, top + 1, a, d);
    }
    StagedIsAcyclic(t.exec, stage);
  }

  /** Turning keeps an acyclic graph acyclic exactly if those that are gone do not have to wait for each
      other in a circle. */
  lemma TurnedIsAcyclicIff(t: Turn)
    requires Law(t) && Closed(t.exec) && Closed(t.whole) && Acyclic(t.whole)
    ensures Acyclic(t.exec) <==> Acyclic(GoneGraph(t))
  {
    if Acyclic(t.exec) {
      var stage := StagesExist(t.exec, map[], 0);
      GoneIsStaged(t, stage);
    }
    if Acyclic(GoneGraph(t)) {
      var r := StagesExist(t.whole, map[], 0);
      var s := StagesExist(GoneGraph(t), map[], 0);
      var top := Bounded(r, r.Keys);
      GoneStagesAll(t, s, r, top);
    }
  }

  // ---------------------------------------------------------------- a condition on single waits

  /** Neither gone, nor an operation that waits for what is gone. */
  ghost predicate Clean(t: Turn, a: string) { a !in t.gone && (a in t.ops ==> !Tainted(t, a)) }

  lemma CleanStays(t: Turn, a: string, d: string)
    requires Law(t) && Untangled(t) && Clean(t, a) && HasEdge(t.exec, a, d)
    ensures Clean(t, d)
  {
    assert EdgeLaw(t, a, d);
    if a in t.ops && (d in t.gone || Tainted(t, d)) { TaintSpreads(t, a, d); }
  }

  lemma {:induction false} CleanAlong(t: Turn, p: seq<string>, i: nat)
    requires Law(t) && Untangled(t) && IsPath(t.exec, p) && Clean(t, p[0]) && i < |p|
    ensures Clean(t, p[i])
  {
    if i > 0 {
      CleanAlong(t, p, i - 1);
      assert p[i - 1 + 1] in t.exec[p[i - 1]];
      CleanStays(t, p[i - 1], p[i]);
    }
  }

  /** Then those that are gone wait for each other only where edges were turned. */
  lemma PressedDirectly(t: Turn, d: string, e: string)
    requires Law(t) && Untangled(t) && d in t.gone && e in t.gone && Presses(t, d, e)
    ensures HasEdge(t.whole, t.base[e], t.base[d])
  {
    if HasEdge(t.exec, d, e) {
      assert EdgeLaw(t, d, e);
    } else {
      var x :| x !in t.gone && HasEdge(t.exec, d, x) && Reaches(t, x, e);
      var p :| Through(t, p, x, e);
      assert EdgeLaw(t, d, x);
      CleanAlong(t, p, |p| - 1);
    }
  }

  /** If no resource that stays waits for an operation that waits for one that goes, an acyclic graph
      stays acyclic. */
  lemma TurnedIsAcyclic(t: Turn)
    requires Law(t) && Untangled(t) && Closed(t.exec) && Closed(t.whole) && Acyclic(t.whole)
    ensures Acyclic(t.exec)
  {
    var r := StagesExist(t.whole, map[], 0);
    var top := Bounded(r, r.Keys);
    var s: map<string, nat> := map d | d in t.gone :: top - r[t.base[d]];
    forall d, e | d in GoneGraph(t) && e in GoneGraph(t)[d] ensures e in GoneGraph(t) && s[e] < s[d] {
      PressedDirectly(t, d, e);
      EdgeFalls(t.whole, r, t.base[e], t.base[d]);
    }
    StagedIsAcyclic(GoneGraph(t), s);
    TurnedIsAcyclicIff(t);
  }
}
