/** Dependency graphs: an edge leads from an address to what it waits for. */
module Digraph {
  type Graph = map<string, set<string>>

  /** Every address that is waited for is in the graph. */
  ghost predicate Closed(g: Graph) { forall a, d :: a in g && d in g[a] ==> d in g }

  ghost predicate HasEdge(g: Graph, a: string, d: string) { a in g && d in g[a] }

  ghost predicate IsPath(g: Graph, p: seq<string>) {
    && |p| > 0 && p[0] in g
    && forall i :: 0 <= i < |p| - 1 ==> p[i] in g && p[i + 1] in g[p[i]]
  }

  ghost predicate IsCycle(g: Graph, p: seq<string>) { |p| > 1 && IsPath(g, p) && p[0] == p[|p| - 1] }

  ghost predicate Acyclic(g: Graph) { forall p :: !IsCycle(g, p) }

  /** A stage number for every address, such that dependencies come strictly earlier. */
  ghost predicate Staged(g: Graph, stage: map<string, nat>) {
    && stage.Keys == g.Keys
    && forall a, d :: a in g && d in g[a] ==> d in g && stage[d] < stage[a]
  }

  lemma EdgeFalls(g: Graph, stage: map<string, nat>, a: string, d: string)
    requires Staged(g, stage) && HasEdge(g, a, d)
    ensures a in stage && d in stage && stage[d] < stage[a]
  {
  }

  lemma {:induction false} StagesFallAlongPath(g: Graph, stage: map<string, nat>, p: seq<string>, i: nat)
    requires Staged(g, stage) && IsPath(g, p) && i < |p|
    ensures p[i] in g && stage[p[i]] + i <= stage[p[0]]
  {
    if i > 0 {
      StagesFallAlongPath(g, stage, p, i - 1);
      assert p[i - 1 + 1] in g[p[i - 1]];
    }
  }

  lemma StagedIsAcyclic(g: Graph, stage: map<string, nat>)
    requires Staged(g, stage)
    ensures Acyclic(g)
  {
    forall p ensures !IsCycle(g, p) {
      if IsCycle(g, p) { StagesFallAlongPath(g, stage, p, |p| - 1); }
    }
  }

  lemma PathAppend(g: Graph, p: seq<string>, a: string)
    requires IsPath(g, p) && p[|p| - 1] in g && a in g[p[|p| - 1]]
    ensures IsPath(g, p + [a])
  {
    var q := p + [a];
    forall i | 0 <= i < |q| - 1 ensures q[i] in g && q[i + 1] in g[q[i]] {
      if i < |p| - 1 { assert p[i + 1] in g[p[i]]; }
    }
  }

  lemma SubPath(g: Graph, p: seq<string>, i: nat, j: nat)
    requires IsPath(g, p) && i < j <= |p| && p[i] in g
    ensures IsPath(g, p[i..j])
  {
    var q := p[i..j];
    forall k | 0 <= k < |q| - 1 ensures q[k] in g && q[k + 1] in g[q[k]] {
      assert p[i + k + 1] in g[p[i + k]];
    }
  }

  lemma Concat(g: Graph, p: seq<string>, q: seq<string>)
    requires IsPath(g, p) && IsPath(g, q) && p[|p| - 1] == q[0]
    ensures IsPath(g, p + q[1..]) && (p + q[1..])[|p| + |q| - 2] == q[|q| - 1]
    ensures (p + q[1..])[0] == p[0] && |p + q[1..]| == |p| + |q| - 1
  {
    var r := p + q[1..];
    forall i | 0 <= i < |r| - 1 ensures r[i] in g && r[i + 1] in g[r[i]] {
      if i < |p| - 1 {
        assert p[i + 1] in g[p[i]];
      } else {
        var k := i - (|p| - 1);
        assert r[i] == q[k] && r[i + 1] == q[k + 1];
      }
    }
  }

  /** If nothing in a non-empty set can be finished first, a walk inside it meets itself. */
  lemma {:induction false} StuckWalk(g: Graph, stuck: set<string>, p: seq<string>, seen: set<string>)
    returns (c: seq<string>)
    requires stuck <= g.Keys && forall a :: a in stuck ==> g[a] * stuck != {}
    requires IsPath(g, p) && (forall x :: x in p <==> x in seen) && seen <= stuck
    ensures IsCycle(g, c)
    decreases stuck - seen
  {
    var last := p[|p| - 1];
    assert last in seen;
    var next :| next in g[last] * stuck;
    PathAppend(g, p, next);
    if next in seen {
      var i :| 0 <= i < |p| && p[i] == next;
      SubPath(g, p + [next], i, |p| + 1);
      c := (p + [next])[i..];
    } else {
      c := StuckWalk(g, stuck, p + [next], seen + {next});
    }
  }

  lemma StuckIsCyclic(g: Graph, stuck: set<string>)
    requires stuck != {} && stuck <= g.Keys && forall a :: a in stuck ==> g[a] * stuck != {}
    ensures !Acyclic(g)
  {
    var a :| a in stuck;
    var c := StuckWalk(g, stuck, [a], {a});
  }

  /** An acyclic graph can be staged. */
  lemma {:induction false} StagesExist(g: Graph, done: map<string, nat>, top: nat) returns (stage: map<string, nat>)
    requires Closed(g) && Acyclic(g) && done.Keys <= g.Keys
    requires forall a, d :: a in done && d in g[a] ==> d in done && done[d] < done[a]
    requires forall a :: a in done ==> done[a] < top
    ensures Staged(g, stage)
    decreases g.Keys - done.Keys
  {
    var left := g.Keys - done.Keys;
    if forall a :: a in g ==> a in done {
      stage := done;
    } else {
      var b :| b in g && b !in done;
      assert b in left;
      var a := Unstuck(g, left);
      var more := done[a := top];
      forall c, d | c in more && d in g[c] ensures d in more && more[d] < more[c] {
        if c == a { assert d !in g[a] * left && d in g; }
      }
      stage := StagesExist(g, more, top + 1);
    }
  }

  /** In an acyclic graph something in every non-empty set waits for nothing in the set. */
  lemma Unstuck(g: Graph, some: set<string>) returns (a: string)
    requires Acyclic(g) && some != {} && some <= g.Keys
    ensures a in some && g[a] * some == {}
  {
    if forall b :: b in some ==> g[b] * some != {} {
      StuckIsCyclic(g, some);
      assert false;
    }
    a :| a in some && g[a] * some == {};
  }

  /** Renamed by `f`, every edge of `g` is an edge of `h`. */
  ghost predicate MapsInto(g: Graph, h: Graph, f: map<string, string>) {
    && f.Keys == g.Keys
    && (forall a :: a in g ==> f[a] in h)
    && (forall a, d :: a in g && d in g[a] ==> d in g && HasEdge(h, f[a], f[d]))
  }

  /** A graph whose edges are all edges of an acyclic one, up to renaming, is acyclic. */
  lemma ImageAcyclic(g: Graph, h: Graph, f: map<string, string>)
    requires MapsInto(g, h, f) && Acyclic(h)
    ensures Acyclic(g)
  {
    forall p ensures !IsCycle(g, p) {
      if IsCycle(g, p) {
        assert forall i :: 0 <= i < |p| ==> p[i] in g by {
          forall i | 0 <= i < |p| ensures p[i] in g { if i > 0 { assert p[i - 1 + 1] in g[p[i - 1]]; } }
        }
        var q := seq(|p|, i requires 0 <= i < |p| => f[p[i]]);
        forall i | 0 <= i < |q| - 1 ensures q[i] in h && q[i + 1] in h[q[i]] {
          assert p[i + 1] in g[p[i]];
        }
        assert IsCycle(h, q);
      }
    }
  }

  // ---------------------------------------------------------------- layers

  /** `a` is in the first stage, or waits for something exactly one stage earlier. */
  ghost predicate NoLater(g: Graph, stage: map<string, nat>, a: string)
    requires a in g && a in stage
  {
    stage[a] > 0 ==> exists d :: d in g[a] && d in stage && stage[d] + 1 == stage[a]
  }

  /** The least staging. */
  ghost predicate Layered(g: Graph, stage: map<string, nat>) {
    Staged(g, stage) && forall a {:trigger NoLater(g, stage, a)} :: a in g ==> NoLater(g, stage, a)
  }

  /** From every address runs a chain through all the earlier stages. */
  lemma {:induction false} LongestChain(g: Graph, stage: map<string, nat>, a: string) returns (p: seq<string>)
    requires Layered(g, stage) && a in g
    ensures IsPath(g, p) && p[0] == a && |p| == stage[a] + 1
    decreases stage[a]
  {
    if stage[a] == 0 {
      p := [a];
    } else {
      assert NoLater(g, stage, a);
      var d :| d in g[a] && d in stage && stage[d] + 1 == stage[a];
      var rest := LongestChain(g, stage, d);
      p := [a] + rest;
      forall i | 0 <= i < |p| - 1 ensures p[i] in g && p[i + 1] in g[p[i]] {
        if i > 0 { assert rest[i - 1 + 1] in g[rest[i - 1]]; }
      }
    }
  }

  /** The stage of an address is the length, in edges, of its longest dependency chain. */
  lemma LayerIsLongestChain(g: Graph, stage: map<string, nat>, a: string)
    requires Layered(g, stage) && a in g
    ensures exists p :: IsPath(g, p) && p[0] == a && |p| == stage[a] + 1
    ensures forall p :: IsPath(g, p) && p[0] == a ==> |p| <= stage[a] + 1
  {
    var longest := LongestChain(g, stage, a);
    forall p | IsPath(g, p) && p[0] == a ensures |p| <= stage[a] + 1 {
      StagesFallAlongPath(g, stage, p, |p| - 1);
    }
  }

  /** No other staging puts any address earlier, so the number of stages is minimal. */
  lemma LayersAreMinimal(g: Graph, stage: map<string, nat>, other: map<string, nat>, a: string)
    requires Layered(g, stage) && Staged(g, other) && a in g
    ensures stage[a] <= other[a]
  {
    var p := LongestChain(g, stage, a);
    StagesFallAlongPath(g, other, p, stage[a]);
  }

  /** A graph has at most one layering, so it does not matter in what order it is computed. */
  lemma LayeringUnique(g: Graph, stage: map<string, nat>, other: map<string, nat>)
    requires Layered(g, stage) && Layered(g, other)
    ensures stage == other
  {
    forall a | a in g ensures stage[a] == other[a] {
      LayersAreMinimal(g, stage, other, a);
      LayersAreMinimal(g, other, stage, a);
    }
  }
}
