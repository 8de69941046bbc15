/** The depth-first check of the whole dependency graph, with three colours and an explicit stack. */
module Acyclicity {
  import opened Wrappers
  import opened Lists
  import opened Digraph
  import opened Kahn

  datatype Colour = Grey | Black

  type Colours = map<string, Colour>

  /** The stack is a path of distinct addresses, the grey ones; the index says where each stands. */
  ghost predicate StackOk(deps: Waits, state: Colours, stackIndex: map<string, nat>, stack: seq<string>) {
    && NoDup(stack)
    && (forall i :: 0 <= i < |stack| ==> stack[i] in stackIndex && stackIndex[stack[i]] == i)
    && (forall a :: a in stack <==> a in state && state[a].Grey?)
    && (stack != [] ==> IsPath(GraphOf(deps), stack))
    && (forall a :: a in stack ==> a in deps)
  }

  /** The `i`-th to finish did so after all that it waits for. */
  ghost predicate After(deps: Waits, finished: seq<string>, i: nat)
    requires i < |finished| && finished[i] in deps
  {
    forall d :: d in deps[finished[i]] ==> d in finished[..i]
  }

  ghost predicate FinishedOk(deps: Waits, state: Colours, finished: seq<string>) {
    && (forall a :: a in finished <==> a in state && state[a].Black?)
    && (forall a :: a in finished ==> a in deps)
    && (forall i {:trigger After(deps, finished, i)} :: 0 <= i < |finished| ==> After(deps, finished, i))
  }

  lemma PushOk(deps: Waits, state: Colours, stackIndex: map<string, nat>, stack: seq<string>, a: string)
    requires StackOk(deps, state, stackIndex, stack) && a in deps && a !in state
    requires stack != [] ==> a in deps[stack[|stack| - 1]]
    ensures StackOk(deps, state[a := Grey], stackIndex[a := |stack|], stack + [a])
  {
    if stack != [] { PathAppend(GraphOf(deps), stack, a); }
  }

  lemma PopOk(deps: Waits, state: Colours, stackIndex: map<string, nat>, stack: seq<string>, a: string)
    requires StackOk(deps, state, stackIndex, stack + [a])
    ensures StackOk(deps, state[a := Black], stackIndex - {a}, stack)
  {
    var more := stack + [a];
    if stack != [] {
      assert stack[0] in deps;
      SubPath(GraphOf(deps), more, 0, |stack|);
      assert more[0..|stack|] == stack;
    }
    assert forall i :: 0 <= i < |stack| ==> more[i] == stack[i];
    forall i | 0 <= i < |stack| ensures stack[i] != a { assert more[i] != more[|stack|]; }
  }

  lemma FinishOk(deps: Waits, state: Colours, finished: seq<string>, a: string)
    requires FinishedOk(deps, state, finished) && a in deps && (a in state ==> state[a].Grey?)
    requires forall d :: d in deps[a] ==> d in finished
    ensures FinishedOk(deps, state[a := Black], finished + [a])
  {
    var more := finished + [a];
    forall i | 0 <= i < |more| ensures After(deps, more, i) {
      if i < |finished| { assert After(deps, finished, i) && more[..i] == finished[..i]; }
      else { assert more[..i] == finished; }
    }
  }

  /** When everything has finished, the finishing order stages the graph. */
  lemma AllFinishedIsAcyclic(deps: Waits, state: Colours, finished: seq<string>)
    requires ClosedWaits(deps) && FinishedOk(deps, state, finished) && forall a :: a in deps ==> a in finished
    ensures Acyclic(GraphOf(deps))
  {
    var g := GraphOf(deps);
    var stage := map a | a in deps :: FirstIndex(finished, a);
    forall a, d | a in g && d in g[a] ensures d in g && stage[d] < stage[a] {
      assert After(deps, finished, stage[a]);
      FirstIndexIn(finished, stage[a], d);
    }
    StagedIsAcyclic(g, stage);
  }

  /** The variables that the visiting closure shares: colours (a missing one is white), the stack,
      and where on it each grey address stands. `finished` lists the black ones in their order. */
  class Visitor {
    const deps: Waits
    var state: Colours
    var stackIndex: map<string, nat>
    var stack: seq<string>
    ghost var finished: seq<string>

    constructor (deps: Waits)
      ensures this.deps == deps && state == map[] && stackIndex == map[] && stack == [] && finished == []
    {
      this.deps := deps;
      state, stackIndex, stack, finished := map[], map[], [], [];
    }

    ghost predicate Valid()
      reads this
    {
      && ClosedWaits(deps) && state.Keys <= deps.Keys
      && StackOk(deps, state, stackIndex, stack) && FinishedOk(deps, state, finished)
    }

    ghost function White(): set<string>
      reads this
    {
      deps.Keys - state.Keys
    }

    /** Visits `address`, which the address on top of the stack waits for. Either reports a cycle of
        the graph, or leaves the stack as it was and the address finished. */
    method Visit(address: string) returns (cycle: Option<seq<string>>)
      requires Valid() && address in deps
      requires stack != [] ==> address in deps[stack[|stack| - 1]]
      modifies this
      decreases White(), 0
      ensures cycle.Some? ==> IsCycle(GraphOf(deps), cycle.value)
      ensures cycle.None? ==> Valid() && stack == old(stack) && address in finished
      ensures cycle.None? ==> old(finished) <= finished && White() <= old(White())
    {
      if address in state {
        if state[address].Grey? {
          var start := stackIndex[address];
          SubPath(GraphOf(deps), stack, start, |stack|);
          PathAppend(GraphOf(deps), stack[start..], address);
          return Some(stack[start..] + [address]);
        }
        return None;
      }
      assert address in White();
      PushOk(deps, state, stackIndex, stack, address);
      state := state[address := Grey];
      stackIndex := stackIndex[address := |stack|];
      stack := stack + [address];
      assert address !in White();
      cycle := VisitDependencies(address);
      if cycle.Some? {
        return;
      }
      PopOk(deps, state, stackIndex, old(stack), address);
      FinishOk(deps, state, finished, address);
      stack := stack[..|stack| - 1];
      stackIndex := stackIndex - {address};
      state := state[address := Black];
      finished := finished + [address];
    }

    method VisitDependencies(address: string) returns (cycle: Option<seq<string>>)
      requires Valid() && address in deps && stack != [] && stack[|stack| - 1] == address
      modifies this
      decreases White(), 1
      ensures cycle.Some? ==> IsCycle(GraphOf(deps), cycle.value)
      ensures cycle.None? ==> Valid() && stack == old(stack) && old(finished) <= finished && White() <= old(White())
      ensures cycle.None? ==> forall d :: d in deps[address] ==> d in finished
    {
      for i := 0 to |deps[address]|
        invariant Valid() && stack == old(stack) && old(finished) <= finished && White() <= old(White())
        invariant forall j :: 0 <= j < i ==> deps[address][j] in finished
      {
        cycle := Visit(deps[address][i]);
        if cycle.Some? {
          return;
        }
      }
      cycle := None;
    }
  }

  /** The check: no error exactly when the graph is acyclic, and otherwise a cycle of the graph.
      `addresses` lists all of them, in the order in which they are visited. */
  method ValidateAcyclic(deps: Waits, addresses: seq<string>) returns (cycle: Option<seq<string>>)
    requires ClosedWaits(deps) && Elems(addresses) == deps.Keys
    ensures cycle.None? <==> Acyclic(GraphOf(deps))
    ensures cycle.Some? ==> IsCycle(GraphOf(deps), cycle.value)
  {
    var visitor := new Visitor(deps);
    for i := 0 to |addresses|
      invariant visitor.Valid() && visitor.stack == [] && visitor.deps == deps
      invariant forall j :: 0 <= j < i ==> addresses[j] in visitor.finished
    {
      assert addresses[i] in Elems(addresses);
      cycle := visitor.Visit(addresses[i]);
      if cycle.Some? {
        return;
      }
    }
    forall a | a in deps ensures a in visitor.finished { assert a in Elems(addresses); }
    AllFinishedIsAcyclic(deps, visitor.state, visitor.finished);
    cycle := None;
  }
}
