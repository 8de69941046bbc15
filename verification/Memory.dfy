/** The backend and the provider that keep everything in memory. */
module Memory {
  import opened Wrappers
  import opened ResourceGraphs
  import opened Plans
  import opened RecordedState
  import opened StepEffects
  import opened Planning

  class MemoryBackend {
    var states: States
    var locked: set<string>

    constructor ()
      ensures states == map[] && locked == {}
    {
      states, locked := map[], {};
    }

    /** The state of a host that was never written is empty. */
    function Contents(host: string): HostState
      reads this
    {
      if host in states then states[host] else map[]
    }

    method Read(host: string) returns (st: HostState)
      ensures st == Contents(host)
    {
      if host in states {
        return states[host];
      }
      st := map[];
    }

    method Write(host: string, st: HostState) returns (committed: HostState)
      modifies this`states
      ensures committed == st && Contents(host) == st
      ensures states == old(states)[host := st]
    {
      committed := st;
      states := states[host := committed];
    }

    /** Takes the lock of a host, unless it is taken. */
    method Lock(host: string) returns (taken: bool)
      modifies this`locked
      ensures taken <==> host !in old(locked)
      ensures locked == old(locked) + {host}
    {
      if host in locked {
        return false;
      }
      locked := locked + {host};
      taken := true;
    }

    method Unlock(host: string)
      modifies this`locked
      ensures locked == old(locked) - {host}
    {
      locked := locked - {host};
    }
  }

  /** What the provider stores after carrying out a step: that the resource is gone, or that it is as desired. */
  function Stored(step: Step): Observed {
    if DestroysResource(step.action) then Nothing else Observed(true, step.node.digest, "")
  }

  /** What the provider stores after the step of a node. */
  function ObservedAfter(step: Step, observed: Observations): Observations {
    if step.action.Create? || step.action.Update? || step.action.Delete? then observed[step.address := Stored(step)] else observed
  }

  predicate Writes(action: Action) { action.Create? || action.Update? }

  /** What is planned, carried out and recorded leaves nothing to do, once a change action that it has
      triggered has completed; until then, every plan acts on it again. */
  lemma PlannedThenSettled(n: Node, st: HostState, observed: Observations)
    requires n.kind != "component_script_output" && n.digest != ""
    ensures var step := NodeStep(n, st, observed);
      var recorded, stored := After(StepEffect(step, ""), st), ObservedAfter(step, observed);
      && (NodeStep(n, recorded, stored).action.NoOp? <==> n.changeAction == "" || !Writes(step.action))
      && (Writes(step.action) ==> NodeStep(n, After(Complete(n.address), recorded), stored).action.NoOp?)
  {
    var step := NodeStep(n, st, observed);
    var recorded := After(StepEffect(step, ""), st);
    if Writes(step.action) {
      assert recorded[n.address].digest == n.digest && recorded[n.address].changed == "";
    } else if step.action.Delete? {
      assert n.address !in recorded;
    }
  }

  class MemoryProvider {
    var observed: Observations
    var applied: seq<string>
    var destroyed: seq<string>
    var operations: seq<string>
    var failApplyAt: string

    constructor ()
      ensures observed == map[] && applied == [] && destroyed == [] && operations == [] && failApplyAt == ""
    {
      observed, applied, destroyed, operations, failApplyAt := map[], [], [], [], "";
    }

    method Plan(n: Node, prior: Option<Resource>) returns (r: ProviderPlan)
      ensures r.action.NoOp? <==> AsDesired(n, prior, Seen(observed, n.address, prior))
      ensures r == Compare(n, prior, Seen(observed, n.address, prior))
    {
      var o := Nothing;
      if n.address in observed {
        o := observed[n.address];
      } else if prior.Some? {
        o := Observed(true, prior.value.digest, prior.value.changed);
      }
      r := Compare(n, prior, o);
    }

    /** Creates, updates or deletes, and returns the change-action digest of what it has made: none. */
    method Apply(step: Step) returns (r: Option<string>)
      modifies this`observed, this`applied
      ensures r.Some? <==> step.address != failApplyAt
      ensures r.Some? ==> r.value == "" && applied == old(applied) + [step.address]
      ensures r.Some? && (step.action.Delete? || !DestroysResource(step.action)) ==>
        observed == old(observed)[step.address := Stored(step)]
      ensures r.None? ==> observed == old(observed) && applied == old(applied)
    {
      if step.address == failApplyAt {
        return None;
      }
      applied := applied + [step.address];
      if step.action.Delete? {
        observed := observed[step.address := Nothing];
        return Some("");
      }
      observed := observed[step.address := Observed(true, step.node.digest, "")];
      r := Some("");
    }

    method Destroy(step: Step) returns (ok: bool)
      modifies this`observed, this`destroyed
      ensures ok <==> step.address != failApplyAt
      ensures observed == if ok then old(observed)[step.address := Nothing] else old(observed)
      ensures destroyed == if ok then old(destroyed) + [step.address] else old(destroyed)
    {
      if step.address == failApplyAt {
        return false;
      }
      destroyed := destroyed + [step.address];
      observed := observed[step.address := Nothing];
      ok := true;
    }

    method RunOperation(o: Operation)
      modifies this`operations
      ensures operations == old(operations) + [o.address]
    {
      operations := operations + [o.address];
    }
  }
}
