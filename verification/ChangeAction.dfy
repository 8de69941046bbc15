/** Change actions across runs, whatever fails in them: what the recorded digest says about the action,
    and when a change action that has not completed is tried again. */
module ChangeAction {
  import opened Wrappers
  import opened ResourceGraphs
  import opened Plans
  import opened RecordedState
  import opened StepEffects
  import opened Planning
  import opened FilePayloads

  // ---------------------------------------------------------------- runs

  /** What can happen to one resource, in any number of runs: it is written, adopted or removed and that
      is committed; its change action completes and that is committed; or anything fails, in the
      provider, in the operation or in writing the state, and nothing is committed. */
  datatype Event = Written(step: Step) | Adopted(step: Step) | Removed | Completed | Failed

  /** Steps are of the actions that the events stand for, and of nodes with a digest. */
  predicate Possible(e: Event, a: string) {
    match e
    case Written(s) => s.address == a && (s.action.Create? || s.action.Update?) && s.node.kind != "component_script_output" && s.node.digest != ""
    case Adopted(s) => s.address == a && s.action.Adopt? && s.node.digest != ""
    case _ => true
  }

  function EffectOf(e: Event, a: string): Effect {
    match e
    case Written(s) => StepEffect(s, "")
    case Adopted(s) => StepEffect(s, "")
    case Removed => Drop(a)
    case Completed => Complete(a)
    case Failed => Leave
  }

  function EffectsOf(history: seq<Event>, a: string): (r: seq<Effect>)
    ensures |r| == |history| && forall i :: 0 <= i < |r| ==> r[i] == EffectOf(history[i], a)
  {
    seq(|history|, i requires 0 <= i < |history| => EffectOf(history[i], a))
  }

  /** The state of the host after all that. */
  function StateAfter(start: HostState, history: seq<Event>, a: string): HostState { Outcome(start, EffectsOf(history, a)) }

  /** The action has completed for what is recorded, or the resource was adopted as it should be. */
  predicate Settles(e: Event) { e.Completed? || (e.Adopted? && e.step.changed == e.step.node.digest) }

  predicate Unsettles(e: Event) { e.Written? || e.Removed? || (e.Adopted? && e.step.changed != e.step.node.digest) }

  /** Since the last write something settled the action. */
  predicate SettledSince(history: seq<Event>) {
    exists j :: 0 <= j < |history| && Settles(history[j]) && forall k :: j < k < |history| ==> !Unsettles(history[k])
  }

  lemma StateNext(start: HostState, history: seq<Event>, e: Event, a: string)
    ensures StateAfter(start, history + [e], a) == After(EffectOf(e, a), StateAfter(start, history, a))
  {
    assert EffectsOf(history + [e], a) == EffectsOf(history, a) + [EffectOf(e, a)];
    OutcomeNext(start, EffectsOf(history, a), EffectOf(e, a));
  }

  lemma SettledNext(history: seq<Event>, e: Event)
    ensures SettledSince(history + [e]) <==> Settles(e) || (SettledSince(history) && !Unsettles(e))
  {
    var more := history + [e];
    if Settles(e) {
      assert Settles(more[|history|]);
    } else if SettledSince(history) && !Unsettles(e) {
      var j :| 0 <= j < |history| && Settles(history[j]) && forall k :: j < k < |history| ==> !Unsettles(history[k]);
      assert Settles(more[j]) && forall k :: j < k < |more| ==> !Unsettles(more[k]);
    } else {
      forall j | 0 <= j < |more| && Settles(more[j]) ensures exists k :: j < k < |more| && Unsettles(more[k]) {
        if Unsettles(e) {
          assert Unsettles(more[|history|]);
        } else {
          assert Settles(history[j]);
          var k :| j < k < |history| && Unsettles(history[k]);
          assert Unsettles(more[k]);
        }
      }
    }
  }

  /** The recorded change-action digest is that of the recorded resource exactly when the action has
      completed, or the resource was adopted, since it was last written. */
  lemma {:induction false} DigestMeansCompleted(start: HostState, history: seq<Event>, a: string)
    requires a !in start && forall i :: 0 <= i < |history| ==> Possible(history[i], a)
    requires a in StateAfter(start, history, a)
    ensures var r := StateAfter(start, history, a)[a];
      r.digest != "" && (r.changed == r.digest <==> SettledSince(history))
  {
    if history != [] {
      var front, e := history[..|history| - 1], history[|history| - 1];
      assert history == front + [e] && Possible(e, a);
      StateNext(start, front, e, a);
      SettledNext(front, e);
      if a in StateAfter(start, front, a) { DigestMeansCompleted(start, front, a); }
    }
  }

  /** What is recorded was written or adopted for a node with that digest. */
  lemma {:induction false} LastRecord(start: HostState, history: seq<Event>, a: string) returns (i: nat)
    requires a !in start && a in StateAfter(start, history, a) && forall k :: 0 <= k < |history| ==> Possible(history[k], a)
    ensures i < |history| && EffectOf(history[i], a).Record? && EffectOf(history[i], a).resource.digest == StateAfter(start, history, a)[a].digest
    ensures forall k :: i < k < |history| ==> !EffectOf(history[k], a).Record? && !history[k].Removed?
  {
    var front, e := history[..|history| - 1], history[|history| - 1];
    assert history == front + [e] && Possible(e, a);
    StateNext(start, front, e, a);
    if EffectOf(e, a).Record? {
      i := |history| - 1;
    } else {
      i := LastRecord(start, front, a);
    }
  }

  // ---------------------------------------------------------------- trying again

  /** A node whose change action has not completed is never in sync, whatever is observed, and its step
      triggers the action again. */
  lemma PendingIsRetried(n: Node, prior: Resource, o: Observed)
    requires !n.absent && n.changeAction != "" && prior.changed != n.digest
    ensures TriggersOperation(Compare(n, Some(prior), o).action)
  {
  }

  /** As long as the action has not completed since the last write, every plan for the same node acts on
      it and triggers the action, through any number of failed runs. */
  lemma FailedActionIsRetried(start: HostState, history: seq<Event>, n: Node, o: Observed)
    requires n.address !in start && (forall i :: 0 <= i < |history| ==> Possible(history[i], n.address))
    requires n.address in StateAfter(start, history, n.address) && StateAfter(start, history, n.address)[n.address].digest == n.digest
    requires !n.absent && n.changeAction != "" && !SettledSince(history)
    ensures TriggersOperation(Compare(n, PriorResource(StateAfter(start, history, n.address), n.address), o).action)
  {
    DigestMeansCompleted(start, history, n.address);
    PendingIsRetried(n, StateAfter(start, history, n.address)[n.address], o);
  }

  /** And once it has completed, a resource that is observed as desired is left alone. */
  lemma CompletedActionIsLeft(start: HostState, history: seq<Event>, n: Node, o: Observed)
    requires n.address !in start && (forall i :: 0 <= i < |history| ==> Possible(history[i], n.address))
    requires n.address in StateAfter(start, history, n.address) && StateAfter(start, history, n.address)[n.address].digest == n.digest
    requires !n.absent && SettledSince(history) && o.present && o.digest == n.digest
    ensures Compare(n, PriorResource(StateAfter(start, history, n.address), n.address), o).action.NoOp?
  {
    DigestMeansCompleted(start, history, n.address);
  }

  // ---------------------------------------------------------------- files

  datatype PathState = PathState(present: bool, isDir: bool, owner: string, group: string, mode: string, sha: string)

  /** A node for a file: with what is desired of its attributes, and the digest of its content, which is
      not known if the content cannot be had. */
  datatype FileNode = FileNode(node: Node, owner: string, group: string, mode: string, writeOnly: bool, content: Option<string>)

  function NormalizeMode(mode: string): string {
    if mode != [] && mode[0] == '0' then NormalizeMode(mode[1..]) else mode
  }

  /** That is the mode without its leading zeros. */
  lemma {:induction false} ModeWithoutZeros(mode: string) returns (k: nat)
    ensures k <= |mode| && NormalizeMode(mode) == mode[k..]
    ensures (forall i :: 0 <= i < k ==> mode[i] == '0') && (k < |mode| ==> mode[k] != '0')
  {
    k := 0;
    if mode != [] && mode[0] == '0' {
      var rest := mode[1..];
      var n := ModeWithoutZeros(rest);
      k := n + 1;
      assert rest[n..] == mode[k..];
      assert forall i :: 0 < i < k ==> mode[i] == rest[i - 1];
    }
  }

  function Ownership(prior: Option<Resource>): string {
    if prior.Some? && prior.value.ownership != "" then prior.value.ownership else "managed"
  }

  predicate ChangeActionConfigurationRemoved(n: Node, prior: Option<Resource>) {
    n.changeAction == "" && prior.Some? && prior.value.changeAction != ""
  }

  function InSyncPlan(prior: Option<Resource>, changed: string): ProviderPlan {
    if prior.None? then ProviderPlan(Adopt, "adopted", changed) else ProviderPlan(NoOp, Ownership(prior), changed)
  }

  function AbsentInSyncPlan(prior: Option<Resource>): ProviderPlan {
    if prior.Some? then ProviderPlan(Delete, Ownership(prior), "") else ProviderPlan(NoOp, Ownership(prior), "")
  }

  predicate AttributesMatch(f: FileNode, current: PathState) {
    && !current.isDir && current.owner == f.owner && current.group == f.group
    && NormalizeMode(current.mode) == NormalizeMode(f.mode)
  }

  /** `planFileLike`, after the path has been read; none if the content cannot be had. */
  function PlanFileLike(f: FileNode, prior: Option<Resource>, current: PathState): Option<ProviderPlan> {
    var n := f.node;
    if n.absent then
      Some(if current.present then ProviderPlan(Delete, Ownership(prior), "") else AbsentInSyncPlan(prior))
    else if f.content.None? then None
    else if !current.present then Some(ProviderPlan(Create, Ownership(prior), ""))
    else if f.writeOnly then
      if !AttributesMatch(f, current) || prior.None? || prior.value.digest != n.digest then Some(ProviderPlan(Update, Ownership(prior), ""))
      else Some(InSyncPlan(prior, ""))
    else if !AttributesMatch(f, current) || current.sha != f.content.value then Some(ProviderPlan(Update, Ownership(prior), ""))
    else if ChangeActionCompletionPending(n, prior) then Some(ProviderPlan(Update, Ownership(prior), ""))
    else if ChangeActionConfigurationRemoved(n, prior) then Some(ProviderPlan(Update, Ownership(prior), ""))
    else Some(InSyncPlan(prior, CompleteChangeActionOnAdopt(n, prior, "")))
  }

  /** Of any node whatever, a file whose change action has not completed is tried again, with one
      exception: a file whose content can only be written, whose attributes are as desired and whose
      recorded digest is the desired one. */
  lemma PendingFileIsRetriedUnless(f: FileNode, prior: Resource, current: PathState)
    requires !f.node.absent && f.content.Some? && ChangeActionCompletionPending(f.node, Some(prior))
    ensures TriggersOperation(PlanFileLike(f, Some(prior), current).value.action)
       <==> !(f.writeOnly && current.present && AttributesMatch(f, current) && prior.digest == f.node.digest)
  {
  }

  /** A node for a file as the graph builds it. The digest of its desired values and the digest of its
      content are parameters. */
  function FileNodeOf(spec: Spec, address: string, host: string, kind: string, deps: seq<string>, digestOf: Desired -> string, content: Option<string>): FileNode {
    var d := DesiredOf(spec);
    FileNode(
      Node(address, host, kind, deps, digestOf(d), EnsureAbsent(d), StringDesired(d, Field.ChangeAction)),
      StringDesired(d, Field.Owner), StringDesired(d, Field.Group), StringDesired(d, Field.Mode), FileContentWriteOnly(d), content)
  }

  /** The graph builds no node to which the exception applies: whatever is recorded and whatever is found
      at the path, a plan of a file whose change action has not completed tries it again. */
  lemma PendingFileIsRetried(spec: Spec, address: string, host: string, kind: string, deps: seq<string>, digestOf: Desired -> string,
                             content: Option<string>, prior: Resource, current: PathState)
    requires ChangeActionCompletionPending(FileNodeOf(spec, address, host, kind, deps, digestOf, content).node, Some(prior))
    ensures var p := PlanFileLike(FileNodeOf(spec, address, host, kind, deps, digestOf, content), Some(prior), current);
      p.Some? ==> TriggersOperation(p.value.action)
  {
    WriteOnlyOrChangeAction(spec);
    var f := FileNodeOf(spec, address, host, kind, deps, digestOf, content);
    if !f.node.absent && f.content.Some? { PendingFileIsRetriedUnless(f, prior, current); }
  }

  /** So that, as for any other node, a failed change action of a file is tried again by every plan until
      it completes, through any number of failed runs. */
  lemma FailedFileActionIsRetried(start: HostState, history: seq<Event>, spec: Spec, address: string, host: string, kind: string, deps: seq<string>,
                                  digestOf: Desired -> string, content: Option<string>, current: PathState)
    requires address !in start && forall i :: 0 <= i < |history| ==> Possible(history[i], address)
    requires address in StateAfter(start, history, address) && StateAfter(start, history, address)[address].digest == digestOf(DesiredOf(spec))
    requires spec.Unit? && spec.unit.changeAction != "" && !SettledSince(history)
    ensures var p := PlanFileLike(FileNodeOf(spec, address, host, kind, deps, digestOf, content), PriorResource(StateAfter(start, history, address), address), current);
      p.Some? ==> TriggersOperation(p.value.action)
  {
    DigestMeansCompleted(start, history, address);
    WriteOnlyOrChangeAction(spec);
    PendingFileIsRetried(spec, address, host, kind, deps, digestOf, content, StateAfter(start, history, address)[address], current);
  }

  /** After the file has been written as desired and its change action has completed, it is in sync. */
  lemma CompletedFileIsInSync(f: FileNode, prior: Resource, current: PathState)
    requires !f.node.absent && f.content.Some? && current.present && AttributesMatch(f, current) && current.sha == f.content.value
    requires prior.digest == f.node.digest && prior.changeAction == f.node.changeAction
    ensures PlanFileLike(f, Some(prior), current).value.action.NoOp?
       <==> f.writeOnly || f.node.changeAction == "" || prior.changed == f.node.digest
  {
  }
}
