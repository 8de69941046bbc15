/** What is planned for a file, by what is recorded of it and what is found at its path. */
module FilePlans {
  import opened Wrappers
  import opened ResourceGraphs
  import opened Plans
  import opened RecordedState
  import opened Planning
  import opened FilePayloads
  import opened ChangeAction

  /** The path holds what is wanted there: a file with the owner, group and mode, and, where it can be
      read, the content. Modes are the same whether they are written with leading zeros or without. */
  predicate Wanted(f: FileNode, current: PathState) {
    && current.present && !current.isDir
    && current.owner == f.owner && current.group == f.group && NormalizeMode(current.mode) == NormalizeMode(f.mode)
    && (f.writeOnly || Some(current.sha) == f.content)
  }

  /** What is recorded of it is up to date: for content that cannot be read, the digest of what was written
      last; otherwise no change action is still to come, and none is recorded that is not wanted any more. */
  predicate UpToDate(f: FileNode, prior: Resource) {
    if f.writeOnly then prior.digest == f.node.digest
    else if f.node.changeAction == "" then prior.changeAction == ""
    else prior.changed == f.node.digest
  }

  /** Which action is planned, for all files, all that may be recorded and all that may be found. There is
      no plan exactly if the content is needed and cannot be had. */
  lemma ActionsOfFile(f: FileNode, prior: Option<Resource>, current: PathState)
    ensures var p := PlanFileLike(f, prior, current);
      && (p.None? <==> !f.node.absent && f.content.None?)
      && (p.Some? ==>
          var action := p.value.action;
          && (action.NoOp? <==> if f.node.absent then !current.present && prior.None? else Wanted(f, current) && prior.Some? && UpToDate(f, prior.value))
          && (action.Adopt? <==> !f.node.absent && !f.writeOnly && Wanted(f, current) && prior.None?)
          && (action.Delete? <==> f.node.absent && (current.present || prior.Some?))
          && (action.Create? <==> !f.node.absent && !current.present)
          && (action.NoOp? || action.Adopt? || action.Delete? || action.Create? || action.Update?))
  {
  }

  /** Nothing is left undone: a file that asks for nothing, or is adopted, is as it should be. */
  lemma SettledFileIsWanted(f: FileNode, prior: Option<Resource>, current: PathState)
    requires PlanFileLike(f, prior, current).Some?
    requires PlanFileLike(f, prior, current).value.action.NoOp? || PlanFileLike(f, prior, current).value.action.Adopt?
    ensures if f.node.absent then !current.present else Wanted(f, current)
  {
    ActionsOfFile(f, prior, current);
  }

  /** Whose the file is planned to be, and what is taken for the completion of its change action: an adopted
      file needs none. */
  lemma OwnershipOfFile(f: FileNode, prior: Option<Resource>, current: PathState)
    requires PlanFileLike(f, prior, current).Some?
    ensures var p := PlanFileLike(f, prior, current).value;
      && (p.action.Adopt? ==> p.ownership == "adopted" && p.changed == if f.node.changeAction == "" then "" else f.node.digest)
      && (!p.action.Adopt? ==> p.ownership == (if prior.Some? && prior.value.ownership != "" then prior.value.ownership else "managed") && p.changed == "")
  {
    ActionsOfFile(f, prior, current);
  }

  /** What the path holds after a file has been written: exactly what is wanted. */
  function WrittenPath(f: FileNode, sha: string): PathState { PathState(true, false, f.owner, f.group, f.mode, sha) }

  /** What is written and recorded needs nothing more, once its change action has completed: the next plan
      finds it in sync. */
  lemma WrittenFileIsInSync(f: FileNode, step: Step, changed: string)
    requires !f.node.absent && f.content.Some? && step.node == f.node && (f.node.changeAction != "" ==> changed == f.node.digest)
    ensures PlanFileLike(f, Some(ResourceOf(step, changed)), WrittenPath(f, f.content.value)).value.action.NoOp?
  {
    ActionsOfFile(f, Some(ResourceOf(step, changed)), WrittenPath(f, f.content.value));
  }
}
