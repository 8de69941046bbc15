/** Recorded state, plans, and the items that a plan is executed as. */
module Plans {
  import opened Wrappers
  import opened ResourceGraphs

  datatype Action = Create | Update | Delete | Destroy | Adopt | Forget | NoOp

  /** What the recorded state says of a resource. `changed` is the digest, kept among the observed
      values, at which the change action of the resource last completed. */
  datatype Resource = Resource(
    host: string, kind: string, ownership: string, digest: string, changeAction: string, changed: string,
    dependsOn: seq<string>)

  /** A step about a resource: `node` is what is desired, `prior` what is recorded, and `changed` the
      change-action digest among the values that planning observed. */
  datatype Step = Step(
    address: string, host: string, action: Action, node: Node, prior: Option<Resource>,
    ownership: string, changed: string)

  datatype OperationStep = OperationStep(address: string, operation: Operation)

  datatype Plan = Plan(steps: seq<Step>, operations: seq<OperationStep>)

  predicate DestroysResource(action: Action) { action.Delete? || action.Destroy? }

  predicate TriggersOperation(action: Action) { action.Create? || action.Update? || action.Delete? }

  datatype ExecutionItem =
    | ResourceItem(address: string, host: string, safeParallel: bool, dependsOn: seq<string>, step: Step)
    | OperationItem(address: string, host: string, dependsOn: seq<string>, operation: OperationStep)
}
