/** The compiled resource graph, with the fields that scheduling, planning and execution read. */
module ResourceGraphs {
  import opened Wrappers

  /** A resource. `digest` is the digest of its desired values, `absent` says that it is desired not to
      exist, `changeAction` is the action to run after a change of it, if any. */
  datatype Node = Node(
    address: string, host: string, kind: string, dependsOn: seq<string>,
    digest: string, absent: bool, changeAction: string)

  /** Something to run when one of its triggers changes: once for all of them, or once for each.
      A completion names the resource in whose state a successful run is recorded. */
  datatype Operation = Operation(
    address: string, host: string, dependsOn: seq<string>, triggeredBy: seq<string>,
    each: bool, completion: Option<string>)

  datatype ResourceGraph = ResourceGraph(nodes: seq<Node>, operations: seq<Operation>)

  datatype ScheduleItem = ScheduleItem(
    address: string, host: string, kind: string, operation: bool, safeParallel: bool, dependsOn: seq<string>)

  const SAFE_PARALLEL_KINDS: set<string> := {
    "file", "secret", "systemd_unit", "nftables_file", "networkd_netdev", "networkd_network", "directory",
    "component_download", "component_build", "component_binary", "component_file",
    "component_ca_certificate", "component_archive", "component_script_output"}

  predicate SafeParallelKind(kind: string) { kind in SAFE_PARALLEL_KINDS }
}
