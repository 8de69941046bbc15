/** Inspecting all resources of a host with one script, and planning each from the recorded answers, against
    planning each with scripts of its own. */
module BulkPlan {
  import opened Wrappers
  import opened Planning
  import opened BulkRecords

  /** What the planning of a resource does after some answers: run another script, decide, or fail. */
  datatype Move = Ask(script: string) | Decide(plan: ProviderPlan) | Fail(error: string)

  /** Planning fails of itself, because a script does, because the bulk script does, because the bulk
      results run out, or because some of them are not used. */
  datatype PlanError =
    | Own(error: string)
    | ScriptFailed(script: string)
    | BulkFailed
    | NoResult
    | Unused(address: string, count: nat)

  /** A resource with its prior state: its planning, and the scripts that are run for it in bulk. */
  datatype BulkNode = BulkNode(address: string, scripts: seq<string>, plan: seq<string> -> Move)

  /** What a host prints when it runs a script; none if the script fails. */
  type Host = string -> Option<string>

  /** The planning runs the listed scripts in their order; it may decide or fail before the last. */
  ghost predicate Issues(n: BulkNode) {
    forall answers: seq<string> {:trigger n.plan(answers)} ::
      n.plan(answers).Ask? ==> |answers| < |n.scripts| && n.plan(answers).script == n.scripts[|answers|]
  }

  ghost predicate AllIssue(nodes: seq<BulkNode>) { forall i {:trigger nodes[i]} :: 0 <= i < |nodes| ==> Issues(nodes[i]) }

  type HostPlans = map<string, ProviderPlan>

  // ---------------------------------------------------------------- one by one

  ghost function Live(n: BulkNode, host: Host, answers: seq<string>): Result<ProviderPlan, PlanError>
    requires Issues(n) && |answers| <= |n.scripts|
    decreases |n.scripts| - |answers|
  {
    match n.plan(answers)
    case Fail(e) => Err(Own(e))
    case Decide(p) => Ok(p)
    case Ask(script) => if host(script).None? then Err(ScriptFailed(script)) else Live(n, host, answers + [host(script).value])
  }

  method PlanLive(n: BulkNode, host: Host) returns (r: Result<ProviderPlan, PlanError>)
    requires Issues(n)
    ensures r == Live(n, host, [])
  {
    var answers: seq<string> := [];
    var move := n.plan(answers);
    while move.Ask?
      invariant |answers| <= |n.scripts| && move == n.plan(answers) && Live(n, host, answers) == Live(n, host, [])
      decreases |n.scripts| - |answers|
    {
      var result := host(move.script);
      if result.None? {
        return Err(ScriptFailed(move.script));
      }
      answers := answers + [result.value];
      move := n.plan(answers);
    }
    r := if move.Decide? then Ok(move.plan) else Err(Own(move.error));
  }

  type Planned = Result<ProviderPlan, PlanError>

  /** The plans of some nodes, or the first error. */
  function Gather(nodes: seq<BulkNode>, planned: seq<Planned>): Result<HostPlans, PlanError>
    requires |nodes| == |planned|
  {
    if nodes == [] then Ok(map[]) else
      var before, last := Gather(nodes[..|nodes| - 1], planned[..|nodes| - 1]), planned[|nodes| - 1];
      if before.Err? then before
      else if last.Err? then Err(last.error)
      else Ok(before.value[nodes[|nodes| - 1].address := last.value])
  }

  lemma GatherNext(nodes: seq<BulkNode>, planned: seq<Planned>, i: nat)
    requires |nodes| == |planned| && i < |nodes|
    ensures Gather(nodes[..i + 1], planned[..i + 1])
         == match Gather(nodes[..i], planned[..i])
            case Err(e) => Err(e)
            case Ok(plans) => match planned[i] { case Err(e) => Err(e) case Ok(p) => Ok(plans[nodes[i].address := p]) }
  {
    assert nodes[..i + 1][..i] == nodes[..i] && planned[..i + 1][..i] == planned[..i];
  }

  lemma {:induction false} GatherStops(nodes: seq<BulkNode>, planned: seq<Planned>, i: nat)
    requires |nodes| == |planned| && i <= |nodes| && Gather(nodes[..i], planned[..i]).Err?
    ensures Gather(nodes, planned) == Gather(nodes[..i], planned[..i])
    decreases |nodes| - i
  {
    if i == |nodes| {
      assert nodes[..i] == nodes && planned[..i] == planned;
    } else {
      GatherNext(nodes, planned, i);
      GatherStops(nodes, planned, i + 1);
    }
  }

  /** It is the first error, and otherwise there is none. */
  lemma {:induction false} GatherFails(nodes: seq<BulkNode>, planned: seq<Planned>)
    requires |nodes| == |planned|
    ensures Gather(nodes, planned).Ok? <==> forall i :: 0 <= i < |planned| ==> planned[i].Ok?
  {
    if nodes != [] { GatherFails(nodes[..|nodes| - 1], planned[..|nodes| - 1]); }
  }

  ghost function LivePlans(nodes: seq<BulkNode>, host: Host): (r: seq<Planned>)
    requires AllIssue(nodes)
    ensures |r| == |nodes| && forall i :: 0 <= i < |r| ==> r[i] == Live(nodes[i], host, [])
  {
    seq(|nodes|, i requires 0 <= i < |nodes| => Live(nodes[i], host, []))
  }

  ghost function AllLive(nodes: seq<BulkNode>, host: Host): Result<HostPlans, PlanError>
    requires AllIssue(nodes)
  {
    Gather(nodes, LivePlans(nodes, host))
  }

  method PlanHostLegacy(nodes: seq<BulkNode>, host: Host) returns (r: Result<HostPlans, PlanError>)
    requires AllIssue(nodes)
    ensures r == AllLive(nodes, host)
  {
    ghost var planned := LivePlans(nodes, host);
    var plans: HostPlans := map[];
    for i := 0 to |nodes|
      invariant Gather(nodes[..i], planned[..i]) == Ok(plans)
    {
      var plan := PlanLive(nodes[i], host);
      GatherNext(nodes, planned, i);
      if plan.Err? {
        GatherStops(nodes, planned, i + 1);
        return Err(plan.error);
      }
      plans := plans[nodes[i].address := plan.value];
    }
    assert nodes[..|nodes|] == nodes && planned[..|nodes|] == planned;
    r := Ok(plans);
  }

  // ---------------------------------------------------------------- in bulk

  /** Answers scripts from a list, whatever they are, and remembers how far it has come. */
  class BulkPlanRunner {
    const outputs: seq<string>
    var pos: nat

    constructor (outputs: seq<string>)
      ensures this.outputs == outputs && pos == 0
    {
      this.outputs, pos := outputs, 0;
    }

    method Run(script: string) returns (r: Option<string>)
      requires pos <= |outputs|
      modifies this`pos
      ensures if old(pos) < |outputs| then r == Some(outputs[old(pos)]) && pos == old(pos) + 1 else r.None? && pos == old(pos)
    {
      if pos >= |outputs| {
        return None;
      }
      r := Some(outputs[pos]);
      pos := pos + 1;
    }
  }

  /** Planning from the answers from `pos` on; all of them have to be used. */
  ghost function Replayed(n: BulkNode, outputs: seq<string>, pos: nat): Planned
    requires pos <= |outputs|
    decreases |outputs| - pos
  {
    match n.plan(outputs[..pos])
    case Fail(e) => Err(Own(e))
    case Decide(p) => if pos == |outputs| then Ok(p) else Err(Unused(n.address, |outputs| - pos))
    case Ask(_) => if pos == |outputs| then Err(NoResult) else Replayed(n, outputs, pos + 1)
  }

  method PlanReplayed(n: BulkNode, outputs: seq<string>) returns (r: Planned)
    ensures r == Replayed(n, outputs, 0)
  {
    var runner := new BulkPlanRunner(outputs);
    var answers: seq<string> := [];
    var move := n.plan(answers);
    assert outputs[..0] == [];
    while move.Ask?
      invariant runner.outputs == outputs && runner.pos <= |outputs| && answers == outputs[..runner.pos]
      invariant move == n.plan(answers) && Replayed(n, outputs, runner.pos) == Replayed(n, outputs, 0)
      decreases |outputs| - runner.pos
    {
      var result := runner.Run(move.script);
      if result.None? {
        return Err(NoResult);
      }
      answers := answers + [result.value];
      assert answers == outputs[..runner.pos];
      move := n.plan(answers);
    }
    if move.Fail? {
      return Err(Own(move.error));
    }
    if runner.pos != |runner.outputs| {
      return Err(Unused(n.address, |runner.outputs| - runner.pos));
    }
    r := Ok(move.plan);
  }

  /** How many of the listed scripts are left when planning on the host decides. */
  ghost function Unread(n: BulkNode, host: Host, answers: seq<string>): nat
    requires Issues(n) && |answers| <= |n.scripts|
    decreases |n.scripts| - |answers|
  {
    match n.plan(answers)
    case Fail(_) => 0
    case Decide(_) => |n.scripts| - |answers|
    case Ask(script) => if host(script).None? then 0 else Unread(n, host, answers + [host(script).value])
  }

  /** What bulk planning makes of each node: what live planning does, but an error if a script is left. */
  ghost function BulkPlans(nodes: seq<BulkNode>, host: Host): (r: seq<Planned>)
    requires AllIssue(nodes)
    ensures |r| == |nodes|
    ensures forall i :: 0 <= i < |r| ==>
      r[i] == if Unread(nodes[i], host, []) > 0 then Err(Unused(nodes[i].address, Unread(nodes[i], host, []))) else Live(nodes[i], host, [])
  {
    seq(|nodes|, i requires 0 <= i < |nodes| =>
      if Unread(nodes[i], host, []) > 0 then Err(Unused(nodes[i].address, Unread(nodes[i], host, []))) else Live(nodes[i], host, []))
  }

  ghost predicate AllSucceed(nodes: seq<BulkNode>, host: Host) {
    forall i, c :: 0 <= i < |nodes| && 0 <= c < |nodes[i].scripts| ==> host(nodes[i].scripts[c]).Some?
  }

  /** What bulk planning comes to. */
  ghost function InBulk(nodes: seq<BulkNode>, host: Host): Result<HostPlans, PlanError>
    requires AllIssue(nodes)
  {
    if !AllSucceed(nodes, host) then Err(BulkFailed) else Gather(nodes, BulkPlans(nodes, host))
  }

  /** `PlanHost`, given what the host has printed for the bulk script, or that the script has failed. */
  method PlanHost(nodes: seq<BulkNode>, host: Host, bulk: Option<string>, codec: Codec, ghost results: seq<seq<string>>)
    returns (r: Result<HostPlans, PlanError>)
    requires Sound(codec) && AllIssue(nodes)
    requires Answered(nodes, host, bulk, codec, results)
    ensures r == InBulk(nodes, host)
  {
    if |nodes| == 0 {
      return Ok(map[]);
    }
    if bulk.None? {
      return Err(BulkFailed);
    }
    var outputs := ParseBulkPlanOutput(bulk.value, codec);
    if outputs.None? {
      NothingUnread(nodes, host, bulk, codec, results);
      r := PlanHostLegacy(nodes, host);
      return;
    }
    AnswersAreRestored(nodes, host, bulk, codec, results);
    r := PlanFrom(nodes, host, outputs.value, results);
  }

  /** Every node has its answers. */
  ghost predicate Restored(nodes: seq<BulkNode>, host: Host, outputs: Outputs, results: seq<seq<string>>) {
    && |results| == |nodes|
    && forall i :: 0 <= i < |nodes| ==> Issues(nodes[i]) && Results(nodes[i], host, results[i]) && At(outputs, i) == results[i]
  }

  /** The loop over the nodes. */
  method PlanFrom(nodes: seq<BulkNode>, host: Host, outputs: Outputs, ghost results: seq<seq<string>>) returns (r: Result<HostPlans, PlanError>)
    requires AllIssue(nodes) && Restored(nodes, host, outputs, results)
    ensures r == Gather(nodes, BulkPlans(nodes, host))
  {
    ghost var planned := BulkPlans(nodes, host);
    var plans: HostPlans := map[];
    for i := 0 to |nodes|
      invariant Gather(nodes[..i], planned[..i]) == Ok(plans)
    {
      var plan := PlanReplayed(nodes[i], At(outputs, i));
      ReplayIsBulk(nodes[i], host, results[i]);
      GatherNext(nodes, planned, i);
      if plan.Err? {
        GatherStops(nodes, planned, i + 1);
        return Err(plan.error);
      }
      plans := plans[nodes[i].address := plan.value];
    }
    assert nodes[..|nodes|] == nodes && planned[..|nodes|] == planned;
    r := Ok(plans);
  }

  // ---------------------------------------------------------------- when it is the same

  ghost predicate ResultsOf(nodes: seq<BulkNode>, host: Host, results: seq<seq<string>>) {
    && |results| == |nodes| && (forall i :: 0 <= i < |nodes| ==> Results(nodes[i], host, results[i]))
  }

  ghost predicate Results(n: BulkNode, host: Host, outputs: seq<string>) {
    |outputs| == |n.scripts| && forall c :: 0 <= c < |outputs| ==> host(n.scripts[c]) == Some(outputs[c])
  }

  /** The host answers the bulk script: it fails if one of the scripts does, and otherwise prints a record
      for each, in any order. */
  ghost predicate Answered(nodes: seq<BulkNode>, host: Host, bulk: Option<string>, codec: Codec, results: seq<seq<string>>) {
    if !AllSucceed(nodes, host) then bulk.None?
    else ResultsOf(nodes, host, results) && exists records :: ReportedBy(records, bulk, codec, results)
  }

  ghost predicate ReportedBy(records: seq<Record>, bulk: Option<string>, codec: Codec, results: seq<seq<string>>) {
    && Reports(records, results) && (forall r :: r in records ==> r.index >= 0)
    && bulk == Some(Printed(records, codec))
  }

  /** From the real answers, replaying decides what live planning decides, with the same errors, and is
      short of none; only if some are left it fails instead. */
  lemma {:induction false} ReplayIsLive(n: BulkNode, host: Host, outputs: seq<string>, pos: nat)
    requires Issues(n) && Results(n, host, outputs) && pos <= |outputs|
    ensures var left := Unread(n, host, outputs[..pos]);
      Replayed(n, outputs, pos) == if left > 0 then Err(Unused(n.address, left)) else Live(n, host, outputs[..pos])
    decreases |outputs| - pos
  {
    var move := n.plan(outputs[..pos]);
    if move.Ask? {
      assert pos < |n.scripts| && move == Ask(n.scripts[pos]);
      assert outputs[..pos] + [outputs[pos]] == outputs[..pos + 1];
      ReplayIsLive(n, host, outputs, pos + 1);
    }
  }

  lemma ReplayIsBulk(n: BulkNode, host: Host, outputs: seq<string>)
    requires Issues(n) && Results(n, host, outputs)
    ensures var left := Unread(n, host, []);
      Replayed(n, outputs, 0) == if left > 0 then Err(Unused(n.address, left)) else Live(n, host, [])
  {
    ReplayIsLive(n, host, outputs, 0);
    assert outputs[..0] == [];
  }

  /** Where planning decides with fewer answers than there are, having asked up to there. */
  ghost predicate DecidesAt(n: BulkNode, outputs: seq<string>, pos: nat, c: nat) {
    pos <= c < |outputs| && n.plan(outputs[..c]).Decide? && forall b {:trigger outputs[..b]} :: pos <= b < c ==> n.plan(outputs[..b]).Ask?
  }

  /** Replaying differs from live planning exactly if planning decides on some, but not all, of the answers. */
  lemma {:induction false} ReplayDiffersIff(n: BulkNode, host: Host, outputs: seq<string>, pos: nat)
    requires Issues(n) && Results(n, host, outputs) && pos <= |outputs|
    ensures Replayed(n, outputs, pos) != Live(n, host, outputs[..pos]) <==> exists c :: DecidesAt(n, outputs, pos, c)
    decreases |outputs| - pos
  {
    var move := n.plan(outputs[..pos]);
    if move.Ask? {
      assert pos < |n.scripts| && move == Ask(n.scripts[pos]);
      assert outputs[..pos] + [outputs[pos]] == outputs[..pos + 1];
      var next := pos + 1;
      ReplayDiffersIff(n, host, outputs, next);
      if c :| DecidesAt(n, outputs, next, c) { assert DecidesAt(n, outputs, pos, c); }
      if c :| DecidesAt(n, outputs, pos, c) { assert DecidesAt(n, outputs, next, c); }
    } else if move.Decide? && pos < |outputs| {
      assert DecidesAt(n, outputs, pos, pos);
    } else {
      forall c ensures !DecidesAt(n, outputs, pos, c) {}
    }
  }

  lemma AnswersAreRestored(nodes: seq<BulkNode>, host: Host, bulk: Option<string>, codec: Codec, results: seq<seq<string>>)
    requires Sound(codec) && Answered(nodes, host, bulk, codec, results) && bulk.Some? && Parsed(bulk.value, codec).Some?
    requires AllIssue(nodes)
    ensures Restored(nodes, host, Parsed(bulk.value, codec).value, results)
  {
    var records :| ReportedBy(records, bulk, codec, results);
    if records == [] {
      assert Printed(records, codec) == "";
      NothingParses(codec);
    } else {
      PrintedParses(records, codec);
      ReportsAreRestored(records, results);
    }
  }

  lemma {:induction false} NeverMoreUnread(n: BulkNode, host: Host, answers: seq<string>)
    requires Issues(n) && |answers| <= |n.scripts|
    ensures Unread(n, host, answers) <= |n.scripts| - |answers|
    decreases |n.scripts| - |answers|
  {
    var move := n.plan(answers);
    if move.Ask? && host(move.script).Some? { NeverMoreUnread(n, host, answers + [host(move.script).value]); }
  }

  /** Output that does not parse is empty, as no script has been run. */
  lemma NothingUnread(nodes: seq<BulkNode>, host: Host, bulk: Option<string>, codec: Codec, results: seq<seq<string>>)
    requires Sound(codec) && Answered(nodes, host, bulk, codec, results) && bulk.Some? && Parsed(bulk.value, codec).None?
    requires AllIssue(nodes)
    ensures InBulk(nodes, host) == AllLive(nodes, host)
  {
    var records :| ReportedBy(records, bulk, codec, results);
    if records != [] { PrintedParses(records, codec); }
    forall i | 0 <= i < |nodes| ensures Unread(nodes[i], host, []) == 0 {
      NothingReported(records, results, i);
      NeverMoreUnread(nodes[i], host, []);
    }
    assert BulkPlans(nodes, host) == LivePlans(nodes, host);
  }

  lemma NothingReported(records: seq<Record>, results: seq<seq<string>>, i: nat)
    requires Reports(records, results) && i < |results|
    ensures results[i] == [] || Record(i, 0, results[i][0]) in records
  {
  }

  lemma NothingParses(codec: Codec)
    ensures Parsed("", codec).None?
  {
    RecordsNext([], "", ReaderOf(codec));
    assert [] + [""] == [""];
  }

  /** A script that fails makes its node fail, unless that has failed or decided before. */
  lemma {:induction false} FailedScriptFails(n: BulkNode, host: Host, c: nat, answers: seq<string>)
    requires Issues(n) && c < |n.scripts| && host(n.scripts[c]).None? && |answers| <= c
    ensures Live(n, host, answers).Err? || Unread(n, host, answers) > 0
    decreases c - |answers|
  {
    var move := n.plan(answers);
    if move.Ask? && host(move.script).Some? {
      assert |answers| != c;
      FailedScriptFails(n, host, c, answers + [host(move.script).value]);
    }
  }

  ghost predicate NoneUnread(nodes: seq<BulkNode>, host: Host)
    requires AllIssue(nodes)
  {
    forall i :: 0 <= i < |nodes| ==> Unread(nodes[i], host, []) == 0
  }

  /** Bulk planning succeeds exactly if planning one by one does and runs all the listed scripts, and then
      with the same plans; if all scripts succeed and are run, the errors are the same, too. */
  lemma BulkIsLiveIff(nodes: seq<BulkNode>, host: Host)
    requires AllIssue(nodes)
    ensures InBulk(nodes, host).Ok? <==> AllLive(nodes, host).Ok? && NoneUnread(nodes, host)
    ensures NoneUnread(nodes, host) && AllSucceed(nodes, host) ==> InBulk(nodes, host) == AllLive(nodes, host)
  {
    var live, bulk := LivePlans(nodes, host), BulkPlans(nodes, host);
    GatherFails(nodes, live);
    GatherFails(nodes, bulk);
    if !AllSucceed(nodes, host) {
      var i, c :| 0 <= i < |nodes| && 0 <= c < |nodes[i].scripts| && host(nodes[i].scripts[c]).None?;
      FailedScriptFails(nodes[i], host, c, []);
      assert live[i].Err? || !NoneUnread(nodes, host);
    } else if NoneUnread(nodes, host) {
      assert live == bulk;
    } else {
      var i :| 0 <= i < |nodes| && Unread(nodes[i], host, []) > 0;
      assert bulk[i].Err?;
    }
  }

  // ---------------------------------------------------------------- reading a path

  function Decided(r: Result<ProviderPlan, string>): Move { if r.Ok? then Decide(r.value) else Fail(r.error) }

  function ReadingMove(path: string, readPath: string -> string, decide: Option<string> -> Result<ProviderPlan, string>, answers: seq<string>): Move {
    if path == "" then Decided(decide(None))
    else if |answers| == 0 then Ask(readPath(path))
    else Decided(decide(Some(answers[0])))
  }

  /** A resource that is planned from what is found at a path. Nothing is read at the empty path, and an
      empty script stands for it in bulk. */
  function ReadingNode(address: string, path: string, readPath: string -> string, decide: Option<string> -> Result<ProviderPlan, string>): BulkNode {
    BulkNode(address, [if path == "" then ":\n" else readPath(path)],
      (answers: seq<string>) => ReadingMove(path, readPath, decide, answers))
  }

  lemma ReadingUnread(address: string, path: string, readPath: string -> string, decide: Option<string> -> Result<ProviderPlan, string>, host: Host)
    ensures var n := ReadingNode(address, path, readPath, decide);
      Issues(n) && (Unread(n, host, []) > 0 <==> path == "" && decide(None).Ok?)
  {
    var n := ReadingNode(address, path, readPath, decide);
    assert n.plan([]) == if path == "" then Decided(decide(None)) else Ask(readPath(path));
    forall answers: seq<string> | n.plan(answers).Ask? ensures |answers| < |n.scripts| && n.plan(answers).script == n.scripts[|answers|] {
      assert n.plan(answers) == ReadingMove(path, readPath, decide, answers);
    }
    if path != "" && host(readPath(path)).Some? {
      NeverMoreUnread(n, host, [] + [host(readPath(path)).value]);
    }
  }

  /** In bulk such a resource is planned as it is by itself, exactly unless its path is empty. */
  lemma ReadInBulkIff(address: string, path: string, readPath: string -> string, decide: Option<string> -> Result<ProviderPlan, string>, host: Host)
    ensures var nodes := [ReadingNode(address, path, readPath, decide)];
      AllIssue(nodes) && (InBulk(nodes, host).Ok? <==> AllLive(nodes, host).Ok? && path != "")
  {
    var n := ReadingNode(address, path, readPath, decide);
    var nodes := [n];
    ReadingUnread(address, path, readPath, decide, host);
    assert AllIssue(nodes);
    BulkIsLiveIff(nodes, host);
    GatherFails(nodes, LivePlans(nodes, host));
    assert nodes[0] == n && LivePlans(nodes, host)[0] == Live(n, host, []);
    assert NoneUnread(nodes, host) <==> Unread(n, host, []) == 0;
    if path == "" { assert Live(n, host, []).Ok? <==> decide(None).Ok?; }
  }
}
