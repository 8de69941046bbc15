# DebianForm: a verified model of its planning and apply engine

DebianForm compiles a configuration into a graph of resources and operations, plans what to do on each
host, and applies the plan in waves while it holds a lease on the remote state. This project models the
parts of it whose correctness is a matter of algorithms and protocols, and proves what they promise.

* **Lease** (`LeaseProtocol`, `LeaseOutcomes`, `LeaseTiming`, `LeaseEndToEnd`). The remote lock: acquire, renew and unlock
  scripts as processes that can be killed between any two file operations, the client that renews on a
  ticker, and both together.
* **Scheduling** (`Digraph`, `Acyclicity`, `Kahn`, `Schedule`, `Waves`, `Networkd`). The three-colour
  depth-first check, the worklist that layers the active graph, aliases and overrides, and the chain of
  networkd operations.
* **Execution** (`Inversion`, `Turning`, `DestroyOrder`, `TurnedPlans`, `RemovalExample`, `Orphans`,
  `ExecutionWaves`, `Executor`, `Execution`, `WaveMachine`, `WaveGuarantees`, `WaveLogs`, `WaveOrder`,
  `WaveEffects`, `WholeRuns`).
  Inverted edges of destroyed resources, orphans, failure containment over waves, the threads of one wave
  with their semaphores and state locks, and runs of all waves.
* **State and planning** (`RecordedState`, `StepEffects`, `Planning`, `PlannedRuns`, `PlanLink`,
  `Ownership`, `Memory`, `Convergence`, `ConvergedRun`, `ConvergedWaves`, `FilePayloads`, `ChangeAction`,
  `FilePlans`). Recorded state, the planner and whose a resource is, the in-memory backend and provider,
  plan/apply convergence, change actions over runs with failures, and the planning of files.
* **Configuration** (`MergeValues`, `MergeModifiers`, `Profiles`, `InputTypes`, `InputForms`). Value merging, memoised profile
  resolution, and normalisation of typed inputs.
* **Text** (`ShellQuote`, `Decimals`, `BulkRecords`, `BulkPlan`). Shell quoting against the word rules of
  the POSIX.1-2017 Shell Command Language (sections 2.2.1 to 2.2.3 and 2.3), the records of a bulk
  inspection, and bulk planning against planning one by one.

`Wrappers`, `Lists` and `Tallies` are shared helpers; `ResourceGraphs` and `Plans` are the data model.
Code that the program writes as loops over variables is written here as methods with loops, each proved
against a function or predicate about which the lemmas speak; objects that the program updates
(`Acyclicity.Visitor`, `Profiles.Compiler`, `Memory.MemoryBackend`, `Memory.MemoryProvider`,
`BulkPlan.BulkPlanRunner`) are classes. A map is iterated in any order.

Where several scripts or threads run at once, the model is a transition system, and a theorem about it
holds in every reachable state or over every run.

## What is not as one might expect

Some properties that one would like hold only under a condition, or not at all. The code is modelled as
it is, and the condition or a concrete run is proved.

* A token is *held* over one contiguous stretch, but not always *live* over one: a renewal that looks at
  its lease in time and is then held up can publish a new expiry after the old one has passed
  (`LeaseProtocol.LivenessCanLapse`). That is the only way in which an expired lease comes back
  (`LeaseProtocol.LateRenewalRevives`), and between two moments at which a token is live it is live
  throughout exactly if no renewal is published late in between (`LeaseProtocol.LiveIsContiguousIff`). No
  other token gets in between.
* The ticker starts only after the validating renewal, so that the first interval is longer than the
  others. The tenure of a client is covered from first to last exactly when the interval and two timeouts
  fit into the lease less a second, rounded up (`LeaseTiming.TenureCoveredIff`). A third of the lease for
  both fits only by rounding, for some leases that are a nanosecond or two past a whole second
  (`LeaseTiming.FullThirdsCoveredIff`). The default interval and timeout need a lease of
  more than 61 seconds, apart from such cases (`LeaseTiming.DefaultsCoveredIff`). After the first ticked
  renewal every setting with a lease of three seconds or more is safe
  (`LeaseTiming.SteadyForEverySetting`).
* Inverting the edges of destroyed resources can make a cycle out of an acyclic graph: a unit that is
  deleted, its service that stays, and the daemon reload between them cannot be scheduled
  (`DestroyOrder.RemovalUnderReloadIsCyclic`, `RemovalExample.UnitUnderReload`). Without a resource that
  stays and waits for an operation that waits for a destroyed resource, there is no cycle
  (`DestroyOrder.PlanIsSchedulable`); in general there is none exactly if the destroyed resources do not
  have to wait for each other in a circle (`DestroyOrder.PlanIsSchedulableIff`,
  `TurnedPlans.SchedulableByActionsIff`).
* Orphans on two hosts with the same address are reported as a dependency cycle: `Orphans.OrphanWaves`
  succeeds only if addresses are distinct.
* The planning of files does not ask for a pending change action where content can only be written. That
  a change action is always tried again rests on the graph builder, which gives no node both
  (`ChangeAction.PendingFileIsRetriedUnless`, `FilePayloads.WriteOnlyOrChangeAction`,
  `ChangeAction.PendingFileIsRetried`).
* The order in which an item lists the aliases it waits for depends on map iteration; waves, addresses
  and everything else about the items do not (`Waves.ScheduleDetermined`).
* Merging is not always associative: something of another kind between two maps, or between two lists,
  makes the first of them be lost in one grouping and kept in the other. `MergeValues.MergeAssociativeIff`
  says exactly when that makes no difference. The empty map is a left identity exactly for values that
  list no label twice and have no modifier at the top or right below it, and a right identity exactly for
  unmodified maps that list no label twice (`MergeValues.EmptyIsLeftIdentityIff`,
  `MergeValues.EmptyIsRightIdentityIff`).
* Bulk planning fails where planning one by one decides before it has run all the scripts listed for a
  node, and only there does it fail without need (`BulkPlan.BulkIsLiveIff`). For what is planned from a path
  that is the empty path (`BulkPlan.ReadInBulkIff`); the configuration rejects it for files
  (internal/core/merge/merge_files.go:26).

## Model

| member | source | states |
|---|---|---|
| `LeaseProtocol.StepKeepsInv` | internal/core/engine/ssh_backend.go:191-298 | the invariant of the lock files, the guard and the script that holds it survives every step of acquire, renew and unlock, the clock, and a kill between any two file operations; a record whose marker names someone else has expired |
| `LeaseProtocol.RunInv` | internal/core/engine/ssh_backend.go:103-298 | the invariant holds in every state of every run, for any number of clients |
| `LeaseProtocol.LiveEndsByUnlockOrExpiry` | internal/core/engine/ssh_backend.go:191-298 | a live lease ends only by the unlock of its own token or by the clock reaching its expiry: no recovery branch evicts a live holder |
| `LeaseProtocol.HoldEndsByUnlockOrExpiry` | internal/core/engine/ssh_backend.go:355-422 | record and marker of a token part only by its own unlock or after expiry |
| `LeaseProtocol.HoldBeginsByAcquire` | internal/core/engine/ssh_backend.go:270-298 | only the rename of its own acquire script makes a token held, once |
| `LeaseProtocol.ForeignScriptChangesNothing` | internal/core/engine/ssh_backend.go:475-556 | renew and unlock change the record only if it is their token's; renew only if it had not expired when it looked |
| `LeaseProtocol.ForeignScriptKeepsMarker` | internal/core/engine/ssh_backend.go:357-422 | nor do they touch a marker or directory that is not theirs |
| `LeaseProtocol.LateRenewalRevives` | internal/core/engine/ssh_backend.go:524-556 | an expired lease becomes live again exactly by a renewal that looked before the expiry, has its record ready and is published after it, before what it read plus the lease has passed |
| `LeaseProtocol.LiveIsContiguousIff` | internal/core/engine/ssh_backend.go:475-556 | over any run: between two moments at which a token is live it is live throughout exactly if no such late publication lies between |
| `LeaseProtocol.PublishedLeaseProtects` | internal/core/engine/ssh_backend.go:475-556 | over any run: what a renewal has published keeps the token held until that second, whatever other scripts do, unless its own unlock runs |
| `LeaseProtocol.LivenessCanLapse` | internal/core/engine/ssh_backend.go:524-556 | a concrete run in which that happens |
| `LeaseProtocol.TenureEndsLawfully` | internal/core/engine/ssh_backend.go:191-298 | whenever a held token is later not held, some step in between was its own unlock or came after its expiry |
| `LeaseProtocol.LeaseExclusion` | internal/core/engine/ssh_backend.go:191-298 | between live leases of two tokens lies the lawful end of the first |
| `LeaseProtocol.TenureIsContiguous` | internal/core/engine/ssh_backend.go:191-298 | a token is held over one contiguous stretch of a run |
| `LeaseProtocol.LostForGood` | internal/core/engine/ssh_backend.go:191-298 | a token that was acquired and lost is never held again |
| `LeaseOutcomes.UnlockReleases` | internal/core/engine/ssh_backend.go:355-422 | over any run: if a token is held before its unlock script gets the guard and the script succeeds, the token is not held then or ever after |
| `LeaseOutcomes.UnlockCleans` | internal/core/engine/ssh_backend.go:412-416 | an unlock script that looked while its token was held leaves the guard only with record and marker gone, and with the directory gone the next acquire script claims the lock |
| `LeaseOutcomes.AcquireTakesHold` | internal/core/engine/ssh_backend.go:184-298 | over any run: an acquire script that succeeds has held the lock with a whole lease, counted from no earlier than it started to wait |
| `LeaseOutcomes.RenewExtends` | internal/core/engine/ssh_backend.go:475-556 | over any run: a renew script that succeeds has published a lease counted from no earlier than it started to wait |
| `LeaseOutcomes.UnknownIsNeverTaken` | internal/core/engine/ssh_backend.go:211-244 | a record of an older kind, or a path that is no regular file, is left alone by all scripts for good |
| `LeaseOutcomes.ClaimIffAvailable` | internal/core/engine/ssh_backend.go:211-261 | an acquire script claims exactly if the lock is free, its lease has expired, or what was left there has been left for the grace period |
| `LeaseOutcomes.SoloAcquire` | internal/core/engine/ssh_backend.go:191-298 | undisturbed and in time, an acquire script takes an available lock, with record, marker and directory in place |
| `LeaseOutcomes.SoloAcquireWaits` | internal/core/engine/ssh_backend.go:211-298 | and changes nothing about any other, to try again or to fail |
| `LeaseOutcomes.SoloRetries` | internal/core/engine/ssh_backend.go:270-283 | if it cannot make the directory, it removes its temporary file and waits again while it has time |
| `LeaseOutcomes.SoloGivesUp` | internal/core/engine/ssh_backend.go:191-207 | out of time, it gives up and changes nothing |
| `LeaseOutcomes.SoloRenew` | internal/core/engine/ssh_backend.go:497-556 | undisturbed, a renew script of a live lease begins a whole lease and refreshes the marker |
| `LeaseOutcomes.SoloRenewFails` | internal/core/engine/ssh_backend.go:497-546 | and of any other it changes nothing and fails |
| `LeaseOutcomes.SoloUnlock` | internal/core/engine/ssh_backend.go:412-416 | undisturbed, an unlock script of a held token removes record, marker and directory |
| `LeaseOutcomes.SoloUnlockLeaves` | internal/core/engine/ssh_backend.go:376-421 | and otherwise changes nothing: it succeeds if there is no record, and fails if it is not its own |
| `LeaseEndToEnd.WorkingMeansExclusive` | internal/core/engine/ssh_backend.go:322-474 | client and scripts together, over any run: as long as a client whose timing fits goes on working, its token is live on the host, no other is, and any acquire script that looks has to wait |
| `LeaseEndToEnd.FirstClientWorks` | internal/core/engine/ssh_backend.go:322-329 | a concrete run of a client and its scripts to which that applies |
| `LeaseTiming.SecondsCeil` | internal/core/engine/ssh_backend.go:627-636 | whole seconds, rounded up, at least one |
| `LeaseTiming.ThirdsOfTheLease` | internal/core/engine/ssh_backend.go:585-625 | interval and timeout are positive; at most a third of the lease, or a millisecond each if a third is no whole nanosecond; for every setting |
| `LeaseTiming.SettingsAreUsed` | internal/core/engine/ssh_backend.go:585-625 | what is configured is used as it is if it is at most a third of the lease, and cut to just a third otherwise; what is not configured is the default |
| `LeaseTiming.StepKeepsInv` | internal/core/engine/ssh_backend.go:449-467 | how far the clock gets from the start of the last successful renewal, in each phase of the renewal loop |
| `LeaseTiming.FirstTickWaits` | internal/core/engine/ssh_backend.go:449-461 | before the first ticked renewal lies a whole interval |
| `LeaseTiming.TenureCoveredIff` | internal/core/engine/ssh_backend.go:443-467 | the whole tenure is covered exactly if the interval and two timeouts fit into the lease less one second |
| `LeaseTiming.SteadyTenureCoveredIff` | internal/core/engine/ssh_backend.go:449-467 | once the ticker has renewed, it is covered exactly if the longer of interval and timeout and one timeout more fit |
| `LeaseTiming.SteadyForEverySetting` | internal/core/engine/ssh_backend.go:585-636 | with a lease of three seconds or more every setting meets that bound |
| `LeaseTiming.SteadyForEverySettingIff` | internal/core/engine/ssh_backend.go:585-636 | exactly which leases, to the nanosecond, make every setting safe from then on |
| `LeaseTiming.FullThirdsCoveredIff` | internal/core/engine/ssh_backend.go:592-636 | with a third of the lease for interval and timeout the first renewal is covered exactly if the lease is so little past a whole second that rounding the third down makes up for it |
| `LeaseTiming.DefaultsCoveredIff` | internal/core/engine/ssh_backend.go:585-636 | for every lease: the default interval and timeout are covered exactly if it is longer than 61 seconds, or one of those cases |
| `LeaseTiming.SlowFirstRenewal` | internal/core/engine/ssh_backend.go:322-329 | the run that shows the bound on the first renewal to be exact |
| `LeaseTiming.SlowSteadyRenewal` | internal/core/engine/ssh_backend.go:449-467 | the run that shows the bound on the later ones to be exact |
| `Acyclicity.Visitor.Visit` | internal/core/graph/schedule.go:236-272 | a visit reports a real cycle, or leaves the stack as it was and the address finished |
| `Acyclicity.ValidateAcyclic` | internal/core/graph/schedule.go:233-284 | no error exactly if the graph has no cycle; the reported path is a cycle of it |
| `Schedule.ScheduleEntries` | internal/core/graph/schedule.go:167-231 | entries exactly for well-formed graphs, one for each address; what an error says is true |
| `Schedule.EntryOfNode` | internal/core/graph/schedule.go:167-190 | the entry of a node has its address, host, kind and dependencies, and may run beside others exactly if its kind may |
| `Schedule.EntryOfOperation` | internal/core/graph/schedule.go:190-212 | the entry of an operation has its address, host and dependencies, and runs beside no other |
| `Waves.ActiveDependencies` | internal/core/graph/schedule.go:309-326 | a dependency stands for itself if it is active, and otherwise for its active aliases, without repetition |
| `Waves.ActivateEntries` | internal/core/graph/schedule.go:85-120 | the active addresses, under their own names, with overridden and resolved dependencies; an unknown one is an error |
| `Waves.BuildTables` | internal/core/graph/schedule.go:121-130 | in-degrees and dependents describe the same edges from both ends |
| `Kahn.Layers` | internal/core/graph/schedule.go:134-163 | the worklist emits everything exactly if the graph is acyclic, and then its waves are the layers of the graph |
| `Waves.ScheduleWaves` | internal/core/graph/schedule.go:77-165 | waves exactly if the graph is well-formed and acyclic, all active addresses known and the active graph acyclic; each active address once, in its layer, sorted by address; errors are truthful |
| `Waves.DependenciesComeEarlier` | internal/core/graph/schedule.go:134-160 | whatever an item waits for stands in a strictly earlier wave |
| `Waves.ScheduleDetermined` | internal/core/graph/schedule.go:77-165 | any two results for the same inputs agree in waves, items and the sets they wait for |
| `Waves.NoActiveCycleWithoutOverrides` | internal/core/graph/schedule.go:161-163 | without overrides the count after the loop never falls short: an acyclic graph has an acyclic active part |
| `Digraph.LayerIsLongestChain` | internal/core/graph/schedule.go:134-160 | the wave of an address is the length of its longest chain of active dependencies |
| `Digraph.LayersAreMinimal` | internal/core/graph/schedule.go:134-160 | no other staging puts any address earlier |
| `Digraph.LayeringUnique` | internal/core/graph/schedule.go:134-160 | the layering does not depend on the order of iteration |
| `Lists.DedupeStrings` | internal/core/graph/graph_helpers.go:119-133 | first occurrences, without the empty string |
| `Inversion.ActiveDependencyOverrides` | internal/core/engine/engine.go:1616-1644 | exactly which active addresses a step waits for: a destroyed resource for its dependents, any other for its active dependencies, a destroyed one for no operation |
| `Turning.TurnedIsAcyclicIff` | internal/core/engine/engine.go:1616-1644 | turning the edges of destroyed resources keeps an acyclic graph acyclic exactly if the destroyed resources do not have to wait for each other in a circle, directly or through what stays |
| `Turning.TurnedIsAcyclic` | internal/core/engine/engine.go:1616-1644 | turning the edges of destroyed resources keeps a graph acyclic if nothing that stays waits for an operation that waits for one of them |
| `Turning.TangledIsCyclic` | internal/core/engine/engine.go:1616-1644 | a resource that stays, depends on a destroyed one and waits for an operation that waits for it, makes a cycle |
| `DestroyOrder.ExecObeysLaw` | internal/core/engine/engine.go:1543-1644 | the executed graph is the resource graph with just those edges turned |
| `DestroyOrder.PlanIsSchedulable` | internal/core/engine/engine.go:1543-1575 | under that hypothesis every plan of an acyclic graph can be scheduled |
| `DestroyOrder.PlanIsSchedulableIff` | internal/core/engine/engine.go:1543-1575 | without that hypothesis: a plan of an acyclic graph can be scheduled exactly if its destroyed resources do not wait for each other in a circle |
| `DestroyOrder.StepsInOrder` | internal/core/engine/engine.go:1616-1644 | a dependency goes before its dependent, and a destroyed one strictly after |
| `DestroyOrder.RemovalUnderReloadIsCyclic` | internal/core/graph/graph_host.go:1631-1699 | deleting a unit whose service stays cannot be scheduled |
| `RemovalExample.UnitUnderReload` | internal/core/graph/graph_host.go:1631-1699 | three addresses for which that happens on an acyclic graph |
| `TurnedPlans.ExecIsTurned` | internal/core/engine/engine.go:1543-1644 | if no operation runs under an address of its own: the executed graph is exactly the resource graph, restricted to what is active, with the edges of what is destroyed turned |
| `TurnedPlans.SchedulableByActionsIff` | internal/core/engine/engine.go:1543-1575 | so that from the resource graph and the actions of the plan alone it can be said exactly whether the plan can be scheduled |
| `Orphans.OrphanWaves` | internal/core/engine/engine.go:1646-1706 | waves exactly if orphan addresses are distinct and the reversed recorded edges acyclic; they are the layers, by address, each item for the host of its step and beside others if the recorded kind may |
| `ExecutionWaves.Build` | internal/core/engine/engine.go:1543-1614 | orphans first, then the layers of the executed graph; each item carries its step or operation, host, safety and dependencies |
| `PlanLink.PlanFits` | internal/core/engine/engine.go:1232-1316 | steps and runs of a plan have addresses of their own |
| `PlanLink.PlanIsWithin` | internal/core/engine/engine.go:1277-1305 | runs for single triggers wait for nothing that their operation does not, if it lists its triggers; all active addresses are known |
| `PlanLink.PlanIsExecutable` | internal/core/engine/engine.go:1543-1614 | from the graph and the plan to the existence of waves |
| `Execution.LaidOutIsOrdered` | internal/core/engine/engine.go:1568-1614 | over orphans and graph together every address occurs once and waits only for earlier waves |
| `Execution.BuildAndRun` | internal/core/engine/engine.go:326-333 | building and running: an error of building runs nothing; otherwise every item is accounted for |
| `Executor.BlockedDependency` | internal/core/engine/engine.go:2039-2049 | nothing exactly if no dependency failed or is blocked; otherwise a failed item behind one of them |
| `Executor.RunExecutionWaves` | internal/core/engine/engine.go:1708-1751 | each item runs at most once or is blocked; it is blocked exactly if it waits for one that failed or is blocked; the error is the first one |
| `Executor.FailuresAreContained` | internal/core/engine/engine.go:1732-1751 | an item runs exactly if no item that it waits for, directly or not, failed; the blamed item failed and is waited for |
| `Executor.NoErrorMeansAllRan` | internal/core/engine/engine.go:1745-1751 | no error exactly if every item ran without one |
| `WaveMachine.StepKeepsInv` | internal/core/engine/engine.go:1753-1808 | semaphores, queues, locks, kept and committed states stay consistent under every step of every thread |
| `WaveMachine.RunInv` | internal/core/engine/engine.go:1753-1808 | in every reachable state of every interleaving |
| `WaveGuarantees.SlotsAreLimited` | internal/core/engine/engine.go:1758-1790 | at most `parallel` items are at work, at most `perHostParallel` for a host |
| `WaveGuarantees.UnsafeItemsRunAlone` | internal/core/engine/engine.go:1772-1790 | an item that is not safe to run beside others is alone at its host |
| `WaveGuarantees.SomeStepIsEnabled` | internal/core/engine/engine.go:1753-1808 | until all have finished some step can be taken: the nested acquisition does not deadlock |
| `WaveGuarantees.StepsRunOut` | internal/core/engine/engine.go:1753-1808 | no run goes on for ever |
| `WaveGuarantees.FreeLockMeansInStep` | internal/core/engine/engine.go:1989-2020 | while a host's state lock is free, the kept state is the committed one |
| `WaveLogs.NoUpdateIsLost` | internal/core/engine/engine.go:1846-2020 | over any run, from the steps taken: every item with a host has performed, whatever had something to write has written it or failed to, and the final state is what the successful writes make of the first one, each once, in their order |
| `WaveLogs.RunTracked` | internal/core/engine/engine.go:1753-1808 | at any moment, the phase of an item says which of its steps it has taken, and the commits are the successful writes |
| `WaveOrder.RunIsFair` | internal/core/engine/engine.go:1764-1808 | whoever waits for a slot of the run gets it before anybody who had not yet begun |
| `WaveOrder.HostIsFair` | internal/core/engine/engine.go:1764-1808 | and whoever waits for slots of its host before anybody who had not yet asked there |
| `WaveGuarantees.InterleavingDoesNotMatter` | internal/core/engine/engine.go:1846-1912 | two interleavings with the same successful items end with the same state, if what they do is compatible |
| `RecordedState.RemoveStateDependencyReferences` | internal/core/engine/engine.go:2023-2037 | every reference to the address, and nothing else, is taken out |
| `RecordedState.CompatibleCommute` | internal/core/engine/engine.go:1989-2014 | records, drops and completions of different addresses commute unless one records a dependency on what the other drops |
| `RecordedState.OrderDoesNotMatter` | internal/core/engine/engine.go:1989-2014 | compatible effects come to the same state in any order |
| `RecordedState.DroppedIsUnreferenced` | internal/core/engine/engine.go:2005-2007 | after a drop nothing refers to the address until a dependent is recorded |
| `StepEffects.EditForStep` | internal/core/engine/engine.go:1989-2014 | the state that a step writes, if it writes one |
| `StepEffects.DependentComesFirst` | internal/core/engine/engine.go:1616-1644 | a step whose node depends on what another step destroys stands in an earlier wave |
| `StepEffects.NothingDangles` | internal/core/engine/engine.go:1996-2037 | after any run, complete or not, no recorded resource of a host depends on one that the run deleted or destroyed there |
| `WaveEffects.ItemsAreCompatible` | internal/core/engine/engine.go:1989-2014 | any two items of one wave of a plan have compatible effects |
| `WaveEffects.WaveOrderDoesNotMatter` | internal/core/engine/engine.go:1753-1912 | so that the states after a wave do not depend on how its threads were interleaved, only on which of them succeeded |
| `WholeRuns.BackendIsHistory` | internal/core/engine/engine.go:1708-1912 | at any moment of a run over all waves the stored state of a host is what all commits so far have made of the first one |
| `WholeRuns.EverySuccessIsRecorded` | internal/core/engine/engine.go:1708-2020 | in every wave that is over, an item that performed and had something to write has failed to write it or is among the commits |
| `WholeRuns.HistoryInOrder` | internal/core/engine/engine.go:1708-1751 | and the commits are in the order of the waves |
| `WholeRuns.NothingEverDangles` | internal/core/engine/engine.go:1708-2037 | at any moment of any run over all waves, whatever has failed and however threads were interleaved, nothing stored at a host depends on what the run has deleted or destroyed there |
| `Planning.OperationSteps` | internal/core/engine/engine.go:1232-1276 | the runs that the changed resources trigger, without dependencies on operations that do not run |
| `Planning.OperationForTriggers` | internal/core/engine/engine.go:1301-1316 | a run waits for its triggers and for what is no trigger of the operation |
| `Planning.OrphansOf` | internal/core/engine/engine.go:1151-1187 | a step for exactly the recorded resources that no node names: forgotten if adopted or of a kind that stays, destroyed otherwise |
| `Planning.MakePlan` | internal/core/engine/engine.go:149-237 | a step for every node to act on and every orphan, by that rule, and the triggered runs; fails exactly for an unknown host |
| `Planning.OrphansFollowRule` | internal/core/engine/engine.go:1161-1171 | in every plan, steps under addresses that no node has follow the rule for orphans, each recorded resource without a node has one, and nothing else is destroyed or forgotten |
| `PlannedRuns.RunsAreTriggered` | internal/core/engine/engine.go:1232-1316 | every run of a plan is of an operation one of whose triggers is created, updated or deleted, and waits for those and for what else the operation waits for, but for nothing idle |
| `PlannedRuns.TriggersRun` | internal/core/engine/engine.go:1232-1305 | and for each such trigger there is a run, its own if the operation runs once for each |
| `Ownership.ActionsOfNode` | internal/core/engine/engine.go:814-848 | exactly when a node is left alone, deleted, created, adopted or updated |
| `Ownership.AdoptedIsNeverDestroyed` | internal/core/engine/engine.go:1161-1171 | what was adopted and has not been written since is destroyed by no later plan, and forgotten if no node names it |
| `Ownership.CreatedIsDestroyed` | internal/core/engine/engine.go:1161-1171 | what was created and has not been written since is destroyed if no node names it, unless it is of a kind that stays |
| `Ownership.AdoptedUntilReconfigured` | internal/core/engine/engine.go:826-848 | an update keeps what was adopted adopted exactly if it only repairs it |
| `Ownership.RecordedAsPlanned` | internal/core/engine/engine.go:1996-2010 | what planning finds after a step was recorded, whatever is done about other resources: host, kind, digest, change action and ownership, and the dependencies that were not dropped |
| `Memory.MemoryBackend.Write` | internal/core/engine/memory.go:36-45 | the written state, and no other, is replaced |
| `Memory.MemoryBackend.Lock` | internal/core/engine/memory.go:47-55 | taken exactly if nobody has it |
| `Memory.PlannedThenSettled` | internal/core/engine/memory.go:82-160 | what is planned, carried out and recorded is planned as nothing to do, exactly if it triggered no change action, and in any case once that has completed |
| `Memory.MemoryProvider.Apply` | internal/core/engine/memory.go:100-149 | stores what the step asks for, or fails at the injected address and changes nothing |
| `Memory.MemoryProvider.Destroy` | internal/core/engine/memory.go:151-160 | stores that the resource is gone |
| `Convergence.ExecuteItem` | internal/core/engine/engine.go:1810-1844 | without an error, states and observations become what the item asks for; with one, no state changes |
| `Convergence.NodeIsSettled` | internal/core/engine/engine.go:814-848 | after a run without an error no node asks for anything |
| `Convergence.OrphansAreGone` | internal/core/engine/engine.go:1151-1187 | and nothing is recorded that no node names |
| `Convergence.AppliedMeansConverged` | internal/core/engine/engine.go:290-335 | then the next plan has no steps and no operations, from any recorded state and any observations |
| `ConvergedRun.CompletionComesLater` | internal/core/graph/graph_systemd.go:71-88 | a change action is in a later wave than the unit whose completion it records |
| `ConvergedRun.WavesConverge` | internal/core/engine/engine.go:290-335 | executing all items in the order of the waves without an error makes the next plan empty |
| `ConvergedWaves.AllListed` | internal/core/engine/engine.go:1543-1614 | the waves that are built hold every step and every run of the plan, each once |
| `ConvergedWaves.ItemCarriesNode` | internal/core/engine/engine.go:1588-1614 | an item of the graph may run beside others exactly if its resource is of a kind that may, and a run of an operation is for the host of the operation |
| `ConvergedWaves.WaveAfterWaveConverges` | internal/core/engine/engine.go:290-335 | so that executing the waves that are built, one after the other and each in any order, without an error makes the next plan empty |
| `ChangeAction.DigestMeansCompleted` | internal/core/engine/engine.go:1887-1903 | over any runs with any failures, the recorded digest of the change action is that of the resource exactly if the action completed, or the resource was adopted, since its last write |
| `ChangeAction.LastRecord` | internal/core/engine/engine.go:1996-2010 | the recorded digest is that of the last write or adoption, and no removal came after it |
| `ChangeAction.FailedActionIsRetried` | internal/core/engine/engine.go:834-843 | as long as it has not completed, every plan acts on the resource and triggers the action, whatever is observed |
| `ChangeAction.CompletedActionIsLeft` | internal/core/engine/engine.go:834-843 | once it has, a resource that is as desired is left alone |
| `ChangeAction.PendingFileIsRetriedUnless` | internal/core/engine/provider_files.go:35-63 | of any node whatever: a file with a pending change action is acted on exactly unless it is write-only, with matching attributes and recorded digest |
| `FilePayloads.WriteOnlyOrChangeAction` | internal/core/graph/graph_files.go:29-66 | a node is write-only exactly if it is a file of such content, has a change action exactly if it is a unit with one, and so never both |
| `FilePayloads.PayloadSaysSpec` | internal/core/graph/graph_files.go:29-66 | path, owner, group, mode and presence of a node are those that were asked for |
| `ChangeAction.PendingFileIsRetried` | internal/core/engine/provider_files.go:15-63 | so that of the nodes that the graph builds, every file with a pending change action is acted on, for all that may be recorded and found |
| `ChangeAction.FailedFileActionIsRetried` | internal/core/engine/provider_files.go:54-58 | over any runs with any failures, every plan of a unit file tries the action again until it has completed |
| `ChangeAction.CompletedFileIsInSync` | internal/core/engine/provider_files.go:49-63 | when a file as desired is in sync |
| `ChangeAction.ModeWithoutZeros` | internal/core/engine/provider_values.go:217-219 | modes are compared without their leading zeros |
| `FilePlans.ActionsOfFile` | internal/core/engine/provider_files.go:15-63 | for all files, all that may be recorded and all that may be found: exactly when a file is left alone, adopted, deleted or created, all else being an update, and when there is no plan |
| `FilePlans.SettledFileIsWanted` | internal/core/engine/provider_files.go:35-63 | a file that asks for nothing or is adopted is as it should be: absent, or there with the wanted owner, group, mode and, where it can be read, content |
| `FilePlans.OwnershipOfFile` | internal/core/engine/provider_files.go:22-63 | whose a file is planned to be, and that an adopted one needs no change action |
| `FilePlans.WrittenFileIsInSync` | internal/core/engine/provider_files.go:65-88 | a file that was written, recorded and completed is in sync |
| `MergeValues.AppendDedup` | internal/core/merge/merge_values.go:160-174 | the first item of each key, in order |
| `MergeValues.AppendedAssociative` | internal/core/merge/merge_values.go:160-174 | joining lists is associative |
| `MergeValues.MergeMapOrder` | internal/core/merge/merge_values.go:125-141 | labels in the order of their first occurrence |
| `MergeValues.MapOrderAssociative` | internal/core/merge/merge_values.go:125-141 | joining orders is associative |
| `MergeValues.Compute` | internal/core/merge/merge_values.go:61-123 | the recursive program, key by key over a copy, is the merge that the lemmas speak of, first error included |
| `MergeValues.ComputeFields` | internal/core/merge/merge_values.go:82-102 | all keys of both maps, removed ones left out, or the error of the first key that has one |
| `MergeModifiers.FieldsOfMerge` | internal/core/merge/merge_values.go:61-123 | field by field what merging two maps comes to: an unset removes, a forced value replaces whatever was there, maps are merged, lists are joined on the side that the overlay names, and anything else is the overlay's |
| `MergeModifiers.AppendedJoins` | internal/core/merge/merge_values.go:160-174 | a joined list has the items of the first list and then the new ones of the second, of each key the first |
| `MergeModifiers.FailsIffFaulty` | internal/core/merge/merge_values.go:61-115 | merging fails exactly if a list is unset or a side is named for no list, somewhere in what is merged, and the error is one that is there |
| `MergeValues.UnmodifiedMergeIsJoin` | internal/core/merge/merge_values.go:61-123 | without modifiers merging never fails and never removes |
| `MergeValues.JoinAssociativeIff` | internal/core/merge/merge_values.go:61-123 | for all values: exactly when joining three is associative, path by path |
| `MergeValues.MergeAssociativeIff` | internal/core/merge/merge_values.go:50-59 | the same for `Merge` as it is called, with unmodified overlays on any base; none of the merges fails |
| `MergeValues.AgreeingAssociate` | internal/core/merge/merge_values.go:61-123 | values whose kinds agree at every path that they share always associate |
| `MergeValues.EmptyIsLeftIdentityIff` | internal/core/merge/merge_values.go:50-59 | exactly which values come out of `Merge` onto the empty map as they were |
| `MergeValues.EmptyIsRightIdentityIff` | internal/core/merge/merge_values.go:50-59 | exactly which values `Merge` of the empty map leaves as they were |
| `MergeValues.LostListDoesNotAssociate` | internal/core/merge/merge_values.go:103-123 | a list, a leaf and an empty list: a case in which it is not |
| `Profiles.Compiler.ResolveProfile` | internal/core/merge/merge_profiles.go:9-47 | what is remembered of a profile is its resolved imports merged in order and then its own body, for any bodies; an error is an unknown profile or a cycle that can be reached, or names a profile that can be reached and the import or body at which merging its resolved imports fails, with that error |
| `Profiles.Compiler.Resolve` | internal/core/merge/merge_profiles.go:9-47 | fails, for bodies that can be merged, exactly if the imports lead to an unknown profile or round a cycle; the result is the fold over the flattened imports |
| `Profiles.Compiler.MergeHost` | internal/core/merge/merge.go:65-83 | the same for the imports and the body of a host, errors included, whatever was resolved for other hosts before |
| `Profiles.FoldOntoIsFold` | internal/core/merge/merge_profiles.go:26-40 | merging what some profiles come to is merging their bodies one by one |
| `Profiles.FlatUnique` | internal/core/merge/merge_profiles.go:9-13 | a profile flattens in one way only, so that remembering makes no difference |
| `Profiles.FlattenedHasNoCycle` | internal/core/merge/merge_profiles.go:17-20 | from a resolved profile no cycle and no unknown profile can be reached |
| `InputTypes.DedupeInPlace` | internal/core/merge/merge_components.go:697-706 | the in-place loop keeps, in the front of the array, the items whose key is not that of the item before |
| `InputTypes.AsSetAscends` | internal/core/merge/merge_components.go:693-707 | a normal set is strictly ascending by key |
| `InputTypes.Normalize` | internal/core/merge/merge_components.go:658-785 | the recursive program computes the normal form, first error included |
| `InputTypes.NormalizeInput` | internal/core/merge/merge_components.go:647-652 | what is accepted conforms to the type; a value is accepted unchanged exactly if it conforms and is null only where that is allowed; null comes out of null only, and is refused with its own error elsewhere |
| `InputTypes.NormalizedConforms` | internal/core/merge/merge_components.go:658-785 | what comes out conforms to the type: kinds, attributes, lengths, sorted sets, filled defaults |
| `InputTypes.ConformingIsNormal` | internal/core/merge/merge_components.go:658-785 | what conforms is left as it is |
| `InputTypes.NormalizingTwice` | internal/core/merge/merge_components.go:658-785 | normalising again changes nothing; exactly the conforming values are fixed points |
| `InputForms.NormalizedIff` | internal/core/merge/merge_components.go:658-785 | normalising comes to a value exactly if that is the normal form, said of the two values by kinds, parts, sets and defaults, without computing |
| `InputForms.AsSetIsSet` | internal/core/merge/merge_components.go:693-707 | a normal set has all the keys of the items, ascending, and of each key the item that came first |
| `InputForms.SetIsUnique` | internal/core/merge/merge_components.go:693-707 | and there is only one such set |
| `InputForms.DefaultsAreFilledIn` | internal/core/merge/merge_components.go:743-760 | a missing attribute gets the normal form of its default, the default itself if that conforms; without one it is null, and optional |
| `InputForms.ErrorsAreTrue` | internal/core/merge/merge_components.go:658-785 | every error is one that is there; in particular an attribute is reported missing only if it is, is not optional and has no default |
| `InputForms.FaultyHasNoForm` | internal/core/merge/merge_components.go:658-785 | a value with a fault anywhere has no normal form, so that normalising fails exactly then |
| `Networkd.Collect` | internal/core/graph/graph_networkd_activation.go:18-52 | a file becomes a trigger of the interfaces it names and of its script |
| `Networkd.AppendReconfigure` | internal/core/graph/graph_networkd_activation.go:54-74 | one operation for each interface, by name, each waiting for the reload and all before it |
| `Networkd.AppendPostReload` | internal/core/graph/graph_networkd_activation.go:85-115 | a script waits for the whole chain before it, whether its operation is new or there already |
| `Networkd.AppendActivation` | internal/core/graph/graph_host.go:1591-1598 | the whole chain: reload, interfaces by name, scripts by key |
| `Networkd.ChainIsInOrder` | internal/core/graph/schedule.go:116-128 | whichever of the chain are active, they are in waves of their own in the order of the chain |
| `ShellQuote.ShellQuoteArgs` | internal/core/engine/provider_docker.go:158-164 | every argument is quoted |
| `ShellQuote.QuoteReads` | internal/core/engine/ssh.go:385-390 | a quoted string reads as one word, that string, whatever follows |
| `ShellQuote.ShellQuoteRoundTrip` | internal/core/engine/ssh.go:385-390 | the space-joined quotations of any list read back as exactly that list |
| `ShellQuote.QuoteCommand` | internal/core/graph/graph_helpers.go:28-34 | the command of a list of arguments |
| `ShellQuote.QuoteArgReads` | internal/core/graph/graph_helpers.go:36-41 | a safe word left bare, or a quoted one, reads as one word |
| `ShellQuote.QuoteCommandRoundTrip` | internal/core/graph/graph_helpers.go:28-41 | the command reads back as exactly its arguments |
| `ShellQuote.CommandsAreDistinct` | internal/core/graph/graph_helpers.go:28-41 | different arguments make different commands |
| `BulkRecords.LineParses` | internal/core/engine/bulk_plan.go:269-291 | an emitted record is read back |
| `BulkRecords.PrintedParses` | internal/core/engine/bulk_plan.go:263-299 | all lines of an output are read back as the records, in their order |
| `BulkRecords.ReportsAreRestored` | internal/core/engine/bulk_plan.go:286-292 | in any order of the records every node gets its results in the order of its calls |
| `BulkRecords.ParseBulkPlanOutput` | internal/core/engine/bulk_plan.go:263-299 | the parser, line by line, is the one that the lemmas speak of |
| `BulkPlan.BulkPlanRunner.Run` | internal/core/engine/bulk_plan.go:75-82 | the next result, as long as there is one |
| `BulkPlan.PlanReplayed` | internal/core/engine/bulk_plan.go:41-53 | replaying uses all results or fails, with the error that says why |
| `BulkPlan.ReplayIsLive` | internal/core/engine/bulk_plan.go:41-53 | from the real results, replaying decides what live planning decides, with its errors, except that it is an error if some results are left |
| `BulkPlan.ReplayDiffersIff` | internal/core/engine/bulk_plan.go:50-52 | the two differ exactly if planning decides on some but not all of the results |
| `BulkPlan.PlanHostLegacy` | internal/core/engine/bulk_plan.go:58-68 | plans of all nodes one by one, or the first error |
| `BulkPlan.PlanHost` | internal/core/engine/bulk_plan.go:18-56 | for every deterministic host and every order of records: the failure of the bulk script if any listed script fails, and otherwise the plans of planning one by one or its first error, except that a node with scripts left is an error |
| `BulkPlan.BulkIsLiveIff` | internal/core/engine/bulk_plan.go:18-68 | bulk planning succeeds exactly if planning one by one does and runs all listed scripts, with the same plans; if all scripts succeed and are run, the errors are the same, too |
| `BulkPlan.ReadInBulkIff` | internal/core/engine/bulk_plan.go:174-190 | what is planned from a path is planned in bulk as by itself, exactly unless the path is empty |

## Left out

- Provider scripts, SSH connections, host facts, environment handling, the debugger, progress, colours, plan printing and the CLI: process and file input and output, and user interface.
- HCL and cty evaluation, `compileHost` and the building of host specifications: long translation, field by field; only the dependency edges cited above are used.
- Takeover of an abandoned lock directory without a marker: refused on purpose, so that only safety is stated, not that somebody gets the lock in the end.
- LeaseTiming: ticks are taken to be read on time and both clocks to run at the same rate; a renewal that is cut off at its timeout may still have taken effect.
- LeaseEndToEnd.WorkingMeansExclusive: client and host read one clock, and a renewal that the client takes for successful is one whose script has published.
- WaveMachine: cancelling a context while an item waits for a slot is not a step; the wake-up of a waiting thread is a step of its own, after the release that allows it.
- WaveMachine: outputs that a script reports are not recorded; an operation records its completion or nothing.
- RecordedState: of a resource the fields that planning and execution decide by; of observed values the change-action digest. Writing to the backend is taken to be atomic, and preparing a state for writing to keep those fields.
- StepEffects.NothingDangles: forgotten resources are excluded, as their edges are not inverted; references are those of the same host's state.
- Planning.OrphansOf: which kinds stay, and whether a directory is still managed by another node, is a parameter.
- LeaseOutcomes.UnlockCleans: if the record is already gone when an unlock script looks, it succeeds and leaves the marker, which then has to pass the grace period.
- Planning.MakePlan: moves, the host filter, preflight, and the lifecycle guard against destroying are not modelled; steps and operations are not sorted, as the waves do not depend on their order.
- Convergence.AppliedMeansConverged: for programs without moves and without script outputs, whose change actions are completed by an operation that they alone trigger, as the graph builds them.
- ConvergedWaves.WaveAfterWaveConverges: runs for single triggers are taken to have addresses of their own, and the items of a wave are executed one at a time; the interleaving of their threads is the subject of `WholeRuns`.
- TurnedPlans.ExecIsTurned: plans in which an operation runs once for each of its triggers are covered by `DestroyOrder.PlanIsSchedulableIff` only.
- Convergence.ExecuteItem: an item runs as one step here; what its threads do in between is the subject of `WaveMachine`.
- FilePayloads.WriteOnlyOrChangeAction: other nodes that are planned as files (units of Docker projects, package repositories, nftables files) list their desired values literally and name neither of the two; size and digest of a sensitive content are one value here.
- ChangeAction.DigestMeansCompleted: providers are taken to return no change-action digest of their own.
- MergeValues.MergeAssociativeIff: overlays with modifiers are not covered.
- MergeValues.Compute: source references, sensitivity marks and resource references of values; the key of a list item is a parameter.
- Profiles.Compiler.ResolveProfile: source positions in error messages.
- InputTypes.Normalize: names and positions in error messages; which of several unknown attributes is reported; the key of a value is a parameter.
- ShellQuote.QuoteCommandRoundTrip: words only: that a first word with an equals sign is taken for an assignment, or that a word is reserved, is not part of the word rules. NUL characters are not excluded, as nothing depends on them.
- BulkRecords.LineParses: base64 is a parameter that is taken to be invertible and free of line ends; a negative call number, at which the program would stop, is no record.
- BulkPlan.PlanHost: the here-documents that carry the scripts, standard error, and nodes of unsupported kinds.
- Networkd.AppendActivation: the addresses of interfaces and scripts, and finding the script of a group, are parameters.
- Docker, user, package, archive and certificate providers: shell text whose effects live on the host.
