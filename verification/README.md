# bootc-operator: the reboot-slot rollout, verified

The operator updates the operating system of a pool of cluster nodes by rebooting them a few at a
time. Its controller and a daemon on every node talk only through a shared record, the BootcNode. The
controller hands out reboot slots as annotations on BootcNodes, cordons and fences Nodes and Karpenter
NodeClaims, drains them, approves reboots, and undoes everything once a node is back. Any API call may
be refused, or be applied while the caller sees an error; a restart loses the drains that are running.

The project models this as a protocol and proves what holds of all its runs. It then proves that the
controller's passes, written as imperative code against an adversarial environment, take only steps of
that protocol.

## Layout

| file | content |
|---|---|
| `types.dfy`, `slot.dfy`, `classify.dfy`, `daemon.dfy` | the records and the decisions both sides compute from them |
| `handshake.dfy` | controller and daemon read a BootcNode alike |
| `cluster.dfy` | the protocol: one step is one accepted write, one change in memory, or one event outside |
| `invariants.dfy` | what every step keeps |
| `safety.dfy`, `gates.dfy`, `taints.dfy`, `budget.dfy`, `clock.dfy`, `progress.dfy` | theorems about all runs |
| `runs.dfy`, `retarget.dfy`, `returns.dfy`, `completion.dfy` | theorems that runs exist: those that break a promise outside its condition, by a drain, a returning Node or an edit, and those that complete a rollout |
| `rollout_state.dfy` | one pass's view of a pool: buckets, timeouts, bad slots, order of candidates |
| `passes.dfy`, `advance.dfy`, `controller.dfy` | class `Operator`: membership, rollout, deletion and reconcile as code |
| `stage_op.dfy`, `watcher.dfy` | the daemon's two concurrent objects |
| `pool_status.dfy`, `requeue.dfy`, `note.dfy` | pool status, wake-ups, event notes |
| `report.dfy` | a reconcile with the status it writes and the time it comes back |

A pass remembers what it read: its `Local` part of each node. A step of the controller is guarded twice,
by what the code checks on that memory (`CodeGuard`) and by what the API server checks on the stored
object (`ApiGuard`: it exists, and for a Node patch its version is the one read). Steps of the
controller, of daemons, hosts, drains and the cluster interleave freely. Others edit cordon and
annotations of a Node, with or without a slot, whenever the running pass has not read it and as long as
the operator's record agrees with the edit; what other edits do is a result of its own (below). `found`
is a history variable: cordon and annotations as everybody but the operator last left them.

Class `Operator` draws events of the environment and the fate of each API call from an arbitrary script,
so each of its contracts holds for every interleaving and every pattern of failures. `Valid()` says that
what it did is a run of the protocol, and its contracts say which milestones (beginnings, budgets, ends of
passes) a reconcile adds to that run. So the theorems about runs apply wherever a pass stops, also those
that depend on targets and limits: `Reconcile` ensures the slot bound for failed passes too, and
`RebootsAreSlotted` and `SlotsStayBounded` carry the bounds over to any sequence of reconciles, also if
the controller stops at a failing call or between reconciles and starts again. `RollOut` alternates
reconciles with single steps of daemons, hosts, drains and Nodes and ends with the rollout complete.

## Results that are not as one might expect

* A node that is deleted and registers again under its name keeps the BootcNode of its predecessor. If the
  record left over does not agree with the newcomer's cordon or fences, the operator cordons it for good, or
  takes away what an administrator put there. `Returns.ReturnBreaksIff` gives the exact condition; the
  protocol lets Nodes return under it, and all theorems about runs cover that.
* The same happens if somebody edits a Node that holds a slot. An administrator who had cordoned it before
  and uncordons it now finds it cordoned again, for good. `Returns.EditBreaksIff` gives the exact condition
  for edits between passes. An edit between a pass's reading the Node and its marking the slot breaks the
  promises too: the note is stale (`Returns.EditWithinPassBreaks`).
* The daemon's wake-ups are not lost only as long as a reconcile gets to read the cache. Without a BootcNode,
  as at start-up, or once a reboot is issued, it turns back, and a changed status stays unread with nothing
  due (`StatusCache.Watcher.LoseWakeUp`, input `StatusCache.UnreadAtStartUp`).
* A drain is not ended when its node is retargeted and may outlive its slot; its result then approves a node
  without one. `Retarget.RetargetingBreaksBudget` is such a run from a cluster with no drain at all.
  `Budget.BudgetHoldsIff` gives the exact condition on drains and approvals under which every reboot is of a
  slot holder while targets stay fixed.
* The unhealthy-slot count is a count of nodes only because membership sync comes first
  (`RolloutStates.CountedOnceIff` is exact, `RolloutStates.UnsyncedNodeCountsTwice` an input).
* A pass of one pool consumes drain results of other pools without using them
  (`Progress.ForeignPassDiscardsDrain`), so the theorems on progress are about one pool. In the same way it
  silences stall warnings of other pools (`Requeue.WarnedAtMostOnce`).
* A node exactly on its reboot deadline is neither timed out nor waited for
  (`RolloutStates.WakeUpCoversAllIff`).
* Beyond 2^31 - 1 updated nodes the saturated counters hide an outdated one
  (`PoolStatus.SaturationHidesOutdated`, exact condition in `PoolStatus.LooksUpdatedIff`).

## Model

| member | source | states |
|---|---|---|
| Slot.EnsureOwned | internal/controller/karpenter.go:215-240 | the target ends with the literal value "true"; a target that had it changes nothing, any other is recorded on the owner; all other keys of both stay |
| Slot.RemoveOwned | internal/controller/karpenter.go:250-266 | if ownership is on record the key goes and everything else stays, otherwise nothing changes |
| Slot.OnlyOwnedGoes | internal/controller/karpenter.go:250-266 | removing an owned annotation leaves all others, and the key itself if it is not owned |
| Slot.EnsuringIsFencing | internal/controller/rollout.go:405-439 | ensuring both fences in turn sets both and records exactly those that were not in force |
| Slot.RecordingOnlyAdds | internal/controller/rollout.go:371-439 | key by key: ownership is added as "true" only where it was not, slot and cordon marks as above, every other key keeps its value |
| Slot.ClearingLeavesOthers | internal/controller/rollout.go:594-619 | clearing takes the marks of slot, cordon, ownership and taint, and nothing else |
| Slot.FencingMeans | internal/controller/rollout.go:457-518 | key by key: a fenced Node is cordoned, both fences are "true" on Node and claim if the Node names one, all else stays |
| Slot.RestoringMeans | internal/controller/bootcnodepool_controller.go:1083-1262 | key by key: what is on record goes from Node and claim, all else stays |
| Slot.SlotRecord | internal/controller/rollout.go:371-439 | slot marked, cordon noted only with the first mark, ownership recorded exactly for fences that have to be set, a taint record kept |
| Handshake.ReportIsUnderstood | internal/daemon/reconciler.go:88-272 | for every BootcNode, host and probe: the controller classifies the daemon's report as Degraded, UpToDate, Staging, Staged or Rebooting exactly if that is the case on the host, and the daemon reboots exactly if approved, staged and not on the image |
| Handshake.MatchIsByReferenceOrContent | internal/image/digest.go:31-42 | on the fields: UpToDate exactly if the readable host booted the reference by its digest, or that content under any reference; a reboot exactly into a staged entry that matches by the same measure |
| Handshake.NextAction | internal/daemon/reconciler.go:391-410 | stages exactly what is neither staged nor on its way, and waits or reboots otherwise |
| Handshake.ManifestListIsRun | internal/image/digest.go:15-30 | a host that booted the very reference is UpToDate and not rebooted, whatever its content digest |
| Handshake.ReportIsTrue | internal/daemon/reconciler.go:176-191 | a readable host is reported as it is, an unreadable one as before but degraded |
| Handshake.IdleKeepsItsTime | internal/daemon/reconciler.go:111-121 | a node that stays idle keeps the time since when it is |
| Classify.UnclassifiedIff | internal/controller/rollout.go:1024-1081 | no state exactly for a reporting, healthy node that is to run an image without a digest |
| Classify.NewIsPending | internal/controller/rollout.go:1024-1081 | a node that has not reported is Pending |
| Daemon.Reconcile | internal/daemon/reconciler.go:88-164 | a reboot is issued only if approved, with the desired image staged and not booted; a host that runs the image, by reference or content, is reported idle and healthy |
| Invariants.StepKeepsInv | internal/controller/rollout.go:323-619 | every step of controller or environment, edits of slot holders that agree with the record included, keeps: cordon and fences accounted for by the record, the pass's memory faithful, undoing in order, labels and drains backed by a BootcNode, ownership, budget |
| Invariants.RunKeepsInv | internal/controller/rollout.go:323-619 | the invariant holds at the end of every run |
| Invariants.FirstStateIsGood | internal/controller/bootcnodepool_controller.go:397-521 | the empty cluster satisfies the invariant, whatever pools there are |
| Invariants.ReturnIsGoodIff | internal/controller/rollout.go:377-393 | a Node that registers again keeps the invariant exactly if the record left over agrees with its cordon and fences |
| Invariants.OpOnSlot | internal/controller/rollout.go:226-251 | a step adds a slot only by marking it with budget left, which it uses up, and removes one only by a healthy free or a removal |
| Invariants.FinalizerDroppedLast | internal/controller/bootcnodepool_controller.go:527-570 | when the finalizer is dropped, no BootcNode is owned by the pool |
| Safety.NoOrphanedEffect | internal/controller/rollout.go:371-518 | at every point of every run each cordon and fence placed by the operator is matched by its record; slot and was-cordoned marks come and go together |
| Safety.UnslottedIsRestored | internal/controller/bootcnodepool_controller.go:1083-1262 | at every point of every run a node without a slot carries nothing of the operator's |
| Returns.ReturnBreaksIff | internal/controller/bootcnodepool_controller.go:735-753 | after a Node returns to its name, some run breaks these promises if and only if the record left over does not agree with it |
| Returns.EditBreaksIff | internal/controller/rollout.go:377-393 | after others edit cordon or annotations of a Node between passes, with or without a slot, some run breaks these promises if and only if the record does not agree with the Node as edited |
| Returns.UncordonedBreaks | internal/controller/rollout.go:491-495 | a concrete input: noted as cordoned, uncordoned by its administrator while it holds the slot |
| Returns.EditWithinPassBreaks | internal/controller/rollout.go:377-393 | if a schedulable Node is cordoned after the pass has read it and before the slot is marked, some run takes that cordon away |
| Returns.OrphanedBreaks | internal/controller/rollout.go:377-393 | a concrete input: cordoned predecessor with a slot, schedulable newcomer |
| Returns.LeavingBreaks | internal/controller/bootcnodepool_controller.go:1083-1122 | undoing a record that does not fit takes a cordon or fence from the newcomer that the operator did not place |
| Returns.MisnotedBreaks | internal/controller/rollout.go:377-393 | a note "was cordoned" kept from the predecessor lets the operator cordon the newcomer for good |
| Safety.DeletedOnlyWhenRestored | internal/controller/bootcnodepool_controller.go:1025-1074 | a BootcNode is deleted only with Node and claim restored and the label gone, or the Node gone or terminating |
| Safety.RoundTrip | internal/controller/bootcnodepool_controller.go:1083-1262 | after any number of assignments and frees, each stopping anywhere, a completed free leaves the cordon as before and each fence "true" if it was and absent otherwise |
| Safety.SlotBound | internal/controller/rollout.go:150-251 | over any run a pool holds at most the larger of the slots held before and the largest maxUnavailable resolved |
| Gates.ServedOnlyIfStagedAndCalm | internal/controller/karpenter.go:141-197 | over all runs, on the fields: a slot is marked or a drain started only on a report of the image as staged and not booted, and only if the Node as read is not deleting and has neither Karpenter taint and its claim exists and is not deleting, rebooting, disrupted or terminating |
| Gates.FreedOnlyIfHealthy | internal/controller/rollout.go:541-590 | over all runs, on the fields: a slot is freed only on a report of the desired image as booted, not degraded, with the Node Ready |
| Gates.ApprovedOnlyByDrain | internal/controller/rollout.go:686-758 | over all runs: a node is approved only by a rollout pass of its owner that collects a drain that succeeded |
| Gates.RestoredOnlyIfStaying | internal/controller/bootcnodepool_controller.go:1025-1074 | over all runs: a terminating Node is not restored because its node leaves the pool |
| Gates.ControllerLeavesTheRest | internal/controller/rollout.go:441-518 | over all runs: no step of the controller, on whatever stale copy, changes readiness, deletion, selection or host of a Node or the status of its BootcNode, nor its taints but for taking off a recorded startup taint |
| Gates.DrainLives | internal/controller/rollout.go:624-758 | over all runs: a drain starts where there is none, ends by itself with its own result, and is gone only when that is collected, when its node is removed, or by a restart |
| Gates.NewcomerIsItself | internal/controller/bootcnodepool_controller.go:735-753 | a Node that registers has its own claim and host, and the BootcNode and drain left over under its name |
| Gates.RestartForgets | internal/controller/rollout.go:624-681 | a restart loses all drains and what the pass remembers, and nothing stored |
| Safety.SlotGivenUp | internal/controller/rollout.go:541-619 | a slot is given up only in a pass that sees the node UpToDate and Ready, or when the node leaves |
| Safety.OwnerUntilDeleted | internal/controller/bootcnodepool_controller.go:691-788 | however pools overlap, a BootcNode keeps its owner until a pass of that owner deletes it |
| Safety.LabelsAndPoolsBacked | internal/controller/bootcnodepool_controller.go:926-1074 | an operator-placed label on a Node that is not terminating always has a BootcNode; a removed pool owns none |
| Safety.TaintGate | internal/controller/bootcnodepool_controller.go:1050-1063 | the operator removes the startup taint only if the BootcNode records it and the pass saw the node UpToDate and Ready, and removes nothing else |
| Safety.TaintRecordedAtCreation | internal/controller/bootcnodepool_controller.go:952-958 | every such record goes back to a creation that had seen the taint |
| Taints.RecordGoesWithTaint | internal/controller/bootcnodepool_controller.go:1124-1129 | over all runs: a taint record disappears only with the BootcNode, or after the pass has the taint off the Node |
| Taints.NoTaintIsForgotten | internal/controller/bootcnodepool_controller.go:952-958 | over all runs in which nobody else taints managed Nodes: a managed Node with the startup taint has it on record |
| Taints.UnrecordedTaintStays | internal/controller/bootcnodepool_controller.go:1050-1063 | that is needed: a taint without a record stays as long as others leave it |
| Safety.OtherTaintsKeepOrder | internal/controller/bootcnodepool_controller.go:1266-1272 | removing the taint is a stable filter |
| Budget.RunKeepsSafe | internal/controller/rollout.go:624-758 | with fixed targets, approval and drains stay within slots or nodes already on target, over all runs |
| Budget.ClearedIsSlottedOrDone | internal/controller/rollout.go:268-300 | at every point an approved or draining node holds a slot or already runs the target |
| Budget.EveryRebootIsSlotted | internal/daemon/reconciler.go:391-410 | every reboot a daemon issues is of a node that holds a slot at that moment |
| Budget.RebootBudget | internal/controller/rollout.go:686-758 | nodes approved and not on target are slot holders, at most the larger of the slots at the start and the largest limit |
| Budget.DrainOutlivesSlot | internal/controller/rollout.go:541-619 | freeing a slot and retargeting a node leave its drain running |
| Budget.BudgetHoldsIff | internal/controller/rollout.go:686-758 | for pools in sync and true statuses: every steady run reboots slot holders only, if and only if no node off its target is approved, or drained with a result still possible, without a slot |
| Budget.UnlicensedBreaks | internal/controller/rollout.go:735-752 | from any such node there is a steady run in which its daemon reboots it without a slot |
| Retarget.RetargetingBreaksBudget | internal/controller/bootcnodepool_controller.go:870-907 | two changes of the target lead from no drain at all to a reboot without a slot |
| Retarget.SampleIsSuch | internal/controller/bootcnodepool_controller.go:870-907 | a concrete cluster of one node where that happens, which satisfies the invariant and the start condition |
| RebootClock.BusyIsStampedNow | internal/daemon/reconciler.go:98-121 | whatever the earlier condition, a reconcile that ends with Idle=False stamps its own time |
| RebootClock.ReportedBeforeIssued | internal/daemon/reconciler.go:137-161 | when a reboot is issued, the Rebooting report of that moment is saved |
| RebootClock.TimeoutMeasuresFromReboot | internal/controller/rollout.go:976-985 | until host or daemon starts again, the node is timed out exactly if more than the timeout has passed since that report |
| RebootClock.TimeoutMeasuresFromReport | internal/controller/rollout.go:976-985 | through any restarts of host and daemon, until the next report: timed out exactly if the last report came with the decision to reboot and is more than the timeout ago |
| Progress.StepNeverRaises | internal/controller/rollout.go:79-303 | no step of a cooperative run raises the summed rank |
| Progress.HelpIsBounded | internal/controller/rollout.go:79-303 | a cooperative run holds at most as many rank-lowering steps as its first rank |
| Progress.SettledPassCanBeHelped | internal/controller/rollout.go:79-303 | a completed pass that leaves the rollout unfinished leaves a step of daemon, host, drain or Node that lowers the rank |
| Progress.HaltedPassCanBeHelped | internal/controller/rollout.go:117-148 | the same after a pass that halted |
| Completion.EveryStateCanGoOn | internal/controller/rollout.go:79-303 | from every idle unfinished state of a live pool whose nodes are selected and not held back there is a cooperative run that lowers the rank |
| Completion.BusyStateCanGoOn | internal/controller/rollout.go:79-303 | the same in the middle of a pass |
| Completion.RolloutCompletes | internal/controller/rollout.go:79-303 | from every such state there is a cooperative run to one where every node of the pool runs the image, no slot is held, and Nodes and claims are as found |
| Passes.UndisturbedPassIsExact | internal/controller/bootcnodepool_controller.go:484-500 | if nothing else acts meanwhile, what a pass holds stays what is stored, and a drain that has finished had finished before |
| Advance.PassKeepsCourse | internal/controller/bootcnodepool_controller.go:484-500 | at every point of an undisturbed pass what it holds is what is stored, it owns only what is selected, and nothing of that is held back |
| Advance.PassNeverRaises | internal/controller/rollout.go:79-303 | no step of an undisturbed pass that looks at everything raises the rank; in particular it throws no result of a successful drain away |
| Advance.MoverLowers | internal/controller/rollout.go:79-303 | whoever can move lowers the rank and leaves the rollout as prepared as it was |
| Advance.PassIsFresh | internal/controller/bootcnodepool_controller.go:484-500 | an undisturbed pass ends with the fresh view the progress lemmas ask for |
| Advance.PassHelps | internal/controller/rollout.go:79-303 | an undisturbed pass that settled or halted leaves the rollout prepared, its rank no higher, and finished or such that somebody else can lower it |
| Progress.FinishedMeans | internal/controller/rollout.go:1024-1081 | the rank is zero exactly if every node of the pool runs and reports the image and is marked no more |
| Progress.FinishedIsRestored | internal/controller/rollout.go:594-619 | then no slot is held, and cordon and fences are as found |
| Progress.ForeignPassDiscardsDrain | internal/controller/rollout.go:696-739 | a pass of another pool can only discard a finished drain, which raises the rank |
| RolloutStates.BuildRolloutState | internal/controller/rollout.go:762-804 | every owned node is in exactly the bucket of its classification, once, in any iteration order; the slot count is exact |
| RolloutStates.ApplyRebootTimeouts | internal/controller/rollout.go:993-1021 | the in-place filter splits the nodes in order, loses and repeats none, and returns the least positive time left |
| RolloutStates.WakeUpIsExact | internal/controller/rollout.go:993-1021 | no node with time left expires up to the wake-up, and one has expired right after it |
| RolloutStates.WakeUpCoversAllIff | internal/controller/rollout.go:976-1021 | every kept node is covered by the wake-up exactly if none sits on its deadline |
| RolloutStates.FindUnhealthySlots | internal/controller/rollout.go:819-849 | the three loops compute the three selections in order |
| RolloutStates.UnhealthyCountsNodes | internal/controller/rollout.go:819-849 | after membership sync no node is listed twice, although timed-out nodes are in two lists |
| RolloutStates.UnhealthyAreBadSlots | internal/controller/rollout.go:819-849 | what is listed is exactly the slots gone bad, and the length of the list is their number |
| RolloutStates.CountedOnceIff | internal/controller/rollout.go:819-849 | with or without the sync, a name is listed twice exactly if some timed-out slot holder reports the target as booted |
| RolloutStates.UnsyncedNodeCountsTwice | internal/controller/rollout.go:819-849 | without the sync one node can be counted twice |
| RolloutStates.ResolveMaxUnavailable | internal/controller/rollout.go:855-879 | invalid exactly for a malformed value of a pool that is not paused; zero when paused; one by default; counts as they are; percentages rounded up |
| RolloutStates.PartitionSlottedNodes | internal/controller/rollout.go:885-907 | both parts hold exactly their nodes, sorted by name |
| RolloutStates.BeforeIff | internal/controller/rollout.go:885-907 | the order of names: a beginning comes first, otherwise the first difference decides |
| RolloutStates.InOrderUnique | internal/controller/rollout.go:885-907 | a set of names has one listing in order, so map iteration order cannot change the allocation |
| Passes.AllocationIsDeterministic | internal/controller/rollout.go:225-251 | two passes with the same candidates, free capacity and nodes held back serve the same nodes in the same order |
| Controller.Operator.Call | internal/controller/rollout.go:441-455 | what the code checked before a call still holds when the server handles it, and only the node in question is changed; it succeeds exactly if the server accepts it and finds object and version, and a refused call changes nothing |
| Controller.Operator.RecordSlot | internal/controller/rollout.go:371-455 | the slot is on record before anything is done to Node or claim; a complete record is not written again |
| Controller.Operator.FenceTheClaim | internal/controller/rollout.go:457-489 | afterwards both fences are "true" on the claim, if any; if they were, it is not written |
| Controller.Operator.FenceTheNode | internal/controller/rollout.go:491-518 | afterwards the Node is cordoned and, if it names a claim, both fences are "true"; if so before, it is not written |
| Controller.Operator.AssignRebootSlot | internal/controller/rollout.go:323-521 | slot recorded, one unit of budget used if it is new, Node cordoned and, with its claim, fenced, nothing else of the BootcNode changed |
| Controller.Operator.RestoreTheNode | internal/controller/bootcnodepool_controller.go:1083-1159 | the cordon, fences and, unless the node leaves, the startup taint that are on record are off the Node; without any on record it cannot fail |
| Controller.Operator.RestoreTheClaim | internal/controller/bootcnodepool_controller.go:1166-1262 | then those on the claim; without any on record it cannot fail |
| Controller.Operator.FreeRebootSlot | internal/controller/rollout.go:594-619 | the record is cleared only after Node and claim are restored, and a recorded startup taint is off the Node |
| Controller.Operator.RemoveStartupTaint | internal/controller/bootcnodepool_controller.go:1279-1323 | taint and then its record are gone |
| Controller.Operator.FreeCompletedSlot | internal/controller/rollout.go:541-590 | a node that stays marked was read and is not Ready; freed says whether a slot went |
| Controller.Operator.FreeCompletedSlots | internal/controller/rollout.go:527-535 | slots held plus slots freed is what was held; the same for every UpToDate node |
| Controller.Operator.CollectOne | internal/controller/rollout.go:696-752 | a finished drain is consumed, a successful one of an owned node approves it, a failed one or none does not |
| Controller.Operator.CollectDrainResults | internal/controller/rollout.go:686-758 | the same for all drains, in any order |
| Controller.Operator.ProcessCandidate | internal/controller/rollout.go:179-223 | a candidate is served and fenced exactly if the Node and claim read show none of the signs of a disruption, field by field; otherwise it is left as it was |
| Controller.Operator.ServeSlotted | internal/controller/rollout.go:225-230 | slot holders are processed whatever the capacity and keep their slots |
| Controller.Operator.ServeUnslotted | internal/controller/rollout.go:232-251 | new slots go to the first candidates that are not deferred, as many as there are or as the budget allows |
| Controller.Operator.EnsureDrain | internal/controller/rollout.go:624-681 | afterwards a drain is under way; one that exists is kept |
| Controller.Operator.StartDrains | internal/controller/rollout.go:263-300 | every staged slot holder that is not approved is draining or deferred |
| Controller.Operator.Survey | internal/controller/rollout.go:79-125 | no slot and no drain is added, completed slots are freed, the slot count is exact, and the bad slots are listed |
| Controller.Operator.AllotAndServe | internal/controller/rollout.go:150-300 | the budget is what the limit leaves; allocation and settlement as below |
| Controller.Operator.DriveRollout | internal/controller/rollout.go:79-303 | halts if and only if two or more slots have gone bad, and then adds nothing; otherwise new slots went to exactly the first candidates by name that were not seen held back, up to the free capacity, and nothing is left that the pass could do; a budget is drawn only from the resolved maxUnavailable; what it shows of its nodes is what it holds, with the next reboot that could time out as its wake-up; it fails only if a call was not accepted |
| Controller.Operator.EnsureManagedLabel | internal/controller/bootcnodepool_controller.go:990-1021 | afterwards the label is there, the operator's if there was none; an existing one is not touched |
| Controller.Operator.CreateBootcNode | internal/controller/bootcnodepool_controller.go:926-976 | tells an existing BootcNode apart from an error; a new one desires the image, is not approved and owns the startup taint exactly if the Node carries it |
| Controller.Operator.SyncNode | internal/controller/bootcnodepool_controller.go:735-765 | an owned node is retargeted (a changed image revokes the approval), a free one adopted, one of another pool left alone and its owner reported |
| Controller.Operator.RemoveManagedLabel | internal/controller/bootcnodepool_controller.go:990-1021 | the label goes last of what is undone, and only a Node that carries it is patched |
| Controller.Operator.RemoveBootcNode | internal/controller/bootcnodepool_controller.go:1025-1074 | drain stopped, effects undone, BootcNode deleted last |
| Controller.Operator.SyncMembership | internal/controller/bootcnodepool_controller.go:691-788 | the owned nodes are exactly the listed ones whose BootcNode was absent or already owned, all with the pool's image; conflicts are exactly the other owners |
| Controller.Operator.HandlePoolDeletion | internal/controller/bootcnodepool_controller.go:527-570 | the pool goes only when it owns no BootcNode |
| Controller.Operator.Reconcile | internal/controller/bootcnodepool_controller.go:397-521 | from idle to idle: a pool without a finalizer gets one and nothing else, one that is gone is left alone; otherwise membership as selected, all members on the image, no slot but those handed out; the limit is the one pause and maxUnavailable resolve to, and also after a failed pass the slots are no more than before or than that limit; nothing is begun but one pass for this image; an undisturbed pass raises no rank and leaves the rollout finished or to others; what it reports is about exactly the members it leaves and, if undisturbed, their statuses as stored; it fails only if a call was not accepted |
| Controller.Operator.AddTheFinalizer | internal/controller/bootcnodepool_controller.go:419-427 | a pool without a finalizer is Live afterwards or a call was not accepted; no node is touched; it can only be gone if somebody deleted it meanwhile |
| Controller.Operator.ReconcileNewPool | internal/controller/bootcnodepool_controller.go:397-521 | two reconciles of a new pool roll it out unless a call was not accepted |
| Controller.Operator.RolledOutIsUntainted | internal/controller/bootcnodepool_controller.go:1279-1323 | once a pool is rolled out no Node of it has the startup taint, if others did not taint managed Nodes |
| Controller.Operator.ReconcileAll | internal/controller/bootcnodepool_controller.go:397-521 | any sequence of reconciles with fixed images, with restarts of the controller at failing calls and in between, begins only passes for those images |
| Controller.Operator.EndPass | internal/controller/bootcnodepool_controller.go:397-521 | a pass ends, or the controller stops in its middle; what is stored of BootcNodes stays |
| Controller.Operator.RollOut | internal/controller/bootcnodepool_controller.go:397-521 | rounds of an undisturbed reconcile and one step of somebody else each lower the rank; as many rounds as the rank complete the rollout: every node on the image, no slot held, Nodes and claims as found |
| Reports.ReconcileAndReport | internal/controller/bootcnodepool_controller.go:397-521 | the status after a reconcile, from the cluster: Degraded is the first that applies of tag error, malformed limit unless halted, two bad slots, rival pools, ailing nodes; the counts of updated, updating and degraded nodes and UpToDate are of exactly the members; drains are marked, and it comes back at the least deadline; a failed pass writes nothing, and a new pool gets its finalizer |
| Reports.AssertedApply | internal/controller/bootcnodepool_controller.go:447-504 | what the checks assert one after the other is exactly the reasons that apply |
| Reports.HeadlineIsForemost | internal/controller/bootcnodepool_controller.go:1333-1341 | the reason that shows, case by case |
| Reports.Report | internal/controller/bootcnodepool_controller.go:492-518 | an invalid spec stops before counts and wake-ups, any other result does both |
| Passes.TimedIsViewed | internal/controller/rollout.go:92-112 | after timeouts the buckets still count every node, and the degraded one is empty exactly if no node is degraded or rebooting for too long |
| Controller.Operator.RebootsAreSlotted | internal/daemon/reconciler.go:391-410 | every reboot that any daemon issued during such a sequence was of a slot holder |
| Controller.Operator.SlotsStayBounded | internal/controller/rollout.go:150-251 | slots never exceed what was held at first and the largest limit drawn from, whatever failed |
| StageOperation.StageOp.AtMostOne | internal/daemon/reconciler.go:45-56 | in every interleaving at most one executor runs and at most one operation is live, and the image in flight is that operation's |
| StageOperation.StageOp.TakeErr | internal/daemon/reconciler.go:274-283 | the error is returned once; retries grow by one up to 7 |
| StageOperation.StageOp.Backoff | internal/daemon/reconciler.go:285-289 | sees retries in 1..7 and yields 5*2^(retries-1), within 5..320 seconds |
| StageOperation.StageOp.IsInFlight | internal/daemon/reconciler.go:291-295 | true exactly if a live operation works on that image |
| StageOperation.StageOp.Acquire | internal/daemon/reconciler.go:297-309 | the operation in flight is cancelled, a new one is live, a pending error is cleared |
| StageOperation.StageOp.EnterRun | internal/daemon/reconciler.go:323-338 | a run that was cancelled while it waited for the lock leaves without starting |
| StageOperation.StageOp.FinishRun | internal/daemon/reconciler.go:340-361 | a cancelled run changes neither image, cancel nor error; a live one clears the way and leaves its error |
| StageOperation.StageOp.Drive | internal/daemon/reconciler.go:209-245 | with goroutines stepping in between, the wanted image ends up staged, in flight by a live operation, or due for a retry within 320 seconds; an operation on it is never cancelled, and exactly one is added if and only if none was live when asked |
| StatusCache.Watcher.Refresh | internal/daemon/watcher.go:61-75 | the cache is what was seen, and a send follows exactly if it changed |
| StatusCache.Watcher.Send | internal/daemon/watcher.go:199-209 | never blocks, and leaves the slot full |
| StatusCache.Watcher.Look | internal/daemon/watcher.go:47-57 | a running watcher's cache is read, otherwise the host |
| StatusCache.Watcher.Fetch | internal/daemon/reconciler.go:98-109 | a reconcile goes on to the cache exactly if the BootcNode is there, the call succeeds and no reboot was issued; only a failed call queues it again |
| StatusCache.Watcher.Appear | internal/daemon/reconciler.go:103-109 | when the BootcNode appears, a wake-up is due |
| StatusCache.Watcher.Interleave | internal/daemon/watcher.go:155-209 | after any steps in any order, BootcNodes that go and come and reboots included: a cache that differs from what the last reconcile read has a wake-up due, or the BootcNode is absent, or a reboot was issued, although full-slot sends are dropped |
| StatusCache.Watcher.Settle | internal/daemon/watcher.go:155-209 | once the watcher rests, with a BootcNode and no reboot issued, the wake-ups run out with the cached status read |
| StatusCache.Watcher.LoseWakeUp | internal/daemon/reconciler.go:98-109 | otherwise they run out unread: any status seen then is cached, not read, and nothing is due |
| StatusCache.UnreadAtStartUp | internal/daemon/reconciler.go:103-109 | a concrete input: a daemon that starts before its BootcNode exists |
| PoolStatus.ClampCount | internal/controller/status.go:40-48 | saturates to 0..2^31-1 |
| PoolStatus.TimeoutsConserveNodes | internal/controller/rollout.go:993-1021 | the buckets partition the owned nodes also after timeouts moved some |
| PoolStatus.LooksUpdatedIff | internal/controller/status.go:18-36 | the counters claim an updated pool exactly if all nodes are up to date or the updated ones saturate them |
| PoolStatus.SaturationHidesOutdated | internal/controller/status.go:18-48 | a pool that large with an outdated node is reported as up to date |
| PoolStatus.Pool.SyncPoolStatus | internal/controller/status.go:18-36 | the four counts are those of all, updated, updating (classified, not up to date, not ailing) and ailing nodes; up to the range of the counters, UpToDate and the move of the deployed digest hold exactly if every owned node reports the target and is not degraded; a deployed digest was the target of a pass that saw all nodes on it |
| PoolStatus.UpdatedMeansOnTarget | internal/controller/rollout.go:1024-1081 | after membership sync, classified as up to date means: reports the target and is not degraded |
| PoolStatus.Pool.SyncUpToDateCondition | internal/controller/status.go:50-76 | UpToDate exactly if the counts agree, otherwise Paused or in progress |
| PoolStatus.HighestIsForemost | internal/controller/bootcnodepool_controller.go:1333-1341 | what precedence leaves, reason by reason: tag error, invalid spec, halt, conflict, secret, degraded node |
| PoolStatus.HighestIsUnique | internal/controller/bootcnodepool_controller.go:1333-1341 | precedence leaves one winner |
| PoolStatus.Pool.SetDegraded | internal/controller/bootcnodepool_controller.go:1348-1361 | the reason that shows is the foremost of the old and the new |
| PoolStatus.Pool.ClearDegraded | internal/controller/bootcnodepool_controller.go:1366-1376 | clears its own reason only |
| PoolStatus.Pool.ResolveTarget | internal/controller/bootcnodepool_controller.go:575-625 | a resolved digest clears the tag error, a failure sets it, and before the next resolution is due it stays |
| PoolStatus.Pool.Judge | internal/controller/bootcnodepool_controller.go:447-504 | the final reason is the foremost of those asserted and a standing tag error, whatever the order and the stale reason; not degraded exactly if there is none |
| Requeue.EarlierIsLeast | internal/controller/events.go:408-416 | the least positive of two sets of deadlines is the earlier of their least positives |
| Requeue.Table.RecordDrainStalls | internal/controller/events.go:367-406 | marks exactly the drains that began 300 seconds ago or earlier, warns about those of its own nodes not marked before, and returns the least positive time left |
| Requeue.WarnedAtMostOnce | internal/controller/events.go:367-406 | over any sequence of passes a drain is warned about at most once: exactly if the first pass that finds it past the threshold owns its node |
| Requeue.RequeueIsEarliest | internal/controller/bootcnodepool_controller.go:506-518 | a reconcile comes back at the least positive of all deadlines, whether the reboot timeout is on or off |
| Requeue.WakeUpIsLeast | internal/controller/rollout.go:993-1021 | what the timeout filter returns is the earliest reboot deadline of the pool, or 0 |
| EventNote.EncodedIsRune | internal/controller/events.go:444-445 | the bytes of every Unicode scalar value are recognised as one character |
| EventNote.RuneIsEncoded | internal/controller/events.go:444-445 | nothing else is |
| EventNote.SanitisedIsShown | internal/controller/events.go:444-445 | however bytes fall into characters and maximal runs of garbage: every character is kept, in order, and every run becomes one replacement |
| EventNote.CanBeParsed | internal/controller/events.go:444-445 | all bytes fall into such pieces |
| EventNote.SanitisedIsValid | internal/controller/events.go:444-445 | sanitised bytes are valid UTF-8 |
| EventNote.ValidIsKept | internal/controller/events.go:444-445 | valid input is left as it is |
| EventNote.PrefixValidIff | internal/controller/events.go:450-453 | a prefix of valid UTF-8 is valid exactly if a character begins where it ends |
| EventNote.CutPoint | internal/controller/events.go:450-453 | the backward scan ends at the longest valid prefix of at most 1021 bytes, at most three bytes back |
| EventNote.CapNote | internal/controller/events.go:444-455 | for every byte string: valid UTF-8 of at most 1024 bytes, the sanitised input or its longest valid prefix plus three dots |

## Left out

- Budget.RebootBudget: assumes that targets stay fixed, that a host on its target is not booted into anything else nor replaced by one that is not on it, that approvals and drains at the start are licensed (exact, see Budget.BudgetHoldsIff), and that no status at the start claims the target for a host that does not run it.
- Progress.StepNeverRaises: a cooperative run has no controller restart (a restart loses the drains, so their nodes start over), no failing drain or stage, no Node that goes or leaves the pool, and slots assigned on fresh status.
- Completion.RolloutCompletes: is about one pool whose nodes stay selected and are not held back by Karpenter; it says that a run exists, not that every fair run takes it. Controller.Operator.RollOut states it for the code.
- Controller.Operator.RollOut: assumes that no pass fails, is disturbed midway or is without capacity, and that between passes somebody does take a step that lowers the rank.
- Cluster.AdminEdits: an edit agrees with the record (exact between passes, see Returns.EditBreaksIff, where the other nodes of the pool are selected and a claim the Node names exists), and does not happen within a pass that has already read the Node (a run that then breaks is in Returns.EditWithinPassBreaks).
- RebootClock.TimeoutMeasuresFromReboot: ends with a restart of the daemon, which forgets that it issued the reboot; RebootClock.TimeoutMeasuresFromReport goes on.
- Controller.Operator.ReconcileAll: the controller stops at a call that fails or between reconciles, not between two statements without a call.
- Reports.ReconcileAndReport: when the next tag resolution and the next poll of Karpenter are due are inputs, the drain table is kept beside the protocol's drains, and the status write is taken to succeed.
- Progress.SettledPassCanBeHelped: asks for the view of a pass that was not disturbed, which Advance.PassIsFresh provides.
- Taints.NoTaintIsForgotten: assumes that nobody else puts the startup taint on a Node that has a BootcNode without a record of it (needed, see Taints.UnrecordedTaintStays).
- Safety.RoundTrip: assumes that nobody else edits the cordon or the annotations of the Node, and that it is not replaced, between the first assignment and the last free.
- Cluster.Joins: a Node does not register again within the very pass that has read its predecessor, and only with a record that agrees (exact, see Returns.ReturnBreaksIff, which takes a claim the newcomer names to exist).
- PoolStatus.Pool.SyncPoolStatus: conservation of the counts is stated up to 2^31 - 1 nodes, beyond which the counters saturate.
- The last-observed-state annotation and the Kubernetes events derived from it, except the cutting of notes.
- Pull secrets, reboot policy (soft reboot), and fields of the BootcNode spec other than image and approval.
- Resolving tags and parsing image references; the digest a pass rolls out is an input.
- Node selectors: which pools select a Node is part of its state.
- Stale reads from the informer cache at the start of a pass; the model lists what is stored.
- Errors of the Karpenter lookups themselves, which end a pass like any refused call.
- The drain itself (pod eviction): it runs and ends with success or failure.
- Passes of different pools do not overlap in time, as one worker runs them.
- A daemon reconcile is one step; its host read and its status write are not separated.
- Clocks are integers; `time.Duration` overflow is not modelled.
- Messages of conditions and log output.
