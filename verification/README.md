# Crash-safe state machines of the VPS agent

This project models the parts of the agent and its controller whose promises hold
only across many steps: what survives a lost acknowledgement, a failed save, a
killed process or a retried batch. Every protocol has a world made of memory, file
and history, steps that follow the Go code branch by branch, an invariant, and
theorems over all runs. Beside it stands a class whose methods perform the same
steps on fields, each proved to do exactly what the step function says.

| module | part of the system |
|---|---|
| `Durable` | optional values; the five ways a save of the state file can end |
| `Cyclic` | positions in a circle |
| `Recovery` | the core activation journal: backup, mutation, rollback, commit |
| `Fence` | the network fence transaction: stage, resolve, finish |
| `Rotation` | the rotating lookup budget inside that transaction |
| `Retirement` | final settlement of removed nodes |
| `ForwardMeter` | forward meters and their receipts |
| `Billing` | switching the traffic-billing policy |
| `Receipts` | which nodes are reported as applied, and under which sequence number |
| `Ratchet` | the desired-revision ratchet and remembered capability versions |
| `Upload` | the connection-log upload with retries, and the controller's tables |
| `Ring` | the growable queue of connection events |
| `LineReader` | the chunked log reader |
| `Routing` | the shared proxy configuration and its first-match rules |
| `Topology` | the overlap search over network interfaces |
| `BackupStream` | the encrypted backup stream |

A save ends in one of five ways, because `State.Save` renames first and syncs the
directory afterwards: saved, not written, written but reported as an error, and the
process dying before or after the rename. In `Recovery` every single effect on disk
may succeed, fail, fail although it took effect, or be the last one.

## Where the code does less than a first reading suggests

Each of these is a property that looks right and is not. A lemma gives a failing case
and another one says exactly when the property holds.

- **A commit can write files that its journal never recorded.** A journal created for
  an activation (internal/core/recovery.go:317-326) and interrupted before its three
  first entries stays in phase `installed`; the next activation adopts it without
  recording `.activate`, `.policy` and `.retained`, and a rollback of its interrupted
  commit leaves them changed (`Recovery.InterruptedStartLosesPolicy`). The rollback
  restores everything if and only if each file the commit changes is recorded
  (`Recovery.CommitUndoneIff`, `Recovery.RollbackRestoresIff`); a journal opened
  without interruption always is (`Recovery.Machine.BeginApply`).
- **A retry with another batch size stores events twice or loses them.** A batch whose
  answer is lost is stored, requeued and sent again under the same number, and the
  controller acknowledges it as a duplicate whatever it holds. If the retry takes fewer
  events, the remaining stored ones go out under a new number and are stored twice
  (`Upload.ShrinkingRetryFails`); if it takes more, the surplus is acknowledged but never
  stored (`Upload.SpentRoundLosesIff`). After a lost answer the retry stores nothing
  twice if and only if it takes at least what was put back, which the agent knows
  (`Upload.RetryAfterLostAnswerIff`), and neither stores twice nor loses if and only if
  it takes exactly that (`Upload.RetryExactIff`). After a lost request any size stores
  nothing twice (`Upload.RetryAfterLostRequest`). `Upload.StoredOnce` is the guarantee
  over runs whose retries do not shrink; a constant batch size is enough for it, but
  not for losing nothing.
- **A new enrolment loses the events of its first upload.** The agent starts counting at
  one (internal/agent/agent.go:136-150), but the controller keeps the number of its row
  of the agent and of its log store (internal/store/servers.go:290-306,
  internal/connlog/store.go:122-130), and acknowledges a number it knows without looking
  at the events (`Upload.EnrolmentLoses`). This happens if and only if the controller ever
  noted or stored a batch (`Upload.EnrolmentLosesIff`), and after a restart if and only if
  the state file is behind the controller (`Upload.RestartLosesIff`); in general a round
  of new events loses some exactly when its number was used before
  (`Upload.FreshRoundLosesIff`).
- **The acknowledged forward revision in the file can fall**, with its receipt still
  pending (`ForwardMeter.StoredRevisionMayStepBack`, a run of valid configurations). It
  falls exactly when the file already holds a completed receipt whose save reported an
  error and a step writes the older memory over it (`ForwardMeter.StoredRevisionFallsIff`);
  before a step, no step can lower it exactly while the file is not ahead of memory
  (`ForwardMeter.StoredRevisionSafeIff`). The number the agent works with never falls.
- **An error of finish does not mean an unchanged plan.** Behind the replaced plan finish
  notes the forwards (internal/agent/network_binding.go:453-457); if that fails, the
  candidates are active although finish reports an error
  (`Fence.FailedFinishMayActivate`). An error is sure to mean an unchanged plan if and
  only if no transaction is open, the forwards will not be noted (the shared core was not
  applied, or no forward is wanted or planned), or the final plan is the present one,
  all of which the caller can see beforehand (`Fence.FailedFinishKeepsPlanIff`). The
  caller stops the cores.
- **Only the node list keeps its configured order under rotation.** The forwards of the
  transaction come out in rotated order (internal/agent/forward_binding.go:109-188),
  which is the configured one exactly when the ready forwards lie on one side of the
  starting point (`Rotation.ForwardOrderMayTurn`, `Rotation.ForwardOrderIff`). They are sorted when the configuration is
  built (internal/core/forward.go:173-174).

## Model

| member | source | states |
|---|---|---|
| Recovery.ActKeeps | internal/core/recovery.go:148-195 | every single effect on disk keeps the live journal able to undo the transaction |
| Recovery.RunKeeps | internal/core/recovery.go:308-366 | the same over every sequence of effects, however they are interleaved, repeated or cut short |
| Recovery.ChangedFilesAreBackedUp | internal/core/recovery.go:148-195 | in every reachable state a file that differs from its content at the start has a verified backup in the live journal, unless it is an unrecorded file of the commit |
| Recovery.RestoredPath | internal/core/recovery.go:405-456 | restoring puts a recorded path back to its start, absence included, and touches no other |
| Recovery.RestoredIffStrict | internal/core/recovery.go:532-538 | restoring gives exactly the files of the start if and only if every changed file was recorded |
| Recovery.RollbackRestoresIff | internal/core/recovery.go:489-571 | in every reachable state, also after interrupted rollbacks, rolling back restores the start if and only if the commit changed no unrecorded file |
| Recovery.CoveredIsStrict | internal/core/recovery.go:317-326 | before validation, or with the three commit files recorded, every change is recorded |
| Recovery.CommitUndoneIff | internal/core/recovery.go:628-645 | an interrupted commit can be undone if and only if each file it changes was recorded, a test made before committing |
| Recovery.InterruptedStartLosesPolicy | internal/core/recovery.go:308-348 | a concrete run, with a recorded unit and configuration, in which an adopted journal loses the old policy file |
| Recovery.BackupsSurvive | internal/core/recovery.go:461-488 | until a new transaction begins, every entry and copy of the live directory survives any sequence of effects: it grows, is retired whole, or comes back whole |
| Recovery.ServicesFenced | internal/core/recovery.go:493-569 | with a missing or changed authorization all units found end stopped and disabled and none is started; with the same one only units active before are started |
| Recovery.UnauthorizedRollbackSilences | internal/core/recovery.go:493-569 | without the authorization of the old services, once files may have changed or a policy is met, every listed unit, every unit with a file and every recorded unit that runs is stopped, and disabled where it has a file; no other unit is touched |
| Recovery.AuthorizedRollbackRestarts | internal/core/recovery.go:540-569 | with it, the recorded units run and are enabled as they were recorded, and every other unit found stays stopped |
| Recovery.NothingPresentNothingTouched | internal/core/recovery.go:504-569 | where no unit is present a rollback starts nothing either |
| Recovery.EarlyRollbackLeavesServices | internal/core/recovery.go:493-503 | before files changed, and unless a different policy is met, no service is touched |
| Recovery.UnitStatesAt | internal/core/recovery.go:330-338 | the states that are restored are those the units had when the activation began |
| Recovery.PolicyReadsBack | internal/core/recovery.go:118-122 | the authorization a commit writes is the one the next transaction finds |
| Recovery.RetireAndReexpose | internal/core/recovery.go:461-488 | a journal is retired, and exposed again, as one piece |
| Recovery.TrimSplits | internal/core/recovery.go:118-122 | what is trimmed from the authorization file is white space at its ends |
| Recovery.Machine.RemoveRecoveryWith | internal/core/recovery.go:461-488 | nil means retired; a failed sync re-exposes the whole journal whenever the reverse rename works; earlier errors leave it untouched |
| Recovery.Machine.Load | internal/core/recovery.go:71-107 | a directory without a journal is refused |
| Recovery.Machine.Verify | internal/core/recovery.go:368-404 | success means every backup exists with its recorded digest |
| Recovery.Machine.RestoreFiles | internal/core/recovery.go:405-456 | writes back the backups themselves, entry by entry |
| Recovery.Machine.Undo | internal/core/recovery.go:504-569 | the order of a rollback: silence, restore, revive; no service gains anything unauthorized on the way |
| Recovery.Machine.Rollback | internal/core/recovery.go:489-571 | the journal stays whole until all is restored; success means retired, files of the start, services fenced |
| Recovery.Machine.NewRecovery | internal/core/recovery.go:108-129 | a new transaction starts from the present files with an empty journal; a live one is never overwritten |
| Recovery.Machine.Snapshot | internal/core/recovery.go:148-195 | on success the path is recorded behind a complete backup; nothing but the journal directory changed |
| Recovery.Machine.PrepareBinaryRecovery | internal/core/recovery.go:197-215 | all five files of an installation are recorded before the first may change |
| Recovery.Machine.ReplaceBinary | internal/core/install.go:418-438 | the three replacements and the phase change of an installation |
| Recovery.Machine.Install | internal/core/install.go:408-438 | whatever happens, the files are back or a live journal can bring them back |
| Recovery.Machine.BeginApply | internal/core/recovery.go:308-348 | an unfinished activation is rolled back, never adopted; otherwise everything the activation may change is recorded first |
| Recovery.Machine.MarkApplying | internal/core/recovery.go:350-366 | mutations begin only from preflight, and marking twice is harmless |
| Recovery.Machine.MarkValidated | internal/core/recovery.go:584-612 | the phase after which a commit is allowed |
| Recovery.Machine.RunActivation | internal/core/singbox.go:408-693 | a driver that changes only the units and configurations it named beforehand ends validated with every change recorded |
| Recovery.Machine.WriteSidecars | internal/core/recovery.go:631-641 | the files a commit writes before the commit point |
| Recovery.Machine.Finish | internal/core/recovery.go:613-646 | a commit happens only from validated; a successful finish(false) means a rollback ran, or there was neither a journal nor a half-retired one |
| Recovery.Machine.RecoverInstallation | internal/core/recovery.go:648-664 | an interrupted installation is undone completely, later phases are only reported |
| Recovery.Machine.DiscardStaged | internal/core/recovery.go:665-674 | only a staged, unapplied core is discarded, and then completely |
| Fence.StagedFences | internal/agent/network_binding.go:268-294 | after the fence every active lease was active before, unchanged, for a wanted unblocked resource with the same fingerprint |
| Fence.UnchangedLeaseSurvives | internal/agent/network_binding.go:268-386 | a lease whose resource is still wanted, unblocked and unchanged survives a prepare, whatever fails, unless its path is strict and could not be confirmed |
| Fence.OpensIff | internal/agent/network_binding.go:258-401 | a prepare opens a transaction exactly when the plan was read and there is nothing to fence or both fences were installed; otherwise no lease is new, and before the first fence nothing changes |
| Fence.ChangedStrictPathIsFenced | internal/agent/network_binding.go:366-384 | a strict lease whose path changed or could not be resolved is closed |
| Fence.OtherwiseStagedClosed | internal/agent/network_binding.go:274-287 | everything new, pending, blocked or changed is staged closed under its wanted configuration |
| Fence.ResolvedGetsCandidate | internal/agent/network_binding.go:373-386 | a resolved resource gets a candidate with its new path, or with the old sample of an unchanged one |
| Fence.FinishInForce | internal/agent/network_binding.go:437-450 | behind a replaced plan unapplied cores keep what was staged, and wanted candidates of applied cores are in force |
| Fence.RestagedFences | internal/agent/network_binding.go:366-400 | resolution may only take further leases away |
| Fence.CandidatesResolve | internal/agent/network_binding.go:373-386 | candidates belong to wanted, unblocked resources and carry the path resolved in this transaction |
| Fence.FinalActivates | internal/agent/network_binding.go:433-449 | finish leaves an active lease only to a staged one of an unapplied core or a candidate of an applied core; a resource leaves only unwanted and with its core applied |
| Fence.RunKeeps | internal/agent/network_binding.go:258-461 | over every sequence of prepare, finish and restart the leases in force match the desired state they were fenced for |
| Fence.LeasesComeFromFinish | internal/agent/network_binding.go:433-449 | a lease in force that was not in force earlier was granted in between by a finish to a candidate of an applied core, with the path resolved by the prepare right before |
| Fence.OpenFromPrepare | internal/agent/network_binding.go:373-400 | an open transaction was prepared by the last event and its candidates carry the paths resolved there |
| Fence.FailedFinishKeepsPlanIff | internal/agent/network_binding.go:433-461 | whatever the calls of finish do, its error means an unchanged plan exactly when nothing is open, the forwards will not be noted, or the final plan is the present one |
| Fence.NotesForwardsIff | internal/agent/network_binding.go:453 | when the forwards are noted, in terms of what was prepared |
| Fence.FailedFinishMayActivate | internal/agent/network_binding.go:450-457 | a concrete run in which a forward is in force although finish failed |
| Fence.RemovedOnlyWithItsCore | internal/agent/network_binding.go:438-449 | a resource leaves the plan only unwanted and with its core applied |
| Fence.LeasesMatchDesired | internal/agent/network_binding.go:258-401 | every lease in force belongs to an unblocked desired resource with its fingerprint |
| Fence.StagePlan | internal/agent/network_binding.go:268-288 | the staging loops build the fenced plan |
| Fence.ResolveAll | internal/agent/forward_binding.go:109-188 | the resolution loop in rotated order gives the same plan and candidates for every starting point |
| Fence.Visit | internal/agent/network_binding.go:366-386 | what one resource's resolution does to its staged lease and candidate |
| Fence.FinalPlan | internal/agent/network_binding.go:437-450 | the finish loop builds the final plan in whatever order the map is read |
| Fence.Runtime.Replace | internal/agent/network_binding.go:155-190 | unchanged, renewed or installed: success means exactly the requested bindings, failure leaves the plan |
| Fence.ReplacedWhen | internal/agent/network_binding.go:155-190 | success depends on nothing for an unchanged healthy plan, on the renewal when only lookup lifetimes differ, and otherwise on building and installing |
| Fence.Runtime.PrepareBindings | internal/agent/network_binding.go:258-401 | prepare as a whole, with each call that may fail |
| Fence.Runtime.FinishBindings | internal/agent/network_binding.go:433-461 | finish as a whole, including the late failure that does not take the plan back |
| Rotation.FindStart | internal/agent/network_binding.go:300-306 | the remembered node's index, or the first when it is gone |
| Rotation.KeptInOrder | internal/agent/network_binding.go:387-393 | the prepared nodes are exactly the ready ones, in configured order |
| Rotation.CoreNodes | internal/agent/network_binding.go:307-393 | the list given to the core is the configured order of the prepared nodes for every starting point |
| Rotation.ForwardList | internal/agent/forward_binding.go:113-187 | the list of forwards is the ready ones from the starting point on, then those before it |
| Rotation.ForwardOrderIff | internal/agent/forward_binding.go:113-187 | that list has the configured order exactly when the ready forwards lie on one side of the starting point; it always holds the same ones |
| Rotation.ForwardOrderMayTurn | internal/agent/forward_binding.go:113-187 | two ready forwards visited from the second one come out exchanged |
| Rotation.LookupBatch | internal/agent/network_binding.go:298-347 | which nodes a batch looks up and where the next one resumes |
| Rotation.LookupsWithinBudget | internal/agent/network_binding.go:298-347 | a batch looks up only nodes that need it, as many as its time allows, and all of them if time remains |
| Rotation.CloserOrAttempted | internal/agent/network_binding.go:342-347 | a batch that starts a lookup either reaches a needing node or moves the start closer to it |
| Rotation.EveryNodeGetsItsTurn | internal/agent/network_binding.go:298-347 | with an unchanged list a node that keeps needing a lookup gets one within as many batches as there are nodes |
| Retirement.ValidateBatch | internal/agentproto/settlement.go:28-40 | accepts exactly the batches that are named by their content, bounded and without a repeated node |
| Retirement.ValidatePlan | internal/agent/retirement.go:239-264 | accepts exactly the plans whose batch reads only frozen nodes and whose remaining rules avoid them |
| Retirement.PlanReadsItsNodes | internal/agent/retirement.go:239-264 | the counters of a valid plan are those of its nodes, one each and none besides |
| Retirement.SelectStale | internal/agent/retirement.go:129-134 | the first bounded batch of identities without an active node |
| Retirement.RemainingRules | internal/agent/retirement.go:138-154 | the accounting rules that stay while a batch is settled |
| Retirement.RemainingPartition | internal/agent/retirement.go:138-154 | frozen and remaining identities partition the meter list |
| Retirement.RemainingExactly | internal/agent/retirement.go:138-154 | one rule for every other identity: as configured for an active node, closed under its remembered port and core for one that is gone |
| Retirement.AdditionsFresh | internal/agent/state.go:196-213 | remembering adds only nodes not known yet, once each, under new generations |
| Retirement.AdditionsCover | internal/agent/state.go:196-213 | afterwards every configured node has an identity |
| Retirement.AdditionsOfNodes | internal/agent/state.go:196-213 | each new identity is that of a configured node |
| Retirement.StepKeeps | internal/agent/retirement.go:115-237 | every step keeps the settlement invariant |
| Retirement.SettledOnce | internal/agent/retirement.go:181-237 | over every run an identity is sent in one batch only, is cleaned only after that batch was acknowledged, and frozen and remaining identities partition the meters |
| Retirement.BeginsIff | internal/agent/retirement.go:115-177 | exactly when a settlement begins, and that it settles the first stale identities with the final readings |
| Retirement.AcknowledgedIff | internal/agent/retirement.go:189-202 | a batch counts as acknowledged exactly when an answer names its content; no other answer changes anything |
| Retirement.RoundsShrinkStale | internal/agent/retirement.go:115-237 | over every run, with lost answers, failed saves and restarts, a step leaves a pending plan, its meters and the wanted nodes alone, or it completes the round: exactly the frozen nodes, none of them wanted, leave the stale set, which is strictly smaller |
| Retirement.RoundShrinks | internal/agent/retirement.go:115-225 | a round in which everything works settles the whole first batch of stale identities |
| Retirement.ConvergeOutcome | internal/agent/agent.go:742-922 | one attempt: blocked while a settlement is pending, otherwise identities for all nodes or none, and only an applied configuration whose saves worked is in force |
| Retirement.Agent.BeginRetirement | internal/agent/retirement.go:115-177 | freezing a batch, reverted when the save fails |
| Retirement.Agent.SendAndRecord | internal/agent/retirement.go:189-202 | the same bytes are sent until acknowledged; the acknowledgement is made durable before anything is cleaned |
| Retirement.Agent.CleanAndForget | internal/agent/retirement.go:203-225 | cleaning, then forgetting, reverted when the save fails |
| Retirement.Agent.FlushRetirement | internal/agent/retirement.go:181-225 | the whole flush |
| Retirement.Agent.RememberMeters | internal/agent/state.go:196-213 | identities are remembered within the budget or not at all |
| Retirement.Agent.ConvergeDesired | internal/agent/agent.go:742-922 | one attempt behind the gate of a pending settlement, up to recording its result |
| ForwardMeter.WantedRemembersAll | internal/agent/forward_meter.go:21-43 | preparing forgets no identity and keeps them distinct |
| ForwardMeter.WantedExactly | internal/agent/forward_meter.go:21-43 | metered are the forwards not settled yet, as configured, and every other remembered one, closed |
| ForwardMeter.ValidateReceipt | internal/agentproto/forward_receipt.go:24-30 | accepts exactly the well-formed receipts |
| ForwardMeter.CollectReceipt | internal/agent/forward_meter.go:77-108 | a receipt exists exactly when all meters were read and every desired forward has one |
| ForwardMeter.CheckReadings | internal/agent/forward_meter.go:53-75 | readings are usable exactly when every meter has one, in both directions and within bounds |
| ForwardMeter.CountersAsRead | internal/agent/forward_meter.go:96-105 | each counter of a receipt is the reading of its own forward, in the order of the configuration |
| ForwardMeter.StepKeeps | internal/agent/forward_meter.go:21-167 | every step keeps the metering invariant |
| ForwardMeter.RememberedUntilSettled | internal/agent/forward_meter.go:114-167 | a forward in the state file leaves it only in a step completing an acknowledged receipt that retires it and carries its counter |
| ForwardMeter.StepAdvances | internal/agent/forward_meter.go:159-166 | a completed flush raises the acknowledged revision to the receipt's and makes it durable |
| ForwardMeter.AcknowledgedIff | internal/agent/forward_meter.go:119-133 | a receipt counts as acknowledged exactly when an answer names its number; no other answer changes anything |
| ForwardMeter.ReceiptsCarryTheirReadings | internal/agent/forward_meter.go:77-112 | over every run each receipt ever sent or pending carries the readings taken when its number was drawn, for exactly the forwards of that configuration |
| ForwardMeter.FreezesIff | internal/agent/forward_meter.go:77-112 | a receipt is frozen exactly when one is due, all meters were read and it is valid |
| ForwardMeter.LostTableStartsEpoch | internal/agent/forward_meter.go:42-51 | over every run preparing with a lost table starts an epoch that no receipt has used |
| ForwardMeter.CompletesIff | internal/agent/forward_meter.go:114-167 | a flush completes exactly when its receipt was acknowledged durably, retired counters were pruned under a saved epoch, and the last save worked |
| ForwardMeter.CompletionForgets | internal/agent/forward_meter.go:134-166 | a completed flush forgets exactly the forwards its receipt retires |
| ForwardMeter.AcknowledgedRevisionGrows | internal/agent/forward_meter.go:159-166 | over every run, restarts included, the acknowledged revision never falls and each completed receipt raises it |
| ForwardMeter.MeteringSafe | internal/agent/forward_meter.go:114-167 | identities stay distinct, a receipt number stands for one receipt, pruning follows acknowledgement, the file holds no forward memory forgot |
| ForwardMeter.StoredRevisionFallsIff | internal/agent/forward_meter.go:147-166 | a step lowers the revision in the file exactly when the file is ahead of memory and the step writes memory over it |
| ForwardMeter.StoredRevisionSafeIff | internal/agent/forward_meter.go:147-166 | no step can lower the revision in the file exactly while the file is not ahead of memory |
| ForwardMeter.StoredRevisionFallsInRun | internal/agent/forward_meter.go:147-166 | in every reachable state a step lowers it exactly so; the receipt of the higher number is then still pending and acknowledged |
| ForwardMeter.StoredRevisionMayStepBack | internal/agent/forward_meter.go:159-165 | a run of valid configurations, with a valid receipt, whose next save lowers the number |
| ForwardMeter.Agent.PrepareForwardMeters | internal/agent/forward_meter.go:21-51 | prepare behind the gate of convergeDesired |
| ForwardMeter.Agent.FreezeForwardReceipt | internal/agent/forward_meter.go:77-112 | freezing a receipt; memory keeps it when the save fails |
| ForwardMeter.Agent.PruneHost | internal/agent/forward_meter.go:143-158 | the host half of the clean-up and what it leaves when it stops |
| ForwardMeter.Agent.FlushForwardReceipt | internal/agent/forward_meter.go:114-167 | the whole flush |
| Billing.StepKeeps | internal/agent/network_billing.go:34-120 | every step keeps the switching invariant |
| Billing.ValidatePolicy | internal/agentproto/network_billing.go:23-39 | accepts exactly the policies with a known mode, a revision within bounds and between 1 and 16 different interfaces, or none in legacy mode |
| Billing.SwitchSafe | internal/agent/network_billing.go:34-120 | over every run: sent means once durable, one identifier names one envelope, an unacknowledged one stays pending in memory and file, every policy in force was stated or acknowledged |
| Billing.InForceIsUsable | internal/agentproto/network_billing.go:23-79 | over every run the policy in force selects no interface or up to 16 different ones, and every switch sent raises the revision |
| Billing.AcknowledgedIff | internal/agent/network_billing.go:48-66 | a switch counts as acknowledged exactly when an answer of a capable controller names its identifier; no other answer changes anything, and that one puts its target in force |
| Billing.FlushAcknowledgesIff | internal/agent/network_billing.go:34-66 | the same for a whole flush, behind the save that must come first |
| Billing.NewsIsActedOn | internal/agent/network_billing.go:69-119 | a new statement of the controller is adopted, and a newer request leads to a switch from the current revision to it, with the sample taken |
| Billing.NoNewsNoChange | internal/agent/network_billing.go:69-92 | any other statement changes nothing |
| Billing.SentAfterDurable | internal/agent/network_billing.go:42-53 | a switch is put on the wire only behind the save that made it durable |
| Billing.SentStaysPending | internal/agent/network_billing.go:34-75 | over every run, from being sent until acknowledged a switch is the pending one, unchanged, in memory and in the file, and newer requests change nothing |
| Billing.PolicyChanges | internal/agent/network_billing.go:57-119 | the policy in force changes only to what the controller stated while nothing was pending, to the target of a switch acknowledged by its identifier, or back to the file by a restart |
| Billing.Agent.SendSwitch | internal/agent/network_billing.go:48-66 | sending, and adopting only on the acknowledgement with its identifier |
| Billing.Agent.FlushNetworkBilling | internal/agent/network_billing.go:34-67 | retrying the pending switch unchanged |
| Billing.Agent.BeginSwitch | internal/agent/network_billing.go:93-119 | freezing a new switch |
| Billing.Agent.ReceiveNetworkBilling | internal/agent/network_billing.go:69-120 | adopting what the controller committed before any switch |
| Receipts.RunCores | internal/agent/agent.go:1111-1184 | which cores count as applied, retained and attempted |
| Receipts.Conclude | internal/agent/agent.go:1185-1230 | which cores are ready, only when all common protections passed, and which must be finalized after each failed protection |
| Receipts.FinishCores | internal/agent/node_applications.go:51-80 | a ready core stays ready only if its finalizer committed; one that neither commits nor rolls back is stopped |
| Receipts.AppliedIffEarned | internal/agent/node_applications.go:81-104 | a desired node is listed as applied exactly when its core's application, all common checks and its finalizer succeeded and it is prepared and unblocked |
| Receipts.ListedStatus | internal/agent/node_applications.go:81-104 | the whole list: failed exactly when the core did not get all the way, otherwise blocked exactly when unprepared or blocked, and no other node is listed |
| Receipts.AttemptedExactly | internal/agent/agent.go:1111-1184 | which cores count as attempted |
| Receipts.Conclusion | internal/agent/node_applications.go:51-104 | the loops together produce that list |
| Receipts.StepKeeps | internal/agent/node_applications.go:88-113 | every step keeps numbering and truthfulness |
| Receipts.PublishedOrWithdrawn | internal/agent/node_applications.go:85-114 | after an attempt memory holds the new list under the next number, or none under the old one when the save failed; an attempt of no core changes nothing |
| Receipts.InvalidatedHoldsNoSuccess | internal/agent/nat.go:391-412 | after a local failure no success is left to report, and the number is new if there was one |
| Receipts.OneListPerSequence | internal/agent/nat.go:391-412 | two reports under one number are the same report, numbers never go back, what is reported is durable |
| Receipts.ReportedAppliedWasEarned | internal/agent/node_applications.go:81-104 | over every run a node reported as applied earned it in an attempt at the reported revision |
| Receipts.Agent.FinishNodeApplications | internal/agent/node_applications.go:51-114 | publishing, withdrawn with its number when the save fails |
| Receipts.Agent.InvalidateNATApplications | internal/agent/nat.go:391-412 | invalidating under a new number that stays spent when the save fails |
| Ratchet.NoteForwards | internal/agent/network_binding.go:529-547 | the loop over forwards, keeping what it noted when it stops |
| Ratchet.RequiredVersions | internal/agent/network_binding.go:475-504 | the versions a configuration has to declare |
| Ratchet.RequiredDemands | internal/agent/network_binding.go:475-507 | a declaration suffices exactly when it covers what its forwards and nodes use and what was remembered |
| Ratchet.RememberedIff | internal/agent/network_binding.go:474-547 | a configuration is remembered exactly when its declaration suffices and its datagram forwards are managed |
| Ratchet.RememberedExactly | internal/agent/network_binding.go:529-561 | what is remembered then, field by field |
| Ratchet.IntentKeeps | internal/agent/network_binding.go:474-561 | however remembering ends, memory can be saved and loaded unchanged, is not older, and does not pass the offered revision |
| Ratchet.StepKeeps | internal/agent/agent.go:788-930 | every step keeps memory ahead of the file and moves the file only forward |
| Ratchet.NothingOlderAccepted | internal/agent/state.go:150-155 | once a network-bound configuration was in the file, everything the gate lets through later is newer or has the same digest |
| Ratchet.AdmitsIff | internal/agentproto/validate.go:18-54 | exactly which revisions, digests and declared versions pass the gate |
| Ratchet.LoadsIff | internal/agent/state.go:94-140 | exactly which state files can be loaded |
| Ratchet.AcceptedIff | internal/agent/agent.go:788-872 | exactly when an application starts: the gate, the saves it needs, a sufficient declaration and managed datagram forwards |
| Ratchet.UnderWayIsDurable | internal/agent/network_binding.go:548-561 | over every run a network-bound configuration is applied only while the file holds its revision and digest |
| Ratchet.RefusedHalfWay | internal/agent/network_binding.go:529-547 | a refusal half-way leaves the traces of the forwards before the first unmanaged one, and no new mark |
| Ratchet.ConcludeRecords | internal/agent/agent.go:893-922 | only success moves the applied mark, and nothing else moves |
| Ratchet.LoadedIsConsistent | internal/agent/state.go:91-140 | what loading accepts |
| Ratchet.VersionsNeverDecrease | internal/agent/state.go:76-148 | remembered versions in the file never decrease, memory is never behind, and the file can always be loaded |
| Ratchet.NoFallback | internal/agent/network_binding.go:485-507 | a configuration without the network contract is refused once one with it was remembered |
| Ratchet.Agent.ConvergeDesired | internal/agent/agent.go:788-872 | the gate and both remembering steps |
| Ratchet.Agent.ChangeIntent | internal/agent/network_binding.go:474-560 | the changes to memory in the order of the source, also when it refuses half-way |
| Ratchet.Agent.RecordResult | internal/agent/agent.go:893-922 | only a successful application moves the applied mark |
| Upload.InsertedCounts | internal/connlog/store.go:143-172 | ingesting keeps each daily counter equal to its raw rows |
| Upload.InsertedUnique | internal/connlog/store.go:143-172 | new events are stored once each |
| Upload.InsertedRowsTell | internal/connlog/store.go:143-169 | each new row tells its own event: node, share, host cut to 253 characters, time unless it lies in the future, and batch number |
| Upload.FilteredExactly | internal/api/agent.go:589-619 | exactly the events of nodes whose logging is allowed are kept |
| Upload.InsertedClash | internal/connlog/store.go:143-172 | an event that is already stored would be stored again |
| Upload.HandleKeeps | internal/api/agent.go:548-626 | the handler stores only events of the batch, never lowers its numbers, and marks a number that stored anything |
| Upload.HandleStores | internal/api/agent.go:548-626 | exactly when a new event is stored, which number is acknowledged and when it is noted |
| Upload.NotedCatchesUp | internal/agent/agent.go:1302-1305 | an acknowledged number is spent for good, and the agent catches up with a controller that is ahead |
| Upload.UploadKeeps | internal/agent/agent.go:1253-1308 | a round whose batch is not smaller than an unanswered one before it keeps the books |
| Upload.StoredOnce | internal/agent/agent.go:1253-1308 | over every run without shrinking retries no event is stored twice |
| Upload.ConstantBatchIsPatient | internal/agent/agent.go:1269-1273 | a constant batch size never shrinks a retry |
| Upload.CountersMatchRows | internal/connlog/store.go:111-179 | over every run each daily counter is the number of raw rows with its key |
| Upload.ExposedIsRequeued | internal/agent/agent.go:1293-1301 | after a stored but unanswered batch exactly the requeued events are known to the controller |
| Upload.RetryAfterLostAnswerIff | internal/agent/agent.go:1286-1305 | after a stored but unanswered batch a retry stores nothing twice if and only if it is at least as large as what was put back |
| Upload.RetryExactIff | internal/agent/agent.go:1286-1305 | after a stored but unanswered batch a retry neither stores twice nor loses if and only if it takes exactly what was put back |
| Upload.SpentRoundLosesIff | internal/api/agent.go:578-587 | a retry under a spent number loses exactly what it takes beyond the stored events |
| Upload.FreshRoundLosesIff | internal/api/agent.go:578-587 | a round of events the controller has never seen loses some of them if and only if its number was used before |
| Upload.EnrolmentLosesIff | internal/agent/agent.go:136-150 | after any run an agent enrolled again loses events of its first upload if and only if the controller noted or stored a batch before |
| Upload.RestartLosesIff | internal/agent/agent.go:1302-1305 | after any run a restarted agent loses events of its first upload if and only if its file is behind a number the controller used |
| Upload.EnrolmentLoses | internal/store/servers.go:290-306 | a concrete run in which the first event after a new enrolment is acknowledged but never stored |
| Upload.LostRequestExposesNothing | internal/agent/agent.go:1296-1301 | after a request that never arrived the controller holds nothing that is queued |
| Upload.RetryAfterLostRequest | internal/agent/agent.go:1286-1305 | then a retry of any size stores nothing twice |
| Upload.RetrySafeIff | internal/agent/agent.go:1286-1305 | in any state with numbers in step, the same in terms of what the controller already holds |
| Upload.ShrinkingRetryFails | internal/agent/agent.go:1286-1301 | a concrete retry that stores an event twice |
| Upload.Store.IngestBatch | internal/connlog/store.go:111-179 | one transaction: filtered by batch number, all or nothing |
| Upload.FilterEvents | internal/api/agent.go:613-619 | the events of nodes that may be logged, in order |
| Upload.Pipeline.AgentConnlog | internal/api/agent.go:548-626 | duplicate acknowledgement, filtering, storing, noting the number |
| Upload.Pipeline.TakeBatch | internal/agent/agent.go:1286-1292 | two takes from the shared queue are one prefix of it |
| Upload.Pipeline.UploadOnce | internal/agent/agent.go:1269-1305 | one round of the loop, with arrivals while it is under way |
| Ring.EvictsOnlyAsNeeded | internal/conntail/conntail.go:378-399 | a push drops oldest events first and only as many as it must |
| Ring.OversizedIsRefused | internal/conntail/conntail.go:385-389 | an event larger than the whole budget is refused and evicts nothing; any other is queued |
| Ring.HoldsOneMore | internal/conntail/conntail.go:352-393 | when one more event fits, counted in events and in bytes |
| Ring.RequeuesLongestSuffix | internal/conntail/conntail.go:421-441 | a requeue keeps the longest suffix of the batch that fits |
| Ring.TakeRequeueIdentity | internal/conntail/conntail.go:401-441 | taking and requeueing is the identity |
| Cyclic.SlotIsRemainder | internal/conntail/conntail.go:358-399 | the slot arithmetic of ring and rotation is the remainder |
| Ring.Tailer.Room | internal/conntail/conntail.go:358-369 | growing moves the ring without changing the queue |
| Ring.Tailer.Pop | internal/conntail/conntail.go:370-376 | removes the oldest event |
| Ring.Tailer.Push | internal/conntail/conntail.go:378-399 | the new queue is the specified one, limits hold, the ledger of events balances |
| Ring.Tailer.Take | internal/conntail/conntail.go:401-418 | hands out a prefix and keeps the rest |
| Ring.Tailer.Requeue | internal/conntail/conntail.go:421-441 | puts a suffix back in front, limits hold, the ledger of events balances |
| Ring.Tailer.Clear | internal/conntail/shared.go:13-27 | empties the queue and counts what was cleared |
| LineReader.LinesPartition | internal/conntail/conntail.go:198-232 | lines and incomplete tail make up the text; the lines handed over are those that fit |
| LineReader.LinesAreLines | internal/conntail/conntail.go:198-232 | each of them is one newline behind text without any |
| LineReader.SliceSettles | internal/conntail/conntail.go:202-232 | one call of the buffered reader advances over exactly the text it accounts for |
| LineReader.SkippingMeaning | internal/conntail/conntail.go:209-218 | a reader started inside a line hands over exactly the fitting lines behind that line's end |
| LineReader.TracksLines | internal/conntail/conntail.go:126-236 | the lines handed over are those from before reading started over and those of the text followed since |
| LineReader.Tailer.constructor | internal/conntail/conntail.go:126-133 | the reader starts at the present end of the file and stands where one that follows only what comes would stand |
| LineReader.GrowthSettles | internal/conntail/conntail.go:175-200 | a poll may start where the last one stopped |
| LineReader.Tailer.ReadLines | internal/conntail/conntail.go:198-232 | after a snapshot is read the lines handed over are those of the followed text, wherever following started |
| LineReader.Tailer.Poll | internal/conntail/conntail.go:144-236 | the offset never passes the observed size; a file that grew is followed exactly, and after replacement, a backlog, switching off or emptying the reader starts over at the stated place |
| LineReader.Tailer.Follow | internal/conntail/conntail.go:144-236 | from wherever the reader stands, any split of the growth into polls hands over the lines of the text behind its starting point |
| LineReader.Tailer.StandsAtReached | internal/conntail/conntail.go:144-236 | a reader that tracks a text stands behind its last complete line, or at its end once the open line is too long |
| Routing.MarkUnique | internal/agentproto/resource.go:15-27 | marks identify the resource, node or forward |
| Routing.MarkTells | internal/agentproto/resource.go:15-27 | below its prefix a mark carries the identity, and exactly the identities of 24 bits have one |
| Routing.TagUnique | internal/agentproto/resource.go:29-34 | so do tags |
| Routing.CollectDenied | internal/core/singbox.go:167-175 | the nodes without permission to reach private addresses |
| Routing.BuildConfig | internal/core/singbox.go:152-374 | the loop over nodes compiles the specified configuration or refuses a mark out of range |
| Routing.CheckForwards | internal/core/forward.go:172-201 | accepts exactly forwards with distinct numbers, free ports, marks and a session total within budget |
| Routing.BuildResourceConfig | internal/core/forward.go:161-235 | the whole configuration, if and only if both lists are acceptable |
| Routing.NodeServedAlone | internal/core/singbox.go:152-374 | a node's connection is decided by its own specification whatever else shares the process |
| Routing.DirectNodeRoutedIff | internal/core/singbox.go:233-249 | a direct node routes a connection exactly when its addresses are known, none is private without permission, and no address of the other family is among them |
| Routing.UnboundNodeRoutedIff | internal/core/network.go:164-184 | an unbound node routes everything except a private literal it has no permission for |
| Routing.ForwardServedAlone | internal/core/forward.go:27-235 | the same for forwards, also beside a node of the same number |
| Routing.NodeOwnMark | internal/core/network.go:109-184 | a node's connection ends in rejection or in an outbound carrying its own mark |
| Routing.ForwardOwnMark | internal/core/forward.go:27-235 | a forward's connection ends in an outbound carrying its own mark |
| Routing.ResolversOwnMark | internal/core/network.go:109-163 | every resolver of the configuration is that of one direct node and leaves under its mark |
| Routing.ListensExactly | internal/core/forward.go:161-235 | the configuration listens for exactly the nodes and forwards given |
| Routing.DirectNodeNeverPrivate | internal/core/singbox.go:233-249 | a direct node without permission never routes a private address, literal or resolved |
| Routing.DirectNodeRoutesResolved | internal/core/singbox.go:233-249 | a direct node's names are resolved through its own resolver before anything is routed |
| Topology.ClosedContainsPath | internal/agentproto/network_topology.go:60-76 | a set closed under known edges contains every path from it |
| Topology.Search | internal/agentproto/network_topology.go:61-76 | finds another selected interface exactly when one is reachable, cycles included |
| Topology.ValidateBillingTopology | internal/agentproto/network_topology.go:33-79 | refuses exactly the selections in which one interface reaches a different selected one |
| Topology.BilledIndexKnown | internal/agentproto/network_topology.go:37-52 | every selected interface is a node of the graph |
| Topology.BilledExactly | internal/agentproto/network_topology.go:37-52 | of a snapshot with different identities exactly the selected interfaces are billed |
| Topology.NeighboursOverlap | internal/agentproto/network_topology.go:60-76 | an interface whose parent or master is billed overlaps it |
| Topology.UnlinkedNeverOverlaps | internal/agentproto/network_topology.go:60-76 | an interface without links overlaps nothing |
| BackupStream.BigEndianEncodes | internal/backup/stream.go:27-62 | the length and sequence fields are a bijection on 32 bits |
| BackupStream.NonceUnique | internal/backup/stream.go:39-49 | nonces are pairwise distinct, as section 8 of NIST SP 800-38D requires |
| BackupStream.Seal | internal/backup/stream.go:27-62 | writes the specified stream or refuses input beyond the 32-bit limit |
| BackupStream.Open | internal/backup/stream.go:63-105 | reads a stream with the specified outcome, each error included |
| BackupStream.RoundTrip | internal/backup/stream.go:27-105 | what Seal accepts comes back unchanged |
| BackupStream.TruncationRefused | internal/backup/stream.go:63-105 | every strict prefix of a stream is refused |
| BackupStream.ExtensionRefused | internal/backup/stream.go:63-105 | every extension of a stream is refused |
| BackupStream.BadLengthRefused | internal/backup/stream.go:79-82 | a record of a length that no sealed chunk has is refused before anything of it is read |
| BackupStream.OnlyGenuineAccepted | internal/backup/stream.go:63-105 | with an unforgeable cipher exactly the streams sealed under the key are accepted, and each opens to its own data |
| BackupStream.UnforgeableExists | internal/backup/stream.go:27-105 | for every set of streams there is a codec that meets all hypotheses of that theorem |
| BackupStream.IdealOpens | internal/backup/stream.go:27-105 | a cipher that opens whatever it seals meets what is asked of it for every stream |

## Left out

- Power loss that undoes a rename whose directory was not synced: a rename that took effect stays.
- Recovery always completing: a crash between creating the recovery directory and its first journal leaves a directory that every operation refuses and leaves alone (internal/core/recovery.go:115-125, proved in their contracts), and a leftover backup of an interrupted copy blocks the next one.
- What an activation itself writes: `Recovery.Machine.RunActivation` covers a driver that changes only the units and configurations it named to beginCoreApply; that the three drivers do so is not modelled.
- Permissions, owners, symbolic links, size limits and the allow-lists of unit and configuration names.
- The drift of service states outside these methods, and the 500 ms wait before the running check.
- Transports (SOCKS5, WireGuard, SSH): routing covers direct and unbound resources; in the fence a transport is only a resource with a strict path.
- How an address is resolved and when a pinned name is due for a new lookup: answers are inputs of the fence, needs and budgets inputs of the rotation.
- The lease monitor running between applies, and revocation by it.
- The checks of ValidateDesired on counts, port mapping, generation, tuning, ports, session budgets and parameters, except for identity, revision, digest and versions; `Routing.CheckForwards` covers the same budgets at compile time.
- The OpenRC version flag set at start, and the legacy settlement of systemd units.
- Parsing a log line and pairing both halves of a connection (internal/conntail/conntail.go:246-350).
- Two separate log queues: the agent always installs the shared one, so both log files feed one queue.
- Trimming and case folding of host names, and the format of random identifiers and epochs.
- Pruning of stored rows and counters.
- The ingest code of the controller for settlements, receipts and switches: its answers are inputs, and no property depends on more than the identifier it acknowledges.
- Digests and the cipher are ideal: a digest is as good as its content, a cipher opens what it sealed for the streams at hand and, where stated, nothing else.
- JSON encodings and their size limits, HTTP, locks, clocks.
