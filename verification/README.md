# Self Node Remediation: fencing, detection and safe time

Self Node Remediation fences a broken Kubernetes node. The agent on the node finds out that it is isolated and reboots the
host through a watchdog; the manager taints the node, waits for a computed time and then removes the node's workloads.
The promise is run-once semantics: replacement pods must not start while the old host can still run them
(`api/v1alpha1/selfnoderemediationconfig_types.go`, lines 43-49). This project models the components this promise depends
on and proves it for all runs of the composed system, together with the exact condition under which it holds.

`dafny verify dfyconfig.toml` checks everything.

| file | models |
|---|---|
| `Basics.dfy` | time unit (nanoseconds), optional values, truncation |
| `Batches.dfy` | `pkg/utils/peers.go`: batch sizes and batch counts |
| `ApiCheck.dfy` | `pkg/apicheck/check.go`: error counter, batched peer query, verdict (worker case) |
| `Calculator.dfy` | `pkg/reboot/calculator.go`: the safe time |
| `Watchdog.dfy`, `Rebooter.dfy` | `pkg/watchdog/synchronized.go`, `pkg/reboot/rebooter.go` |
| `Taints.dfy`, `OwnerAndName.dfy` | `pkg/utils/taints.go`, `controllers/owner_and_name.go` |
| `Remediation.dfy` | `controllers/selfnoderemediation_controller.go` as functions on values |
| `Reconciler.dfy` | the same code as methods that update their copies in place, proved equal to those functions |
| `HandlersExactly.dfy` | exactly what every handler does, for every outcome of its writes |
| `RemediationInvariant.dfy`, `RemediationRuns.dfy`, `Progress.dfy`, `Agent.dfy` | what holds in every run of the protocol |
| `Isolation.dfy` | the agent process in time, and the detection bound |
| `HostRuns.dfy`, `LongestRuns.dfy` | runs of an agent that attain the detection bound and the longest life of its host |
| `EndToEnd.dfy`, `UnsafeRuns.dfy` | the composed system: run-once safety, and runs that show its condition is needed |

## Main results

- `EndToEnd.RunOnceSafety`: in every run of manager, node controller, NodeHealthCheck, check loop and watchdog on one
  clock, with any write failing or getting lost and the margin safe, an isolated worker's host was reset before its
  workloads are removed, unless the agent's pod was shut down; and it was not, if a shutdown has closed the device.
  `EndToEnd.EveryRunIsSafe` says so of whole runs, and `EndToEnd.MarginExactly` says when the margin is safe, in terms of
  the configuration, the number of workers, the annotation, and whether a software reboot works.
- `UnsafeRuns.RunOnceSafetyExactly`: for every admissible configuration, without that margin there is a run, of an agent
  from its start on, in which pods are deleted while the host runs. `UnsafeRuns.ClusterSafeExactly` gives the condition for a
  cluster of any size, with an agent that lists the other workers. Three things can eat the margin up:
  - The stored time loses up to a second. With a threshold of one, query rounds of 30s or more and a check interval that lets
    a check end at the 30s limit, the calculated duration equals the worst case, and that fraction is missing
    (`UnsafeRuns.TightConfigIsUnsafe`).
  - The calculator counts too few batches. With the default configuration and the right timeout annotated, clusters of
    exactly 43 and 53 workers are not safe, unless a software reboot works and the device's timeout is above 190s
    (`UnsafeRuns.DefaultsSafeExactly`, `UnsafeRuns.DefaultClusterIsUnsafe`).
  - Agents annotate their watchdog's timeout before it is known, as zero. With the default configuration and a device timeout
    of 60s or more the margin is missing in every cluster, with and without software reboots
    (`UnsafeRuns.AnnotatedBeforeStart`).

  If all batches are counted and the annotated timeout is not below the device's, thresholds of two or more are safe
  (`EndToEnd.MarginOfValidConfigs`).
- `UnsafeRuns.ShutdownRun`: no margin helps against a shutdown of the agent's pod that closes the device.
- `Isolation.DetectedInTime`: an isolated worker calls the rebooter within `max(T*(i+t)+P, M+i+t+P)`, where T is the error
  threshold, i the check interval, t the API timeout, P the time of a round of B batches of b each, and M the latest end
  of a check, counted from the last answer, that is still within the 30s of silence. With `n = floor(30s/i)` waits in
  that time, M is the smaller of 30s and the larger of `(B-1)*b + n*(i+t+P)`, after an answer in the first batch of a
  round, and, for a new agent with `T-1 <= n`, `t + (T-1)*(i+t) + P + (n-T+1)*(i+t+P)`. `LongestRuns.LongestDetection`:
  the bound is attained, for every admissible configuration.
- `RemediationRuns`: phases never go back, the node is fenced in all phases that need it, the finalizer is released only on a
  recovered node, and the node's taints are conserved. `Progress.BoundedWork`: at most seven reconciles do any work.
- `HandlersExactly`: for every handler, the exact conditions under which the phase advances, the node and the finalizer
  change, and an error is reported. Fencing is completed if and only if the workloads were removed
  (`HandlersExactly.RemovalExactly`, `HandlersExactly.CompletedOnlyAfterRemoval`), and a deleted remediation is recovered
  even if it was timed out before (`HandlersExactly.DeletedIsRecovered`).
- `ApiCheck`: the batched, concurrent query refines a declarative verdict that does not depend on the order of arrival, and
  `ApiCheck.VerdictExactly` gives that verdict, with its reason, from the replies alone.
- `Watchdog`, `Rebooter`: a triggered watchdog is never fed or disarmed again, and two reboot calls 30s apart escalate.

## Premises

- A reconcile is one atomic step on fresh reads of the remediation and of the node. Every write in it may succeed, conflict,
  be rejected, or be stored although the client sees an error; the final status write may be lost; decoding a response
  may keep or clear fields that the response does not have.
- One remediation per node, one removal strategy for the whole run, and nobody but the operator and the node
  controller changes the operator's taints or the unschedulable flag. Other taints may be edited freely at any time.
- Times and durations are mathematical integers; clocks agree. A new agent's watchdog is armed and its first check starts at
  once; after that the check loop waits exactly its interval, and an API call or a batch takes at most its timeouts. An
  isolated worker has at least one listed peer; its list has one of the lengths in `Params.lists`, and rounds take at most
  `Params.batches` batches. Isolation from a time on means that nothing completing from then on brings an API success or a
  peer's answer.
- Agent and calculator use the same configuration.
- The host counts as reset when its watchdog device has expired or, if `Params.software` says that it works, when a
  software reboot was invoked. A stopped agent does not come back: on an isolated node it cannot, since `main.go`, lines
  297-300, exits when the API server cannot be reached to annotate the node.
- The kernel's uptime has whole seconds; both roundings are covered.
- Critical sections of the watchdog are atomic; a nil cancel function ends the process.

## Where the code differs from its names and comments

- `MaxNrOfBatchesAfterFirst = 10` is not a maximum: 42 nodes take 13 batches after the first (`Batches.AtMostFourteenBatches`).
- The batch count is not monotone. The calculator counts all workers, a worker's list leaves itself out, and the count falls short
  exactly for 43 or more workers ending in 3 (`Batches.UndercountExactly`, `EndToEnd.CountCovers`).
- `main.go`, lines 286-297, annotates the watchdog timeout before `Start` reads it from the device, so that zero is annotated
  (`UnsafeRuns.AnnotatedBeforeStart`). The annotated timeout is a parameter of its own, and the margin says how low it may be.
- `Start` of the watchdog unlocks before it assigns its cancel function (`Watchdog.StopInStartWindow`), and returns no error when
  the device cannot be opened and software reboot is disabled, since wrapping a nil error gives nil.
- The branch for a deleted remediation stopped by NodeHealthCheck is dead (`Reconciler.SelfNodeRemediationReconciler.ReconcileBody`).
- An unsupported strategy's error is assigned to a shadowing variable and never reported (`Remediation.Remediate`).
- `popPeerIPs` leaves blank entries in the batch (`ApiCheck.PopPeerIps`).
- An agent takes a remediation owned by a Machine with an empty name for its own (`OwnerAndName.AgentAgreesWithManager`).
  Kubernetes requires owner names, so that such an owner cannot normally be stored.

## Model

| member | source | states |
|---|---|---|
| `Batches.GetNextBatchSize` | pkg/utils/peers.go:9-31 | a batch is never larger than what remains, never empty while something remains, and has at least three nodes if three remain |
| `Batches.GetNrOfBatches` | pkg/utils/peers.go:34-43 | the counting loop returns the closed form 0, 1, or 1 + ceil((n-3)/max(3,(n-3)/10)) |
| `Batches.AtMostFourteenBatches` | pkg/utils/peers.go:3-43 | no cluster takes more than 14 batches; 42 nodes take 14, 43 take 11 |
| `Batches.UndercountExactly` | pkg/reboot/calculator.go:138-153 | n-1 nodes take more batches than n exactly for n at least 43 ending in 3, then at most three more, and three more for 43 |
| `Batches.ThreeTooFewExactly` | pkg/reboot/calculator.go:138-153 | three batches too few are counted exactly for 43 and 53 workers |
| `ApiCheck.SplitCoversList` | pkg/apicheck/check.go:139-145 | the batches are consecutive parts of the peer list: concatenated they are the list, in order, without repetition |
| `ApiCheck.PopPeerIps` | pkg/apicheck/check.go:202-227 | pops exactly the first entries, blank ones included, and shrinks the list by them |
| `ApiCheck.SumPeersResponses` | pkg/apicheck/check.go:293-320 | the counters are the multiplicities of the four codes among the replies, in whatever order they arrive; other values count nowhere |
| `ApiCheck.ApiConnectivityCheck.constructor` | pkg/apicheck/check.go:55-62 | starts without errors and with the silence timer set to now |
| `ApiCheck.ApiConnectivityCheck.AskBatch` | pkg/apicheck/check.go:143-170 | one turn decides exactly on a Healthy or Unhealthy answer or a cumulative majority of API errors, with that priority, resets the counter on Healthy, and notes the time of any answer |
| `ApiCheck.ApiConnectivityCheck.QueryPeers` | pkg/apicheck/check.go:138-185 | the loop refines the declarative verdict: what the first deciding batch says, else the silence timer; it asks exactly the batches up to the deciding one |
| `ApiCheck.ApiConnectivityCheck.GetWorkerPeersResponse` | pkg/apicheck/check.go:123-137 | below the threshold or without peers healthy; otherwise the verdict of the query; new error count and time of last answer |
| `ApiCheck.ApiConnectivityCheck.CheckApi` | pkg/apicheck/check.go:72-121 | an API success resets the error count; after a failure the rebooter is called exactly on an unhealthy verdict |
| `ApiCheck.FullQueryAsksEverybodyOnce` | pkg/apicheck/check.go:139-172 | if no batch ends the query early, the asked batches concatenate to the whole list and their number is that of GetNrOfBatches |
| `ApiCheck.ArrivalOrderIrrelevant` | pkg/apicheck/check.go:229-238 | the detector and the response depend only on the multiset of replies of every batch, not on the order in which goroutines deliver them |
| `ApiCheck.OutageVerdict` | pkg/apicheck/check.go:161-183 | without Healthy and Unhealthy answers, the worker is judged healthy by majority exactly when more than half of all listed peers report API errors, for every order of list and replies; otherwise the silence timer decides |
| `ApiCheck.RebootOnlyIf` | pkg/apicheck/check.go:123-185 | an unhealthy verdict needs a full streak of failures, peers, no Healthy answer in any asked batch, and an Unhealthy answer or a silence beyond the limit |
| `ApiCheck.VerdictExactly` | pkg/apicheck/check.go:123-185 | unhealthy if and only if, from the threshold on and with peers, a peer is the first to know that the node is remediated, or nobody knows, no majority reports an outage and the silence exceeds the limit; the first Healthy answer, and nothing else, resets the counter; and the reason in each case |
| `ApiCheck.AnswerTimeExactly` | pkg/apicheck/check.go:147-149 | the time of the last answer is that of the deciding batch, or of the last batch with an answer, or unchanged |
| `Calculator.RebootDurationCalculator.constructor` | pkg/reboot/calculator.go:45-50 | a new calculator has no configuration |
| `Calculator.RebootDurationCalculator.GetRebootDuration` | pkg/reboot/calculator.go:58-96 | fails exactly without configuration or worker list; otherwise exactly the larger of the calculated minimum and the specified seconds, or the minimum if none are specified; a missing annotation counts as 60s |
| `Calculator.CalculateMinimumRebootDuration` | pkg/reboot/calculator.go:98-136 | threshold times interval plus timeout, plus the larger of the query rounds and 30s, plus watchdog timeout and 30s |
| `Calculator.AnnotationCovers` | pkg/utils/annotations.go:53-86 | the timeout read back from the annotation is not below the one annotated, and less than a second above |
| `Calculator.AnnotationCounts` | pkg/reboot/calculator.go:66-77 | a missing annotation counts as 60s, and an annotated second is waited for |
| `Watchdog.SynchronizedWatchdog.constructor` | pkg/watchdog/synchronized.go:38-44 | a new watchdog is disarmed and its device closed |
| `Watchdog.SynchronizedWatchdog.StartArm` | pkg/watchdog/synchronized.go:46-66 | arms once, or turns to Malfunction with software reboot enabled; reports an error exactly on a second start or an unreadable software reboot setting |
| `Watchdog.TriggeredForever` | pkg/watchdog/synchronized.go:46-110 | in every interleaving a triggered watchdog stays triggered and its device is neither fed nor disarmed again, so the deadline stands |
| `Watchdog.ReachableForever` | pkg/watchdog/synchronized.go:18-110 | in every interleaving the device counts exactly while armed or triggered, the recorded feed is not later than the device's, and a crash leaves an armed, running device |
| `Watchdog.CrashesExactly` | pkg/watchdog/synchronized.go:64-110 | from the unlock of an armed watchdog on, a nil cancel function is called if and only if a Stop comes before the assignment, whatever else interleaves |
| `Watchdog.StopInStartWindow` | pkg/watchdog/synchronized.go:64-69 | a Stop in between does, and leaves the device running |
| `Watchdog.OneMissedFeedIsHarmless` | pkg/watchdog/synchronized.go:71-83 | with feeds a third of the timeout apart and no two failures in a row, every feed finds the device before its deadline |
| `Watchdog.TwoMissedFeedsAreFatal` | pkg/watchdog/synchronized.go:83-83 | two failures in a row can let the device expire |
| `Rebooter.WatchdogRebooter.Reboot` | pkg/reboot/rebooter.go:38-69 | software reboot without watchdog, on Malfunction, Disarmed, or a stuck trigger; stops feeding an armed watchdog |
| `Rebooter.RebootTakesEffect` | pkg/reboot/rebooter.go:38-69 | whatever feeds and stops interfere with its status reads, a call invokes the software reboot or leaves the watchdog triggered |
| `Rebooter.StuckRebootEscalates` | pkg/reboot/rebooter.go:84-93 | on a triggered watchdog fed more than 30s ago, a call invokes the software reboot whatever interferes |
| `Rebooter.EscalatesWithinTwoCalls` | pkg/reboot/rebooter.go:38-93 | two calls more than 30s apart invoke the software reboot, from every status and whatever happens between them |
| `Rebooter.ShutdownDefeatsReboot` | pkg/reboot/rebooter.go:49-63 | a pod shutdown between reading Armed and stopping makes the call do nothing |
| `Rebooter.RebootFailsExactly` | pkg/reboot/rebooter.go:38-69 | a call that finds the watchdog armed has no effect if and only if a Stop finds the cancel function nil, or a shutdown closes the device after Armed was read and before anything else changes the status |
| `Rebooter.FailingStartDefeatsReboot` | pkg/reboot/rebooter.go:42-69 | a Start that fails between the two reads makes the call fail without software reboot |
| `Taints.TaintExists` | pkg/utils/taints.go:37-44 | true exactly if some taint has both the key and the effect |
| `Taints.DeleteTaint` | pkg/utils/taints.go:47-58 | exactly the taints that differ in key or effect, in order; the flag tells whether one had both |
| `Taints.OwnedExactly` | controllers/selfnoderemediation_controller.go:67-83 | only three pairs of key and effect are the operator's, whatever value and time |
| `Taints.OtherEffectSurvives` | pkg/utils/taints.go:46-58 | a taint with the key but another effect is not deleted |
| `Taints.ForeignWithout` | pkg/utils/taints.go:47-58 | deleting one of the operator's taints leaves everybody else's taints and their order |
| `OwnerAndName.FirstOwner` | controllers/owner_and_name.go:56-74 | the first owner of the kind, or none if there is none |
| `OwnerAndName.GetNodeName` | controllers/owner_and_name.go:33-53 | the annotation, else the name, if a NodeHealthCheck owns the remediation or no Machine does; otherwise what the first owning Machine refers to, or an error |
| `OwnerAndName.AgentAgreesWithManager` | controllers/owner_and_name.go:20-46 | every agent matches a remediation exactly when the manager resolves it to the agent's node, if and only if no Machine with an empty name owns it; and the answer in either case |
| `Reconciler.SelfNodeRemediationReconciler.AddTaint` | controllers/selfnoderemediation_controller.go:767-784 | appends the taint with its time unless a matching one exists |
| `Reconciler.SelfNodeRemediationReconciler.RemoveTaint` | controllers/selfnoderemediation_controller.go:786-807 | removes all matching taints and writes only if there was one |
| `Reconciler.SelfNodeRemediationReconciler.ReconcileManager` | controllers/selfnoderemediation_controller.go:198-303 | the reconcile with its deferred status write equals the step function all run theorems are about |
| `RemediationInvariant.DecodedStatus` | controllers/selfnoderemediation_controller.go:738-755 | whatever mix of persisted and new fields a response leaves in memory, the status is consistent and at most one phase ahead |
| `RemediationInvariant.ConditionsUpdated` | controllers/selfnoderemediation_controller.go:327-368 | whatever was set before, both conditions are set and agree on one reason, Succeeded is true exactly for the finishing reason, and nothing else changes |
| `RemediationInvariant.TaintAdded` | controllers/selfnoderemediation_controller.go:767-784 | for every write outcome foreign taints keep their order and the other owned taints stay; without error the taint is on the server |
| `RemediationInvariant.TaintRemoved` | controllers/selfnoderemediation_controller.go:786-807 | the same for a removal; without error the taint is gone from the server |
| `RemediationInvariant.AddFinalizerOk` | controllers/selfnoderemediation_controller.go:646-666 | a deleted remediation never gets the finalizer; nothing else on the server changes, whatever the response decodes to |
| `RemediationInvariant.PrepareRebootOk` | controllers/selfnoderemediation_controller.go:457-484 | the phase advances only on a capable, fenced node with the unschedulable taint, and with the time set from the calculated duration; the node is touched only under the finalizer |
| `RemediationInvariant.WaitOk` | controllers/selfnoderemediation_controller.go:490-503 | Reboot-Completed exactly when the time is not in the future; a set time is there, so no nil is dereferenced |
| `RemediationInvariant.OutOfServiceOk` | controllers/selfnoderemediation_controller.go:407-428 | the node stays fenced and foreign taints stay; if the removal is done without error or wait, the out-of-service taint is gone |
| `RemediationInvariant.HandleRebootCompletedOk` | controllers/selfnoderemediation_controller.go:505-519 | success is reported exactly with phase Fencing-Completed, on a fenced node without the out-of-service taint |
| `RemediationInvariant.LastErrorUpdated` | controllers/selfnoderemediation_controller.go:738-765 | patching the error text persists nothing but that text, and leaves a consistent status in memory whose phase is the old or the new one |
| `RemediationInvariant.RemediateOk` | controllers/selfnoderemediation_controller.go:432-451 | every handler keeps the invariant for the persisted and for the new phase, whatever its writes do |
| `RemediationInvariant.CallFinished` | controllers/selfnoderemediation_controller.go:198-227 | with the deferred status write, stored or lost, the persisted phase is the old one or the handler's |
| `RemediationInvariant.ManagerStepOk` | controllers/selfnoderemediation_controller.go:198-564 | for every outcome of every write a reconcile keeps the invariant, moves at most one phase, keeps a set time, does not crash, and leaves foreign taints alone |
| `RemediationInvariant.WithoutHandler` | controllers/selfnoderemediation_controller.go:229-282 | without configuration, stopped, without node, or excluded: node, finalizer and phase stay |
| `RemediationInvariant.RecoverNodeOk` | controllers/selfnoderemediation_controller.go:532-564 | if the finalizer is released, the node is schedulable and free of the operator's taints |
| `HandlersExactly.AddTaintExactly` | controllers/selfnoderemediation_controller.go:767-784 | a missing taint is appended with the current time, on the server if the write is stored; an error exactly if the needed write is not confirmed |
| `HandlersExactly.RemoveTaintExactly` | controllers/selfnoderemediation_controller.go:786-807 | exactly the taints with key and effect go, if the write is stored; an error exactly if the needed write is not confirmed |
| `HandlersExactly.ConditionsExactly` | controllers/selfnoderemediation_controller.go:327-368 | both conditions show what the reason asks for, and keep their reason if they did before; the third condition stays |
| `HandlersExactly.FinalizerUpdate` | controllers/selfnoderemediation_controller.go:646-666 | the finalizer is on the server exactly if the update is stored; a confirmed update replaces the status in memory by the persisted one, as far as that has it |
| `HandlersExactly.PrepareRebootExactly` | controllers/selfnoderemediation_controller.go:457-484 | the phase advances if and only if the node can reboot, has finalizer, NoExecute taint, flag and unschedulable taint, and the duration is known; and exactly when finalizer, taint and flag reach the server |
| `HandlersExactly.PrepareRebootError` | controllers/selfnoderemediation_controller.go:457-484 | which error is reported: the first obstacle, with conflicts of finalizer and flag passed over |
| `HandlersExactly.RemovalExactly` | controllers/selfnoderemediation_controller.go:399-519 | fencing is completed and success shown if and only if the pods were deleted, or the node drained and every taint write needed for that confirmed; otherwise the status stays, and which error is reported; draining is waited for 300s |
| `HandlersExactly.OutOfServiceExactly` | controllers/selfnoderemediation_controller.go:407-428 | exactly when the out-of-service taint is on the server after the handler |
| `HandlersExactly.RecoverExactly` | controllers/selfnoderemediation_controller.go:532-564 | exactly when the flag, the NoExecute taint and the finalizer are gone from the server, each only after the one before, and the remediation with them |
| `HandlersExactly.RecoverError` | controllers/selfnoderemediation_controller.go:532-564 | which error is reported, with conflicts of the flag passed over and those of the finalizer not |
| `HandlersExactly.StoppedExactly` | controllers/selfnoderemediation_controller.go:246-256 | timed out and not deleted: Processing and Succeeded false, and nothing else changes |
| `HandlersExactly.DisabledExactly` | controllers/selfnoderemediation_controller.go:229-244 | without configuration: Disabled, and nothing else changes; unreadable configuration: nothing |
| `HandlersExactly.SkippedExactly` | controllers/selfnoderemediation_controller.go:265-302 | missing or excluded node, unsupported strategy, unknown phase: node, finalizer and phase stay |
| `HandlersExactly.NodeNotFoundExactly` | controllers/selfnoderemediation_controller.go:265-276 | a missing node shows as neither processing nor succeeded, with the error text |
| `HandlersExactly.NodeUnreadableExactly` | controllers/selfnoderemediation_controller.go:265-276 | an unreadable node leaves the conditions at processing, with the error text |
| `HandlersExactly.PersistedExactly` | controllers/selfnoderemediation_controller.go:211-303 | exactly when the handler's phase is persisted: the status write is stored, and no patch of the error text has overwritten the phase in memory; and the error text |
| `HandlersExactly.CompletedOnlyAfterRemoval` | controllers/selfnoderemediation_controller.go:505-519 | in every run the step into Fencing-Completed is a reconcile that has removed the workloads |
| `HandlersExactly.DeletedIsRecovered` | controllers/selfnoderemediation_controller.go:246-256 | a deleted, completed remediation without the unschedulable taint loses finalizer, flag and taint once the three writes succeed, timed out or not |
| `RemediationRuns.ReachableInv` | controllers/selfnoderemediation_controller.go:198-564 | the invariant holds in every reachable state |
| `RemediationRuns.PhaseOnlyAdvances` | controllers/selfnoderemediation_controller.go:379-390 | in every run the persisted phase never goes back, advances by at most one, a set time never changes, and is set exactly past the start |
| `RemediationRuns.RemovalOnlyWhenSafe` | controllers/selfnoderemediation_controller.go:584-592 | no nil time is dereferenced; workloads are removed only from a fenced node and only when the time is not in the future |
| `RemediationRuns.ManagerAndFinalizer` | controllers/selfnoderemediation_controller.go:631-666 | a reconcile adds the finalizer only to an undeleted remediation at the start, and removes it only from a deleted, completed one with a clean node; without it the node stays |
| `RemediationRuns.FencedInEveryRun` | controllers/selfnoderemediation_controller.go:457-484 | finalizer, NoExecute taint and unschedulable flag in every phase that needs them |
| `RemediationRuns.ConditionsInEveryRun` | controllers/selfnoderemediation_controller.go:327-368 | Processing and Succeeded are both absent or consistent with one reason; success only with phase Fencing-Completed |
| `RemediationRuns.FinalizerReleasedOnlyWhenRecovered` | controllers/selfnoderemediation_controller.go:521-564 | the finalizer goes only from Fencing-Completed on a deleted remediation with a clean node; without it no reconcile changes the node |
| `RemediationRuns.DeletedEarlyNeverTouchesNode` | controllers/selfnoderemediation_controller.go:646-652 | deleted before the finalizer: it is never added and the manager never changes the node |
| `RemediationRuns.ForeignTaintsConserved` | controllers/selfnoderemediation_controller.go:767-856 | at every moment, without the operator's taints the list is what the others left, in order |
| `RemediationRuns.NodeConserved` | controllers/selfnoderemediation_controller.go:532-564 | a node that began clean ends with exactly its original taints and schedulable, for both strategies |
| `Progress.StepProgresses` | controllers/selfnoderemediation_controller.go:432-564 | when nothing fails, a reconcile lowers the measure or waits for exactly the unschedulable taint, the clock, draining or the deletion |
| `Progress.BoundedWork` | controllers/selfnoderemediation_controller.go:290-302 | at most seven productive reconciles in every run, plus one per draining time-out |
| `Progress.WorkGetsDone` | controllers/selfnoderemediation_controller.go:432-564 | for every remediation that is not timed out or is deleted: the finalizer is released after that many, and exactly when no stage is ahead; every reconcile before that lowers the measure or waits for one of five named things |
| `Agent.RebootsOnlyFencedOwnNode` | controllers/selfnoderemediation_controller.go:158-196 | in every run an agent reboots only for an undeleted, prepared remediation of its own, fenced node that has not booted since, up to the second an uptime rounded up gives away |
| `Agent.AgentExactly` | controllers/selfnoderemediation_controller.go:158-196 | an agent calls the rebooter if and only if the remediation exists, is not deleted, is prepared and is its own, and the uptime is not shorter than its age; and exactly when it fails |
| `Agent.RebootDecidedExactly` | controllers/selfnoderemediation_controller.go:594-604 | for both roundings of the uptime, exactly which boot times make the agent never reboot and always reboot, whenever it is asked |
| `Isolation.RoundIsQuery` | pkg/apicheck/check.go:138-185 | the timed events of a round give exactly the result of the query loop |
| `Isolation.CounterIsStreak` | pkg/apicheck/check.go:72-105 | in every run the error count is the number of failed checks since the last API success or Healthy answer |
| `Isolation.RebootsOnlyWithReason` | pkg/apicheck/check.go:112-185 | in every run the loop reboots only after a full streak, on an Unhealthy answer or a silence beyond the limit |
| `Isolation.ArisesOnTime` | pkg/apicheck/check.go:55-121 | in every state a started agent reaches, the last answer came before the current wait, or before the call and its wait, or the agent is in its first check |
| `Isolation.IsolatedStep` | pkg/apicheck/check.go:72-185 | while isolated, no step pushes the latest time of the reboot call back |
| `Isolation.DetectedInTime` | pkg/apicheck/check.go:72-185 | in every run an isolated worker with peers calls the rebooter within the exact detection bound, unless the host was reset or the pod shut down |
| `Isolation.CallTakesEffect` | pkg/reboot/rebooter.go:48-69 | every call of the rebooter triggers an armed watchdog and leaves its deadline; on a triggered one a working software reboot follows exactly if the last feed is more than 30s ago |
| `Isolation.TriggeredStep` | pkg/reboot/rebooter.go:49-93 | after the trigger no isolated step pushes the latest time of the software reboot back |
| `Isolation.BoundAgainstReserve` | pkg/reboot/calculator.go:107-135 | the bound fits the calculator's detection time exactly when min(P,30s) is at most (T-1)*(i+t) plus what M leaves of 30s, and never exceeds it by more than the 30s buffer |
| `EndToEnd.HostStep` | pkg/watchdog/synchronized.go:71-110 | every step keeps the host on its way to a reset (reboot called by the bound, device expiring by bound plus timeout, software reboot by its own bound), except a shutdown that closes the device of an armed watchdog |
| `EndToEnd.TimeIsSet` | controllers/selfnoderemediation_controller.go:678-695 | the persisted time is now plus the calculated duration, less the fraction of a second lost in storing it |
| `EndToEnd.RunOnceSafety` | api/v1alpha1/selfnoderemediationconfig_types.go:43-49 | with a safe margin, for every run, strategy and write outcome the host of an undisturbed agent was reset before the removal; if a pod shutdown closed the device, it was not |
| `EndToEnd.EveryRunIsAStory` | api/v1alpha1/selfnoderemediationconfig_types.go:43-49 | every run from the start to a removal splits at the reconcile that computes the time, and so is covered by run-once safety |
| `EndToEnd.EveryRunIsSafe` | api/v1alpha1/selfnoderemediationconfig_types.go:43-49 | the same of whole runs: with a safe margin the host was reset before the removal if and only if no pod shutdown closed the device |
| `EndToEnd.MarginExactly` | pkg/reboot/calculator.go:58-136 | the margin is safe exactly when the specified time covers the worst case, or when the buffer, and threshold turns with the rest of the buffer, make up for the lost fraction of a second together with what is spare in batches and timeout |
| `EndToEnd.MarginOfValidConfigs` | pkg/reboot/calculator.go:98-136 | with all batches counted and the timeout annotated, safe if the configuration has a second of its own to spare, as with thresholds of two or more or rounds a second below 30s; with both exact and no specified time, in no other case |
| `EndToEnd.CountCovers` | pkg/reboot/calculator.go:138-153 | counting all workers covers an agent's rounds unless there are 43 or more ending in 3; then 11 are counted and at most 14 asked |
| `LongestRuns.LongestDetection` | pkg/apicheck/check.go:55-185 | the detection bound is attained, for every admissible configuration, by a run of an agent from its start on |
| `LongestRuns.LongestLife` | pkg/reboot/rebooter.go:38-93 | after that the host may run until its device expires or, with software reboots, until one check after the last that does not find the reboot stuck |
| `UnsafeRuns.UnsafeRun` | controllers/selfnoderemediation_controller.go:584-592 | for every admissible configuration without the margin, a run of an agent from its start on that meets all premises, in which workloads are removed while the host runs |
| `UnsafeRuns.SafeRun` | controllers/selfnoderemediation_controller.go:584-592 | the premises can be met with every margin: a run in which the host was reset before the removal |
| `UnsafeRuns.ShutdownRun` | pkg/watchdog/synchronized.go:85-100 | whatever the margin, a run in which a pod shutdown closes the device and workloads are removed while the host runs |
| `UnsafeRuns.RunOnceSafetyExactly` | api/v1alpha1/selfnoderemediationconfig_types.go:43-49 | for every admissible configuration, every run of a started, undisturbed agent is safe if and only if the margin is |
| `UnsafeRuns.ClusterSafeExactly` | pkg/reboot/calculator.go:58-153 | a cluster of two or more workers, with an agent that lists the others, is safe in every run if and only if the specified time is long enough or the calculated one has enough to spare |
| `UnsafeRuns.DefaultsSafeExactly` | pkg/reboot/calculator.go:98-153 | with the default configuration and the device's timeout annotated, every cluster is safe except those of 43 and 53 workers, and these only with a working software reboot and a timeout above 190s |
| `UnsafeRuns.DefaultClusterIsUnsafe` | pkg/reboot/calculator.go:138-153 | a run of these that violates run-once, with an agent that lists 42 or 52 peers |
| `UnsafeRuns.AnnotatedBeforeStart` | main.go:282-300 | with the timeout of a watchdog not yet started annotated, the exact condition for the default configuration; no cluster meets it with a device timeout of 60s or more, with or without software reboots |
| `UnsafeRuns.TightConfigIsUnsafe` | pkg/reboot/calculator.go:98-136 | a concrete admissible configuration of two workers, counted and annotated right, with a run that violates run-once |
| `UnsafeRuns.SparseChecksAreSafe` | pkg/apicheck/check.go:72-185 | with checks 20s apart none can end at the 30s limit, and a cluster without annotated timeout is safe |

## Left out

- Isolation.DetectedInTime: assumes that timers and scheduling add no delay, and that client credentials are cached.
- Control-plane nodes (`pkg/controlplane`, canOtherControlPlanesBeReached): their pings and kubelet calls have no time bound.
- gRPC, TLS and certificates (`pkg/peerhealth`, `pkg/certificates`): the network is an input.
- Stale cache reads, and other steps inside a reconcile: a reconcile is atomic and reads are fresh.
- Events, logging and requeue times: they do not change what is persisted.
- The listing of pods and volume attachments: whether a node is drained is an input.
- The watchdog device and the software reboot command: a device with a deadline, and a count of invocations.
- Peer list refresh, label selectors and Kubernetes version parsing: the list and the strategy are inputs.
- `pkg/apply`, `pkg/render`, templates, the configuration controller and webhooks: map unions, rendering and field checks.
