# Snapshot manager: a verified model

The snapshot manager is a Kubernetes controller with two workflows. A *revert* replaces the claims of a paused
StatefulSet by claims filled from snapshots, keeps a stack of records of what it replaced, and can undo the last one. A
*validation run* builds a copy of the application from snapshots, runs hook jobs against it in ten stamped stages, and
labels the snapshots it validated. Every step of both may be cut at any API call and is then started over from the
stored object.

The project has three layers.

* **Plans** say what one processing of a stored object does: the exact sequence of API calls as a function of the object
  and of the cluster's answers (`RevertPlan`, `RunPlan`), with the choice of snapshots (`Selection`) and the claims of
  the copy (`Kustomize`).
* **Machines** are all runs: a worker that issues the calls of a plan and may be cut anywhere, interleaved with pods
  coming and going, binding, reclaiming, snapshots, other workers and the user's edits (`RevertMachine`, `RunMachine`,
  `SnapshotArrivals`, `WorkLoop`). Updates are compare-and-swap. The theorems are about every run of these machines.
* **Methods** have the form of the source: objects whose fields are updated, loops over claims, calls that may fail with
  or without effect (`KubeCalls`, `Reverts`, `RunCalls`, `Validator`, `SnapshotWorker`, `WorkQueue`, `Controller`). Each
  is proved to issue a prefix of its plan, and all of it when it succeeds; and it fails only because a call did, which
  is recorded with its reason, or because of one of the source's own error returns. `RevertRefinement`, `RunRefinement`
  and the `Site` object of `SnapshotWorker` turn what the methods do into runs of the machines, so the theorems carry
  over to them; `RevertRefinement.Work` states that outright for the loop over one revert.

Main results for reverts: no original volume is lost (`RevertSafety.NoDataLost`), and from the replacement of a claim
until its revert is undone its volume is spare: kept, tied to no claim and named by none
(`RevertSpare.OldVolumesAreSpare`). Claims change only while the application is down, replica counts are conserved, a
cut stage converges, undo is last in first out, and retention is a faithful truncation of an unbounded history. Any
number of reverts can be undone again, and then every claim has its name, labels and whole spec again
(`RevertUnwind.EverythingCanBeUndone`). A revert that names a strategy pauses only after a finished validation, composed
with the validation machine down to the hook jobs (`RevertGate.ValidatedRevertPausesSafely`). It restores the snapshots
that run has validated, at whatever moment it begins and however many reverts went before
(`RevertTogether.ValidatedSnapshotsAreRestored`; a second revert with a late snapshot is
`TogetherWitness.SecondRevertIsCovered`).

A request takes a fixed number of stored steps, and the exact condition under which the next one can be stored is
`RevertEnds.NextStepIff`. Where it holds from the start a request can be carried out to its end
(`RevertWhole.LatestCanEnd`, `RevertWhole.UndoCanEnd`). Failures do not change that for any step but two
(`RevertEnds.FailuresDoNotBlock`); for the two see below.

For runs: stages form a prefix, the snapshot gate holds across both writers, no stamp precedes its job, every hook's job
is made, labels come after validation, retries duplicate nothing, and there is one run per strategy. For the loop: no
work is lost, and keys are served in the order they come.

## Where the code falls short

These are theorems too, each with the condition under which the code does what one would expect.

* Turning a pending `latest` into `undo` while the record is "paused" can destroy the original data, because the undo
  path deletes claims without setting the reclaim policy. It is safe exactly when the volumes of all bound old claims
  already have policy Retain (`RevertFlaws.UndoOfPausedIsSafeIff`; a concrete loss is
  `RevertFlaws.SwitchingToUndoLosesData`). With edits only while no request is pending nothing is lost.
* Not every request can end, whatever is retried. An `undo` can store "undone" only while every volume its claims name
  is there and tied to no claim; a `latest` needs a snapshot in the window for every claim, and every recorded claim
  must name a volume that is there, so a claim recorded before it was bound blocks it (`RevertEnds.NextStepIff`,
  `RevertReady.NotReadyNeverStores`).
* A revert that names a strategy is paused only if a run of the strategy can finish, or there is none and every old
  claim has a snapshot, so that one can be made: a run with a gap is adopted all the same and waited for in vain. Even
  then failures can block it, because the run an attempt has adopted may be cleaned up before the attempt is repeated.
  It survives all failures exactly when there is a snapshot for every old claim and no run of the strategy has a gap
  (`RevertEnds.PauseSurvivesFailuresIff`).
* Undoing does not make volumes available again, so one lost update at the end of a restoring stage blocks the undo for
  ever, with the application scaled to zero (`RevertEnds.LostUpdateBlocksUndo`; from an ordinary start,
  `RevertWhole.LosingOneCallBlocksUndo`).
* A worker whose cache has not caught up starts a stage over whose result is already stored. However far it is behind,
  claims still change only while the application is down, and scale-ups carry the recorded count
  (`RevertLag.ClaimsStillChangeOnlyWhileDown`, `RevertLag.ScaleUpsStillCarryTheCount`). But a restoring stage that is
  started over and cut deletes a claim of a record stored as undone, and the worker goes on to resume without it
  (`RevertLag.LateRetryLosesClaim`; from the start, `RevertWhole.LaggingCacheLosesClaim`).
* "finished" does not mean that the application is up: the error of the scale-up request is dropped, and the wait uses
  the replica count read before it (`RevertFlaws.FinishesWhileDown`, for reverts and undos). All pods are up when the
  wait is over, in every run, exactly when they were all wanted before the step began
  (`RevertFlaws.ResumeWaitsForAllIff`).
* A request is stuck exactly when the last record is in a state that only the other kind of request continues
  (`RevertFlaws.StuckIff`). One change of mind leads there, and nothing but another edit leads out
  (`RevertFlaws.EditingGetsStuck`, `RevertWhole.ChangingOnesMindGetsStuck`).
* `pvcToPtr` takes the address of the loop variable, so waiting for a run's claims waits for the last one only
  (`RunPlan.PointersWaitForLast`). That is the wait for all of them exactly when all have the last one's key, for claims
  of different names when there is at most one (`RunPlan.PointersWaitForAllIff`); a run that stores InitFinished with a
  claim unbound is `RunWitness.InitFinishesUnbound`. This is Go's loop semantics before version 1.22.
* A cleanup gets its last stamp exactly when the deletion of the run does not take effect and the run is still the
  version that was read (`RunCleanup.CleanupStampIff`); in no interleaving is it stored after the deletion
  (`RunSafety.CleanupStampMeansNotDeleted`).
* A snapshot that arrives after the run was kustomized is labelled as validated although nothing was made from it
  (`RunWitness.LateSnapshotIsLabelled`). The labels are earned exactly when no such snapshot has arrived
  (`RunLabels.LabelsAreEarnedIff`).
* Undoing does not put the annotations of a claim back (`RevertClaims.RestoreConverges`).
* A common annotation can take the place of the snapshot a copy is to be filled from
  (`Kustomize.FilledFromSnapshotIff`), and without a StatefulSet type the copies have no names
  (`Kustomize.CopiesCollideWithoutType`).
* Without a name prefix the copy of a claim has the key of the original, and exactly then
  (`Kustomize.WithoutPrefixCopyIsOriginal`).
* `runValidation` takes no strategy mutex, so it can add a second run for a strategy
  (`SnapshotArrivals.RevertCanAddSecondRun`). Its creation keeps one run per strategy exactly when at that moment there
  is none and no worker is between finding none and creating one (`SnapshotArrivals.UnguardedCreateIsSafeIff`).
* `runValidation` adopts whatever run the strategy has, so only a created run is known to have validated the snapshots
  that are restored (`RevertAgreement.ValidatedIsRestored` asks for a created one).

## Model

| member | source | states |
|---|---|---|
| Selection.IndexNewest | pkg/manager/reverts.go:363-376 | the first loop keeps, for every claim name at once, exactly the newest snapshot in the window |
| Selection.GetSnapshots | pkg/manager/reverts.go:358-385 | both loops and both error returns: it fails iff a listing that reports an error is shorter than the claims or a claim has no snapshot in the window; otherwise each claim gets a newest of its own in the window, whose two ends are included |
| Selection.NewestIsMaximal | pkg/manager/reverts.go:363-376 | the reference choice is an eligible snapshot that none beats, and exists iff there is an eligible one |
| Selection.SelectionExact | pkg/manager/reverts.go:344-385 | the same for the reference selection, with the window written out: succeeds iff every claim has a snapshot in it and a failing listing is long enough; keys are exactly the claim names, values newest |
| Selection.NewestIsFirst | pkg/manager/reverts.go:363-376 | of several newest snapshots of a claim the first in the listing is chosen |
| Selection.TimesIgnoreOrder | pkg/manager/reverts.go:358-385 | the chosen timestamps do not depend on order or repetition in the listing |
| Selection.MoreSnapshotsNeverMoveBack | pkg/manager/reverts.go:358-385 | additional snapshots never move a choice back in time |
| Selection.ValidationAndRevertAgree | pkg/manager/reverts.go:358-385 | two complete listings choose equal timestamps if the second only adds snapshots after ToTime |
| RevertAgreement.ValidatedIsRestored | pkg/manager/reverts.go:245-272 | over runs of the revert controller from any moment at which its worker waits: if from that moment on no snapshot up to ToTime is deleted and new ones are later, the claims that replace the old ones ask for the snapshots of the run created for the revert, or ones of the same claim and time |
| RevertTogether.ValidatedSnapshotsAreRestored | pkg/manager/reverts.go:203-272 | with both controllers interleaved, from any moment of any run at which the revert worker waits: if besides, from the creation of the run to the pause, no arrival rewrites it and no other run of the strategy is stored, the run seen finished at the pause has passed all its hooks with the entries it was created with, and the claims ask for these snapshots |
| TogetherWitness.SecondRevertIsCovered | pkg/manager/reverts.go:203-297 | a run of both controllers from the start in which a second revert with the same strategy meets all of that, after another run of the strategy and with a snapshot taken since the start |
| KubeCalls.KubeCalls.ListPVCs | pkg/manager/controller_kube_calls.go:225-227 | the listing is, in some order, exactly the claims that match the selector |
| KubeCalls.KubeCalls.ListSnapshots | pkg/manager/controller_kube_calls.go:298-318 | a listing that reports no error is complete; one that does holds only snapshots that exist |
| KubeCalls.KubeCalls.SetStsReplica | pkg/manager/controller_kube_calls.go:320-325 | the request is sent; it takes effect or not, and surely if it succeeds |
| KubeCalls.KubeCalls.WaitPodsDeleted | pkg/manager/controller_kube_calls.go:331-345 | success means there was a moment without pods |
| KubeCalls.KubeCalls.WaitPodsReady | pkg/manager/controller_kube_calls.go:347-373 | success means as many pods as the object read earlier wants, all running; no count means one |
| KubeCalls.KubeCalls.DeletePVC | pkg/manager/controller_kube_calls.go:172-180 | success means the claim is gone; a missing claim is no error |
| KubeCalls.KubeCalls.CreatePVC | pkg/manager/controller_kube_calls.go:165-170 | success means the claim was created where there was none |
| KubeCalls.KubeCalls.PvcsBound | pkg/manager/controller_kube_calls.go:375-386 | true iff every claim exists and is bound |
| KubeCalls.KubeCalls.MatchRun | pkg/manager/controller_kube_calls.go:395-410 | a stored run owned by the strategy, or none iff there is none |
| KubeCalls.KubeCalls.UpdateRevert | pkg/manager/controller_kube_calls.go:388-393 | the object is replaced only if it is still the version that was read |
| Reverts.SnapshotRevert.InitDetails | pkg/manager/reverts.go:53-62 | the copy ends with a record to work on: the last one, or a new one if that is finished |
| Reverts.Reverts.Init | pkg/manager/reverts.go:29-51 | fails without a positive replica count, else only because a call failed; otherwise the record holds that count and the listed claims, state "init" |
| Reverts.Reverts.Pause | pkg/manager/reverts.go:64-81 | scales to zero unless nothing is wanted, when it asks for nothing, then waits for no pods, then state "paused"; cut anywhere it did a prefix of that, and it is cut only by a call that failed |
| Reverts.Reverts.RetireClaim | pkg/manager/reverts.go:90-111 | Retain first, then the deletion, then the release of the volume, up to the failing call |
| Reverts.Reverts.RevertSnapshots | pkg/manager/reverts.go:83-126 | retires every old claim, creates a claim per chosen snapshot and waits; nothing is touched unless all snapshots are found; fails only because one is missing or a call failed |
| Reverts.Reverts.UndoRevertSnapshots | pkg/manager/reverts.go:137-159 | deletes all claims of the last record, creates them again as recorded, waits |
| Reverts.Reverts.Unpause | pkg/manager/reverts.go:161-175 | asks for the recorded count, ignores whether that failed, waits by the earlier object, then idle and "finished"; fails only for want of a count, or because the read or the wait failed |
| Reverts.Reverts.MissingValidation | pkg/manager/reverts.go:177-201 | looks only for a strategy and state "init"; no run or an unfinished run counts as missing, and so does a lookup, but only one that failed |
| Reverts.Reverts.InitRun | pkg/manager/reverts.go:245-272 | a run in the namespace of the revert that maps every old claim to its chosen snapshot, or none if one is missing |
| Reverts.Reverts.RunValidation | pkg/manager/reverts.go:203-243 | adopts or creates the run, waits for its validation, then requests its cleanup, up to the failing call; fails only because a call failed or a snapshot is missing |
| Reverts.Reverts.ProcessLatest | pkg/manager/reverts.go:274-297 | validation first, then exactly the stage of the last record; an error has a reason, as below |
| Reverts.Reverts.ProcessUndo | pkg/manager/reverts.go:299-321 | pause, restore or resume by the state of the last record; the record is popped only after resuming; an error has a reason, as below |
| Reverts.Reverts.ProcessSnapshotRevert | pkg/manager/reverts.go:323-342 | the calls are a prefix of the plan, all of it on success, and the object is written by the last call only; an error means that a call failed (and not the scale-up whose failure is ignored), or the last record is in a state the request does not continue, or the last answer was no positive count for a new record, a missing snapshot, or came with a record that has no count |
| RevertRefinement.ProcessingIsARun | pkg/manager/reverts.go:323-342 | any history of one processing is a run of the machine that ends in the same cluster |
| RevertRefinement.Work | pkg/manager/controller.go:234-273 | reading and processing the object any number of times is a machine run; counts are conserved and no volume is lost |
| RevertDowntime.ClaimsChangeOnlyWhileDown | pkg/manager/reverts.go:64-159 | in every run, with the action edited at any time, claims change only in "paused", with no replica wanted and no pod |
| RevertDowntime.ReplicasConserved | pkg/manager/reverts.go:35-49 | in every run the wanted count is zero or the original, every record holds it, and scale-ups send the recorded count |
| RevertSafety.NoDataLost | pkg/manager/reverts.go:83-159 | volumes named by old claims of kept records exist in every run edited only while idle, and are Retain once replaced |
| RevertOwnership.VolumesStayTheirs | pkg/manager/reverts.go:83-159 | in every run, edited at any time, where claims that name no volume get volumes of their own, no claim of another name ever names or holds the volume of a recorded claim |
| RevertSpare.OldVolumesAreSpare | pkg/manager/reverts.go:83-126 | in these runs, from the replacement of a claim until its revert is undone, its volume exists, has policy Retain, is tied to no claim and named by none, the replacement included |
| RevertSpare.UndoFindsVolumes | pkg/manager/reverts.go:137-159 | so whenever a revert stands, the volumes its undo needs are there, free and different |
| RevertUnwind.EverythingCanBeUndone | pkg/manager/reverts.go:299-321 | after any run in which all records are kept, with any failures and edits, from rest all reverts can be undone one after the other, and then every claim has the name, labels and whole spec it had at the start |
| RevertClaims.ReplaceConverges | pkg/manager/reverts.go:83-126 | however often cut, a completed stage leaves each claim with the snapshot the completing call chose |
| RevertClaims.CutsDoNotMatter | pkg/manager/reverts.go:83-126 | a run cut at will and one never cut leave the same assignment |
| RevertClaims.RestoreConverges | pkg/manager/reverts.go:137-159 | however often cut before, a restoring that completes leaves every old claim back, without its annotations; when it can complete is RevertEnds.NextStepIff |
| RevertVolumes.ClaimsBoundOnCompletion | pkg/manager/reverts.go:119-123 | when a stage that changes claims completes, all claims of the record exist and are bound |
| RevertVolumes.OldVolumesReleased | pkg/manager/reverts.go:103-110 | when replacing completes, no old volume is tied to the claim that was deleted |
| RevertUndo.UndoIsLastInFirstOut | pkg/manager/reverts.go:128-159 | whenever the stack is back where it was, every claim has its name, namespace, labels and whole spec again |
| RevertWhole.WholeRunKeepsClaim | pkg/manager/reverts.go:274-342 | a whole revert and undo of one claim, replaced on a volume of its own, from a start that meets every assumption of the theorems; the claim is in the end what it was |
| RevertProgress.StoredStepLowersRank | pkg/manager/reverts.go:274-342 | a stored step brings the request exactly one step closer to its end, and turns it idle at the end and not before |
| RevertProgress.LatestAddsOneRecord | pkg/manager/reverts.go:274-297 | `latest` takes four stored steps and adds one record with what the first of them found |
| RevertProgress.UndoDropsOneRecord | pkg/manager/reverts.go:299-321 | `undo` takes three stored steps and drops exactly the last record |
| RevertProgress.StepsSpendRank | pkg/manager/reverts.go:274-342 | over whole runs stored steps and remaining rank add up, with any failures; whether steps are stored is RevertEnds.NextStepIff |
| RevertEnds.NextStepIff | pkg/manager/reverts.go:29-272 | from any waiting state some calm run (no edits, the snapshots as they are, volumes made for claims that name none, runs only taken on by the validation controller) stores the next step iff it is ready: a replica count to record; for a pause with a strategy, a run of it that can finish, or none and a snapshot for every claim; a snapshot and a volume for every claim to replace; every volume to restore free |
| RevertReady.NotReadyNeverStores | pkg/manager/reverts.go:29-272 | a step that is not ready is stored in no calm run, whatever fails and is retried |
| RevertEnds.FailuresDoNotBlock | pkg/manager/reverts.go:274-342 | a ready step of any stage but restoring stays possible however often it was cut, if the claims to replace were recorded bound and the validation lasts |
| RevertEnds.PauseSurvivesFailuresIff | pkg/manager/reverts.go:203-243 | the pause of a revert with a strategy can still be stored after any failed attempts iff every old claim has a snapshot and no run of the strategy has a gap |
| RevertEnds.LostUpdateBlocksUndo | pkg/manager/reverts.go:137-159 | if the update that ends a restoring stage is lost, no run without edits ever changes the object again, and the application stays down |
| RevertWhole.LatestCanEnd | pkg/manager/reverts.go:274-297 | if the claims have volumes and snapshots, and the strategy, if one is named, has a run that can finish or none, a whole `latest` can be carried out, ends idle with one more record, and leaves the volumes free that an undo needs |
| RevertWhole.UndoCanEnd | pkg/manager/reverts.go:299-321 | if the volumes of the last record are free and different, a whole `undo` can be carried out and drops that record |
| RevertWhole.LosingOneCallBlocksUndo | pkg/manager/reverts.go:137-159 | a run from an ordinary start after which a pending undo is never stored |
| RevertRetention.RetentionRefines | pkg/manager/reverts.go:331-334 | kept records are the newest of an unbounded history, include the one in progress, and lead to the same calls |
| RevertRetention.RetentionExact | pkg/manager/reverts.go:331-334 | exactly the newest KeepStatus records are kept, or all for zero |
| RevertGate.PauseIsValidated | pkg/manager/reverts.go:177-243 | with a strategy set, a record is paused only by a processing whose own calls have seen a finished run of that strategy |
| RevertGate.StaysUpUntilValidated | pkg/manager/reverts.go:274-289 | in every run such a record is scaled down only by a processing that has seen a finished run of the strategy before |
| RevertGate.ValidatesOnlyWhenAsked | pkg/manager/reverts.go:177-184 | runs are looked up, created, awaited or cleaned up only for a `latest` that names a strategy and a record in state "init" |
| RevertGate.FinishedRunIsEnough | pkg/manager/reverts.go:186-201 | a processing that finds a finished run of the strategy makes none and asks for no cleanup |
| RevertGate.ValidationEndsWithCleanup | pkg/manager/reverts.go:222-242 | the run waited for is the run whose cleanup is requested, right after the wait |
| RevertGate.CreatedRunPassesGate | pkg/manager/reverts.go:245-272 | a run created for a revert maps exactly the old claims and passes the snapshot gate at once; it is named after the strategy, in the namespace of the revert, with nothing done yet |
| RevertTogether.CreatesOnlyWithoutRun | pkg/manager/reverts.go:208-221 | in every run a validation run is created only right after the strategy was seen to have none and the snapshots were listed |
| RevertGate.ValidatedRevertPausesSafely | pkg/manager/validator.go:66-147 | with both controllers interleaved, a run the pausing processing has looked at is finished and had the job of each hook succeed |
| RevertFlaws.UndoOfPausedIsSafeIff | pkg/manager/reverts.go:140-145 | undo of a paused record keeps the volumes in every continuation iff all of them have policy Retain |
| RevertFlaws.SwitchingToUndoLosesData | pkg/manager/reverts.go:137-159 | a concrete state that meets every invariant, and a run from it that loses a volume |
| RevertFlaws.RetainedForever | pkg/manager/reverts.go:401-409 | a volume with policy Retain keeps it and exists in every run |
| RevertFlaws.ResumeWaitsForAllIff | pkg/manager/reverts.go:161-175 | in every run without edits all pods are running when the wait of a resuming step is over, iff all were wanted before the step began |
| RevertFlaws.FinishesWhileDown | pkg/manager/reverts.go:168-173 | from any resuming state of a revert or an undo with the application down there is a run that ends the request with it down |
| RevertFlaws.StuckIff | pkg/manager/reverts.go:292-317 | the unknown-state errors occur exactly for records of the other kind of request |
| RevertFlaws.EditingGetsStuck | pkg/manager/reverts.go:299-317 | wherever a `latest` can be recorded, turning it into an `undo` right after that gets it stuck until it is edited again |
| RevertWhole.ChangingOnesMindGetsStuck | pkg/manager/reverts.go:299-317 | a run from the start that gets stuck |
| RevertFlaws.PoliteNeverStuck | pkg/manager/reverts.go:274-321 | editing only while idle never gets stuck |
| RevertLag.ClaimsStillChangeOnlyWhileDown | pkg/manager/controller.go:245-273 | in every run in which a worker may be given any version of the object not older than the last one it was given, claims change only with no replica wanted and no pod, the stored record being paused, reverted or undone |
| RevertLag.ScaleUpsStillCarryTheCount | pkg/manager/controller.go:245-273 | in these runs the wanted count is zero or the original, and scale-ups send the original |
| RevertLag.LateRetryLosesClaim | pkg/manager/reverts.go:137-159 | whenever a restoring stage is about to be stored, a run in which the cache lags once leads to an undone record that is given to the worker with its first claim gone |
| RevertWhole.LaggingCacheLosesClaim | pkg/manager/reverts.go:137-159 | such a run from the start, which loses the claim of the application |
| Kustomize.KustomizeClaims | pkg/apis/snapshotmanager/v1alpha1/types.go:104-128 | one output per entry of the map, in the order visited |
| Kustomize.KustomizedOneToOne | pkg/apis/snapshotmanager/v1alpha1/types.go:104-128 | exactly one copy per claim with its snapshot, ordinal, size and common labels; names pairwise distinct |
| Kustomize.KustNameOf | pkg/apis/snapshotmanager/v1alpha1/types.go:109-111 | the copy keeps the ordinal, and the whole name without a prefix |
| Kustomize.WithoutPrefixCopyIsOriginal | pkg/apis/snapshotmanager/v1alpha1/types.go:109-122 | the copy collides with the original iff the prefix is empty |
| Kustomize.FilledFromSnapshotIff | pkg/apis/snapshotmanager/v1alpha1/types.go:119-122 | the copy asks for its snapshot iff no common annotation puts something else in that place |
| Kustomize.CopiesCollideWithoutType | pkg/apis/snapshotmanager/v1alpha1/types.go:108-113 | without a StatefulSet type copies are nameless, and two of one namespace have the same key |
| Validator.CollectPointers | pkg/manager/validator_helper.go:224-230 | all pointers collected see the last claim |
| RunPlan.PointersWaitForLast | pkg/manager/validator_helper.go:212-230 | the wait for the pointers passes iff the last claim is bound |
| RunPlan.PointersWaitForAllIff | pkg/manager/validator_helper.go:212-230 | it passes only with all claims bound, whatever the cluster holds, iff all claims have the key of the last one; for different names, iff there is at most one |
| RunWitness.InitFinishesUnbound | pkg/manager/validator.go:66-86 | a run of the machine that stores InitFinished with a claim of the run unbound |
| Validator.Validator.BeforeKust | pkg/manager/validator.go:36-45 | succeeds only if no claim is without a snapshot |
| Validator.Validator.GetClaims | pkg/manager/kustomization.go:88-98 | reads every claim of the run once and keys it by its snapshot; a missing claim is an error |
| Validator.Validator.Kustomize | pkg/manager/kustomization.go:100-123 | appends one build output and replaces the claims by their copies |
| Validator.Validator.Kust | pkg/manager/validator.go:47-58 | looks the strategy up, kustomizes and stores, up to the failing call |
| Validator.Validator.CreateSnapshotPVCs | pkg/manager/validator_helper.go:198-222 | creates every claim, existing ones being fine, then waits for what the pointers show |
| Validator.Validator.CreateObjects | pkg/manager/validator_helper.go:311-334 | every object is tried, or found unreadable, whatever failed before; succeeds iff all were created |
| Validator.Validator.CreateJob | pkg/manager/validator_helper.go:232-261 | without a spec nothing; else the creation of the job named after hook and run is asked for, and success means it was created or there, and then seen to succeed |
| Validator.Validator.Init | pkg/manager/validator.go:66-86 | claims, then objects, then the init job, then the stamp, up to the failing call |
| Validator.Validator.PreValidation | pkg/manager/validator.go:94-106 | the stamp is stored only after the hook's job succeeded |
| Validator.Validator.LabelSnapshots | pkg/manager/validator.go:124-144 | labels the snapshot of every claim of the run, each once, up to the failing call |
| Validator.Validator.Validation | pkg/manager/validator.go:114-147 | the job, then the labels, then the stamp, up to the failing call |
| Validator.Validator.Cleanup | pkg/manager/validator.go:155-167 | does nothing unless asked; then requests the deletion of the run and then of each claim in order, ignoring errors, and stores the stamp |
| Validator.Validator.ProcessValidationRun | pkg/manager/validator.go:169-206 | the calls are a prefix of the plan of the first stage without a stamp, all of it on success; an error means that a call failed (and not a deletion of the cleanup), a claim has no snapshot before kustomizing, or the strategy was not found |
| RunPlan.SilentIff | pkg/manager/validator.go:155-206 | succeeding without storing means finished, or waiting for the request to clean up; nothing is called then |
| RunRefinement.ProcessingIsARun | pkg/manager/validator.go:169-206 | a processing with others acting between its calls is a run of the machine |
| RunSafety.StagesFormPrefix | pkg/manager/validator.go:178-198 | every version ever stored has the first so many stamps of the ten |
| RunSafety.StoredStepAddsOne | pkg/manager/validator.go:178-198 | each stored step adds exactly one stamp, to the current version |
| RunSafety.SnapshotGate | pkg/manager/validator.go:36-45 | KustStarted implies no claim is without a snapshot, and the claims of a run never change, in every interleaving |
| RunSafety.FinishedMeansSucceeded | pkg/manager/validator.go:66-147 | no Finished stamp of a hook before its job was seen to succeed |
| RunSafety.OneBuildPerRun | pkg/manager/kustomization.go:114-121 | a run's objects are the output of one build, the same in all versions, and so are its claims |
| RunSafety.JobsPerHook | pkg/manager/validator_helper.go:232-248 | every job belongs to one hook of one run, and their names never collide |
| RunJobs.CreatedOncePerRemoval | pkg/manager/validator_helper.go:232-248 | in every interleaving a job is created once, and once more for each time it was removed |
| RunSafety.ClaimsComeFromOneList | pkg/manager/validator_helper.go:198-211 | whatever claim is created, at whatever retry, is one of the run's claims |
| RunSafety.CleanupStampMeansNotDeleted | pkg/manager/validator.go:155-167 | in no interleaving is the last stamp stored by a processing whose deletion of the run took effect |
| RunCleanup.CleanupStampIff | pkg/manager/validator.go:155-167 | a cleanup left alone stores its stamp iff the deletion does not take effect and the run is still the version read |
| RunLabels.LabelsAreEarnedIff | pkg/manager/validator.go:124-147 | in every run of the machine all snapshots a validation labels are ones its claims were made from, iff the snapshots of its copy are among those of the version that was kustomized |
| RunLabels.MadeFromItsSnapshots | pkg/manager/kustomization.go:88-123 | the claims of a copy are made from exactly the snapshots of the version they were made for |
| RunWitness.LateSnapshotIsLabelled | pkg/manager/validator.go:124-144 | a run from the start that labels a snapshot no claim was made from |
| RunCompleteness.ValidatedSnapshotsAreLabelled | pkg/manager/validator.go:124-146 | the validation stamp is stored only after labelling every snapshot of the copy |
| RunCompleteness.InitMakesEverything | pkg/manager/validator.go:66-86 | the init stamp is stored only after making sure of every claim and object |
| RunCompleteness.InitInOrder | pkg/manager/validator.go:66-86 | it is stored only after the claims, then the wait, before whose end at least the last of them was bound, then the objects, then the job |
| RunCompleteness.HookJobsAreCreated | pkg/manager/validator_helper.go:232-261 | the stamp of a hook's stage is stored only by a processing that has created the job named after hook and run and then seen it succeed, if the strategy has the hook, and has created no job otherwise |
| RunCompleteness.LabelledOnlyAfterValidation | pkg/manager/validator.go:114-144 | in every interleaving a snapshot is labelled only by a processing that has seen the job of the validation hook succeed |
| RunCompleteness.EveryClaimIsRead | pkg/manager/kustomization.go:88-98 | kustomizing and validating are stored only after every claim of the copy was read, in the namespace of the run and as it was in an earlier state |
| RunCompleteness.EveryCallWasTaken | pkg/manager/validator.go:169-206 | in every interleaving each call a worker has issued was one the server took in an earlier state |
| RunCompleteness.SeenMeansSucceeded | pkg/manager/validator_helper.go:249-258 | a job counts as seen to succeed only if it had succeeded in an earlier state |
| SnapshotWorker.GetPVCsMap | pkg/manager/validator_helper.go:103-117 | exactly the listed claim names, each without a snapshot |
| SnapshotWorker.Site.GetRunForStrategy | pkg/manager/validator_helper.go:120-181 | the stored run owned by the strategy's UID, or a new one in its namespace, named after it, with exactly the listed claims and no snapshots; fails only because a call failed or the claims cannot be listed |
| SnapshotWorker.Site.UpdateRun | pkg/manager/validator_helper.go:27-38 | one write, in which only the entry of the snapshot's claim changes; fails only because a call failed or the run has no such claim |
| SnapshotWorker.Site.ProcessSnapshot | pkg/manager/validator.go:217-247 | a run of the machine that gives the mutex back; on success it has written once if the strategy triggers and nothing otherwise; a run it creates has exactly the listed claims, all without a snapshot but the one that arrived; an error has a reason |
| SnapshotArrivals.OneRunPerStrategy | pkg/manager/validator.go:223-241 | at most one run per strategy for any number of workers, each entry being what was last written for it |
| SnapshotArrivals.MutexesDiffer | pkg/manager/validator.go:223 | two strategies share a mutex iff they agree in namespace and name |
| SnapshotArrivals.MutexIsGivenBack | pkg/manager/validator.go:223-227 | in every run a mutex is taken only while the worker that took it is at work on a strategy of this mutex |
| SnapshotArrivals.RevertCanAddSecondRun | pkg/manager/reverts.go:212-221 | a run in which runValidation makes a second run |
| SnapshotArrivals.UnguardedCreateIsSafeIff | pkg/manager/reverts.go:212-221 | after any run of arrivals, a creation without the mutex keeps one run per strategy in every continuation iff the strategy has no run and no worker is about to create one |
| WorkQueue.RateLimitingQueue.Add | vendor/k8s.io/client-go/util/workqueue/queue.go:108-127 | the key is to be processed, and waits unless it is being processed |
| WorkQueue.RateLimitingQueue.Get | vendor/k8s.io/client-go/util/workqueue/queue.go:141-160 | the oldest key moves from waiting to processing |
| WorkQueue.RateLimitingQueue.Done | vendor/k8s.io/client-go/util/workqueue/queue.go:165-176 | a key added meanwhile waits again |
| WorkQueue.DoneKeeps | vendor/k8s.io/client-go/util/workqueue/queue.go:162-176 | giving a key back loses it exactly if it is neither added again nor delayed |
| WorkQueue.FirstComeFirstServed | vendor/k8s.io/client-go/util/workqueue/queue.go:108-176 | whatever is done with the queue, keys are handed out in the order in which they began to wait |
| Controller.Controller.EnqueueSnapshotRevert | pkg/manager/controller.go:136-150 | the key of a stored revert enters the queue |
| Controller.Controller.EnqueueValidatorRun | pkg/manager/controller.go:152-166 | the key of a stored run enters the queue |
| Controller.Controller.ProcessNextRevert | pkg/manager/controller.go:245-273 | the key is given back, delayed for a retry exactly if the processing failed, which has a reason, no other key is lost, and the processing follows its plan |
| Controller.Controller.ProcessNextValidation | pkg/manager/controller.go:275-303 | the same for validation runs |
| WorkLoop.NoLostWork | pkg/manager/controller.go:245-303 | for any diligent processing an object with work left is queued, processed, delayed or has an undelivered change |
| NoLostWork.UnchangedIffNothingToDo | pkg/manager/reverts.go:323-342 | a revert is stored as it was iff there is nothing to do for it |
| NoLostWork.NoRevertLost | pkg/manager/controller.go:245-273 | no revert request is ever lost |
| NoLostWork.RunJobDiligent | pkg/manager/validator.go:149-206 | a processing that stores a run changes it, and a silent one had nothing to do |
| NoLostWork.NoRunLost | pkg/manager/controller.go:275-303 | no validation run is ever lost; one that waits for Cleanup has nothing to do |

## Left out

Assumptions of the model:

- Reads of the revert controller return what the server holds at that moment. `RevertLag` drops this for the object it
  processes: downtime and the replica count hold all the same, the other results about reverts are for current reads.
  Informer lag is modelled for the work loop, and the validation machine lets a worker process any version of a run that
  was ever stored.
- `GetPV` returns a value. The source shares the lister's pointer and writes through it, so after a failed `UpdatePV`
  the cache may claim a policy the server does not have; this aliasing is not part of the model.
- Optimistic locking compares whole objects instead of resource versions, which accepts more updates than the server.
- Deleting a claim removes it at once: finalizers and terminating states are not modelled. Binding may choose any
  available volume or make a new one for a claim that names none.
- One StatefulSet and one SnapshotRevert object per revert machine. Nobody else scales the StatefulSet or creates or
  deletes claims of it, and the server has given it a replica count.
- `KeepStatus` is not negative (the source would slice out of range), `Hooks` is set, and the strategy
  a revert names exists. Strategies do not change.
- A record without a replica count makes `unpause` fail; the source dereferences a nil pointer. No run reaches this.
- Whether a request can end is stated for runs in which the user does not edit the request, the snapshots stay as they
  are, a claim that names no volume gets one made for it, and the runs of a strategy change only as the validation
  controller changes them: a run without gaps gets further stamps, and one whose cleanup was asked for may go. Nobody
  else makes a run; the queue of arriving snapshots, the only other writer, is disabled in the source. Fairness of the
  cluster is not modelled: the theorems say that the step can be stored, not that the validation controller, the
  provisioner or the StatefulSet controller acts.

Not modelled:

- Wall-clock polling: a wait ends when its condition is seen, or with an error. Stage timestamps are set or not set.
- `getYamlObjectMap`, `initFakeFs`, `runKustomizeBuild`, YAML and unstructured objects: a build output is an opaque list
  of texts. Owner references are not part of created objects.
- `getId`, `sanitizeLabel`, `GetSnapshot` and the volume lookups of the validation stage: they succeed or fail, and a
  label is known by its snapshot only.
- `findPod` and `getStrategyForSnapshot`: the strategy of an arriving snapshot is a parameter, and so is the claim
  listing. The snapshot queue's wiring is disabled in the source.
- Panics, and the delayed removal of mutexes.
- Namespaces in the choice of snapshots, as in the source, which compares claim names only; `Id` of a resource name.
- Shutting the queues down, logging, the error formatter, REST mapping, generated clients, the command-line tool.
- SnapshotWorker.Site.ProcessSnapshot: a worker that never gets the mutex gives up instead of blocking, because a method
  has to terminate.
- Reverts.Reverts.InitRun: the owner is the strategy's name where the source sets its UID: the revert controller looks a
  strategy up by name, and none is deleted and made again under its name. `SnapshotWorker` matches by UID.
- Validator.Validator.ProcessValidationRun: the mutex per run is not taken. The theorems about runs hold for any number
  of workers on one run, so they do not rely on it.
- RunSafety.CleanupStampMeansNotDeleted: one direction, in every interleaving; both directions, for a worker left alone,
  are `RunCleanup.CleanupStampIff`.
- Selection.ValidationAndRevertAgree: about two listings only; the property of whole runs is
  `RevertTogether.ValidatedSnapshotsAreRestored`.
- RevertAgreement.ValidatedIsRestored: about the revert controller alone; what the created run has validated is in
  `RevertTogether.ValidatedSnapshotsAreRestored`.
- RevertOwnership.VolumesStayTheirs: about claims of other names; the claim that replaced the recorded one is covered by
  `RevertSpare.OldVolumesAreSpare`.
- RevertProgress.StepsSpendRank: says nothing about whether a step is stored at all; `RevertEnds.NextStepIff` does.
- RunSafety.JobsPerHook: about the names of jobs only; how often one is created is `RunJobs.CreatedOncePerRemoval`.
- RevertLag.ClaimsStillChangeOnlyWhileDown: the cache lags for the object that is processed, and never goes back;
  listings and reads of other objects are current.
- RevertClaims.RestoreConverges: says nothing about a restoring that cannot complete; `RevertEnds` does.
- Controller.Controller.ProcessNextRevert: the store is fixed during one round and the queue changes only after the
  processing; the full interleaving of informer, queue and workers is in `WorkLoop`.
- Controller.Controller.ProcessNextValidation: the same.
- RunRefinement.ProcessingIsARun: what others do between two calls is given as steps of the machine, since the methods
  themselves let the cluster change in any way at all.
