# The TfRun reconciler

This project models the controller that reconciles `TfRun` objects, and proves what the runs of that controller keep.

A `TfRun` asks for a Terraform or OpenTofu module to be applied. The controller adds a finalizer, creates or imports a
remote workspace, creates one apply Job per change of the spec, per pending change and per due interval, and on deletion
runs a destroy Job before it deletes the workspace and lets the object go. It keeps its whole memory in the object's
status, which it writes with a version check, and every one of its calls may fail, get lost or go unanswered.

## How it is built

- `Machine.dfy` is the protocol as a state machine. A reconcile is split at its API calls; serving a call performs it
  on the cluster and runs the controller's own code up to its next call. Between two calls the environment may edit the
  spec, set the import annotation, request the deletion, let a Job report, finish or expire, let time pass, lose a
  workspace, or crash the controller. A served call may be refused, or be performed with an error as its answer. A
  status or finalizer write lands only on the version that was read.
- `Turns.dfy`, `CopyInvariants.dfy`, `StatusInvariants.dfy`, `JobInvariants.dfy`, `DeletionInvariants.dfy`,
  `WorkspaceInvariants.dfy` and `AllInvariants.dfy` prove the invariants of every step; `Rules.dfy` names the
  assumptions about a run that single results need.
- `Replies.dfy` tells for every call how each answer is treated, in terms of what the caller sees and with every field
  that goes to a write spelled out; `Switches.dfy` does so for the engine and provider names.
- `Theorems.dfy`, `Exclusion.dfy`, `FreshNames.dfy`, `OncePerChange.dfy`, `NoRevertRuns.dfy`, `Convergence.dfy`,
  `FairRuns.dfy`, `FairDeletions.dfy`, `Intervals.dfy`, `FailedDestroy.dfy` and `Outcomes.dfy` hold the results about
  whole runs. `Schedules.dfy` follows an unhindered reconcile call by call; `Scenarios.dfy` makes runs of such steps:
  that the first reconcile gets its work done, and what happens where an assumption is dropped or a hoped-for property
  is false.
- `LiveCluster.dfy` and `Controller.dfy` are the imperative form: a cluster changed in place, and the reconciler's
  handlers, which update their copy of the object field by field. Each call of the cluster requires to be the call the
  machine makes at that point, with the same copy, and anything may happen before it is served. So a handler that skips
  a write, writes another status or takes another branch does not verify, and every history of the cluster is a run of
  the machine, about which the results are proved.
- `Names.dfy` and `ControllerRuns.dfy` treat the names of Jobs as strings, `Bootstrap.dfy` the environment of a Job,
  `Webhook.dfy` the admission of an interval.

Assumptions of the whole model: reads of objects and Jobs are linearizable; one worker at a time reconciles an object,
and only the controller writes its status and its finalizer; a decision reads the clock once; the spec hash is any
function of the module, ref, path, vars, arguments and backend with sixteen hexadecimal digits as its result; a remote
workspace is created under an id never used before, and a look-up returns a non-empty id or fails. Time is counted in
whole seconds, the resolution at which the object stores its times; below it nothing is said, and a run may come a
fraction of a second before the time that was cut.

Where the repository's documents and its code disagree, the code is followed. `IMPLEMENTATION.md` says that a Job is
only skipped after a success, that Jobs do not retry, that Job names carry the type and the whole hash, and that the
finalizer is kept until a successful destroy or removed on failure. In the code a failed run is not repeated for the
same hash, Jobs retry three times, names carry the generation and eight digits, and a failed destroy Job is neither the
end of the object nor a reason to keep it: `FailedDestroy.ObjectGoesWithoutSuccess`.

## Model

| member | source | states |
|---|---|---|
| Exclusion.MutualExclusion | internal/controller/tfrun_controller.go:494-520 | At most one apply Job is unfinished in every reachable state, however status writes and Job creations are lost or go unanswered and wherever the controller crashes, if the recorded Job can be read, an unfinished Job is read with an active pod, and no edit falls between a decision and the record or adoption of its Job |
| Exclusion.StepKeepsExclusive | internal/controller/tfrun_controller.go:116-125 | The reason: an unfinished apply Job is the recorded one or has the very name the next run of the stored object would be given, so the next run adopts it |
| ControllerRuns.ControllerExcludes | internal/controller/tfrun_controller.go:482-491 | Mutual exclusion for the names the controller builds, for every TfRun name, cut or not |
| Scenarios.EditInFlightBreaksExclusion | internal/controller/tfrun_controller.go:549-552 | An edit between a Job's creation and its record does lead to two unfinished apply Jobs |
| Scenarios.UncountedJobBreaksExclusion | internal/controller/common.go:48-51 | So does an edit while the recorded Job has no pod yet |
| Scenarios.UnreadableJobBreaksExclusion | internal/controller/tfrun_controller.go:321-328 | So does an edit when the read of the recorded Job fails, which the code takes for no Job |
| FreshNames.CreationNeverMeetsAJob | internal/controller/tfrun_controller.go:498-514 | With readable Jobs, distinct names and Job creations answered, no creation on the spec-change, pending or interval path meets a Job of its name, and no apply Job is ever adopted, unless the record of a created Job was lost to an object still at the Job's generation; any other write may conflict or be lost, and an edit may beat the record |
| FreshNames.StepKeepsFresh | internal/controller/tfrun_controller.go:522-530 | The reason: a Job at the current generation and hash is the recorded one, with that hash recorded, and while another hash is pending no Job has been made at this generation |
| ControllerRuns.ControllerNeverMeetsItsJob | internal/controller/tfrun_controller.go:461-463 | The same for the names the controller builds, when they are not cut and no two hashes share their first eight digits |
| Scenarios.MissedRecordIsMet | internal/controller/tfrun_controller.go:549-552 | Conversely, from every reachable state a spec-change record that is lost at an unchanged generation lets a continuation meet that Job, if it is still there, its predecessor is gone and the workspace is found |
| ControllerRuns.NamesAreApart | internal/controller/tfrun_controller.go:303-305 | Under that condition no two generations and hashes of a TfRun share a Job name |
| Scenarios.UnreadableJobIsMet | internal/controller/tfrun_controller.go:286-292 | Without readable Jobs a due interval run meets its own Job, though every write is reliable |
| Convergence.CreationLowersRunsLeft | internal/controller/tfrun_controller.go:522-530 | Recording a created Job lowers the number of runs left (one if the spec is not the one last run, two if it is but another hash is pending, else none) by exactly one |
| Convergence.OtherStepsBalance | internal/controller/tfrun_controller.go:227-275 | While hashed fields are not edited no other step changes the number of runs left, but for a lost record, which raises it by one |
| Convergence.JobsAreAccountedFor | internal/controller/tfrun_controller.go:227-263 | From any point of any run on, also in the middle of a reconcile whose copy is not behind in the hashed fields, without edits of these and interval, and whichever writes are lost: Jobs created since and runs left add up to the runs left then, at most two, and the records lost since |
| Convergence.UnhashedEditsCreateNoJob | internal/controller/common.go:20-46 | Once there is nothing to run, edits of the engine, a secret or anything else outside module, ref, path, vars, arguments and backend create no Job, however long the run and whichever calls and writes fail |
| FairRuns.EditRunsExactlyOnce | internal/controller/common.go:20-46 | From rest to rest, whatever happens and fails between: an edit of module, ref, path, variables, arguments or backend gets exactly one Job, any other edit none, and one more comes per record lost; unless the digest of the two specs collides, and without an interval |
| Types.HashedFieldsExactly | internal/controller/common.go:20-36 | Two specs have the same hash input exactly when these six fields are equal one by one |
| FairRuns.SmoothIsNearer | internal/controller/tfrun_controller.go:78-138 | Before rest, every call that is answered and meets no obstacle (recorded Job gone, name free, workspace there, copy current) lowers the distance to rest: what is to be done first, calls to go second |
| FairRuns.EnvironmentIsNoFarther | internal/controller/tfrun_controller.go:78-138 | Time, Job reports, removed Jobs, lost workspaces and unhashed edits do not raise it |
| FairRuns.FairRunsComeToRest | internal/controller/tfrun_controller.go:78-138 | From any point of any run on, while the object is wanted and hashed fields are not edited: however calls, failures, lost and conflicting writes, crashes, Job reports, removals and time are interleaved, the run comes to rest by the time it has had more than seventy-one smooth calls and seventy-one more for each obstacle met; so every fair run does, for a fair run meets finitely many obstacles |
| FairRuns.RestLasts | internal/controller/tfrun_controller.go:254-276 | At rest, with the workspace there and its checks answered, no number of reconciles creates or writes anything, whatever other calls fail and whatever else happens but a hashed edit, a deletion or the loss of a workspace |
| OncePerChange.EveryChangeRunsOnce | internal/controller/tfrun_controller.go:522-530 | When Job creations are answered and no record is lost to an object still at the Job's generation, no two runs that are not interval runs share generation and hash, Jobs that have expired included, whatever other writes are lost |
| Scenarios.LostRecordLeadsToAdoption | internal/controller/tfrun_controller.go:500-514 | When the record of a Job is lost, the next reconcile meets that Job and adopts it: no second Job, and no recorded hash |
| Scenarios.LostRecordRunsChangeTwice | internal/controller/tfrun_controller.go:510-513 | So after a lost record a change is run twice |
| Scenarios.FirstReconcileRuns | internal/controller/tfrun_controller.go:78-138 | The first unhindered reconcile adds the finalizer, creates and records the workspace, and creates and records the Job of the spec |
| NoRevertRuns.WithoutRevertsTheRecordIsTrue | internal/controller/tfrun_controller.go:251-261 | If the spec hash never goes back to an earlier value, no pending run is created, every Job is built from the spec it is labelled with, and the recorded hash is that of the spec the last recorded Job was built from |
| NoRevertRuns.MislabelledExactlyWhenPending | internal/controller/tfrun_controller.go:259-261 | In every run a Job is labelled with another hash than that of the spec it is built from exactly when it is a pending run |
| Scenarios.RevertMislabelsARun | internal/controller/tfrun_controller.go:232-261 | An edit during a Job and its revert do create such a Job |
| Theorems.PendingState | internal/controller/tfrun_controller.go:232-261 | A stored pending hash is a sixteen-digit hash of a spec the object has had, differs from the recorded one, and comes with a reason exactly when it is there; so no run id is ever cut from a hash that is too short |
| Theorems.Provenance | internal/controller/tfrun_controller.go:522-530 | A recorded hash, Job name or destroy Job name belongs to a Job that was created, and recorded hash and run id are those of the last run whose record was stored, at every interleaving of edits, conflicts and crashes |
| Theorems.WorkspaceAndPhase | internal/controller/tfrun_workspace.go:47-94 | A ready workspace has an id, and the stored phase is empty, Pending, Running, Succeeded or Failed, never Destroying |
| Theorems.ObservedGenerationGrows | internal/controller/tfrun_workspace.go:79-91 | The observed generation never exceeds the generation and never falls, on any path and with concurrent edits |
| Outcomes.SucceededIsTrue | internal/controller/tfrun_controller.go:140-158 | In every run the stored phase is Succeeded only if the very Job recorded as active was read, earlier in the run, as finished with a success and without a failed or active pod |
| Replies.CompletionIsStored | internal/controller/tfrun_controller.go:140-177 | A recorded Job without an active pod, its spec unchanged: once the write lands, whatever came between, the phase is Failed if a pod failed, else Succeeded if one succeeded, else as before; the last run time is the clock of the read exactly for a success; nothing else has changed |
| Replies.RunningJobIsAwaited | internal/controller/tfrun_controller.go:116-125 | A running Job is left alone; only a changed spec is noted, in the two pending fields |
| Replies.ChangedSpecIsRun | internal/controller/tfrun_controller.go:245-249 | When the recorded Job is over and the spec has changed, the run of the new hash begins, whatever became of the Job; without a supported engine nothing happens, without a cloud backend the object fails |
| Replies.MissingJobIsIgnored | internal/controller/tfrun_controller.go:321-328 | In every reachable state a recorded Job that is gone or unreadable is taken for none: a changed spec is run, else a pending hash, else a due interval of at least forty-five minutes; a shorter interval fails the object, and a next run time without interval is cleared |
| Replies.CreationIsAnswered | internal/controller/tfrun_controller.go:494-547 | A Job is created unless its name is taken; a created one is recorded field by field (name, run id, hash, phase, generation, nothing pending, the times of this and the next run), one that is met is adopted, and an error fails the object even if the Job was created |
| Replies.AdoptionIsAnswered | internal/controller/tfrun_controller.go:503-513 | A met Job is recorded in the object as it is stored now, and only name, phase and observed generation change |
| Replies.SecretIsRead | internal/bootstrapjob/bootstrap.go:81-85 | Only a secret that can be read leads to the creation of a Job; otherwise the object fails |
| Replies.WriteAnswered | internal/controller/common.go:63-73 | What a reconcile has prepared is stored exactly when, after anything that came between, the object still is the version it read and the call is performed |
| Theorems.FinalizerGoesLast | internal/controller/tfrun_controller.go:591-672 | The finalizer goes only from an object under deletion, when at least one destroy Job was created, every one created has finished, and the workspace the status calls ready is gone |
| Theorems.WorkspaceOutlivesDestroyJob | internal/controller/tfrun_controller.go:628-637 | The remote workspace is deleted only after every destroy Job created, at least one, has finished |
| Theorems.FailedDestroyIsOnlyNoted | internal/controller/tfrun_controller.go:614-620 | A reconcile that finds the destroy Job failed has one call left: whatever happens before it, and whether it lands, is lost or is cut off by a crash, it changes neither workspace nor finalizer and ends the reconcile |
| Outcomes.RunningDestroyJobIsAwaited | internal/controller/tfrun_controller.go:602-605 | While the recorded destroy Job has an active pod or no counts yet, no number of reconciles changes the status or lets the finalizer or the workspaces go, and no Job is created, whatever reads fail and whatever else is done to the object |
| Replies.RunningDestroyJobIsLeftAlone | internal/controller/tfrun_controller.go:591-605 | A destroy Job that has an active pod, has no counts yet or cannot be read leaves everything as it is and ends the reconcile |
| Replies.EndedDestroyJobIsAnswered | internal/controller/tfrun_controller.go:591-625 | A failure is noted exactly for a Job with a failed and no active or succeeded pod, and its name is cleared; the clean-up follows exactly for a Job that is gone or has succeeded without an active pod |
| Replies.DeletionIsBegun | internal/controller/tfrun_controller.go:357-372 | An object under deletion has its recorded destroy Job read, or with a supported engine one looked for |
| Replies.ProbeIsAnswered | internal/controller/tfrun_controller.go:383-411 | Only a destroy Job that is found is adopted; after a failed read, too, one is made, and without a cloud backend the object fails |
| Replies.DestroyCreationIsAnswered | internal/controller/tfrun_controller.go:420-448 | A destroy Job that was created or met is recorded; any other answer writes nothing |
| Replies.DestroyAdoptionIsAnswered | internal/controller/tfrun_controller.go:386-395 | An existing destroy Job is recorded in the object as it is stored now |
| Replies.ClearedNameGoesOn | internal/controller/tfrun_controller.go:606-612 | Whether or not the cleared name was stored, a ready workspace is deleted next, and without one the finalizer follows; a provider that cannot be asked ends the reconcile |
| Replies.WorkspaceDeletionIsAnswered | internal/controller/tfrun_controller.go:628-637 | Only an answered deletion of the workspace leads on to the finalizer |
| FailedDestroy.ObjectGoesAfterSuccess | internal/controller/tfrun_controller.go:591-612 | In every run in which no destroy Job is removed before it has succeeded while its name is recorded or on its way to being recorded, the finalizer goes only after a destroy Job has reported a success |
| FailedDestroy.ObjectGoesWithoutSuccess | internal/controller/tfrun_controller.go:591-597 | Otherwise, from every state between reconciles in which the deletion of an object with a supported spec has not made its destroy Job yet, the object can go away although no Job ever succeeds: the failed Job is adopted again, expires, and is then taken for over |
| FairDeletions.SmoothNearsEnd | internal/controller/tfrun_controller.go:357-449 | Under deletion every call that is answered and meets no obstacle (written version current, recorded destroy Job gone or succeeded) brings the object nearer to its end, also in a reconcile begun before the deletion |
| FairDeletions.FairDeletionsEnd | internal/controller/tfrun_controller.go:581-672 | From any point of any run on at which the object is under deletion with a supported spec, however calls, failures, lost writes, crashes, Job reports and edits are interleaved: the object is gone by the time there were more than twenty smooth calls and twenty more for each obstacle met |
| Theorems.DeletionFreezesApplySide | internal/controller/tfrun_controller.go:97-99 | Once the deletion is stored, recorded hash, pending hash, run id, workspace id and next run time do not change; a reconcile in flight may still create one apply Job, one that reads the object afterwards creates none |
| Theorems.WorkspaceAccounts | internal/controller/tfrun_controller.go:187-215 | Workspaces created are at most one, plus the ids cleared after a failed check, plus the ids lost on the way to the status |
| Theorems.ImportCreatesNone | internal/controller/tfrun_workspace.go:56-59 | A TfRun whose import annotation stays set creates no workspace |
| Theorems.CheckedBeforeRun | internal/controller/tfrun_controller.go:187-211 | A reconcile that began with a workspace id creates an apply Job only after its remote check succeeded |
| Theorems.WorkspaceBeforeRunUnlessUnsettled | internal/controller/tfrun_controller.go:109-117 | In every run an apply Job is created without a recorded workspace id exactly by a reconcile that has gone on from a failed or delayed workspace |
| Theorems.ServedWorkspacesComeFirst | internal/controller/tfrun_workspace.go:61-95 | When workspaces are created and found when asked for, no apply Job of any run is created without a recorded workspace id |
| Replies.WorkspaceIsAskedFor | internal/controller/tfrun_controller.go:179-216 | A recorded workspace is checked, an annotated one imported, and otherwise one is made; an unsupported provider fails the object, and ends the reconcile exactly when a workspace is recorded |
| Replies.CheckIsAnswered | internal/controller/tfrun_controller.go:203-211 | A workspace that is not found or cannot be looked up is forgotten, and the object fails |
| Replies.WorkspaceIsAnswered | internal/controller/tfrun_workspace.go:61-95 | A failed creation fails the object, one still going on leaves it pending without id, and a created workspace is recorded as ready |
| Replies.ImportIsAnswered | internal/controller/tfrun_workspace.go:98-127 | A workspace that is found is recorded as ready and imported, and any other answer fails the object |
| Replies.FoundWorkspaceGoesOn | internal/controller/tfrun_controller.go:213-214 | In every reachable state a found workspace leads to the recorded Job, or to the decision what to run |
| Replies.NotedWorkspaceGoesOn | internal/controller/tfrun_controller.go:109-114 | After a failed, delayed, created or imported workspace the reconcile goes on exactly when its status write is answered |
| Scenarios.JobWithoutWorkspace | internal/controller/tfrun_workspace.go:62-71 | A failed creation of the workspace does lead to such a Job |
| Theorems.NoCloudNoJob | internal/bootstrapjob/bootstrap.go:72-78 | A TfRun without a cloud backend never gets a Job of either kind |
| Intervals.IntervalRunsAreSpaced | internal/controller/tfrun_controller.go:265-292 | From any point of any run on, while an interval stays set, Job creations are answered and records of created Jobs land: an interval run that is not the first run since comes no sooner than the run before it plus the interval then in force, whatever runs, edits, completions and other lost writes come between |
| Intervals.AdmittedRunsAreFarApart | internal/controller/tfrun_controller.go:539-547 | With admitted intervals, that is at least forty-five minutes |
| Scenarios.UnansweredCreationBreaksSpacing | internal/controller/tfrun_controller.go:515-519 | When the answer to the creation of an interval run is lost, a second one follows at once, with every status write reliable |
| Webhook.ValidateCreate | api/v1alpha1/tfrun_webhook.go:53-64 | A TfRun is accepted exactly when it has no interval or one of at least forty-five minutes, which is what the results call admitted; a rejection names the interval |
| Webhook.ValidateUpdate | api/v1alpha1/tfrun_webhook.go:67-78 | The same for an edit, whatever the object was before |
| Webhook.IntervalRunExactly | internal/controller/tfrun_controller.go:278-292 | With nothing else to run, a whole unhindered reconcile creates an interval run exactly when the webhook would accept the interval and the run is due, and the next is then due an interval later; an interval it would not accept fails the object |
| Webhook.EveryIntervalRunIsAdmitted | internal/controller/tfrun_controller.go:278-284 | Whether or not anything passed the webhook, no interval run of any history was made for an interval it would not accept |
| Webhook.NoIntervalIsRejectedLater | internal/controller/tfrun_controller.go:278-284 | When creation and every edit passed the webhook, no reconcile of any run meets an interval it must reject |
| Switches.EngineIsSupported | internal/bootstrapjob/bootstrap.go:345-368 | The engine is supported exactly if it spells opentofu or terraform in any case |
| Switches.ProviderIsSupported | internal/backend/backend.go:28-50 | A provider is supported exactly if none is named, or scalr in any case with white space around it |
| Names.ParseOfPrint | internal/controller/tfrun_controller.go:482-491 | TfRun name, generation and hash digits are recovered from a Job name, even when the TfRun name contains `-gen-` |
| Names.PrintOfParse | internal/controller/tfrun_controller.go:482-491 | What a Job name is read as prints as that name again |
| Names.JobNameIsPrinted | internal/controller/tfrun_controller.go:303-305 | A name that is not cut is the printed one |
| Names.JobNamesAreDistinct | internal/controller/tfrun_controller.go:461-462 | Names that are not cut differ across TfRuns, generations and hash digits |
| Names.JobNamesTellRunsApartExactly | internal/controller/tfrun_controller.go:482-491 | Up to a generation, the Job names of a TfRun tell all generations and hash digits apart exactly when the names of that generation are not cut |
| Names.LongNamesCollide | internal/controller/tfrun_controller.go:484-486 | From 57 characters on, all generations and hashes share one Job name |
| Names.NeverAnyDestroyName | internal/controller/tfrun_controller.go:374 | An apply Job name that is not cut is no destroy Job name of any TfRun |
| Names.NeverItsDestroyName | internal/controller/tfrun_controller.go:374 | Cut or not, it is not the destroy Job name of its own TfRun |
| Names.DestroyNamesAreDistinct | internal/controller/tfrun_controller.go:374 | A destroy Job's name is read back as the TfRun's name before its last eight characters, so it tells TfRuns apart |
| Names.JobNameIsLabel | internal/controller/tfrun_controller.go:482-491 | For every object name, generation and hash the Job name has 5 to 63 characters, begins with a letter and does not end in a hyphen, and it is a label of sections 2.3.1 and 2.3.4 of RFC 1035 exactly when the object name has no dot in its first 57 characters |
| Names.ControllerIsWellNamed | internal/controller/tfrun_controller.go:482-491 | The names the controller builds meet what the results about runs assume of names |
| Bootstrap.BuildEnvVars | internal/bootstrapjob/bootstrap.go:246-258 | For every order of the map: distinct names, and exactly one `TF_VAR_` entry with the raw value for each variable that is not null |
| Bootstrap.CloudBackendEnv | internal/bootstrapjob/bootstrap.go:260-289 | Exactly the backend entries, under distinct names none of which is a variable's, and an error exactly without a cloud backend |
| Bootstrap.BuildEnv | internal/bootstrapjob/bootstrap.go:70-79 | Exactly the entries of the variables and of the backend, without clash |
| Bootstrap.BackendIsSeen | internal/bootstrapjob/bootstrap.go:260-289 | A look-up in that environment gives hostname, organization and workspace, and the token's secret and key exactly when there is a secret |
| Bootstrap.VariablesAreSeen | internal/bootstrapjob/bootstrap.go:246-258 | It gives every variable that is not null with its raw value under its own name, and no other variable |
| Bootstrap.NothingElseIsSeen | internal/bootstrapjob/bootstrap.go:70-79 | And nothing under any other name |
| Bootstrap.TokenNameIsHost | internal/bootstrapjob/bootstrap.go:277 | The token's name is the prefix and the host with every dot replaced and every other character kept |
| Bootstrap.TokenNamesAgreeExactly | internal/bootstrapjob/bootstrap.go:277 | Two hosts share a token's name exactly if they differ in nothing but dots and underscores |
| Bootstrap.TokenIsCutOut | internal/bootstrapjob/bootstrap.go:87-99 | A token changes the clone address exactly for a longer `https://` address, and scheme, token and the rest of the address are read back from it |
| Turns.ServedMoves | internal/controller/tfrun_controller.go:78-138 | Which call may follow which answer, why a run is started, and what each status write changes |
| AllInvariants.CoreHolds | internal/controller/tfrun_controller.go:78-138 | Every reachable state keeps all invariants |
| Controller.NeverPanics | internal/controller/tfrun_controller.go:303-305 | No reachable controller is about to slice a hash that is too short |
| Controller.StoredStatusIsSound | internal/controller/common.go:63-73 | What is stored in the cluster is sound: pending hash and reason, workspace, phase and observed generation |
| Controller.TfRunReconciler.Reconcile | internal/controller/tfrun_controller.go:78-138 | From the read of the object to the end, whatever fails and happens on the way: the history stays a run of the machine, the worker is idle again, at most one apply Job was created and, unless the reconcile fails, is recorded as running with the return due at the next run; the stored status is sound |
| Controller.TfRunReconciler.ReconcileApply | internal/controller/tfrun_controller.go:101-138 | The same for the apply side |
| Controller.TfRunReconciler.EnsureFinalizer | internal/controller/tfrun_controller.go:340-354 | Goes on with a copy that has the finalizer and the stored version, or ends |
| Controller.TfRunReconciler.EnsureWorkspaceIfNeeded | internal/controller/tfrun_controller.go:179-216 | Ends with the error and delay of its branch, or goes on where the machine settles the workspace, with a checked, created, imported or missing one |
| Controller.TfRunReconciler.ReconcileWorkspace | internal/controller/tfrun_workspace.go:40-96 | The same for a workspace that is created; it goes on only with its status stored |
| Controller.TfRunReconciler.ImportScalrWorkspace | internal/controller/tfrun_workspace.go:98-127 | The same for one that is imported |
| Controller.TfRunReconciler.GetActiveJobIfAny | internal/controller/tfrun_controller.go:307-337 | The recorded Job as the machine's decision sees it, and whether it is active |
| Controller.TfRunReconciler.HandleSpecChange | internal/controller/tfrun_controller.go:218-249 | Handles exactly a changed spec: behind a running Job it stores the two pending fields and comes back after a minute, otherwise it runs the spec; an unchanged one leaves everything untouched |
| Controller.TfRunReconciler.UpdateStatusBasedOnCompletedJob | internal/controller/tfrun_controller.go:140-177 | Comes back after five minutes with exactly the phase and last run time stored that the Job's counts call for, failure first; or fails |
| Controller.TfRunReconciler.HandlePendingExecution | internal/controller/tfrun_controller.go:251-263 | Handles exactly a pending hash that differs from the one last run, and records its Job unless it fails; otherwise nothing was touched |
| Controller.TfRunReconciler.HandleIntervalRun | internal/controller/tfrun_controller.go:265-293 | Without interval it clears the next run time, a short interval ends it, before the due time it comes back at that time with nothing touched, and otherwise it runs the spec, at most one Job |
| Controller.TfRunReconciler.BuildJob | internal/bootstrapjob/bootstrap.go:44-115 | A template for this name and ref, with the address of the repository for some token and exactly the variables and backend entries; or the failure that is to be written |
| Controller.TfRunReconciler.CreateNewJob | internal/controller/tfrun_controller.go:452-480 | Makes the machine's calls for a new run of this hash; a Job created without failure is recorded field by field, and an unsupported engine touches nothing |
| Controller.TfRunReconciler.CreateJobAndUpdateStatus | internal/controller/tfrun_controller.go:494-559 | From the creation of the Job on: unless it fails, the stored object names this Job as running, and a created one is recorded field by field with the return due at the next run |
| Controller.TfRunReconciler.RecordRun | internal/controller/tfrun_controller.go:522-547 | Its field updates make the copy's status the machine's record of a created Job, and change nothing else |
| Controller.TfRunReconciler.AdoptJob | internal/controller/tfrun_controller.go:503-513 | Records a Job that was there already in a fresh copy; without failure it is stored as the running one |
| Controller.TfRunReconciler.HandleDeletion | internal/controller/tfrun_controller.go:357-449 | Makes the machine's calls for an object under deletion and creates no apply Job; an end without failure on a first visit has the destroy Job of this very name recorded |
| Controller.TfRunReconciler.AdoptDestroyJob | internal/controller/tfrun_controller.go:383-401 | Records a destroy Job that was there already in a fresh copy and comes back after thirty seconds, or fails |
| Controller.TfRunReconciler.CreateDestroyJob | internal/controller/tfrun_controller.go:403-448 | Builds, creates and records the destroy Job; an end without failure or delay has it recorded |
| Controller.TfRunReconciler.HandleDestroyJob | internal/controller/tfrun_controller.go:581-626 | Reads the recorded destroy Job and does what its state calls for |
| Controller.TfRunReconciler.SettleDestroyJob | internal/controller/tfrun_controller.go:591-625 | An unreadable or running Job, or one without counts, leaves the cluster as it is and comes back with an error, after one or after ten minutes; a Job that is gone or has succeeded ends without delay only when the finalizer or the object is gone; a failed one ends the reconcile |
| Controller.TfRunReconciler.CleanupWorkspaceAndRemoveFinalizer | internal/controller/tfrun_controller.go:628-637 | Deletes a ready workspace before it goes on to the finalizer, and ends well only when the finalizer or the object is gone |
| Controller.TfRunReconciler.RemoveFinalizer | internal/controller/tfrun_controller.go:639-672 | Removes the finalizer of a fresh copy that has it: an end without retry or failure means that the finalizer or the object is gone, and a conflict is retried |
| Controller.TfRunReconciler.UpdateStatus | internal/controller/common.go:63-73 | Ends the reconcile exactly when the write failed, and otherwise leaves the copy at the stored version |
| LiveCluster.Cluster.UpdateStatus | internal/controller/common.go:67-70 | A status is stored only over the version that was read; the copy follows it exactly when the write is answered |
| LiveCluster.Cluster.UpdateFinalizer | internal/controller/tfrun_controller.go:346-348 | The same for the finalizer; an object under deletion goes with its last one, and the answer tells a conflict from an object that is gone |
| LiveCluster.Cluster.CreateJob | internal/controller/tfrun_controller.go:499-520 | Creates the Job unless one of its name is there, and answers created, exists or an error |
| LiveCluster.Cluster.Interfere | internal/controller/tfrun_controller.go:549-552 | Whatever the environment does any number of times keeps the history a run and the worker where it is |

## Left out

- HTTP, JSON and secrets of the Scalr client, `internal/backend` and the reading of git credentials: a call succeeds or fails; a created workspace's id is recorded under the assumptions above, and a delete that succeeds means the workspace is absent.
- SHA-256 and `json.Marshal`: the hash is any function of the hashed fields; an error of the marshaller is not modelled.
- Status message, conditions and log lines; the handlers return the requeue delays, but a requeue is not an event: a reconcile may happen at any time.
- A crash in the middle of a reconcile is an event of the machine, and the results cover it; the imperative `Reconcile` is the case in which the controller survives, with all other events between its calls.
- Two controllers at once, stale caches, other writers of the status, a finalizer stripped by hand, and a TfRun created again under the name of one that is gone.
- A write that changes nothing still gives the object a new version.
- Removal of Jobs by the garbage collector after their TfRun is gone, and a failing `SetControllerReference`.
- Engine commands, images, TTLs, the git clone command, the mutating webhook, wiring and RBAC: settled by reading one branch.
- FairRuns.FairRunsComeToRest: is stated for objects without an interval, because an interval asks for runs without end.
- Intervals.IntervalRunsAreSpaced: assumes that Job creations are answered and their records land, because without it the property is false (`Scenarios.UnansweredCreationBreaksSpacing`).
- OncePerChange.EveryChangeRunsOnce: assumes that no record is lost to an object still at the Job's generation, because without it the property is false (`Scenarios.LostRecordRunsChangeTwice`).
- FreshNames.CreationNeverMeetsAJob: assumes that the recorded Job can be read, because without it the property is false (`Scenarios.UnreadableJobIsMet`).
- Theorems.DeletionFreezesApplySide: allows the one apply Job of a reconcile that decided before the deletion, because the version check stops its record, not its creation.
