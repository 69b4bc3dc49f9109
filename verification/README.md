# AgentTask operator: a verified model

The AgentTask operator runs short code snippets on Kubernetes. A user creates an
`AgentTask`; the controller prepares a code config map, a deny-all network
policy and a pod (or a Sandbox object), follows the pod, records its outcome in
the task's status, and cleans up on cancellation, timeout, deletion and
expiration. An admission webhook limits specs, makes two fields immutable and
caps the active tasks of a namespace.

This project models the reconciler, the webhook and the sandbox manager, and
proves what every run of them keeps. Check it with `dafny verify dfyconfig.toml`
(Dafny 4.11) in this directory.

## How the model is built

* `Names`, `Objects`: object keys with the string facts that keep them apart,
  and the API objects. `Scan`: reading an outcome off container statuses.
* `Webhook`: the validator; `ValidateCreate` keeps its counting loop.
* `Protocol`: one reconcile as an automaton. Its program counter is the API
  request that comes next; all code between two requests is one `Advance`.
* `ApiServer`: the store, how each request is answered (version conflicts,
  finalizers, no-op updates that leave the version alone), and what users and
  the cluster do to it.
* `Cluster`: store, work queue, delayed requeues, in-flight reconciles and
  clock as a state machine. A run is any sequence of actions: user edits and
  deletions, admissions that are checked and committed in separate steps, pod
  reports, vanishing pods, clock ticks, worker steps, crashes. A request may be
  served, refused, or take effect while its reply is lost. A read may be
  current or answered by an out-of-date cache: an earlier value of the task,
  and any answer at all for other objects.
* `Client`, `Reconciler`, `SandboxManager`: the code itself, method by method,
  on a task object that is changed in place. Each method is proved to make the
  automaton's requests in the automaton's order, so that `RunReconcile` ends in
  exactly the world that `Drive` computes, under every schedule of
  interference, faults and crashes; `DriveIsRun` makes that a run.
* `Lifecycle`, `Safety`, `Transitions`, `StatusHistory`, `Outcomes`,
  `Beginnings`, `Deadlines`, `Admission`, `UserEdits`: what holds in all runs,
  out-of-date reads included.
* `Ownership`, `Cleanup`, `Isolation`, `CodeMaps`, `Guarantees`, `Wakeup`,
  `Expiry`: ownership in all runs; clean-up, isolation, code maps, wakeups and
  timers in runs whose reads are current.
* `Undisturbed`, `Dispatch`, `Attempts`, `Creations`: dispatch idempotence and
  what a dispatch makes. `Progress`, `Endings`, `Convergence`: what reconciles
  without faults achieve while everybody else goes on. `Misreading`, `CutOff`,
  `Leftovers`: where a promise fails, with `SampleRun` leading from a fresh
  cluster to the failures.

Modelling decisions:

* One API request is one atomic step, and the clock stands still from one
  request to the next: `metav1.Now()` and `time.Now()` read the same instant
  within one segment of code. The clock counts nanoseconds; stored timestamps
  are whole seconds, which is how `metav1.Time` is serialised.
* Several workers run at once, on different keys; a key is reconciled by one
  worker at a time. After a crash every task and every pod owner is queued.
* Deleting a pod removes it at once. When a removed task's other dependents are
  collected is up to the environment (`Sweep`), and a name is used again only
  once nothing derived from it is left (`Free`).
* Only the controller creates pods, policies, sandboxes and objects named
  `...-code`, and only it writes statuses and finalizers. Users write any other
  config map. Pods may vanish and may report anything.
* The webhook can be switched off (`cmd/main.go:190`); `guarded` says whether
  it is on. Status updates do not pass through it, as it is registered for
  `agenttasks` and not for `agenttasks/status`.
* The status's reason is a tagged value: the text of a terminated container
  (`Reported`) is kept apart from the controller's own reasons, even when the
  texts are equal.

## What the proofs found

* A finished task is rewritten to Timeout when it is reconciled past its
  deadline, and Timeout can become Canceled. `FinishedStaysFinished` and
  `LegalClimbs` state what is true instead. If a cancellation is taken back, a
  canceled task can still become Timeout; that is the only way down.
* A task with timeout T and time to live at least T+2 seconds is never deleted
  for its time to live. The example in the repository's `README.md:121-122`
  (300 and 600) is such a task. `ExpirationWindow` gives the exact condition.
  Until it expires, such a deletion is always awaited by a timer, a queued key
  or a reconcile in flight (`Expiry`). But a reconcile that reads the clock at
  the very instant of the expiration asks for a delay of zero, which is no
  requeue, and past its deadline a finished task gets no timer at all.
* The cap of five active tasks is exceeded when creates overlap between check
  and commit, and when the webhook counts over an out-of-date list: k
  overlapping creates and lists that are j creates old reach 4+k+j, and never
  more.
* The repository's `README.md:18` promises that pods and sandboxes are cleaned
  up before a task is removed. This fails exactly for a pod whose reference was
  not recorded yet and for every sandbox (`RemovalLeavesExactly`).
  `RemovalCanLeavePod` gives a run from a fresh cluster in which no request
  fails.
* A failed look for the Sandbox CRD counts as "not installed", a failed read of
  the profile map as "no overrides". `Misled` is the exact condition under
  which such a failure changes what a dispatch leaves. Cut off at the wrong
  moment, the first leaves a pod beside the sandbox, the second keeps the
  default image for good; runs from a fresh cluster do both (`CutOff`).
* The timeout path treats a pod that vanishes between its look and its deletion
  as an error and tries again later; the cancellation path goes on. A failed
  look, in turn, is ignored: Timeout is committed and the pod stays
  (`TimeoutIgnoresFailedLook`).

## Model

| member | source | states |
|---|---|---|
| Names.DerivedNamesInjective | internal/controller/agenttask_controller.go:383 | Two tasks that share a pod, sandbox, code map or policy name are the same task |
| Names.SandboxIsNoPod | internal/platform/sandbox/manager.go:29 | No sandbox name is a pod name, whatever the two tasks are called |
| Objects.NewPolicySelectsNewPod | internal/controller/agenttask_controller.go:351-396 | The policy made for one task selects the pod made for another exactly when the tasks share their name, for every tenant, image and code map, and lets nothing through either way |
| Scan.TaskEndOrigin | internal/controller/agenttask_controller.go:619-632 | The scan finds a terminated container called "task" if there is one, and nothing otherwise |
| Scan.RecordsTheTaskContainer | internal/controller/agenttask_controller.go:624-668 | Once the task container ended, its exit code, message and reason are what is recorded |
| Scan.RecordsNoTaskContainer | internal/controller/agenttask_controller.go:608-623 | Otherwise no exit code or result is recorded, and the reason is a pull failure if and only if some container shows one |
| Scan.ScanIgnoresOrder | internal/controller/agenttask_controller.go:619-632 | With unique container names the termination and the pull failure found are the same in every order |
| Scan.OutcomeIgnoresOrder | internal/controller/agenttask_controller.go:577-668 | Recorded exit code, result and reason, and the verdict on a running pod, do not depend on the order of the container statuses |
| Scan.VerdictExactly | internal/controller/agenttask_controller.go:577-598 | A running task succeeds or fails if and only if its pod did, or runs on while its task container ended with exit code 0, or another one |
| Scan.VerdictMatchesExitCode | internal/controller/agenttask_controller.go:577-597 | Decided from a running pod, Succeeded records exit code 0 and Failed another one; undecided exactly when no task container ended |
| Webhook.ValidateCreate | internal/webhook/v1alpha1/agenttask_webhook.go:59-93 | Written out: each refusal with its exact condition, and admission if and only if the profile is known, the timeout is 1 to 3600 seconds, the list call worked and it shows fewer than five active tasks |
| Webhook.ListedActive | internal/webhook/v1alpha1/agenttask_webhook.go:70-86 | Over a complete list in any order, the tasks counted are exactly those of the namespace whose phase is empty, Pending, Scheduled or Running |
| ApiServer.AdmissibleByList | internal/webhook/v1alpha1/agenttask_webhook.go:59-93 | The admission rule of the state machine is the webhook's decision over any complete list, of now or of an earlier moment |
| Protocol.BackendChoice | internal/controller/agenttask_controller.go:260-288 | A sandbox if and only if it is available and not ruled out; a failure if and only if it is demanded and not available |
| Protocol.ImageChoice | internal/controller/agenttask_controller.go:794-824 | The user's map has the last word for its own backend and no say for the other; without it exactly the two known profiles resolve, to the default image of the backend |
| Protocol.AdvanceDecreases | internal/controller/agenttask_controller.go:98-207 | Whatever it is answered, a reconcile makes at most ten API requests |
| Cluster.DriveIsRun | internal/controller/agenttask_controller.go:98-207 | One reconcile under any schedule of interference, faults and crashes is a run of the state machine |
| Client.ApiClient.Send | internal/controller/agenttask_controller.go:68-71 | One API request takes the next step of the schedule and of the automaton; after a crash it has no effect |
| Reconciler.RunReconcile | internal/controller/agenttask_controller.go:98-207 | The code leaves exactly the world the automaton leaves, under every schedule |
| Reconciler.AgentTaskReconciler.Reconcile | internal/controller/agenttask_controller.go:98-207 | From the fetch to the end, follows the automaton request by request and returns its result |
| Reconciler.AgentTaskReconciler.ReconcilePhase | internal/controller/agenttask_controller.go:167-206 | The switch on the phase, with the time-to-live branch in 64-bit durations, follows the automaton |
| Reconciler.AgentTaskReconciler.ReconcilePending | internal/controller/agenttask_controller.go:209-258 | Makes the dispatch requests in order; requeues when it ends without error |
| Reconciler.AgentTaskReconciler.Dispatch | internal/controller/agenttask_controller.go:239-257 | Creates on the chosen backend, then commits Scheduled with the reference in one write |
| Reconciler.AgentTaskReconciler.EnsureCodeConfigMap | internal/controller/agenttask_controller.go:311-344 | Create-if-absent of the code map; the name it returns is the one the automaton goes on with |
| Reconciler.AgentTaskReconciler.EnsureNetworkPolicy | internal/controller/agenttask_controller.go:346-380 | Create-if-absent of the deny-all policy before anything runs |
| Reconciler.AgentTaskReconciler.EnsurePod | internal/controller/agenttask_controller.go:382-511 | Create-if-absent of the pod; on success only the in-memory reference changes |
| Reconciler.AgentTaskReconciler.ReconcileScheduled | internal/controller/agenttask_controller.go:513-558 | Follows the pod of a scheduled task; the waiting-container loop decides a pull failure |
| Reconciler.AgentTaskReconciler.ReconcileRunning | internal/controller/agenttask_controller.go:560-599 | Follows the pod of a running task; the loop finds the first ended task container |
| Reconciler.AgentTaskReconciler.HandlePodFailure | internal/controller/agenttask_controller.go:601-650 | Commits the failure, then deletes the pod |
| Reconciler.AgentTaskReconciler.RecordFailure | internal/controller/agenttask_controller.go:602-632 | The loop over container statuses leaves the specified failure status |
| Reconciler.AgentTaskReconciler.HandlePodSuccess | internal/controller/agenttask_controller.go:652-686 | Commits the success, then deletes the pod |
| Reconciler.AgentTaskReconciler.RecordSuccess | internal/controller/agenttask_controller.go:653-668 | The loop over container statuses leaves the specified success status |
| Reconciler.AgentTaskReconciler.UpdatePhaseFailure | internal/controller/agenttask_controller.go:688-703 | Commits Failed with the given reason and a completion time |
| Reconciler.AgentTaskReconciler.ReconcileCanceled | internal/controller/agenttask_controller.go:705-745 | Deletes the referenced pod if it is there, then commits Canceled; stops at any other error |
| Reconciler.AgentTaskReconciler.CommitCanceled | internal/controller/agenttask_controller.go:726-744 | Commits Canceled with its reason and completion time |
| Reconciler.AgentTaskReconciler.CheckTimeout | internal/controller/agenttask_controller.go:747-757 | Computed in wrapping 64-bit nanoseconds, true exactly past the mathematical deadline |
| Reconciler.AgentTaskReconciler.ReconcileTimeout | internal/controller/agenttask_controller.go:759-792 | Deletes the pod only after a successful lookup, then commits Timeout |
| Reconciler.AgentTaskReconciler.CommitTimeout | internal/controller/agenttask_controller.go:774-791 | Commits Timeout with its reason and completion time |
| Reconciler.AgentTaskReconciler.FinalizeAgentTask | internal/controller/agenttask_controller.go:835-856 | Lets the finalizer go only after the referenced pod was deleted or not found |
| Reconciler.DurationsFit | internal/controller/agenttask_controller.go:755 | For every int32 number of seconds the duration and its two-second buffer fit in 64 bits |
| SandboxManager.Manager.EnsureSandbox | internal/platform/sandbox/manager.go:28-76 | Create-if-absent of the sandbox; the reference names the task's own sandbox |
| Lifecycle.StartOk | internal/controller/agenttask_controller.go:98-207 | The first request after reading a well-formed task is justified by what was read |
| Lifecycle.AdvanceOk | internal/controller/agenttask_controller.go:209-856 | Whatever a request is answered, the next one is justified and writes only a legal successor status |
| Lifecycle.LegalKeepsRecord | internal/controller/agenttask_controller.go:601-792 | A legal status write keeps the record well-formed |
| Lifecycle.LegalClimbs | internal/controller/agenttask_controller.go:138-204 | A legal write climbs the phase order or rewrites a timeout; only a withdrawn cancellation goes down |
| Safety.VersionMatch | internal/controller/agenttask_controller.go:143 | A write that does not conflict finds the task exactly as it was read |
| Safety.RespondOk | internal/controller/agenttask_controller.go:98-207 | Every request of a sound reconcile keeps the history and all records sound and is never denied |
| Safety.AdmittedProfileResolves | internal/controller/agenttask_controller.go:814-823 | A profile the webhook admits has a default image on either backend |
| Safety.StepKeepsBase | internal/controller/agenttask_controller.go:98-207 | Every step, with stale reads, conflicts, lost replies and crashes, keeps all records and all reconciles in flight sound |
| Safety.RunKeepsBase | internal/controller/agenttask_controller.go:98-207 | So does every run |
| Transitions.StepEvolves | internal/controller/agenttask_controller.go:98-207 | In one step a stored task changes its status only legally and together with nothing else; only a committed create adds a task |
| Transitions.RunDescends | internal/controller/agenttask_controller.go:138-257 | Over any run StartTime and PodRef are write-once, CompletionTime never moves back, terminal stays terminal, immutable fields stay |
| Transitions.GoneForGood | internal/controller/agenttask_controller.go:129-135 | A removed task never comes back; a later one of that name is a new task |
| Ownership.Footprint | internal/controller/agenttask_controller.go:311-511 | All that one request can change: its own task, one create-if-absent, or one deletion under its reference |
| Ownership.StepKeepsOwned | internal/controller/agenttask_controller.go:311-511 | Derived objects always sit under their owner's names with the controller's content |
| Ownership.DeletesOwnPod | internal/controller/agenttask_controller.go:710-724 | The object a reconcile deletes is named after its own task |
| Ownership.NoInterference | internal/controller/agenttask_controller.go:504-508 | A request of one task's reconcile changes no other task, status, pod or other object, stale reads and lost replies included |
| Ownership.TasksDoNotInterfere | internal/controller/agenttask_controller.go:382-385 | The same in every state reachable from a fresh cluster |
| Cleanup.NewPodOrigin | internal/controller/agenttask_controller.go:497 | A new pod comes only from the dispatch of a pending task and belongs to it |
| Cleanup.StepKeepsAttached | internal/controller/agenttask_controller.go:98-207 | With current reads the status a reconcile has read stays the stored one until it writes |
| Cleanup.RefStaysGone | internal/controller/agenttask_controller.go:255-257 | Once the pod named by the reference is gone, no step brings it back |
| Cleanup.CommittedBy | internal/controller/agenttask_controller.go:138-204 | Every status change is the last write of the task's own reconcile, made on exactly the task it read |
| Cleanup.CanceledBy | internal/controller/agenttask_controller.go:741 | Canceled is committed only by the task's own reconcile, at its last request, and changes neither pods nor reference |
| Cleanup.StepKeepsClean | internal/controller/agenttask_controller.go:705-745 | A reconcile about to commit Canceled or to drop the finalizer faces no pod under its reference |
| Isolation.StepKeepsShielded | internal/controller/agenttask_controller.go:218-222 | Every step keeps: a stored task's pod has its policy, and a dispatch past the policy step has stored it |
| Isolation.StepKeepsCode | internal/controller/agenttask_controller.go:317-341 | Every step keeps each code map equal to its task's source |
| Guarantees.RunKeepsLive | internal/controller/agenttask_controller.go:98-207 | With current reads all invariants of ownership, attachment, clean-up, isolation and code maps hold along every run |
| Guarantees.EveryPodIsIsolated | internal/controller/agenttask_controller.go:213-253 | In every reachable state each pod of a stored task is selected by a stored policy of its namespace that denies all traffic |
| Guarantees.PolicySelectsExactly | internal/controller/agenttask_controller.go:359-371 | In every reachable state a stored policy selects labels if and only if they give the task label its owner's name, and lets nothing through |
| Guarantees.PolicySelectsOwnPods | internal/controller/agenttask_controller.go:359-371 | So of the pods of its namespace it selects exactly its own task's |
| Creations.StepCreatesPod | internal/controller/agenttask_controller.go:382-495 | A step that adds a pod adds the task's own, running the code map of its spec and carrying exactly its name and, if it has one, its tenant |
| Creations.CreatedPodsRunTheirCode | internal/controller/agenttask_controller.go:311-344 | The same in every run |
| CodeMaps.StepKeepsCoded | internal/controller/agenttask_controller.go:213-217 | A dispatch past its code map finds the map stored at every later request |
| CodeMaps.CreatedPodsFindTheirSource | internal/controller/agenttask_controller.go:317-341 | Behind the webhook and with current reads, when a pod of a task with a source is created, the map it runs is stored and holds exactly the task's source |
| Guarantees.CodeMapAgreesWithSpec | internal/controller/agenttask_controller.go:311-344 | In every reachable state behind the webhook an existing code map holds exactly the current source |
| Guarantees.GonePodsStayGone | internal/controller/agenttask_controller.go:705-745 | While the task lives, a gone pod stays gone and the reference keeps naming it |
| Guarantees.CancellationRemovesPod | internal/controller/agenttask_controller.go:705-745 | When Canceled is committed the referenced pod does not exist, and never does again in the task's lifetime |
| Guarantees.ReleasedBy | internal/controller/agenttask_controller.go:120-136 | A task with a finalizer disappears only by its own reconcile's last write, which touches no pod or sandbox |
| Guarantees.RemovalLeavesExactly | internal/controller/agenttask_controller.go:835-856 | At removal the task was being deleted and its referenced pod is gone; its pod is left if and only if it was never recorded, a sandbox whenever there was one |
| StatusHistory.EveryCommitIsLegal | internal/controller/agenttask_controller.go:138-204 | In all runs each committed status is a legal successor of the one committed just before, as to phase, times, reference and reason, with the spec unchanged; `Outcomes` says what an outcome records |
| Outcomes.OutcomeFromAnswer | internal/controller/agenttask_controller.go:513-599 | Only an answer to a look for the task's pod leads to an outcome, and to the one it calls for |
| Outcomes.OutcomeWasReported | internal/controller/agenttask_controller.go:513-703 | In all runs a committed success, failure after dispatch, or step of a pod-backed task to Running is exactly what an earlier answer about the pod called for: exit code, result and reason of the containers reported then, PodMissing only if none was found, a pull failure only if a container showed one, and as completion time the second of that answer |
| Outcomes.PodsAreDeletedForAReason | internal/controller/agenttask_controller.go:634-640 | In all runs the controller deletes only the pod of the task it reconciles, which it read as being deleted, canceled or timed out, or whose end is stored already |
| Beginnings.StartsAreBegun | internal/controller/agenttask_controller.go:139-145 | In all runs a stored start time is the whole seconds of the clock at an earlier step that read this very task without a phase |
| Beginnings.TimeoutCountsFromStart | internal/controller/agenttask_controller.go:747-757 | So a task is timed out only more than T+1 seconds after that step, and always more than T+2 seconds after it |
| Beginnings.NoEarlyTimeout | internal/controller/agenttask_controller.go:759-792 | No run commits Timeout until more than T+1 seconds after the step that first read the task |
| Outcomes.CurrentAnswer | internal/controller/agenttask_controller.go:524-535 | With a current read that answer is the stored pod |
| StatusHistory.StatusRecord | internal/controller/agenttask_controller.go:601-792 | The exact relation of phase, times and reference in every reachable state, and what is write-once afterwards |
| StatusHistory.FinishedStaysFinished | internal/controller/agenttask_controller.go:150-204 | Terminal stays terminal; Succeeded and Failed change only to Timeout, past the deadline and uncanceled, so without a timeout never |
| StatusHistory.PhaseClimbs | internal/controller/agenttask_controller.go:138-204 | With cancellations kept the phase stays or moves strictly up |
| StatusHistory.AtMostSixPhaseChanges | internal/controller/agenttask_controller.go:138-204 | At most six committed phase changes per task in any run |
| Deadlines.TimeoutBounds | internal/controller/agenttask_controller.go:747-757 | Whatever real instant the stored start stands for: timed out only after more than T+1 seconds, always after more than T+2 |
| Deadlines.ExpiresExactly | internal/controller/agenttask_controller.go:163-201 | A reconcile deletes for the time to live if and only if expiration is past and the timeout deadline is not |
| Deadlines.ExpirationWindow | internal/controller/agenttask_controller.go:163-201 | A finished task has a moment at which it can be deleted if and only if it expires before its deadline |
| Deadlines.TtlDeleteWindow | internal/controller/agenttask_controller.go:183-201 | In all runs such a deletion comes after expiration, and never when the time to live is at least T+2 |
| Expiry.StepAwaited | internal/controller/agenttask_controller.go:186-203 | Every step keeps: a finished, unexpired task within its deadline is queued, has a timer, or is in the hands of a reconcile that will queue it or set one |
| Expiry.ExpirationIsAwaited | internal/controller/agenttask_controller.go:198-200 | In every reachable state such a task is queued, in flight, or has a timer no later than its expiration plus the longest time a finished reconcile of it takes to return |
| Expiry.ExpirationInstantIsMissed | internal/controller/agenttask_controller.go:198-200 | A reconcile that ends at its clock reading sets the timer if and only if that reading is before the expiration |
| Admission.StepActiveCount | internal/webhook/v1alpha1/agenttask_webhook.go:78-86 | One step adds an active task only by committing a create; nothing is revived |
| Admission.StaleCountIsSafe | internal/webhook/v1alpha1/agenttask_webhook.go:78-90 | The active count of any earlier snapshot plus the creates committed since is never less than the count now |
| Admission.AdmittedCount | internal/webhook/v1alpha1/agenttask_webhook.go:70-90 | An admission over a list at most j creates old finds at most 4+j active tasks |
| Admission.StepLoad | internal/webhook/v1alpha1/agenttask_webhook.go:67-92 | Active plus waiting creates stay within 4+k+j over every step |
| Admission.CapUnderInterleaving | internal/webhook/v1alpha1/agenttask_webhook.go:39-92 | With at most k creates between check and commit and lists at most j creates old, never more than 4+k+j active tasks; five when admissions are serial and lists current |
| Admission.OverlappingAdmissionsReachBound | internal/webhook/v1alpha1/agenttask_webhook.go:67-92 | The bound is reached for every k > 0 and j by a run within those limits |
| Admission.SpecsStayValid | internal/controller/agenttask_controller.go:794-824 | Behind the webhook, in all runs, stored specs stay valid and ProfileResolutionFailed is never recorded |
| UserEdits.StoredSpecs | internal/webhook/v1alpha1/agenttask_webhook.go:115-129 | Behind the webhook, in all runs, every stored spec has a known profile and a timeout of 1 to 3600 seconds |
| UserEdits.EditTakesEffect | internal/webhook/v1alpha1/agenttask_webhook.go:96-108 | In every reachable state behind the webhook an edit takes effect if and only if it keeps profile and source and asks for 1 to 3600 seconds; nothing else of the task changes |
| UserEdits.RemovalTakesEffect | internal/webhook/v1alpha1/agenttask_webhook.go:110-113 | In every reachable state a user's deletion marks the task, or removes it when it has no finalizer yet |
| UserEdits.UserCancels | internal/controller/agenttask_controller.go:150-160 | In every reachable state a cancellation is admitted, and at most three reconciles without faults end an unfinished task in Canceled with its pod gone |
| Admission.NeverBlocked | internal/webhook/v1alpha1/agenttask_webhook.go:96-135 | In all runs the webhook denies no request of the controller, finalizer updates included |
| Wakeup.RespondNotifies | internal/controller/agenttask_controller.go:827-833 | Every request that changes a task or its pod queues that task |
| Wakeup.PerformNotifies | internal/controller/agenttask_controller.go:827-833 | So does every change by users or the cluster |
| Wakeup.StepKeepsAttended | internal/controller/agenttask_controller.go:98-207 | Every step keeps each task queued, in the hands of a reconcile that will requeue it or leave it quiet, or quiet |
| Wakeup.QuietReconcileWritesNothing | internal/controller/agenttask_controller.go:98-207 | Reconciling a quiet task with nothing due writes nothing |
| Wakeup.NoLostWakeup | internal/controller/agenttask_controller.go:827-833 | In every reachable state, a task that is not queued, not in flight and has nothing due needs no write |
| Dispatch.RequestKeeps | internal/controller/agenttask_controller.go:209-258 | Every answered request of a dispatch keeps the outcome it is heading for, and ends it only by leaving Pending |
| Dispatch.MisledExactly | internal/controller/agenttask_controller.go:266-287 | A failed read leads the dispatch elsewhere if and only if: the CRD is there, no plain pod is asked for, and the backend is sandbox or some image resolves; or the profile map changes the image and its object is not there yet or has no default |
| Dispatch.FailureEnds | internal/controller/agenttask_controller.go:260-309 | A failed request ends the attempt or, if it does not mislead, leads on to the same outcome |
| Dispatch.CallKeeps | internal/controller/agenttask_controller.go:209-258 | The same for a request that is served, refused or loses its reply |
| Attempts.HarmlessStep | internal/controller/agenttask_controller.go:382-385 | No step about other tasks changes what a dispatch depends on or made |
| Attempts.DriveKeeps | internal/controller/agenttask_controller.go:209-258 | A dispatch under any gentle schedule, cut off anywhere, keeps the outcome it is heading for |
| Attempts.CompleteAttempt | internal/controller/agenttask_controller.go:168-258 | One uninterrupted attempt leaves exactly the reference result and is requeued |
| Creations.DispatchCreates | internal/controller/agenttask_controller.go:209-511 | What it leaves, written out: code map and policy, and a pod or a sandbox with the code, image, labels and reference of the task, whatever was there already staying as it is |
| Creations.GoalFails | internal/controller/agenttask_controller.go:225-237 | Otherwise it fails, for a demanded sandbox that is not available or a profile without an image |
| Attempts.InterruptedDispatchLeavesTheSame | internal/controller/agenttask_controller.go:209-258 | Any number of attempts cut off anywhere and then a complete one leave the same code map, policy, pod or sandbox, and status as one uninterrupted attempt |
| Misreading.FailedReadDecides | internal/controller/agenttask_controller.go:266-271 | An attempt whose look for the CRD or read of the profile map fails leaves what it would leave without the CRD, or without overrides |
| Misreading.FailedReadIsHarmless | internal/controller/agenttask_controller.go:801-824 | It leaves the reference result if and only if the read does not mislead |
| CutOff.FailedLookLeavesBoth | internal/controller/agenttask_controller.go:260-309 | Cut off after such a look, an automatic dispatch ends with a pod and a sandbox, where an uninterrupted one has no pod |
| CutOff.FailedLookCanLeaveBoth | internal/controller/agenttask_controller.go:260-309 | A run from a fresh cluster with the CRD does that |
| CutOff.FailedReadKeepsUsualImage | internal/controller/agenttask_controller.go:801-820 | Cut off after a failed read of the profile map, a dispatch ends with the default image, where an uninterrupted one uses the image of the map |
| CutOff.FailedReadCanKeepUsualImage | internal/controller/agenttask_controller.go:801-820 | A run from a fresh cluster with an override does that |
| Progress.TimeoutCommits | internal/controller/agenttask_controller.go:759-792 | Every fault-free reconcile past the deadline of a task neither canceled nor being deleted commits Timeout, stamped while it ran, and leaves no referenced pod, whatever other workers, users and the clock do meanwhile |
| Endings.FinalizerIsAdded | internal/controller/agenttask_controller.go:111-119 | A fault-free reconcile of a task without a finalizer adds it, and nothing else |
| Endings.PendingIsCommitted | internal/controller/agenttask_controller.go:139-148 | A fault-free reconcile of a task without a phase commits Pending with the second in which it was read, and requeues |
| Endings.PodIsFollowed | internal/controller/agenttask_controller.go:513-686 | A fault-free reconcile of a scheduled or running pod-backed task writes exactly the status that its pod calls for, or none, deletes the pod if and only if it is done, and settles |
| Endings.SandboxRuns | internal/controller/agenttask_controller.go:516-565 | A task scheduled to a sandbox is Running after one such reconcile and rests then |
| Endings.DeletionCompletes | internal/controller/agenttask_controller.go:120-136 | A fault-free reconcile of a task that is being deleted removes it, with the pod it names gone |
| Endings.ExpiryDeletes | internal/controller/agenttask_controller.go:186-197 | A fault-free reconcile that reads a finished task in its expiration window deletes it |
| Endings.TimeoutIgnoresFailedLook | internal/controller/agenttask_controller.go:764-788 | After a failed look for the pod Timeout is committed all the same, and the pod stays |
| Endings.TimeoutNeedsItsPod | internal/controller/agenttask_controller.go:767-771 | The deletion in the timeout path ends in an error if and only if the pod is gone already, and then writes nothing |
| Endings.OnlyThreeReadsGoOn | internal/controller/agenttask_controller.go:209-856 | Every error ends the reconcile in an error, except for the three reads whose errors the code ignores |
| Endings.FailuresAreRetried | internal/controller/agenttask_controller.go:103-136 | A failed request, whether or not it had its effect, leaves the key queued |
| Endings.ConflictsAreRetried | internal/controller/agenttask_controller.go:115-144 | So does a write that finds the task changed, and it writes nothing |
| Endings.MissingTaskSettles | internal/controller/agenttask_controller.go:102-105 | A reconcile of a task that is gone settles and writes nothing |
| Progress.CancelCommits | internal/controller/agenttask_controller.go:705-745 | Every fault-free reconcile of a canceled unfinished task commits Canceled likewise |
| Convergence.StartGoes | internal/controller/agenttask_controller.go:111-182 | A reconcile of an unfinished pod-backed task always has a request to make |
| Convergence.CallGoes | internal/controller/agenttask_controller.go:209-599 | Every request with a favorable answer leads on or brings the task strictly closer to its end |
| Convergence.EveryRoundIsProgress | internal/controller/agenttask_controller.go:111-204 | After any gap and a fault-free reconcile that finds no sandbox to use and, if it looks, a pod that ended or is gone, the task is strictly closer to a terminal phase |
| Convergence.TerminalWithinFive | internal/controller/agenttask_controller.go:111-204 | As many such rounds as its distance, at most five, end a task; in the gaps users, the cluster, other workers and crashes do what they like but delete it |
| Convergence.ConvergesFromReachable | internal/controller/agenttask_controller.go:111-204 | So five such rounds end a pod-backed task from every reachable state, a new one included |
| Convergence.CalmRoundIsFair | internal/controller/agenttask_controller.go:513-599 | A reconcile that nobody disturbs is such a round as soon as no sandbox is available or asked for and the pod of a scheduled task has ended or is gone |
| Leftovers.CrashThenRemovalLeavesPod | internal/controller/agenttask_controller.go:255-257 | From any state with a pod not yet recorded, a crash and a deletion remove the task and leave the pod |
| Leftovers.RemovalCanLeavePod | internal/controller/agenttask_controller.go:835-856 | Such a run exists from a fresh cluster, with current reads and no failed request |

## Left out

- `cmd/agentctl`, start-up, flags, TLS and metrics: input, output and side effects that carry no state of the protocol.
- Human-readable messages: the last matching container decides them, so they depend on the order.
- Pod details (security contexts, mounts, the sidecar script, resources): constant data; the model keeps owner, labels, image and code map name.
- What a sandbox does once it exists: the code takes it for running and never looks again.
- Kubernetes internals: graceful pod deletion, garbage collection of pods (a vanishing pod stands for it), and a task created again over leftovers of an older one.
- The webhook's deletion hook, which allows everything, and dry runs.
- Clock readings that differ within one segment between two API requests.
- Wakeups for timeouts: the code asks for none, so none are claimed; a due time to live is set aside in the wakeup theorem and treated in `Expiry`.
- `metav1.Time` serialisation and the queue's deduplication and back-off: library behaviour; the queue is a set of keys.
- Isolation.StepKeepsShielded: for current reads only, as pod creation is not version-checked.
- Cleanup.StepKeepsClean: for current reads only, as pod deletion is not version-checked.
- Progress.TimeoutCommits: the task's own pod does not vanish, nor is its spec edited, while the reconcile runs; the code answers either with an error and another attempt.
- Progress.CancelCommits: as for timeouts.
- Convergence.TerminalWithinFive: for tasks bound to a sandbox nothing is claimed, as the code leaves them running for good; edits of the task's spec may fall between its reconciles but not into one, where they cost an attempt.
- Misreading.FailedReadDecides: for an attempt in which one read fails and nobody interferes.
