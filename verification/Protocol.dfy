/** One reconcile of one task as an automaton: which API request comes next,
    and what each reply leads to. All code between two API requests is one
    step of `Advance`. */
module Protocol {
  import opened Names
  import opened Objects
  import opened Scan

  // ---- Requests and replies -----------------------------------------------

  datatype Request =
    | GetTask(key: Key)
    | GetPod(key: Key)
    | GetMap(key: Key)
    | GetPolicy(key: Key)
    | GetSandbox(key: Key)
    | GetSandboxCrd
    | PutTask(key: Key, version: nat, spec: Spec, finalizer: bool)
    | PutStatus(key: Key, version: nat, status: Status)
    | DeleteTask(key: Key)
    | CreatePod(key: Key, pod: Pod)
    | DeletePod(key: Key)
    | CreateMap(key: Key, code: ConfigMap)
    | CreatePolicy(key: Key, policy: NetworkPolicy)
    | CreateSandbox(key: Key, sandbox: Sandbox)

  datatype Reply =
    | TaskReply(task: Task)
    | PodReply(pod: Pod)
    | MapReply(data: map<string, string>)
    | Ok
    | NotFound
    | AlreadyExists
    | Conflict
    | Denied
    | Unavailable

  // ---- Plain decisions ------------------------------------------------------

  datatype Backend = PodBackend | SandboxBackend

  function SelectBackend(requested: string, sandboxAvailable: bool): Option<Backend> {
    if requested == "sandbox" then
      if sandboxAvailable then Some(SandboxBackend) else None
    else if requested == "" || requested == "auto" then
      Some(if sandboxAvailable then SandboxBackend else PodBackend)
    else Some(PodBackend)
  }

  function ResolveImage(profile: string, backend: Backend, overrides: Option<map<string, string>>): Option<string> {
    var key := if backend.SandboxBackend? then profile + "-sandbox" else profile;
    if overrides.Some? && key in overrides.value then Some(overrides.value[key])
    else if profile == "python3.11" || profile == "python3.10" then
      Some(if backend.SandboxBackend? then "agent-sandbox-python:3.11" else "python:3.11-slim")
    else None
  }

  /** A sandbox is used exactly when it is available and not ruled out; the choice fails
      exactly when a sandbox is demanded and not available. */
  lemma BackendChoice(requested: string, available: bool)
    ensures SelectBackend(requested, available) == Some(SandboxBackend) <==>
              available && requested in {"", "auto", "sandbox"}
    ensures SelectBackend(requested, available).None? <==> !available && requested == "sandbox"
  {
  }

  /** Where the image of a task comes from: the user's map has the last word for the
      backend at hand, and says nothing about the other one. */
  lemma ImageChoice(profile: string, overrides: map<string, string>)
    ensures profile in overrides ==> ResolveImage(profile, PodBackend, Some(overrides)) == Some(overrides[profile])
    ensures profile + "-sandbox" in overrides ==>
              ResolveImage(profile, SandboxBackend, Some(overrides)) == Some(overrides[profile + "-sandbox"])
    ensures profile !in overrides ==>
              ResolveImage(profile, PodBackend, Some(overrides)) == ResolveImage(profile, PodBackend, None)
    ensures profile + "-sandbox" !in overrides ==>
              ResolveImage(profile, SandboxBackend, Some(overrides)) == ResolveImage(profile, SandboxBackend, None)
    ensures forall b :: ResolveImage(profile, b, None) ==
              if profile !in {"python3.10", "python3.11"} then None
              else Some(if b == PodBackend then "python:3.11-slim" else "agent-sandbox-python:3.11")
  {
  }

  // ---- Statuses the reconciler writes ---------------------------------------

  function PendingStatus(s: Status, now: nat): Status {
    s.(phase := Pending, startTime := Some(Stamp(now)))
  }

  function ScheduledStatus(s: Status, ref: PodRef): Status {
    s.(phase := Scheduled, podRef := ref)
  }

  function FailedStatus(s: Status, why: Reason, now: nat): Status {
    s.(phase := Failed, reason := why, completionTime := Some(Stamp(now)))
  }

  function CanceledStatus(s: Status, now: nat): Status {
    s.(phase := Canceled, reason := CanceledReason, completionTime := Some(Stamp(now)))
  }

  function TimeoutStatus(s: Status, now: nat): Status {
    s.(phase := Timeout, reason := TimeoutReason, completionTime := Some(Stamp(now)))
  }

  // ---- The automaton ----------------------------------------------------------

  /** The API request a reconcile is about to make. */
  datatype PC =
    | AddFinalizer
    | FinalizeLook
    | FinalizeDelete
    | DropFinalizer
    | PutPending(st: Status)
    | CancelLook
    | CancelDelete
    | PutCanceled(st: Status)
    | TimeoutLook
    | TimeoutDelete
    | PutTimeout(st: Status)
    | LookCode
    | MakeCode
    | LookPolicy(code: string)
    | MakePolicy(code: string)
    | LookCrd(code: string)
    | LookProfiles(code: string, backend: Backend)
    | LookSandbox(image: string)
    | MakeSandbox(image: string)
    | LookPod(code: string, image: string)
    | MakePod(code: string, image: string)
    | PutScheduled(st: Status)
    | PutRejected(st: Status)
    | LookScheduled
    | LookRunning
    | PutRunning(st: Status)
    | PutFailed(st: Status)
    | PutFinished(st: Status)
    | FinishDelete
    | ExpireTask

  /** What the work queue is told when a reconcile returns. */
  datatype Result = Settled | Requeue | RequeueAfter(delay: int) | Error

  /** A reconcile in flight. `seen` is the task as it was read. */
  datatype Job = Fetch | Work(seen: Task, pc: PC) | Done(result: Result)

  function RequestOf(key: Key, j: Job): Request
    requires !j.Done?
  {
    match j
    case Fetch => GetTask(key)
    case Work(t, pc) => RequestAt(t, pc)
  }

  function RequestAt(t: Task, pc: PC): Request {
    match pc
    case AddFinalizer => PutTask(t.key, t.version, t.spec, true)
    case FinalizeLook => GetPod(RefKey(t.status.podRef))
    case FinalizeDelete => DeletePod(RefKey(t.status.podRef))
    case DropFinalizer => PutTask(t.key, t.version, t.spec, false)
    case PutPending(st) => PutStatus(t.key, t.version, st)
    case CancelLook => GetPod(RefKey(t.status.podRef))
    case CancelDelete => DeletePod(RefKey(t.status.podRef))
    case PutCanceled(st) => PutStatus(t.key, t.version, st)
    case TimeoutLook => GetPod(RefKey(t.status.podRef))
    case TimeoutDelete => DeletePod(RefKey(t.status.podRef))
    case PutTimeout(st) => PutStatus(t.key, t.version, st)
    case LookCode => GetMap(CodeKey(t.key))
    case MakeCode => CreateMap(CodeKey(t.key), NewCodeMap(t.key, t.spec.source))
    case LookPolicy(_) => GetPolicy(PolicyKey(t.key))
    case MakePolicy(_) => CreatePolicy(PolicyKey(t.key), NewPolicy(t.key))
    case LookCrd(_) => GetSandboxCrd
    case LookProfiles(_, _) => GetMap(ProfilesKey(t.key.ns))
    case LookSandbox(_) => GetSandbox(SandboxKey(t.key))
    case MakeSandbox(image) => CreateSandbox(SandboxKey(t.key), NewSandbox(t.key, image))
    case LookPod(_, _) => GetPod(PodKey(t.key))
    case MakePod(code, image) => CreatePod(PodKey(t.key), NewPod(t.key, t.spec.tenant, code, image))
    case PutScheduled(st) => PutStatus(t.key, t.version, st)
    case PutRejected(st) => PutStatus(t.key, t.version, st)
    case LookScheduled => GetPod(RefKey(t.status.podRef))
    case LookRunning => GetPod(RefKey(t.status.podRef))
    case PutRunning(st) => PutStatus(t.key, t.version, st)
    case PutFailed(st) => PutStatus(t.key, t.version, st)
    case PutFinished(st) => PutStatus(t.key, t.version, st)
    case FinishDelete => DeletePod(RefKey(t.status.podRef))
    case ExpireTask => DeleteTask(t.key)
  }

  /** From the fetched task to the first request after it, or to the end. */
  function Start(t: Task, now: nat): Job {
    if t.deleting then
      if !t.finalizer then Done(Settled)
      else Work(t, if t.status.podRef.Ref? then FinalizeLook else DropFinalizer)
    else if !t.finalizer then Work(t, AddFinalizer)
    else if t.status.phase.NoPhase? then Work(t, PutPending(PendingStatus(t.status, now)))
    else if t.spec.canceled then
      if t.status.phase.Succeeded? || t.status.phase.Failed? || t.status.phase.Canceled? then Done(Settled)
      else Work(t, if t.status.podRef.Ref? then CancelLook else PutCanceled(CanceledStatus(t.status, now)))
    else if TimedOut(t, now) then
      Work(t, if t.status.podRef.Ref? then TimeoutLook else PutTimeout(TimeoutStatus(t.status, now)))
    else StartPhase(t, now)
  }

  function StartPhase(t: Task, now: nat): Job {
    match t.status.phase
    case Pending => Work(t, StartDispatch(t))
    case Scheduled =>
      Work(t, if IsSandboxRef(t.status.podRef) then PutRunning(t.status.(phase := Running)) else LookScheduled)
    case Running => if IsSandboxRef(t.status.podRef) then Done(Settled) else Work(t, LookRunning)
    case _ => StartTerminal(t, now)
  }

  function StartDispatch(t: Task): PC {
    if t.spec.configMapRef.Some? then LookPolicy(t.spec.configMapRef.value)
    else if t.spec.source != "" then LookCode
    else LookPolicy("")
  }

  function StartTerminal(t: Task, now: nat): Job {
    if t.spec.ttl.Some? && t.status.completionTime.Some? then
      var expiration := Expiration(t.status.completionTime.value, t.spec.ttl.value);
      if now > expiration then Work(t, ExpireTask) else Done(RequeueAfter(expiration - now))
    else Done(Settled)
  }

  function AfterScheduledPod(t: Task, p: Pod, now: nat): Job {
    match p.phase
    case PodPending =>
      if AnyPullFailing(p.containers) then Work(t, PutFailed(FailedStatus(t.status, ImagePullFailed, now)))
      else Done(Settled)
    case PodRunning => Work(t, PutRunning(t.status.(phase := Running)))
    case PodSucceeded => Work(t, PutFinished(SuccessStatus(t.status, p.containers, now)))
    case PodFailed => Work(t, PutFinished(FailureStatus(t.status, p.containers, now)))
    case PodUnknown => Done(Settled)
  }

  function AfterRunningPod(t: Task, p: Pod, now: nat): Job {
    match RunningVerdict(p)
    case Undecided => Done(Settled)
    case Success => Work(t, PutFinished(SuccessStatus(t.status, p.containers, now)))
    case Failure => Work(t, PutFinished(FailureStatus(t.status, p.containers, now)))
  }

  function OkThen(r: Reply, result: Result): Job {
    Done(if r.Ok? then result else Error)
  }

  /** The next state of a reconcile after a reply, at clock reading `now`. */
  function Advance(j: Job, r: Reply, now: nat): Job
    requires !j.Done?
  {
    match j
    case Fetch =>
      (match r
       case TaskReply(t) => Start(t, now)
       case NotFound => Done(Settled)
       case _ => Done(Error))
    case Work(t, pc) => AdvanceAt(t, pc, r, now)
  }

  function AdvanceAt(t: Task, pc: PC, r: Reply, now: nat): Job {
    match pc
    case AddFinalizer => OkThen(r, Settled)
    case FinalizeLook =>
      if r.PodReply? then Work(t, FinalizeDelete)
      else if r.NotFound? then Work(t, DropFinalizer)
      else Done(Error)
    case FinalizeDelete =>
      if r.Ok? || r.NotFound? then Work(t, DropFinalizer) else Done(Error)
    case DropFinalizer => OkThen(r, Settled)
    case PutPending(_) => OkThen(r, Requeue)
    case CancelLook =>
      if r.PodReply? then Work(t, CancelDelete)
      else if r.NotFound? then Work(t, PutCanceled(CanceledStatus(t.status, now)))
      else Done(Error)
    case CancelDelete =>
      if r.Ok? || r.NotFound? then Work(t, PutCanceled(CanceledStatus(t.status, now))) else Done(Error)
    case PutCanceled(_) => OkThen(r, Settled)
    case TimeoutLook =>
      // Only a successful lookup leads to a deletion; every error is ignored.
      if r.PodReply? then Work(t, TimeoutDelete)
      else Work(t, PutTimeout(TimeoutStatus(t.status, now)))
    case TimeoutDelete =>
      // Unlike the cancellation path, a missing pod is an error here.
      if r.Ok? then Work(t, PutTimeout(TimeoutStatus(t.status, now))) else Done(Error)
    case PutTimeout(_) => OkThen(r, Settled)
    case LookCode =>
      if r.MapReply? then Work(t, LookPolicy(CodeKey(t.key).name))
      else if r.NotFound? then Work(t, MakeCode)
      else Done(Error)
    case MakeCode =>
      if r.Ok? then Work(t, LookPolicy(CodeKey(t.key).name)) else Done(Error)
    case LookPolicy(code) =>
      if r.Ok? then Work(t, LookCrd(code))
      else if r.NotFound? then Work(t, MakePolicy(code))
      else Done(Error)
    case MakePolicy(code) =>
      if r.Ok? then Work(t, LookCrd(code)) else Done(Error)
    case LookCrd(code) =>
      // An error counts as "not available".
      (match SelectBackend(t.spec.backend, r.Ok?)
       case None => Work(t, PutRejected(FailedStatus(t.status, BackendSelectionFailed, now)))
       case Some(backend) => Work(t, LookProfiles(code, backend)))
    case LookProfiles(code, backend) =>
      // An error counts as "no overrides".
      (match ResolveImage(t.spec.runtimeProfile, backend, if r.MapReply? then Some(r.data) else None)
       case None => Work(t, PutRejected(FailedStatus(t.status, ProfileResolutionFailed, now)))
       case Some(image) =>
         Work(t, if backend.SandboxBackend? then LookSandbox(image) else LookPod(code, image)))
    case LookSandbox(image) =>
      if r.Ok? then Work(t, PutScheduled(ScheduledStatus(t.status, Ref(SandboxKind, SandboxKey(t.key)))))
      else if r.NotFound? then Work(t, MakeSandbox(image))
      else Done(Error)
    case MakeSandbox(_) =>
      if r.Ok? then Work(t, PutScheduled(ScheduledStatus(t.status, Ref(SandboxKind, SandboxKey(t.key)))))
      else Done(Error)
    case LookPod(code, image) =>
      if r.PodReply? then Work(t, PutScheduled(ScheduledStatus(t.status, Ref(PodKind, PodKey(t.key)))))
      else if r.NotFound? then Work(t, MakePod(code, image))
      else Done(Error)
    case MakePod(_, _) =>
      if r.Ok? then Work(t, PutScheduled(ScheduledStatus(t.status, Ref(PodKind, PodKey(t.key)))))
      else Done(Error)
    case PutScheduled(_) => OkThen(r, Requeue)
    case PutRejected(_) => OkThen(r, Requeue)
    case LookScheduled =>
      if r.PodReply? then AfterScheduledPod(t, r.pod, now)
      else if r.NotFound? then Work(t, PutFailed(FailedStatus(t.status, PodMissing, now)))
      else Done(Error)
    case LookRunning =>
      if r.PodReply? then AfterRunningPod(t, r.pod, now)
      else if r.NotFound? then Work(t, PutFailed(FailedStatus(t.status, PodMissing, now)))
      else Done(Error)
    case PutRunning(_) => OkThen(r, Settled)
    case PutFailed(_) => OkThen(r, Settled)
    case PutFinished(_) => if r.Ok? then Work(t, FinishDelete) else Done(Error)
    case FinishDelete => if r.Ok? || r.NotFound? then Done(Settled) else Done(Error)
    case ExpireTask => if r.Ok? || r.NotFound? then Done(Settled) else Done(Error)
  }

  /** An upper bound on the requests a reconcile still makes. */
  function Remaining(j: Job): nat {
    match j
    case Fetch => 10
    case Done(_) => 0
    case Work(_, pc) => RemainingAt(pc)
  }

  function RemainingAt(pc: PC): nat {
    match pc
    case LookCode => 9
    case MakeCode => 8
    case LookPolicy(_) => 7
    case MakePolicy(_) => 6
    case LookCrd(_) => 5
    case LookProfiles(_, _) => 4
    case LookSandbox(_) => 3
    case LookPod(_, _) => 3
    case FinalizeLook => 3
    case CancelLook => 3
    case TimeoutLook => 3
    case LookScheduled => 3
    case LookRunning => 3
    case MakeSandbox(_) => 2
    case MakePod(_, _) => 2
    case FinalizeDelete => 2
    case CancelDelete => 2
    case TimeoutDelete => 2
    case PutFinished(_) => 2
    case _ => 1
  }

  /** Every reply brings a reconcile strictly closer to its end, so one reconcile
      makes at most ten API requests, whatever it is answered. */
  lemma AdvanceDecreases(j: Job, r: Reply, now: nat)
    requires !j.Done?
    ensures Remaining(Advance(j, r, now)) < Remaining(j) <= 10
  {
  }
}
