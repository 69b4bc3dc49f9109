/** The API objects: tasks with their status record, pods, sandboxes, config
    maps and network policies. */
module Objects {
  import opened Names

  datatype Option<+T> = None | Some(value: T)

  type int32 = x: int | -0x8000_0000 <= x < 0x8000_0000

  // ---- Time -------------------------------------------------------------

  /** The clock counts nanoseconds; stored timestamps are whole seconds. */
  function Stamp(now: nat): nat {
    now / 1_000_000_000
  }

  function Nanos(seconds: int): int {
    seconds * 1_000_000_000
  }

  // ---- Tasks ------------------------------------------------------------

  datatype Phase =
    | NoPhase
    | Pending
    | Scheduled
    | Running
    | Succeeded
    | Failed
    | Timeout
    | Canceled

  predicate Terminal(p: Phase) {
    p.Succeeded? || p.Failed? || p.Timeout? || p.Canceled?
  }

  /** Why a task is where it is. `Reported` carries the text of a terminated container. */
  datatype Reason =
    | NoReason
    | PodFailedReason
    | TimeoutReason
    | CanceledReason
    | PodMissing
    | ImagePullFailed
    | ProfileResolutionFailed
    | BackendSelectionFailed
    | Reported(text: string)

  datatype RefKind = PodKind | SandboxKind

  datatype PodRef = NoRef | Ref(kind: RefKind, target: Key)

  predicate IsPodRef(r: PodRef) {
    r.Ref? && r.kind.PodKind?
  }

  predicate IsSandboxRef(r: PodRef) {
    r.Ref? && r.kind.SandboxKind?
  }

  /** The key a lookup of the reference uses; an empty reference has an empty name. */
  function RefKey(r: PodRef): Key {
    match r
    case NoRef => Key("", "")
    case Ref(_, target) => target
  }

  datatype Spec = Spec(
    runtimeProfile: string,
    source: string,
    configMapRef: Option<string>,
    timeoutSeconds: int32,
    backend: string,
    tenant: string,
    canceled: bool,
    ttl: Option<int32>)

  datatype Status = Status(
    phase: Phase,
    podRef: PodRef,
    result: Option<string>,
    exitCode: int32,
    reason: Reason,
    startTime: Option<nat>,
    completionTime: Option<nat>)

  const EmptyStatus := Status(NoPhase, NoRef, None, 0, NoReason, None, None)

  datatype Task = Task(
    key: Key,
    uid: nat,
    version: nat,
    spec: Spec,
    status: Status,
    finalizer: bool,
    deleting: bool)

  /** The first instant after which the task counts as timed out. */
  function Deadline(start: nat, timeoutSeconds: int): int {
    Nanos(start + timeoutSeconds + 2)
  }

  predicate TimedOut(t: Task, now: nat) {
    && t.spec.timeoutSeconds > 0
    && t.status.startTime.Some?
    && now > Deadline(t.status.startTime.value, t.spec.timeoutSeconds)
  }

  /** The instant at which a finished task with a time to live expires. */
  function Expiration(completion: nat, ttl: int): int {
    Nanos(completion + ttl)
  }

  // ---- Dependents ---------------------------------------------------------

  datatype Termination = Termination(exitCode: int32, message: string, reason: string)

  datatype ContainerStatus = ContainerStatus(
    name: string,
    waiting: Option<string>,
    terminated: Option<Termination>)

  datatype PodPhase = PodPending | PodRunning | PodSucceeded | PodFailed | PodUnknown

  datatype Pod = Pod(
    owner: Key,
    labels: map<string, string>,
    image: string,
    codeMap: string,
    phase: PodPhase,
    containers: seq<ContainerStatus>)

  datatype Sandbox = Sandbox(owner: Key, image: string, command: seq<string>)

  datatype ConfigMap = ConfigMap(owner: Option<Key>, data: map<string, string>)

  datatype Direction = Ingress | Egress

  datatype NetworkPolicy = NetworkPolicy(
    owner: Key,
    selector: map<string, string>,
    directions: set<Direction>,
    ingress: seq<string>,
    egress: seq<string>)

  const TaskLabel := "agenttask.io/task"
  const TenantLabel := "agenttask.io/tenant"

  predicate Selects(p: NetworkPolicy, labels: map<string, string>) {
    forall l :: l in p.selector ==> l in labels && labels[l] == p.selector[l]
  }

  /** Applies to both directions and lets nothing through in either. */
  predicate DeniesAll(p: NetworkPolicy) {
    p.directions == {Ingress, Egress} && p.ingress == [] && p.egress == []
  }

  function NewPod(task: Key, tenant: string, codeMap: string, image: string): Pod {
    var labels := map[TaskLabel := task.name];
    Pod(task, if tenant != "" then labels[TenantLabel := tenant] else labels, image, codeMap, PodPending, [])
  }

  function NewSandbox(task: Key, image: string): Sandbox {
    Sandbox(task, image, ["python", "/workspace/entrypoint.py"])
  }

  function NewCodeMap(task: Key, source: string): ConfigMap {
    ConfigMap(Some(task), map["entrypoint.py" := source])
  }

  function NewPolicy(task: Key): NetworkPolicy {
    NetworkPolicy(task, map[TaskLabel := task.name], {Ingress, Egress}, [], [])
  }

  /** The policy of one task selects the pod of another exactly when the two share their name. */
  lemma NewPolicySelectsNewPod(task: Key, other: Key, tenant: string, codeMap: string, image: string)
    ensures Selects(NewPolicy(task), NewPod(other, tenant, codeMap, image).labels) <==> task.name == other.name
    ensures DeniesAll(NewPolicy(task))
  {
    assert TaskLabel in NewPolicy(task).selector;
    assert TaskLabel[14] != TenantLabel[14];
  }
}
