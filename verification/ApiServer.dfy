/** The API server: the stored objects, how it answers the controller's
    requests, and what users and the cluster do to it. */
module ApiServer {
  import opened Names
  import opened Objects
  import opened Webhook
  import opened Protocol

  datatype Store = Store(
    tasks: map<Key, Task>,
    pods: map<Key, Pod>,
    sandboxes: map<Key, Sandbox>,
    maps: map<Key, ConfigMap>,
    policies: map<Key, NetworkPolicy>,
    crd: bool,          // the Sandbox CRD is installed
    guarded: bool,      // the webhook is installed
    version: nat,       // the last resource version handed out
    past: set<Task>)    // every task value ever stored

  /** The store after an operation, the reply, and the task keys whose reconcile the
      watches on tasks and owned pods request because of it. */
  datatype Effect = Effect(store: Store, reply: Reply, events: set<Key>)

  function Nothing(s: Store, r: Reply): Effect {
    Effect(s, r, {})
  }

  // ---- Writes ------------------------------------------------------------------

  /** Stores a changed task under a new version. */
  function Save(s: Store, t: Task): Effect {
    var t' := t.(version := s.version + 1);
    Effect(s.(tasks := s.tasks[t.key := t'], version := s.version + 1, past := s.past + {t'}), Ok, {t.key})
  }

  function Drop(s: Store, key: Key): Effect {
    Effect(s.(tasks := s.tasks - {key}), Ok, {key})
  }

  /** Deletes a task, or marks it when its finalizer is still there. */
  function Condemn(s: Store, key: Key): Effect {
    if key !in s.tasks then Nothing(s, NotFound)
    else if !s.tasks[key].finalizer then Drop(s, key)
    else if s.tasks[key].deleting then Nothing(s, Ok)
    else Save(s, s.tasks[key].(deleting := true))
  }

  function WritePod(s: Store, key: Key, p: Pod): Effect {
    Effect(s.(pods := s.pods[key := p]), Ok, {p.owner})
  }

  function RemovePod(s: Store, key: Key): Effect {
    if key !in s.pods then Nothing(s, NotFound)
    else Effect(s.(pods := s.pods - {key}), Ok, {s.pods[key].owner})
  }

  /** r.Update: spec and metadata are written, the status is not; the webhook is asked. */
  function ReplaceTask(s: Store, key: Key, version: nat, spec: Spec, finalizer: bool): Effect {
    if key !in s.tasks then Nothing(s, NotFound)
    else
      var t := s.tasks[key];
      if t.version != version then Nothing(s, Conflict)
      else if s.guarded && ValidateUpdate(t.spec, spec).Refused? then Nothing(s, Denied)
      else if t.deleting && !finalizer then Drop(s, key)
      else if spec == t.spec && finalizer == t.finalizer then Nothing(s, Ok)
      else Save(s, t.(spec := spec, finalizer := finalizer))
  }

  /** r.Status().Update: only the status is written; the webhook is not asked. */
  function ReplaceStatus(s: Store, key: Key, version: nat, status: Status): Effect {
    if key !in s.tasks then Nothing(s, NotFound)
    else
      var t := s.tasks[key];
      if t.version != version then Nothing(s, Conflict)
      else if status == t.status then Nothing(s, Ok)
      else Save(s, t.(status := status))
  }

  // ---- The controller's requests --------------------------------------------------

  function Lookup(s: Store, q: Request): Reply {
    match q
    case GetTask(k) => if k in s.tasks then TaskReply(s.tasks[k]) else NotFound
    case GetPod(k) => if k in s.pods then PodReply(s.pods[k]) else NotFound
    case GetMap(k) => if k in s.maps then MapReply(s.maps[k].data) else NotFound
    case GetPolicy(k) => if k in s.policies then Ok else NotFound
    case GetSandbox(k) => if k in s.sandboxes then Ok else NotFound
    case GetSandboxCrd => if s.crd then Ok else NotFound
    case _ => Unavailable
  }

  function Respond(s: Store, q: Request): Effect {
    match q
    case PutTask(k, version, spec, finalizer) => ReplaceTask(s, k, version, spec, finalizer)
    case PutStatus(k, version, status) => ReplaceStatus(s, k, version, status)
    case DeleteTask(k) => Condemn(s, k)
    case CreatePod(k, p) => if k in s.pods then Nothing(s, AlreadyExists) else WritePod(s, k, p)
    case DeletePod(k) => RemovePod(s, k)
    case CreateMap(k, m) =>
      if k in s.maps then Nothing(s, AlreadyExists) else Nothing(s.(maps := s.maps[k := m]), Ok)
    case CreatePolicy(k, p) =>
      if k in s.policies then Nothing(s, AlreadyExists) else Nothing(s.(policies := s.policies[k := p]), Ok)
    case CreateSandbox(k, b) =>
      if k in s.sandboxes then Nothing(s, AlreadyExists) else Nothing(s.(sandboxes := s.sandboxes[k := b]), Ok)
    case _ => Nothing(s, Lookup(s, q))
  }

  /** What happens to a request: it is served; it is refused without effect; or it
      takes effect but the reply is lost. */
  datatype Fault = Smooth | Refusal | ReplyLost

  /** Whether a read is served from the store or from an out-of-date cache. */
  datatype View = Live | Stale(reply: Reply)

  /** What an out-of-date cache may answer: an earlier value of the task; for
      anything else, any answer of the right kind. */
  predicate StaleReply(s: Store, q: Request, r: Reply) {
    match q
    case GetTask(k) => r.TaskReply? && r.task in s.past && r.task.key == k
    case GetPod(_) => r.PodReply? || r.NotFound?
    case GetMap(_) => r.MapReply? || r.NotFound?
    case GetPolicy(_) => r.Ok? || r.NotFound?
    case GetSandbox(_) => r.Ok? || r.NotFound?
    case GetSandboxCrd => r.Ok? || r.NotFound?
    case _ => false
  }

  function Serve(s: Store, q: Request, fault: Fault, view: View): Effect {
    match fault
    case Smooth => if view.Stale? && StaleReply(s, q, view.reply) then Nothing(s, view.reply) else Respond(s, q)
    case Refusal => Nothing(s, Unavailable)
    case ReplyLost => Respond(s, q).(reply := Unavailable)
  }

  // ---- Users and the cluster ----------------------------------------------------------

  datatype Change =
    | Edit(key: Key, spec: Spec)
    | Remove(key: Key)
    | EditMap(key: Key, data: map<string, string>)
    | PodReports(key: Key, phase: PodPhase, containers: seq<ContainerStatus>)
    | PodVanishes(key: Key)
    | Sweep(key: Key)             // dependents of a removed task are collected
    | SetCrd(present: bool)

  /** A user update of the spec, through the webhook. */
  function EditSpec(s: Store, key: Key, spec: Spec): Effect {
    if key !in s.tasks then Nothing(s, NotFound)
    else if s.guarded && ValidateUpdate(s.tasks[key].spec, spec).Refused? then Nothing(s, Denied)
    else if spec == s.tasks[key].spec then Nothing(s, Ok)
    else Save(s, s.tasks[key].(spec := spec))
  }

  /** Code maps are the controller's; a user writes any other config map. */
  function Perform(s: Store, c: Change): Effect {
    match c
    case Edit(k, spec) => EditSpec(s, k, spec)
    case Remove(k) => Condemn(s, k)
    case EditMap(k, data) =>
      if HasSuffix(k.name, "-code") then Nothing(s, Denied)
      else Nothing(s.(maps := s.maps[k := ConfigMap(None, data)]), Ok)
    case PodReports(k, phase, cs) =>
      if k !in s.pods then Nothing(s, NotFound)
      else WritePod(s, k, s.pods[k].(phase := phase, containers := cs))
    case PodVanishes(k) => RemovePod(s, k)
    case Sweep(k) =>
      if k in s.tasks then Nothing(s, Denied)
      else Nothing(s.(sandboxes := s.sandboxes - {SandboxKey(k)},
                      maps := s.maps - {CodeKey(k)},
                      policies := s.policies - {PolicyKey(k)}), Ok)
    case SetCrd(present) => Nothing(s.(crd := present), Ok)
  }

  /** A name is free again once everything derived from it is gone. */
  predicate Free(s: Store, key: Key) {
    && key !in s.tasks
    && PodKey(key) !in s.pods
    && SandboxKey(key) !in s.sandboxes
    && CodeKey(key) !in s.maps
    && PolicyKey(key) !in s.policies
  }

  /** A new task: the spec is the user's, the status is empty. */
  function NewTask(s: Store, key: Key, spec: Spec): Task {
    Task(key, s.version + 1, 0, spec, EmptyStatus, false, false)
  }

  /** The webhook's verdict on a create: a valid spec and fewer than five active tasks
      in the list it was given. */
  predicate Admissible(s: Store, spec: Spec, counted: nat) {
    s.guarded ==> ValidateSpec(spec).Allowed? && counted < MaxActiveTasks
  }

  /** Over a complete list of the namespace, of now or of some earlier moment, the verdict
      is the one on the number of tasks active at that moment. */
  lemma AdmissibleByList(s: Store, ns: string, spec: Spec, tasks: map<Key, Task>, items: seq<Task>)
    requires s.guarded && Lists(items, tasks, ns)
    requires forall k :: k in tasks ==> tasks[k].key == k
    ensures Admissible(s, spec, |ActiveIn(tasks, ns)|) <==>
              ValidateSpec(spec).Allowed? && |ActiveKeys(items)| < MaxActiveTasks
  {
    ListedActive(items, tasks, ns);
  }
}
