/** Crash idempotence of dispatch: interrupted attempts followed by a complete one
    leave what one uninterrupted attempt leaves. */
module Dispatch {
  import opened Names
  import opened Objects
  import opened Protocol
  import opened Lifecycle
  import opened ApiServer
  import opened Cluster

  // ---- What a dispatch depends on and leaves behind ---------------------------------

  /** All that the dispatch of one task depends on or changes. */
  datatype Scene = Scene(
    task: Task,
    crd: bool,
    overrides: Option<map<string, string>>,
    code: Option<ConfigMap>,
    policy: Option<NetworkPolicy>,
    pod: Option<Pod>,
    sandbox: Option<Sandbox>)

  function At<V>(m: map<Key, V>, k: Key): Option<V> {
    if k in m then Some(m[k]) else None
  }

  /** A pod without what the cluster reports about it. */
  function Shape(p: Pod): Pod {
    p.(phase := PodPending, containers := [])
  }

  function PodAt(m: map<Key, Pod>, k: Key): Option<Pod> {
    if k in m then Some(Shape(m[k])) else None
  }

  function OverridesAt(m: map<Key, ConfigMap>, k: Key): Option<map<string, string>> {
    if k in m then Some(m[k].data) else None
  }

  function SceneOf(s: Store, k: Key): Scene
    requires k in s.tasks
  {
    Scene(s.tasks[k], s.crd, OverridesAt(s.maps, ProfilesKey(k.ns)), At(s.maps, CodeKey(k)),
          At(s.policies, PolicyKey(k)), PodAt(s.pods, PodKey(k)), At(s.sandboxes, SandboxKey(k)))
  }

  /** The dependents and the status of a task, its completion time aside. */
  datatype Outcome = Outcome(
    code: Option<ConfigMap>,
    policy: Option<NetworkPolicy>,
    pod: Option<Pod>,
    sandbox: Option<Sandbox>,
    status: Status)

  function Bare(st: Status): Status {
    st.(completionTime := None)
  }

  function Present(c: Scene): Outcome {
    Outcome(c.code, c.policy, c.pod, c.sandbox, Bare(c.task.status))
  }

  predicate NeedsCode(t: Task) {
    t.spec.configMapRef.None? && t.spec.source != ""
  }

  function CodeName(t: Task): string {
    if t.spec.configMapRef.Some? then t.spec.configMapRef.value
    else if t.spec.source != "" then CodeKey(t.key).name
    else ""
  }

  function OrElse<V>(o: Option<V>, v: V): Option<V> {
    if o.Some? then o else Some(v)
  }

  /** What every dispatch prepares: a needed code map and a policy, created if absent. */
  function Basis(c: Scene): Outcome {
    var t := c.task;
    Present(c).(
      code := if NeedsCode(t) then OrElse(c.code, NewCodeMap(t.key, t.spec.source)) else c.code,
      policy := OrElse(c.policy, NewPolicy(t.key)))
  }

  /** The result with the given image on the given backend. */
  function GoalWith(c: Scene, backend: Backend, image: string): Outcome {
    var t := c.task;
    if backend.SandboxBackend? then
      Basis(c).(sandbox := OrElse(c.sandbox, NewSandbox(t.key, image)),
                status := Bare(ScheduledStatus(t.status, Ref(SandboxKind, SandboxKey(t.key)))))
    else
      Basis(c).(pod := OrElse(c.pod, NewPod(t.key, t.spec.tenant, CodeName(t), image)),
                status := Bare(ScheduledStatus(t.status, Ref(PodKind, PodKey(t.key)))))
  }

  /** The result on the given backend. */
  function GoalOn(c: Scene, backend: Backend): Outcome {
    match ResolveImage(c.task.spec.runtimeProfile, backend, c.overrides)
    case None => Basis(c).(status := Bare(FailedStatus(c.task.status, ProfileResolutionFailed, 0)))
    case Some(image) => GoalWith(c, backend, image)
  }

  /** The reference result: what is needed and absent is created, nothing else changes. */
  function Goal(c: Scene): Outcome {
    match SelectBackend(c.task.spec.backend, c.crd)
    case None => Basis(c).(status := Bare(FailedStatus(c.task.status, BackendSelectionFailed, 0)))
    case Some(backend) => GoalOn(c, backend)
  }

  /** What the task will have once it is dispatched, or has because it was. */
  function Outlook(c: Scene): Outcome {
    if c.task.status.phase.Pending? then Goal(c) else Present(c)
  }

  // ---- Where a dispatch stands ------------------------------------------------------------

  ghost predicate DispatchStep(pc: PC) {
    DispatchPC(pc) || pc.PutScheduled? || pc.PutRejected?
  }

  ghost predicate CodeReady(c: Scene, code: string) {
    (NeedsCode(c.task) ==> c.code.Some?) && code == CodeName(c.task)
  }

  ghost predicate Ready(c: Scene, code: string) {
    CodeReady(c, code) && c.policy.Some?
  }

  /** What a dispatch that has come to a request has found or made on its way, and that
      the choices it has made lead to the reference result. */
  ghost predicate Fits(c: Scene, pc: PC) {
    match pc
    case LookCode => NeedsCode(c.task)
    case MakeCode => NeedsCode(c.task) && c.code.None?
    case LookPolicy(code) => CodeReady(c, code)
    case MakePolicy(code) => CodeReady(c, code) && c.policy.None?
    case LookCrd(code) => Ready(c, code)
    case LookProfiles(code, backend) => Ready(c, code) && GoalOn(c, backend) == Goal(c)
    case LookSandbox(image) => Ready(c, CodeName(c.task)) && GoalWith(c, SandboxBackend, image) == Goal(c)
    case MakeSandbox(image) =>
      Ready(c, CodeName(c.task)) && GoalWith(c, SandboxBackend, image) == Goal(c) && c.sandbox.None?
    case LookPod(code, image) => Ready(c, code) && GoalWith(c, PodBackend, image) == Goal(c)
    case MakePod(code, image) => Ready(c, code) && GoalWith(c, PodBackend, image) == Goal(c) && c.pod.None?
    case PutScheduled(st) => Goal(c) == Present(c).(status := Bare(st)) && st.phase.Scheduled?
    case PutRejected(st) => Goal(c) == Present(c).(status := Bare(st)) && st.phase.Failed?
    case _ => false
  }

  /** The task as read is the stored one, pending, and the dispatch is under way. */
  ghost predicate Underway(s: Store, k: Key, t: Task, pc: PC) {
    && k in s.tasks && s.tasks[k] == t && t.key == k && t.status.phase.Pending?
    && DispatchStep(pc) && Fits(SceneOf(s, k), pc)
  }

  ghost predicate InDispatch(w: World, k: Key) {
    k in w.jobs && w.jobs[k].Work? && Underway(w.store, k, w.jobs[k].seen, w.jobs[k].pc)
  }

  /** The outlook is the same, and a task that is still pending is the same. */
  ghost predicate SameOutlook(s: Store, s': Store, k: Key) {
    && k in s.tasks && k in s'.tasks && Outlook(SceneOf(s', k)) == Outlook(SceneOf(s, k))
    && (s'.tasks[k].status.phase.Pending? ==> s'.tasks[k] == s.tasks[k])
  }

  /** What holds after a request: the outlook is the same, and the dispatch goes on or
      is over; if it ended although the request was answered, the task has moved on and
      is reconciled again. */
  ghost predicate GoesOn(s: Store, s': Store, k: Key, j: Job, answered: bool) {
    && SameOutlook(s, s', k)
    && match j
       case Fetch => false
       case Work(t, pc) => Underway(s', k, t, pc)
       case Done(r) => answered ==> r.Requeue? && !s'.tasks[k].status.phase.Pending?
  }

  ghost predicate Served(s: Store, t: Task, pc: PC, now: nat) {
    var e := Respond(s, RequestAt(t, pc));
    GoesOn(s, e.store, t.key, AdvanceAt(t, pc, e.reply, now), true)
  }

  // ---- Every request keeps the outlook -------------------------------------------------------

  lemma PrepareLookKeeps(s: Store, t: Task, pc: PC, now: nat)
    requires Underway(s, t.key, t, pc) && (pc.LookCode? || pc.LookPolicy?)
    ensures Served(s, t, pc, now)
  {
    hide PodKey, SandboxKey, CodeKey, PolicyKey, ProfilesKey, Goal, ResolveImage, SelectBackend;
  }

  lemma ChooseKeeps(s: Store, t: Task, pc: PC, now: nat)
    requires Underway(s, t.key, t, pc) && (pc.LookCrd? || pc.LookProfiles?)
    ensures Served(s, t, pc, now)
  {
    hide PodKey, SandboxKey, CodeKey, PolicyKey, ProfilesKey, ResolveImage, SelectBackend;
    hide NewPod, NewSandbox, NewCodeMap, NewPolicy, GoalWith;
  }

  /** Once the pod or the sandbox is there only the status is left to write. */
  lemma OnlyStatusIsLeft(c: Scene, backend: Backend, image: string, code: string)
    requires Ready(c, code) && GoalWith(c, backend, image) == Goal(c)
    requires if backend.SandboxBackend? then c.sandbox.Some? else c.pod.Some?
    ensures var ref := if backend.SandboxBackend? then Ref(SandboxKind, SandboxKey(c.task.key))
                       else Ref(PodKind, PodKey(c.task.key));
            Fits(c, PutScheduled(ScheduledStatus(c.task.status, ref)))
  {
    hide Goal, PodKey, SandboxKey, CodeKey, NewPod, NewSandbox, NewCodeMap, NewPolicy;
  }

  lemma LookSandboxKeeps(s: Store, t: Task, pc: PC, now: nat)
    requires Underway(s, t.key, t, pc) && pc.LookSandbox?
    ensures Served(s, t, pc, now)
  {
    assert RequestAt(t, pc) == GetSandbox(SandboxKey(t.key));
    assert SceneOf(s, t.key).sandbox.Some? <==> SandboxKey(t.key) in s.sandboxes;
    hide RequestAt, SceneOf, SandboxKey, CodeKey, Goal, GoalWith;
    if SandboxKey(t.key) in s.sandboxes {
      OnlyStatusIsLeft(SceneOf(s, t.key), SandboxBackend, pc.image, CodeName(t));
      hide Fits;
    }
  }

  lemma LookPodKeeps(s: Store, t: Task, pc: PC, now: nat)
    requires Underway(s, t.key, t, pc) && pc.LookPod?
    ensures Served(s, t, pc, now)
  {
    assert RequestAt(t, pc) == GetPod(PodKey(t.key));
    assert SceneOf(s, t.key).pod.Some? <==> PodKey(t.key) in s.pods;
    hide RequestAt, SceneOf, PodKey, CodeKey, Goal, GoalWith;
    if PodKey(t.key) in s.pods {
      OnlyStatusIsLeft(SceneOf(s, t.key), PodBackend, pc.image, pc.code);
      hide Fits;
    }
  }

  lemma CodeIsNoProfiles(k: Key, ns: string)
    ensures CodeKey(k) != ProfilesKey(ns)
  {
    var c, p := CodeKey(k).name, ProfilesKey(ns).name;
    assert c[|c| - 1] == 'e';
    assert p[|p| - 1] == 's';
  }

  /** Once a part of the goal is made the goal is the same. */
  lemma GoalIsStable(c: Scene)
    ensures NeedsCode(c.task) && c.code.None? ==>
              Goal(c.(code := Some(NewCodeMap(c.task.key, c.task.spec.source)))) == Goal(c)
    ensures c.policy.None? ==> Goal(c.(policy := Some(NewPolicy(c.task.key)))) == Goal(c)
  {
    hide PodKey, SandboxKey, CodeKey, ResolveImage, SelectBackend, NewPod, NewSandbox, NewCodeMap, NewPolicy;
  }

  lemma GoalKeepsBackend(c: Scene, image: string)
    ensures c.sandbox.None? && GoalWith(c, SandboxBackend, image) == Goal(c) ==>
              var c' := c.(sandbox := Some(NewSandbox(c.task.key, image)));
              Goal(c') == Goal(c) == GoalWith(c', SandboxBackend, image)
    ensures c.pod.None? && GoalWith(c, PodBackend, image) == Goal(c) ==>
              var c' := c.(pod := Some(NewPod(c.task.key, c.task.spec.tenant, CodeName(c.task), image)));
              Goal(c') == Goal(c) == GoalWith(c', PodBackend, image)
  {
    hide PodKey, SandboxKey, CodeKey, ResolveImage, SelectBackend, NewCodeMap, NewPolicy;
  }

  /** What a create request does to the scene. */
  ghost predicate Creates(s: Store, t: Task, pc: PC, c': Scene) {
    var e := Respond(s, RequestAt(t, pc));
    e.reply.Ok? && t.key in e.store.tasks && e.store.tasks == s.tasks && SceneOf(e.store, t.key) == c'
  }

  lemma CodeIsCreated(s: Store, t: Task)
    requires t.key in s.tasks && CodeKey(t.key) !in s.maps
    ensures Creates(s, t, MakeCode, SceneOf(s, t.key).(code := Some(NewCodeMap(t.key, t.spec.source))))
  {
    CodeIsNoProfiles(t.key, t.key.ns);
    assert RequestAt(t, MakeCode) == CreateMap(CodeKey(t.key), NewCodeMap(t.key, t.spec.source));
    hide RequestAt, PodKey, SandboxKey, CodeKey, PolicyKey, ProfilesKey, NewCodeMap, Shape;
  }

  lemma PolicyIsCreated(s: Store, t: Task, code: string)
    requires t.key in s.tasks && PolicyKey(t.key) !in s.policies
    ensures Creates(s, t, MakePolicy(code), SceneOf(s, t.key).(policy := Some(NewPolicy(t.key))))
  {
    assert RequestAt(t, MakePolicy(code)) == CreatePolicy(PolicyKey(t.key), NewPolicy(t.key));
    hide RequestAt, PodKey, SandboxKey, CodeKey, PolicyKey, ProfilesKey, NewPolicy, Shape;
  }

  lemma SandboxIsCreated(s: Store, t: Task, image: string)
    requires t.key in s.tasks && SandboxKey(t.key) !in s.sandboxes
    ensures Creates(s, t, MakeSandbox(image), SceneOf(s, t.key).(sandbox := Some(NewSandbox(t.key, image))))
  {
    assert RequestAt(t, MakeSandbox(image)) == CreateSandbox(SandboxKey(t.key), NewSandbox(t.key, image));
    hide RequestAt, PodKey, SandboxKey, CodeKey, PolicyKey, ProfilesKey, NewSandbox, Shape;
  }

  lemma PodIsCreated(s: Store, t: Task, code: string, image: string)
    requires t.key in s.tasks && PodKey(t.key) !in s.pods
    ensures Creates(s, t, MakePod(code, image), SceneOf(s, t.key).(pod := Some(NewPod(t.key, t.spec.tenant, code, image))))
  {
    var p := NewPod(t.key, t.spec.tenant, code, image);
    assert Shape(p) == p && RequestAt(t, MakePod(code, image)) == CreatePod(PodKey(t.key), p);
    hide RequestAt, PodKey, SandboxKey, CodeKey, PolicyKey, ProfilesKey, NewPod, Shape;
  }

  lemma MakeCodeKeeps(s: Store, t: Task, pc: PC, now: nat)
    requires Underway(s, t.key, t, pc) && pc.MakeCode?
    ensures Served(s, t, pc, now)
  {
    GoalIsStable(SceneOf(s, t.key));
    CodeIsCreated(s, t);
    hide Respond, RequestAt, SceneOf, CodeKey, Goal, NewCodeMap;
  }

  lemma MakePolicyKeeps(s: Store, t: Task, pc: PC, now: nat)
    requires Underway(s, t.key, t, pc) && pc.MakePolicy?
    ensures Served(s, t, pc, now)
  {
    GoalIsStable(SceneOf(s, t.key));
    PolicyIsCreated(s, t, pc.code);
    hide Respond, RequestAt, SceneOf, CodeKey, Goal, NewPolicy;
  }

  lemma MakeSandboxKeeps(s: Store, t: Task, pc: PC, now: nat)
    requires Underway(s, t.key, t, pc) && pc.MakeSandbox?
    ensures Served(s, t, pc, now)
  {
    GoalKeepsBackend(SceneOf(s, t.key), pc.image);
    SandboxIsCreated(s, t, pc.image);
    hide Respond, RequestAt, SceneOf, SandboxKey, CodeKey, Goal, GoalWith, NewSandbox;
    OnlyStatusIsLeft(SceneOf(Respond(s, RequestAt(t, pc)).store, t.key), SandboxBackend, pc.image, CodeName(t));
  }

  lemma MakePodKeeps(s: Store, t: Task, pc: PC, now: nat)
    requires Underway(s, t.key, t, pc) && pc.MakePod?
    ensures Served(s, t, pc, now)
  {
    GoalKeepsBackend(SceneOf(s, t.key), pc.image);
    PodIsCreated(s, t, pc.code, pc.image);
    hide Respond, RequestAt, SceneOf, PodKey, CodeKey, Goal, GoalWith, NewPod;
    OnlyStatusIsLeft(SceneOf(Respond(s, RequestAt(t, pc)).store, t.key), PodBackend, pc.image, pc.code);
  }

  lemma PutKeeps(s: Store, t: Task, pc: PC, now: nat)
    requires Underway(s, t.key, t, pc) && (pc.PutScheduled? || pc.PutRejected?)
    ensures Served(s, t, pc, now)
  {
    hide PodKey, SandboxKey, CodeKey, PolicyKey, ProfilesKey, Goal;
  }

  lemma RequestKeeps(s: Store, t: Task, pc: PC, now: nat)
    requires Underway(s, t.key, t, pc)
    ensures Served(s, t, pc, now)
  {
    hide Fits, Served, Outlook;
    match pc
    case LookCrd(_) => ChooseKeeps(s, t, pc, now);
    case LookProfiles(_, _) => ChooseKeeps(s, t, pc, now);
    case LookSandbox(_) => LookSandboxKeeps(s, t, pc, now);
    case LookPod(_, _) => LookPodKeeps(s, t, pc, now);
    case MakeCode => MakeCodeKeeps(s, t, pc, now);
    case MakePolicy(_) => MakePolicyKeeps(s, t, pc, now);
    case MakeSandbox(_) => MakeSandboxKeeps(s, t, pc, now);
    case MakePod(_, _) => MakePodKeeps(s, t, pc, now);
    case PutScheduled(_) => PutKeeps(s, t, pc, now);
    case PutRejected(_) => PutKeeps(s, t, pc, now);
    case _ => PrepareLookKeeps(s, t, pc, now);
  }

  // ---- Failed reads -----------------------------------------------------------------------------

  ghost predicate Resolves(c: Scene, backend: Backend) {
    ResolveImage(c.task.spec.runtimeProfile, backend, c.overrides).Some?
  }

  /** A failure of this read spoils the dispatch. A failed look for the CRD counts as "not
      installed": that matters when it is there and the spec does not ask for a plain pod,
      unless the backend is up to the controller and no image resolves for either. A failed
      read of the profile map counts as "no overrides": that matters when the map changes
      the image, unless the object to be given the image is there already. */
  ghost predicate Misled(c: Scene, pc: PC) {
    match pc
    case LookCrd(_) =>
      && c.crd && c.task.spec.backend in {"", "auto", "sandbox"}
      && (c.task.spec.backend == "sandbox" || Resolves(c, PodBackend) || Resolves(c, SandboxBackend))
    case LookProfiles(_, backend) =>
      var profile := c.task.spec.runtimeProfile;
      var usual := ResolveImage(profile, backend, None);
      && usual != ResolveImage(profile, backend, c.overrides)
      && (usual.None? || if backend.SandboxBackend? then c.sandbox.None? else c.pod.None?)
    case _ => false
  }

  /** What the rest of the dispatch leaves when the read fails. */
  function Mistaken(c: Scene, pc: PC): Outcome {
    match pc
    case LookCrd(_) => Goal(c.(crd := false))
    case LookProfiles(_, backend) => GoalOn(c.(overrides := None), backend)
    case _ => Goal(c)
  }

  /** The failed read leads elsewhere if and only if it misleads. */
  lemma MisledExactly(c: Scene, pc: PC)
    requires Fits(c, pc)
    ensures Mistaken(c, pc) != Goal(c) <==> Misled(c, pc)
  {
    hide PodKey, SandboxKey, CodeKey, NewCodeMap, NewPolicy;
  }

  lemma OtherFailureEnds(t: Task, pc: PC, now: nat)
    requires DispatchStep(pc) && !pc.LookCrd? && !pc.LookProfiles?
    ensures AdvanceAt(t, pc, Unavailable, now) == Done(Error)
  {
    hide CodeKey, PodKey, SandboxKey;
  }

  lemma FailedLookGoesOn(c: Scene, t: Task, pc: PC, now: nat)
    requires c.task == t && Fits(c, pc) && pc.LookCrd? && Mistaken(c, pc) == Goal(c)
    ensures var j := AdvanceAt(t, pc, Unavailable, now); j.Work? && DispatchStep(j.pc) && Fits(c, j.pc)
  {
    assert forall b, image :: GoalWith(c.(crd := false), b, image) == GoalWith(c, b, image);
    hide SelectBackend, ResolveImage, GoalWith, CodeKey, NewCodeMap, NewPolicy;
  }

  lemma FailedReadGoesOn(c: Scene, t: Task, pc: PC, now: nat)
    requires c.task == t && Fits(c, pc) && pc.LookProfiles? && Mistaken(c, pc) == Goal(c)
    ensures var j := AdvanceAt(t, pc, Unavailable, now); j.Work? && DispatchStep(j.pc) && Fits(c, j.pc)
  {
    assert forall image :: GoalWith(c.(overrides := None), pc.backend, image) == GoalWith(c, pc.backend, image);
    hide SelectBackend, ResolveImage, CodeKey, PodKey, SandboxKey, NewPod, NewSandbox, NewCodeMap, NewPolicy, Goal;
  }

  /** A failed request ends the attempt or, when it does not mislead, changes nothing. */
  lemma FailureEnds(s: Store, t: Task, pc: PC, now: nat)
    requires Underway(s, t.key, t, pc) && !Misled(SceneOf(s, t.key), pc)
    ensures var j := AdvanceAt(t, pc, Unavailable, now);
            j == Done(Error) || (j.Work? && Underway(s, t.key, t, j.pc))
  {
    var c := SceneOf(s, t.key);
    assert c.task == t;
    hide Misled, Mistaken, Fits, SceneOf, AdvanceAt, Goal;
    MisledExactly(c, pc);
    if pc.LookCrd? {
      FailedLookGoesOn(c, t, pc, now);
    } else if pc.LookProfiles? {
      FailedReadGoesOn(c, t, pc, now);
    } else {
      OtherFailureEnds(t, pc, now);
    }
  }

  /** One request of a dispatch, served with current data, however it fares. */
  lemma CallKeeps(w: World, k: Key, fault: Fault)
    requires InDispatch(w, k)
    requires fault.Smooth? || !Misled(SceneOf(w.store, k), w.jobs[k].pc)
    ensures var w' := CallStep(w, k, fault, View.Live);
            k in w'.jobs && GoesOn(w.store, w'.store, k, w'.jobs[k], fault.Smooth?)
  {
    hide Fits, Outlook, Respond, RequestAt, AdvanceAt, Misled;
    var t, pc := w.jobs[k].seen, w.jobs[k].pc;
    RequestKeeps(w.store, t, pc, w.clock);
    if !fault.Smooth? {
      FailureEnds(w.store, t, pc, w.clock);
      TrustedReads(w.store, t, pc, w.clock);
    }
  }

  /** Only reads survive a failure. */
  lemma TrustedReads(s: Store, t: Task, pc: PC, now: nat)
    requires DispatchStep(pc)
    ensures AdvanceAt(t, pc, Unavailable, now).Work? ==>
              Respond(s, RequestAt(t, pc)).store == s && AdvanceAt(t, pc, Unavailable, now).seen == t
  {
    hide PodKey, SandboxKey, CodeKey, PolicyKey, ProfilesKey, NewPod, NewSandbox, NewCodeMap, NewPolicy;
    if pc.LookCrd? || pc.LookProfiles? {
      hide ResolveImage, SelectBackend;
    } else {
      hide Respond, RequestAt;
    }
  }
}
