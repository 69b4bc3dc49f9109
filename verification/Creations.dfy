/** What the controller creates, written out: the pod with its code, image and labels, the
    sandbox, the code map and the policy. */
module Creations {
  import opened Names
  import opened Objects
  import opened Protocol
  import opened Lifecycle
  import opened ApiServer
  import opened Cluster
  import opened Safety
  import opened Ownership
  import opened Cleanup
  import opened StatusHistory
  import opened Undisturbed
  import opened Dispatch
  import opened Attempts

  /** The labels of the pod of a task: its name, and its tenant if it has one. */
  ghost predicate Labelled(p: Pod, t: Task) {
    && p.labels.Keys == (if t.spec.tenant == "" then {"agenttask.io/task"} else {"agenttask.io/task", "agenttask.io/tenant"})
    && p.labels["agenttask.io/task"] == t.key.name
    && (t.spec.tenant != "" ==> p.labels["agenttask.io/tenant"] == t.spec.tenant)
  }

  /** The pod runs the user's code map if the task names one, or else the map made from the
      source, if there is one. */
  ghost predicate RunsCode(p: Pod, t: Task) {
    if t.spec.configMapRef.Some? then p.codeMap == t.spec.configMapRef.value
    else p.codeMap == if t.spec.source != "" then t.key.name + "-code" else ""
  }

  /** The image that the profile map, or else the default, gives the task on a backend. */
  ghost predicate ImageOf(t: Task, sandbox: bool, maps: map<Key, ConfigMap>, image: string) {
    var entry := if sandbox then t.spec.runtimeProfile + "-sandbox" else t.spec.runtimeProfile;
    var profiles := Key(t.key.ns, "agenttask-runtime-profiles");
    if profiles in maps && entry in maps[profiles].data then image == maps[profiles].data[entry]
    else && t.spec.runtimeProfile in {"python3.10", "python3.11"}
         && image == if sandbox then "agent-sandbox-python:3.11" else "python:3.11-slim"
  }

  // ---- Every pod of every run --------------------------------------------------------------------

  /** The one pod a step can add is the task's own, with the code and the labels of the
      task as its reconcile read it. */
  lemma StepCreatesPod(w: World, a: Action, p: Key)
    requires Base(w) && p in Step(w, a).store.pods && p !in w.store.pods
    ensures a.Call? && a.key in w.jobs && w.jobs[a.key].Work?
    ensures var t, pod := w.jobs[a.key].seen, Step(w, a).store.pods[p];
            && p == Key(t.key.ns, t.key.name + "-pod") && t.key == a.key && pod.owner == t.key
            && Dispatching(t) && RunsCode(pod, t) && Labelled(pod, t) && pod.phase.PodPending? && pod.containers == []
  {
    hide Step, CallStep, Respond, RequestOf, PodKey, NewPod, RecordOk, JobOk, Labelled, RunsCode;
    NewPodOrigin(w, a, p);
    StepWrites(w, a);
    CallWrites(w, a.key, a.fault, a.view);
    var j := w.jobs[a.key];
    assert JobSound(w.store, a.key, j, w.clock);
    Footprint(w.store, a.key, j);
    MadePod(j.seen, j.pc, w.clock);
    assert Step(w, a).store.pods[p] == NewPod(a.key, j.seen.spec.tenant, j.pc.code, j.pc.image);
    PodName(a.key);
  }

  lemma PodName(k: Key)
    ensures PodKey(k) == Key(k.ns, k.name + "-pod")
  {
  }

  lemma MadePod(t: Task, pc: PC, now: nat)
    requires pc.MakePod? && JobOk(t, pc, now)
    ensures var pod := NewPod(t.key, t.spec.tenant, pc.code, pc.image);
            && RunsCode(pod, t) && Labelled(pod, t) && pod.phase.PodPending? && pod.containers == []
            && pod.owner == t.key
  {
    assert TaskLabel[14] != TenantLabel[14];
  }

  /** The same in every run. */
  lemma CreatedPodsRunTheirCode(w0: World, run: seq<Action>, a: Action, p: Key)
    requires Initial(w0) && p in Exec(w0, run + [a]).store.pods && p !in Exec(w0, run).store.pods
    ensures a.Call? && a.key in Exec(w0, run).jobs && Exec(w0, run).jobs[a.key].Work?
    ensures var t, pod := Exec(w0, run).jobs[a.key].seen, Exec(w0, run + [a]).store.pods[p];
            && p == Key(t.key.ns, t.key.name + "-pod") && t.key == a.key && pod.owner == t.key
            && Dispatching(t) && RunsCode(pod, t) && Labelled(pod, t) && pod.phase.PodPending? && pod.containers == []
  {
    hide Exec, Step, Base, RunsCode, Labelled;
    AlwaysBase(w0, run);
    ExecLast(w0, run, a);
    StepCreatesPod(Exec(w0, run), a, p);
  }

  // ---- A complete dispatch -------------------------------------------------------------------------

  /** The backend that the spec asks for, given the CRD: a pod, unless a sandbox is there
      and not ruled out; none if a sandbox is demanded and not there. */
  ghost predicate PodWanted(t: Task, crd: bool) {
    t.spec.backend !in {"", "auto", "sandbox"} || (!crd && t.spec.backend != "sandbox")
  }

  ghost predicate SandboxWanted(t: Task, crd: bool) {
    crd && t.spec.backend in {"", "auto", "sandbox"}
  }

  /** A dispatch to a pod leaves exactly this. */
  ghost predicate LeavesPod(c: Scene, o: Outcome, image: string) {
    var t := c.task;
    && o.pod.Some? && o.sandbox == c.sandbox
    && (c.pod.Some? ==> o.pod == c.pod)
    && (c.pod.None? ==> && o.pod.value.owner == t.key && o.pod.value.image == image
                        && RunsCode(o.pod.value, t) && Labelled(o.pod.value, t))
    && o.status == t.status.(phase := Scheduled, completionTime := None,
                             podRef := Ref(PodKind, Key(t.key.ns, t.key.name + "-pod")))
  }

  ghost predicate LeavesSandbox(c: Scene, o: Outcome, image: string) {
    var t := c.task;
    && o.sandbox.Some? && o.pod == c.pod
    && (c.sandbox.Some? ==> o.sandbox == c.sandbox)
    && (c.sandbox.None? ==> o.sandbox.value == Sandbox(t.key, image, ["python", "/workspace/entrypoint.py"]))
    && o.status == t.status.(phase := Scheduled, completionTime := None,
                             podRef := Ref(SandboxKind, Key(t.key.ns, t.key.name + "-sandbox")))
  }

  /** What a dispatch prepares on any backend. */
  ghost predicate Prepares(c: Scene, o: Outcome) {
    var t := c.task;
    && (t.spec.configMapRef.Some? || t.spec.source == "" ==> o.code == c.code)
    && (t.spec.configMapRef.None? && t.spec.source != "" ==>
          o.code.Some? && (c.code.Some? ==> o.code == c.code)
          && (c.code.None? ==> o.code.value == ConfigMap(Some(t.key), map["entrypoint.py" := t.spec.source])))
    && o.policy.Some? && (c.policy.Some? ==> o.policy == c.policy)
    && (c.policy.None? ==> && o.policy.value.owner == t.key && DeniesAll(o.policy.value)
                           && o.policy.value.selector == map["agenttask.io/task" := t.key.name])
  }

  lemma GoalPrepares(c: Scene)
    ensures Prepares(c, Goal(c))
  {
    hide SelectBackend, ResolveImage, NewPod, NewSandbox, CodeKey, PodKey, SandboxKey;
  }

  lemma GoalLeavesPod(c: Scene, maps: map<Key, ConfigMap>, image: string)
    requires PodWanted(c.task, c.crd) && c.overrides == OverridesAt(maps, ProfilesKey(c.task.key.ns))
    requires ImageOf(c.task, false, maps, image)
    ensures LeavesPod(c, Goal(c), image)
  {
    assert TaskLabel[14] != TenantLabel[14];
    hide NewCodeMap, NewPolicy, NewSandbox;
  }

  lemma GoalLeavesSandbox(c: Scene, maps: map<Key, ConfigMap>, image: string)
    requires SandboxWanted(c.task, c.crd) && c.overrides == OverridesAt(maps, ProfilesKey(c.task.key.ns))
    requires ImageOf(c.task, true, maps, image)
    ensures LeavesSandbox(c, Goal(c), image)
  {
    hide NewCodeMap, NewPolicy, NewPod;
  }

  /** Otherwise the dispatch fails, for the backend or for the profile. */
  lemma GoalFails(c: Scene, maps: map<Key, ConfigMap>)
    requires c.overrides == OverridesAt(maps, ProfilesKey(c.task.key.ns))
    ensures !PodWanted(c.task, c.crd) && !SandboxWanted(c.task, c.crd) ==>
              Goal(c).status == c.task.status.(phase := Failed, reason := BackendSelectionFailed, completionTime := None)
    ensures (PodWanted(c.task, c.crd) || SandboxWanted(c.task, c.crd))
            && (forall image :: !ImageOf(c.task, SandboxWanted(c.task, c.crd), maps, image)) ==>
              Goal(c).status == c.task.status.(phase := Failed, reason := ProfileResolutionFailed, completionTime := None)
  {
    hide NewCodeMap, NewPolicy, NewPod, NewSandbox;
    var sandbox := SandboxWanted(c.task, c.crd);
    var usual := if sandbox then "agent-sandbox-python:3.11" else "python:3.11-slim";
    var entry := if sandbox then c.task.spec.runtimeProfile + "-sandbox" else c.task.spec.runtimeProfile;
    if c.overrides.Some? && entry in c.overrides.value {
      assert ImageOf(c.task, sandbox, maps, c.overrides.value[entry]);
    } else if c.task.spec.runtimeProfile in {"python3.10", "python3.11"} {
      assert ImageOf(c.task, sandbox, maps, usual);
    }
  }

  /** A complete dispatch without interference to its own objects, from any state of any
      run: it prepares the code map and the policy and makes a pod or a sandbox with the
      code, the image and the labels of its task, unless they are there already. */
  lemma DispatchCreates(w: World, k: Key, turns: seq<Turn>, image: string)
    requires Base(w) && Owned(w.store) && Timely(w, k, turns) && Unbroken(turns, k)
    ensures var w' := Drive(Started(w, k), k, turns);
            && k in w'.store.tasks && k in w'.jobs && w'.jobs[k] == Done(Requeue)
            && var c, o := SceneOf(w.store, k), Present(SceneOf(w'.store, k));
            && Prepares(c, o)
            && (PodWanted(c.task, c.crd) && ImageOf(c.task, false, w.store.maps, image) ==> LeavesPod(c, o, image))
            && (SandboxWanted(c.task, c.crd) && ImageOf(c.task, true, w.store.maps, image) ==> LeavesSandbox(c, o, image))
  {
    var c := SceneOf(w.store, k);
    assert c.task.key == k && c.overrides == OverridesAt(w.store.maps, ProfilesKey(k.ns));
    hide Base, Owned, Drive, Timely, Unbroken, Goal, Present, SceneOf, ImageOf, Prepares, LeavesPod, LeavesSandbox;
    CompleteAttempt(w, k, turns);
    GoalPrepares(c);
    if PodWanted(c.task, c.crd) && ImageOf(c.task, false, w.store.maps, image) {
      GoalLeavesPod(c, w.store.maps, image);
    }
    if SandboxWanted(c.task, c.crd) && ImageOf(c.task, true, w.store.maps, image) {
      GoalLeavesSandbox(c, w.store.maps, image);
    }
  }
}
