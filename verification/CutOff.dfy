/** Attempts with one failed read that are cut off after they made the pod: what a later
    complete attempt leaves, and that runs from a fresh cluster come to this. */
module CutOff {
  import opened Names
  import opened Objects
  import opened Protocol
  import opened Lifecycle
  import opened ApiServer
  import opened Cluster
  import opened Safety
  import opened Ownership
  import opened Undisturbed
  import opened Dispatch
  import opened Attempts
  import opened SampleRun

  const Refused := Turn([], false, Refusal, View.Live)

  const Crashing := Turn([], true, Smooth, View.Live)

  lemma PlainTurn(w: World, k: Key, turn: Turn, later: seq<Turn>)
    requires k in w.jobs && !w.jobs[k].Done? && turn.others == []
    ensures Drive(w, k, [turn] + later) == if turn.crash then CrashStep(w)
                                           else Drive(CallStep(w, k, turn.fault, turn.view), k, later)
  {
    var turns := [turn] + later;
    assert FirstTurn(turns) == turn && LaterTurns(turns) == later;
    assert Interfere(w, k, []) == w;
    hide CallStep, Remaining, Interfere, CrashStep;
  }

  /** The reconcile has come to `pc` without a change to the store. */
  ghost predicate Stands(w: World, s: Store, now: nat, k: Key, t: Task, pc: PC) {
    w.store == s && w.clock == now && k in w.jobs && w.jobs[k] == Work(t, pc)
  }

  lemma ToPodMake(w: World, k: Key, t: Task, code: string, image: string)
    requires k in w.jobs && w.jobs[k] == Work(t, LookPod(code, image)) && PodKey(t.key) !in w.store.pods
    ensures Stands(CalmCall(w, k), w.store, w.clock, k, t, MakePod(code, image))
  {
    hide PodKey;
  }

  lemma ToPod(w: World, k: Key, t: Task, code: string, image: string)
    requires k in w.jobs && w.jobs[k] == Work(t, MakePod(code, image)) && t.key == k
    requires PodKey(k) !in w.store.pods && k in w.store.tasks
    ensures var w' := CalmCall(w, k);
            && w'.clock == w.clock && k in w'.jobs && w'.jobs[k].Work? && k in w'.store.tasks
            && SceneOf(w'.store, k) == SceneOf(w.store, k).(pod := Some(NewPod(k, t.spec.tenant, code, image)))
  {
    PodIsCreated(w.store, t, code, image);
    CalmWork(w, k, t, MakePod(code, image));
    hide CallStep, Respond, RequestAt, SceneOf, PodKey, NewPod;
  }

  lemma CrashKeepsClock(w: World)
    ensures CrashStep(w).store == w.store && CrashStep(w).clock == w.clock
  {
  }

  /** The controller makes the pod with this image and crashes. */
  lemma MadeAndCrashed(w: World, k: Key, t: Task, code: string, image: string)
    requires k in w.jobs && w.jobs[k] == Work(t, LookPod(code, image)) && t.key == k
    requires PodKey(k) !in w.store.pods && k in w.store.tasks
    ensures var w' := Drive(w, k, [Calm] + ([Calm] + ([Crashing] + [])));
            && w'.clock == w.clock && k in w'.store.tasks
            && SceneOf(w'.store, k) == SceneOf(w.store, k).(pod := Some(NewPod(k, t.spec.tenant, code, image)))
  {
    hide Drive, CallStep, CrashStep, PodKey, SceneOf;
    ToPodMake(w, k, t, code, image);
    PlainTurn(w, k, Calm, [Calm] + ([Crashing] + []));
    var w1 := CalmCall(w, k);
    ToPod(w1, k, t, code, image);
    PlainTurn(w1, k, Calm, [Crashing] + []);
    var w2 := CalmCall(w1, k);
    PlainTurn(w2, k, Crashing, []);
    CrashKeepsClock(w2);
  }

  // ---- A failed look for the CRD -------------------------------------------------------------

  /** An automatic dispatch about to look for the CRD, which is there, with neither a
      pod nor a sandbox yet. */
  ghost predicate AboutToChoose(w: World, k: Key) {
    && InDispatch(w, k) && w.jobs[k].pc.LookCrd?
    && var c := SceneOf(w.store, k);
    && c.crd && (c.task.spec.backend == "" || c.task.spec.backend == "auto")
    && c.pod.None? && c.sandbox.None? && Resolves(c, PodBackend) && Resolves(c, SandboxBackend)
    && Dispatching(c.task) && !TimedOut(c.task, w.clock)
  }

  /** Its look fails, and it is cut off right after it made the pod. */
  const CrdCut := [Refused] + ([Calm] + ([Calm] + ([Calm] + ([Crashing] + []))))

  lemma ToProfiles(w: World, k: Key)
    requires AboutToChoose(w, k)
    ensures Stands(CallStep(w, k, Refusal, View.Live), w.store, w.clock, k, w.jobs[k].seen,
                   LookProfiles(w.jobs[k].pc.code, PodBackend))
  {
    hide Fits, ResolveImage, Dispatching, TimedOut;
  }

  lemma ToPodLook(w: World, k: Key, t: Task, code: string, image: string)
    requires k in w.jobs && w.jobs[k] == Work(t, LookProfiles(code, PodBackend))
    requires ResolveImage(t.spec.runtimeProfile, PodBackend, OverridesAt(w.store.maps, ProfilesKey(t.key.ns))) == Some(image)
    ensures Stands(CalmCall(w, k), w.store, w.clock, k, t, LookPod(code, image))
  {
    hide ResolveImage, ProfilesKey;
  }

  lemma CrdCutLeavesPod(w: World, k: Key)
    requires AboutToChoose(w, k)
    ensures var w' := Drive(w, k, CrdCut);
            && k in w'.store.tasks && w'.clock == w.clock
            && SceneOf(w'.store, k).pod.Some?
            && SceneOf(w'.store, k) == SceneOf(w.store, k).(pod := SceneOf(w'.store, k).pod)
  {
    var t, code := w.jobs[k].seen, w.jobs[k].pc.code;
    var image := ResolveImage(t.spec.runtimeProfile, PodBackend, SceneOf(w.store, k).overrides).value;
    assert PodKey(k) !in w.store.pods;
    ToProfiles(w, k);
    hide Drive, CallStep, CrashStep, Fits, ResolveImage, SceneOf, PodKey, ProfilesKey, SelectBackend, Dispatching, TimedOut;
    PlainTurn(w, k, Refused, [Calm] + ([Calm] + ([Calm] + ([Crashing] + []))));
    var w1 := CallStep(w, k, Refusal, View.Live);
    assert SceneOf(w.store, k).overrides == OverridesAt(w.store.maps, ProfilesKey(k.ns)) by { SceneOverrides(w.store, k); }
    ToPodLook(w1, k, t, code, image);
    PlainTurn(w1, k, Calm, [Calm] + ([Calm] + ([Crashing] + [])));
    MadeAndCrashed(CalmCall(w1, k), k, t, code, image);
  }

  lemma SceneOverrides(s: Store, k: Key)
    requires k in s.tasks
    ensures SceneOf(s, k).overrides == OverridesAt(s.maps, ProfilesKey(k.ns))
  {
  }

  /** After that attempt a complete one leaves a pod and a sandbox, where an uninterrupted
      one leaves the sandbox alone. */
  lemma FailedLookLeavesBoth(w: World, k: Key)
    requires Base(w) && Owned(w.store) && AboutToChoose(w, k)
    ensures var w' := Drive(w, k, CrdCut);
            var end, once := Reconciled(w', k).store, Reconciled(w, k).store;
            && k in end.tasks && k in once.tasks
            && PodKey(k) in end.pods && SandboxKey(k) in end.sandboxes
            && PodKey(k) !in once.pods && SandboxKey(k) in once.sandboxes
  {
    hide Drive, Base, Owned, Fits, ResolveImage, PodKey, SandboxKey, Dispatching, TimedOut;
    var w' := Drive(w, k, CrdCut);
    CrdCutLeavesPod(w, k);
    DriveKeepsBoth(w, k, CrdCut);
    CalmIsTimely(w, k);
    CalmIsTimely(w', k);
    CalmIsUnbroken(w, k);
    CompleteAttempt(w, k, []);
    CompleteAttempt(w', k, []);
  }

  /** Some run from a cluster with the CRD comes to this. */
  lemma FailedLookCanLeaveBoth()
    ensures exists w :: Reached(w, true, map[]) && Name in w.store.tasks
              && PodKey(Name) !in Reconciled(w, Name).store.pods
              && PodKey(Name) in Reconciled(Drive(w, Name, CrdCut), Name).store.pods
              && SandboxKey(Name) in Reconciled(Drive(w, Name, CrdCut), Name).store.sandboxes
  {
    var w, t := ComesToChoice(true, map[]);
    SampleChooses(w, t);
    hide Drive, Base, Owned, Reached, AboutToChoose, CrdCut;
    ReachedBase(w, true, map[]);
    FailedLookLeavesBoth(w, Name);
  }

  lemma SampleChooses(w: World, t: Task)
    requires State(w, t, Some(Work(t, LookCrd("code"))), true, map[], true, false)
    requires t.finalizer && t.status == PendingStatus(EmptyStatus, 0)
    ensures AboutToChoose(w, Name)
  {
    hide Reached, PodKey, PolicyKey, CodeKey, SandboxKey, ProfilesKey, Goal;
  }

  // ---- A failed read of the profile map --------------------------------------------------------

  /** A dispatch to a pod about to read the profile map, which gives it an image other than
      the default one, with no pod yet. */
  ghost predicate AboutToResolve(w: World, k: Key, usual: string, image: string) {
    && InDispatch(w, k) && w.jobs[k].pc.LookProfiles? && w.jobs[k].pc.backend.PodBackend?
    && var c := SceneOf(w.store, k);
    && c.pod.None? && usual != image
    && ResolveImage(c.task.spec.runtimeProfile, PodBackend, None) == Some(usual)
    && ResolveImage(c.task.spec.runtimeProfile, PodBackend, c.overrides) == Some(image)
    && Dispatching(c.task) && !TimedOut(c.task, w.clock)
  }

  const ProfilesCut := [Refused] + ([Calm] + ([Calm] + ([Crashing] + [])))

  lemma ToUsualPodLook(w: World, k: Key, usual: string, image: string)
    requires AboutToResolve(w, k, usual, image)
    ensures Stands(CallStep(w, k, Refusal, View.Live), w.store, w.clock, k, w.jobs[k].seen, LookPod(w.jobs[k].pc.code, usual))
  {
    hide Fits, ResolveImage, Dispatching, TimedOut;
  }

  lemma ProfilesCutLeavesPod(w: World, k: Key, usual: string, image: string)
    requires AboutToResolve(w, k, usual, image)
    ensures var w' := Drive(w, k, ProfilesCut);
            && k in w'.store.tasks && w'.clock == w.clock
            && SceneOf(w'.store, k).pod.Some? && SceneOf(w'.store, k).pod.value.image == usual
            && SceneOf(w'.store, k) == SceneOf(w.store, k).(pod := SceneOf(w'.store, k).pod)
  {
    assert PodKey(k) !in w.store.pods;
    hide Drive, CallStep, CrashStep, Fits, ResolveImage, SceneOf, PodKey, Dispatching, TimedOut;
    ToUsualPodLook(w, k, usual, image);
    PlainTurn(w, k, Refused, [Calm] + ([Calm] + ([Crashing] + [])));
    MadeAndCrashed(CallStep(w, k, Refusal, View.Live), k, w.jobs[k].seen, w.jobs[k].pc.code, usual);
  }

  /** With the pod backend and an image the goal has a pod: the one that is there, or a
      new one with that image. */
  lemma GoalHasPod(c: Scene, code: string, usual: string, image: string)
    requires Fits(c, LookProfiles(code, PodBackend)) && c.pod.None?
    requires ResolveImage(c.task.spec.runtimeProfile, PodBackend, c.overrides) == Some(image)
    ensures Goal(c).pod.Some? && Goal(c).pod.value.image == image
    ensures forall p :: Goal(c.(pod := Some(p))).pod == Some(p)
  {
    hide ResolveImage, SelectBackend, PodKey, SandboxKey, CodeKey, NewSandbox, NewCodeMap, NewPolicy;
  }

  lemma PresentPod(s: Store, k: Key)
    requires k in s.tasks && Present(SceneOf(s, k)).pod.Some?
    ensures PodKey(k) in s.pods && s.pods[PodKey(k)].image == Present(SceneOf(s, k)).pod.value.image
  {
  }

  /** After that attempt a complete one leaves the pod with the default image, where an
      uninterrupted one makes it with the image of the map. */
  lemma FailedReadKeepsUsualImage(w: World, k: Key, usual: string, image: string)
    requires Base(w) && Owned(w.store) && AboutToResolve(w, k, usual, image)
    ensures var w' := Drive(w, k, ProfilesCut);
            var end, once := Reconciled(w', k).store, Reconciled(w, k).store;
            && k in end.tasks && k in once.tasks && PodKey(k) in end.pods && PodKey(k) in once.pods
            && end.pods[PodKey(k)].image == usual && once.pods[PodKey(k)].image == image
  {
    var c, code := SceneOf(w.store, k), w.jobs[k].pc.code;
    assert Fits(c, LookProfiles(code, PodBackend));
    GoalHasPod(c, code, usual, image);
    hide Drive, Base, Owned, Fits, ResolveImage, PodKey, SceneOf, Dispatching, TimedOut, Goal, Present, Started;
    var w' := Drive(w, k, ProfilesCut);
    SceneTask(w.store, k);
    ProfilesCutLeavesPod(w, k, usual, image);
    SceneTask(w'.store, k);
    DriveKeepsBoth(w, k, ProfilesCut);
    CalmIsTimely(w, k);
    CalmIsTimely(w', k);
    CalmIsUnbroken(w, k);
    CompleteAttempt(w, k, []);
    CompleteAttempt(w', k, []);
    PresentPod(Reconciled(w, k).store, k);
    PresentPod(Reconciled(w', k).store, k);
  }

  lemma SceneTask(s: Store, k: Key)
    requires k in s.tasks
    ensures SceneOf(s, k).task == s.tasks[k]
  {
  }

  /** A profile map that gives the sample task's profile an image of its own. */
  const Overriding := map[ProfilesKey(Name.ns) := ConfigMap(None, map["python3.11" := "mirror/python:3.11"])]

  /** Some run without the CRD comes to this. */
  lemma FailedReadCanKeepUsualImage()
    ensures exists w :: Reached(w, false, Overriding) && Name in w.store.tasks
              && PodKey(Name) in Reconciled(w, Name).store.pods
              && Reconciled(w, Name).store.pods[PodKey(Name)].image == "mirror/python:3.11"
              && PodKey(Name) in Reconciled(Drive(w, Name, ProfilesCut), Name).store.pods
              && Reconciled(Drive(w, Name, ProfilesCut), Name).store.pods[PodKey(Name)].image == "python:3.11-slim"
  {
    OverridingIsUsers();
    var w, t := ComesToChoice(false, Overriding);
    w := ChoosesBackend(w, t, Overriding);
    SampleResolves(w, t);
    hide Drive, Base, Owned, Reached, AboutToResolve, ProfilesCut;
    ReachedBase(w, false, Overriding);
    FailedReadKeepsUsualImage(w, Name, "python:3.11-slim", "mirror/python:3.11");
  }

  lemma OverridingIsUsers()
    ensures UserMaps(Overriding)
  {
    var p := ProfilesKey(Name.ns).name;
    assert p[|p| - 5..][4] == 's' && "-code"[4] == 'e';
  }

  lemma SampleResolves(w: World, t: Task)
    requires State(w, t, Some(Work(t, LookProfiles("code", PodBackend))), false, Overriding, true, false)
    requires t.finalizer && t.status == PendingStatus(EmptyStatus, 0)
    ensures AboutToResolve(w, Name, "python:3.11-slim", "mirror/python:3.11")
  {
    hide Reached, PodKey, PolicyKey, CodeKey, SandboxKey;
  }
}
