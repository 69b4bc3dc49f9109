/** A concrete run: one task, from its create request to the middle of its dispatch. */
module SampleRun {
  import opened Names
  import opened Objects
  import opened Protocol
  import opened ApiServer
  import opened Cluster
  import opened Safety
  import opened Ownership
  import opened Undisturbed

  /** A task with its code in a config map of the user's, on whatever backend there is. */
  const Sample := Spec("python3.11", "", Some("code"), 60, "auto", "", false, None)

  const Name := Key("default", "a")

  /** A cluster with or without the CRD, with the config maps of its users and nothing else. */
  function Fresh(crd: bool, maps: map<Key, ConfigMap>): World {
    World(Store(map[], map[], map[], maps, map[], crd, true, 0, {}), map[], 0, {}, map[], map[])
  }

  ghost predicate UserMaps(maps: map<Key, ConfigMap>) {
    forall i :: i in maps ==> !HasSuffix(i.name, "-code")
  }

  /** Some run with current reads leads from such a cluster to `w`. */
  ghost predicate Reached(w: World, crd: bool, maps: map<Key, ConfigMap>) {
    UserMaps(maps) && exists run :: CurrentReads(run) && Exec(Fresh(crd, maps), run) == w
  }

  lemma StepReached(w: World, a: Action, crd: bool, maps: map<Key, ConfigMap>)
    requires Reached(w, crd, maps) && Current(a)
    ensures Reached(Step(w, a), crd, maps)
  {
    hide Step, HasSuffix;
    var run :| CurrentReads(run) && Exec(Fresh(crd, maps), run) == w;
    ExecLast(Fresh(crd, maps), run, a);
    assert CurrentReads(run + [a]);
  }

  lemma ReachedBase(w: World, crd: bool, maps: map<Key, ConfigMap>)
    requires Reached(w, crd, maps)
    ensures Base(w) && Owned(w.store)
  {
    hide Exec, Base, Owned, HasSuffix;
    var run :| CurrentReads(run) && Exec(Fresh(crd, maps), run) == w;
    FreshIsInitial(crd, maps);
    RunKeepsBase(Fresh(crd, maps), run);
    RunKeepsOwned(Fresh(crd, maps), run);
  }

  lemma FreshIsInitial(crd: bool, maps: map<Key, ConfigMap>)
    requires UserMaps(maps)
    ensures Initial(Fresh(crd, maps)) && Base(Fresh(crd, maps)) && Owned(Fresh(crd, maps).store)
  {
    InitialBase(Fresh(crd, maps));
    hide HasSuffix;
  }

  /** The one task is `t`, its reconcile has come to `j`, if one is in flight, and its
      policy and its pod are or are not there. */
  ghost predicate State(w: World, t: Task, j: Option<Job>, crd: bool, maps: map<Key, ConfigMap>, policy: bool, pod: bool) {
    && Reached(w, crd, maps) && w.clock == 0 && w.store.crd == crd && w.store.maps == maps
    && w.store.tasks == map[Name := t] && t.key == Name && t.spec == Sample && !t.deleting
    && w.jobs == (if j.Some? then map[Name := j.value] else map[]) && w.store.sandboxes == map[]
    && (PolicyKey(Name) in w.store.policies <==> policy) && (PodKey(Name) in w.store.pods <==> pod)
  }

  lemma Arrives(crd: bool, maps: map<Key, ConfigMap>) returns (w: World, t: Task)
    requires UserMaps(maps)
    ensures State(w, t, None, crd, maps, false, false) && Name in w.queue && t.status == EmptyStatus && !t.finalizer
  {
    var d := Draft(Name, Sample);
    var w0 := Fresh(crd, maps);
    var w1 := w0.(drafts := map[0 := d]);
    assert Exec(w0, []) == w0;
    StepReached(w0, Admit(0, d, 0), crd, maps);
    assert Step(w0, Admit(0, d, 0)) == w1;
    StepReached(w1, Commit(0), crd, maps);
    w := CommitStep(w1, 0);
    assert Step(w1, Commit(0)) == w;
    t := w.store.tasks[Name];
  }

  lemma Begins(w: World, t: Task, crd: bool, maps: map<Key, ConfigMap>) returns (w': World)
    requires State(w, t, None, crd, maps, false, false) && Name in w.queue
    ensures State(w', t, Some(Start(t, 0)), crd, maps, false, false)
  {
    StepReached(w, Begin(Name), crd, maps);
    var w1 := Step(w, Begin(Name));
    StepReached(w1, Call(Name, Smooth, View.Live), crd, maps);
    w' := CalmCall(w1, Name);
    CalmFetch(w1, Name);
    hide CallStep, Start, PodKey, PolicyKey, Reached;
  }

  lemma Calls(w: World, t: Task, pc: PC, crd: bool, maps: map<Key, ConfigMap>) returns (w': World)
    requires State(w, t, Some(Work(t, pc)), crd, maps, PolicyKey(Name) in w.store.policies, PodKey(Name) in w.store.pods)
    ensures var e := Respond(w.store, RequestAt(t, pc));
            && Reached(w', crd, maps) && w'.clock == 0 && w'.store == e.store && w'.queue == w.queue + e.events
            && w'.jobs == map[Name := AdvanceAt(t, pc, e.reply, 0)]
  {
    StepReached(w, Call(Name, Smooth, View.Live), crd, maps);
    w' := CalmCall(w, Name);
    CalmWork(w, Name, t, pc);
    hide CallStep, PodKey, PolicyKey, Reached, RequestAt, Respond, AdvanceAt;
  }

  lemma Writes(s: Store, t: Task, pc: PC)
    requires s.tasks == map[Name := t] && t.key == Name && t.spec == Sample && !t.deleting
    requires (pc.AddFinalizer? && !t.finalizer) || (pc.PutPending? && pc.st != t.status)
    ensures Respond(s, RequestAt(t, pc)) ==
            Save(s, if pc.AddFinalizer? then t.(finalizer := true) else t.(status := pc.st))
  {
  }

  lemma Finishes(w: World, t: Task, crd: bool, maps: map<Key, ConfigMap>) returns (w': World)
    requires Name in w.jobs && State(w, t, Some(w.jobs[Name]), crd, maps, false, false) && Name in w.queue
    requires w.jobs[Name] == Done(Settled) || w.jobs[Name] == Done(Result.Requeue)
    ensures State(w', t, None, crd, maps, false, false) && Name in w'.queue
  {
    hide PodKey, PolicyKey, Reached;
    StepReached(w, Finish(Name), crd, maps);
    w' := Step(w, Finish(Name));
  }

  /** A reconcile that makes one write to the task and is requested again by it. */
  lemma Round(w: World, t: Task, pc: PC, crd: bool, maps: map<Key, ConfigMap>) returns (w': World, t': Task)
    requires State(w, t, None, crd, maps, false, false) && Name in w.queue && Start(t, 0) == Work(t, pc)
    requires (pc.AddFinalizer? && !t.finalizer) || (pc.PutPending? && pc.st != t.status)
    ensures State(w', t', None, crd, maps, false, false) && Name in w'.queue
    ensures t' == (if pc.AddFinalizer? then t.(finalizer := true) else t.(status := pc.st)).(version := t'.version)
  {
    var w1 := Begins(w, t, crd, maps);
    Writes(w1.store, t, pc);
    var w2 := Calls(w1, t, pc, crd, maps);
    t' := w2.store.tasks[Name];
    w' := Finishes(w2, t', crd, maps);
    hide Start, Respond, RequestAt, PodKey, PolicyKey, Reached;
  }

  lemma LooksForPolicy(w: World, t: Task, crd: bool, maps: map<Key, ConfigMap>) returns (w': World)
    requires State(w, t, Some(Work(t, LookPolicy("code"))), crd, maps, false, false)
    ensures State(w', t, Some(Work(t, MakePolicy("code"))), crd, maps, false, false)
  {
    w' := Calls(w, t, LookPolicy("code"), crd, maps);
    assert RequestAt(t, LookPolicy("code")) == GetPolicy(PolicyKey(Name));
    hide PolicyKey, PodKey, Reached, RequestAt;
  }

  lemma MakesPolicy(w: World, t: Task, crd: bool, maps: map<Key, ConfigMap>) returns (w': World)
    requires State(w, t, Some(Work(t, MakePolicy("code"))), crd, maps, false, false)
    ensures State(w', t, Some(Work(t, LookCrd("code"))), crd, maps, true, false)
  {
    w' := Calls(w, t, MakePolicy("code"), crd, maps);
    assert RequestAt(t, MakePolicy("code")) == CreatePolicy(PolicyKey(Name), NewPolicy(Name));
    hide PolicyKey, PodKey, Reached, RequestAt;
  }

  /** A run to the look for the CRD. */
  lemma ComesToChoice(crd: bool, maps: map<Key, ConfigMap>) returns (w: World, t: Task)
    requires UserMaps(maps)
    ensures State(w, t, Some(Work(t, LookCrd("code"))), crd, maps, true, false)
    ensures t.finalizer && t.status == PendingStatus(EmptyStatus, 0)
  {
    w, t := Arrives(crd, maps);
    w, t := Round(w, t, AddFinalizer, crd, maps);
    w, t := Round(w, t, PutPending(PendingStatus(t.status, 0)), crd, maps);
    w := Begins(w, t, crd, maps);
    hide Respond, Base, Reached;
    assert Start(t, 0) == Work(t, LookPolicy("code"));
    w := LooksForPolicy(w, t, crd, maps);
    w := MakesPolicy(w, t, crd, maps);
  }

  lemma ChoosesBackend(w: World, t: Task, maps: map<Key, ConfigMap>) returns (w': World)
    requires State(w, t, Some(Work(t, LookCrd("code"))), false, maps, true, false)
    ensures State(w', t, Some(Work(t, LookProfiles("code", PodBackend))), false, maps, true, false)
  {
    w' := Calls(w, t, LookCrd("code"), false, maps);
    hide PolicyKey, PodKey, Reached;
  }

  lemma ChoosesImage(w: World, t: Task) returns (w': World)
    requires State(w, t, Some(Work(t, LookProfiles("code", PodBackend))), false, map[], true, false)
    ensures State(w', t, Some(Work(t, LookPod("code", "python:3.11-slim"))), false, map[], true, false)
  {
    w' := Calls(w, t, LookProfiles("code", PodBackend), false, map[]);
    hide PolicyKey, PodKey, Reached;
  }

  lemma LooksForPod(w: World, t: Task) returns (w': World)
    requires State(w, t, Some(Work(t, LookPod("code", "python:3.11-slim"))), false, map[], true, false)
    ensures State(w', t, Some(Work(t, MakePod("code", "python:3.11-slim"))), false, map[], true, false)
  {
    var pc := LookPod("code", "python:3.11-slim");
    w' := Calls(w, t, pc, false, map[]);
    assert RequestAt(t, pc) == GetPod(PodKey(Name));
    hide PolicyKey, PodKey, Reached, RequestAt;
  }

  lemma MakesPod(w: World, t: Task) returns (w': World)
    requires State(w, t, Some(Work(t, MakePod("code", "python:3.11-slim"))), false, map[], true, false)
    ensures Reached(w', false, map[]) && w'.store.tasks == w.store.tasks && PodKey(Name) in w'.store.pods
  {
    var pc := MakePod("code", "python:3.11-slim");
    w' := Calls(w, t, pc, false, map[]);
    assert RequestAt(t, pc) == CreatePod(PodKey(Name), NewPod(Name, "", "code", "python:3.11-slim"));
    hide PolicyKey, PodKey, Reached, RequestAt, NewPod;
  }

  /** A run without the CRD makes the pod of the sample task before its reference is recorded. */
  lemma PodIsMade() returns (w: World)
    ensures Reached(w, false, map[]) && Base(w)
    ensures Name in w.store.tasks && w.store.tasks[Name].status.phase.Pending? && PodKey(Name) in w.store.pods
  {
    var t: Task;
    w, t := ComesToChoice(false, map[]);
    w := ChoosesBackend(w, t, map[]);
    w := ChoosesImage(w, t);
    w := LooksForPod(w, t);
    w := MakesPod(w, t);
    hide Respond, Base, Reached;
    ReachedBase(w, false, map[]);
  }
}
