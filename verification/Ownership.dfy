/** Which objects one reconcile can touch, and that tasks do not interfere. */
module Ownership {
  import opened Names
  import opened Objects
  import opened Webhook
  import opened Protocol
  import opened Lifecycle
  import opened ApiServer
  import opened Cluster
  import opened Safety

  /** Derived objects sit under the names derived from their owner and have the
      content the controller gave them. */
  ghost predicate Owned(s: Store) {
    && (forall p :: p in s.pods ==> p == PodKey(s.pods[p].owner)
                                    && TaskLabel in s.pods[p].labels && s.pods[p].labels[TaskLabel] == s.pods[p].owner.name)
    && (forall q :: q in s.policies ==> q == PolicyKey(s.policies[q].owner) && s.policies[q] == NewPolicy(s.policies[q].owner))
    && (forall b :: b in s.sandboxes ==> b == SandboxKey(s.sandboxes[b].owner))
    && (forall c :: c in s.maps && HasSuffix(c.name, "-code") ==> s.maps[c].owner.Some? && c == CodeKey(s.maps[c].owner.value))
  }

  lemma NoPodThere(s: Store, k: Key)
    requires Owned(s)
    ensures SandboxKey(k) !in s.pods
  {
    if SandboxKey(k) in s.pods {
      SandboxIsNoPod(k, s.pods[SandboxKey(k)].owner);
    }
  }

  // ---- The footprint of a request -------------------------------------------------

  ghost predicate DeletePC(pc: PC) {
    pc.FinalizeDelete? || pc.CancelDelete? || pc.TimeoutDelete? || pc.FinishDelete?
  }

  /** The only changes to pods: one deletion under the task's reference, or one creation
      under the task's pod name. */
  ghost predicate PodFootprint(s: Store, s': Store, k: Key, j: Job) {
    || s'.pods == s.pods
    || (j.Work? && DeletePC(j.pc) && s'.pods == s.pods - {RefKey(j.seen.status.podRef)})
    || (j.Work? && j.pc.MakePod? && PodKey(k) !in s.pods
        && s'.pods == s.pods[PodKey(k) := NewPod(k, j.seen.spec.tenant, j.pc.code, j.pc.image)])
  }

  ghost predicate ObjectFootprint(s: Store, s': Store, k: Key, j: Job) {
    && (s'.policies == s.policies
        || (j.Work? && j.pc.MakePolicy? && PolicyKey(k) !in s.policies
            && s'.policies == s.policies[PolicyKey(k) := NewPolicy(k)]))
    && (s'.maps == s.maps
        || (j.Work? && j.pc.MakeCode? && CodeKey(k) !in s.maps
            && s'.maps == s.maps[CodeKey(k) := NewCodeMap(k, j.seen.spec.source)]))
    && (s'.sandboxes == s.sandboxes
        || (j.Work? && j.pc.MakeSandbox? && SandboxKey(k) !in s.sandboxes
            && s'.sandboxes == s.sandboxes[SandboxKey(k) := NewSandbox(k, j.pc.image)]))
    && s'.crd == s.crd && s'.guarded == s.guarded
  }

  /** Only the task `k` changed. */
  ghost predicate SameOthers(s: Store, s': Store, k: Key) {
    forall i :: i != k ==> (i in s.tasks <==> i in s'.tasks) && (i in s.tasks ==> s'.tasks[i] == s.tasks[i])
  }

  ghost predicate OnlyTask(s: Store, s': Store, k: Key) {
    && SameOthers(s, s', k)
    && s'.pods == s.pods && s'.policies == s.policies && s'.maps == s.maps && s'.sandboxes == s.sandboxes
    && s'.crd == s.crd && s'.guarded == s.guarded
  }

  lemma SaveTouches(s: Store, t: Task)
    ensures OnlyTask(s, Save(s, t).store, t.key)
  {
  }

  lemma DropTouches(s: Store, k: Key)
    ensures OnlyTask(s, Drop(s, k).store, k)
  {
  }

  lemma ReplaceTouches(s: Store, k: Key, version: nat, spec: Spec, finalizer: bool, st: Status)
    requires k in s.tasks ==> s.tasks[k].key == k
    ensures OnlyTask(s, ReplaceTask(s, k, version, spec, finalizer).store, k)
    ensures OnlyTask(s, ReplaceStatus(s, k, version, st).store, k)
  {
    hide Save, Drop, ValidateUpdate;
    DropTouches(s, k);
    if k in s.tasks {
      SaveTouches(s, s.tasks[k].(spec := spec, finalizer := finalizer));
      SaveTouches(s, s.tasks[k].(status := st));
    }
  }

  lemma CondemnTouches(s: Store, k: Key)
    requires k in s.tasks ==> s.tasks[k].key == k
    ensures OnlyTask(s, Condemn(s, k).store, k)
  {
    hide Save, Drop;
    DropTouches(s, k);
    if k in s.tasks {
      SaveTouches(s, s.tasks[k].(deleting := true));
    }
  }

  lemma EditTouches(s: Store, k: Key, spec: Spec)
    requires k in s.tasks ==> s.tasks[k].key == k
    ensures OnlyTask(s, EditSpec(s, k, spec).store, k)
  {
    hide Save, ValidateUpdate;
    if k in s.tasks {
      SaveTouches(s, s.tasks[k].(spec := spec));
    }
  }

  ghost predicate LookPC(pc: PC) {
    || pc.FinalizeLook? || pc.CancelLook? || pc.TimeoutLook? || pc.LookCode? || pc.LookPolicy? || pc.LookCrd?
    || pc.LookProfiles? || pc.LookSandbox? || pc.LookPod? || pc.LookScheduled? || pc.LookRunning?
  }

  ghost predicate Read(q: Request) {
    q.GetTask? || q.GetPod? || q.GetMap? || q.GetPolicy? || q.GetSandbox? || q.GetSandboxCrd?
  }

  lemma LookRequest(t: Task, pc: PC)
    requires LookPC(pc)
    ensures Read(RequestAt(t, pc))
  {
    hide RefKey, PodKey, CodeKey, PolicyKey, SandboxKey, ProfilesKey, NewPod, NewCodeMap, NewPolicy, NewSandbox;
  }

  lemma ReadsChangeNothing(s: Store, q: Request)
    requires Read(q)
    ensures Respond(s, q).store == s && Respond(s, q).events == {}
  {
    hide Lookup;
  }

  lemma LookupChangesNothing(s: Store, t: Task, pc: PC)
    requires LookPC(pc)
    ensures Respond(s, RequestAt(t, pc)).store == s && Respond(s, RequestAt(t, pc)).events == {}
  {
    hide Respond, RequestAt;
    LookRequest(t, pc);
    ReadsChangeNothing(s, RequestAt(t, pc));
  }

  lemma DeleteFootprint(s: Store, k: Key, j: Job)
    requires j.Work? && j.seen.key == k && DeletePC(j.pc)
    ensures var s' := Respond(s, RequestOf(k, j)).store;
            s'.tasks == s.tasks && PodFootprint(s, s', k, j) && ObjectFootprint(s, s', k, j)
  {
    hide RefKey;
    assert RequestOf(k, j) == DeletePod(RefKey(j.seen.status.podRef));
  }

  /** One create-if-absent and nothing else. */
  ghost predicate CreatesOnly(s: Store, k: Key, j: Job)
    requires !j.Done?
  {
    var s' := Respond(s, RequestOf(k, j)).store;
    s'.tasks == s.tasks && PodFootprint(s, s', k, j) && ObjectFootprint(s, s', k, j)
  }

  lemma MakesPodFootprint(s: Store, k: Key, j: Job)
    requires j.Work? && j.seen.key == k && j.pc.MakePod?
    ensures CreatesOnly(s, k, j)
  {
    assert RequestOf(k, j) == CreatePod(PodKey(k), NewPod(k, j.seen.spec.tenant, j.pc.code, j.pc.image));
    hide RequestOf, PodKey, SandboxKey, CodeKey, PolicyKey, RefKey, NewPod, NewSandbox, NewCodeMap, NewPolicy;
  }

  lemma MakesSandboxFootprint(s: Store, k: Key, j: Job)
    requires j.Work? && j.seen.key == k && j.pc.MakeSandbox?
    ensures CreatesOnly(s, k, j)
  {
    assert RequestOf(k, j) == CreateSandbox(SandboxKey(k), NewSandbox(k, j.pc.image));
    hide RequestOf, PodKey, SandboxKey, CodeKey, PolicyKey, RefKey, NewPod, NewSandbox, NewCodeMap, NewPolicy;
  }

  lemma MakesCodeFootprint(s: Store, k: Key, j: Job)
    requires j.Work? && j.seen.key == k && j.pc.MakeCode?
    ensures CreatesOnly(s, k, j)
  {
    assert RequestOf(k, j) == CreateMap(CodeKey(k), NewCodeMap(k, j.seen.spec.source));
    hide RequestOf, PodKey, SandboxKey, CodeKey, PolicyKey, RefKey, NewPod, NewSandbox, NewCodeMap, NewPolicy;
  }

  lemma MakesPolicyFootprint(s: Store, k: Key, j: Job)
    requires j.Work? && j.seen.key == k && j.pc.MakePolicy?
    ensures CreatesOnly(s, k, j)
  {
    assert RequestOf(k, j) == CreatePolicy(PolicyKey(k), NewPolicy(k));
    hide RequestOf, PodKey, SandboxKey, CodeKey, PolicyKey, RefKey, NewPod, NewSandbox, NewCodeMap, NewPolicy;
  }

  lemma CreateFootprint(s: Store, k: Key, j: Job)
    requires j.Work? && j.seen.key == k
    requires j.pc.MakePod? || j.pc.MakeCode? || j.pc.MakePolicy? || j.pc.MakeSandbox?
    ensures CreatesOnly(s, k, j)
  {
    hide CreatesOnly;
    match j.pc
    case MakePod(_, _) => MakesPodFootprint(s, k, j);
    case MakeSandbox(_) => MakesSandboxFootprint(s, k, j);
    case MakeCode => MakesCodeFootprint(s, k, j);
    case MakePolicy(_) => MakesPolicyFootprint(s, k, j);
  }

  lemma TaskWriteFootprint(s: Store, k: Key, j: Job)
    requires j.Work? && j.seen.key == k && (k in s.tasks ==> s.tasks[k].key == k)
    requires StatusPC(j.pc) || j.pc.AddFinalizer? || j.pc.DropFinalizer? || j.pc.ExpireTask?
    ensures OnlyTask(s, Respond(s, RequestOf(k, j)).store, k)
  {
    hide ReplaceTask, ReplaceStatus, Condemn, OnlyTask;
    CondemnTouches(s, k);
    ReplaceTouches(s, k, j.seen.version, j.seen.spec, j.pc.AddFinalizer?, if StatusPC(j.pc) then j.pc.st else EmptyStatus);
  }

  lemma Footprint(s: Store, k: Key, j: Job)
    requires !j.Done? && (j.Work? ==> j.seen.key == k)
    requires k in s.tasks ==> s.tasks[k].key == k
    ensures var s' := Respond(s, RequestOf(k, j)).store;
            SameOthers(s, s', k) && PodFootprint(s, s', k, j) && ObjectFootprint(s, s', k, j)
  {
    if j.Work? {
      hide Respond, RequestAt;
      if LookPC(j.pc) {
        LookupChangesNothing(s, j.seen, j.pc);
      } else if DeletePC(j.pc) {
        DeleteFootprint(s, k, j);
      } else if StatusPC(j.pc) || j.pc.AddFinalizer? || j.pc.DropFinalizer? || j.pc.ExpireTask? {
        TaskWriteFootprint(s, k, j);
      } else {
        CreateFootprint(s, k, j);
      }
    }
  }

  // ---- Ownership is kept ---------------------------------------------------------------

  lemma FootprintKeepsOwned(s: Store, s': Store, k: Key, j: Job)
    requires Owned(s) && PodFootprint(s, s', k, j) && ObjectFootprint(s, s', k, j)
    ensures Owned(s')
  {
  }

  lemma OtherChangeKeepsOwned(s: Store, c: Change)
    requires Owned(s) && !c.Edit? && !c.Remove?
    ensures Owned(Perform(s, c).store)
  {
    hide HasSuffix, PodKey, CodeKey, SandboxKey, PolicyKey, NewPolicy;
  }

  lemma PerformKeepsOwned(s: Store, c: Change)
    requires Owned(s) && forall k :: k in s.tasks ==> s.tasks[k].key == k
    ensures Owned(Perform(s, c).store)
  {
    match c
    case Edit(k, spec) => EditTouches(s, k, spec); hide EditSpec, SameOthers, HasSuffix;
    case Remove(k) => CondemnTouches(s, k); hide Condemn, SameOthers, HasSuffix;
    case _ => OtherChangeKeepsOwned(s, c);
  }

  lemma StepKeepsOwned(w: World, a: Action)
    requires Base(w) && Owned(w.store)
    ensures Owned(Step(w, a).store)
  {
    StepWrites(w, a);
    if a.Call? && Enabled(w, a) {
      assert JobSound(w.store, a.key, w.jobs[a.key], w.clock);
      hide Step, CallStep, Owned, Respond, RequestOf, JobOk, RecordOk, PodFootprint, ObjectFootprint, SameOthers;
      CallWrites(w, a.key, a.fault, a.view);
      Footprint(w.store, a.key, w.jobs[a.key]);
      FootprintKeepsOwned(w.store, Respond(w.store, RequestOf(a.key, w.jobs[a.key])).store, a.key, w.jobs[a.key]);
    } else {
      hide Step, Perform, CallStep, JobSound, RecordOk;
      if a.Outside? {
        PerformKeepsOwned(w.store, a.change);
      }
    }
  }

  lemma {:induction false} RunKeepsOwned(w: World, run: seq<Action>)
    requires Base(w) && Owned(w.store)
    ensures Owned(Exec(w, run).store)
    decreases |run|
  {
    if run != [] {
      StepKeepsOwned(w, run[0]);
      StepKeepsBase(w, run[0]);
      RunKeepsOwned(Step(w, run[0]), run[1..]);
    }
  }

  // ---- Tasks do not interfere --------------------------------------------------------

  /** Everything that belongs to the task `k`. */
  ghost predicate SameBelongings(s: Store, s': Store, k: Key) {
    && (k in s.tasks <==> k in s'.tasks) && (k in s.tasks ==> s'.tasks[k] == s.tasks[k])
    && SamePods(s, s', k) && SameObjects(s, s', k)
  }

  ghost predicate SamePods(s: Store, s': Store, k: Key) {
    && (forall p :: p in s.pods && s.pods[p].owner == k ==> p in s'.pods && s'.pods[p] == s.pods[p])
    && (forall p :: p in s'.pods && s'.pods[p].owner == k ==> p in s.pods)
  }

  ghost predicate SameObjects(s: Store, s': Store, k: Key) {
    && (SandboxKey(k) in s.sandboxes <==> SandboxKey(k) in s'.sandboxes)
    && (SandboxKey(k) in s.sandboxes ==> s'.sandboxes[SandboxKey(k)] == s.sandboxes[SandboxKey(k)])
    && (PolicyKey(k) in s.policies <==> PolicyKey(k) in s'.policies)
    && (PolicyKey(k) in s.policies ==> s'.policies[PolicyKey(k)] == s.policies[PolicyKey(k)])
    && (CodeKey(k) in s.maps <==> CodeKey(k) in s'.maps)
    && (CodeKey(k) in s.maps ==> s'.maps[CodeKey(k)] == s.maps[CodeKey(k)])
  }

  /** The pod a reconcile may delete is its own task's. */
  lemma DeletesOwnPod(k: Key, j: Job, now: nat)
    requires j.Work? && j.seen.key == k && JobOk(j.seen, j.pc, now) && RecordOk(j.seen, now) && DeletePC(j.pc)
    ensures OwnRef(k, j.seen.status.podRef)
  {
  }

  /** One request of the reconcile of one task leaves every other task, with its pods
      and other objects, as it was, out-of-date reads and lost replies included. */
  lemma NoInterference(w: World, k: Key, fault: Fault, view: View, other: Key)
    requires Base(w) && Owned(w.store) && k in w.jobs && !w.jobs[k].Done? && other != k
    ensures SameBelongings(w.store, CallStep(w, k, fault, view).store, other)
  {
    var s, j := w.store, w.jobs[k];
    assert JobSound(s, k, j, w.clock);
    Footprint(s, k, j);
    if j.Work? && DeletePC(j.pc) {
      assert Sound(s.guarded, j.seen, w.clock);
      DeletesOwnPod(k, j, w.clock);
    }
    FootprintKeepsOthers(s, Respond(s, RequestOf(k, j)).store, k, j, other);
  }

  lemma FootprintKeepsOthers(s: Store, s': Store, k: Key, j: Job, other: Key)
    requires Owned(s) && SameOthers(s, s', k) && PodFootprint(s, s', k, j) && ObjectFootprint(s, s', k, j) && other != k
    requires j.Work? && DeletePC(j.pc) ==> OwnRef(k, j.seen.status.podRef)
    ensures SameBelongings(s, s', other)
  {
    hide SamePods, SameObjects;
    FootprintKeepsPods(s, s', k, j, other);
    FootprintKeepsObjects(s, s', k, j, other);
  }

  lemma FootprintKeepsPods(s: Store, s': Store, k: Key, j: Job, other: Key)
    requires Owned(s) && PodFootprint(s, s', k, j) && other != k
    requires j.Work? && DeletePC(j.pc) ==> OwnRef(k, j.seen.status.podRef)
    ensures SamePods(s, s', other)
  {
    if PodKey(other) == PodKey(k) {
      DerivedNamesInjective(other, k);
    }
    SandboxIsNoPod(k, other);
    hide PodKey, SandboxKey, CodeKey, PolicyKey, NewPolicy;
  }

  lemma FootprintKeepsObjects(s: Store, s': Store, k: Key, j: Job, other: Key)
    requires ObjectFootprint(s, s', k, j) && other != k
    ensures SameObjects(s, s', other)
  {
    if SandboxKey(other) == SandboxKey(k) || CodeKey(other) == CodeKey(k) || PolicyKey(other) == PolicyKey(k) {
      DerivedNamesInjective(other, k);
    }
    hide PodKey, SandboxKey, CodeKey, PolicyKey, NewPolicy;
  }

  /** In every reachable state, whatever a request of the reconcile of one task does, it
      leaves every other task and all that belongs to it as it was. */
  lemma TasksDoNotInterfere(w0: World, run: seq<Action>, a: Action, other: Key)
    requires Initial(w0) && a.Call? && a.key != other
    ensures SameBelongings(Exec(w0, run).store, Exec(w0, run + [a]).store, other)
  {
    var w := Exec(w0, run);
    InitialBase(w0);
    assert Owned(w0.store);
    ExecLast(w0, run, a);
    hide Exec, Base, Owned, CallStep;
    RunKeepsBase(w0, run);
    RunKeepsOwned(w0, run);
    if Enabled(w, a) {
      NoInterference(w, a.key, a.fault, a.view, other);
    }
  }
}
