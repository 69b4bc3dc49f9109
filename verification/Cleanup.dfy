/** Runs whose reads are current: what holds between a reconcile in flight and the
    store, and what becomes of pods, policies and code maps. */
module Cleanup {
  import opened Names
  import opened Objects
  import opened Webhook
  import opened Protocol
  import opened Lifecycle
  import opened ApiServer
  import opened Cluster
  import opened Safety
  import opened Transitions
  import opened Ownership

  // ---- A reconcile in flight has the task to itself --------------------------------

  /** The task read with its finalizer stays, and until the reconcile has committed a
      status the stored one is the one that was read. */
  ghost predicate Attached(s: Store, k: Key, j: Job) {
    j.Work? && j.seen.finalizer ==>
      && Alive(s, k, j.seen.uid) && s.tasks[k].finalizer
      && (j.seen.deleting ==> s.tasks[k].deleting)
      && (s.guarded ==> s.tasks[k].spec.source == j.seen.spec.source)
      && (if j.pc.FinishDelete?
          then s.tasks[k].status.podRef == j.seen.status.podRef && Terminal(s.tasks[k].status.phase)
          else s.tasks[k].status == j.seen.status)
  }

  ghost predicate AllAttached(w: World) {
    forall k :: k in w.jobs ==> Attached(w.store, k, w.jobs[k])
  }

  /** A step other than the task's own reconcile neither removes a task with a
      finalizer nor writes its status. */
  lemma OthersKeep(w: World, a: Action, k: Key)
    requires Base(w) && k in w.store.tasks && !(a.Call? && a.key == k)
    ensures w.store.tasks[k].finalizer ==> k in Step(w, a).store.tasks
    ensures k in Step(w, a).store.tasks ==> Step(w, a).store.tasks[k].status == w.store.tasks[k].status
  {
    hide Step, RecordOk, JobSound;
    if Enabled(w, a) && a.Call? {
      StepWrites(w, a);
      OtherCallKeeps(w, a.key, a.fault, a.view, k);
    } else if a.Outside? {
      OutsideKeeps(w, a.change, k);
    } else {
      QueueKeeps(w, a, k);
    }
  }

  lemma OutsideKeeps(w: World, c: Change, k: Key)
    requires Base(w) && k in w.store.tasks
    ensures var s' := Step(w, Outside(c)).store;
            && (w.store.tasks[k].finalizer ==> k in s'.tasks)
            && (k in s'.tasks ==> s'.tasks[k].status == w.store.tasks[k].status)
  {
    hide Perform, RecordOk, JobSound;
    PerformKeepsStatus(w.store, c, k);
  }

  lemma QueueKeeps(w: World, a: Action, k: Key)
    requires k in w.store.tasks && (!Enabled(w, a) || (!a.Call? && !a.Outside?))
    ensures k in Step(w, a).store.tasks && Step(w, a).store.tasks[k] == w.store.tasks[k]
  {
  }

  lemma OtherCallKeeps(w: World, i: Key, fault: Fault, view: View, k: Key)
    requires Base(w) && i in w.jobs && !w.jobs[i].Done? && i != k
    ensures SameOthers(w.store, CallStep(w, i, fault, view).store, i)
  {
    hide Respond, RequestOf, Recorded, JobOk;
    assert JobSound(w.store, i, w.jobs[i], w.clock);
    Footprint(w.store, i, w.jobs[i]);
  }

  lemma EditKeepsStatus(s: Store, i: Key, spec: Spec, k: Key)
    requires k in s.tasks && (i in s.tasks ==> s.tasks[i].key == i)
    ensures var s' := EditSpec(s, i, spec).store; k in s'.tasks && s'.tasks[k].status == s.tasks[k].status
  {
    hide ValidateUpdate;
  }

  lemma CondemnKeepsStatus(s: Store, i: Key, k: Key)
    requires k in s.tasks && (i in s.tasks ==> s.tasks[i].key == i)
    ensures var s' := Condemn(s, i).store;
            && (s.tasks[k].finalizer ==> k in s'.tasks)
            && (k in s'.tasks ==> s'.tasks[k].status == s.tasks[k].status)
  {
  }

  lemma PerformKeepsStatus(s: Store, c: Change, k: Key)
    requires k in s.tasks && forall i :: i in s.tasks ==> s.tasks[i].key == i
    ensures s.tasks[k].finalizer ==> k in Perform(s, c).store.tasks
    ensures k in Perform(s, c).store.tasks ==> Perform(s, c).store.tasks[k].status == s.tasks[k].status
  {
    hide EditSpec, Condemn, HasSuffix;
    if c.Edit? {
      EditKeepsStatus(s, c.key, c.spec, k);
    } else if c.Remove? {
      CondemnKeepsStatus(s, c.key, k);
    }
  }

  lemma OthersKeepAttached(w: World, a: Action, k: Key)
    requires Base(w) && k in w.jobs && Attached(w.store, k, w.jobs[k]) && !(a.Call? && a.key == k)
    ensures Attached(Step(w, a).store, k, w.jobs[k])
  {
    hide Step, Legal, JobOk, RecordOk;
    var j := w.jobs[k];
    if j.Work? && j.seen.finalizer {
      OthersKeep(w, a, k);
      StepEvolves(w, a);
      StepKeepsBase(w, a);
      assert Evolves(w.store.guarded, w.store.tasks[k], Step(w, a).store.tasks[k], w.clock);
    }
  }

  /** The reconcile's own request, served from the store. */
  lemma OwnCallKeepsAttached(w: World, k: Key, fault: Fault)
    requires Base(w) && k in w.jobs && !w.jobs[k].Done? && Attached(w.store, k, w.jobs[k])
    ensures var w' := CallStep(w, k, fault, Live);
            Attached(w'.store, k, w'.jobs[k])
  {
    var j, w' := w.jobs[k], CallStep(w, k, fault, Live);
    assert JobSound(w.store, k, j, w.clock);
    match j
    case Fetch => FetchAttaches(w, k, fault);
    case Work(t, pc) =>
      if w'.jobs[k].Work? {
        AdvanceOk(t, pc, Serve(w.store, RequestAt(t, pc), fault, Live).reply, w.clock);
        if pc.PutFinished? {
          FinishAttaches(w, k, fault);
        } else {
          ContinueAttaches(w, k, fault);
        }
      }
  }

  lemma FetchAttaches(w: World, k: Key, fault: Fault)
    requires Base(w) && k in w.jobs && w.jobs[k].Fetch?
    ensures var w' := CallStep(w, k, fault, Live);
            Attached(w'.store, k, w'.jobs[k])
  {
    hide JobOk, Legal, JobSound;
    if k in w.store.tasks {
      assert Sound(w.store.guarded, w.store.tasks[k], w.clock);
      StartOk(w.store.tasks[k], w.clock);
    }
  }

  lemma FinishAttaches(w: World, k: Key, fault: Fault)
    requires Base(w) && k in w.jobs && w.jobs[k].Work? && w.jobs[k].pc.PutFinished?
    requires Attached(w.store, k, w.jobs[k]) && CallStep(w, k, fault, Live).jobs[k].Work?
    ensures var w' := CallStep(w, k, fault, Live);
            Attached(w'.store, k, w'.jobs[k])
  {
    assert JobSound(w.store, k, w.jobs[k], w.clock);
    VersionMatch(w.store, w.jobs[k].seen);
  }

  /** Only the requests that end the reconcile write to its task. */
  lemma ContinueAttaches(w: World, k: Key, fault: Fault)
    requires Base(w) && k in w.jobs && w.jobs[k].Work? && !w.jobs[k].pc.PutFinished?
    requires Attached(w.store, k, w.jobs[k]) && CallStep(w, k, fault, Live).jobs[k].Work?
    ensures var w' := CallStep(w, k, fault, Live);
            w'.store.tasks == w.store.tasks && w'.jobs[k].seen == w.jobs[k].seen && !w'.jobs[k].pc.FinishDelete?
            && w'.store.guarded == w.store.guarded
  {
    assert JobSound(w.store, k, w.jobs[k], w.clock);
    ContinuingRequests(w.jobs[k].seen, w.jobs[k].pc, Serve(w.store, RequestOf(k, w.jobs[k]), fault, Live).reply, w.clock);
    hide Respond, RequestAt, AdvanceAt, JobOk;
    ObjectWriteKeepsTasks(w.store, RequestOf(k, w.jobs[k]));
    Footprint(w.store, k, w.jobs[k]);
  }

  lemma ContinuingRequests(t: Task, pc: PC, r: Reply, now: nat)
    requires !pc.PutFinished?
    ensures var j, q := AdvanceAt(t, pc, r, now), RequestAt(t, pc);
            j.Work? ==> j.seen == t && !j.pc.FinishDelete? && !q.PutTask? && !q.PutStatus? && !q.DeleteTask?
  {
  }

  lemma StepKeepsAttached(w: World, a: Action)
    requires Base(w) && AllAttached(w) && Current(a)
    ensures AllAttached(Step(w, a))
  {
    hide Attached, CallStep, FinishStep, Perform;
    var w' := Step(w, a);
    forall k | k in w'.jobs
      ensures Attached(w'.store, k, w'.jobs[k])
    {
      if !Enabled(w, a) {
      } else if a.Begin? && a.key == k {
        FetchIsAttached(w'.store, k);
      } else if a.Call? && a.key == k {
        OwnCallKeepsAttached(w, k, a.fault);
      } else {
        StepKeepsJob(w, a, k);
        OthersKeepAttached(w, a, k);
      }
    }
  }

  lemma FetchIsAttached(s: Store, k: Key)
    ensures Attached(s, k, Fetch)
  {
  }

  lemma StepKeepsJob(w: World, a: Action, k: Key)
    requires k in Step(w, a).jobs
    requires !(Enabled(w, a) && a.Begin? && a.key == k) && !(Enabled(w, a) && a.Call? && a.key == k)
    ensures k in w.jobs && Step(w, a).jobs[k] == w.jobs[k]
  {
  }

  // ---- Pods ----------------------------------------------------------------------

  /** The pod named by the task's reference is gone. */
  ghost predicate RefGone(s: Store, r: PodRef) {
    r.Ref? && RefKey(r) !in s.pods
  }

  lemma MakesForPending(t: Task, pc: PC, now: nat)
    requires JobOk(t, pc, now) && RecordOk(t, now) && pc.MakePod?
    ensures Dispatching(t) && t.status.podRef.NoRef?
  {
  }

  /** Only the dispatch of a pending task creates a pod, and only under its own name. */
  lemma NewPodOrigin(w: World, a: Action, p: Key)
    requires Base(w) && p in Step(w, a).store.pods && p !in w.store.pods
    ensures a.Call? && Enabled(w, a) && p == PodKey(a.key)
    ensures w.jobs[a.key].Work? && w.jobs[a.key].pc.MakePod? && w.jobs[a.key].seen.key == a.key
    ensures Dispatching(w.jobs[a.key].seen) && w.jobs[a.key].seen.status.podRef.NoRef?
    ensures Step(w, a).store.pods[p].owner == a.key
  {
    hide Step, CallStep, Respond, RequestOf, PodKey, NewPod, RecordOk, JobOk;
    PodsChangeBy(w, a);
    if a.Call? {
      StepWrites(w, a);
      CallWrites(w, a.key, a.fault, a.view);
      var j := w.jobs[a.key];
      assert JobSound(w.store, a.key, j, w.clock);
      Footprint(w.store, a.key, j);
      assert Sound(w.store.guarded, j.seen, w.clock);
      MakesForPending(j.seen, j.pc, w.clock);
      NewPodOwner(a.key);
    } else if a.Outside? {
      PerformAddsNoPod(w.store, a.change);
    }
  }

  lemma PodsChangeBy(w: World, a: Action)
    ensures Step(w, a).store.pods != w.store.pods ==> Enabled(w, a) && (a.Call? || a.Outside?)
    ensures a.Outside? ==> Step(w, a).store == Perform(w.store, a.change).store
  {
    hide Perform, CallStep;
  }

  lemma NewPodOwner(k: Key)
    ensures forall tenant, code, image :: NewPod(k, tenant, code, image).owner == k
  {
  }

  lemma EditKeepsPods(s: Store, k: Key, spec: Spec)
    ensures EditSpec(s, k, spec).store.pods == s.pods
  {
    hide ValidateUpdate;
  }

  lemma CondemnKeepsPods(s: Store, k: Key)
    ensures Condemn(s, k).store.pods == s.pods
  {
  }

  lemma PerformAddsNoPod(s: Store, c: Change)
    ensures Perform(s, c).store.pods.Keys <= s.pods.Keys
    ensures forall p :: p in Perform(s, c).store.pods ==> Perform(s, c).store.pods[p].owner == s.pods[p].owner
  {
    hide EditSpec, Condemn, HasSuffix;
    match c
    case Edit(k, spec) => EditKeepsPods(s, k, spec);
    case Remove(k) => CondemnKeepsPods(s, k);
    case PodReports(_, _, _) =>
    case PodVanishes(_) =>
    case _ => OtherChangeKeepsPods(s, c);
  }

  lemma OtherChangeKeepsPods(s: Store, c: Change)
    requires c.EditMap? || c.Sweep? || c.SetCrd?
    ensures Perform(s, c).store.pods == s.pods
  {
    hide HasSuffix, CodeKey, PolicyKey, SandboxKey;
  }

  /** Once the referenced pod is gone it stays gone as long as the task is stored. */
  lemma RefStaysGone(w: World, a: Action, k: Key)
    requires Base(w) && AllAttached(w) && k in w.store.tasks && RefGone(w.store, w.store.tasks[k].status.podRef)
    ensures RefGone(Step(w, a).store, w.store.tasks[k].status.podRef)
  {
    hide Step, Attached;
    var ref := w.store.tasks[k].status.podRef;
    if RefKey(ref) in Step(w, a).store.pods {
      assert Sound(w.store.guarded, w.store.tasks[k], w.clock);
      NewPodOrigin(w, a, RefKey(ref));
      SandboxIsNoPod(k, a.key);
      DerivedNamesInjective(k, a.key);
      PendingHasNoRef(w, k);
    }
  }

  lemma PendingHasNoRef(w: World, k: Key)
    requires Base(w) && AllAttached(w) && k in w.store.tasks
    requires k in w.jobs && w.jobs[k].Work? && w.jobs[k].pc.MakePod?
    ensures w.store.tasks[k].status.podRef.NoRef?
  {
    assert JobSound(w.store, k, w.jobs[k], w.clock);
    assert Sound(w.store.guarded, w.jobs[k].seen, w.clock);
    assert Attached(w.store, k, w.jobs[k]);
  }

  /** A reconcile that is about to record a cancellation or to release a deleted task
      has seen to its pod. */
  ghost predicate CleanJob(s: Store, j: Job) {
    j.Work? && (j.pc.PutCanceled? || j.pc.DropFinalizer?) && j.seen.status.podRef.Ref? ==>
      RefGone(s, j.seen.status.podRef)
  }

  ghost predicate Clean(w: World) {
    && (forall k :: k in w.store.tasks && w.store.tasks[k].status.phase.Canceled? && w.store.tasks[k].status.podRef.Ref? ==>
          RefGone(w.store, w.store.tasks[k].status.podRef))
    && (forall k :: k in w.jobs ==> CleanJob(w.store, w.jobs[k]))
  }

  lemma OwnCallIsClean(w: World, k: Key, fault: Fault)
    requires Base(w) && k in w.jobs && !w.jobs[k].Done?
    ensures var w' := CallStep(w, k, fault, Live);
            CleanJob(w'.store, w'.jobs[k])
  {
    var j := w.jobs[k];
    match j
    case Fetch => FetchIsCleanCall(w, k, fault);
    case Work(t, pc) =>
      hide Respond, RequestAt, AdvanceAt, Base;
      if DeletePC(pc) || LookPC(pc) {
        CleanUpRequest(w, k, fault);
      } else {
        NoCleanUpAfter(t, pc, Serve(w.store, RequestAt(t, pc), fault, Live).reply, w.clock);
      }
  }

  lemma FetchIsCleanCall(w: World, k: Key, fault: Fault)
    requires k in w.jobs && w.jobs[k].Fetch?
    ensures var w' := CallStep(w, k, fault, Live); CleanJob(w'.store, w'.jobs[k])
  {
    hide TimedOut;
  }

  lemma NoCleanUpAfter(t: Task, pc: PC, r: Reply, now: nat)
    requires !DeletePC(pc) && !LookPC(pc)
    ensures var j := AdvanceAt(t, pc, r, now);
            j.Work? ==> !j.pc.PutCanceled? && !j.pc.DropFinalizer?
  {
  }

  lemma CleanUpRequest(w: World, k: Key, fault: Fault)
    requires k in w.jobs && w.jobs[k].Work? && (DeletePC(w.jobs[k].pc) || LookPC(w.jobs[k].pc))
    ensures var w' := CallStep(w, k, fault, Live);
            CleanJob(w'.store, w'.jobs[k])
  {
    var t, pc := w.jobs[k].seen, w.jobs[k].pc;
    var ref := t.status.podRef;
    if DeletePC(pc) {
      assert RequestAt(t, pc) == DeletePod(RefKey(ref));
    } else if pc.FinalizeLook? || pc.CancelLook? {
      assert RequestAt(t, pc) == GetPod(RefKey(ref));
    } else {
      hide Respond, RequestAt;
      LooksElsewhere(t, pc, Serve(w.store, RequestAt(t, pc), fault, Live).reply, w.clock);
    }
  }

  lemma LooksElsewhere(t: Task, pc: PC, r: Reply, now: nat)
    requires LookPC(pc) && !pc.FinalizeLook? && !pc.CancelLook?
    ensures var j := AdvanceAt(t, pc, r, now);
            j.Work? ==> !j.pc.PutCanceled? && !j.pc.DropFinalizer?
  {
  }

  lemma CanceledByPut(t: Task, pc: PC, now: nat)
    requires StatusPC(pc) && JobOk(t, pc, now)
    ensures pc.st.phase.Canceled? ==> pc.PutCanceled? && pc.st.podRef == t.status.podRef
  {
  }

  /** Every committed status is written by the task's own reconcile, after what it read. */
  lemma CommittedBy(w: World, a: Action, k: Key)
    requires Base(w) && k in w.store.tasks && k in Step(w, a).store.tasks
    requires Step(w, a).store.tasks[k].status != w.store.tasks[k].status
    ensures a.Call? && a.key == k && Enabled(w, a)
    ensures w.jobs[k].Work? && StatusPC(w.jobs[k].pc) && w.jobs[k].seen == w.store.tasks[k]
    ensures Step(w, a).store.tasks[k].status == w.jobs[k].pc.st
    ensures Step(w, a).store.pods == w.store.pods
  {
    if a.Call? && a.key == k && Enabled(w, a) {
      StepWrites(w, a);
      hide Step, Respond, RequestAt, AdvanceAt, Recorded, RecordOk;
      var j := w.jobs[k];
      assert JobSound(w.store, k, j, w.clock);
      if j.Work? {
        VersionMatchOrSame(w.store, j.seen, j.pc);
      }
    } else {
      hide Step;
      OthersKeep(w, a, k);
    }
  }

  /** The commit of a cancellation. */
  lemma CanceledBy(w: World, a: Action, k: Key)
    requires Base(w) && k in w.store.tasks && k in Step(w, a).store.tasks
    requires Step(w, a).store.tasks[k].status != w.store.tasks[k].status
    requires Step(w, a).store.tasks[k].status.phase.Canceled?
    ensures a.Call? && a.key == k && Enabled(w, a)
    ensures w.jobs[k].Work? && w.jobs[k].pc.PutCanceled? && w.jobs[k].seen == w.store.tasks[k]
    ensures Step(w, a).store.pods == w.store.pods
    ensures Step(w, a).store.tasks[k].status.podRef == w.store.tasks[k].status.podRef
  {
    hide Step, JobOk, RecordOk;
    CommittedBy(w, a, k);
    assert JobSound(w.store, k, w.jobs[k], w.clock);
    CanceledByPut(w.jobs[k].seen, w.jobs[k].pc, w.clock);
  }

  lemma VersionMatchOrSame(s: Store, t: Task, pc: PC)
    requires History(s) && t in s.past && t.key in s.tasks
    ensures var s' := Respond(s, RequestAt(t, pc)).store;
            t.key in s'.tasks && s'.tasks[t.key].status != s.tasks[t.key].status ==>
              StatusPC(pc) && s.tasks[t.key] == t && s'.tasks[t.key].status == pc.st && s'.pods == s.pods
  {
    if StatusPC(pc) {
      hide Respond, RequestAt;
      StatusRequest(s, t, pc);
      if s.tasks[t.key].version == t.version {
        VersionMatch(s, t);
      }
    } else {
      OtherRequestKeepsStatus(s, t, pc);
    }
  }

  lemma StatusRequest(s: Store, t: Task, pc: PC)
    requires StatusPC(pc)
    ensures Respond(s, RequestAt(t, pc)) == ReplaceStatus(s, t.key, t.version, pc.st)
  {
    assert RequestAt(t, pc) == PutStatus(t.key, t.version, pc.st);
    hide RequestAt, ReplaceStatus;
  }

  lemma OtherRequestKeepsStatus(s: Store, t: Task, pc: PC)
    requires !StatusPC(pc) && t.key in s.tasks && s.tasks[t.key].key == t.key
    ensures var s' := Respond(s, RequestAt(t, pc)).store;
            t.key in s'.tasks ==> s'.tasks[t.key].status == s.tasks[t.key].status
  {
    hide ValidateUpdate;
  }

  lemma StepKeepsClean(w: World, a: Action)
    requires Base(w) && AllAttached(w) && Clean(w) && Current(a)
    ensures Clean(Step(w, a))
  {
    hide Base, AllAttached, CallStep, FinishStep, Perform, CleanJob;
    var w' := Step(w, a);
    forall k | k in w'.store.tasks && w'.store.tasks[k].status.phase.Canceled? && w'.store.tasks[k].status.podRef.Ref?
      ensures RefGone(w'.store, w'.store.tasks[k].status.podRef)
    {
      CanceledStaysClean(w, a, k);
    }
    forall k | k in w'.jobs
      ensures CleanJob(w'.store, w'.jobs[k])
    {
      if !Enabled(w, a) {
      } else if a.Begin? && a.key == k {
        FetchIsClean(w'.store);
      } else if a.Call? && a.key == k {
        OwnCallIsClean(w, k, a.fault);
      } else {
        StepKeepsJob(w, a, k);
        JobStaysClean(w, a, k);
      }
    }
  }

  lemma FetchIsClean(s: Store)
    ensures CleanJob(s, Fetch)
  {
  }

  lemma CanceledStaysClean(w: World, a: Action, k: Key)
    requires Base(w) && AllAttached(w) && Clean(w)
    requires k in Step(w, a).store.tasks && Step(w, a).store.tasks[k].status.phase.Canceled?
    requires Step(w, a).store.tasks[k].status.podRef.Ref?
    ensures RefGone(Step(w, a).store, Step(w, a).store.tasks[k].status.podRef)
  {
    hide Step, AllAttached, JobOk, Legal, RecordOk;
    StepEvolves(w, a);
    if Step(w, a).store.tasks[k].status == w.store.tasks[k].status {
      RefStaysGone(w, a, k);
    } else {
      CanceledBy(w, a, k);
      assert CleanJob(w.store, w.jobs[k]);
    }
  }

  lemma JobStaysClean(w: World, a: Action, k: Key)
    requires Base(w) && AllAttached(w) && Clean(w) && k in w.jobs
    ensures CleanJob(Step(w, a).store, w.jobs[k])
  {
    hide Step, RecordOk, Legal;
    var j := w.jobs[k];
    if j.Work? && (j.pc.PutCanceled? || j.pc.DropFinalizer?) && j.seen.status.podRef.Ref? {
      assert JobSound(w.store, k, j, w.clock);
      assert Attached(w.store, k, j);
      assert CleanJob(w.store, j);
      RefStaysGone(w, a, k);
    }
  }
}
