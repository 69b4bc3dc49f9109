/** No lost wakeup: a task that is neither queued nor being reconciled needs nothing. */
module Wakeup {
  import opened Names
  import opened Objects
  import opened Scan
  import opened Webhook
  import opened Protocol
  import opened Lifecycle
  import opened ApiServer
  import opened Cluster
  import opened Safety
  import opened Transitions
  import opened Ownership
  import opened Guarantees
  import opened Undisturbed

  ghost predicate QuietPod(s: Store, t: Task) {
    && IsPodRef(t.status.podRef) && RefKey(t.status.podRef) in s.pods
    && var p := s.pods[RefKey(t.status.podRef)];
       if t.status.phase.Scheduled? then p.phase.PodUnknown? || (p.phase.PodPending? && !AnyPullFailing(p.containers))
       else RunningVerdict(p).Undecided?
  }

  /** Apart from the clock there is nothing to do for the task. */
  ghost predicate QuietTask(s: Store, t: Task) {
    && InService(t)
    && if t.spec.canceled then t.status.phase.Succeeded? || t.status.phase.Failed? || t.status.phase.Canceled?
       else || Terminal(t.status.phase)
            || (t.status.phase.Running? && IsSandboxRef(t.status.podRef))
            || ((t.status.phase.Scheduled? || t.status.phase.Running?) && QuietPod(s, t))
  }

  /** A reconcile in flight that will leave the task queued or quiet. */
  ghost predicate JobWakes(s: Store, k: Key, j: Job)
    requires k in s.tasks
  {
    match j
    case Fetch => true
    case Work(t, pc) => t == s.tasks[k] && !pc.FinishDelete?
    case Done(r) => r.Requeue? || r.Error? || QuietTask(s, s.tasks[k])
  }

  ghost predicate Attended(w: World, k: Key)
    requires k in w.store.tasks
  {
    || k in w.queue
    || (k in w.jobs && JobWakes(w.store, k, w.jobs[k]))
    || (k !in w.jobs && QuietTask(w.store, w.store.tasks[k]))
  }

  ghost predicate AllAttended(w: World) {
    forall k :: k in w.store.tasks ==> Attended(w, k)
  }

  // ---- Events reach the queue -------------------------------------------------------

  /** Nothing that concerns the task `k` changed. */
  ghost predicate Untouched(s: Store, s': Store, k: Key) {
    && (k in s.tasks <==> k in s'.tasks) && (k in s.tasks ==> s'.tasks[k] == s.tasks[k])
    && (PodKey(k) in s.pods <==> PodKey(k) in s'.pods)
    && (PodKey(k) in s.pods ==> s'.pods[PodKey(k)] == s.pods[PodKey(k)])
  }

  lemma PodOwner(s: Store, k: Key)
    requires Owned(s) && PodKey(k) in s.pods
    ensures s.pods[PodKey(k)].owner == k
  {
    DerivedNamesInjective(s.pods[PodKey(k)].owner, k);
  }

  /** A change of one task notifies that task. */
  lemma TaskChangeNotifies(s: Store, e: Effect, i: Key, k: Key)
    requires OnlyTask(s, e.store, i) && (e.store == s || i in e.events)
    ensures k in e.events || Untouched(s, e.store, k)
  {
    hide PodKey;
  }

  lemma PodChangeNotifies(s: Store, e: Effect, p: Key, k: Key)
    requires Owned(s) && e.store.tasks == s.tasks
    requires e.store.pods - {p} == s.pods - {p}
    requires e.store == s || (if p in s.pods then s.pods[p].owner in e.events else p == PodKey(k) ==> k in e.events)
    ensures k in e.events || Untouched(s, e.store, k)
  {
    if PodKey(k) in s.pods {
      PodOwner(s, k);
    }
    hide PodKey, Owned;
    if p != PodKey(k) {
      assert PodKey(k) in s.pods <==> PodKey(k) in s.pods - {p};
      assert PodKey(k) in e.store.pods <==> PodKey(k) in e.store.pods - {p};
      assert PodKey(k) in s.pods ==> (s.pods - {p})[PodKey(k)] == s.pods[PodKey(k)];
    }
  }

  /** The watches on tasks and owned pods: a change that concerns a task requests its reconcile. */
  lemma PerformNotifies(s: Store, c: Change, k: Key)
    requires Owned(s) && forall i :: i in s.tasks ==> s.tasks[i].key == i
    ensures k in Perform(s, c).events || Untouched(s, Perform(s, c).store, k)
  {
    hide Untouched, Owned, EditSpec, Condemn, RemovePod, HasSuffix;
    match c
    case Edit(i, spec) => EditNotifies(s, i, spec, k);
    case Remove(i) => CondemnNotifies(s, i, k);
    case PodReports(_, _, _) => PodReportNotifies(s, c, k);
    case PodVanishes(i) => PodDeletionNotifies(s, i, k);
    case _ => OtherChangeNotifies(s, c, k);
  }

  lemma EditNotifies(s: Store, i: Key, spec: Spec, k: Key)
    requires i in s.tasks ==> s.tasks[i].key == i
    ensures var e := EditSpec(s, i, spec); k in e.events || Untouched(s, e.store, k)
  {
    hide Untouched, OnlyTask, ValidateUpdate;
    EditTouches(s, i, spec);
    TaskChangeNotifies(s, EditSpec(s, i, spec), i, k);
  }

  lemma CondemnNotifies(s: Store, i: Key, k: Key)
    requires i in s.tasks ==> s.tasks[i].key == i
    ensures var e := Condemn(s, i); k in e.events || Untouched(s, e.store, k)
  {
    hide Untouched, OnlyTask;
    CondemnTouches(s, i);
    TaskChangeNotifies(s, Condemn(s, i), i, k);
  }

  lemma PodReportNotifies(s: Store, c: Change, k: Key)
    requires Owned(s) && c.PodReports?
    ensures var e := Perform(s, c); k in e.events || Untouched(s, e.store, k)
  {
    hide PodKey, Owned, Untouched;
    PodChangeNotifies(s, Perform(s, c), c.key, k);
  }

  lemma OtherChangeNotifies(s: Store, c: Change, k: Key)
    requires c.EditMap? || c.Sweep? || c.SetCrd?
    ensures Untouched(s, Perform(s, c).store, k)
  {
    hide PodKey, SandboxKey, CodeKey, PolicyKey, HasSuffix;
    assert Perform(s, c).store.tasks == s.tasks && Perform(s, c).store.pods == s.pods;
    hide Perform;
  }

  lemma TaskRequestNotifies(s: Store, q: Request, k: Key)
    requires q.PutTask? || q.PutStatus? || q.DeleteTask?
    requires forall i :: i in s.tasks ==> s.tasks[i].key == i
    ensures k in Respond(s, q).events || Untouched(s, Respond(s, q).store, k)
  {
    hide ValidateUpdate, Untouched, OnlyTask;
    match q
    case PutTask(i, version, spec, finalizer) =>
      ReplaceTouches(s, i, version, spec, finalizer, EmptyStatus);
      TaskChangeNotifies(s, ReplaceTask(s, i, version, spec, finalizer), i, k);
    case PutStatus(i, version, st) =>
      ReplaceTouches(s, i, version, Spec("", "", None, 0, "", "", false, None), false, st);
      TaskChangeNotifies(s, ReplaceStatus(s, i, version, st), i, k);
    case DeleteTask(i) => CondemnNotifies(s, i, k);
  }

  lemma PodRequestNotifies(s: Store, q: Request, k: Key)
    requires Owned(s) && (q.DeletePod? || (q.CreatePod? && q.key == PodKey(q.pod.owner)))
    ensures k in Respond(s, q).events || Untouched(s, Respond(s, q).store, k)
  {
    hide PodKey, Owned, Untouched, RemovePod, WritePod;
    if q.CreatePod? {
      PodCreationNotifies(s, q.pod, k);
    } else {
      PodDeletionNotifies(s, q.key, k);
    }
  }

  lemma PodCreationNotifies(s: Store, p: Pod, k: Key)
    requires Owned(s)
    ensures var e := Respond(s, CreatePod(PodKey(p.owner), p)); k in e.events || Untouched(s, e.store, k)
  {
    if PodKey(p.owner) == PodKey(k) {
      DerivedNamesInjective(p.owner, k);
    }
    hide PodKey, Owned, Untouched;
    var q := CreatePod(PodKey(p.owner), p);
    assert Respond(s, q) == if q.key in s.pods then Nothing(s, AlreadyExists) else WritePod(s, q.key, p);
    PodChangeNotifies(s, Respond(s, q), q.key, k);
  }

  lemma PodDeletionNotifies(s: Store, i: Key, k: Key)
    requires Owned(s)
    ensures var e := RemovePod(s, i); k in e.events || Untouched(s, e.store, k)
  {
    hide PodKey, Owned, Untouched;
    PodChangeNotifies(s, RemovePod(s, i), i, k);
  }

  lemma OtherRequestNotifies(s: Store, q: Request, k: Key)
    requires !q.PutTask? && !q.PutStatus? && !q.DeleteTask? && !q.CreatePod? && !q.DeletePod?
    ensures Untouched(s, Respond(s, q).store, k)
  {
    hide PodKey;
  }

  lemma RespondNotifies(s: Store, q: Request, k: Key)
    requires Owned(s) && forall i :: i in s.tasks ==> s.tasks[i].key == i
    requires q.CreatePod? ==> q.key == PodKey(q.pod.owner)
    ensures k in Respond(s, q).events || Untouched(s, Respond(s, q).store, k)
  {
    hide Respond, Untouched, Owned, PodKey;
    if q.PutTask? || q.PutStatus? || q.DeleteTask? {
      TaskRequestNotifies(s, q, k);
    } else if q.CreatePod? || q.DeletePod? {
      PodRequestNotifies(s, q, k);
    } else {
      OtherRequestNotifies(s, q, k);
    }
  }

  // ---- Every task stays attended -----------------------------------------------------

  /** Quietness depends only on the task and its pod. */
  lemma QuietUntouched(s: Store, s': Store, k: Key, now: nat)
    requires Untouched(s, s', k) && k in s.tasks && s.tasks[k].key == k && RecordOk(s.tasks[k], now)
    requires QuietTask(s, s.tasks[k])
    ensures QuietTask(s', s'.tasks[k])
  {
  }

  lemma UntouchedStaysAttended(w: World, w': World, k: Key)
    requires Base(w) && k in w.store.tasks && Attended(w, k) && Untouched(w.store, w'.store, k)
    requires (k in w.queue ==> k in w'.queue) && (k in w.jobs <==> k in w'.jobs) && (k in w.jobs ==> w'.jobs[k] == w.jobs[k])
    ensures Attended(w', k)
  {
    hide QuietTask, RecordOk, JobSound;
    assert Sound(w.store.guarded, w.store.tasks[k], w.clock);
    if QuietTask(w.store, w.store.tasks[k]) {
      QuietUntouched(w.store, w'.store, k, w.clock);
    }
  }

  /** A settled reconcile of the stored task found nothing to do. */
  lemma StartLeavesQuiet(s: Store, t: Task, now: nat)
    requires RecordOk(t, now)
    ensures var j := Start(t, now);
            j.Done? ==> !j.result.Requeue? && !j.result.Error? && QuietTask(s, t)
    ensures var j := Start(t, now);
            j.Work? ==> !j.pc.FinishDelete? && j.seen == t
  {
    hide QuietPod;
  }

  /** The reconcile of an unqueued task: its request either changes the task, which
      queues it, or leaves the task in the reconcile's hands or quiet. */
  lemma OwnCallWakes(w: World, k: Key, fault: Fault)
    requires Base(w) && Owned(w.store) && k in w.store.tasks
    requires k in w.jobs && !w.jobs[k].Done? && (k in w.queue || JobWakes(w.store, k, w.jobs[k]))
    ensures var w' := CallStep(w, k, fault, Live);
            k in w'.store.tasks ==> Attended(w', k)
  {
    var j, w' := w.jobs[k], CallStep(w, k, fault, Live);
    assert JobSound(w.store, k, j, w.clock);
    assert Sound(w.store.guarded, w.store.tasks[k], w.clock);
    if k !in w'.queue {
      match j
      case Fetch => FetchWakes(w, k, fault);
      case Work(t, pc) => WorkWakes(w, k, fault);
    }
  }

  lemma FetchWakes(w: World, k: Key, fault: Fault)
    requires Base(w) && k in w.store.tasks && k in w.jobs && w.jobs[k].Fetch?
    ensures var w' := CallStep(w, k, fault, Live);
            w'.store == w.store && JobWakes(w'.store, k, w'.jobs[k])
  {
    hide QuietTask, RecordOk, JobSound, Start;
    assert Sound(w.store.guarded, w.store.tasks[k], w.clock);
    StartLeavesQuiet(w.store, w.store.tasks[k], w.clock);
  }

  lemma WorkWakes(w: World, k: Key, fault: Fault)
    requires Base(w) && Owned(w.store) && k in w.store.tasks
    requires k in w.jobs && w.jobs[k].Work? && JobWakes(w.store, k, w.jobs[k])
    requires k !in CallStep(w, k, fault, Live).queue
    ensures var w' := CallStep(w, k, fault, Live);
            k in w'.store.tasks ==> JobWakes(w'.store, k, w'.jobs[k])
  {
    hide QuietTask, RecordOk, JobOk, Respond, RequestAt, AdvanceAt, Owned, PodKey;
    var t, pc := w.jobs[k].seen, w.jobs[k].pc;
    var e := Serve(w.store, RequestAt(t, pc), fault, Live);
    assert JobSound(w.store, k, w.jobs[k], w.clock);
    assert Sound(w.store.guarded, t, w.clock);
    CreatesOwnPod(t, pc);
    RespondNotifies(w.store, RequestAt(t, pc), k);
    if fault.Smooth? {
      SettledIsQuiet(w.store, t, pc, w.clock);
    } else {
      UnavailableIsError(t, pc, w.clock);
    }
    KeepsSeen(t, pc, e.reply, w.clock);
  }

  lemma CreatesOwnPod(t: Task, pc: PC)
    ensures var q := RequestAt(t, pc);
            q.CreatePod? ==> q.key == PodKey(q.pod.owner)
  {
  }

  lemma KeepsSeen(t: Task, pc: PC, r: Reply, now: nat)
    ensures var j := AdvanceAt(t, pc, r, now);
            j.Work? ==> j.seen == t && (j.pc.FinishDelete? ==> pc.PutFinished? && r.Ok?)
  {
  }

  lemma UnavailableIsError(t: Task, pc: PC, now: nat)
    ensures var j := AdvanceAt(t, pc, Unavailable, now);
            j.Done? ==> j.result.Error?
  {
  }

  /** Served without an event, a request that ends the reconcile for good leaves a quiet task. */
  lemma SettledIsQuiet(s: Store, t: Task, pc: PC, now: nat)
    requires History(s) && t.key in s.tasks && s.tasks[t.key] == t && RecordOk(t, now) && JobOk(t, pc, now)
    requires !pc.FinishDelete? && (s.guarded ==> ValidateSpec(t.spec).Allowed?)
    requires t.key !in Respond(s, RequestAt(t, pc)).events
    ensures var j := AdvanceAt(t, pc, Respond(s, RequestAt(t, pc)).reply, now);
            && (j.Done? ==> j.result.Requeue? || j.result.Error? || QuietTask(Respond(s, RequestAt(t, pc)).store, t))
            && !(j.Work? && j.pc.FinishDelete?)
  {
    if StatusPC(pc) {
      SettledStatus(s, t, pc, now);
    } else if pc.LookScheduled? || pc.LookRunning? {
    } else {
      SettledElsewhere(s, t, pc, now);
    }
  }

  lemma SettledStatus(s: Store, t: Task, pc: PC, now: nat)
    requires t.key in s.tasks && s.tasks[t.key] == t && JobOk(t, pc, now) && StatusPC(pc)
    requires t.key !in Respond(s, RequestAt(t, pc)).events
    ensures Respond(s, RequestAt(t, pc)).store == s
    ensures pc.PutTimeout? && t.status.phase.Timeout? && QuietTask(s, t)
  {
    hide RequestAt;
    StatusJob(t, pc, now);
  }

  lemma SettledElsewhere(s: Store, t: Task, pc: PC, now: nat)
    requires History(s) && t.key in s.tasks && s.tasks[t.key] == t && RecordOk(t, now) && JobOk(t, pc, now)
    requires !pc.FinishDelete? && !StatusPC(pc) && !pc.LookScheduled? && !pc.LookRunning?
    requires s.guarded ==> ValidateSpec(t.spec).Allowed?
    requires t.key !in Respond(s, RequestAt(t, pc)).events
    ensures var j := AdvanceAt(t, pc, Respond(s, RequestAt(t, pc)).reply, now);
            && (j.Done? ==> j.result.Error?)
            && !(j.Work? && j.pc.FinishDelete?)
  {
    if pc.AddFinalizer? || pc.DropFinalizer? || pc.ExpireTask? {
      TaskWriteNotifies(s, t, pc, now);
    } else {
      hide Respond, RequestAt;
      DeadEnd(t, pc, Respond(s, RequestAt(t, pc)).reply, now);
    }
  }

  lemma TaskWriteNotifies(s: Store, t: Task, pc: PC, now: nat)
    requires t.key in s.tasks && s.tasks[t.key] == t && JobOk(t, pc, now)
    requires pc.AddFinalizer? || pc.DropFinalizer? || pc.ExpireTask?
    requires s.guarded ==> ValidateSpec(t.spec).Allowed?
    ensures t.key in Respond(s, RequestAt(t, pc)).events
  {
  }

  /** Elsewhere only an error ends the reconcile. */
  lemma DeadEnd(t: Task, pc: PC, r: Reply, now: nat)
    requires !pc.FinishDelete? && !StatusPC(pc) && !pc.LookScheduled? && !pc.LookRunning?
    requires !pc.AddFinalizer? && !pc.DropFinalizer? && !pc.ExpireTask?
    ensures var j := AdvanceAt(t, pc, r, now);
            && (j.Done? ==> j.result.Error?)
            && !(j.Work? && j.pc.FinishDelete?)
  {
    hide ResolveImage, SelectBackend;
  }

  lemma TaskStaysAttended(w: World, a: Action, k: Key)
    requires Base(w) && Owned(w.store) && AllAttended(w) && Current(a) && k in Step(w, a).store.tasks
    ensures Attended(Step(w, a), k)
  {
    hide Step, Base, Owned, Attended, Perform, Untouched, AllEvolve;
    StepEvolves(w, a);
    if !Enabled(w, a) || a.Admit? || a.Abandon? || a.Tick? || a.Fire? || a.Resync? {
      StoreSame(w, a);
      UntouchedSelf(w.store, k);
      UntouchedStaysAttended(w, Step(w, a), k);
    } else if a.Outside? {
      KeysMatch(w);
      PerformNotifies(w.store, a.change, k);
      OutsideStaysAttended(w, a, k);
    } else if a.Commit? {
      CommitStaysAttended(w, a, k);
    } else if a.Call? {
      CallStaysAttended(w, a, k);
    } else if a.Finish? || a.Begin? {
      WorkerStaysAttended(w, a, k);
    } else {
      CrashQueuesAll(w);
      QueuedIsAttended(Step(w, a), k);
    }
  }

  lemma CrashQueuesAll(w: World)
    ensures Step(w, Crash).store == w.store && w.store.tasks.Keys <= Step(w, Crash).queue
  {
    hide Owners;
  }

  lemma StoreSame(w: World, a: Action)
    requires !Enabled(w, a) || a.Admit? || a.Abandon? || a.Tick? || a.Fire? || a.Resync?
    ensures var w' := Step(w, a);
            w'.store == w.store && w'.jobs == w.jobs && w.queue <= w'.queue
  {
  }

  lemma OutsideStaysAttended(w: World, a: Action, k: Key)
    requires Base(w) && AllAttended(w) && a.Outside? && k in Step(w, a).store.tasks
    requires k in Perform(w.store, a.change).events || Untouched(w.store, Perform(w.store, a.change).store, k)
    ensures Attended(Step(w, a), k)
  {
    hide Perform, Base, QuietTask, JobWakes, Untouched, Attended;
    if k !in Perform(w.store, a.change).events {
      assert Attended(w, k) by { UntouchedHasTask(w.store, Step(w, a).store, k); }
      UntouchedStaysAttended(w, Step(w, a), k);
    } else {
      QueuedIsAttended(Step(w, a), k);
    }
  }

  lemma UntouchedHasTask(s: Store, s': Store, k: Key)
    requires Untouched(s, s', k)
    ensures k in s.tasks <==> k in s'.tasks
  {
  }

  lemma QueuedIsAttended(w: World, k: Key)
    requires k in w.store.tasks && k in w.queue
    ensures Attended(w, k)
  {
  }

  lemma CommitStaysAttended(w: World, a: Action, k: Key)
    requires Base(w) && AllAttended(w) && a.Commit? && Enabled(w, a) && k in Step(w, a).store.tasks
    ensures Attended(Step(w, a), k)
  {
    hide QuietTask, JobWakes, PodKey;
    if k == w.drafts[a.id].key {
      QueuedIsAttended(Step(w, a), k);
    } else {
      assert Attended(w, k);
      UntouchedStaysAttended(w, Step(w, a), k);
    }
  }

  lemma CallStaysAttended(w: World, a: Action, k: Key)
    requires Base(w) && Owned(w.store) && AllAttended(w) && a.Call? && Enabled(w, a) && Current(a)
    requires k in w.store.tasks && k in Step(w, a).store.tasks
    ensures Attended(Step(w, a), k)
  {
    assert Attended(w, k);
    var q := RequestOf(a.key, w.jobs[a.key]);
    hide Attended, QuietTask, Base, Owned, Respond, Untouched, RequestOf;
    if a.key == k {
      OwnCallAttended(w, k, a.fault);
    } else {
      assert q.CreatePod? ==> q.key == PodKey(q.pod.owner) by { JobCreatesOwnPod(a.key, w.jobs[a.key]); }
      KeysMatch(w);
      RespondNotifies(w.store, q, k);
      if k in Respond(w.store, q).events && !a.fault.Refusal? {
        QueuedIsAttended(Step(w, a), k);
      } else {
        UntouchedSelf(w.store, k);
        UntouchedStaysAttended(w, Step(w, a), k);
      }
    }
  }

  lemma OwnCallAttended(w: World, k: Key, fault: Fault)
    requires Base(w) && Owned(w.store) && k in w.store.tasks && k in w.jobs && !w.jobs[k].Done? && Attended(w, k)
    ensures k in CallStep(w, k, fault, Live).store.tasks ==> Attended(CallStep(w, k, fault, Live), k)
  {
    hide CallStep, QuietTask, JobWakes;
    OwnCallWakes(w, k, fault);
  }

  lemma JobCreatesOwnPod(k: Key, j: Job)
    requires !j.Done?
    ensures var q := RequestOf(k, j);
            q.CreatePod? ==> q.key == PodKey(q.pod.owner)
  {
    if j.Work? {
      CreatesOwnPod(j.seen, j.pc);
    }
  }

  lemma KeysMatch(w: World)
    requires Base(w)
    ensures forall i :: i in w.store.tasks ==> w.store.tasks[i].key == i
  {
  }

  lemma UntouchedSelf(s: Store, k: Key)
    ensures Untouched(s, s, k)
  {
  }

  lemma WorkerStaysAttended(w: World, a: Action, k: Key)
    requires AllAttended(w) && (a.Begin? || a.Finish?) && Enabled(w, a) && k in w.store.tasks
    ensures Attended(Step(w, a), k)
  {
    hide QuietTask;
    assert Attended(w, k);
  }

  lemma StepKeepsAttended(w: World, a: Action)
    requires Base(w) && Owned(w.store) && AllAttended(w) && Current(a)
    ensures AllAttended(Step(w, a))
  {
    hide Base, Owned, Step, Attended;
    forall k | k in Step(w, a).store.tasks
      ensures Attended(Step(w, a), k)
    {
      TaskStaysAttended(w, a, k);
    }
  }

  lemma {:induction false} RunKeepsAttended(w: World, run: seq<Action>)
    requires Base(w) && Owned(w.store) && AllAttended(w) && CurrentReads(run)
    ensures AllAttended(Exec(w, run))
    decreases |run|
  {
    hide Base, Owned, Step, AllAttended;
    if run != [] {
      assert run[0] in run;
      StepKeepsBase(w, run[0]);
      StepKeepsOwned(w, run[0]);
      StepKeepsAttended(w, run[0]);
      RunKeepsAttended(Step(w, run[0]), run[1..]);
    }
  }

  // ---- A quiet task needs no reconcile ---------------------------------------------------

  /** The clock alone asks for nothing yet: the task is not past its deadline, and if it
      has a time to live it has not expired. */
  ghost predicate NothingDue(t: Task, now: nat) {
    !t.spec.canceled ==>
      && !TimedOut(t, now)
      && (t.spec.ttl.Some? && t.status.completionTime.Some? ==>
            now <= Expiration(t.status.completionTime.value, t.spec.ttl.value))
  }

  lemma QuietReconcileWritesNothing(w: World, k: Key)
    requires Base(w) && k in w.store.tasks
    requires QuietTask(w.store, w.store.tasks[k]) && NothingDue(w.store.tasks[k], w.clock)
    ensures Reconciled(w, k).store == w.store
  {
    var t, w0 := w.store.tasks[k], Started(w, k);
    var w1 := CalmCall(w0, k);
    CalmFetch(w0, k);
    QuietStart(w.store, t, w.clock);
    hide Drive, CallStep, Start, QuietTask, Base, Respond, AdvanceAt;
    CalmDrive(w0, k);
    if w1.jobs[k].Done? {
      DoneDrive(w1, k);
    } else {
      var pc := w1.jobs[k].pc;
      CalmDrive(w1, k);
      CalmWork(w1, k, t, pc);
      QuietLook(w.store, t, pc, w.clock);
      DoneDrive(CalmCall(w1, k), k);
    }
  }

  lemma QuietStart(s: Store, t: Task, now: nat)
    requires QuietTask(s, t) && NothingDue(t, now)
    ensures var j := Start(t, now);
            j.Done? || (j == Work(t, LookScheduled) && t.status.phase.Scheduled? && QuietPod(s, t))
            || (j == Work(t, LookRunning) && t.status.phase.Running? && QuietPod(s, t))
  {
  }

  lemma QuietLook(s: Store, t: Task, pc: PC, now: nat)
    requires QuietPod(s, t) && ((pc.LookScheduled? && t.status.phase.Scheduled?) || (pc.LookRunning? && t.status.phase.Running?))
    ensures var e := Respond(s, RequestAt(t, pc));
            e.store == s && AdvanceAt(t, pc, e.reply, now).Done?
  {
  }

  /** In every reachable state, if the task's key is not queued and no reconcile of it is in
      flight, and neither its timeout nor its time to live is due, then running Reconcile
      would write nothing. */
  lemma NoLostWakeup(w0: World, run: seq<Action>, k: Key)
    requires Initial(w0) && CurrentReads(run)
    requires var w := Exec(w0, run);
             k in w.store.tasks && k !in w.queue && k !in w.jobs && NothingDue(w.store.tasks[k], w.clock)
    ensures Reconciled(Exec(w0, run), k).store == Exec(w0, run).store
  {
    hide Exec, Step, Drive, QuietTask, NothingDue, Base, Owned;
    InitialLive(w0);
    Reachable(w0, run);
    RunKeepsAttended(w0, run);
    assert Attended(Exec(w0, run), k);
    QuietReconcileWritesNothing(Exec(w0, run), k);
  }
}
