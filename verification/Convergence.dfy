/** Bounded convergence: five reconciles without faults end a pod-backed task, whatever
    users, the cluster and other workers do in between. */
module Convergence {
  import opened Names
  import opened Objects
  import opened Scan
  import opened Webhook
  import opened Protocol
  import opened Lifecycle
  import opened ApiServer
  import opened Cluster
  import opened Safety
  import opened Ownership
  import opened Undisturbed
  import opened Dispatch
  import opened Attempts
  import opened Progress

  // ---- Pursued tasks --------------------------------------------------------------------------

  /** The pod reports Succeeded, Failed, or Running with its task container terminated. */
  ghost predicate PodEnds(p: Pod) {
    p.phase.PodSucceeded? || p.phase.PodFailed? || (p.phase.PodRunning? && TaskEnd(p.containers).Some?)
  }

  ghost predicate Finished(s: Store, k: Key) {
    k in s.tasks && Terminal(s.tasks[k].status.phase)
  }

  /** The task is not being deleted and, once it is scheduled, has a pod and not a sandbox. */
  ghost predicate Pursued(t: Task) {
    !t.deleting && (t.status.phase.Scheduled? || t.status.phase.Running? ==> IsPodRef(t.status.podRef))
  }

  /** How many more reconciles it takes at most. */
  function Distance(t: Task): nat {
    if Terminal(t.status.phase) then 0
    else if !t.finalizer then 5
    else match t.status.phase
         case NoPhase => 4
         case Pending => 3
         case Scheduled => 2
         case _ => 1
  }

  ghost predicate Closer(t: Task, t': Task) {
    Pursued(t') && Distance(t') < Distance(t)
  }

  // ---- What makes a reconcile count -------------------------------------------------------------

  /** The answer that the next request is about to get brings the task on: the CRD does not
      send it to a sandbox, and the pod it looks at has ended or is gone. */
  ghost predicate FavorableNow(w: World, k: Key) {
    k in w.jobs && w.jobs[k].Work? ==>
      var t := w.jobs[k].seen;
      match w.jobs[k].pc
      case LookCrd(_) => SelectBackend(t.spec.backend, w.store.crd) != Some(SandboxBackend)
      case LookScheduled => PodIsOver(w.store, t)
      case LookRunning => PodIsOver(w.store, t)
      case _ => true
  }

  ghost predicate PodIsOver(s: Store, t: Task) {
    var p := RefKey(t.status.podRef);
    p in s.pods ==> PodEnds(s.pods[p])
  }

  /** A schedule without faults on which every answer is favorable. */
  ghost predicate Favorable(w: World, k: Key, turns: seq<Turn>)
    decreases if k in w.jobs then Remaining(w.jobs[k]) else 0
  {
    if k !in w.jobs || w.jobs[k].Done? then true
    else
      var w1 := Then(w, k, turns);
      InterfereKeepsJob(w, k, FirstTurn(turns).others);
      CallAdvances(w1, k, Smooth, View.Live);
      SteadyTurn(FirstTurn(turns), k) && FavorableNow(w1, k) && Favorable(CalmCall(w1, k), k, LaterTurns(turns))
  }

  // ---- Where a reconcile stands -------------------------------------------------------------------

  /** What a reconcile that has come to a request has found on its way; requests that end
      or delete the task do not occur. */
  ghost predicate Clear(s: Store, t: Task, pc: PC) {
    match pc
    case MakeCode => CodeKey(t.key) !in s.maps
    case MakePolicy(_) => PolicyKey(t.key) !in s.policies
    case MakePod(_, _) => PodKey(t.key) !in s.pods
    case LookProfiles(_, backend) => backend.PodBackend?
    case LookSandbox(_) => false
    case MakeSandbox(_) => false
    case PutScheduled(st) => IsPodRef(st.podRef)
    case PutRunning(_) => IsPodRef(t.status.podRef)
    case TimeoutLook => t.status.podRef.Ref?
    case TimeoutDelete => t.status.podRef.Ref? && RefKey(t.status.podRef) in s.pods
    case FinalizeLook => false
    case FinalizeDelete => false
    case DropFinalizer => false
    case FinishDelete => false
    case ExpireTask => false
    case _ => true
  }

  /** The task as read is the stored one, not finished, and on its way. */
  ghost predicate Going(w: World, k: Key, t: Task) {
    && k in w.store.tasks && w.store.tasks[k] == t && t.key == k && Pursued(t) && !Terminal(t.status.phase)
    && (t.status.podRef.Ref? ==> OwnRef(k, t.status.podRef))
    && k in w.jobs && w.jobs[k].Work? && w.jobs[k].seen == t && Clear(w.store, t, w.jobs[k].pc)
  }

  /** The reconcile has brought the task on and has at most a deletion left to do. */
  ghost predicate Arrived(w: World, k: Key, t: Task) {
    && k in w.store.tasks && Closer(t, w.store.tasks[k])
    && k in w.jobs && (w.jobs[k].Done? || (w.jobs[k].Work? && w.jobs[k].pc.FinishDelete?))
  }

  lemma GoingStays(w: World, w1: World, k: Key, t: Task)
    requires Going(w, k, t) && Owned(w.store) && Owned(w1.store) && Stays(w.store, w1.store, k)
    requires k in w1.jobs && w1.jobs[k] == w.jobs[k]
    ensures Going(w1, k, t)
  {
    if t.status.podRef.Ref? {
      StaysGone(w.store, w1.store, k, t.status.podRef);
    }
    hide Owned, RefKey, OwnRef, PodKey, CodeKey, PolicyKey, SandboxKey;
  }

  /** From the fetched task to the first request. */
  lemma StartGoes(s: Store, t: Task, now: nat)
    requires RecordOk(t, now) && Pursued(t) && !Terminal(t.status.phase)
    ensures var j := Start(t, now); j.Work? && j.seen == t && Clear(s, t, j.pc)
  {
    hide TimedOut, RefKey;
  }

  // ---- Every request -------------------------------------------------------------------------------

  /** A request that changes nothing or creates something leads on. */
  ghost predicate LeadsOn(s: Store, t: Task, pc: PC, now: nat) {
    var e := Respond(s, RequestAt(t, pc));
    var j := AdvanceAt(t, pc, e.reply, now);
    e.store.tasks == s.tasks && j.Work? && j.seen == t && Clear(e.store, t, j.pc)
  }

  lemma PrepareLeadsOn(s: Store, t: Task, pc: PC, now: nat)
    requires pc.LookCode? || pc.LookPolicy?
    ensures LeadsOn(s, t, pc, now)
  {
    hide PodKey, CodeKey, PolicyKey, SandboxKey, ProfilesKey;
  }

  lemma CreateLeadsOn(s: Store, t: Task, pc: PC, now: nat)
    requires (pc.MakeCode? || pc.MakePolicy?) && Clear(s, t, pc)
    ensures LeadsOn(s, t, pc, now)
  {
    hide PodKey, CodeKey, PolicyKey, SandboxKey, ProfilesKey, NewCodeMap, NewPolicy;
  }

  lemma ChoiceLeadsOn(s: Store, t: Task, pc: PC, now: nat)
    requires pc.LookCrd? && SelectBackend(t.spec.backend, s.crd) != Some(SandboxBackend)
    ensures LeadsOn(s, t, pc, now)
  {
    hide SelectBackend;
  }

  lemma ImageLeadsOn(s: Store, t: Task, pc: PC, now: nat)
    requires pc.LookProfiles? && Clear(s, t, pc)
    ensures LeadsOn(s, t, pc, now)
  {
    hide ResolveImage, ProfilesKey;
  }

  lemma PodLeadsOn(s: Store, t: Task, pc: PC, now: nat)
    requires (pc.LookPod? || pc.MakePod?) && Clear(s, t, pc)
    ensures LeadsOn(s, t, pc, now)
  {
    hide PodKey, SandboxKey, CodeKey, PolicyKey, NewPod;
  }

  lemma CleanUpLeadsOn(s: Store, t: Task, pc: PC, now: nat)
    requires pc.CancelLook? || pc.CancelDelete? || pc.TimeoutLook? || pc.TimeoutDelete?
    requires Clear(s, t, pc)
    ensures LeadsOn(s, t, pc, now)
  {
    hide Respond, RequestAt, AdvanceAt, RefKey;
    CleanUpRequests(s, t, pc, now);
  }

  lemma PodIsFollowed(t: Task, p: Pod, now: nat)
    requires PodEnds(p)
    ensures var j := AfterRunningPod(t, p, now); j.Work? && j.seen == t && j.pc.PutFinished?
    ensures var j := AfterScheduledPod(t, p, now);
            j.Work? && j.seen == t && (j.pc == PutRunning(t.status.(phase := Running)) || j.pc.PutFinished?)
  {
    hide TaskEnd, AnyPullFailing;
  }

  lemma WatchLeadsOn(s: Store, t: Task, pc: PC, now: nat)
    requires (pc.LookScheduled? || pc.LookRunning?) && PodIsOver(s, t) && IsPodRef(t.status.podRef)
    ensures LeadsOn(s, t, pc, now)
  {
    var p := RefKey(t.status.podRef);
    if p in s.pods {
      PodIsFollowed(t, s.pods[p], now);
    }
    hide RefKey, AfterRunningPod, AfterScheduledPod, PodEnds;
  }

  /** A legal status write of a task that is not finished brings it on. */
  lemma WriteIsCloser(t: Task, t': Task, pc: PC, now: nat)
    requires StatusPC(pc) && JobOk(t, pc, now) && RecordOk(t, now) && Pursued(t) && !Terminal(t.status.phase)
    requires pc.PutScheduled? ==> IsPodRef(pc.st.podRef)
    requires pc.PutRunning? ==> IsPodRef(t.status.podRef)
    requires t' == t.(status := pc.st, version := t'.version)
    ensures Closer(t, t')
  {
    hide TimedOut, Completes;
  }

  lemma FinalizerLeadsOn(s: Store, t: Task)
    requires t.key in s.tasks && s.tasks[t.key] == t && !t.finalizer && !t.deleting
    requires s.guarded ==> ValidateSpec(t.spec).Allowed?
    ensures Respond(s, RequestAt(t, AddFinalizer)) == Save(s, t.(finalizer := true))
  {
  }

  ghost predicate GoesOrArrives(w: World, k: Key, t: Task) {
    k in w.jobs && if w.jobs[k].Work? && !w.jobs[k].pc.FinishDelete? then Going(w, k, t) else Arrived(w, k, t)
  }

  lemma WriteArrives(w: World, k: Key, t: Task)
    requires Base(w) && Going(w, k, t) && StatusPC(w.jobs[k].pc)
    ensures GoesOrArrives(CalmCall(w, k), k, t)
  {
    var pc := w.jobs[k].pc;
    assert JobSound(w.store, k, w.jobs[k], w.clock);
    assert Sound(w.store.guarded, t, w.clock);
    hide CallStep, JobOk, RecordOk, Closer, Pursued, StatusPC, Base;
    WritesStatus(w, k, t, pc);
    WriteIsCloser(t, CalmCall(w, k).store.tasks[k], pc, w.clock);
  }

  lemma FinalizerArrives(w: World, k: Key, t: Task)
    requires Base(w) && Going(w, k, t) && w.jobs[k].pc.AddFinalizer?
    ensures GoesOrArrives(CalmCall(w, k), k, t)
  {
    assert JobSound(w.store, k, w.jobs[k], w.clock);
    assert Sound(w.store.guarded, t, w.clock);
    FinalizerLeadsOn(w.store, t);
    CalmWork(w, k, t, AddFinalizer);
    hide CallStep, Respond, RequestAt, ValidateSpec, Base;
  }

  lemma RequestGoes(s: Store, t: Task, pc: PC, now: nat)
    requires Clear(s, t, pc) && !StatusPC(pc) && !pc.AddFinalizer?
    requires pc.LookCrd? ==> SelectBackend(t.spec.backend, s.crd) != Some(SandboxBackend)
    requires pc.LookScheduled? || pc.LookRunning? ==> PodIsOver(s, t) && IsPodRef(t.status.podRef)
    ensures LeadsOn(s, t, pc, now)
  {
    hide LeadsOn, PodIsOver, SelectBackend, PodKey, CodeKey, PolicyKey, RefKey;
    match pc
    case LookCode => PrepareLeadsOn(s, t, pc, now);
    case LookPolicy(_) => PrepareLeadsOn(s, t, pc, now);
    case MakeCode => CreateLeadsOn(s, t, pc, now);
    case MakePolicy(_) => CreateLeadsOn(s, t, pc, now);
    case LookCrd(_) => ChoiceLeadsOn(s, t, pc, now);
    case LookProfiles(_, _) => ImageLeadsOn(s, t, pc, now);
    case LookPod(_, _) => PodLeadsOn(s, t, pc, now);
    case MakePod(_, _) => PodLeadsOn(s, t, pc, now);
    case LookScheduled => WatchLeadsOn(s, t, pc, now);
    case LookRunning => WatchLeadsOn(s, t, pc, now);
    case _ => CleanUpLeadsOn(s, t, pc, now);
  }

  lemma WatchedHasPod(t: Task, pc: PC, now: nat)
    requires JobOk(t, pc, now) && (pc.LookScheduled? || pc.LookRunning?)
    ensures IsPodRef(t.status.podRef)
  {
  }

  /** One request with a favorable answer. */
  lemma CallGoes(w: World, k: Key, t: Task)
    requires Base(w) && Going(w, k, t) && FavorableNow(w, k)
    ensures GoesOrArrives(CalmCall(w, k), k, t)
  {
    var pc := w.jobs[k].pc;
    if StatusPC(pc) {
      WriteArrives(w, k, t);
    } else if pc.AddFinalizer? {
      FinalizerArrives(w, k, t);
    } else {
      assert JobSound(w.store, k, w.jobs[k], w.clock);
      hide Respond, RequestAt, AdvanceAt, CallStep, Clear, Pursued, OwnRef, JobOk, PodIsOver, Base;
      if pc.LookScheduled? || pc.LookRunning? {
        WatchedHasPod(t, pc, w.clock);
      }
      RequestGoes(w.store, t, pc, w.clock);
      CalmWork(w, k, t, pc);
      ClearIsNoFinish(w.store, t, CalmCall(w, k).jobs[k].pc);
    }
  }

  lemma ClearIsNoFinish(s: Store, t: Task, pc: PC)
    ensures forall s' :: Clear(s', t, pc) ==> !pc.FinishDelete?
  {
  }

  // ---- One reconcile --------------------------------------------------------------------------------

  lemma ArrivedEnds(w: World, k: Key, t: Task)
    requires Arrived(w, k, t) && w.jobs[k].Work?
    ensures Arrived(CalmCall(w, k), k, t) && CalmCall(w, k).jobs[k].Done?
  {
    CalmWork(w, k, w.jobs[k].seen, FinishDelete);
    hide RefKey, Closer;
  }

  lemma ArrivedStays(w: World, w1: World, k: Key, t: Task)
    requires Arrived(w, k, t) && Stays(w.store, w1.store, k) && k in w1.jobs && w1.jobs[k] == w.jobs[k]
    ensures Arrived(w1, k, t)
  {
    hide Closer;
  }

  lemma {:induction false} DriveGoes(w: World, k: Key, turns: seq<Turn>, t: Task)
    requires Base(w) && Owned(w.store) && GoesOrArrives(w, k, t) && Favorable(w, k, turns)
    ensures var w' := Drive(w, k, turns);
            Base(w') && Owned(w'.store) && k in w'.store.tasks && Closer(t, w'.store.tasks[k])
    decreases Remaining(w.jobs[k])
  {
    hide Base, Owned, Clear, Closer, Pursued, SteadyTurn, FavorableNow, CallStep, Remaining, Interfere, Stays, Drive, OwnRef;
    if w.jobs[k].Done? {
      DoneDrives(w, k, turns);
    } else {
      TakesTurn(w, k, turns);
      var w1 := Then(w, k, turns);
      if w.jobs[k].pc.FinishDelete? {
        ArrivedStays(w, w1, k, t);
        ArrivedEnds(w1, k, t);
      } else {
        GoingStays(w, w1, k, t);
        CallGoes(w1, k, t);
      }
      DriveGoes(CalmCall(w1, k), k, LaterTurns(turns), t);
    }
  }

  lemma FetchGoes(w: World, k: Key)
    requires Base(w) && k in w.store.tasks && Pursued(w.store.tasks[k]) && !Terminal(w.store.tasks[k].status.phase)
    requires k in w.jobs && w.jobs[k].Fetch?
    ensures GoesOrArrives(CalmCall(w, k), k, w.store.tasks[k])
  {
    var t := w.store.tasks[k];
    assert Sound(w.store.guarded, t, w.clock);
    StartGoes(w.store, t, w.clock);
    CalmFetch(w, k);
    ClearIsNoFinish(w.store, t, Start(t, w.clock).pc);
    hide CallStep, Start, Clear, Pursued;
  }

  /** One reconcile without faults and with favorable answers. */
  lemma ReconcileGoes(w: World, k: Key, turns: seq<Turn>)
    requires Base(w) && Owned(w.store) && k in w.store.tasks && Pursued(w.store.tasks[k])
    requires !Terminal(w.store.tasks[k].status.phase) && Favorable(Started(w, k), k, turns)
    ensures var w' := Drive(Started(w, k), k, turns);
            Base(w') && Owned(w'.store) && k in w'.store.tasks && Closer(w.store.tasks[k], w'.store.tasks[k])
  {
    hide Base, Owned, Closer, Pursued, SteadyTurn, FavorableNow, CallStep, Remaining, Interfere, Stays, Drive, GoesOrArrives;
    var w0 := Started(w, k);
    StartedKeepsBoth(w, k);
    TakesTurn(w0, k, turns);
    var w1 := Then(w0, k, turns);
    StaysSame(w0.store, w1.store, k);
    FetchGoes(w1, k);
    DriveGoes(CalmCall(w1, k), k, LaterTurns(turns), w.store.tasks[k]);
  }

  // ---- Between the reconciles -------------------------------------------------------------------------

  /** Anything but a deletion of the task and another reconcile of it: spec edits,
      cancellations, pod reports, a vanishing pod, other tasks, ticks and crashes. */
  ghost predicate Apart(a: Action, k: Key) {
    !(a.Begin? && a.key == k) && !(a.Call? && a.key == k) && !(a.Outside? && a.change.Remove? && a.change.key == k)
  }

  ghost predicate AllApart(gap: seq<Action>, k: Key) {
    forall a :: a in gap ==> Apart(a, k)
  }

  /** The task is still there, with its status, and not being deleted. */
  ghost predicate Remains(s: Store, s': Store, k: Key) {
    && k in s.tasks && k in s'.tasks && s'.tasks[k].status == s.tasks[k].status
    && (!s.tasks[k].deleting ==> !s'.tasks[k].deleting) && (s.tasks[k].finalizer ==> s'.tasks[k].finalizer)
  }

  lemma EditRemains(s: Store, i: Key, spec: Spec, k: Key)
    requires k in s.tasks && (i in s.tasks ==> s.tasks[i].key == i)
    ensures Remains(s, EditSpec(s, i, spec).store, k)
  {
    hide ValidateUpdate;
  }

  lemma CondemnRemains(s: Store, i: Key, k: Key)
    requires k in s.tasks && (i in s.tasks ==> s.tasks[i].key == i) && i != k
    ensures Remains(s, Condemn(s, i).store, k)
  {
    CondemnTouches(s, i);
    hide Condemn;
  }

  lemma ChangeRemains(s: Store, c: Change, k: Key)
    requires k in s.tasks && (forall i :: i in s.tasks ==> s.tasks[i].key == i) && !(c.Remove? && c.key == k)
    ensures Remains(s, Perform(s, c).store, k)
  {
    hide EditSpec, Condemn, HasSuffix;
    if c.Remove? {
      CondemnRemains(s, c.key, k);
    } else if c.Edit? {
      EditRemains(s, c.key, c.spec, k);
    }
  }

  lemma QueueRemains(w: World, a: Action, k: Key)
    requires k in w.store.tasks && !a.Outside? && !a.Call?
    ensures Remains(w.store, Step(w, a).store, k)
  {
  }

  lemma OtherCallRemains(w: World, i: Key, fault: Fault, view: View, k: Key)
    requires Base(w) && i in w.jobs && !w.jobs[i].Done? && i != k && k in w.store.tasks
    ensures Remains(w.store, CallStep(w, i, fault, view).store, k)
  {
    hide CallStep, SceneOf, Base;
    OtherCallKeepsScene(w, i, fault, view, k);
    SceneStays(w.store, CallStep(w, i, fault, view).store, k);
  }

  lemma GapStep(w: World, a: Action, k: Key)
    requires Base(w) && k in w.store.tasks && Apart(a, k)
    ensures Remains(w.store, Step(w, a).store, k)
  {
    hide Remains, Perform, CallStep, RecordOk, JobSound;
    if a.Outside? {
      ChangeRemains(w.store, a.change, k);
    } else if a.Call? {
      if Enabled(w, a) {
        OtherCallRemains(w, a.key, a.fault, a.view, k);
      } else {
        SelfRemains(w.store, k);
      }
    } else {
      QueueRemains(w, a, k);
    }
  }

  lemma SelfRemains(s: Store, k: Key)
    requires k in s.tasks
    ensures Remains(s, s, k)
  {
  }

  lemma {:induction false} GapKeeps(w: World, gap: seq<Action>, k: Key)
    requires Base(w) && Owned(w.store) && k in w.store.tasks && AllApart(gap, k)
    ensures var w' := Exec(w, gap);
            Remains(w.store, w'.store, k) && Base(w') && Owned(w'.store)
    decreases |gap|
  {
    hide Base, Owned, Step, Apart;
    if gap != [] {
      var a := gap[0];
      assert a in gap;
      assert forall b :: b in gap[1..] ==> b in gap;
      GapStep(w, a, k);
      StepKeepsBase(w, a);
      StepKeepsOwned(w, a);
      GapKeeps(Step(w, a), gap[1..], k);
    }
  }

  /** The status decides the distance, but for the finalizer. */
  lemma RemainsAsClose(t: Task, t': Task)
    requires t'.status == t.status && (t.finalizer ==> t'.finalizer) && Pursued(t) && !t'.deleting
    ensures Pursued(t') && Distance(t') <= Distance(t)
  {
  }

  // ---- Five reconciles -----------------------------------------------------------------------------------

  /** Some time passes, then the task is reconciled once. */
  datatype Round = Round(gap: seq<Action>, turns: seq<Turn>)

  function AfterRound(w: World, k: Key, r: Round): World {
    Drive(Started(Exec(w, r.gap), k), k, r.turns)
  }

  function AfterRounds(w: World, k: Key, rounds: seq<Round>): World
    decreases |rounds|
  {
    if rounds == [] then w else AfterRounds(AfterRound(w, k, rounds[0]), k, rounds[1..])
  }

  ghost predicate FairRound(w: World, k: Key, r: Round) {
    AllApart(r.gap, k) && Favorable(Started(Exec(w, r.gap), k), k, r.turns)
  }

  /** Until the task is finished, every gap leaves it alone and every reconcile is without
      faults and gets favorable answers. */
  ghost predicate Fair(w: World, k: Key, rounds: seq<Round>)
    decreases |rounds|
  {
    rounds == [] || Finished(w.store, k)
    || (FairRound(w, k, rounds[0]) && Fair(AfterRound(w, k, rounds[0]), k, rounds[1..]))
  }

  // ---- When a calm reconcile is favorable ------------------------------------------------------

  /** The reconcile will not look at an unfinished pod, nor choose a sandbox. */
  ghost predicate Promising(w: World, k: Key) {
    k in w.jobs && match w.jobs[k]
                   case Fetch =>
                     k in w.store.tasks ==>
                       var t := w.store.tasks[k];
                       && SelectBackend(t.spec.backend, w.store.crd) != Some(SandboxBackend)
                       && (t.status.phase.Scheduled? || t.status.phase.Running? ==> PodIsOver(w.store, t))
                   case Work(t, pc) =>
                     && SelectBackend(t.spec.backend, w.store.crd) != Some(SandboxBackend)
                     && (pc.LookScheduled? || pc.LookRunning? ==> PodIsOver(w.store, t))
                   case Done(_) => true
  }

  lemma WatchesFirst(t: Task, pc: PC, r: Reply, now: nat)
    ensures var j := AdvanceAt(t, pc, r, now);
            !j.Fetch? && (j.Work? ==> j.seen == t && !j.pc.LookScheduled? && !j.pc.LookRunning?)
    ensures var j := Start(t, now);
            && !j.Fetch? && (j.Work? ==> j.seen == t)
            && (j.Work? && j.pc.LookScheduled? ==> t.status.phase.Scheduled?)
            && (j.Work? && j.pc.LookRunning? ==> t.status.phase.Running?)
  {
    hide TimedOut, SelectBackend, ResolveImage, RunningVerdict, AnyPullFailing;
  }

  lemma RequestKeepsCrd(s: Store, q: Request)
    ensures Respond(s, q).store.crd == s.crd
  {
    hide ValidateUpdate;
  }

  lemma CallIsPromising(w: World, k: Key)
    requires Promising(w, k) && !w.jobs[k].Done?
    ensures Promising(CalmCall(w, k), k)
  {
    hide Start, AdvanceAt, Respond, RequestAt, SelectBackend, PodIsOver;
    if w.jobs[k].Work? {
      var t, pc := w.jobs[k].seen, w.jobs[k].pc;
      RequestKeepsCrd(w.store, RequestAt(t, pc));
      WatchesFirst(t, pc, Respond(w.store, RequestAt(t, pc)).reply, w.clock);
    } else if k in w.store.tasks {
      CalmFetch(w, k);
      WatchesFirst(w.store.tasks[k], AddFinalizer, Reply.Ok, w.clock);
    } else {
      FetchFindsNothing(w, k);
    }
  }

  lemma FetchFindsNothing(w: World, k: Key)
    requires k in w.jobs && w.jobs[k].Fetch? && k !in w.store.tasks
    ensures k in CalmCall(w, k).jobs && CalmCall(w, k).jobs[k].Done?
  {
  }

  lemma {:induction false} CalmIsFavorable(w: World, k: Key)
    requires Promising(w, k)
    ensures Favorable(w, k, [])
    decreases Remaining(w.jobs[k])
  {
    if !w.jobs[k].Done? {
      assert Then(w, k, []) == w;
      assert FavorableNow(w, k);
      assert SteadyTurn(FirstTurn([]), k);
      hide CallStep, Remaining, Promising, FavorableNow, SteadyTurn;
      CallAdvances(w, k, Smooth, View.Live);
      CallIsPromising(w, k);
      CalmIsFavorable(CalmCall(w, k), k);
    }
  }

  /** A reconcile that nobody disturbs is fair as soon as no sandbox is available or asked
      for and the pod, once the task is scheduled, has ended or is gone. */
  lemma CalmRoundIsFair(w: World, k: Key, gap: seq<Action>)
    requires AllApart(gap, k) && k in Exec(w, gap).store.tasks
    requires var s := Exec(w, gap).store;
             var t := s.tasks[k];
             && SelectBackend(t.spec.backend, s.crd) != Some(SandboxBackend)
             && (t.status.phase.Scheduled? || t.status.phase.Running? ==> PodIsOver(s, t))
    ensures FairRound(w, k, Round(gap, []))
  {
    hide Exec, AllApart, Favorable, SelectBackend, PodIsOver;
    CalmIsFavorable(Started(Exec(w, gap), k), k);
  }

  /** Every such round brings the task strictly closer to a terminal phase. */
  lemma EveryRoundIsProgress(w: World, k: Key, r: Round)
    requires Base(w) && Owned(w.store) && k in w.store.tasks && Pursued(w.store.tasks[k])
    requires !Finished(w.store, k) && FairRound(w, k, r)
    ensures var w' := AfterRound(w, k, r);
            Base(w') && Owned(w'.store) && k in w'.store.tasks && Closer(w.store.tasks[k], w'.store.tasks[k])
  {
    var w1 := Exec(w, r.gap);
    hide Base, Owned, AllApart, Favorable, Drive, Started, Exec, Distance;
    GapKeeps(w, r.gap, k);
    RemainsAsClose(w.store.tasks[k], w1.store.tasks[k]);
    ReconcileGoes(w1, k, r.turns);
  }

  /** As many rounds as the distance end the task: five from the beginning. */
  lemma {:induction false} TerminalWithinFive(w: World, k: Key, rounds: seq<Round>)
    requires Base(w) && Owned(w.store) && k in w.store.tasks && Pursued(w.store.tasks[k])
    requires Fair(w, k, rounds) && |rounds| >= Distance(w.store.tasks[k])
    ensures Distance(w.store.tasks[k]) <= 5
    ensures exists m :: 0 <= m <= Distance(w.store.tasks[k]) && Finished(AfterRounds(w, k, rounds[..m]).store, k)
    decreases |rounds|
  {
    hide Base, Owned, FairRound, AfterRound;
    if Finished(w.store, k) {
      assert rounds[..0] == [];
      assert AfterRounds(w, k, rounds[..0]) == w;
    } else {
      assert Distance(w.store.tasks[k]) > 0;
      EveryRoundIsProgress(w, k, rounds[0]);
      var w1 := AfterRound(w, k, rounds[0]);
      TerminalWithinFive(w1, k, rounds[1..]);
      var m :| 0 <= m <= Distance(w1.store.tasks[k]) && Finished(AfterRounds(w1, k, rounds[1..][..m]).store, k);
      assert rounds[..m + 1][1..] == rounds[1..][..m];
      assert AfterRounds(w, k, rounds[..m + 1]) == AfterRounds(w1, k, rounds[1..][..m]);
    }
  }

  /** Bounded convergence: from every reachable state, out-of-date reads and crashes before
      it included, five such rounds bring a task that is not being deleted and not bound to
      a sandbox to a terminal phase. */
  lemma ConvergesFromReachable(w0: World, run: seq<Action>, k: Key, rounds: seq<Round>)
    requires Initial(w0) && k in Exec(w0, run).store.tasks && Pursued(Exec(w0, run).store.tasks[k])
    requires Fair(Exec(w0, run), k, rounds) && |rounds| >= 5
    ensures exists m :: 0 <= m <= 5 && Finished(AfterRounds(Exec(w0, run), k, rounds[..m]).store, k)
  {
    InitialBase(w0);
    assert Owned(w0.store);
    hide Exec, Base, Owned, Pursued, Fair, Finished, AfterRounds;
    RunKeepsBase(w0, run);
    RunKeepsOwned(w0, run);
    TerminalWithinFive(Exec(w0, run), k, rounds);
  }
}
