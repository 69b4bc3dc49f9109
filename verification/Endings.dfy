/** What one reconcile without faults does to a task in each of its situations, exactly,
    while others go on. */
module Endings {
  import opened Names
  import opened Objects
  import opened Scan
  import opened Webhook
  import opened Protocol
  import opened Lifecycle
  import opened ApiServer
  import opened Cluster
  import opened Safety
  import opened Ownership
  import opened Cleanup
  import opened Outcomes
  import opened Undisturbed
  import opened Attempts
  import opened Progress

  ghost predicate Returned(w: World, k: Key, r: Result) {
    k in w.jobs && w.jobs[k] == Done(r)
  }

  /** The task differs at most in its status, which is `st`. */
  ghost predicate OnlyStatusIs(w: World, k: Key, t: Task, st: Status) {
    k in w.store.tasks && w.store.tasks[k] == t.(status := st, version := w.store.tasks[k].version)
  }

  /** The world in which a reconcile that starts now reads its task. */
  function ReadWorld(w: World, k: Key, turns: seq<Turn>): World {
    Then(Started(w, k), k, turns)
  }

  /** The first turn: the task is read as it is stored. */
  lemma ReadsTask(w: World, k: Key, turns: seq<Turn>)
    requires Base(w) && Owned(w.store) && k in w.store.tasks && Steadfast(turns, k)
    ensures var w1 := ReadWorld(w, k, turns);
            && Stays(w.store, w1.store, k) && Base(w1) && Owned(w1.store) && w.clock <= w1.clock
            && k in w1.jobs && w1.jobs[k].Fetch? && k in w1.store.tasks && w1.store.tasks[k] == w.store.tasks[k]
            && Steadfast(LaterTurns(turns), k)
            && var w2 := CalmCall(w1, k);
            && w2.store == w1.store && w2.clock == w1.clock && Base(w2)
            && k in w2.jobs && w2.jobs[k] == Start(w.store.tasks[k], w1.clock)
            && Drive(Started(w, k), k, turns) == Drive(w2, k, LaterTurns(turns))
  {
    StartedKeepsBoth(w, k);
    hide Base, Owned, Drive, CallStep, Start, Steadfast, SteadyTurn, Interfere, Stays;
    SteadfastTurns(turns, k);
    TakesTurn(Started(w, k), k, turns);
    var w1 := ReadWorld(w, k, turns);
    StaysSame(w.store, w1.store, k);
    CalmFetch(w1, k);
  }

  /** One more turn with a request that ends the reconcile. */
  lemma LastTurn(w: World, k: Key, turns: seq<Turn>)
    requires Base(w) && Owned(w.store) && k in w.store.tasks && Steadfast(turns, k)
    requires k in w.jobs && !w.jobs[k].Done?
    ensures var w1 := Then(w, k, turns);
            && Stays(w.store, w1.store, k) && Base(w1) && Owned(w1.store) && w.clock <= w1.clock
            && k in w1.jobs && w1.jobs[k] == w.jobs[k] && k in w1.store.tasks && w1.store.tasks[k] == w.store.tasks[k]
            && Steadfast(LaterTurns(turns), k)
            && var w2 := CalmCall(w1, k);
            && k in w2.jobs && Base(w2) && Owned(w2.store) && w2.clock == w1.clock
            && Drive(w, k, turns) == Drive(w2, k, LaterTurns(turns))
            && (w2.jobs[k].Done? ==> Drive(w, k, turns) == w2)
  {
    hide Base, Owned, Drive, CallStep, Steadfast, SteadyTurn, Interfere, Stays;
    SteadfastTurns(turns, k);
    TakesTurn(w, k, turns);
    StaysSame(w.store, Then(w, k, turns).store, k);
    if CalmCall(Then(w, k, turns), k).jobs[k].Done? {
      DoneDrives(CalmCall(Then(w, k, turns), k), k, LaterTurns(turns));
    }
  }

  // ---- A new task ---------------------------------------------------------------------------

  lemma FinalizerRequest(s: Store, t: Task, now: nat)
    requires t.key in s.tasks && s.tasks[t.key] == t && !t.finalizer && !t.deleting
    requires s.guarded ==> ValidateSpec(t.spec).Allowed?
    ensures var e := Respond(s, RequestAt(t, AddFinalizer));
            e.store == Save(s, t.(finalizer := true)).store && AdvanceAt(t, AddFinalizer, e.reply, now) == Done(Settled)
  {
  }

  /** A task without a finalizer gets it, and nothing else. */
  lemma FinalizerIsAdded(w: World, k: Key, turns: seq<Turn>)
    requires Base(w) && Owned(w.store) && k in w.store.tasks && Steadfast(turns, k)
    requires !w.store.tasks[k].finalizer && !w.store.tasks[k].deleting
    ensures var t, w' := w.store.tasks[k], Drive(Started(w, k), k, turns);
            && Base(w') && Owned(w'.store) && Returned(w', k, Settled)
            && k in w'.store.tasks && w'.store.tasks[k] == t.(finalizer := true, version := w'.store.tasks[k].version)
  {
    var t := w.store.tasks[k];
    assert Start(t, ReadWorld(w, k, turns).clock) == Work(t, AddFinalizer);
    hide Drive, CallStep, Start, Steadfast, Interfere, Stays, Owned, Respond, RequestAt, AdvanceAt, RecordOk, JobSound;
    ReadsTask(w, k, turns);
    var w2 := CalmCall(ReadWorld(w, k, turns), k);
    LastTurn(w2, k, LaterTurns(turns));
    var w3 := Then(w2, k, LaterTurns(turns));
    assert Sound(w3.store.guarded, t, w3.clock);
    FinalizerRequest(w3.store, t, w3.clock);
    CalmWork(w3, k, t, AddFinalizer);
  }

  lemma PendingRequest(s: Store, k: Key, st: Status, t: Task, now: nat)
    requires k in s.tasks && s.tasks[k] == t && t.key == k
    ensures var e := Respond(s, RequestAt(t, PutPending(st)));
            OnlyStatus(s, e.store, k, st) && AdvanceAt(t, PutPending(st), e.reply, now) == Done(Result.Requeue)
  {
    StatusIsWritten(s, k, st);
    hide ReplaceStatus;
  }

  lemma PendingAt(w: World, k: Key, turns: seq<Turn>, t: Task, st: Status)
    requires Base(w) && Owned(w.store) && k in w.store.tasks && Steadfast(turns, k)
    requires w.store.tasks[k] == t && t.key == k && Start(t, ReadWorld(w, k, turns).clock) == Work(t, PutPending(st))
    ensures var w' := Drive(Started(w, k), k, turns);
            && Base(w') && Owned(w'.store) && Returned(w', k, Result.Requeue) && OnlyStatusIs(w', k, t, st)
            && w.clock <= ReadWorld(w, k, turns).clock <= w'.clock
  {
    hide Drive, CallStep, Start, Steadfast, Interfere, Stays, Owned, Respond, RequestAt, AdvanceAt, Base;
    ReadsTask(w, k, turns);
    var w2 := CalmCall(ReadWorld(w, k, turns), k);
    LastTurn(w2, k, LaterTurns(turns));
    var w3 := Then(w2, k, LaterTurns(turns));
    PendingRequest(w3.store, k, st, t, w3.clock);
    CalmWork(w3, k, t, PutPending(st));
  }

  /** A task without a phase becomes Pending, with the second in which it was read as its
      start time, and is reconciled again at once. */
  lemma PendingIsCommitted(w: World, k: Key, turns: seq<Turn>)
    requires Base(w) && Owned(w.store) && k in w.store.tasks && Steadfast(turns, k)
    requires var t := w.store.tasks[k]; t.finalizer && !t.deleting && t.status.phase.NoPhase?
    ensures var t, w' := w.store.tasks[k], Drive(Started(w, k), k, turns);
            && Base(w') && Owned(w'.store) && Returned(w', k, Result.Requeue)
            && exists c: nat :: w.clock <= c <= w'.clock
                 && OnlyStatusIs(w', k, t, t.status.(phase := Pending, startTime := Some(c / 1_000_000_000)))
  {
    var t := w.store.tasks[k];
    var c := ReadWorld(w, k, turns).clock;
    var st := t.status.(phase := Pending, startTime := Some(c / 1_000_000_000));
    assert Start(t, c) == Work(t, PutPending(st));
    assert t.key == k;
    hide Drive, Start, Started, Steadfast, Owned, Base, ReadWorld, OnlyStatusIs;
    PendingAt(w, k, turns, t, st);
  }

  // ---- A task whose pod is watched --------------------------------------------------------------

  /** The phase that the pod of a scheduled or running task calls for, if any. */
  function Due(t: Task, p: Option<Pod>): Option<Phase> {
    match p
    case None => Some(Failed)
    case Some(pod) =>
      match pod.phase
      case PodSucceeded => Some(Succeeded)
      case PodFailed => Some(Failed)
      case PodUnknown => None
      case PodPending => if t.status.phase.Scheduled? && AnyPullFailing(pod.containers) then Some(Failed) else None
      case PodRunning =>
        if t.status.phase.Scheduled? then Some(Running)
        else match TaskEnd(pod.containers)
             case None => None
             case Some(end) => Some(if end.exitCode == 0 then Succeeded else Failed)
  }

  /** The pod has come to its end: it is cleaned up once that is recorded. */
  ghost predicate PodIsDone(t: Task, p: Option<Pod>) {
    p.Some? && Due(t, p).Some? && !p.value.phase.PodPending? && !Due(t, p).value.Running?
  }

  function PodOf(s: Store, t: Task): Option<Pod> {
    if RefKey(t.status.podRef) in s.pods then Some(s.pods[RefKey(t.status.podRef)]) else None
  }

  function PodAnswer(p: Option<Pod>): Reply {
    if p.Some? then PodReply(p.value) else NotFound
  }

  /** The world in which a reconcile that starts now looks for the pod of its task. */
  function LookWorld(w: World, k: Key, turns: seq<Turn>): World
    requires k in ReadWorld(w, k, turns).jobs && !ReadWorld(w, k, turns).jobs[k].Done?
  {
    Then(CalmCall(ReadWorld(w, k, turns), k), k, LaterTurns(turns))
  }

  lemma PodCallsFor(t: Task, pc: PC, p: Option<Pod>, now: nat)
    requires Watching(t) && pc == if t.status.phase.Scheduled? then LookScheduled else LookRunning
    ensures var j := AdvanceAt(t, pc, PodAnswer(p), now);
            match Due(t, p)
            case None => j == Done(Settled)
            case Some(phase) =>
              && j.Work? && j.seen == t && (j.pc.PutRunning? || j.pc.PutFailed? || j.pc.PutFinished?)
              && j.pc.st.phase == phase && Explains(PodAnswer(p), t, j.pc.st, now)
              && (j.pc.PutFinished? <==> PodIsDone(t, p))
  {
    if p.Some? {
      AfterPodExplains(t, p.value, now);
    }
    hide TaskEnd, AnyPullFailing, TimedOut, Explains;
    MissingPodExplains(t, now);
  }

  lemma MissingPodExplains(t: Task, now: nat)
    ensures Explains(NotFound, t, FailedStatus(t.status, PodMissing, now), now)
  {
  }

  lemma LooksForPod(w: World, k: Key, t: Task, pc: PC)
    requires Watching(t) && pc == if t.status.phase.Scheduled? then LookScheduled else LookRunning
    requires k in w.jobs && w.jobs[k] == Work(t, pc)
    ensures var w' := CalmCall(w, k);
            && w'.store == w.store && w'.clock == w.clock
            && k in w'.jobs && w'.jobs[k] == AdvanceAt(t, pc, PodAnswer(PodOf(w.store, t)), w.clock)
  {
    CalmWork(w, k, t, pc);
    assert RequestAt(t, pc) == GetPod(RefKey(t.status.podRef));
    hide CallStep, AdvanceAt, RequestAt, RefKey, Watching;
  }

  lemma FinishRequest(s: Store, t: Task, now: nat)
    ensures var e := Respond(s, RequestAt(t, FinishDelete));
            && e.store.tasks == s.tasks && e.store.pods == s.pods - {RefKey(t.status.podRef)}
            && AdvanceAt(t, FinishDelete, e.reply, now) == Done(Settled)
  {
    hide RefKey;
    assert RefKey(t.status.podRef) !in s.pods ==> s.pods - {RefKey(t.status.podRef)} == s.pods;
  }

  lemma WriteReturns(w: World, k: Key, t: Task, pc: PC)
    requires k in w.jobs && w.jobs[k] == Work(t, pc) && (pc.PutRunning? || pc.PutFailed? || pc.PutFinished?)
    requires k in w.store.tasks && w.store.tasks[k] == t && t.key == k
    ensures var w' := CalmCall(w, k);
            && OnlyStatus(w.store, w'.store, k, pc.st)
            && k in w'.jobs && w'.jobs[k] == if pc.PutFinished? then Work(t, FinishDelete) else Done(Settled)
  {
    StatusIsWritten(w.store, k, pc.st);
    WriteAdvances(t, pc, w.clock);
    CalmWork(w, k, t, pc);
    hide CallStep, AdvanceAt, RequestAt, ReplaceStatus;
  }

  lemma WriteAdvances(t: Task, pc: PC, now: nat)
    requires pc.PutRunning? || pc.PutFailed? || pc.PutFinished?
    ensures RequestAt(t, pc) == PutStatus(t.key, t.version, pc.st)
    ensures AdvanceAt(t, pc, Reply.Ok, now) == if pc.PutFinished? then Work(t, FinishDelete) else Done(Settled)
  {
  }

  /** The status is written and, for a pod that is done, the pod deleted. */
  lemma RecordsAndDeletes(w: World, k: Key, turns: seq<Turn>, t: Task, pc: PC)
    requires Base(w) && Owned(w.store) && Steadfast(turns, k)
    requires k in w.store.tasks && w.store.tasks[k] == t && t.key == k && t.status.podRef == Ref(PodKind, PodKey(k))
    requires k in w.jobs && w.jobs[k] == Work(t, pc) && (pc.PutRunning? || pc.PutFailed? || pc.PutFinished?)
    ensures var w' := Drive(w, k, turns);
            && Returned(w', k, Settled) && OnlyStatusIs(w', k, t, pc.st)
            && (PodKey(k) in w'.store.pods <==> PodKey(k) in w.store.pods && !pc.PutFinished?)
  {
    hide Drive, CallStep, Steadfast, Interfere, Base, Owned, Respond, RequestAt, AdvanceAt, PodKey, CodeKey, PolicyKey;
    LastTurn(w, k, turns);
    var w1 := Then(w, k, turns);
    WriteReturns(w1, k, t, pc);
    var w2 := CalmCall(w1, k);
    if pc.PutFinished? {
      LastTurn(w2, k, LaterTurns(turns));
      var w3 := Then(w2, k, LaterTurns(turns));
      FinishRequest(w3.store, t, w3.clock);
      CalmWork(w3, k, t, FinishDelete);
    }
  }

  /** A reconcile without faults of a task whose pod is watched does what the pod that it
      looks at calls for: it writes exactly that status, or none; it deletes the pod if and
      only if the pod is done; and it needs no other reconcile. */
  lemma PodIsFollowed(w: World, k: Key, turns: seq<Turn>)
    requires Base(w) && Owned(w.store) && k in w.store.tasks && Steadfast(turns, k)
    requires Watching(w.store.tasks[k]) && !TimedOut(w.store.tasks[k], ReadWorld(w, k, turns).clock)
    ensures k in ReadWorld(w, k, turns).jobs && !ReadWorld(w, k, turns).jobs[k].Done?
    ensures var t, v, w' := w.store.tasks[k], LookWorld(w, k, turns), Drive(Started(w, k), k, turns);
            var p := PodOf(v.store, t);
            && Returned(w', k, Settled) && k in w'.store.tasks && OnlyStatusIs(w', k, t, w'.store.tasks[k].status)
            && (match Due(t, p)
                case None => w'.store.tasks[k].status == t.status
                case Some(phase) =>
                  w'.store.tasks[k].status.phase == phase && Explains(PodAnswer(p), t, w'.store.tasks[k].status, v.clock))
            && (RefGone(w'.store, t.status.podRef) <==> p.None? || PodIsDone(t, p))
  {
    var t := w.store.tasks[k];
    var pc := if t.status.phase.Scheduled? then LookScheduled else LookRunning;
    assert Sound(w.store.guarded, t, w.clock) && t.key == k;
    assert t.status.podRef == Ref(PodKind, PodKey(k)) && RefKey(t.status.podRef) == PodKey(k);
    assert Start(t, ReadWorld(w, k, turns).clock) == Work(t, pc);
    hide Drive, CallStep, Start, Steadfast, Interfere, Stays, Base, Owned, AdvanceAt, PodKey, TimedOut, Explains, Due;
    ReadsTask(w, k, turns);
    var w2 := CalmCall(ReadWorld(w, k, turns), k);
    assert Owned(w2.store);
    LastTurn(w2, k, LaterTurns(turns));
    var v := LookWorld(w, k, turns);
    var p := PodOf(v.store, t);
    LooksForPod(v, k, t, pc);
    PodCallsFor(t, pc, p, v.clock);
    var w3 := CalmCall(v, k);
    if Due(t, p).Some? {
      RecordsAndDeletes(w3, k, LaterTurns(LaterTurns(turns)), t, w3.jobs[k].pc);
    }
  }

  // ---- A task bound to a sandbox ------------------------------------------------------------------

  /** A task scheduled to a sandbox is Running after one reconcile; a running one rests. */
  lemma SandboxRuns(w: World, k: Key, turns: seq<Turn>)
    requires Base(w) && Owned(w.store) && k in w.store.tasks && Steadfast(turns, k)
    requires InService(w.store.tasks[k]) && !w.store.tasks[k].spec.canceled && IsSandboxRef(w.store.tasks[k].status.podRef)
    requires w.store.tasks[k].status.phase.Scheduled? || w.store.tasks[k].status.phase.Running?
    requires !TimedOut(w.store.tasks[k], ReadWorld(w, k, turns).clock)
    ensures var t, w' := w.store.tasks[k], Drive(Started(w, k), k, turns);
            Returned(w', k, Settled) && OnlyStatusIs(w', k, t, t.status.(phase := Running))
  {
    var t := w.store.tasks[k];
    var pc := PutRunning(t.status.(phase := Running));
    assert t.key == k;
    assert Start(t, ReadWorld(w, k, turns).clock) == if t.status.phase.Scheduled? then Work(t, pc) else Done(Settled);
    hide Drive, CallStep, Start, Steadfast, Interfere, Stays, Base, Owned, TimedOut, InService;
    ReadsTask(w, k, turns);
    var w2 := CalmCall(ReadWorld(w, k, turns), k);
    assert Owned(w2.store);
    if t.status.phase.Scheduled? {
      LastTurn(w2, k, LaterTurns(turns));
      WriteReturns(Then(w2, k, LaterTurns(turns)), k, t, pc);
    } else {
      DoneDrives(w2, k, LaterTurns(turns));
    }
  }

  // ---- A task that is being deleted -----------------------------------------------------------------

  lemma FinalizeRequests(s: Store, t: Task, pc: PC, now: nat)
    requires pc.FinalizeLook? || pc.FinalizeDelete?
    ensures var e, r := Respond(s, RequestAt(t, pc)), RefKey(t.status.podRef);
            && e.store == (if pc.FinalizeDelete? then s.(pods := s.pods - {r}) else s)
            && AdvanceAt(t, pc, e.reply, now) ==
               Work(t, if pc.FinalizeLook? && r in s.pods then FinalizeDelete else DropFinalizer)
  {
    hide RefKey;
    assert s.pods - {RefKey(t.status.podRef)} == s.pods || RefKey(t.status.podRef) in s.pods;
  }

  lemma DropRequest(s: Store, t: Task, now: nat)
    requires t.key in s.tasks && s.tasks[t.key] == t && t.deleting
    requires s.guarded ==> ValidateSpec(t.spec).Allowed?
    ensures var e := Respond(s, RequestAt(t, DropFinalizer));
            && e.store == s.(tasks := s.tasks - {t.key}) && AdvanceAt(t, DropFinalizer, e.reply, now) == Done(Settled)
  {
  }

  /** Where the reconcile of a task that is being deleted stands. */
  ghost predicate Finalizing(w: World, k: Key, t: Task) {
    && k in w.store.tasks && w.store.tasks[k] == t && t.key == k && t.deleting
    && (t.status.podRef.Ref? ==> OwnRef(k, t.status.podRef))
    && k in w.jobs && w.jobs[k].Work? && w.jobs[k].seen == t
    && match w.jobs[k].pc
       case FinalizeLook => t.status.podRef.Ref?
       case FinalizeDelete => t.status.podRef.Ref?
       case DropFinalizer => PodGone(w.store, t.status.podRef)
       case _ => false
  }

  ghost predicate Finalized(w: World, k: Key, t: Task) {
    k !in w.store.tasks && PodGone(w.store, t.status.podRef) && Returned(w, k, Settled)
  }

  lemma FinalizingStays(w: World, w1: World, k: Key, t: Task)
    requires Finalizing(w, k, t) && Owned(w.store) && Owned(w1.store) && Stays(w.store, w1.store, k)
    requires k in w1.jobs && w1.jobs[k] == w.jobs[k]
    ensures Finalizing(w1, k, t)
  {
    if t.status.podRef.Ref? {
      StaysGone(w.store, w1.store, k, t.status.podRef);
    }
    StaysSame(w.store, w1.store, k);
    hide Owned, Stays, RefKey, OwnRef;
  }

  lemma FinalizingCall(w: World, k: Key, t: Task)
    requires Base(w) && Finalizing(w, k, t)
    ensures var w' := CalmCall(w, k);
            k in w'.jobs && if w'.jobs[k].Done? then Finalized(w', k, t) else Finalizing(w', k, t)
  {
    var pc := w.jobs[k].pc;
    assert Sound(w.store.guarded, t, w.clock);
    hide RequestAt, AdvanceAt, Respond, RefKey, OwnRef, CallStep, RecordOk, JobSound;
    CalmWork(w, k, t, pc);
    if pc.DropFinalizer? {
      DropRequest(w.store, t, w.clock);
    } else {
      FinalizeRequests(w.store, t, pc, w.clock);
    }
  }

  lemma {:induction false} DriveFinalizes(w: World, k: Key, turns: seq<Turn>, t: Task)
    requires Base(w) && Owned(w.store) && Finalizing(w, k, t) && Steadfast(turns, k)
    ensures Finalized(Drive(w, k, turns), k, t)
    decreases Remaining(w.jobs[k])
  {
    assert k in w.jobs && w.jobs[k].Work? && k in w.store.tasks;
    hide Base, Owned, Finalizing, Finalized, Steadfast, SteadyTurn, CallStep, Remaining, Interfere, Stays, Drive;
    SteadfastTurns(turns, k);
    TakesTurn(w, k, turns);
    var w1 := Then(w, k, turns);
    FinalizingStays(w, w1, k, t);
    FinalizingCall(w1, k, t);
    var w2 := CalmCall(w1, k);
    if w2.jobs[k].Done? {
      DoneDrives(w2, k, LaterTurns(turns));
    } else {
      DriveFinalizes(w2, k, LaterTurns(turns), t);
    }
  }

  /** Every reconcile without faults of a task that is being deleted removes it, after the
      pod it names is gone. */
  lemma DeletionCompletes(w: World, k: Key, turns: seq<Turn>)
    requires Base(w) && Owned(w.store) && k in w.store.tasks && Steadfast(turns, k) && w.store.tasks[k].deleting
    ensures var w' := Drive(Started(w, k), k, turns);
            k !in w'.store.tasks && PodGone(w'.store, w.store.tasks[k].status.podRef) && Returned(w', k, Settled)
  {
    var t := w.store.tasks[k];
    assert Sound(w.store.guarded, t, w.clock) && t.key == k;
    assert Start(t, ReadWorld(w, k, turns).clock) == Work(t, if t.status.podRef.Ref? then FinalizeLook else DropFinalizer);
    hide Drive, CallStep, Start, Steadfast, Interfere, Stays, Base, Owned;
    ReadsTask(w, k, turns);
    var w2 := CalmCall(ReadWorld(w, k, turns), k);
    assert Owned(w2.store);
    DriveFinalizes(w2, k, LaterTurns(turns), t);
  }

  // ---- A task whose time to live is over --------------------------------------------------------------

  lemma DeleteRequest(s: Store, t: Task, now: nat)
    requires t.key in s.tasks && s.tasks[t.key] == t && t.finalizer && !t.deleting
    ensures var e := Respond(s, RequestAt(t, ExpireTask));
            && e.store == Save(s, t.(deleting := true)).store
            && AdvanceAt(t, ExpireTask, e.reply, now) == Done(Settled)
  {
  }

  /** Every reconcile without faults that reads a finished task after its time to live and
      not past its deadline deletes it, and the deletion waits for the finalizer. */
  lemma ExpiryDeletes(w: World, k: Key, turns: seq<Turn>)
    requires Base(w) && Owned(w.store) && k in w.store.tasks && Steadfast(turns, k)
    requires var t, now := w.store.tasks[k], ReadWorld(w, k, turns).clock;
             && !t.deleting && t.finalizer && !t.spec.canceled && Terminal(t.status.phase) && t.spec.ttl.Some?
             && t.status.completionTime.Some? && t.status.startTime.Some?
             && now > (t.status.completionTime.value + t.spec.ttl.value) * 1_000_000_000
             && (t.spec.timeoutSeconds > 0 ==>
                   now <= (t.status.startTime.value + t.spec.timeoutSeconds + 2) * 1_000_000_000)
    ensures var t, w' := w.store.tasks[k], Drive(Started(w, k), k, turns);
            && Returned(w', k, Settled) && k in w'.store.tasks
            && w'.store.tasks[k] == t.(deleting := true, version := w'.store.tasks[k].version)
  {
    var t := w.store.tasks[k];
    assert t.key == k;
    assert Start(t, ReadWorld(w, k, turns).clock) == Work(t, ExpireTask);
    hide Drive, CallStep, Start, Steadfast, Interfere, Stays, Base, Owned, Respond, RequestAt, AdvanceAt;
    ReadsTask(w, k, turns);
    var w2 := CalmCall(ReadWorld(w, k, turns), k);
    assert Owned(w2.store);
    LastTurn(w2, k, LaterTurns(turns));
    var w3 := Then(w2, k, LaterTurns(turns));
    DeleteRequest(w3.store, t, w3.clock);
    CalmWork(w3, k, t, ExpireTask);
  }

  // ---- Timeouts whose clean-up fails --------------------------------------------------------------------

  lemma FailedLookAdvances(w: World, k: Key, t: Task, fault: Fault)
    requires k in w.jobs && w.jobs[k] == Work(t, TimeoutLook) && !fault.Smooth?
    ensures var w' := CallStep(w, k, fault, View.Live);
            && w'.store == w.store && w'.clock == w.clock
            && k in w'.jobs && w'.jobs[k] == Work(t, PutTimeout(TimeoutStatus(t.status, w.clock)))
  {
    hide RefKey, TimeoutStatus;
  }

  /** The timeout path ignores a failed look for the pod: Timeout is committed all the same,
      and a pod that is there stays. */
  lemma TimeoutIgnoresFailedLook(w: World, k: Key, turns: seq<Turn>, t: Task, fault: Fault)
    requires Base(w) && Owned(w.store) && Steadfast(turns, k) && !fault.Smooth?
    requires k in w.store.tasks && w.store.tasks[k] == t && t.key == k && k in w.jobs && w.jobs[k] == Work(t, TimeoutLook)
    ensures var w' := Drive(CallStep(w, k, fault, View.Live), k, turns);
            && Returned(w', k, Settled)
            && OnlyStatusIs(w', k, t, t.status.(
                 phase := Timeout, reason := TimeoutReason, completionTime := Some(w.clock / 1_000_000_000)))
            && (PodKey(k) in w'.store.pods <==> PodKey(k) in w.store.pods)
  {
    var w1 := CallStep(w, k, fault, View.Live);
    var pc := PutTimeout(TimeoutStatus(t.status, w.clock));
    assert pc.st == t.status.(phase := Timeout, reason := TimeoutReason, completionTime := Some(w.clock / 1_000_000_000));
    FailedLookAdvances(w, k, t, fault);
    hide Drive, CallStep, Steadfast, Interfere, Base, Owned, PodKey, CodeKey, PolicyKey, TimeoutStatus;
    CallKeepsBoth(w, k, fault, View.Live);
    LastTurn(w1, k, turns);
    WritesStatus(Then(w1, k, turns), k, t, pc);
  }

  /** A pod that is gone when the timeout path deletes it is an error there: nothing is
      written, and the task is tried again. */
  lemma TimeoutNeedsItsPod(w: World, k: Key, t: Task)
    requires k in w.jobs && w.jobs[k] == Work(t, TimeoutDelete)
    ensures var w' := CalmCall(w, k);
            && k in w'.jobs
            && (RefKey(t.status.podRef) !in w.store.pods <==> w'.jobs[k] == Done(Error))
            && (RefKey(t.status.podRef) !in w.store.pods ==> w'.store == w.store)
  {
    hide RefKey, TimeoutStatus;
  }

  // ---- Errors ----------------------------------------------------------------------------------------

  /** The reads whose errors the code ignores. */
  ghost predicate Ignored(pc: PC) {
    pc.LookCrd? || pc.LookProfiles? || pc.TimeoutLook?
  }

  /** A conflict, a refusal, an object that exists already or no answer at all ends the
      reconcile in an error, for every request but the three whose errors are ignored. */
  lemma OnlyThreeReadsGoOn(t: Task, pc: PC, r: Reply, now: nat)
    requires r.Conflict? || r.Denied? || r.Unavailable? || r.AlreadyExists?
    ensures AdvanceAt(t, pc, r, now) == Done(Error) <==> !Ignored(pc)
    ensures Ignored(pc) ==> AdvanceAt(t, pc, r, now).Work?
    ensures Advance(Fetch, r, now) == Done(Error)
  {
    hide SelectBackend, ResolveImage;
  }

  /** A request that fails, whether or not it had its effect, is tried again: the reconcile
      ends in an error and its key is queued. */
  lemma FailuresAreRetried(w: World, k: Key, fault: Fault, view: View)
    requires k in w.jobs && !w.jobs[k].Done? && !fault.Smooth? && (w.jobs[k].Work? ==> !Ignored(w.jobs[k].pc))
    ensures var w1 := CallStep(w, k, fault, view);
            && Returned(w1, k, Error) && k in Step(w1, Finish(k)).queue && k !in Step(w1, Finish(k)).jobs
            && (fault.Refusal? ==> w1.store == w.store)
  {
    if w.jobs[k].Work? {
      OnlyThreeReadsGoOn(w.jobs[k].seen, w.jobs[k].pc, Unavailable, w.clock);
    }
    hide AdvanceAt, Respond, RequestOf, Ignored;
  }

  /** So is a write that finds the task changed since it was read. */
  lemma ConflictsAreRetried(w: World, k: Key)
    requires k in w.jobs && w.jobs[k].Work? && (StatusPC(w.jobs[k].pc) || w.jobs[k].pc.AddFinalizer? || w.jobs[k].pc.DropFinalizer?)
    requires var t := w.jobs[k].seen; t.key in w.store.tasks && w.store.tasks[t.key].version != t.version
    ensures var w1 := CalmCall(w, k);
            && w1.store == w.store && Returned(w1, k, Error) && k in Step(w1, Finish(k)).queue
  {
    var t, pc := w.jobs[k].seen, w.jobs[k].pc;
    ConflictReply(w.store, t, pc);
    OnlyThreeReadsGoOn(t, pc, Reply.Conflict, w.clock);
    hide AdvanceAt, Respond, RequestAt;
  }

  lemma ConflictReply(s: Store, t: Task, pc: PC)
    requires t.key in s.tasks && s.tasks[t.key].version != t.version
    requires StatusPC(pc) || pc.AddFinalizer? || pc.DropFinalizer?
    ensures Respond(s, RequestAt(t, pc)) == Effect(s, Reply.Conflict, {})
  {
    hide Save, Drop;
  }

  /** A reconcile of a task that is gone settles and writes nothing. */
  lemma MissingTaskSettles(w: World, k: Key)
    requires k in w.jobs && w.jobs[k].Fetch? && k !in w.store.tasks
    ensures Returned(CalmCall(w, k), k, Settled) && CalmCall(w, k).store == w.store
  {
  }
}
