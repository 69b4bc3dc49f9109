/** What reconciles achieve that no fault and no crash disturbs, while users, the cluster
    and other workers go on: a timeout or a cancellation is recorded, and a pod-backed
    task ends within five of them. */
module Progress {
  import opened Names
  import opened Objects
  import opened Webhook
  import opened Protocol
  import opened Lifecycle
  import opened ApiServer
  import opened Cluster
  import opened Safety
  import opened Ownership
  import opened Cleanup
  import opened Undisturbed
  import opened Dispatch
  import opened Attempts

  // ---- The rest of the cluster ------------------------------------------------------------

  /** A step that leaves the task `k` and the existence of its pod alone. */
  ghost predicate Steady(a: Action, k: Key) {
    match a
    case Outside(Edit(i, _)) => i != k
    case Outside(Remove(i)) => i != k
    case Outside(PodVanishes(p)) => p != PodKey(k)
    case _ => true
  }

  ghost predicate AllSteady(others: seq<Action>, k: Key) {
    forall a :: a in others ==> Steady(a, k)
  }

  /** The task is the same, its pod is there or not as before, and nothing it will have to
      create has appeared. */
  ghost predicate Stays(s: Store, s': Store, k: Key) {
    && k in s.tasks && k in s'.tasks && s'.tasks[k] == s.tasks[k]
    && (PodKey(k) in s.pods <==> PodKey(k) in s'.pods)
    && (CodeKey(k) !in s.maps ==> CodeKey(k) !in s'.maps)
    && (PolicyKey(k) !in s.policies ==> PolicyKey(k) !in s'.policies)
  }

  lemma SceneStays(s: Store, s': Store, k: Key)
    requires SameScene(s, s', k)
    ensures Stays(s, s', k)
  {
  }

  lemma ChangeStays(s: Store, c: Change, k: Key)
    requires k in s.tasks && (c.SetCrd? || c.EditMap? || (c.Sweep? && c.key == k))
    ensures Stays(s, Perform(s, c).store, k)
  {
    CodeHasSuffix(k);
    hide CodeKey, PodKey, PolicyKey, SandboxKey;
  }

  lemma SteadyStep(w: World, a: Action, k: Key)
    requires Base(w) && Owned(w.store) && k in w.store.tasks && Foreign(a, k) && Steady(a, k)
    ensures Stays(w.store, Step(w, a).store, k)
  {
    hide SceneOf, Stays, Perform, CallStep, Base, Owned;
    if Harmless(a, k) {
      HarmlessStep(w, a, k);
      SceneStays(w.store, Step(w, a).store, k);
    } else {
      assert a.Outside? && (a.change.SetCrd? || a.change.EditMap? || (a.change.Sweep? && a.change.key == k));
      ChangeStays(w.store, a.change, k);
    }
  }

  lemma ClockAdvances(w: World, a: Action)
    ensures w.clock <= Step(w, a).clock
  {
  }

  lemma {:induction false} InterfereStays(w: World, k: Key, others: seq<Action>)
    requires Base(w) && Owned(w.store) && k in w.store.tasks && AllSteady(others, k)
    ensures var w' := Interfere(w, k, others);
            Stays(w.store, w'.store, k) && Base(w') && Owned(w'.store) && w.clock <= w'.clock
    decreases |others|
  {
    hide Base, Owned, Step;
    if others != [] {
      var a := others[0];
      assert a in others;
      assert forall b :: b in others[1..] ==> b in others;
      if Foreign(a, k) {
        SteadyStep(w, a, k);
        ClockAdvances(w, a);
        StepKeepsBase(w, a);
        StepKeepsOwned(w, a);
        InterfereStays(Step(w, a), k, others[1..]);
      } else {
        InterfereStays(w, k, others[1..]);
      }
    }
  }

  // ---- Schedules without faults --------------------------------------------------------------

  /** Every request is served with current data, nothing crashes, and others take only
      steady steps. */
  ghost predicate SteadyTurn(turn: Turn, k: Key) {
    !turn.crash && turn.fault.Smooth? && turn.view.Live? && AllSteady(turn.others, k)
  }

  ghost predicate Steadfast(turns: seq<Turn>, k: Key) {
    forall turn :: turn in turns ==> SteadyTurn(turn, k)
  }

  lemma UnbrokenIsSteadfast(turns: seq<Turn>, k: Key)
    requires Unbroken(turns, k)
    ensures Steadfast(turns, k)
  {
    forall turn | turn in turns
      ensures SteadyTurn(turn, k)
    {
      assert AllHarmless(turn.others, k);
    }
  }

  lemma SteadfastTurns(turns: seq<Turn>, k: Key)
    requires Steadfast(turns, k)
    ensures SteadyTurn(FirstTurn(turns), k) && Steadfast(LaterTurns(turns), k)
  {
    assert forall u :: u in LaterTurns(turns) ==> u in turns;
  }

  /** The world in which the next request of the reconcile is made. */
  function Then(w: World, k: Key, turns: seq<Turn>): World {
    Interfere(w, k, FirstTurn(turns).others)
  }

  /** One turn of a schedule without faults. */
  lemma TakesTurn(w: World, k: Key, turns: seq<Turn>)
    requires Base(w) && Owned(w.store) && k in w.store.tasks && k in w.jobs && !w.jobs[k].Done?
    requires SteadyTurn(FirstTurn(turns), k)
    ensures var w1 := Then(w, k, turns);
            && Stays(w.store, w1.store, k) && Base(w1) && Owned(w1.store) && w.clock <= w1.clock
            && k in w1.jobs && w1.jobs[k] == w.jobs[k]
    ensures var w2 := CalmCall(Then(w, k, turns), k);
            && Base(w2) && Owned(w2.store) && k in w2.jobs && Remaining(w2.jobs[k]) < Remaining(w.jobs[k])
            && w2.clock == Then(w, k, turns).clock
            && Drive(w, k, turns) == Drive(w2, k, LaterTurns(turns))
  {
    hide Base, Owned, CallStep, Remaining, Interfere, AllSteady, Stays;
    var turn := FirstTurn(turns);
    var w1 := Then(w, k, turns);
    InterfereStays(w, k, turn.others);
    InterfereKeepsJob(w, k, turn.others);
    CallAdvances(w1, k, Smooth, View.Live);
    CallKeepsBoth(w1, k, Smooth, View.Live);
    CallKeepsClock(w1, k);
  }

  lemma CallKeepsClock(w: World, k: Key)
    requires k in w.jobs && !w.jobs[k].Done?
    ensures CalmCall(w, k).clock == w.clock
  {
  }

  // ---- Cancellation and timeout ---------------------------------------------------------------

  /** The status that ends the task, with the whole seconds of `now`. */
  function EndStatus(s: Status, canceled: bool, now: nat): Status {
    s.(phase := if canceled then Canceled else Timeout,
       reason := if canceled then CanceledReason else TimeoutReason,
       completionTime := Some(now / 1_000_000_000))
  }

  ghost predicate PodGone(s: Store, r: PodRef) {
    r.Ref? ==> RefGone(s, r)
  }

  /** The status that ends the task, stamped between `since` and now. */
  ghost predicate EndsAs(st: Status, s: Status, canceled: bool, since: nat, now: nat) {
    exists c: nat :: since <= c <= now && st == EndStatus(s, canceled, c)
  }

  /** Where the reconcile of a canceled or timed-out task stands. */
  ghost predicate CleaningUp(w: World, k: Key, t: Task, canceled: bool, since: nat) {
    && k in w.store.tasks && w.store.tasks[k] == t && t.key == k && k in w.jobs && since <= w.clock
    && (t.status.podRef.Ref? ==> OwnRef(k, t.status.podRef))
    && w.jobs[k].Work? && w.jobs[k].seen == t
    && match w.jobs[k].pc
       case CancelLook => canceled && t.status.podRef.Ref?
       case CancelDelete => canceled && t.status.podRef.Ref?
       case PutCanceled(st) => canceled && PodGone(w.store, t.status.podRef) && EndsAs(st, t.status, canceled, since, w.clock)
       case TimeoutLook => !canceled && t.status.podRef.Ref?
       case TimeoutDelete => !canceled && t.status.podRef.Ref? && RefKey(t.status.podRef) in w.store.pods
       case PutTimeout(st) => !canceled && PodGone(w.store, t.status.podRef) && EndsAs(st, t.status, canceled, since, w.clock)
       case _ => false
  }

  /** The task differs at most in its status, which ends it, and its pod is gone. */
  ghost predicate CleanedUp(w: World, k: Key, t: Task, canceled: bool, since: nat) {
    && k in w.store.tasks
    && w.store.tasks[k] == t.(status := w.store.tasks[k].status, version := w.store.tasks[k].version)
    && EndsAs(w.store.tasks[k].status, t.status, canceled, since, w.clock)
    && PodGone(w.store, t.status.podRef)
    && k in w.jobs && w.jobs[k] == Done(Settled)
  }

  lemma StaysGone(s: Store, s': Store, k: Key, r: PodRef)
    requires Stays(s, s', k) && Owned(s') && OwnRef(k, r)
    ensures RefKey(r) in s.pods && Owned(s) ==> RefKey(r) in s'.pods
    ensures RefKey(r) !in s.pods ==> RefKey(r) !in s'.pods
  {
    NoPodThere(s', k);
    if Owned(s) {
      NoPodThere(s, k);
    }
    hide PodKey, SandboxKey, CodeKey, PolicyKey, NewPolicy;
  }

  lemma CleaningUpStays(w: World, w1: World, k: Key, t: Task, canceled: bool, since: nat)
    requires CleaningUp(w, k, t, canceled, since) && Owned(w.store) && Owned(w1.store) && Stays(w.store, w1.store, k)
    requires w.clock <= w1.clock && k in w1.jobs && w1.jobs[k] == w.jobs[k]
    ensures CleaningUp(w1, k, t, canceled, since)
  {
    if t.status.podRef.Ref? {
      StaysGone(w.store, w1.store, k, t.status.podRef);
    }
    hide Owned, Stays, RefKey, EndStatus, OwnRef;
    assert w1.store.tasks[k] == t by { StaysSame(w.store, w1.store, k); }
  }

  lemma StaysSame(s: Store, s': Store, k: Key)
    requires Stays(s, s', k)
    ensures k in s'.tasks && s'.tasks[k] == s.tasks[k]
  {
  }

  /** The only effect on the store is a new status of the task, or none. */
  ghost predicate OnlyStatus(s: Store, s': Store, k: Key, st: Status) {
    && k in s.tasks && k in s'.tasks
    && s'.tasks[k] == s.tasks[k].(status := st, version := s'.tasks[k].version)
    && s'.pods == s.pods
  }

  lemma StatusIsWritten(s: Store, k: Key, st: Status)
    requires k in s.tasks && s.tasks[k].key == k
    ensures var e := ReplaceStatus(s, k, s.tasks[k].version, st); e.reply.Ok? && OnlyStatus(s, e.store, k, st)
  {
  }

  lemma StatusPcRequest(t: Task, pc: PC, now: nat)
    requires StatusPC(pc)
    ensures RequestAt(t, pc) == PutStatus(t.key, t.version, pc.st)
    ensures pc.PutFinished? ==> AdvanceAt(t, pc, Reply.Ok, now) == Work(t, FinishDelete)
    ensures !pc.PutFinished? ==> AdvanceAt(t, pc, Reply.Ok, now).Done?
    ensures pc.PutCanceled? || pc.PutTimeout? ==> AdvanceAt(t, pc, Reply.Ok, now) == Done(Settled)
  {
  }

  /** A status write, when the task is as it was read. */
  lemma WritesStatus(w: World, k: Key, t: Task, pc: PC)
    requires k in w.jobs && w.jobs[k] == Work(t, pc)
    requires k in w.store.tasks && w.store.tasks[k] == t && t.key == k && StatusPC(pc)
    ensures OnlyStatus(w.store, CalmCall(w, k).store, k, pc.st)
    ensures k in CalmCall(w, k).jobs
    ensures pc.PutFinished? ==> CalmCall(w, k).jobs[k] == Work(t, FinishDelete)
    ensures !pc.PutFinished? ==> CalmCall(w, k).jobs[k].Done?
    ensures pc.PutCanceled? || pc.PutTimeout? ==> CalmCall(w, k).jobs[k] == Done(Settled)
  {
    StatusIsWritten(w.store, k, pc.st);
    StatusPcRequest(t, pc, w.clock);
    hide CallStep, AdvanceAt, RequestAt, ReplaceStatus;
    CalmWork(w, k, t, pc);
  }

  /** What the look for the pod and its deletion do. */
  lemma CleanUpRequests(s: Store, t: Task, pc: PC, now: nat)
    requires pc.CancelLook? || pc.CancelDelete? || pc.TimeoutLook? || pc.TimeoutDelete?
    requires pc.TimeoutDelete? ==> RefKey(t.status.podRef) in s.pods
    ensures var e, r := Respond(s, RequestAt(t, pc)), RefKey(t.status.podRef);
            var j := AdvanceAt(t, pc, e.reply, now);
            && e.store == (if pc.CancelDelete? || pc.TimeoutDelete? then s.(pods := s.pods - {r}) else s)
            && j == Work(t, if pc.CancelLook? && r in s.pods then CancelDelete
                            else if pc.TimeoutLook? && r in s.pods then TimeoutDelete
                            else if pc.CancelLook? || pc.CancelDelete? then PutCanceled(CanceledStatus(t.status, now))
                            else PutTimeout(TimeoutStatus(t.status, now)))
  {
    hide RefKey;
    assert s.pods - {RefKey(t.status.podRef)} == s.pods || RefKey(t.status.podRef) in s.pods;
  }

  lemma CleanUpCall(w: World, k: Key, t: Task, canceled: bool, since: nat)
    requires CleaningUp(w, k, t, canceled, since)
    ensures var w' := CalmCall(w, k);
            && k in w'.jobs
            && if w'.jobs[k].Done? then CleanedUp(w', k, t, canceled, since) else CleaningUp(w', k, t, canceled, since)
  {
    var pc := w.jobs[k].pc;
    if StatusPC(pc) {
      hide EndStatus, OwnRef, RefKey, CallStep;
      WritesStatus(w, k, t, pc);
      CallKeepsClock(w, k);
    } else {
      hide RequestAt, AdvanceAt, Respond, RefKey, OwnRef, CallStep;
      CleanUpRequests(w.store, t, pc, w.clock);
      CalmWork(w, k, t, pc);
      assert EndStatus(t.status, canceled, w.clock) ==
             if canceled then CanceledStatus(t.status, w.clock) else TimeoutStatus(t.status, w.clock);
    }
  }

  lemma {:induction false} DriveCleansUp(w: World, k: Key, turns: seq<Turn>, t: Task, canceled: bool, since: nat)
    requires Base(w) && Owned(w.store) && CleaningUp(w, k, t, canceled, since) && Steadfast(turns, k)
    ensures CleanedUp(Drive(w, k, turns), k, t, canceled, since)
    ensures Base(Drive(w, k, turns)) && Owned(Drive(w, k, turns).store)
    decreases Remaining(w.jobs[k])
  {
    assert k in w.jobs && w.jobs[k].Work? && k in w.store.tasks;
    hide Base, Owned, CleaningUp, CleanedUp, Steadfast, SteadyTurn, CallStep, Remaining, Interfere, Stays, Drive;
    SteadfastTurns(turns, k);
    TakesTurn(w, k, turns);
    var w1 := Then(w, k, turns);
    CleaningUpStays(w, w1, k, t, canceled, since);
    CleanUpCall(w1, k, t, canceled, since);
    var w2 := CalmCall(w1, k);
    if w2.jobs[k].Done? {
      DoneDrives(w2, k, LaterTurns(turns));
    } else {
      DriveCleansUp(w2, k, LaterTurns(turns), t, canceled, since);
    }
  }

  lemma TimedOutLater(t: Task, now: nat, later: nat)
    requires TimedOut(t, now) && now <= later
    ensures TimedOut(t, later)
  {
  }

  /** The reconcile of a canceled or timed-out task starts by cleaning up. */
  lemma FetchCleansUp(w: World, k: Key, canceled: bool)
    requires Base(w) && k in w.store.tasks && k in w.jobs && w.jobs[k].Fetch?
    requires if canceled then Canceling(w.store.tasks[k])
             else !w.store.tasks[k].deleting && !w.store.tasks[k].spec.canceled && TimedOut(w.store.tasks[k], w.clock)
    ensures CleaningUp(CalmCall(w, k), k, w.store.tasks[k], canceled, w.clock)
  {
    var t := w.store.tasks[k];
    assert Sound(w.store.guarded, t, w.clock);
    CalmFetch(w, k);
    hide CallStep, TimedOut, RefKey, PodKey, SandboxKey, ValidateSpec;
    if t.status.podRef.NoRef? {
      assert EndStatus(t.status, canceled, w.clock) ==
             if canceled then CanceledStatus(t.status, w.clock) else TimeoutStatus(t.status, w.clock);
    }
  }

  lemma SinceEarlier(w: World, k: Key, t: Task, canceled: bool, since: nat, earlier: nat)
    requires CleanedUp(w, k, t, canceled, since) && earlier <= since
    ensures CleanedUp(w, k, t, canceled, earlier)
  {
    hide RefGone, EndStatus;
  }

  lemma ReconcileCleansUp(w: World, k: Key, turns: seq<Turn>, canceled: bool)
    requires Base(w) && Owned(w.store) && k in w.store.tasks && Steadfast(turns, k)
    requires if canceled then Canceling(w.store.tasks[k])
             else !w.store.tasks[k].deleting && !w.store.tasks[k].spec.canceled && TimedOut(w.store.tasks[k], w.clock)
    ensures CleanedUp(Drive(Started(w, k), k, turns), k, w.store.tasks[k], canceled, w.clock)
    ensures Base(Drive(Started(w, k), k, turns)) && Owned(Drive(Started(w, k), k, turns).store)
  {
    hide Base, Owned, CleaningUp, CleanedUp, Steadfast, SteadyTurn, CallStep;
    hide Remaining, Interfere, Stays, Drive, TimedOut, Canceling;
    var w0 := Started(w, k);
    StartedKeepsBoth(w, k);
    SteadfastTurns(turns, k);
    TakesTurn(w0, k, turns);
    var w1 := Then(w0, k, turns);
    StaysSame(w0.store, w1.store, k);
    if !canceled {
      TimedOutLater(w.store.tasks[k], w.clock, w1.clock);
    }
    FetchCleansUp(w1, k, canceled);
    DriveCleansUp(CalmCall(w1, k), k, LaterTurns(turns), w.store.tasks[k], canceled, w1.clock);
    SinceEarlier(Drive(w0, k, turns), k, w.store.tasks[k], canceled, w1.clock, w.clock);
  }

  /** Every reconcile without faults of a task that is neither canceled nor being deleted,
      past its deadline, commits Timeout, stamped while it ran, and leaves no pod under the
      reference, whatever others do meanwhile. */
  lemma TimeoutCommits(w: World, k: Key, turns: seq<Turn>)
    requires Base(w) && Owned(w.store) && k in w.store.tasks && Steadfast(turns, k)
    requires var t := w.store.tasks[k]; !t.deleting && !t.spec.canceled && TimedOut(t, w.clock)
    ensures var t, w' := w.store.tasks[k], Drive(Started(w, k), k, turns);
            && Base(w') && Owned(w'.store) && k in w'.jobs && w'.jobs[k] == Done(Settled)
            && k in w'.store.tasks && (t.status.podRef.Ref? ==> RefGone(w'.store, t.status.podRef))
            && exists c: nat :: w.clock <= c <= w'.clock
                 && w'.store.tasks[k] == t.(version := w'.store.tasks[k].version, status := t.status.(
                      phase := Timeout, reason := TimeoutReason, completionTime := Some(c / 1_000_000_000)))
  {
    hide Base, Owned, Steadfast, Drive, TimedOut, RefGone;
    ReconcileCleansUp(w, k, turns, false);
  }

  /** Every reconcile without faults of a started task that is canceled, not being deleted
      and not finished commits Canceled and leaves no pod under the reference. */
  lemma CancelCommits(w: World, k: Key, turns: seq<Turn>)
    requires Base(w) && Owned(w.store) && k in w.store.tasks && Steadfast(turns, k)
    requires Canceling(w.store.tasks[k])
    ensures var t, w' := w.store.tasks[k], Drive(Started(w, k), k, turns);
            && Base(w') && Owned(w'.store) && k in w'.jobs && w'.jobs[k] == Done(Settled)
            && k in w'.store.tasks && (t.status.podRef.Ref? ==> RefGone(w'.store, t.status.podRef))
            && exists c: nat :: w.clock <= c <= w'.clock
                 && w'.store.tasks[k] == t.(version := w'.store.tasks[k].version, status := t.status.(
                      phase := Canceled, reason := CanceledReason, completionTime := Some(c / 1_000_000_000)))
  {
    hide Base, Owned, Steadfast, Drive, RefGone, Canceling;
    ReconcileCleansUp(w, k, turns, true);
  }
}
