/** The life of a task's status: which writes are legal after which status, what
    every stored record satisfies, and that the automaton keeps to it. */
module Lifecycle {
  import opened Names
  import opened Objects
  import opened Protocol

  /** A reference to the task's own pod or sandbox. */
  ghost predicate OwnRef(key: Key, r: PodRef) {
    r == Ref(PodKind, PodKey(key)) || r == Ref(SandboxKind, SandboxKey(key))
  }

  /** The write stamps a completion time that is not before any stored time. */
  ghost predicate Completes(s: Status, s': Status, now: nat) {
    && s'.completionTime.Some?
    && s'.completionTime.value <= Stamp(now)
    && (s.startTime.Some? ==> s.startTime.value <= s'.completionTime.value)
    && (s.completionTime.Some? ==> s.completionTime.value <= s'.completionTime.value)
  }

  /** The status `s'` may be committed right after the stored task `t`, no later than `now`. */
  ghost predicate Legal(t: Task, s': Status, now: nat) {
    var s := t.status;
    match s'.phase
    case NoPhase => false
    case Pending =>
      && s.phase.NoPhase?
      && s'.startTime.Some? && s'.startTime.value <= Stamp(now)
      && s' == s.(phase := Pending, startTime := s'.startTime)
    case Scheduled =>
      && s.phase.Pending?
      && OwnRef(t.key, s'.podRef)
      && s' == s.(phase := Scheduled, podRef := s'.podRef)
    case Running => s.phase.Scheduled? && s' == s.(phase := Running)
    case Succeeded =>
      && (s.phase.Scheduled? || s.phase.Running?) && IsPodRef(s.podRef)
      && Completes(s, s', now)
      && s' == s.(phase := Succeeded, completionTime := s'.completionTime, result := s'.result, exitCode := s'.exitCode)
    case Failed =>
      && Completes(s, s', now)
      && if s.phase.Pending?
         then (s'.reason.BackendSelectionFailed? || s'.reason.ProfileResolutionFailed?)
              && s' == s.(phase := Failed, completionTime := s'.completionTime, reason := s'.reason)
         else (s.phase.Scheduled? || s.phase.Running?) && IsPodRef(s.podRef)
              && (s'.reason.PodMissing? || s'.reason.ImagePullFailed? || s'.reason.PodFailedReason? || s'.reason.Reported?)
              && s' == s.(phase := Failed, completionTime := s'.completionTime, reason := s'.reason, exitCode := s'.exitCode)
    case Timeout =>
      && !s.phase.NoPhase? && !t.spec.canceled && TimedOut(t, now)
      && Completes(s, s', now)
      && s' == s.(phase := Timeout, reason := TimeoutReason, completionTime := s'.completionTime)
    case Canceled =>
      && t.spec.canceled
      && (s.phase.Pending? || s.phase.Scheduled? || s.phase.Running? || s.phase.Timeout?)
      && Completes(s, s', now)
      && s' == s.(phase := Canceled, reason := CanceledReason, completionTime := s'.completionTime)
  }

  /** What every stored task satisfies at every moment of every run. */
  ghost predicate RecordOk(t: Task, now: nat) {
    var s := t.status;
    && (s.startTime.Some? <==> !s.phase.NoPhase?)
    && (s.startTime.Some? ==> s.startTime.value <= Stamp(now))
    && (s.completionTime.Some? <==> Terminal(s.phase))
    && (s.completionTime.Some? ==> s.startTime.Some? && s.startTime.value <= s.completionTime.value <= Stamp(now))
    && (s.phase.NoPhase? || s.phase.Pending? ==> s.podRef.NoRef?)
    && (s.phase.Scheduled? || s.phase.Running? ==> s.podRef.Ref?)
    && (s.phase.Succeeded? ==> IsPodRef(s.podRef))
    && (s.podRef.Ref? ==> OwnRef(t.key, s.podRef))
    && (!s.phase.NoPhase? ==> t.finalizer)
    && (t.deleting ==> t.finalizer)
  }

  /** The task is past the deletion, finalizer and initialization branches. */
  ghost predicate InService(t: Task) {
    !t.deleting && t.finalizer && !t.status.phase.NoPhase?
  }

  ghost predicate Dispatching(t: Task) {
    InService(t) && t.status.phase.Pending? && !t.spec.canceled
  }

  ghost predicate Watching(t: Task) {
    && InService(t) && !t.spec.canceled && IsPodRef(t.status.podRef)
    && (t.status.phase.Scheduled? || t.status.phase.Running?)
  }

  ghost predicate Canceling(t: Task) {
    InService(t) && t.spec.canceled && !t.status.phase.Succeeded? && !t.status.phase.Failed? && !t.status.phase.Canceled?
  }

  ghost predicate TimingOut(t: Task, now: nat) {
    InService(t) && !t.spec.canceled && TimedOut(t, now)
  }

  /** Expired, and not so late that the timeout check came first. */
  ghost predicate Expired(t: Task, now: nat) {
    && InService(t) && !t.spec.canceled && Terminal(t.status.phase) && t.status.completionTime.Some? && t.spec.ttl.Some?
    && now > Expiration(t.status.completionTime.value, t.spec.ttl.value)
    && (t.spec.timeoutSeconds > 0 && t.status.startTime.Some? ==>
          Expiration(t.status.completionTime.value, t.spec.ttl.value) < Deadline(t.status.startTime.value, t.spec.timeoutSeconds))
  }

  /** The config map that holds the code of the task: the user's, or the one made from the
      source, or none. */
  ghost predicate CodeFor(t: Task, code: string) {
    if t.spec.configMapRef.Some? then code == t.spec.configMapRef.value
    else code == if t.spec.source != "" then t.key.name + "-code" else ""
  }

  /** What holds of the task as read when a reconcile has come to a request. */
  ghost predicate JobOk(t: Task, pc: PC, now: nat) {
    match pc
    case AddFinalizer => !t.deleting && !t.finalizer
    case FinalizeLook => t.deleting && t.finalizer && t.status.podRef.Ref?
    case FinalizeDelete => t.deleting && t.finalizer && t.status.podRef.Ref?
    case DropFinalizer => t.deleting && t.finalizer
    case PutPending(st) => !t.deleting && t.finalizer && st.phase.Pending? && Legal(t, st, now)
    case CancelLook => Canceling(t) && t.status.podRef.Ref?
    case CancelDelete => Canceling(t) && t.status.podRef.Ref?
    case PutCanceled(st) => Canceling(t) && st.phase.Canceled? && Legal(t, st, now)
    case TimeoutLook => TimingOut(t, now) && t.status.podRef.Ref?
    case TimeoutDelete => TimingOut(t, now) && t.status.podRef.Ref?
    case PutTimeout(st) => TimingOut(t, now) && st.phase.Timeout? && Legal(t, st, now)
    case LookCode => Dispatching(t) && t.spec.configMapRef.None? && t.spec.source != ""
    case MakeCode => Dispatching(t) && t.spec.configMapRef.None? && t.spec.source != ""
    case LookPolicy(code) => Dispatching(t) && CodeFor(t, code)
    case MakePolicy(code) => Dispatching(t) && CodeFor(t, code)
    case LookCrd(code) => Dispatching(t) && CodeFor(t, code)
    case LookProfiles(code, _) => Dispatching(t) && CodeFor(t, code)
    case LookSandbox(_) => Dispatching(t)
    case MakeSandbox(_) => Dispatching(t)
    case LookPod(code, _) => Dispatching(t) && CodeFor(t, code)
    case MakePod(code, _) => Dispatching(t) && CodeFor(t, code)
    case PutScheduled(st) => Dispatching(t) && st.phase.Scheduled? && Legal(t, st, now)
    case PutRejected(st) => Dispatching(t) && st.phase.Failed? && Legal(t, st, now)
    case LookScheduled => Watching(t) && t.status.phase.Scheduled?
    case LookRunning => Watching(t) && t.status.phase.Running?
    case PutRunning(st) => InService(t) && !t.spec.canceled && st.phase.Running? && Legal(t, st, now)
    case PutFailed(st) => Watching(t) && st.phase.Failed? && Legal(t, st, now)
    case PutFinished(st) => Watching(t) && (st.phase.Succeeded? || st.phase.Failed?) && Legal(t, st, now)
    case FinishDelete => Watching(t)
    case ExpireTask => Expired(t, now)
  }

  lemma TimePasses(t: Task, pc: PC, now: nat, later: nat)
    requires now <= later
    ensures RecordOk(t, now) ==> RecordOk(t, later)
    ensures JobOk(t, pc, now) ==> JobOk(t, pc, later)
    ensures forall s :: Legal(t, s, now) ==> Legal(t, s, later)
  {
    assert Stamp(now) <= Stamp(later);
  }

  /** The first request after reading a well-formed record is justified. */
  lemma StartOk(t: Task, now: nat)
    requires RecordOk(t, now)
    ensures var j := Start(t, now);
            j.Work? ==> j.seen == t && JobOk(t, j.pc, now)
  {
    hide StartPhase;
    if InService(t) && !t.spec.canceled && !TimedOut(t, now) {
      StartPhaseOk(t, now);
    }
  }

  lemma StartPhaseOk(t: Task, now: nat)
    requires RecordOk(t, now) && InService(t) && !t.spec.canceled && !TimedOut(t, now)
    ensures var j := StartPhase(t, now);
            j.Work? ==> j.seen == t && JobOk(t, j.pc, now)
  {
    hide Stamp;
  }

  /** The requests that dispatch a pending task, up to the status update. */
  ghost predicate DispatchPC(pc: PC) {
    || pc.LookCode? || pc.MakeCode? || pc.LookPolicy? || pc.MakePolicy? || pc.LookCrd? || pc.LookProfiles?
    || pc.LookSandbox? || pc.MakeSandbox? || pc.LookPod? || pc.MakePod?
  }

  /** Whatever a request is answered, the next one is justified and writes only a
      status that is legal after the one that was read. */
  lemma AdvanceOk(t: Task, pc: PC, r: Reply, now: nat)
    requires RecordOk(t, now) && JobOk(t, pc, now)
    ensures var j := AdvanceAt(t, pc, r, now);
            j.Work? ==> j.seen == t && JobOk(t, j.pc, now)
  {
    if DispatchPC(pc) {
      DispatchOk(t, pc, r, now);
    } else if pc.LookScheduled? || pc.LookRunning? {
      WatchOk(t, pc, r, now);
    } else {
      CleanUpOk(t, pc, r, now);
    }
  }

  lemma DispatchOk(t: Task, pc: PC, r: Reply, now: nat)
    requires RecordOk(t, now) && JobOk(t, pc, now) && DispatchPC(pc)
    ensures var j := AdvanceAt(t, pc, r, now);
            j.Work? ==> j.seen == t && JobOk(t, j.pc, now)
  {
    hide ResolveImage, SelectBackend, TimedOut;
  }

  lemma WatchOk(t: Task, pc: PC, r: Reply, now: nat)
    requires RecordOk(t, now) && JobOk(t, pc, now) && (pc.LookScheduled? || pc.LookRunning?)
    ensures var j := AdvanceAt(t, pc, r, now);
            j.Work? ==> j.seen == t && JobOk(t, j.pc, now)
  {
    if r.PodReply? {
      AfterPodOk(t, r.pod, now);
    }
  }

  lemma CleanUpOk(t: Task, pc: PC, r: Reply, now: nat)
    requires RecordOk(t, now) && JobOk(t, pc, now) && !DispatchPC(pc) && !pc.LookScheduled? && !pc.LookRunning?
    ensures var j := AdvanceAt(t, pc, r, now);
            j.Work? ==> j.seen == t && JobOk(t, j.pc, now)
  {
  }

  lemma AfterPodOk(t: Task, p: Pod, now: nat)
    requires RecordOk(t, now) && Watching(t)
    ensures t.status.phase.Scheduled? ==>
              var j := AfterScheduledPod(t, p, now); j.Work? ==> j.seen == t && JobOk(t, j.pc, now)
    ensures var j := AfterRunningPod(t, p, now); j.Work? ==> j.seen == t && JobOk(t, j.pc, now)
  {
  }

  /** A legal write keeps the record well-formed. */
  lemma LegalKeepsRecord(t: Task, s: Status, now: nat)
    requires RecordOk(t, now) && t.finalizer && Legal(t, s, now)
    ensures RecordOk(t.(status := s), now)
  {
  }

  // ---- The order of the phases ---------------------------------------------------

  function Rank(p: Phase): nat {
    match p
    case NoPhase => 0
    case Pending => 1
    case Scheduled => 2
    case Running => 3
    case Succeeded => 4
    case Failed => 4
    case Timeout => 5
    case Canceled => 6
  }

  /** A legal write climbs the order of the phases or rewrites a timeout; only a task
      whose cancellation was taken back can go down, from Canceled to Timeout. */
  lemma LegalClimbs(t: Task, s: Status, now: nat)
    requires Legal(t, s, now)
    ensures || Rank(t.status.phase) < Rank(s.phase)
            || (t.status.phase.Timeout? && s.phase.Timeout?)
            || (t.status.phase.Canceled? && s.phase.Timeout? && !t.spec.canceled)
    ensures Terminal(t.status.phase) ==> Terminal(s.phase)
  {
  }
}
