/** The invariant of all runs: crashes, conflicts, lost replies and out-of-date
    reads included. */
module Safety {
  import opened Names
  import opened Objects
  import opened Webhook
  import opened Protocol
  import opened Lifecycle
  import opened ApiServer
  import opened Cluster

  /** Stored values are remembered, and a version identifies one stored value. */
  ghost predicate History(s: Store) {
    && (forall k :: k in s.tasks ==> s.tasks[k].key == k && s.tasks[k] in s.past)
    && (forall t :: t in s.past ==> t.uid <= t.version <= s.version)
    && (forall t, u :: t in s.past && u in s.past && t.version == u.version ==> t == u)
  }

  /** A stored value is well-formed and, behind the webhook, has a valid spec whose
      profile was always resolved. */
  ghost predicate Sound(guarded: bool, t: Task, now: nat) {
    && RecordOk(t, now)
    && (guarded ==> ValidateSpec(t.spec).Allowed? && !t.status.reason.ProfileResolutionFailed?)
  }

  ghost predicate Recorded(s: Store, now: nat) {
    forall t :: t in s.past ==> Sound(s.guarded, t, now)
  }

  ghost predicate StoreOk(s: Store, now: nat) {
    History(s) && Recorded(s, now)
  }

  /** A reconcile works on some stored value of its own task, and what it is about
      to do is justified by that value. */
  ghost predicate JobSound(s: Store, k: Key, j: Job, now: nat) {
    j.Work? ==>
      && j.seen in s.past && j.seen.key == k
      && JobOk(j.seen, j.pc, now)
      && (s.guarded && j.pc.PutRejected? ==> !j.pc.st.reason.ProfileResolutionFailed?)
  }

  ghost predicate Base(w: World) {
    && StoreOk(w.store, w.clock)
    && (forall k :: k in w.jobs ==> JobSound(w.store, k, w.jobs[k], w.clock))
    && (w.store.guarded ==> forall id :: id in w.drafts ==> ValidateSpec(w.drafts[id].spec).Allowed?)
  }

  // ---- Store operations ---------------------------------------------------------

  /** What an operation may do to the store as far as this invariant goes. */
  ghost predicate Extends(s: Store, s': Store, now: nat) {
    StoreOk(s', now) && s.past <= s'.past && s'.guarded == s.guarded && s.version <= s'.version
  }

  lemma SaveOk(s: Store, t: Task, now: nat)
    requires StoreOk(s, now) && Sound(s.guarded, t.(version := s.version + 1), now) && t.uid <= s.version + 1
    ensures Extends(s, Save(s, t).store, now)
  {
  }

  lemma CondemnOk(s: Store, k: Key, now: nat)
    requires StoreOk(s, now)
    ensures Extends(s, Condemn(s, k).store, now)
  {
    if k in s.tasks && s.tasks[k].finalizer && !s.tasks[k].deleting {
      SaveOk(s, s.tasks[k].(deleting := true), now);
    }
  }

  lemma PerformOk(s: Store, c: Change, now: nat)
    requires StoreOk(s, now)
    ensures Extends(s, Perform(s, c).store, now)
  {
    hide Extends, Condemn, EditSpec;
    match c
    case Edit(k, spec) => EditOk(s, k, spec, now);
    case Remove(k) => CondemnOk(s, k, now);
    case _ => OtherChangeOk(s, c, now);
  }

  lemma EditOk(s: Store, k: Key, spec: Spec, now: nat)
    requires StoreOk(s, now)
    ensures Extends(s, EditSpec(s, k, spec).store, now)
  {
    if EditSpec(s, k, spec).store != s {
      SaveOk(s, s.tasks[k].(spec := spec), now);
    }
  }

  lemma OtherChangeOk(s: Store, c: Change, now: nat)
    requires StoreOk(s, now) && !c.Edit? && !c.Remove?
    ensures Extends(s, Perform(s, c).store, now)
  {
    hide RecordOk, ValidateSpec;
  }

  /** The version check: a write that is not a conflict finds exactly the task as read. */
  lemma VersionMatch(s: Store, t: Task)
    requires History(s) && t in s.past && t.key in s.tasks && s.tasks[t.key].version == t.version
    ensures s.tasks[t.key] == t
  {
  }

  lemma StatusWriteOk(s: Store, t: Task, st: Status, now: nat)
    requires StoreOk(s, now) && t in s.past && t.finalizer && Legal(t, st, now)
    requires s.guarded ==> !st.reason.ProfileResolutionFailed?
    ensures Extends(s, ReplaceStatus(s, t.key, t.version, st).store, now)
  {
    if ReplaceStatus(s, t.key, t.version, st).store != s {
      VersionMatch(s, t);
      LegalKeepsRecord(t, st, now);
      SaveOk(s, t.(status := st), now);
    }
  }

  lemma FinalizerWriteOk(s: Store, t: Task, finalizer: bool, now: nat)
    requires StoreOk(s, now) && t in s.past && (if finalizer then !t.deleting else t.deleting)
    ensures Extends(s, ReplaceTask(s, t.key, t.version, t.spec, finalizer).store, now)
    ensures !ReplaceTask(s, t.key, t.version, t.spec, finalizer).reply.Denied?
  {
    if t.key in s.tasks && s.tasks[t.key].version == t.version {
      VersionMatch(s, t);
      if finalizer && !t.finalizer {
        SaveOk(s, t.(finalizer := true), now);
      }
    }
  }

  /** The requests that write a status. */
  ghost predicate StatusPC(pc: PC) {
    || pc.PutPending? || pc.PutCanceled? || pc.PutTimeout? || pc.PutScheduled? || pc.PutRejected?
    || pc.PutRunning? || pc.PutFailed? || pc.PutFinished?
  }

  lemma StatusJob(t: Task, pc: PC, now: nat)
    requires StatusPC(pc) && JobOk(t, pc, now)
    ensures t.finalizer && Legal(t, pc.st, now)
    ensures RequestAt(t, pc) == PutStatus(t.key, t.version, pc.st)
    ensures pc.st.reason.ProfileResolutionFailed? && !pc.PutRejected? ==> t.status.reason.ProfileResolutionFailed?
  {
  }

  lemma ObjectWriteOk(s: Store, q: Request, now: nat)
    requires StoreOk(s, now) && !q.PutTask? && !q.PutStatus? && !q.DeleteTask?
    ensures Extends(s, Respond(s, q).store, now)
    ensures !Respond(s, q).reply.Denied?
  {
    hide RecordOk, ValidateSpec;
  }

  lemma RespondOk(s: Store, k: Key, j: Job, now: nat)
    requires StoreOk(s, now) && JobSound(s, k, j, now) && !j.Done?
    ensures Extends(s, Respond(s, RequestOf(k, j)).store, now)
    ensures !Respond(s, RequestOf(k, j)).reply.Denied?
  {
    hide Extends;
    var q := RequestOf(k, j);
    if j.Fetch? {
      ObjectWriteOk(s, q, now);
    } else if StatusPC(j.pc) {
      StatusJob(j.seen, j.pc, now);
      assert Sound(s.guarded, j.seen, now);
      StatusWriteOk(s, j.seen, j.pc.st, now);
    } else if j.pc.AddFinalizer? || j.pc.DropFinalizer? {
      FinalizerWriteOk(s, j.seen, j.pc.AddFinalizer?, now);
    } else if j.pc.ExpireTask? {
      CondemnOk(s, j.seen.key, now);
    } else {
      ObjectWriteOk(s, q, now);
    }
  }

  // ---- Steps -----------------------------------------------------------------------

  lemma JobsSurvive(s: Store, s': Store, k: Key, j: Job, now: nat, later: nat)
    requires JobSound(s, k, j, now) && now <= later
    requires s.past <= s'.past && s'.guarded == s.guarded
    ensures JobSound(s', k, j, later)
  {
    if j.Work? {
      TimePasses(j.seen, j.pc, now, later);
    }
  }

  /** The reply to a read of the task is some stored value of it. */
  lemma JobAdvances(s: Store, s': Store, k: Key, j: Job, r: Reply, now: nat)
    requires StoreOk(s', now) && JobSound(s, k, j, now) && !j.Done?
    requires s.past <= s'.past && s'.guarded == s.guarded
    requires j.Fetch? && r.TaskReply? ==> r.task in s'.past && r.task.key == k
    ensures JobSound(s', k, Advance(j, r, now), now)
  {
    match j
    case Fetch =>
      if r.TaskReply? {
        StartOk(r.task, now);
      }
    case Work(t, pc) =>
      AdvanceOk(t, pc, r, now);
      if s.guarded {
        AdmittedProfileResolves(t, pc, r, now);
      }
  }

  /** A profile that the webhook admits has a default image on either backend. */
  lemma AdmittedProfileResolves(t: Task, pc: PC, r: Reply, now: nat)
    requires ValidateSpec(t.spec).Allowed?
    ensures var j := AdvanceAt(t, pc, r, now);
            j.Work? && j.pc.PutRejected? ==> j.pc.st.reason.BackendSelectionFailed?
  {
    match pc
    case LookScheduled =>
    case LookRunning =>
    case _ =>
  }

  lemma CallKeepsBase(w: World, k: Key, fault: Fault, view: View)
    requires Base(w) && k in w.jobs && !w.jobs[k].Done?
    ensures Base(CallStep(w, k, fault, view))
    ensures Extends(w.store, CallStep(w, k, fault, view).store, w.clock)
  {
    hide Advance, Respond, JobSound;
    var j := w.jobs[k];
    var q := RequestOf(k, j);
    var e := Serve(w.store, q, fault, view);
    RespondOk(w.store, k, j, w.clock);
    StoreUnchanged(w.store, w.clock);
    FetchReply(w.store, k, j, fault, view);
    JobAdvances(w.store, e.store, k, j, e.reply, w.clock);
    forall i | i in w.jobs
      ensures JobSound(e.store, i, w.jobs[i], w.clock)
    {
      JobsSurvive(w.store, e.store, i, w.jobs[i], w.clock, w.clock);
    }
  }

  lemma StoreUnchanged(s: Store, now: nat)
    requires StoreOk(s, now)
    ensures Extends(s, s, now)
  {
  }

  lemma FetchReply(s: Store, k: Key, j: Job, fault: Fault, view: View)
    requires History(s) && !j.Done?
    ensures var e := Serve(s, RequestOf(k, j), fault, view);
            j.Fetch? && e.reply.TaskReply? ==> e.store == s && e.reply.task in s.past && e.reply.task.key == k
  {
  }

  lemma StepKeepsBase(w: World, a: Action)
    requires Base(w)
    ensures Base(Step(w, a))
    ensures Extends(w.store, Step(w, a).store, Step(w, a).clock)
  {
    hide JobSound, RecordOk, ValidateUpdate;
    var w' := Step(w, a);
    StoreUnchanged(w.store, w.clock);
    if Enabled(w, a) {
      match a
      case Outside(c) => PerformOk(w.store, c, w.clock); JobsOk(w, w');
      case Commit(id) => CommitKeepsBase(w, id);
      case Tick(d) => StoreAges(w.store, w.clock, w'.clock); JobsOk(w, w');
      case Begin(k) => JobsOk(w, w'.(jobs := w.jobs)); FetchSound(w.store, k, w.clock);
      case Call(k, fault, view) => CallKeepsBase(w, k, fault, view);
      case _ =>
    }
  }

  lemma FetchSound(s: Store, k: Key, now: nat)
    ensures JobSound(s, k, Fetch, now)
  {
  }

  lemma StoreAges(s: Store, now: nat, later: nat)
    requires StoreOk(s, now) && now <= later
    ensures Extends(s, s, later)
  {
    forall t | t in s.past
      ensures RecordOk(t, later)
    {
      assert Sound(s.guarded, t, now);
      TimePasses(t, AddFinalizer, now, later);
    }
  }

  lemma JobsOk(w: World, w': World)
    requires Base(w) && Extends(w.store, w'.store, w'.clock) && w.clock <= w'.clock && w'.jobs == w.jobs
    ensures forall k :: k in w'.jobs ==> JobSound(w'.store, k, w'.jobs[k], w'.clock)
  {
    forall k | k in w'.jobs
      ensures JobSound(w'.store, k, w'.jobs[k], w'.clock)
    {
      JobsSurvive(w.store, w'.store, k, w.jobs[k], w.clock, w'.clock);
    }
  }

  lemma CommitKeepsBase(w: World, id: nat)
    requires Base(w) && id in w.drafts
    ensures Base(CommitStep(w, id))
    ensures Extends(w.store, CommitStep(w, id).store, w.clock)
  {
    hide JobSound;
    SaveOk(w.store, NewTask(w.store, w.drafts[id].key, w.drafts[id].spec), w.clock);
    JobsOk(w, CommitStep(w, id));
  }

  lemma {:induction false} RunKeepsBase(w: World, run: seq<Action>)
    requires Base(w)
    ensures Base(Exec(w, run))
    decreases |run|
  {
    if run != [] {
      StepKeepsBase(w, run[0]);
      RunKeepsBase(Step(w, run[0]), run[1..]);
    }
  }

  lemma {:induction false} RunKeepsGuard(w: World, run: seq<Action>)
    requires Base(w)
    ensures Exec(w, run).store.guarded == w.store.guarded
    decreases |run|
  {
    hide Base, Step;
    if run != [] {
      StepKeepsBase(w, run[0]);
      RunKeepsGuard(Step(w, run[0]), run[1..]);
    }
  }

  lemma InitialBase(w: World)
    requires Initial(w)
    ensures Base(w)
  {
  }
}
