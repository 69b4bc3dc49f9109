/** What one step may do to a task, and what follows for the whole life of a task
    in every run, out-of-date reads, conflicts and crashes included. */
module Transitions {
  import opened Names
  import opened Objects
  import opened Webhook
  import opened Protocol
  import opened Lifecycle
  import opened ApiServer
  import opened Cluster
  import opened Safety

  /** One step of the system, as seen by a task that is stored before and after it. */
  ghost predicate Evolves(guarded: bool, t: Task, t': Task, now: nat) {
    && t'.key == t.key && t'.uid == t.uid && t.version <= t'.version
    && (t'.status == t.status || Legal(t, t'.status, now))
    && (t.deleting ==> t'.deleting)
    && (t.finalizer ==> t'.finalizer)
    && (guarded ==> t'.spec.source == t.spec.source && t'.spec.runtimeProfile == t.spec.runtimeProfile)
    && (t'.status != t.status ==> t'.spec == t.spec && t'.finalizer == t.finalizer && t'.deleting == t.deleting)
  }

  ghost predicate AllEvolve(s: Store, s': Store, now: nat) {
    forall k :: k in s.tasks && k in s'.tasks ==> Evolves(s.guarded, s.tasks[k], s'.tasks[k], now)
  }

  /** No operation on tasks other than creation adds a key. */
  ghost predicate NoNewTasks(s: Store, s': Store) {
    s'.tasks.Keys <= s.tasks.Keys
  }

  lemma SaveEvolves(s: Store, t: Task, now: nat)
    requires History(s) && t.key in s.tasks
    requires Evolves(s.guarded, s.tasks[t.key], t.(version := s.version + 1), now)
    ensures AllEvolve(s, Save(s, t).store, now) && NoNewTasks(s, Save(s, t).store)
  {
  }

  lemma CondemnEvolves(s: Store, k: Key, now: nat)
    requires History(s)
    ensures AllEvolve(s, Condemn(s, k).store, now) && NoNewTasks(s, Condemn(s, k).store)
  {
    hide Legal;
    if k in s.tasks && s.tasks[k].finalizer && !s.tasks[k].deleting {
      SaveEvolves(s, s.tasks[k].(deleting := true), now);
    }
  }

  lemma PerformEvolves(s: Store, c: Change, now: nat)
    requires History(s)
    ensures AllEvolve(s, Perform(s, c).store, now) && NoNewTasks(s, Perform(s, c).store)
  {
    hide Legal, ValidateSpec;
    match c
    case Edit(k, spec) =>
      if EditSpec(s, k, spec).store != s {
        SaveEvolves(s, s.tasks[k].(spec := spec), now);
      }
    case Remove(k) => CondemnEvolves(s, k, now);
    case _ =>
  }

  lemma StatusWriteEvolves(s: Store, t: Task, st: Status, now: nat)
    requires History(s) && t in s.past && Legal(t, st, now)
    ensures var s' := ReplaceStatus(s, t.key, t.version, st).store;
            AllEvolve(s, s', now) && NoNewTasks(s, s')
  {
    hide Legal;
    if ReplaceStatus(s, t.key, t.version, st).store != s {
      VersionMatch(s, t);
      SaveEvolves(s, t.(status := st), now);
    }
  }

  lemma FinalizerWriteEvolves(s: Store, t: Task, finalizer: bool, now: nat)
    requires History(s) && t in s.past && (finalizer || t.deleting)
    ensures var s' := ReplaceTask(s, t.key, t.version, t.spec, finalizer).store;
            AllEvolve(s, s', now) && NoNewTasks(s, s')
  {
    hide Legal, ValidateUpdate, Save, AllEvolve, Drop;
    Unchanged(s, now);
    DropEvolves(s, t.key, now);
    if t.key in s.tasks && s.tasks[t.key].version == t.version {
      VersionMatch(s, t);
      if finalizer {
        SaveEvolves(s, t.(finalizer := true), now);
      }
    }
  }

  lemma DropEvolves(s: Store, k: Key, now: nat)
    ensures AllEvolve(s, Drop(s, k).store, now) && NoNewTasks(s, Drop(s, k).store)
  {
    hide Legal;
  }

  lemma ObjectWriteKeepsTasks(s: Store, q: Request)
    requires !q.PutTask? && !q.PutStatus? && !q.DeleteTask?
    ensures Respond(s, q).store.tasks == s.tasks
  {
  }

  lemma ObjectWriteEvolves(s: Store, q: Request, now: nat)
    requires !q.PutTask? && !q.PutStatus? && !q.DeleteTask?
    ensures AllEvolve(s, Respond(s, q).store, now) && NoNewTasks(s, Respond(s, q).store)
  {
    hide Respond, Legal;
    ObjectWriteKeepsTasks(s, q);
  }

  lemma RespondEvolves(s: Store, k: Key, j: Job, now: nat)
    requires StoreOk(s, now) && JobSound(s, k, j, now) && !j.Done?
    ensures var s' := Respond(s, RequestOf(k, j)).store;
            AllEvolve(s, s', now) && NoNewTasks(s, s')
  {
    hide Legal, Evolves, AllEvolve, RecordOk, ReplaceTask, ReplaceStatus, Condemn;
    var q := RequestOf(k, j);
    if j.Work? && StatusPC(j.pc) {
      StatusJob(j.seen, j.pc, now);
      StatusWriteEvolves(s, j.seen, j.pc.st, now);
    } else if j.Work? && (j.pc.AddFinalizer? || j.pc.DropFinalizer?) {
      FinalizerWriteEvolves(s, j.seen, j.pc.AddFinalizer?, now);
    } else if j.Work? && j.pc.ExpireTask? {
      CondemnEvolves(s, j.seen.key, now);
    } else {
      ObjectWriteEvolves(s, q, now);
    }
  }

  lemma Unchanged(s: Store, now: nat)
    ensures AllEvolve(s, s, now) && NoNewTasks(s, s)
  {
  }

  /** Every step: the tasks that stay evolve legally, and only a commit adds one. */
  lemma StepEvolves(w: World, a: Action)
    requires Base(w)
    ensures AllEvolve(w.store, Step(w, a).store, w.clock)
    ensures forall k :: k in Step(w, a).store.tasks && k !in w.store.tasks ==>
                          && a.Commit? && a.id in w.drafts && w.drafts[a.id].key == k
                          && Step(w, a).store.tasks[k].status == EmptyStatus
                          && Step(w, a).store.tasks[k].uid > w.store.version
  {
    hide Legal, JobSound, RecordOk, Step, Evolves;
    if Enabled(w, a) && a.Outside? {
      OutsideEvolves(w, a.change);
    } else if Enabled(w, a) && a.Call? {
      CallEvolves(w, a);
    } else {
      QueueEvolves(w, a);
    }
  }

  lemma OutsideEvolves(w: World, c: Change)
    requires Base(w)
    ensures var s' := Step(w, Outside(c)).store;
            AllEvolve(w.store, s', w.clock) && NoNewTasks(w.store, s')
  {
    hide Legal, JobSound, RecordOk, Perform, Evolves;
    PerformEvolves(w.store, c, w.clock);
  }

  lemma CallEvolves(w: World, a: Action)
    requires Base(w) && a.Call? && Enabled(w, a)
    ensures AllEvolve(w.store, Step(w, a).store, w.clock) && NoNewTasks(w.store, Step(w, a).store)
  {
    hide Legal, RecordOk, JobOk, Respond, Evolves;
    assert JobSound(w.store, a.key, w.jobs[a.key], w.clock);
    RespondEvolves(w.store, a.key, w.jobs[a.key], w.clock);
    Unchanged(w.store, w.clock);
  }

  lemma CommitEvolves(w: World, id: nat)
    requires Base(w) && Enabled(w, Commit(id))
    ensures var s', k := CommitStep(w, id).store, w.drafts[id].key;
            && AllEvolve(w.store, s', w.clock) && s'.tasks.Keys == w.store.tasks.Keys + {k}
            && s'.tasks[k].status == EmptyStatus && s'.tasks[k].uid > w.store.version
  {
    hide Legal, JobSound, RecordOk;
  }

  lemma QueueEvolves(w: World, a: Action)
    requires Base(w) && (!Enabled(w, a) || (!a.Call? && !a.Outside?))
    ensures var s' := Step(w, a).store;
            && AllEvolve(w.store, s', w.clock)
            && forall k :: k in s'.tasks && k !in w.store.tasks ==>
                             && a.Commit? && a.id in w.drafts && w.drafts[a.id].key == k
                             && s'.tasks[k].status == EmptyStatus && s'.tasks[k].uid > w.store.version
  {
    StepWrites(w, a);
    hide Step, Evolves, RecordOk, JobSound;
    Unchanged(w.store, w.clock);
    if a.Commit? && Enabled(w, a) {
      CommitEvolves(w, a.id);
    }
  }

  // ---- The whole life of a task -----------------------------------------------------

  ghost predicate Alive(s: Store, k: Key, uid: nat) {
    k in s.tasks && s.tasks[k].uid == uid
  }

  /** What lasts between two values of the same task, the second one later. */
  ghost predicate Descends(guarded: bool, t: Task, t': Task) {
    && t'.uid == t.uid
    && (t.status.startTime.Some? ==> t'.status.startTime == t.status.startTime)
    && (t.status.podRef.Ref? ==> t'.status.podRef == t.status.podRef)
    && (t.status.completionTime.Some? ==>
          t'.status.completionTime.Some? && t.status.completionTime.value <= t'.status.completionTime.value)
    && (Terminal(t.status.phase) ==> Terminal(t'.status.phase))
    && (t.deleting ==> t'.deleting)
    && (guarded ==> t'.spec.source == t.spec.source && t'.spec.runtimeProfile == t.spec.runtimeProfile)
  }

  lemma EvolvesDescends(guarded: bool, t: Task, t': Task, now: nat)
    requires Evolves(guarded, t, t', now) && RecordOk(t, now)
    ensures Descends(guarded, t, t')
  {
  }

  lemma StepDescends(w: World, a: Action, k: Key)
    requires Base(w) && k in w.store.tasks && k in Step(w, a).store.tasks
    ensures Descends(w.store.guarded, w.store.tasks[k], Step(w, a).store.tasks[k])
  {
    hide Step, Legal, RecordOk, Evolves, JobSound;
    StepEvolves(w, a);
    assert Sound(w.store.guarded, w.store.tasks[k], w.clock);
    EvolvesDescends(w.store.guarded, w.store.tasks[k], Step(w, a).store.tasks[k], w.clock);
  }

  /** A task that is gone never comes back; its name may return under another uid. */
  lemma {:induction false} GoneForGood(w: World, run: seq<Action>, k: Key, uid: nat)
    requires Base(w) && uid <= w.store.version && !Alive(w.store, k, uid)
    ensures !Alive(Exec(w, run).store, k, uid)
    decreases |run|
  {
    if run != [] {
      StepEvolves(w, run[0]);
      StepKeepsBase(w, run[0]);
      GoneForGood(Step(w, run[0]), run[1..], k, uid);
    }
  }

  /** Between any two moments of a run: the start time, the reference, the source and the
      profile stay, the completion time does not move back, and finished stays finished. */
  lemma {:induction false} RunDescends(w: World, run: seq<Action>, k: Key)
    requires Base(w) && k in w.store.tasks && Alive(Exec(w, run).store, k, w.store.tasks[k].uid)
    ensures Descends(w.store.guarded, w.store.tasks[k], Exec(w, run).store.tasks[k])
    decreases |run|
  {
    hide Step, Legal, RecordOk;
    if run != [] {
      var w1 := Step(w, run[0]);
      StepKeepsBase(w, run[0]);
      assert w.store.tasks[k] in w.store.past;
      if k !in w1.store.tasks {
        GoneForGood(w1, run[1..], k, w.store.tasks[k].uid);
        assert false;
      }
      StepDescends(w, run[0], k);
      RunDescends(w1, run[1..], k);
    }
  }
}
