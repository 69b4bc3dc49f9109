/** The recorded outcome of a task is the one its pod reported, in all runs. */
module Outcomes {
  import opened Names
  import opened Objects
  import opened Scan
  import opened Protocol
  import opened Lifecycle
  import opened ApiServer
  import opened Cluster
  import opened Safety
  import opened Transitions
  import opened Ownership
  import opened Cleanup
  import opened StatusHistory

  /** Exit code and result are those of the terminated task container, if there is one. */
  ghost predicate RecordsEnd(s: Status, st: Status, cs: seq<ContainerStatus>) {
    match TaskEnd(cs)
    case Some(end) =>
      && st.exitCode == end.exitCode
      && st.result == if st.phase.Succeeded? && end.message != "" then Some(end.message) else s.result
    case None => st.exitCode == s.exitCode && st.result == s.result
  }

  /** The reason of a failed pod: what its task container says, or else a failed pull. */
  ghost predicate Blames(st: Status, cs: seq<ContainerStatus>) {
    st.reason == match TaskEnd(cs)
                 case Some(end) => Reported(end.reason)
                 case None => if AnyPullFailing(cs) then ImagePullFailed else PodFailedReason
  }

  /** The answer to a look for the pod of `t`, at clock reading `now`, calls for the status
      `st`: all other fields stay, and an end is stamped with the whole seconds of `now`. */
  ghost predicate Explains(r: Reply, t: Task, st: Status, now: nat) {
    var s := t.status;
    var ended := s.(phase := st.phase, completionTime := Some(now / 1_000_000_000));
    match st.phase
    case Running => r.PodReply? && r.pod.phase.PodRunning? && s.phase.Scheduled? && st == s.(phase := Running)
    case Succeeded =>
      && r.PodReply? && st == ended.(exitCode := st.exitCode, result := st.result)
      && RecordsEnd(s, st, r.pod.containers)
      && if s.phase.Scheduled? then r.pod.phase.PodSucceeded? else RunningVerdict(r.pod).Success?
    case Failed =>
      || (r.NotFound? && st == ended.(reason := PodMissing))
      || (&& r.PodReply? && st == ended.(exitCode := st.exitCode, reason := st.reason)
          && RecordsEnd(s, st, r.pod.containers) && Blames(st, r.pod.containers)
          && if s.phase.Scheduled? then r.pod.phase.PodFailed? else RunningVerdict(r.pod).Failure?)
      || (&& r.PodReply? && st == ended.(reason := ImagePullFailed)
          && s.phase.Scheduled? && r.pod.phase.PodPending? && AnyPullFailing(r.pod.containers))
    case _ => false
  }

  /** The answer that the request of `k` gets in this step. */
  function Answer(w: World, a: Action, k: Key): Reply
    requires a.Call? && a.key == k && k in w.jobs && !w.jobs[k].Done?
  {
    Serve(w.store, RequestOf(k, w.jobs[k]), a.fault, a.view).reply
  }

  /** In this step the reconcile of `k` looks for the pod of the task as read, and the
      answer calls for the status `st`. */
  ghost predicate Told(w: World, a: Action, k: Key, t: Task, st: Status) {
    && a.Call? && a.key == k && k in w.jobs && w.jobs[k].Work? && w.jobs[k].seen == t
    && RequestOf(k, w.jobs[k]) == GetPod(RefKey(t.status.podRef))
    && Explains(Answer(w, a, k), t, st, w.clock)
  }

  /** The reconcile is about to write what a pod told it. */
  ghost predicate OutcomePC(t: Task, pc: PC) {
    pc.PutFinished? || pc.PutFailed? || (pc.PutRunning? && !IsSandboxRef(t.status.podRef))
  }

  lemma StartHasNoOutcome(t: Task, now: nat)
    ensures var j := Start(t, now); j.Work? ==> !OutcomePC(t, j.pc)
  {
    hide TimedOut;
  }

  lemma AfterPodExplains(t: Task, p: Pod, now: nat)
    ensures t.status.phase.Scheduled? ==>
              var j := AfterScheduledPod(t, p, now);
              j.Work? && OutcomePC(t, j.pc) ==> j.seen == t && Explains(PodReply(p), t, j.pc.st, now)
    ensures t.status.phase.Running? ==>
              var j := AfterRunningPod(t, p, now);
              j.Work? && OutcomePC(t, j.pc) ==> j.seen == t && Explains(PodReply(p), t, j.pc.st, now)
  {
    hide TaskEnd, AnyPullFailing;
  }

  lemma OthersHaveNoOutcome(t: Task, pc: PC, r: Reply, now: nat)
    requires !pc.LookScheduled? && !pc.LookRunning?
    ensures var j := AdvanceAt(t, pc, r, now); j.Work? ==> !OutcomePC(t, j.pc)
  {
    hide SelectBackend, ResolveImage;
  }

  /** Only an answer to a look for the pod leads to an outcome. */
  lemma OutcomeFromAnswer(t: Task, pc: PC, r: Reply, now: nat, before: nat)
    requires JobOk(t, pc, before)
    ensures var j := AdvanceAt(t, pc, r, now);
            j.Work? && OutcomePC(t, j.pc) ==>
              && j.seen == t && RequestAt(t, pc) == GetPod(RefKey(t.status.podRef)) && Explains(r, t, j.pc.st, now)
  {
    if pc.LookScheduled? || pc.LookRunning? {
      if r.PodReply? {
        AfterPodExplains(t, r.pod, now);
      }
      hide RefKey, AfterScheduledPod, AfterRunningPod, SuccessStatus, FailureStatus, RunningVerdict, AnyPullFailing;
    } else {
      hide AdvanceAt, RequestAt;
      OthersHaveNoOutcome(t, pc, r, now);
    }
  }

  lemma CallTells(w: World, a: Action, k: Key)
    requires Base(w) && a.Call? && a.key == k && k in w.jobs && !w.jobs[k].Done?
    ensures var w' := CallStep(w, k, a.fault, a.view);
            var j := w'.jobs[k];
            j.Work? && OutcomePC(j.seen, j.pc) ==> Told(w, a, k, j.seen, j.pc.st)
  {
    assert JobSound(w.store, k, w.jobs[k], w.clock);
    hide Serve, Start, AdvanceAt, RequestAt, JobOk, OutcomePC, Explains, RefKey;
    var r := Answer(w, a, k);
    match w.jobs[k]
    case Fetch =>
      if r.TaskReply? {
        StartHasNoOutcome(r.task, w.clock);
      }
    case Work(t, pc) => OutcomeFromAnswer(t, pc, r, w.clock, w.clock);
  }

  /** A reconcile about to write an outcome was so before the step or was told in it. */
  lemma StepTells(w: World, a: Action, k: Key)
    requires Base(w) && k in Step(w, a).jobs
    requires Step(w, a).jobs[k].Work? && OutcomePC(Step(w, a).jobs[k].seen, Step(w, a).jobs[k].pc)
    ensures var j := Step(w, a).jobs[k];
            (k in w.jobs && w.jobs[k] == j) || Told(w, a, k, j.seen, j.pc.st)
  {
    if a.Call? && a.key == k && Enabled(w, a) {
      StepWrites(w, a);
      hide Step, CallStep, Told, OutcomePC;
      CallTells(w, a, k);
    } else {
      hide Perform, CallStep, FinishStep, OutcomePC;
      if !(a.Begin? && a.key == k && Enabled(w, a)) {
        StepKeepsJob(w, a, k);
      }
    }
  }

  /** Some earlier step of the run told it. */
  ghost predicate ToldIn(w0: World, run: seq<Action>, k: Key, t: Task, st: Status) {
    exists n :: 0 <= n < |run| && Told(Exec(w0, run[..n]), run[n], k, t, st)
  }

  lemma ToldLater(w0: World, run: seq<Action>, a: Action, k: Key, t: Task, st: Status)
    requires ToldIn(w0, run, k, t, st) || Told(Exec(w0, run), a, k, t, st)
    ensures ToldIn(w0, run + [a], k, t, st)
  {
    hide Exec, Told;
    var longer := run + [a];
    if ToldIn(w0, run, k, t, st) {
      var n :| 0 <= n < |run| && Told(Exec(w0, run[..n]), run[n], k, t, st);
      assert longer[..n] == run[..n] && longer[n] == run[n];
    } else {
      assert longer[..|run|] == run && longer[|run|] == a;
    }
  }

  lemma {:induction false} OutcomesAreTold(w0: World, run: seq<Action>, k: Key)
    requires Initial(w0)
    ensures var w := Exec(w0, run);
            k in w.jobs && w.jobs[k].Work? && OutcomePC(w.jobs[k].seen, w.jobs[k].pc) ==>
              ToldIn(w0, run, k, w.jobs[k].seen, w.jobs[k].pc.st)
    decreases |run|
  {
    hide Exec, Step, Base, ToldIn, Told;
    if run == [] {
      ExecNothing(w0);
    } else {
      var before, a := run[..|run| - 1], run[|run| - 1];
      assert run == before + [a];
      ExecLast(w0, before, a);
      AlwaysBase(w0, before);
      OutcomesAreTold(w0, before, k);
      var w, w' := Exec(w0, before), Exec(w0, run);
      if k in w'.jobs && w'.jobs[k].Work? && OutcomePC(w'.jobs[k].seen, w'.jobs[k].pc) {
        StepTells(w, a, k);
        ToldLater(w0, before, a, k, w'.jobs[k].seen, w'.jobs[k].pc.st);
      }
    }
  }

  lemma OutcomeByPut(t: Task, pc: PC, now: nat)
    requires StatusPC(pc) && JobOk(t, pc, now)
    ensures pc.st.phase.Succeeded? ==> OutcomePC(t, pc)
    ensures pc.st.phase.Failed? && !t.status.phase.Pending? ==> OutcomePC(t, pc)
    ensures pc.st.phase.Running? && !IsSandboxRef(t.status.podRef) ==> OutcomePC(t, pc)
  {
  }

  /** Every committed success, every committed failure of a task that was dispatched, and
      every step of a pod-backed task to Running is what an earlier answer about its pod
      called for: the phase is the one reported then, exit code, result and reason are those
      of the containers, PodMissing means that no pod was found, a pull failure that a
      container showed one, and the completion time is the second of that answer. */
  lemma OutcomeWasReported(w0: World, run: seq<Action>, a: Action, k: Key)
    requires Initial(w0) && k in Exec(w0, run).store.tasks && k in Exec(w0, run + [a]).store.tasks
    requires var t, st := Exec(w0, run).store.tasks[k], Exec(w0, run + [a]).store.tasks[k].status;
             && st != t.status
             && (st.phase.Succeeded? || (st.phase.Failed? && !t.status.phase.Pending?)
                 || (st.phase.Running? && !IsSandboxRef(t.status.podRef)))
    ensures ToldIn(w0, run, k, Exec(w0, run).store.tasks[k], Exec(w0, run + [a]).store.tasks[k].status)
  {
    hide Exec, Step, JobOk, ToldIn, OutcomePC, RecordOk;
    var w := Exec(w0, run);
    AlwaysBase(w0, run);
    ExecLast(w0, run, a);
    CommittedBy(w, a, k);
    assert JobSound(w.store, k, w.jobs[k], w.clock);
    OutcomeByPut(w.jobs[k].seen, w.jobs[k].pc, w.clock);
    OutcomesAreTold(w0, run, k);
  }

  /** With a current read the answer is the stored pod. */
  lemma CurrentAnswer(w: World, a: Action, k: Key, t: Task, st: Status)
    requires Told(w, a, k, t, st) && Current(a)
    ensures var p := RefKey(t.status.podRef);
            Answer(w, a, k) == if p in w.store.pods then PodReply(w.store.pods[p]) else NotFound
  {
    hide RefKey, SuccessStatus, FailureStatus, RunningVerdict, AnyPullFailing;
  }

  // ---- Why pods are deleted ---------------------------------------------------------------------

  /** A reconcile that cleans up after an outcome has seen it stored. */
  ghost predicate Earned(s: Store, k: Key, j: Job) {
    j.Work? && j.pc.FinishDelete? && Alive(s, k, j.seen.uid) ==> Terminal(s.tasks[k].status.phase)
  }

  lemma FinishIsEarned(w: World, k: Key, fault: Fault, view: View)
    requires Base(w) && k in w.jobs && !w.jobs[k].Done?
    ensures Earned(CallStep(w, k, fault, view).store, k, CallStep(w, k, fault, view).jobs[k])
  {
    var j := w.jobs[k];
    assert JobSound(w.store, k, j, w.clock);
    if j.Work? && j.pc.PutFinished? {
      FinishedIsTerminal(j.seen, j.pc, w.clock);
      PutIsStored(w.store, j.seen, j.pc.st);
      assert RequestAt(j.seen, j.pc) == PutStatus(j.seen.key, j.seen.version, j.pc.st);
      hide ReplaceStatus, RequestAt, JobOk, Base;
    } else {
      hide Serve, RequestAt, RequestOf, JobOk, Base;
      FinishFollowsPut(j, Serve(w.store, RequestOf(k, j), fault, view).reply, w.clock);
    }
  }

  lemma FinishedIsTerminal(t: Task, pc: PC, now: nat)
    requires pc.PutFinished? && JobOk(t, pc, now)
    ensures Terminal(pc.st.phase)
  {
  }

  lemma PutIsStored(s: Store, t: Task, st: Status)
    requires t.key in s.tasks ==> s.tasks[t.key].key == t.key
    ensures var e := ReplaceStatus(s, t.key, t.version, st);
            e.reply.Ok? && t.key in e.store.tasks ==> e.store.tasks[t.key].status == st
  {
  }

  lemma FinishFollowsPut(j: Job, r: Reply, now: nat)
    requires !j.Done? && !(j.Work? && j.pc.PutFinished?)
    ensures var j' := Advance(j, r, now); j'.Work? ==> !j'.pc.FinishDelete?
  {
    hide TimedOut, SelectBackend, ResolveImage, RunningVerdict, AnyPullFailing;
  }

  lemma StepKeepsEarned(w: World, a: Action, k: Key)
    requires Base(w) && k in Step(w, a).jobs && (k in w.jobs ==> Earned(w.store, k, w.jobs[k]))
    ensures Earned(Step(w, a).store, k, Step(w, a).jobs[k])
  {
    StepWrites(w, a);
    if a.Call? && a.key == k && Enabled(w, a) {
      hide Step, CallStep, Base;
      FinishIsEarned(w, k, a.fault, a.view);
    } else if !(a.Begin? && a.key == k && Enabled(w, a)) {
      hide Step, Legal, RecordOk, JobOk;
      StepKeepsJob(w, a, k);
      assert JobSound(w.store, k, w.jobs[k], w.clock);
      StepEvolves(w, a);
      StaysTerminal(w, a, k);
    } else {
      hide CallStep, Perform;
    }
  }

  lemma StaysTerminal(w: World, a: Action, k: Key)
    requires Base(w)
    ensures k in w.store.tasks && k in Step(w, a).store.tasks && Terminal(w.store.tasks[k].status.phase) ==>
              Terminal(Step(w, a).store.tasks[k].status.phase)
    ensures k in Step(w, a).store.tasks && k !in w.store.tasks ==> Step(w, a).store.tasks[k].uid > w.store.version
    ensures k in Step(w, a).store.tasks && k in w.store.tasks ==> Step(w, a).store.tasks[k].uid == w.store.tasks[k].uid
  {
    hide Step, RecordOk, JobSound;
    StepEvolves(w, a);
    if k in w.store.tasks && k in Step(w, a).store.tasks {
      var t, t' := w.store.tasks[k], Step(w, a).store.tasks[k];
      assert Evolves(w.store.guarded, t, t', w.clock);
      if t'.status != t.status {
        LegalClimbs(t, t'.status, w.clock);
      }
    }
  }

  lemma {:induction false} RunKeepsEarned(w0: World, run: seq<Action>, k: Key)
    requires Initial(w0)
    ensures var w := Exec(w0, run); k in w.jobs ==> Earned(w.store, k, w.jobs[k])
    decreases |run|
  {
    hide Exec, Step, Base, Earned;
    if run == [] {
      ExecNothing(w0);
    } else {
      var before, a := run[..|run| - 1], run[|run| - 1];
      assert run == before + [a];
      ExecLast(w0, before, a);
      AlwaysBase(w0, before);
      RunKeepsEarned(w0, before, k);
      if k in Exec(w0, run).jobs {
        StepKeepsEarned(Exec(w0, before), a, k);
      }
    }
  }

  /** Whenever the controller deletes a pod, in any run: it is the pod of the task that it
      reconciles, and as it read that task it was being deleted, canceled or timed out, or
      an end of it is stored already. */
  lemma PodsAreDeletedForAReason(w0: World, run: seq<Action>, a: Action, p: Key)
    requires Initial(w0) && a.Call?
    requires p in Exec(w0, run).store.pods && p !in Exec(w0, run + [a]).store.pods
    ensures var w, k := Exec(w0, run), a.key;
            && p == Key(k.ns, k.name + "-pod") && k in w.jobs && w.jobs[k].Work?
            && var t := w.jobs[k].seen;
            (t.deleting || t.spec.canceled || TimedOut(t, w.clock)
             || (Alive(w.store, k, t.uid) ==> Terminal(w.store.tasks[k].status.phase)))
  {
    var w, k := Exec(w0, run), a.key;
    InitialBase(w0);
    assert Owned(w0.store);
    hide Exec, Step, CallStep, TimedOut;
    AlwaysBase(w0, run);
    RunKeepsOwned(w0, run);
    RunKeepsEarned(w0, run, k);
    ExecLast(w0, run, a);
    StepWrites(w, a);
    assert Enabled(w, a);
    CallWrites(w, k, a.fault, a.view);
    DeletesForAReason(w, k, p);
  }

  lemma DeletesForAReason(w: World, k: Key, p: Key)
    requires Base(w) && Owned(w.store) && k in w.jobs && !w.jobs[k].Done? && Earned(w.store, k, w.jobs[k])
    requires p in w.store.pods && p !in Respond(w.store, RequestOf(k, w.jobs[k])).store.pods
    ensures p == PodKey(k) && w.jobs[k].Work?
    ensures var t := w.jobs[k].seen;
            t.deleting || t.spec.canceled || TimedOut(t, w.clock)
            || (Alive(w.store, k, t.uid) ==> Terminal(w.store.tasks[k].status.phase))
  {
    var j := w.jobs[k];
    assert JobSound(w.store, k, j, w.clock);
    Footprint(w.store, k, j);
    assert j.Work? && DeletePC(j.pc) && p == RefKey(j.seen.status.podRef);
    assert Sound(w.store.guarded, j.seen, w.clock);
    DeletesOwnPod(k, j, w.clock);
    NoPodThere(w.store, k);
    hide Respond, RequestOf, TimedOut;
  }
}
