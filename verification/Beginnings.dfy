/** The start time of a task: it is the second in which the controller first read the task,
    and timeouts count from there, in all runs. */
module Beginnings {
  import opened Names
  import opened Objects
  import opened Protocol
  import opened Lifecycle
  import opened ApiServer
  import opened Cluster
  import opened Safety
  import opened Transitions
  import opened Cleanup
  import opened StatusHistory
  import opened Outcomes

  /** In this step the reconcile of `k` reads the task, which has the identity `uid` and no
      phase yet, and `start` is the whole seconds of the clock. */
  ghost predicate Begins(w: World, a: Action, k: Key, uid: nat, start: nat) {
    && a.Call? && a.key == k && k in w.jobs && w.jobs[k].Fetch?
    && Answer(w, a, k).TaskReply? && Answer(w, a, k).task.uid == uid && Answer(w, a, k).task.status.phase.NoPhase?
    && start == w.clock / 1_000_000_000
  }

  /** Step `n` of the run is such a step. */
  ghost predicate BeginsAt(w0: World, run: seq<Action>, n: nat, k: Key, uid: nat, start: nat) {
    n < |run| && Begins(Exec(w0, run[..n]), run[n], k, uid, start)
  }

  ghost predicate BegunIn(w0: World, run: seq<Action>, k: Key, uid: nat, start: Option<nat>) {
    start.Some? && exists n :: 0 <= n < |run| && BeginsAt(w0, run, n, k, uid, start.value)
  }

  lemma BegunLater(w0: World, run: seq<Action>, a: Action, k: Key, uid: nat, start: Option<nat>)
    requires start.Some?
    requires BegunIn(w0, run, k, uid, start) || Begins(Exec(w0, run), a, k, uid, start.value)
    ensures BegunIn(w0, run + [a], k, uid, start)
  {
    hide Exec, Begins;
    var longer := run + [a];
    if BegunIn(w0, run, k, uid, start) {
      var n :| 0 <= n < |run| && BeginsAt(w0, run, n, k, uid, start.value);
      assert longer[..n] == run[..n] && longer[n] == run[n];
      assert BeginsAt(w0, longer, n, k, uid, start.value);
    } else {
      assert longer[..|run|] == run && longer[|run|] == a;
      assert BeginsAt(w0, longer, |run|, k, uid, start.value);
    }
  }

  // ---- Every step ---------------------------------------------------------------------------

  lemma StartBegins(t: Task, now: nat)
    ensures var j := Start(t, now);
            j.Work? && j.pc.PutPending? ==>
              j.seen == t && t.status.phase.NoPhase? && j.pc.st.startTime == Some(now / 1_000_000_000)
  {
    hide TimedOut;
  }

  lemma NoOtherBegins(t: Task, pc: PC, r: Reply, now: nat)
    ensures var j := AdvanceAt(t, pc, r, now); j.Work? ==> !j.pc.PutPending?
  {
    hide SelectBackend, ResolveImage;
  }

  lemma CallBegins(w: World, a: Action, k: Key)
    requires a.Call? && a.key == k && k in w.jobs && !w.jobs[k].Done?
    ensures var j := CallStep(w, k, a.fault, a.view).jobs[k];
            j.Work? && j.pc.PutPending? ==>
              j.pc.st.startTime.Some? && Begins(w, a, k, j.seen.uid, j.pc.st.startTime.value)
  {
    hide Serve, Start, AdvanceAt, RequestOf;
    var r := Answer(w, a, k);
    match w.jobs[k]
    case Fetch =>
      if r.TaskReply? {
        StartBegins(r.task, w.clock);
      }
    case Work(t, pc) => NoOtherBegins(t, pc, r, w.clock);
  }

  /** A reconcile about to write Pending was so before the step or read the task in it. */
  lemma StepBegins(w: World, a: Action, k: Key)
    requires k in Step(w, a).jobs && Step(w, a).jobs[k].Work? && Step(w, a).jobs[k].pc.PutPending?
    ensures var j := Step(w, a).jobs[k];
            (k in w.jobs && w.jobs[k] == j)
            || (j.pc.st.startTime.Some? && Begins(w, a, k, j.seen.uid, j.pc.st.startTime.value))
  {
    StepWrites(w, a);
    if a.Call? && a.key == k && Enabled(w, a) {
      hide Step, CallStep, Begins;
      CallBegins(w, a, k);
    } else {
      hide Perform, CallStep, FinishStep;
      if !(a.Begin? && a.key == k && Enabled(w, a)) {
        StepKeepsJob(w, a, k);
      }
    }
  }

  /** A status with a start time was stored before with the same one or is the Pending that
      the reconcile was about to write. */
  lemma StartIsKept(w: World, a: Action, k: Key)
    requires Base(w) && k in Step(w, a).store.tasks && Step(w, a).store.tasks[k].status.startTime.Some?
    ensures k in w.store.tasks && w.store.tasks[k].uid == Step(w, a).store.tasks[k].uid
    ensures var t, t' := w.store.tasks[k], Step(w, a).store.tasks[k];
            || t.status.startTime == t'.status.startTime
            || (&& k in w.jobs && w.jobs[k].Work? && w.jobs[k].pc.PutPending? && w.jobs[k].seen == t
                && t'.status == w.jobs[k].pc.st)
  {
    hide Step, JobOk, RecordOk;
    StepEvolves(w, a);
    assert k in w.store.tasks;
    var t, t' := w.store.tasks[k], Step(w, a).store.tasks[k];
    assert Evolves(w.store.guarded, t, t', w.clock);
    if t.status != t'.status {
      CommittedBy(w, a, k);
      assert JobSound(w.store, k, w.jobs[k], w.clock);
      OnlyPendingStarts(t, w.jobs[k].pc, w.clock);
    }
  }

  lemma OnlyPendingStarts(t: Task, pc: PC, now: nat)
    requires StatusPC(pc) && JobOk(t, pc, now)
    ensures pc.PutPending? || pc.st.startTime == t.status.startTime
  {
  }

  // ---- Every run ------------------------------------------------------------------------------

  lemma {:induction false} StartsAreBegun(w0: World, run: seq<Action>, k: Key)
    requires Initial(w0)
    ensures var w := Exec(w0, run);
            && (k in w.store.tasks && w.store.tasks[k].status.startTime.Some? ==>
                  BegunIn(w0, run, k, w.store.tasks[k].uid, w.store.tasks[k].status.startTime))
            && (k in w.jobs && w.jobs[k].Work? && w.jobs[k].pc.PutPending? ==>
                  BegunIn(w0, run, k, w.jobs[k].seen.uid, w.jobs[k].pc.st.startTime))
    decreases |run|
  {
    hide Exec, Step, Base, BegunIn, Begins;
    if run == [] {
      ExecNothing(w0);
    } else {
      var before, a := run[..|run| - 1], run[|run| - 1];
      assert run == before + [a];
      ExecLast(w0, before, a);
      AlwaysBase(w0, before);
      StartsAreBegun(w0, before, k);
      var w, w' := Exec(w0, before), Exec(w0, run);
      if k in w'.store.tasks && w'.store.tasks[k].status.startTime.Some? {
        StartIsKept(w, a, k);
        BegunLater(w0, before, a, k, w'.store.tasks[k].uid, w'.store.tasks[k].status.startTime);
      }
      if k in w'.jobs && w'.jobs[k].Work? && w'.jobs[k].pc.PutPending? {
        StepBegins(w, a, k);
        HasStart(w0, before, k, w'.jobs[k]);
        BegunLater(w0, before, a, k, w'.jobs[k].seen.uid, w'.jobs[k].pc.st.startTime);
      }
    }
  }

  lemma HasStart(w0: World, run: seq<Action>, k: Key, j: Job)
    requires j.Work? && j.pc.PutPending?
    ensures BegunIn(w0, run, k, j.seen.uid, j.pc.st.startTime) ==> j.pc.st.startTime.Some?
  {
    hide Exec, Begins;
  }

  /** In every reachable state: a stored start time is the second in which an earlier step
      of the run read this very task without a phase. A task with a timeout T > 0 is timed
      out only more than T+1 seconds after that step, and always more than T+2 seconds
      after it. */
  lemma TimeoutCountsFromStart(w0: World, run: seq<Action>, k: Key)
    requires Initial(w0) && k in Exec(w0, run).store.tasks && Exec(w0, run).store.tasks[k].status.startTime.Some?
    ensures var w := Exec(w0, run);
            var t := w.store.tasks[k];
            exists n :: 0 <= n < |run| && BeginsAt(w0, run, n, k, t.uid, t.status.startTime.value)
              && var began := Exec(w0, run[..n]).clock;
              && (TimedOut(t, w.clock) ==> w.clock > began + (t.spec.timeoutSeconds + 1) * 1_000_000_000)
              && (t.spec.timeoutSeconds > 0 && w.clock > began + (t.spec.timeoutSeconds + 2) * 1_000_000_000 ==>
                    TimedOut(t, w.clock))
  {
    StartsAreBegun(w0, run, k);
    var w := Exec(w0, run);
    var t := w.store.tasks[k];
    var n :| 0 <= n < |run| && BeginsAt(w0, run, n, k, t.uid, t.status.startTime.value);
    TruncatedStart(t, Exec(w0, run[..n]).clock, w.clock);
    hide Exec, TimedOut;
  }

  lemma TruncatedStart(t: Task, began: nat, now: nat)
    requires t.status.startTime == Some(began / 1_000_000_000)
    ensures TimedOut(t, now) ==> now > began + (t.spec.timeoutSeconds + 1) * 1_000_000_000
    ensures t.spec.timeoutSeconds > 0 && now > began + (t.spec.timeoutSeconds + 2) * 1_000_000_000 ==> TimedOut(t, now)
  {
  }

  /** No run commits Timeout until more than T+1 seconds after the step that first read the
      task. */
  lemma NoEarlyTimeout(w0: World, run: seq<Action>, a: Action, k: Key)
    requires Initial(w0)
    requires k in Exec(w0, run).store.tasks && k in Exec(w0, run + [a]).store.tasks
    requires var s, s' := Exec(w0, run).store.tasks[k].status, Exec(w0, run + [a]).store.tasks[k].status;
             s != s' && s'.phase.Timeout?
    ensures var w := Exec(w0, run);
            var t := w.store.tasks[k];
            && t.status.startTime.Some?
            && exists n :: 0 <= n < |run| && BeginsAt(w0, run, n, k, t.uid, t.status.startTime.value)
                 && w.clock > Exec(w0, run[..n]).clock + (t.spec.timeoutSeconds + 1) * 1_000_000_000
  {
    EveryCommitIsLegal(w0, run, a, k);
    var w := Exec(w0, run);
    var t := w.store.tasks[k];
    assert TimedOut(t, w.clock) && t.status.startTime.Some?;
    hide Exec, TimedOut, BeginsAt, Legal;
    TimeoutCountsFromStart(w0, run, k);
  }
}
