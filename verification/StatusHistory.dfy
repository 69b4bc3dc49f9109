/** The status of a task over whole runs: conflicts, crashes, lost replies and
    out-of-date reads of any object included. */
module StatusHistory {
  import opened Names
  import opened Objects
  import opened Lifecycle
  import opened ApiServer
  import opened Cluster
  import opened Safety
  import opened Transitions

  lemma AlwaysBase(w0: World, run: seq<Action>)
    requires Initial(w0)
    ensures Base(Exec(w0, run))
  {
    InitialBase(w0);
    RunKeepsBase(w0, run);
  }

  /** Every committed status is a legal successor of the status committed just before it. */
  lemma EveryCommitIsLegal(w0: World, run: seq<Action>, a: Action, k: Key)
    requires Initial(w0)
    requires k in Exec(w0, run).store.tasks && k in Exec(w0, run + [a]).store.tasks
    ensures var w := Exec(w0, run);
            var t, t' := w.store.tasks[k], Exec(w0, run + [a]).store.tasks[k];
            t'.status == t.status || (Legal(t, t'.status, w.clock) && t'.spec == t.spec)
  {
    hide Exec, Step, Legal;
    AlwaysBase(w0, run);
    ExecLast(w0, run, a);
    StepEvolves(Exec(w0, run), a);
  }

  /** The status record in every reachable state, and what never changes afterwards. */
  lemma StatusRecord(w0: World, run: seq<Action>, later: seq<Action>, k: Key)
    requires Initial(w0) && k in Exec(w0, run).store.tasks
    ensures var w := Exec(w0, run);
            var s := w.store.tasks[k].status;
            && (s.startTime.Some? <==> !s.phase.NoPhase?)
            && (s.completionTime.Some? <==> Terminal(s.phase))
            && (s.completionTime.Some? ==> s.startTime.Some? && s.startTime.value <= s.completionTime.value <= Stamp(w.clock))
            && (s.phase.Pending? ==> s.podRef.NoRef?)
            && (s.phase.Scheduled? || s.phase.Running? ==> s.podRef.Ref?)
            && (s.phase.Succeeded? ==> s.podRef == Ref(PodKind, PodKey(k)))
    ensures var w, w' := Exec(w0, run), Exec(Exec(w0, run), later);
            Alive(w'.store, k, w.store.tasks[k].uid) ==>
              Descends(w.store.guarded, w.store.tasks[k], w'.store.tasks[k])
  {
    hide Exec, Step, Descends;
    AlwaysBase(w0, run);
    var w := Exec(w0, run);
    assert Sound(w.store.guarded, w.store.tasks[k], w.clock);
    if Alive(Exec(w, later).store, k, w.store.tasks[k].uid) {
      RunDescends(w, later, k);
    }
  }

  /** Finished stays finished. Succeeded and Failed change only to Timeout, and only when
      the task is past its deadline and not canceled. */
  lemma FinishedStaysFinished(w0: World, run: seq<Action>, a: Action, k: Key)
    requires Initial(w0)
    requires k in Exec(w0, run).store.tasks && k in Exec(w0, run + [a]).store.tasks
    requires Terminal(Exec(w0, run).store.tasks[k].status.phase)
    ensures var w := Exec(w0, run);
            var t, t' := w.store.tasks[k], Exec(w0, run + [a]).store.tasks[k];
            && Terminal(t'.status.phase)
            && ((t.status.phase.Succeeded? || t.status.phase.Failed?) && t'.status != t.status ==>
                  t'.status.phase.Timeout? && !t.spec.canceled && TimedOut(t, w.clock))
            && ((t.status.phase.Succeeded? || t.status.phase.Failed?) && t.spec.timeoutSeconds <= 0 ==>
                  t'.status == t.status)
  {
    EveryCommitIsLegal(w0, run, a, k);
  }

  // ---- At most six phase changes ------------------------------------------------------

  /** The number of committed phase changes of one task in a run. */
  ghost function PhaseChanges(w: World, run: seq<Action>, k: Key, uid: nat): nat
    decreases |run|
  {
    if run == [] then 0
    else
      var w1 := Step(w, run[0]);
      (if Alive(w.store, k, uid) && Alive(w1.store, k, uid)
          && w.store.tasks[k].status.phase != w1.store.tasks[k].status.phase then 1 else 0)
      + PhaseChanges(w1, run[1..], k, uid)
  }

  /** Nobody takes the cancellation of the task back during the run. */
  ghost predicate CancellationKept(w: World, run: seq<Action>, k: Key, uid: nat)
    decreases |run|
  {
    run == [] ||
    var w1 := Step(w, run[0]);
    && (Alive(w.store, k, uid) && Alive(w1.store, k, uid) && w.store.tasks[k].spec.canceled ==>
          w1.store.tasks[k].spec.canceled)
    && CancellationKept(w1, run[1..], k, uid)
  }

  ghost predicate CanceledMeansCanceled(s: Store, k: Key, uid: nat) {
    Alive(s, k, uid) && s.tasks[k].status.phase.Canceled? ==> s.tasks[k].spec.canceled
  }

  ghost function Climbed(s: Store, k: Key, uid: nat): nat {
    if Alive(s, k, uid) then Rank(s.tasks[k].status.phase) else 0
  }

  /** With cancellations kept, a step leaves the phase or climbs the order
      empty < Pending < Scheduled < Running < Succeeded, Failed < Timeout < Canceled. */
  lemma PhaseClimbs(w: World, a: Action, k: Key)
    requires Base(w) && k in w.store.tasks && k in Step(w, a).store.tasks
    requires CanceledMeansCanceled(w.store, k, w.store.tasks[k].uid)
    ensures var p, p' := w.store.tasks[k].status.phase, Step(w, a).store.tasks[k].status.phase;
            p == p' || Rank(p) < Rank(p')
    ensures w.store.tasks[k].spec.canceled ==> Step(w, a).store.tasks[k].spec.canceled ==>
              CanceledMeansCanceled(Step(w, a).store, k, w.store.tasks[k].uid)
    ensures !w.store.tasks[k].spec.canceled ==> CanceledMeansCanceled(Step(w, a).store, k, w.store.tasks[k].uid)
  {
    hide Step, RecordOk, JobSound;
    StepEvolves(w, a);
    var t, t' := w.store.tasks[k], Step(w, a).store.tasks[k];
    assert Evolves(w.store.guarded, t, t', w.clock);
    if t'.status != t.status {
      LegalClimbs(t, t'.status, w.clock);
    }
  }

  lemma {:induction false} ChangesBounded(w: World, run: seq<Action>, k: Key, uid: nat)
    requires Base(w) && CancellationKept(w, run, k, uid) && CanceledMeansCanceled(w.store, k, uid)
    requires Alive(w.store, k, uid) || w.store.version < uid
    ensures PhaseChanges(w, run, k, uid) + Climbed(w.store, k, uid) <= 6
    decreases |run|
  {
    hide Step, Legal, RecordOk, JobSound;
    if run != [] {
      var w1 := Step(w, run[0]);
      StepKeepsBase(w, run[0]);
      StepEvolves(w, run[0]);
      if Alive(w.store, k, uid) && !Alive(w1.store, k, uid) {
        NoChangesWhenGone(w1, run[1..], k, uid);
      } else if !Alive(w.store, k, uid) && w1.store.version >= uid && !Alive(w1.store, k, uid) {
        NoChangesWhenGone(w1, run[1..], k, uid);
      } else {
        if Alive(w.store, k, uid) {
          PhaseClimbs(w, run[0], k);
        }
        ChangesBounded(w1, run[1..], k, uid);
      }
    }
  }

  lemma {:induction false} NoChangesWhenGone(w: World, run: seq<Action>, k: Key, uid: nat)
    requires Base(w) && uid <= w.store.version && !Alive(w.store, k, uid)
    ensures PhaseChanges(w, run, k, uid) == 0
    decreases |run|
  {
    hide Step, Legal, RecordOk;
    if run != [] {
      StepKeepsBase(w, run[0]);
      GoneForGood(w, [run[0]], k, uid);
      OneStepRun(w, run[0]);
      NoChangesWhenGone(Step(w, run[0]), run[1..], k, uid);
    }
  }

  lemma OneStepRun(w: World, a: Action)
    ensures Exec(w, [a]) == Step(w, a)
  {
    hide Step;
    assert Exec(Step(w, a), []) == Step(w, a);
  }

  /** If its cancellation is never taken back, a task sees at most six committed phase
      changes in any run. */
  lemma AtMostSixPhaseChanges(w0: World, run: seq<Action>, k: Key, uid: nat)
    requires Initial(w0) && CancellationKept(w0, run, k, uid)
    ensures PhaseChanges(w0, run, k, uid) <= 6
  {
    hide Step, PhaseChanges, CancellationKept;
    InitialBase(w0);
    if w0.store.version < uid {
      ChangesBounded(w0, run, k, uid);
    } else {
      NoChangesWhenGone(w0, run, k, uid);
    }
  }
}
