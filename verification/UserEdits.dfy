/** What users can change behind the webhook, and that a cancellation takes effect. */
module UserEdits {
  import opened Names
  import opened Objects
  import opened Webhook
  import opened Lifecycle
  import opened ApiServer
  import opened Cluster
  import opened Safety
  import opened Ownership
  import opened Undisturbed
  import opened Cleanup
  import opened StatusHistory
  import opened Progress
  import opened Endings

  /** A spec that the webhook lets stand after another one. */
  ghost predicate MayFollow(old_: Spec, new_: Spec) {
    && new_.runtimeProfile == old_.runtimeProfile && new_.source == old_.source
    && 0 < new_.timeoutSeconds <= 3600
  }

  lemma EditIsExact(s: Store, k: Key, spec: Spec)
    requires s.guarded && k in s.tasks && s.tasks[k].key == k && ValidateSpec(s.tasks[k].spec).Allowed?
    ensures var t, s' := s.tasks[k], EditSpec(s, k, spec).store;
            && k in s'.tasks
            && (if MayFollow(t.spec, spec) then s'.tasks[k] == t.(spec := spec, version := s'.tasks[k].version)
                else s' == s)
            && (EditSpec(s, k, spec).reply.Denied? <==> !MayFollow(t.spec, spec))
  {
  }

  /** In every reachable state behind the webhook a user's edit of a stored task takes effect
      if and only if it keeps the profile and the source and asks for a timeout of 1 to 3600
      seconds; nothing else of the task changes, and a refused edit changes nothing. */
  lemma EditTakesEffect(w0: World, run: seq<Action>, k: Key, spec: Spec)
    requires Initial(w0) && w0.store.guarded && k in Exec(w0, run).store.tasks
    ensures var t, s' := Exec(w0, run).store.tasks[k], Exec(w0, run + [Outside(Edit(k, spec))]).store;
            var allowed := && spec.runtimeProfile == t.spec.runtimeProfile && spec.source == t.spec.source
                           && 0 < spec.timeoutSeconds <= 3600;
            && k in s'.tasks
            && (s'.tasks[k].spec == spec <==> allowed)
            && (allowed ==> s'.tasks[k] == t.(spec := spec, version := s'.tasks[k].version))
            && (!allowed ==> s' == Exec(w0, run).store)
  {
    var w, a := Exec(w0, run), Outside(Edit(k, spec));
    hide Exec, Step, EditSpec, RecordOk, JobSound;
    AlwaysBase(w0, run);
    InitialBase(w0);
    RunKeepsGuard(w0, run);
    ExecLast(w0, run, a);
    StepWrites(w, a);
    assert Sound(w.store.guarded, w.store.tasks[k], w.clock);
    EditIsExact(w.store, k, spec);
    StoredSpec(w.store.tasks[k].spec);
  }

  lemma StoredSpec(s: Spec)
    requires ValidateSpec(s).Allowed?
    ensures s.runtimeProfile in {"python3.10", "python3.11"} && 0 < s.timeoutSeconds <= 3600
  {
  }

  /** Behind the webhook every stored spec has a known profile and a timeout of 1 to 3600
      seconds. */
  lemma StoredSpecs(w0: World, run: seq<Action>, k: Key)
    requires Initial(w0) && w0.store.guarded && k in Exec(w0, run).store.tasks
    ensures var s := Exec(w0, run).store.tasks[k].spec;
            s.runtimeProfile in {"python3.10", "python3.11"} && 0 < s.timeoutSeconds <= 3600
  {
    var w := Exec(w0, run);
    hide Exec, RecordOk, JobSound;
    AlwaysBase(w0, run);
    InitialBase(w0);
    RunKeepsGuard(w0, run);
    assert Sound(w.store.guarded, w.store.tasks[k], w.clock);
    StoredSpec(w.store.tasks[k].spec);
  }

  /** Without the webhook every edit takes effect. */
  lemma UnguardedEdit(s: Store, k: Key, spec: Spec)
    requires !s.guarded && k in s.tasks && s.tasks[k].key == k
    ensures var t, s' := s.tasks[k], EditSpec(s, k, spec).store;
            k in s'.tasks && s'.tasks[k] == t.(spec := spec, version := s'.tasks[k].version)
  {
  }

  /** A user's deletion of a stored task always takes effect: the task is marked, or removed
      at once when it has no finalizer yet; nothing else of it changes. */
  lemma RemovalTakesEffect(w0: World, run: seq<Action>, k: Key)
    requires Initial(w0) && k in Exec(w0, run).store.tasks
    ensures var t, s' := Exec(w0, run).store.tasks[k], Exec(w0, run + [Outside(Remove(k))]).store;
            if t.finalizer then k in s'.tasks && s'.tasks[k] == t.(deleting := true, version := s'.tasks[k].version)
            else k !in s'.tasks
  {
    var w, a := Exec(w0, run), Outside(Remove(k));
    hide Exec, Step, Condemn, RecordOk, JobSound, ValidateSpec;
    AlwaysBase(w0, run);
    ExecLast(w0, run, a);
    StepWrites(w, a);
    CondemnIsExact(w.store, k);
  }

  lemma CondemnIsExact(s: Store, k: Key)
    requires k in s.tasks && s.tasks[k].key == k
    ensures var t, s' := s.tasks[k], Condemn(s, k).store;
            if t.finalizer then k in s'.tasks && s'.tasks[k] == t.(deleting := true, version := s'.tasks[k].version)
            else k !in s'.tasks
  {
  }

  // ---- A cancellation takes effect ---------------------------------------------------------------

  /** A canceled task that is not being deleted and has not finished in another way. */
  ghost predicate Unfinished(t: Task) {
    !t.deleting && t.spec.canceled && !t.status.phase.Succeeded? && !t.status.phase.Failed?
  }

  ghost predicate CanceledWithoutPod(s: Store, k: Key) {
    && k in s.tasks && s.tasks[k].status.phase.Canceled?
    && (s.tasks[k].status.podRef.Ref? ==> RefGone(s, s.tasks[k].status.podRef))
  }

  /** How many reconciles a canceled task still takes. */
  function ToCanceled(t: Task): nat {
    if t.status.phase.Canceled? then 0
    else if !t.finalizer then 3
    else if t.status.phase.NoPhase? then 2
    else 1
  }

  /** The world after one reconcile under each schedule. */
  function AfterAll(w: World, k: Key, plans: seq<seq<Turn>>): World
    decreases |plans|
  {
    if plans == [] then w else AfterAll(Drive(Started(w, k), k, plans[0]), k, plans[1..])
  }

  ghost predicate AllSteadfast(plans: seq<seq<Turn>>, k: Key) {
    forall turns :: turns in plans ==> Steadfast(turns, k)
  }

  lemma CancelStep(w: World, k: Key, turns: seq<Turn>)
    requires Base(w) && Owned(w.store) && k in w.store.tasks && Steadfast(turns, k)
    requires Unfinished(w.store.tasks[k]) && ToCanceled(w.store.tasks[k]) > 0
    ensures var w' := Drive(Started(w, k), k, turns);
            && Base(w') && Owned(w'.store) && k in w'.store.tasks && Unfinished(w'.store.tasks[k])
            && ToCanceled(w'.store.tasks[k]) == ToCanceled(w.store.tasks[k]) - 1
            && (ToCanceled(w'.store.tasks[k]) == 0 ==> CanceledWithoutPod(w'.store, k))
  {
    var t := w.store.tasks[k];
    assert Sound(w.store.guarded, t, w.clock);
    assert !t.finalizer ==> t.status.phase.NoPhase?;
    hide Base, Owned, Drive, Steadfast, Started, RefGone, Sound;
    if !t.finalizer {
      FinalizerIsAdded(w, k, turns);
    } else if t.status.phase.NoPhase? {
      PendingIsCommitted(w, k, turns);
    } else {
      CancelCommits(w, k, turns);
    }
  }

  lemma {:induction false} CancelEnds(w: World, k: Key, plans: seq<seq<Turn>>)
    requires Base(w) && Owned(w.store) && k in w.store.tasks && Unfinished(w.store.tasks[k]) && AllSteadfast(plans, k)
    requires 0 < |plans| == ToCanceled(w.store.tasks[k])
    ensures CanceledWithoutPod(AfterAll(w, k, plans).store, k)
    decreases |plans|
  {
    hide Base, Owned, Drive, Steadfast, Started, Unfinished, CanceledWithoutPod, ToCanceled;
    assert plans[0] in plans;
    assert forall turns :: turns in plans[1..] ==> turns in plans;
    CancelStep(w, k, plans[0]);
    var w1 := Drive(Started(w, k), k, plans[0]);
    if plans[1..] != [] {
      CancelEnds(w1, k, plans[1..]);
    } else {
      assert AfterAll(w1, k, plans[1..]) == w1;
    }
  }

  /** In every reachable state a user can cancel any stored task, behind the webhook as
      without it, and if the task is not being deleted and not finished, the reconciles
      without faults that follow, at most three, end in Canceled with its pod gone. */
  lemma UserCancels(w0: World, run: seq<Action>, k: Key, plans: seq<seq<Turn>>)
    requires Initial(w0) && k in Exec(w0, run).store.tasks && AllSteadfast(plans, k)
    requires var t := Exec(w0, run).store.tasks[k];
             && !t.deleting && !Terminal(t.status.phase)
             && |plans| == (if !t.finalizer then 3 else if t.status.phase.NoPhase? then 2 else 1)
    ensures var t := Exec(w0, run).store.tasks[k];
            var w' := Exec(w0, run + [Outside(Edit(k, t.spec.(canceled := true)))]);
            && k in w'.store.tasks && w'.store.tasks[k].spec == t.spec.(canceled := true)
            && w'.store.tasks[k].status == t.status
            && CanceledWithoutPod(AfterAll(w', k, plans).store, k)
  {
    var w := Exec(w0, run);
    var t := w.store.tasks[k];
    var a := Outside(Edit(k, t.spec.(canceled := true)));
    StartsOwned(w0);
    hide Exec, Base, Owned, AllSteadfast, AfterAll, CanceledWithoutPod, Drive, Started, Step;
    RunKeepsBase(w0, run);
    RunKeepsOwned(w0, run);
    ExecLast(w0, run, a);
    CancelEdit(w, k);
    var w' := Exec(w0, run + [a]);
    SameRoute(t, w'.store.tasks[k]);
    hide Unfinished, ToCanceled;
    CancelEnds(w', k, plans);
  }

  lemma StartsOwned(w0: World)
    requires Initial(w0)
    ensures Base(w0) && Owned(w0.store)
  {
    InitialBase(w0);
  }

  lemma SameRoute(t: Task, t': Task)
    requires t' == t.(spec := t.spec.(canceled := true), version := t'.version) && !t.deleting && !Terminal(t.status.phase)
    ensures Unfinished(t') && ToCanceled(t') == if !t.finalizer then 3 else if t.status.phase.NoPhase? then 2 else 1
  {
  }

  /** Canceling a stored task is always admitted. */
  lemma CancelEdit(w: World, k: Key)
    requires Base(w) && Owned(w.store) && k in w.store.tasks
    ensures var t := w.store.tasks[k];
            var w' := Step(w, Outside(Edit(k, t.spec.(canceled := true))));
            && Base(w') && Owned(w'.store) && k in w'.store.tasks
            && w'.store.tasks[k] == t.(spec := t.spec.(canceled := true), version := w'.store.tasks[k].version)
  {
    var t := w.store.tasks[k];
    var a := Outside(Edit(k, t.spec.(canceled := true)));
    assert Sound(w.store.guarded, t, w.clock) && t.key == k;
    hide Step, EditSpec, RecordOk, JobSound, Owned, Base;
    StepKeepsBase(w, a);
    StepKeepsOwned(w, a);
    StepWrites(w, a);
    if w.store.guarded {
      EditIsExact(w.store, k, t.spec.(canceled := true));
      StoredSpec(t.spec);
    } else {
      UnguardedEdit(w.store, k, t.spec.(canceled := true));
    }
  }
}
