/** Crash idempotence: dispatch attempts cut off anywhere, with the rest of the cluster
    at work in between, followed by a complete one. */
module Attempts {
  import opened Names
  import opened Objects
  import opened Protocol
  import opened Lifecycle
  import opened ApiServer
  import opened Cluster
  import opened Safety
  import opened Ownership
  import opened Undisturbed
  import opened Dispatch

  // ---- The rest of the cluster ---------------------------------------------------------

  /** A step that changes neither what the dispatch of `k` depends on (its spec, the
      CRD, the profile map) nor what it made. */
  ghost predicate Harmless(a: Action, k: Key) {
    match a
    case Outside(Edit(i, _)) => i != k
    case Outside(Remove(i)) => i != k
    case Outside(EditMap(i, _)) => i != ProfilesKey(k.ns)
    case Outside(PodReports(_, _, _)) => true
    case Outside(PodVanishes(p)) => p != PodKey(k)
    case Outside(Sweep(i)) => i != k
    case Outside(SetCrd(_)) => false
    case _ => true
  }

  ghost predicate SameScene(s: Store, s': Store, k: Key) {
    k in s.tasks && k in s'.tasks && SceneOf(s', k) == SceneOf(s, k)
  }

  lemma HarmlessChange(s: Store, c: Change, k: Key)
    requires Owned(s) && k in s.tasks && (forall i :: i in s.tasks ==> s.tasks[i].key == i)
    requires Harmless(Outside(c), k)
    ensures SameScene(s, Perform(s, c).store, k)
  {
    match c
    case Edit(i, spec) => EditTouches(s, i, spec); hide EditSpec;
    case Remove(i) => CondemnTouches(s, i); hide Condemn;
    case _ => HarmlessReport(s, c, k);
  }

  lemma PodReportIsHarmless(s: Store, c: Change, k: Key)
    requires k in s.tasks && Harmless(Outside(c), k) && (c.PodReports? || c.PodVanishes? || c.SetCrd?)
    ensures SameScene(s, Perform(s, c).store, k)
  {
    hide CodeKey, PolicyKey, SandboxKey, ProfilesKey, PodKey;
  }

  lemma HarmlessReport(s: Store, c: Change, k: Key)
    requires k in s.tasks && Harmless(Outside(c), k) && !c.Edit? && !c.Remove?
    ensures SameScene(s, Perform(s, c).store, k)
  {
    if c.EditMap? {
      CodeHasSuffix(k);
      hide CodeKey, PolicyKey, SandboxKey, ProfilesKey, PodKey, HasSuffix, EditSpec, Condemn;
    } else if c.Sweep? {
      CodeIsNoProfiles(c.key, k.ns);
      DistinctNames(c.key, k);
      hide CodeKey, PolicyKey, SandboxKey, ProfilesKey, PodKey, HasSuffix, EditSpec, Condemn;
    } else {
      PodReportIsHarmless(s, c, k);
    }
  }

  lemma CodeHasSuffix(k: Key)
    ensures HasSuffix(CodeKey(k).name, "-code")
  {
  }

  lemma DistinctNames(i: Key, k: Key)
    requires i != k
    ensures PodKey(i) != PodKey(k) && SandboxKey(i) != SandboxKey(k)
    ensures CodeKey(i) != CodeKey(k) && PolicyKey(i) != PolicyKey(k)
    ensures SandboxKey(i) != PodKey(k)
  {
    if PodKey(i) == PodKey(k) || SandboxKey(i) == SandboxKey(k) || CodeKey(i) == CodeKey(k) || PolicyKey(i) == PolicyKey(k) {
      DerivedNamesInjective(i, k);
    }
    SandboxIsNoPod(i, k);
  }

  lemma OtherCallKeepsScene(w: World, i: Key, fault: Fault, view: View, k: Key)
    requires Base(w) && i in w.jobs && !w.jobs[i].Done? && i != k && k in w.store.tasks
    ensures SameScene(w.store, CallStep(w, i, fault, view).store, k)
  {
    var s, j := w.store, w.jobs[i];
    assert JobSound(s, i, j, w.clock);
    if j.Work? && DeletePC(j.pc) {
      assert Sound(s.guarded, j.seen, w.clock);
      DeletesOwnPod(i, j, w.clock);
    }
    hide SceneOf, Respond, RequestOf, CallStep, RecordOk, JobOk, OwnRef, PodFootprint, ObjectFootprint;
    CallWrites(w, i, fault, view);
    Footprint(s, i, j);
    FootprintKeepsScene(s, Respond(s, RequestOf(i, j)).store, i, j, k);
  }

  lemma FootprintKeepsScene(s: Store, s': Store, i: Key, j: Job, k: Key)
    requires k in s.tasks && i != k
    requires SameOthers(s, s', i) && PodFootprint(s, s', i, j) && ObjectFootprint(s, s', i, j)
    requires j.Work? && DeletePC(j.pc) ==> OwnRef(i, j.seen.status.podRef)
    ensures SameScene(s, s', k)
  {
    DistinctNames(i, k);
    CodeIsNoProfiles(i, k.ns);
    hide PodKey, SandboxKey, CodeKey, PolicyKey, ProfilesKey, NewPolicy, NewPod, NewCodeMap, NewSandbox;
  }

  lemma HarmlessStep(w: World, a: Action, k: Key)
    requires Base(w) && Owned(w.store) && k in w.store.tasks && Foreign(a, k) && Harmless(a, k)
    ensures SameScene(w.store, Step(w, a).store, k)
  {
    hide SceneOf, Perform, CallStep, JobOk, Recorded, Owned;
    if Enabled(w, a) {
      match a
      case Outside(c) => HarmlessChange(w.store, c, k);
      case Call(i, fault, view) => OtherCallKeepsScene(w, i, fault, view, k);
      case Commit(id) => CommitKeepsScene(w, id, k);
      case _ =>
    }
  }

  lemma CommitKeepsScene(w: World, id: nat, k: Key)
    requires id in w.drafts && Free(w.store, w.drafts[id].key) && k in w.store.tasks
    ensures SameScene(w.store, CommitStep(w, id).store, k)
  {
  }

  ghost predicate AllHarmless(others: seq<Action>, k: Key) {
    forall a :: a in others ==> Harmless(a, k)
  }

  lemma {:induction false} InterfereKeepsScene(w: World, k: Key, others: seq<Action>)
    requires Base(w) && Owned(w.store) && k in w.store.tasks && AllHarmless(others, k)
    ensures SameScene(w.store, Interfere(w, k, others).store, k)
    ensures Base(Interfere(w, k, others)) && Owned(Interfere(w, k, others).store)
    decreases |others|
  {
    hide Base, Owned, SceneOf, Step;
    if others != [] {
      var a := others[0];
      assert a in others;
      assert AllHarmless(others[1..], k) by {
        assert forall b :: b in others[1..] ==> b in others;
      }
      if Foreign(a, k) {
        HarmlessStep(w, a, k);
        StepKeepsBase(w, a);
        StepKeepsOwned(w, a);
        InterfereKeepsScene(Step(w, a), k, others[1..]);
      } else {
        InterfereKeepsScene(w, k, others[1..]);
      }
    }
  }

  // ---- One attempt -------------------------------------------------------------------------

  ghost predicate MisledNow(w: World, k: Key) {
    k in w.store.tasks && k in w.jobs && w.jobs[k].Work? && Misled(SceneOf(w.store, k), w.jobs[k].pc)
  }

  /** A schedule of one attempt: others take harmless steps only, the controller may
      crash before any request, and any request may be refused or lose its reply,
      except a read whose failure would be taken for a different answer. */
  ghost predicate Gentle(w: World, k: Key, turns: seq<Turn>)
    decreases if k in w.jobs then Remaining(w.jobs[k]) else 0
  {
    if k !in w.jobs || w.jobs[k].Done? then true
    else
      var turn := FirstTurn(turns);
      var w1 := Interfere(w, k, turn.others);
      InterfereKeepsJob(w, k, turn.others);
      && AllHarmless(turn.others, k)
      && (turn.crash ||
          (&& turn.view.Live?
           && (turn.fault.Smooth? || !MisledNow(w1, k))
           && (CallAdvances(w1, k, turn.fault, turn.view);
               Gentle(CallStep(w1, k, turn.fault, turn.view), k, LaterTurns(turns)))))
  }

  /** A schedule of a complete attempt. */
  ghost predicate Unbroken(turns: seq<Turn>, k: Key) {
    forall turn :: turn in turns ==> !turn.crash && turn.fault.Smooth? && turn.view.Live? && AllHarmless(turn.others, k)
  }

  lemma {:induction false} UnbrokenIsGentle(w: World, k: Key, turns: seq<Turn>)
    requires Unbroken(turns, k)
    ensures Gentle(w, k, turns)
    decreases if k in w.jobs then Remaining(w.jobs[k]) else 0
  {
    hide CallStep, Remaining, AllHarmless, Interfere;
    if k in w.jobs && !w.jobs[k].Done? {
      var turn := FirstTurn(turns);
      assert turns != [] ==> turn in turns;
      assert forall u :: u in LaterTurns(turns) ==> u in turns;
      var w1 := Interfere(w, k, turn.others);
      InterfereKeepsJob(w, k, turn.others);
      CallAdvances(w1, k, turn.fault, turn.view);
      assert AllHarmless([], k) by { EmptyIsHarmless(k); }
      UnbrokenIsGentle(CallStep(w1, k, turn.fault, turn.view), k, LaterTurns(turns));
    }
  }

  lemma EmptyIsHarmless(k: Key)
    ensures AllHarmless([], k)
  {
  }

  /** The outlook is still the same, and once all requests were answered the task has
      left the pending phase. */
  ghost predicate Ends(w: World, w': World, k: Key, answered: bool) {
    && Base(w') && Owned(w'.store) && SameOutlook(w.store, w'.store, k)
    && (answered ==> !w'.store.tasks[k].status.phase.Pending? && k in w'.jobs && w'.jobs[k] == Done(Requeue))
  }

  lemma CallKeepsBoth(w: World, k: Key, fault: Fault, view: View)
    requires Base(w) && Owned(w.store) && k in w.jobs && !w.jobs[k].Done?
    ensures Base(CallStep(w, k, fault, view)) && Owned(CallStep(w, k, fault, view).store)
  {
    var a := Call(k, fault, view);
    assert Step(w, a) == CallStep(w, k, fault, view);
    hide Base, Owned, CallStep;
    StepKeepsBase(w, a);
    StepKeepsOwned(w, a);
  }

  lemma CrashKeepsBoth(w: World)
    requires Base(w) && Owned(w.store)
    ensures Base(CrashStep(w)) && Owned(CrashStep(w).store)
  {
    hide JobSound, RecordOk;
  }

  lemma {:induction false} DriveKeeps(w: World, k: Key, turns: seq<Turn>)
    requires Base(w) && Owned(w.store) && InDispatch(w, k) && Gentle(w, k, turns)
    ensures Ends(w, Drive(w, k, turns), k, Unbroken(turns, k))
    decreases Remaining(w.jobs[k])
  {
    hide Base, Owned, SceneOf, Outlook, Fits, CallStep, Remaining, CrashStep, Interfere, AllHarmless;
    var turn := FirstTurn(turns);
    assert turns != [] ==> turn in turns;
    var w1 := Interfere(w, k, turn.others);
    InterfereKeepsJob(w, k, turn.others);
    InterfereKeepsScene(w, k, turn.others);
    SameSceneSameTask(w.store, w1.store, k);
    if turn.crash {
      CrashKeepsBoth(w1);
      CrashKeepsStore(w1);
    } else {
      CallAdvances(w1, k, turn.fault, turn.view);
      CallKeepsBoth(w1, k, turn.fault, turn.view);
      CallKeeps(w1, k, turn.fault);
      var w2 := CallStep(w1, k, turn.fault, turn.view);
      assert forall u :: u in LaterTurns(turns) ==> u in turns;
      if w2.jobs[k].Done? {
        DoneDrives(w2, k, LaterTurns(turns));
      } else {
        DriveKeeps(w2, k, LaterTurns(turns));
      }
    }
  }

  lemma SameSceneSameTask(s: Store, s': Store, k: Key)
    requires SameScene(s, s', k)
    ensures s'.tasks[k] == s.tasks[k] && Outlook(SceneOf(s', k)) == Outlook(SceneOf(s, k))
  {
    hide Outlook;
  }

  lemma CrashKeepsStore(w: World)
    ensures CrashStep(w).store == w.store
  {
  }

  lemma DoneDrives(w: World, k: Key, turns: seq<Turn>)
    requires k !in w.jobs || w.jobs[k].Done?
    ensures Drive(w, k, turns) == w
  {
    hide CallStep, Remaining;
  }

  /** The task is pending and in time when the attempt reads it. */
  ghost predicate Timely(w: World, k: Key, turns: seq<Turn>) {
    var turn := FirstTurn(turns);
    && k in w.store.tasks && Dispatching(w.store.tasks[k])
    && AllHarmless(turn.others, k)
    && !TimedOut(w.store.tasks[k], Interfere(Started(w, k), k, turn.others).clock)
  }

  lemma StartedKeepsBoth(w: World, k: Key)
    requires Base(w) && Owned(w.store)
    ensures Base(Started(w, k)) && Owned(Started(w, k).store)
  {
    hide RecordOk, Owned, JobOk;
  }

  /** Reading a pending task leads into its dispatch, or to nothing when the read fails. */
  lemma FetchBegins(w: World, k: Key, fault: Fault)
    requires Base(w) && k in w.store.tasks && Dispatching(w.store.tasks[k]) && !TimedOut(w.store.tasks[k], w.clock)
    requires k in w.jobs && w.jobs[k].Fetch?
    ensures var w' := CallStep(w, k, fault, View.Live);
            w'.store == w.store && k in w'.jobs && if fault.Smooth? then InDispatch(w', k) else w'.jobs[k].Done?
  {
    hide Outlook, Goal, TimedOut, CodeKey, PodKey, SandboxKey, ProfilesKey, PolicyKey;
  }

  /** One attempt, whole or cut off. */
  lemma AttemptKeeps(w: World, k: Key, turns: seq<Turn>)
    requires Base(w) && Owned(w.store) && Timely(w, k, turns) && Gentle(Started(w, k), k, turns)
    ensures Ends(w, Drive(Started(w, k), k, turns), k, Unbroken(turns, k))
  {
    hide Base, Owned, SceneOf, Outlook, Fits, CallStep, Remaining;
    hide CrashStep, Interfere, AllHarmless, Dispatching, TimedOut;
    var turn := FirstTurn(turns);
    assert turns != [] ==> turn in turns;
    var w0 := Started(w, k);
    var w1 := Interfere(w0, k, turn.others);
    StartedKeepsBoth(w, k);
    InterfereKeepsJob(w0, k, turn.others);
    InterfereKeepsScene(w0, k, turn.others);
    SameSceneSameTask(w0.store, w1.store, k);
    if turn.crash {
      CrashKeepsBoth(w1);
      CrashKeepsStore(w1);
    } else {
      FetchBegins(w1, k, turn.fault);
      CallAdvances(w1, k, turn.fault, turn.view);
      CallKeepsBoth(w1, k, turn.fault, turn.view);
      var w2 := CallStep(w1, k, turn.fault, turn.view);
      assert forall u :: u in LaterTurns(turns) ==> u in turns;
      if w2.jobs[k].Done? {
        DoneDrives(w2, k, LaterTurns(turns));
      } else {
        DriveKeeps(w2, k, LaterTurns(turns));
      }
    }
  }

  // ---- Many attempts ---------------------------------------------------------------------

  /** The world after one attempt under each schedule. */
  function Attempts(w: World, k: Key, plans: seq<seq<Turn>>): World
    decreases |plans|
  {
    if plans == [] then w else Attempts(Drive(Started(w, k), k, plans[0]), k, plans[1..])
  }

  /** Every schedule is gentle, and every attempt finds the task still to be dispatched. */
  ghost predicate AllGentle(w: World, k: Key, plans: seq<seq<Turn>>)
    decreases |plans|
  {
    plans == [] ||
    (&& Timely(w, k, plans[0]) && Gentle(Started(w, k), k, plans[0])
     && AllGentle(Drive(Started(w, k), k, plans[0]), k, plans[1..]))
  }

  lemma {:induction false} AttemptsKeep(w: World, k: Key, plans: seq<seq<Turn>>)
    requires Base(w) && Owned(w.store) && k in w.store.tasks && AllGentle(w, k, plans)
    ensures Ends(w, Attempts(w, k, plans), k, false)
    decreases |plans|
  {
    hide Base, Owned, SceneOf, Outlook, Timely, Gentle, Drive, Started;
    if plans != [] {
      AttemptKeeps(w, k, plans[0]);
      AttemptsKeep(Drive(Started(w, k), k, plans[0]), k, plans[1..]);
    }
  }

  /** One uninterrupted attempt leaves the reference result and asks for a requeue. */
  lemma CompleteAttempt(w: World, k: Key, turns: seq<Turn>)
    requires Base(w) && Owned(w.store) && Timely(w, k, turns) && Unbroken(turns, k)
    ensures var w' := Drive(Started(w, k), k, turns);
            && k in w'.store.tasks && Present(SceneOf(w'.store, k)) == Goal(SceneOf(w.store, k))
            && k in w'.jobs && w'.jobs[k] == Done(Requeue)
  {
    hide Base, Owned, Unbroken, Drive, Gentle, Goal, Present, AllHarmless, TimedOut, Interfere;
    UnbrokenIsGentle(Started(w, k), k, turns);
    AttemptKeeps(w, k, turns);
  }

  /** Crash idempotence of dispatch: any number of attempts, each cut off before or after
      any API write, followed by one complete attempt if the task is still pending, leave
      the same code map, policy, pod or sandbox, and status (completion time aside) as one
      uninterrupted attempt, whatever the rest of the cluster does to other tasks. */
  lemma InterruptedDispatchLeavesTheSame(w: World, k: Key, plans: seq<seq<Turn>>, last: seq<Turn>, once: seq<Turn>)
    requires Base(w) && Owned(w.store) && AllGentle(w, k, plans)
    requires Timely(w, k, once) && Unbroken(once, k)
    requires var cut := Attempts(w, k, plans);
             k in cut.store.tasks && cut.store.tasks[k].status.phase.Pending? ==>
               Timely(cut, k, last) && Unbroken(last, k)
    ensures var cut, whole := Attempts(w, k, plans), Drive(Started(w, k), k, once);
            && k in whole.store.tasks && k in cut.store.tasks
            && var end := if cut.store.tasks[k].status.phase.Pending? then Drive(Started(cut, k), k, last) else cut;
            && k in end.store.tasks
            && Present(SceneOf(end.store, k)) == Present(SceneOf(whole.store, k)) == Goal(SceneOf(w.store, k))
  {
    hide Base, Owned, Unbroken, Drive, Gentle, Goal, Present;
    hide Attempts, AllGentle, AllHarmless, TimedOut, Interfere;
    CompleteAttempt(w, k, once);
    AttemptsKeep(w, k, plans);
    var cut := Attempts(w, k, plans);
    if cut.store.tasks[k].status.phase.Pending? {
      CompleteAttempt(cut, k, last);
    }
  }

  // ---- The undisturbed attempt ---------------------------------------------------------------

  lemma CalmIsTimely(w: World, k: Key)
    requires k in w.store.tasks && Dispatching(w.store.tasks[k]) && !TimedOut(w.store.tasks[k], w.clock)
    ensures Timely(w, k, [])
  {
    assert Interfere(Started(w, k), k, []) == Started(w, k);
    EmptyIsHarmless(k);
  }

  lemma CalmIsUnbroken(w: World, k: Key)
    ensures Unbroken([], k) && Gentle(w, k, [])
  {
    UnbrokenIsGentle(w, k, []);
  }

  lemma {:induction false} DriveKeepsBoth(w: World, k: Key, turns: seq<Turn>)
    requires Base(w) && Owned(w.store)
    ensures Base(Drive(w, k, turns)) && Owned(Drive(w, k, turns).store)
  {
    hide Drive, Schedule, Step;
    DriveIsRun(w, k, turns);
    RunKeepsBase(w, Schedule(w, k, turns));
    RunKeepsOwned(w, Schedule(w, k, turns));
  }
}
