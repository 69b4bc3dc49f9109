/** How a removed task can leave its pod behind. */
module Leftovers {
  import opened Names
  import opened Objects
  import opened Webhook
  import opened Protocol
  import opened Lifecycle
  import opened ApiServer
  import opened Cluster
  import opened Safety
  import opened Undisturbed
  import opened SampleRun

  /** The controller crashes, the user deletes the task, the next reconcile finalizes it. */
  function CrashAndRemove(k: Key): seq<Action> {
    [Crash, Outside(Remove(k)), Begin(k)] + CalmCalls(k)
  }

  function CalmCalls(k: Key): seq<Action> {
    [Call(k, Smooth, View.Live), Call(k, Smooth, View.Live)]
  }

  /** The task is released without a look at its pod when its reference is still empty. */
  lemma ReleasesUnseen(w: World, k: Key, t: Task)
    requires Base(w) && k in w.store.tasks && w.store.tasks[k] == t
    requires t.deleting && t.finalizer && t.status.podRef.NoRef? && k in w.jobs && w.jobs[k].Fetch?
    ensures var w' := CalmCall(CalmCall(w, k), k);
            k !in w'.store.tasks && w'.store.pods == w.store.pods
  {
    assert Start(t, w.clock) == Work(t, DropFinalizer);
    assert Sound(w.store.guarded, t, w.clock);
    CalmFetch(w, k);
    CalmWork(CalmCall(w, k), k, t, DropFinalizer);
    hide CallStep, Start, ValidateUpdate, RecordOk, Sound;
    FinalizerWriteOk(w.store, t, false, w.clock);
  }

  lemma TwoCalls(w: World, k: Key)
    requires k in w.jobs && !w.jobs[k].Done?
    requires k in CalmCall(w, k).jobs && !CalmCall(w, k).jobs[k].Done?
    ensures Exec(w, CalmCalls(k)) == CalmCall(CalmCall(w, k), k)
  {
    var a := Call(k, Smooth, View.Live);
    var w1 := CalmCall(w, k);
    assert Step(w, a) == w1 && Step(w1, a) == CalmCall(w1, k);
    hide Step, CallStep;
    assert CalmCalls(k)[1..] == [a];
    assert Exec(w1, [a]) == Exec(Step(w1, a), []);
  }

  lemma RemovalMarks(w: World, k: Key)
    requires k in w.store.tasks && w.store.tasks[k].key == k && w.store.tasks[k].finalizer
    ensures var w' := Exec(w, [Crash, Outside(Remove(k)), Begin(k)]);
            && k in w'.jobs && w'.jobs[k].Fetch? && k in w'.store.tasks && w'.store.pods == w.store.pods
            && w'.store.tasks[k].deleting && w'.store.tasks[k].finalizer
            && w'.store.tasks[k].status == w.store.tasks[k].status
  {
    var w1 := CrashStep(w);
    assert w1.jobs == map[] && k in w1.queue && w1.store == w.store;
    var w2 := Apply(w1, Condemn(w1.store, k));
    assert k in w2.queue && k !in w2.jobs;
    assert Step(w, Crash) == w1;
    assert Step(w1, Outside(Remove(k))) == w2;
    var w3 := Step(w2, Begin(k));
    hide Step, CrashStep, Condemn;
    assert Exec(w2, [Begin(k)]) == Exec(w3, []);
    assert [Outside(Remove(k)), Begin(k)][1..] == [Begin(k)];
    assert [Crash, Outside(Remove(k)), Begin(k)][1..] == [Outside(Remove(k)), Begin(k)];
  }

  /** A crash between the creation of the pod and the status update, and then a deletion:
      the task is removed and its pod is still there. */
  lemma CrashThenRemovalLeavesPod(w: World, k: Key)
    requires Base(w) && k in w.store.tasks && w.store.tasks[k].status.phase.Pending? && PodKey(k) in w.store.pods
    ensures var w' := Exec(w, CrashAndRemove(k));
            k !in w'.store.tasks && PodKey(k) in w'.store.pods
  {
    var front := [Crash, Outside(Remove(k)), Begin(k)];
    assert Sound(w.store.guarded, w.store.tasks[k], w.clock);
    RunKeepsBase(w, front);
    RemovalMarks(w, k);
    var w' := Exec(w, front);
    assert w'.store.tasks[k] in w'.store.past && Start(w'.store.tasks[k], w'.clock) == Work(w'.store.tasks[k], DropFinalizer);
    hide Base, Exec, CallStep, Start, Sound;
    ExecConcat(w, front, CalmCalls(k));
    CalmFetch(w', k);
    TwoCalls(w', k);
    ReleasesUnseen(w', k, w'.store.tasks[k]);
  }

  /** The promise that a deleted task is gone only after its pod is broken by some run
      from a fresh cluster with current reads and no failed request. */
  lemma RemovalCanLeavePod()
    ensures exists w :: Reached(w, false, map[]) && Name in w.store.tasks
              && Name !in Exec(w, CrashAndRemove(Name)).store.tasks
              && PodKey(Name) in Exec(w, CrashAndRemove(Name)).store.pods
  {
    hide Exec, Base, Reached;
    var w := PodIsMade();
    CrashThenRemovalLeavesPod(w, Name);
  }
}
