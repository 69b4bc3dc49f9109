/** Timeouts and the time to live, to the nanosecond. */
module Deadlines {
  import opened Names
  import opened Objects
  import opened Protocol
  import opened Lifecycle
  import opened Cluster
  import opened Safety
  import opened StatusHistory

  // ---- Timeouts ---------------------------------------------------------------------

  /** The stored start is the real one cut to seconds. Whatever real instant it was taken
      at, a task is timed out only more than T+1 seconds later, and always more than T+2
      seconds later. */
  lemma TimeoutBounds(t: Task, started: nat, now: nat)
    requires t.status.startTime == Some(Stamp(started)) && t.spec.timeoutSeconds > 0
    ensures TimedOut(t, now) ==> now > started + Nanos(t.spec.timeoutSeconds + 1)
    ensures now > started + Nanos(t.spec.timeoutSeconds + 2) ==> TimedOut(t, now)
  {
    assert Nanos(Stamp(started)) <= started < Nanos(Stamp(started) + 1);
  }

  // ---- Time to live ------------------------------------------------------------------

  /** At one clock reading, the reconcile of a task deletes it for its time to live exactly
      in the window after its expiration and, with a timeout, up to its deadline. */
  lemma ExpiresExactly(t: Task, now: nat)
    requires RecordOk(t, now)
    ensures Start(t, now) == Work(t, ExpireTask) <==>
              && !t.deleting && t.finalizer && !t.spec.canceled && Terminal(t.status.phase) && t.spec.ttl.Some?
              && now > Nanos(t.status.completionTime.value + t.spec.ttl.value)
              && (t.spec.timeoutSeconds > 0 ==> now <= Nanos(t.status.startTime.value + t.spec.timeoutSeconds + 2))
  {
  }

  /** Whether a finished task has any moment at which it is deleted for its time to live. */
  lemma ExpirationWindow(t: Task, finished: nat)
    requires RecordOk(t, finished) && InService(t) && !t.spec.canceled && Terminal(t.status.phase) && t.spec.ttl.Some?
    ensures var completion, deadline := t.status.completionTime.value, t.status.startTime.value + t.spec.timeoutSeconds + 2;
            (exists now: nat :: RecordOk(t, now) && Start(t, now) == Work(t, ExpireTask)) <==>
              (t.spec.timeoutSeconds > 0 ==> completion <= deadline && completion + t.spec.ttl.value < deadline)
  {
    var completion, deadline := t.status.completionTime.value, t.status.startTime.value + t.spec.timeoutSeconds + 2;
    if t.spec.timeoutSeconds > 0 ==> completion <= deadline && completion + t.spec.ttl.value < deadline {
      var expired := Nanos(completion + t.spec.ttl.value) + 1;
      var now: nat := if expired < Nanos(completion) then Nanos(completion) else expired;
      assert Stamp(now) >= completion;
      ExpiresExactly(t, now);
    } else {
      forall now: nat | RecordOk(t, now)
        ensures Start(t, now) != Work(t, ExpireTask)
      {
        assert Nanos(completion) <= now;
        ExpiresExactly(t, now);
      }
    }
  }

  /** In every run: a reconcile that deletes a task for its time to live does so strictly
      after the completion time plus the time to live of a finished, uncanceled task whose
      expiration lies before its deadline. With a timeout T and a time to live of at least
      T+2 seconds no run ever deletes the task for its time to live. */
  lemma TtlDeleteWindow(w0: World, run: seq<Action>, k: Key)
    requires Initial(w0)
    requires var w := Exec(w0, run); k in w.jobs && w.jobs[k].Work? && w.jobs[k].pc.ExpireTask?
    ensures var w := Exec(w0, run);
            var t := w.jobs[k].seen;
            && Terminal(t.status.phase) && !t.spec.canceled && t.spec.ttl.Some?
            && t.status.startTime.Some? && t.status.completionTime.Some?
            && w.clock > Nanos(t.status.completionTime.value + t.spec.ttl.value)
            && (t.spec.timeoutSeconds > 0 ==>
                  && t.status.completionTime.value + t.spec.ttl.value < t.status.startTime.value + t.spec.timeoutSeconds + 2
                  && t.spec.ttl.value < t.spec.timeoutSeconds + 2)
  {
    hide Exec, Step;
    AlwaysBase(w0, run);
    var w := Exec(w0, run);
    assert JobSound(w.store, k, w.jobs[k], w.clock);
    assert Sound(w.store.guarded, w.jobs[k].seen, w.clock);
  }
}
