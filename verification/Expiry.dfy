/** The wakeup for the time to live: a finished task waits for its expiration with a timer. */
module Expiry {
  import opened Names
  import opened Objects
  import opened Protocol
  import opened Lifecycle
  import opened ApiServer
  import opened Cluster
  import opened Safety
  import opened Ownership
  import opened Wakeup

  function Expires(t: Task): int
    requires t.status.completionTime.Some? && t.spec.ttl.Some?
  {
    Expiration(t.status.completionTime.value, t.spec.ttl.value)
  }

  /** A finished task that will expire, is not past its deadline and has not expired yet.
      Past the deadline the timeout comes first, and no timer is set. */
  ghost predicate AwaitsExpiry(t: Task, now: nat) {
    && InService(t) && !t.spec.canceled && Terminal(t.status.phase)
    && t.status.completionTime.Some? && t.spec.ttl.Some?
    && now < Expires(t) && !TimedOut(t, now)
  }

  /** A timer that fires at most `lag` after the expiration. */
  ghost predicate Armed(w: World, k: Key, lag: nat)
    requires k in w.store.tasks && AwaitsExpiry(w.store.tasks[k], w.clock)
  {
    k in w.timers && w.timers[k] <= Expires(w.store.tasks[k]) + lag
  }

  /** A reconcile in flight that will queue the task again or set a timer; `spent` is the
      time since it ended. */
  ghost predicate WillArm(j: Job, expires: int, now: nat, spent: nat) {
    match j
    case Fetch => true
    case Work(_, _) => false
    case Done(r) => r.Requeue? || r.Error? || (r.RequeueAfter? && expires <= now + r.delay <= expires + spent)
  }

  ghost predicate Awaited(w: World, k: Key, lag: nat, spent: nat) {
    k in w.store.tasks && AwaitsExpiry(w.store.tasks[k], w.clock) ==>
      || k in w.queue || Armed(w, k, lag)
      || (k in w.jobs && WillArm(w.jobs[k], Expires(w.store.tasks[k]), w.clock, spent))
  }

  /** How long the reconcile of `k` has been over without having returned to the queue. */
  function Spent(w: World, a: Action, k: Key, spent: nat): nat {
    if k in w.jobs && w.jobs[k].Done? then if a.Tick? then spent + a.duration else spent
    else 0
  }

  /** Every reconcile of `k` in the run returns to the queue within `lag`. */
  ghost predicate Prompt(w: World, run: seq<Action>, k: Key, lag: nat, spent: nat)
    decreases |run|
  {
    spent <= lag && (run == [] || Prompt(Step(w, run[0]), run[1..], k, lag, Spent(w, run[0], k, spent)))
  }

  // ---- Every step ---------------------------------------------------------------------------

  lemma AwaitsEarlier(t: Task, now: nat, later: nat)
    requires AwaitsExpiry(t, later) && now <= later
    ensures AwaitsExpiry(t, now)
  {
  }

  /** A step that does not concern the task, its reconcile or its timer. */
  lemma ElsewhereAwaited(w: World, w': World, k: Key, lag: nat, spent: nat, spent': nat)
    requires Awaited(w, k, lag, spent) && (k in w'.queue || Untouched(w.store, w'.store, k))
    requires k in w.queue ==> k in w'.queue
    requires k in w.timers ==> k in w'.timers && w'.timers[k] == w.timers[k]
    requires k in w.jobs ==> k in w'.jobs && w'.jobs[k] == w.jobs[k]
    requires w'.clock >= w.clock
    requires k in w.jobs && w.jobs[k].Done? ==> spent' == spent + (w'.clock - w.clock)
    ensures Awaited(w', k, lag, spent')
  {
    if k in w'.store.tasks && k !in w'.queue && AwaitsExpiry(w'.store.tasks[k], w'.clock) {
      AwaitsEarlier(w'.store.tasks[k], w.clock, w'.clock);
    }
    hide AwaitsExpiry, PodKey, Expires;
  }

  /** A reconcile that reads the task sets out for its timer, unless the read fails. */
  lemma FetchArms(w: World, k: Key, fault: Fault)
    requires k in w.store.tasks && AwaitsExpiry(w.store.tasks[k], w.clock) && k in w.jobs && w.jobs[k].Fetch?
    ensures var w' := CallStep(w, k, fault, View.Live);
            && w'.store == w.store && w'.clock == w.clock && w'.timers == w.timers
            && k in w'.jobs && WillArm(w'.jobs[k], Expires(w.store.tasks[k]), w.clock, 0)
  {
    StartArms(w.store.tasks[k], w.clock);
    hide AwaitsExpiry, Start;
  }

  lemma StartArms(t: Task, now: nat)
    requires AwaitsExpiry(t, now)
    ensures WillArm(Start(t, now), Expires(t), now, 0)
  {
    hide TimedOut;
  }

  lemma OwnCallAwaited(w: World, k: Key, fault: Fault, lag: nat, spent: nat)
    requires Base(w) && Owned(w.store) && Awaited(w, k, lag, spent) && k in w.jobs && !w.jobs[k].Done?
    ensures Awaited(CallStep(w, k, fault, View.Live), k, lag, 0)
  {
    var w' := CallStep(w, k, fault, View.Live);
    var q := RequestOf(k, w.jobs[k]);
    JobCreatesOwnPod(k, w.jobs[k]);
    KeysMatch(w);
    RespondNotifies(w.store, q, k);
    UntouchedSelf(w.store, k);
    hide Base, Owned, AwaitsExpiry, PodKey, Respond, RequestOf, Advance, Expires;
    if k in w'.store.tasks && k !in w'.queue && AwaitsExpiry(w'.store.tasks[k], w.clock) {
      assert k in w.store.tasks && w.store.tasks[k] == w'.store.tasks[k];
      if w.jobs[k].Fetch? {
        FetchArms(w, k, fault);
      }
    }
  }

  lemma OtherCallAwaited(w: World, i: Key, fault: Fault, view: View, k: Key, lag: nat, spent: nat)
    requires Base(w) && Owned(w.store) && Awaited(w, k, lag, spent) && i in w.jobs && !w.jobs[i].Done? && i != k
    requires view.Live?
    ensures Awaited(CallStep(w, i, fault, view), k, lag, if k in w.jobs && w.jobs[k].Done? then spent else 0)
  {
    var w' := CallStep(w, i, fault, view);
    var q := RequestOf(i, w.jobs[i]);
    JobCreatesOwnPod(i, w.jobs[i]);
    KeysMatch(w);
    RespondNotifies(w.store, q, k);
    UntouchedSelf(w.store, k);
    hide Base, Owned, Respond, RequestOf, Advance, Awaited, Untouched;
    ElsewhereAwaited(w, w', k, lag, spent, if k in w.jobs && w.jobs[k].Done? then spent else 0);
  }

  lemma FinishAwaited(w: World, k: Key, lag: nat, spent: nat)
    requires Awaited(w, k, lag, spent) && spent <= lag && k in w.jobs && w.jobs[k].Done?
    ensures Awaited(FinishStep(w, k), k, lag, spent)
  {
    hide TimedOut, InService, Expiration;
  }

  lemma CommitAwaited(w: World, id: nat, k: Key, lag: nat, spent: nat)
    requires Awaited(w, k, lag, spent) && Enabled(w, Commit(id))
    ensures Awaited(CommitStep(w, id), k, lag, spent)
  {
    hide TimedOut, Expires, PodKey, SandboxKey, CodeKey, PolicyKey;
  }

  lemma OutsideAwaited(w: World, c: Change, k: Key, lag: nat, spent: nat)
    requires Base(w) && Owned(w.store) && Awaited(w, k, lag, spent)
    ensures Awaited(Apply(w, Perform(w.store, c)), k, lag, spent)
  {
    KeysMatch(w);
    PerformNotifies(w.store, c, k);
    hide Base, Owned, Perform, Awaited, Untouched;
    ElsewhereAwaited(w, Apply(w, Perform(w.store, c)), k, lag, spent, spent);
  }

  /** The time spent matters only once the reconcile is over. */
  lemma SpentMatters(w: World, k: Key, lag: nat, spent: nat, spent': nat)
    requires Awaited(w, k, lag, spent) && (k in w.jobs && w.jobs[k].Done? ==> spent <= spent')
    ensures Awaited(w, k, lag, spent')
  {
    hide AwaitsExpiry, Expires;
  }

  lemma QueueAwaited(w: World, a: Action, k: Key, lag: nat, spent: nat)
    requires Awaited(w, k, lag, spent) && Enabled(w, a)
    requires a.Admit? || a.Abandon? || a.Tick? || a.Fire? || a.Resync? || a.Begin? || a.Crash? || (a.Finish? && a.key != k)
    ensures Awaited(Step(w, a), k, lag, Spent(w, a, k, spent))
  {
    if k in w.store.tasks && AwaitsExpiry(w.store.tasks[k], Step(w, a).clock) {
      AwaitsEarlier(w.store.tasks[k], w.clock, Step(w, a).clock);
    }
    hide AwaitsExpiry, Expires, Owners;
  }

  lemma StepAwaited(w: World, a: Action, k: Key, lag: nat, spent: nat)
    requires Base(w) && Owned(w.store) && Current(a) && Awaited(w, k, lag, spent) && spent <= lag
    ensures Awaited(Step(w, a), k, lag, Spent(w, a, k, spent))
  {
    hide Base, Owned, Awaited, Perform, CallStep, FinishStep, CommitStep, CrashStep, Prompt;
    if !Enabled(w, a) && !a.Tick? {
      SpentMatters(w, k, lag, spent, Spent(w, a, k, spent));
    } else if a.Outside? {
      OutsideAwaited(w, a.change, k, lag, spent);
      SpentMatters(Step(w, a), k, lag, spent, Spent(w, a, k, spent));
    } else if a.Commit? {
      CommitAwaited(w, a.id, k, lag, spent);
      CommitKeepsJobs(w, a.id);
      SpentMatters(Step(w, a), k, lag, spent, Spent(w, a, k, spent));
    } else if a.Call? && a.key == k {
      OwnCallAwaited(w, k, a.fault, lag, spent);
    } else if a.Call? {
      OtherCallAwaited(w, a.key, a.fault, a.view, k, lag, spent);
    } else if a.Finish? && a.key == k {
      FinishAwaited(w, k, lag, spent);
    } else {
      QueueAwaited(w, a, k, lag, spent);
    }
  }

  lemma CommitKeepsJobs(w: World, id: nat)
    requires id in w.drafts
    ensures CommitStep(w, id).jobs == w.jobs
  {
  }

  // ---- Every run ------------------------------------------------------------------------------

  lemma {:induction false} RunAwaited(w: World, run: seq<Action>, k: Key, lag: nat, spent: nat)
    requires Base(w) && Owned(w.store) && CurrentReads(run) && Awaited(w, k, lag, spent) && Prompt(w, run, k, lag, spent)
    ensures exists last: nat :: last <= lag && Awaited(Exec(w, run), k, lag, last)
    decreases |run|
  {
    hide Base, Owned, Step, Awaited, Spent;
    if run == [] {
      assert Awaited(Exec(w, run), k, lag, spent);
    } else {
      assert run[0] in run;
      assert forall a :: a in run[1..] ==> a in run;
      StepKeepsBase(w, run[0]);
      StepKeepsOwned(w, run[0]);
      StepAwaited(w, run[0], k, lag, spent);
      RunAwaited(Step(w, run[0]), run[1..], k, lag, Spent(w, run[0], k, spent));
      var last: nat :| last <= lag && Awaited(Exec(Step(w, run[0]), run[1..]), k, lag, last);
      assert Exec(w, run) == Exec(Step(w, run[0]), run[1..]);
    }
  }

  /** In every reachable state a finished task with a time to live that has not expired
      and is not past its deadline is queued, being reconciled, or has a timer that fires
      no later than its expiration, when every reconcile of it that is over returns to the
      queue at once; in general later by at most the time the slowest of them takes. */
  lemma ExpirationIsAwaited(w0: World, run: seq<Action>, k: Key, lag: nat)
    requires Initial(w0) && CurrentReads(run) && Prompt(w0, run, k, lag, 0)
    requires var w := Exec(w0, run); k in w.store.tasks && AwaitsExpiry(w.store.tasks[k], w.clock)
    ensures var w := Exec(w0, run);
            || k in w.queue || k in w.jobs
            || (k in w.timers && w.timers[k] <= Expires(w.store.tasks[k]) + lag)
  {
    InitialBase(w0);
    assert Owned(w0.store) && Awaited(w0, k, lag, 0);
    hide Exec, Base, Owned, Prompt, AwaitsExpiry, Expires, CurrentReads;
    RunAwaited(w0, run, k, lag, 0);
  }

  /** The instant of the expiration itself is lost: a reconcile that reads the clock then
      asks for a delay of zero, which is no requeue. */
  lemma ExpirationInstantIsMissed(w: World, k: Key, t: Task)
    requires InService(t) && Terminal(t.status.phase) && !t.spec.canceled && !TimedOut(t, w.clock)
    requires t.status.completionTime.Some? && t.spec.ttl.Some? && w.clock <= Expires(t)
    requires k in w.jobs && w.jobs[k] == Start(t, w.clock) && k !in w.timers && k !in w.queue
    ensures var w' := Step(w, Finish(k));
            && k !in w'.queue && k !in w'.jobs
            && (k in w'.timers <==> w.clock < Expires(t))
            && (k in w'.timers ==> w'.timers[k] == Expires(t))
  {
    hide TimedOut;
  }
}
