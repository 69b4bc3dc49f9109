/** What users can rely on in every run from a fresh cluster whose reads are current. */
module Guarantees {
  import opened Names
  import opened Objects
  import opened Protocol
  import opened Lifecycle
  import opened ApiServer
  import opened Cluster
  import opened Safety
  import opened Transitions
  import opened Ownership
  import opened Cleanup
  import opened Isolation

  ghost predicate Live(w: World) {
    Base(w) && Owned(w.store) && AllAttached(w) && Clean(w) && Shielded(w) && AllCodeAgrees(w.store)
  }

  lemma StepKeepsLive(w: World, a: Action)
    requires Live(w) && Current(a)
    ensures Live(Step(w, a))
  {
    hide Step, Base, Owned, AllAttached, Clean, Shielded, AllCodeAgrees;
    StepKeepsBase(w, a);
    StepKeepsOwned(w, a);
    StepKeepsAttached(w, a);
    StepKeepsClean(w, a);
    StepKeepsShielded(w, a);
    StepKeepsCode(w, a);
  }

  lemma {:induction false} RunKeepsLive(w: World, run: seq<Action>)
    requires Live(w) && CurrentReads(run)
    ensures Live(Exec(w, run))
    decreases |run|
  {
    hide Live, Step;
    if run != [] {
      assert run[0] in run;
      StepKeepsLive(w, run[0]);
      RunKeepsLive(Step(w, run[0]), run[1..]);
    }
  }

  lemma InitialLive(w: World)
    requires Initial(w)
    ensures Live(w)
  {
  }

  lemma Reachable(w0: World, run: seq<Action>)
    requires Initial(w0) && CurrentReads(run)
    ensures Live(Exec(w0, run))
  {
    InitialLive(w0);
    RunKeepsLive(w0, run);
  }

  // ---- Isolation -----------------------------------------------------------------------

  /** No pod without its policy: after every step of every run, crashes between any two
      writes included, each pod of a stored task is selected by a stored policy of its
      namespace that denies all traffic in both directions. */
  lemma EveryPodIsIsolated(w0: World, run: seq<Action>, p: Key)
    requires Initial(w0) && CurrentReads(run)
    requires var s := Exec(w0, run).store; p in s.pods && s.pods[p].owner in s.tasks
    ensures var s := Exec(w0, run).store;
            exists q :: q in s.policies && q.ns == p.ns && Selects(s.policies[q], s.pods[p].labels) && DeniesAll(s.policies[q])
  {
    hide Exec, Base, AllAttached, Clean;
    Reachable(w0, run);
    var s := Exec(w0, run).store;
    var q := PolicyKey(s.pods[p].owner);
    assert ShieldedPod(s, p);
    assert q in s.policies;
    DerivedNamesInjective(s.policies[q].owner, s.pods[p].owner);
  }

  /** A stored policy selects exactly the labels of its task and lets nothing through, in
      every reachable state of every run. */
  lemma PolicySelectsExactly(w0: World, run: seq<Action>, q: Key, labels: map<string, string>)
    requires Initial(w0) && q in Exec(w0, run).store.policies
    ensures var p := Exec(w0, run).store.policies[q];
            && q == Key(p.owner.ns, p.owner.name + "-netpol")
            && (Selects(p, labels) <==> "agenttask.io/task" in labels && labels["agenttask.io/task"] == p.owner.name)
            && p.directions == {Ingress, Egress} && p.ingress == [] && p.egress == []
  {
    InitialBase(w0);
    assert Owned(w0.store);
    hide Exec, Base;
    RunKeepsOwned(w0, run);
    hide Owned;
    OwnedPolicy(Exec(w0, run).store, q, labels);
  }

  lemma OwnedPolicy(s: Store, q: Key, labels: map<string, string>)
    requires Owned(s) && q in s.policies
    ensures var p := s.policies[q];
            && q == Key(p.owner.ns, p.owner.name + "-netpol")
            && (Selects(p, labels) <==> "agenttask.io/task" in labels && labels["agenttask.io/task"] == p.owner.name)
            && p.directions == {Ingress, Egress} && p.ingress == [] && p.egress == []
  {
  }

  /** So among the pods of its namespace that the controller made it selects those of its
      own task, and no others. */
  lemma PolicySelectsOwnPods(w0: World, run: seq<Action>, q: Key, p: Key)
    requires Initial(w0) && q in Exec(w0, run).store.policies && p in Exec(w0, run).store.pods && p.ns == q.ns
    ensures var s := Exec(w0, run).store;
            Selects(s.policies[q], s.pods[p].labels) <==> s.pods[p].owner == s.policies[q].owner
  {
    InitialBase(w0);
    assert Owned(w0.store);
    hide Exec, Base;
    var s := Exec(w0, run).store;
    RunKeepsOwned(w0, run);
    OwnedPod(s, p);
    hide Owned, Selects;
    OwnedPolicy(s, q, s.pods[p].labels);
  }

  lemma OwnedPod(s: Store, p: Key)
    requires Owned(s) && p in s.pods
    ensures p.ns == s.pods[p].owner.ns
    ensures "agenttask.io/task" in s.pods[p].labels && s.pods[p].labels["agenttask.io/task"] == s.pods[p].owner.name
  {
  }

  /** The code map always agrees with the spec, though the controller never rewrites it. */
  lemma CodeMapAgreesWithSpec(w0: World, run: seq<Action>, k: Key)
    requires Initial(w0) && w0.store.guarded && CurrentReads(run)
    requires var s := Exec(w0, run).store; k in s.tasks && CodeKey(k) in s.maps
    ensures var s := Exec(w0, run).store;
            s.maps[CodeKey(k)].data == map["entrypoint.py" := s.tasks[k].spec.source]
  {
    hide Base, Owned, AllAttached, Clean, Shielded;
    Reachable(w0, run);
    InitialBase(w0);
    RunKeepsGuard(w0, run);
    assert CodeAgrees(Exec(w0, run).store, k);
  }

  // ---- Pods after cancellation and removal -----------------------------------------------

  lemma {:induction false} GonePodsStayGone(w: World, run: seq<Action>, k: Key)
    requires Live(w) && CurrentReads(run) && k in w.store.tasks
    requires RefGone(w.store, w.store.tasks[k].status.podRef)
    requires Alive(Exec(w, run).store, k, w.store.tasks[k].uid)
    ensures Exec(w, run).store.tasks[k].status.podRef == w.store.tasks[k].status.podRef
    ensures RefGone(Exec(w, run).store, w.store.tasks[k].status.podRef)
    decreases |run|
  {
    hide Step, Owned, AllAttached, Clean, Shielded, AllCodeAgrees, RecordOk, JobOk, Legal;
    if run != [] {
      assert run[0] in run;
      var w1 := Step(w, run[0]);
      RefStaysGone(w, run[0], k);
      StepKeepsLive(w, run[0]);
      if k in w1.store.tasks {
        StepDescends(w, run[0], k);
        GonePodsStayGone(w1, run[1..], k);
      } else {
        StepKeepsBase(w, run[0]);
        assert w.store.tasks[k] in w.store.past;
        GoneForGood(w1, run[1..], k, w.store.tasks[k].uid);
        assert false;
      }
    }
  }

  /** When a cancellation is committed the pod named by the task's reference does not
      exist, and it never exists again while the task is stored. */
  lemma CancellationRemovesPod(w0: World, run: seq<Action>, a: Action, later: seq<Action>, k: Key)
    requires Initial(w0) && CurrentReads(run) && Current(a) && CurrentReads(later)
    requires var w, w' := Exec(w0, run), Exec(w0, run + [a]);
             && k in w.store.tasks && k in w'.store.tasks
             && !w.store.tasks[k].status.phase.Canceled? && w'.store.tasks[k].status.phase.Canceled?
    ensures var w, w' := Exec(w0, run), Exec(w0, run + [a]);
            var ref := w.store.tasks[k].status.podRef;
            && w'.store.tasks[k].status.podRef == ref
            && (ref.Ref? && Alive(Exec(w', later).store, k, w.store.tasks[k].uid) ==>
                  Exec(w', later).store.tasks[k].status.podRef == ref && RefGone(Exec(w', later).store, ref))
  {
    hide Exec, Step, Base, Owned, AllAttached, Shielded, AllCodeAgrees;
    var w := Exec(w0, run);
    var w' := Step(w, a);
    ExecLast(w0, run, a);
    Reachable(w0, run);
    StepKeepsLive(w, a);
    CanceledBy(w, a, k);
    SameUid(w, a, k);
    var ref := w.store.tasks[k].status.podRef;
    if ref.Ref? && Alive(Exec(w', later).store, k, w.store.tasks[k].uid) {
      GonePodsStayGone(w', later, k);
    }
  }

  lemma SameUid(w: World, a: Action, k: Key)
    requires Base(w) && k in w.store.tasks && k in Step(w, a).store.tasks
    ensures Step(w, a).store.tasks[k].uid == w.store.tasks[k].uid
  {
    hide Step, Legal;
    StepEvolves(w, a);
  }

  /** Only its own reconcile releases a task with a finalizer, and only a deleted one. */
  lemma ReleasedBy(w: World, a: Action, k: Key)
    requires Base(w) && k in w.store.tasks && w.store.tasks[k].finalizer && k !in Step(w, a).store.tasks
    ensures a.Call? && a.key == k && Enabled(w, a)
    ensures w.jobs[k].Work? && w.jobs[k].pc.DropFinalizer? && w.jobs[k].seen == w.store.tasks[k]
    ensures Step(w, a).store.pods == w.store.pods && Step(w, a).store.sandboxes == w.store.sandboxes
  {
    if a.Call? && a.key == k && Enabled(w, a) {
      var j := w.jobs[k];
      assert JobSound(w.store, k, j, w.clock);
      if j.Work? {
        ReleasingRequest(w.store, j.seen, j.pc);
      }
    } else {
      hide Step;
      OthersKeep(w, a, k);
    }
  }

  lemma ReleasingRequest(s: Store, t: Task, pc: PC)
    requires History(s) && t in s.past && t.key in s.tasks && s.tasks[t.key].finalizer
    ensures var s' := Respond(s, RequestAt(t, pc)).store;
            t.key !in s'.tasks ==>
              pc.DropFinalizer? && s.tasks[t.key] == t && s'.pods == s.pods && s'.sandboxes == s.sandboxes
  {
    if pc.AddFinalizer? || pc.DropFinalizer? {
      if s.tasks[t.key].version == t.version {
        VersionMatch(s, t);
      }
    } else {
      OtherRequestsRelease(s, t, pc);
    }
  }

  lemma OtherRequestsRelease(s: Store, t: Task, pc: PC)
    requires History(s) && t.key in s.tasks && s.tasks[t.key].finalizer && !pc.AddFinalizer? && !pc.DropFinalizer?
    ensures t.key in Respond(s, RequestAt(t, pc)).store.tasks
  {
    hide RequestAt, ReplaceTask, ReplaceStatus, Condemn;
    var q := RequestAt(t, pc);
    OtherRequestKind(t, pc);
    if q.DeleteTask? {
      CondemnReleasesNone(s, q.key, t.key);
    } else if q.PutStatus? {
      StatusReleasesNone(s, q.key, q.version, q.status, t.key);
    } else {
      ObjectWriteKeepsTasks(s, q);
    }
  }

  lemma OtherRequestKind(t: Task, pc: PC)
    requires !pc.AddFinalizer? && !pc.DropFinalizer?
    ensures !RequestAt(t, pc).PutTask?
  {
  }

  lemma StatusReleasesNone(s: Store, k: Key, version: nat, st: Status, i: Key)
    requires i in s.tasks
    ensures i in ReplaceStatus(s, k, version, st).store.tasks
  {
  }

  lemma CondemnReleasesNone(s: Store, k: Key, i: Key)
    requires i in s.tasks && s.tasks[i].finalizer
    ensures i in Condemn(s, k).store.tasks
  {
    hide Save;
    if k in s.tasks {
      SaveKeepsKeys(s, s.tasks[k].(deleting := true));
    }
  }

  lemma SaveKeepsKeys(s: Store, t: Task)
    ensures s.tasks.Keys <= Save(s, t).store.tasks.Keys
  {
  }

  /** When the finalizer is removed the pod named by the task's reference does not exist.
      The promise that nothing is left behind fails exactly for a pod that was created but
      never recorded in the reference, and for every sandbox. */
  lemma RemovalLeavesExactly(w0: World, run: seq<Action>, a: Action, k: Key)
    requires Initial(w0) && CurrentReads(run) && Current(a)
    requires var w := Exec(w0, run);
             k in w.store.tasks && w.store.tasks[k].finalizer && k !in Exec(w0, run + [a]).store.tasks
    ensures var s, s' := Exec(w0, run).store, Exec(w0, run + [a]).store;
            && s.tasks[k].deleting
            && (s.tasks[k].status.podRef.Ref? ==> RefGone(s', s.tasks[k].status.podRef))
            && (PodKey(k) in s'.pods <==> PodKey(k) in s.pods && !IsPodRef(s.tasks[k].status.podRef))
            && (SandboxKey(k) in s'.sandboxes <==> SandboxKey(k) in s.sandboxes)
  {
    hide Exec, Step, Owned, AllAttached, Shielded, AllCodeAgrees;
    var w := Exec(w0, run);
    ExecLast(w0, run, a);
    Reachable(w0, run);
    ReleasedBy(w, a, k);
    assert JobSound(w.store, k, w.jobs[k], w.clock);
    assert Sound(w.store.guarded, w.store.tasks[k], w.clock);
    assert CleanJob(w.store, w.jobs[k]);
  }
}
