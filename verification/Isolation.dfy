/** Network isolation and code maps, in runs whose reads are current. */
module Isolation {
  import opened Names
  import opened Objects
  import opened Protocol
  import opened Lifecycle
  import opened ApiServer
  import opened Cluster
  import opened Safety
  import opened Transitions
  import opened Ownership
  import opened Cleanup

  // ---- Every pod has its policy -----------------------------------------------------

  /** The requests after the policy has been ensured. */
  ghost predicate PolicyPC(pc: PC) {
    pc.LookCrd? || pc.LookProfiles? || pc.LookSandbox? || pc.MakeSandbox? || pc.LookPod? || pc.MakePod?
  }

  ghost predicate ShieldedPod(s: Store, p: Key)
    requires p in s.pods
  {
    s.pods[p].owner in s.tasks ==> PolicyKey(s.pods[p].owner) in s.policies
  }

  ghost predicate ShieldedJob(s: Store, k: Key, j: Job) {
    j.Work? && PolicyPC(j.pc) ==> PolicyKey(k) in s.policies
  }

  ghost predicate Shielded(w: World) {
    && (forall p :: p in w.store.pods ==> ShieldedPod(w.store, p))
    && (forall k :: k in w.jobs ==> ShieldedJob(w.store, k, w.jobs[k]))
  }

  /** The policy of a stored task is never removed. */
  lemma PolicyStays(w: World, a: Action, k: Key)
    requires Base(w) && k in w.store.tasks && PolicyKey(k) in w.store.policies
    ensures PolicyKey(k) in Step(w, a).store.policies
  {
    hide Respond, RequestOf, JobOk, Recorded, PolicyKey;
    if a.Call? && Enabled(w, a) {
      assert JobSound(w.store, a.key, w.jobs[a.key], w.clock);
      Footprint(w.store, a.key, w.jobs[a.key]);
    } else if a.Outside? {
      PerformKeepsPolicy(w.store, a.change, k);
    }
  }

  lemma PerformKeepsPolicy(s: Store, c: Change, k: Key)
    requires k in s.tasks && PolicyKey(k) in s.policies
    ensures PolicyKey(k) in Perform(s, c).store.policies
  {
    if c.Sweep? && PolicyKey(c.key) == PolicyKey(k) {
      DerivedNamesInjective(c.key, k);
    }
    hide PolicyKey;
  }

  lemma OwnCallIsShielded(w: World, k: Key, fault: Fault)
    requires Base(w) && k in w.jobs && !w.jobs[k].Done? && ShieldedJob(w.store, k, w.jobs[k])
    ensures var w' := CallStep(w, k, fault, Live);
            ShieldedJob(w'.store, k, w'.jobs[k])
  {
    hide RequestAt, AdvanceAt, Respond, Start, JobOk, PolicyKey, Recorded;
    var j := w.jobs[k];
    assert JobSound(w.store, k, j, w.clock);
    match j
    case Fetch => StartIsShielded(w, k, fault);
    case Work(t, pc) =>
      if pc.LookPolicy? || pc.MakePolicy? {
        PolicyIsMade(w.store, t, pc, fault, w.clock);
      } else {
        PolicyBefore(t, pc, Serve(w.store, RequestAt(t, pc), fault, Live).reply, w.clock);
        Footprint(w.store, k, j);
      }
  }

  lemma StartIsShielded(w: World, k: Key, fault: Fault)
    requires k in w.jobs && w.jobs[k].Fetch?
    ensures var w' := CallStep(w, k, fault, Live); ShieldedJob(w'.store, k, w'.jobs[k])
  {
    hide PolicyKey;
  }

  /** A dispatch goes past its policy only when the policy is stored. */
  lemma PolicyIsMade(s: Store, t: Task, pc: PC, fault: Fault, now: nat)
    requires pc.LookPolicy? || pc.MakePolicy?
    ensures var e := Serve(s, RequestAt(t, pc), fault, Live);
            var j := AdvanceAt(t, pc, e.reply, now);
            j.Work? && PolicyPC(j.pc) ==> j.seen == t && PolicyKey(t.key) in e.store.policies
  {
    hide PolicyKey, NewPolicy;
  }

  lemma PolicyBefore(t: Task, pc: PC, r: Reply, now: nat)
    requires !pc.LookPolicy? && !pc.MakePolicy?
    ensures var j := AdvanceAt(t, pc, r, now);
            j.Work? && PolicyPC(j.pc) ==> PolicyPC(pc)
  {
  }

  lemma PodStaysShielded(w: World, a: Action, p: Key)
    requires Base(w) && Owned(w.store) && Shielded(w) && p in Step(w, a).store.pods
    ensures ShieldedPod(Step(w, a).store, p)
  {
    hide Step, JobOk, Recorded, PolicyKey, Legal;
    var s' := Step(w, a).store;
    if p !in w.store.pods {
      NewPodOrigin(w, a, p);
      assert ShieldedJob(w.store, a.key, w.jobs[a.key]);
      DispatchIsStored(w, a);
    } else {
      PodKeepsOwner(w, a, p);
      var k := s'.pods[p].owner;
      if k in s'.tasks {
        StepEvolves(w, a);
        if k in w.store.tasks {
          assert ShieldedPod(w.store, p);
          PolicyStays(w, a, k);
        } else {
          CommitIsFree(w, a, k);
          assert false;
        }
      }
    }
  }

  lemma DispatchIsStored(w: World, a: Action)
    requires Base(w) && a.Call? && Enabled(w, a) && w.jobs[a.key].Work? && w.jobs[a.key].pc.MakePod?
    requires PolicyKey(a.key) in w.store.policies
    ensures PolicyKey(a.key) in Step(w, a).store.policies
  {
    hide Respond, RequestOf, JobOk, Recorded, PolicyKey;
    assert JobSound(w.store, a.key, w.jobs[a.key], w.clock);
    Footprint(w.store, a.key, w.jobs[a.key]);
  }

  lemma PodKeepsOwner(w: World, a: Action, p: Key)
    requires Base(w) && p in w.store.pods && p in Step(w, a).store.pods
    ensures Step(w, a).store.pods[p].owner == w.store.pods[p].owner
  {
    hide Respond, RequestOf, JobOk, Recorded, PodKey, NewPod;
    if a.Call? && Enabled(w, a) {
      assert JobSound(w.store, a.key, w.jobs[a.key], w.clock);
      Footprint(w.store, a.key, w.jobs[a.key]);
    } else if a.Outside? {
      PerformAddsNoPod(w.store, a.change);
    }
  }

  /** A created task starts without leftovers. */
  lemma CommitIsFree(w: World, a: Action, k: Key)
    requires Base(w) && k !in w.store.tasks && k in Step(w, a).store.tasks
    ensures Free(w.store, k)
    ensures Step(w, a).store.pods == w.store.pods && Step(w, a).store.maps == w.store.maps
  {
    hide Legal, Respond, Perform;
    StepEvolves(w, a);
  }

  lemma StepKeepsShielded(w: World, a: Action)
    requires Base(w) && Owned(w.store) && AllAttached(w) && Shielded(w) && Current(a)
    ensures Shielded(Step(w, a))
  {
    hide Base, Owned, AllAttached, CallStep, FinishStep, Perform, ShieldedPod, ShieldedJob;
    var w' := Step(w, a);
    forall p | p in w'.store.pods
      ensures ShieldedPod(w'.store, p)
    {
      PodStaysShielded(w, a, p);
    }
    forall k | k in w'.jobs
      ensures ShieldedJob(w'.store, k, w'.jobs[k])
    {
      if !Enabled(w, a) {
      } else if a.Begin? && a.key == k {
        FetchIsShielded(w'.store, k);
      } else if a.Call? && a.key == k {
        OwnCallIsShielded(w, k, a.fault);
      } else {
        StepKeepsJob(w, a, k);
        JobStaysShielded(w, a, k);
      }
    }
  }

  lemma FetchIsShielded(s: Store, k: Key)
    ensures ShieldedJob(s, k, Fetch)
  {
  }

  lemma JobStaysShielded(w: World, a: Action, k: Key)
    requires Base(w) && AllAttached(w) && k in w.jobs && ShieldedJob(w.store, k, w.jobs[k])
    ensures ShieldedJob(Step(w, a).store, k, w.jobs[k])
  {
    hide Step, RecordOk, Legal;
    var j := w.jobs[k];
    if j.Work? && PolicyPC(j.pc) {
      assert JobSound(w.store, k, j, w.clock);
      assert Attached(w.store, k, j);
      PolicyStays(w, a, k);
    }
  }

  // ---- The code map agrees with the spec ------------------------------------------------

  ghost predicate CodeAgrees(s: Store, k: Key)
    requires k in s.tasks
  {
    CodeKey(k) in s.maps ==> s.maps[CodeKey(k)] == NewCodeMap(k, s.tasks[k].spec.source)
  }

  ghost predicate AllCodeAgrees(s: Store) {
    s.guarded ==> forall k :: k in s.tasks ==> CodeAgrees(s, k)
  }

  /** A code map changes only by being created with the source of its own task. */
  lemma CodeMapOrigin(w: World, a: Action, k: Key)
    requires Base(w) && AllAttached(w) && w.store.guarded && k in w.store.tasks && CodeKey(k) in Step(w, a).store.maps
    ensures || (CodeKey(k) in w.store.maps && Step(w, a).store.maps[CodeKey(k)] == w.store.maps[CodeKey(k)])
            || Step(w, a).store.maps[CodeKey(k)] == NewCodeMap(k, w.store.tasks[k].spec.source)
  {
    StepWrites(w, a);
    hide Step, CallStep, Respond, RequestOf, Perform, CodeKey, NewCodeMap, Base, AllAttached;
    if a.Call? && Enabled(w, a) {
      CallWrites(w, a.key, a.fault, a.view);
      CodeCallOrigin(w, a.key, k);
    } else if a.Outside? {
      PerformKeepsCode(w.store, a.change, k);
    }
  }

  lemma CodeCallOrigin(w: World, i: Key, k: Key)
    requires Base(w) && AllAttached(w) && w.store.guarded && k in w.store.tasks && i in w.jobs && !w.jobs[i].Done?
    ensures var s' := Respond(w.store, RequestOf(i, w.jobs[i])).store;
            CodeKey(k) in s'.maps ==>
              || (CodeKey(k) in w.store.maps && s'.maps[CodeKey(k)] == w.store.maps[CodeKey(k)])
              || s'.maps[CodeKey(k)] == NewCodeMap(k, w.store.tasks[k].spec.source)
  {
    if i != k && CodeKey(i) == CodeKey(k) {
      DerivedNamesInjective(i, k);
    }
    hide Respond, RequestOf, RecordOk, CodeKey, NewCodeMap, Legal;
    assert JobSound(w.store, i, w.jobs[i], w.clock);
    assert Attached(w.store, i, w.jobs[i]);
    Footprint(w.store, i, w.jobs[i]);
  }

  lemma PerformKeepsCode(s: Store, c: Change, k: Key)
    ensures CodeKey(k) in Perform(s, c).store.maps ==>
              CodeKey(k) in s.maps && Perform(s, c).store.maps[CodeKey(k)] == s.maps[CodeKey(k)]
  {
    SuffixOfConcat(k.name, "-code");
    assert HasSuffix(CodeKey(k).name, "-code");
    hide HasSuffix, CodeKey;
  }

  lemma StepKeepsCode(w: World, a: Action)
    requires Base(w) && AllAttached(w) && AllCodeAgrees(w.store)
    ensures AllCodeAgrees(Step(w, a).store)
  {
    hide Step, Legal, AllAttached, CodeKey;
    StepKeepsBase(w, a);
    StepEvolves(w, a);
    var s' := Step(w, a).store;
    if s'.guarded {
      forall k | k in s'.tasks
        ensures CodeAgrees(s', k)
      {
        if k !in w.store.tasks {
          CommitIsFree(w, a, k);
        } else if CodeKey(k) in s'.maps {
          CodeMapOrigin(w, a, k);
          assert Evolves(w.store.guarded, w.store.tasks[k], s'.tasks[k], w.clock);
          assert CodeAgrees(w.store, k);
        }
      }
    }
  }
}
