/** No pod without its code: in runs with current reads the map made from the source is
    stored before the pod that runs it is created. */
module CodeMaps {
  import opened Names
  import opened Objects
  import opened Protocol
  import opened Lifecycle
  import opened ApiServer
  import opened Cluster
  import opened Safety
  import opened Ownership
  import opened Cleanup
  import opened Isolation
  import opened Guarantees
  import opened Creations

  /** The requests after the code map has been ensured. */
  ghost predicate CodePC(pc: PC) {
    || pc.LookPolicy? || pc.MakePolicy? || pc.LookCrd? || pc.LookProfiles? || pc.LookSandbox? || pc.MakeSandbox?
    || pc.LookPod? || pc.MakePod?
  }

  ghost predicate UsesSource(t: Task) {
    t.spec.configMapRef.None? && t.spec.source != ""
  }

  ghost predicate CodedJob(s: Store, k: Key, j: Job) {
    j.Work? && CodePC(j.pc) && UsesSource(j.seen) ==> CodeKey(k) in s.maps
  }

  ghost predicate Coded(w: World) {
    forall k :: k in w.jobs ==> CodedJob(w.store, k, w.jobs[k])
  }

  /** The code map of a stored task is never removed. */
  lemma CodeStays(w: World, a: Action, k: Key)
    requires Base(w) && k in w.store.tasks && CodeKey(k) in w.store.maps
    ensures CodeKey(k) in Step(w, a).store.maps
  {
    StepWrites(w, a);
    if a.Call? && Enabled(w, a) {
      assert JobSound(w.store, a.key, w.jobs[a.key], w.clock);
      hide Step, CallStep, Respond, RequestOf, JobOk, RecordOk, CodeKey, SameOthers, PodFootprint, NewCodeMap;
      CallWrites(w, a.key, a.fault, a.view);
      Footprint(w.store, a.key, w.jobs[a.key]);
    } else if a.Outside? {
      hide Step, Base;
      PerformKeepsMap(w.store, a.change, k);
    } else if a.Commit? && Enabled(w, a) {
      hide Step, CodeKey;
    } else {
      hide Step;
    }
  }

  lemma PerformKeepsMap(s: Store, c: Change, k: Key)
    requires k in s.tasks && CodeKey(k) in s.maps
    ensures CodeKey(k) in Perform(s, c).store.maps
  {
    if c.Sweep? && CodeKey(c.key) == CodeKey(k) {
      DerivedNamesInjective(c.key, k);
    }
    hide CodeKey, HasSuffix, PolicyKey, SandboxKey;
  }

  lemma StartIsBefore(t: Task, now: nat)
    ensures var j := Start(t, now);
            j.Work? ==> j.seen == t && (CodePC(j.pc) ==> !UsesSource(t))
  {
    hide TimedOut;
  }

  /** A dispatch goes past its code map only when the map is stored. */
  lemma CodeIsMade(s: Store, t: Task, pc: PC, fault: Fault, now: nat)
    requires pc.LookCode? || pc.MakeCode?
    ensures var e := Serve(s, RequestAt(t, pc), fault, View.Live);
            var j := AdvanceAt(t, pc, e.reply, now);
            j.Work? && CodePC(j.pc) ==> j.seen == t && CodeKey(t.key) in e.store.maps
  {
    hide CodeKey, NewCodeMap;
  }

  lemma CodeBefore(t: Task, pc: PC, r: Reply, now: nat)
    requires !pc.LookCode? && !pc.MakeCode?
    ensures var j := AdvanceAt(t, pc, r, now);
            j.Work? && CodePC(j.pc) ==> j.seen == t && CodePC(pc)
  {
    hide SelectBackend, ResolveImage;
  }

  lemma FetchIsCoded(w: World, k: Key, fault: Fault)
    requires k in w.jobs && w.jobs[k].Fetch?
    ensures var w' := CallStep(w, k, fault, View.Live); CodedJob(w'.store, k, w'.jobs[k])
  {
    hide Start, CodePC, CodeKey, UsesSource;
    if k in w.store.tasks {
      StartIsBefore(w.store.tasks[k], w.clock);
    }
  }

  lemma OwnCallIsCoded(w: World, k: Key, fault: Fault)
    requires Base(w) && k in w.jobs && !w.jobs[k].Done? && CodedJob(w.store, k, w.jobs[k])
    ensures var w' := CallStep(w, k, fault, View.Live); CodedJob(w'.store, k, w'.jobs[k])
  {
    hide RequestAt, AdvanceAt, Respond, Start, JobOk, RecordOk, CodeKey, NewCodeMap, UsesSource;
    var j := w.jobs[k];
    assert JobSound(w.store, k, j, w.clock);
    match j
    case Fetch => FetchIsCoded(w, k, fault);
    case Work(t, pc) =>
      if pc.LookCode? || pc.MakeCode? {
        CodeIsMade(w.store, t, pc, fault, w.clock);
      } else {
        CodeBefore(t, pc, Serve(w.store, RequestAt(t, pc), fault, View.Live).reply, w.clock);
        Footprint(w.store, k, j);
      }
  }

  lemma JobStaysCoded(w: World, a: Action, k: Key)
    requires Base(w) && AllAttached(w) && k in w.jobs && CodedJob(w.store, k, w.jobs[k])
    ensures CodedJob(Step(w, a).store, k, w.jobs[k])
  {
    hide Step, RecordOk, Legal;
    var j := w.jobs[k];
    if j.Work? && CodePC(j.pc) && UsesSource(j.seen) {
      assert JobSound(w.store, k, j, w.clock);
      assert Attached(w.store, k, j);
      CodeStays(w, a, k);
    }
  }

  lemma StepKeepsCoded(w: World, a: Action)
    requires Base(w) && AllAttached(w) && Coded(w) && Current(a)
    ensures Coded(Step(w, a))
  {
    hide Base, AllAttached, CallStep, FinishStep, Perform, CodedJob;
    var w' := Step(w, a);
    forall k | k in w'.jobs
      ensures CodedJob(w'.store, k, w'.jobs[k])
    {
      if !Enabled(w, a) {
      } else if a.Begin? && a.key == k {
        NoWorkIsCoded(w'.store, k);
      } else if a.Call? && a.key == k {
        OwnCallIsCoded(w, k, a.fault);
      } else {
        StepKeepsJob(w, a, k);
        JobStaysCoded(w, a, k);
      }
    }
  }

  lemma NoWorkIsCoded(s: Store, k: Key)
    ensures CodedJob(s, k, Fetch)
  {
  }

  lemma {:induction false} RunKeepsCoded(w: World, run: seq<Action>)
    requires Guarantees.Live(w) && Coded(w) && CurrentReads(run)
    ensures Coded(Exec(w, run))
    decreases |run|
  {
    hide Step, Coded, Base, Owned, AllAttached, Clean, Shielded, AllCodeAgrees;
    if run != [] {
      assert run[0] in run;
      assert forall a :: a in run[1..] ==> a in run;
      StepKeepsLive(w, run[0]);
      StepKeepsCoded(w, run[0]);
      RunKeepsCoded(Step(w, run[0]), run[1..]);
    }
  }

  /** When the controller creates a pod for a task with a source of its own, behind the
      webhook and with current reads, the map that the pod runs is stored and holds exactly
      the source that the stored task has. */
  lemma CreatedPodsFindTheirSource(w0: World, run: seq<Action>, a: Action, p: Key)
    requires Initial(w0) && w0.store.guarded && CurrentReads(run) && Current(a)
    requires p in Exec(w0, run + [a]).store.pods && p !in Exec(w0, run).store.pods
    ensures a.Call? && a.key in Exec(w0, run).jobs && Exec(w0, run).jobs[a.key].Work?
    ensures var t, s := Exec(w0, run).jobs[a.key].seen, Exec(w0, run).store;
            t.spec.configMapRef.None? && t.spec.source != "" ==>
              && Exec(w0, run + [a]).store.pods[p].codeMap == t.key.name + "-code"
              && a.key in s.tasks && s.tasks[a.key].spec.source == t.spec.source
              && var m := Key(t.key.ns, t.key.name + "-code");
              m in s.maps && s.maps[m].data == map["entrypoint.py" := t.spec.source]
  {
    CreatedPodsRunTheirCode(w0, run, a, p);
    var w := Exec(w0, run);
    Reachable(w0, run);
    InitialLive(w0);
    assert Coded(w0);
    RunKeepsCoded(w0, run);
    RunKeepsGuard(w0, run);
    hide Exec, Labelled, Shielded, Clean, Owned;
    MakerIsCoded(w0, run, a, p);
    var t := w.jobs[a.key].seen;
    CodeName(a.key);
    if UsesSource(t) {
      assert CodedJob(w.store, a.key, w.jobs[a.key]) && Attached(w.store, a.key, w.jobs[a.key]);
      assert CodeAgrees(w.store, a.key);
    }
  }

  lemma CodeName(k: Key)
    ensures CodeKey(k) == Key(k.ns, k.name + "-code")
  {
  }

  lemma MakerIsCoded(w0: World, run: seq<Action>, a: Action, p: Key)
    requires Initial(w0) && p in Exec(w0, run + [a]).store.pods && p !in Exec(w0, run).store.pods
    ensures a.Call? && a.key in Exec(w0, run).jobs && Exec(w0, run).jobs[a.key].Work? && Exec(w0, run).jobs[a.key].pc.MakePod?
  {
    hide Exec, Step, Base;
    InitialBase(w0);
    RunKeepsBase(w0, run);
    ExecLast(w0, run, a);
    NewPodOrigin(Exec(w0, run), a, p);
  }
}
