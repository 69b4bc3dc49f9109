/** What a failed read does to a dispatch. The code takes a failed look for the Sandbox
    CRD for "not installed" and a failed read of the profile map for "no overrides". */
module Misreading {
  import opened Names
  import opened Objects
  import opened Protocol
  import opened Lifecycle
  import opened ApiServer
  import opened Cluster
  import opened Safety
  import opened Ownership
  import opened Undisturbed
  import opened Dispatch
  import opened Attempts

  // ---- What the rest of an attempt does not look at ------------------------------------------

  function With(w: World, crd: bool, maps: map<Key, ConfigMap>): World {
    w.(store := w.store.(crd := crd, maps := maps))
  }

  ghost predicate PastCrd(pc: PC) {
    || pc.LookProfiles? || pc.LookSandbox? || pc.MakeSandbox? || pc.LookPod? || pc.MakePod?
    || pc.PutScheduled? || pc.PutRejected?
  }

  /** The request does not depend on the CRD, nor on the maps apart from the overrides. */
  ghost predicate Blind(s: Store, t: Task, pc: PC, crd: bool, maps: map<Key, ConfigMap>, now: nat) {
    var e, e' := Respond(s, RequestAt(t, pc)), Respond(s.(crd := crd, maps := maps), RequestAt(t, pc));
    && e'.store == e.store.(crd := crd, maps := maps) && e'.events == e.events && e.store.maps == s.maps
    && var j := AdvanceAt(t, pc, e.reply, now);
    && j == AdvanceAt(t, pc, e'.reply, now)
    && !j.Fetch? && (j.Work? ==> PastCrd(j.pc) && !j.pc.LookProfiles?)
  }

  ghost predicate SameOverrides(s: Store, t: Task, maps: map<Key, ConfigMap>) {
    OverridesAt(maps, ProfilesKey(t.key.ns)) == OverridesAt(s.maps, ProfilesKey(t.key.ns))
  }

  lemma ProfilesLookIsBlind(s: Store, t: Task, pc: PC, crd: bool, maps: map<Key, ConfigMap>, now: nat)
    requires pc.LookProfiles? && SameOverrides(s, t, maps)
    ensures Blind(s, t, pc, crd, maps, now)
  {
    assert RequestAt(t, pc) == GetMap(ProfilesKey(t.key.ns));
    hide ProfilesKey, RequestAt, ResolveImage;
  }

  lemma LookIsBlind(s: Store, t: Task, pc: PC, crd: bool, maps: map<Key, ConfigMap>, now: nat)
    requires pc.LookSandbox? || pc.LookPod?
    ensures Blind(s, t, pc, crd, maps, now)
  {
    assert RequestAt(t, pc) == if pc.LookPod? then GetPod(PodKey(t.key)) else GetSandbox(SandboxKey(t.key));
    hide RequestAt, ResolveImage, SelectBackend;
  }

  lemma MakeIsBlind(s: Store, t: Task, pc: PC, crd: bool, maps: map<Key, ConfigMap>, now: nat)
    requires pc.MakeSandbox? || pc.MakePod?
    ensures Blind(s, t, pc, crd, maps, now)
  {
    var q := RequestAt(t, pc);
    CreateIsBlind(s, q, crd, maps);
    hide Respond, RequestAt, SelectBackend, ResolveImage;
  }

  lemma PodCreationIsBlind(s: Store, k: Key, p: Pod, crd: bool, maps: map<Key, ConfigMap>)
    ensures var e, e' := Respond(s, CreatePod(k, p)), Respond(s.(crd := crd, maps := maps), CreatePod(k, p));
            && e'.store == e.store.(crd := crd, maps := maps) && e'.events == e.events && e'.reply == e.reply
            && e.store.maps == s.maps
  {
  }

  lemma SandboxCreationIsBlind(s: Store, k: Key, b: Sandbox, crd: bool, maps: map<Key, ConfigMap>)
    ensures var e, e' := Respond(s, CreateSandbox(k, b)), Respond(s.(crd := crd, maps := maps), CreateSandbox(k, b));
            && e'.store == e.store.(crd := crd, maps := maps) && e'.events == e.events && e'.reply == e.reply
            && e.store.maps == s.maps
  {
  }

  lemma CreateIsBlind(s: Store, q: Request, crd: bool, maps: map<Key, ConfigMap>)
    requires q.CreatePod? || q.CreateSandbox?
    ensures var e, e' := Respond(s, q), Respond(s.(crd := crd, maps := maps), q);
            && e'.store == e.store.(crd := crd, maps := maps) && e'.events == e.events && e'.reply == e.reply
            && e.store.maps == s.maps
  {
    hide Respond;
    if q.CreatePod? {
      PodCreationIsBlind(s, q.key, q.pod, crd, maps);
    } else {
      SandboxCreationIsBlind(s, q.key, q.sandbox, crd, maps);
    }
  }

  lemma PutIsBlind(s: Store, t: Task, pc: PC, crd: bool, maps: map<Key, ConfigMap>, now: nat)
    requires pc.PutScheduled? || pc.PutRejected?
    ensures Blind(s, t, pc, crd, maps, now)
  {
    assert RequestAt(t, pc) == PutStatus(t.key, t.version, pc.st);
    hide ReplaceStatus, RequestAt, SelectBackend, ResolveImage;
    StatusIsBlind(s, t.key, t.version, pc.st, crd, maps);
  }

  lemma StatusIsBlind(s: Store, k: Key, version: nat, st: Status, crd: bool, maps: map<Key, ConfigMap>)
    ensures var e, e' := ReplaceStatus(s, k, version, st), ReplaceStatus(s.(crd := crd, maps := maps), k, version, st);
            && e'.store == e.store.(crd := crd, maps := maps) && e'.reply == e.reply && e'.events == e.events
            && e.store.maps == s.maps
  {
    hide Save;
    if k in s.tasks {
      SaveIsBlind(s, s.tasks[k].(status := st), crd, maps);
    }
  }

  lemma SaveIsBlind(s: Store, t: Task, crd: bool, maps: map<Key, ConfigMap>)
    ensures Save(s.(crd := crd, maps := maps), t) ==
            Save(s, t).(store := Save(s, t).store.(crd := crd, maps := maps))
    ensures Save(s, t).store.maps == s.maps
  {
  }

  lemma RequestIsBlind(s: Store, t: Task, pc: PC, crd: bool, maps: map<Key, ConfigMap>, now: nat)
    requires PastCrd(pc) && (pc.LookProfiles? ==> SameOverrides(s, t, maps))
    ensures Blind(s, t, pc, crd, maps, now)
  {
    hide Blind, SameOverrides;
    if pc.LookProfiles? {
      ProfilesLookIsBlind(s, t, pc, crd, maps, now);
    } else if pc.LookSandbox? || pc.LookPod? {
      LookIsBlind(s, t, pc, crd, maps, now);
    } else if pc.MakeSandbox? || pc.MakePod? {
      MakeIsBlind(s, t, pc, crd, maps, now);
    } else {
      PutIsBlind(s, t, pc, crd, maps, now);
    }
  }

  /** The reconcile is over, or past its look for the CRD. */
  ghost predicate Decided(w: World, k: Key, maps: map<Key, ConfigMap>) {
    && k in w.jobs && !w.jobs[k].Fetch?
    && (w.jobs[k].Work? ==>
          PastCrd(w.jobs[k].pc) && (w.jobs[k].pc.LookProfiles? ==> SameOverrides(w.store, w.jobs[k].seen, maps)))
  }

  lemma CallIsBlind(w: World, k: Key, crd: bool, maps: map<Key, ConfigMap>)
    requires Decided(w, k, maps) && w.jobs[k].Work?
    ensures CalmCall(With(w, crd, maps), k) == With(CalmCall(w, k), crd, maps)
    ensures Decided(CalmCall(w, k), k, maps) && CalmCall(w, k).store.maps == w.store.maps
  {
    hide Respond, RequestAt, AdvanceAt, SameOverrides;
    RequestIsBlind(w.store, w.jobs[k].seen, w.jobs[k].pc, crd, maps, w.clock);
  }

  lemma {:induction false} DriveIsBlind(w: World, k: Key, crd: bool, maps: map<Key, ConfigMap>)
    requires Decided(w, k, maps)
    ensures Drive(With(w, crd, maps), k, []) == With(Drive(w, k, []), crd, maps)
    ensures Drive(w, k, []).store.maps == w.store.maps
    decreases Remaining(w.jobs[k])
  {
    if w.jobs[k].Done? {
      DoneDrive(w, k);
      DoneDrive(With(w, crd, maps), k);
    } else {
      hide CallStep, PastCrd, Remaining, SameOverrides;
      CalmDrive(w, k);
      CalmDrive(With(w, crd, maps), k);
      CallIsBlind(w, k, crd, maps);
      CallAdvances(w, k, Smooth, View.Live);
      DriveIsBlind(CalmCall(w, k), k, crd, maps);
    }
  }

  // ---- A failed read, and nothing else ---------------------------------------------------------

  ghost predicate Trusting(pc: PC) {
    pc.LookCrd? || pc.LookProfiles?
  }

  /** The world in which the failed read would have been the right answer. */
  function Imagined(w: World, k: Key): World
    requires k in w.jobs && w.jobs[k].Work?
  {
    if w.jobs[k].pc.LookCrd? then With(w, false, w.store.maps)
    else With(w, w.store.crd, w.store.maps - {ProfilesKey(k.ns)})
  }

  function ImaginedScene(c: Scene, pc: PC): Scene {
    if pc.LookCrd? then c.(crd := false) else c.(overrides := None)
  }

  lemma ImaginedFits(c: Scene, pc: PC)
    requires Trusting(pc) && Fits(c, pc)
    ensures Fits(ImaginedScene(c, pc), pc) && Goal(ImaginedScene(c, pc)) == Mistaken(c, pc)
  {
    hide PodKey, SandboxKey, CodeKey, NewCodeMap, NewPolicy, NewPod, NewSandbox;
  }

  lemma WithKeepsBoth(w: World, crd: bool, maps: map<Key, ConfigMap>)
    requires Base(w) && Owned(w.store) && (forall i :: i in maps ==> i in w.store.maps && maps[i] == w.store.maps[i])
    ensures Base(With(w, crd, maps)) && Owned(With(w, crd, maps).store)
  {
    hide JobOk, RecordOk, HasSuffix, PodKey, CodeKey, PolicyKey, SandboxKey, NewPolicy;
  }

  lemma ImaginedShows(w: World, k: Key)
    requires k in w.store.tasks && k in w.jobs && w.jobs[k].Work? && Trusting(w.jobs[k].pc)
    ensures SceneOf(Imagined(w, k).store, k) == ImaginedScene(SceneOf(w.store, k), w.jobs[k].pc)
  {
    CodeIsNoProfiles(k, k.ns);
    hide CodeKey, ProfilesKey, PolicyKey, PodKey, SandboxKey;
  }

  lemma ImaginedKeeps(w: World, k: Key)
    requires Base(w) && Owned(w.store) && InDispatch(w, k) && Trusting(w.jobs[k].pc)
    ensures var v := Imagined(w, k);
            && Base(v) && Owned(v.store) && InDispatch(v, k)
            && Goal(SceneOf(v.store, k)) == Mistaken(SceneOf(w.store, k), w.jobs[k].pc)
  {
    ImaginedFits(SceneOf(w.store, k), w.jobs[k].pc);
    ImaginedShows(w, k);
    hide Base, Owned, Goal, Fits, Mistaken, SceneOf, ProfilesKey;
    WithKeepsBoth(w, false, w.store.maps);
    WithKeepsBoth(w, w.store.crd, w.store.maps - {ProfilesKey(k.ns)});
  }

  /** A failed read and a negative answer lead to the same request. */
  lemma FailureIsAnswer(s: Store, t: Task, pc: PC, now: nat)
    requires pc.LookCrd? || pc.LookProfiles?
    requires if pc.LookCrd? then !s.crd else ProfilesKey(t.key.ns) !in s.maps
    ensures var e := Respond(s, RequestAt(t, pc));
            && e == Effect(s, NotFound, {})
            && AdvanceAt(t, pc, Unavailable, now) == AdvanceAt(t, pc, NotFound, now)
            && var j := AdvanceAt(t, pc, NotFound, now);
            && j.Work? && j.seen == t && PastCrd(j.pc) && (pc.LookProfiles? ==> !j.pc.LookProfiles?)
  {
    hide SelectBackend, ResolveImage, ProfilesKey;
  }

  /** The failed read acts like the answer of the imagined world. */
  lemma FailedCall(w: World, k: Key)
    requires InDispatch(w, k) && Trusting(w.jobs[k].pc)
    ensures var v, w' := Imagined(w, k), CallStep(w, k, Refusal, View.Live);
            && w' == With(CalmCall(v, k), w.store.crd, w.store.maps)
            && Decided(CalmCall(v, k), k, w.store.maps) && CalmCall(v, k).store == v.store
  {
    var v, t, pc := Imagined(w, k), w.jobs[k].seen, w.jobs[k].pc;
    hide Fits, AdvanceAt, Respond, RequestAt, PastCrd, ProfilesKey, SceneOf;
    FailureIsAnswer(v.store, t, pc, w.clock);
  }

  /** An attempt in which one of the two reads fails, and nothing else, leaves what it
      would have left if the answer taken for granted were true. */
  lemma FailedReadDecides(w: World, k: Key)
    requires Base(w) && Owned(w.store) && InDispatch(w, k) && Trusting(w.jobs[k].pc)
    ensures var w' := Drive(CallStep(w, k, Refusal, View.Live), k, []);
            k in w'.store.tasks && Present(SceneOf(w'.store, k)) == Mistaken(SceneOf(w.store, k), w.jobs[k].pc)
  {
    hide Base, Owned, Fits, Goal, Drive, CallStep, Trusting, Mistaken, Decided, PodKey, SandboxKey, PolicyKey;
    var v := Imagined(w, k);
    ImaginedKeeps(w, k);
    ImaginedShows(w, k);
    FailedCall(w, k);
    DriveIsBlind(CalmCall(v, k), k, w.store.crd, w.store.maps);
    CalmDrive(v, k);
    CalmIsUnbroken(v, k);
    DriveKeeps(v, k, []);
    var v' := Drive(v, k, []);
    SameOutcome(v', v, k, w.store.crd, w.store.maps);
  }

  lemma SameOutcome(v': World, v: World, k: Key, crd: bool, maps: map<Key, ConfigMap>)
    requires k in v'.store.tasks && v'.store.maps == v.store.maps
    requires At(v.store.maps, CodeKey(k)) == At(maps, CodeKey(k))
    ensures Present(SceneOf(With(v', crd, maps).store, k)) == Present(SceneOf(v'.store, k))
  {
  }

  /** The failure is harmless if and only if the read does not mislead. */
  lemma FailedReadIsHarmless(w: World, k: Key)
    requires Base(w) && Owned(w.store) && InDispatch(w, k) && Trusting(w.jobs[k].pc)
    ensures var w' := Drive(CallStep(w, k, Refusal, View.Live), k, []);
            && k in w'.store.tasks
            && (Present(SceneOf(w'.store, k)) == Goal(SceneOf(w.store, k)) <==>
                  !Misled(SceneOf(w.store, k), w.jobs[k].pc))
  {
    hide Base, Owned, Fits, Goal, Drive, CallStep, Trusting, Mistaken, Misled, SceneOf;
    FailedReadDecides(w, k);
    MisledExactly(SceneOf(w.store, k), w.jobs[k].pc);
  }
}
