/** The API server together with the controller's work queue and workers, as a
    state machine. One API request is one atomic step. */
module Cluster {
  import opened Names
  import opened Objects
  import opened Protocol
  import opened ApiServer

  /** A create request between its admission check and its commit. */
  datatype Draft = Draft(key: Key, spec: Spec)

  datatype World = World(
    store: Store,
    drafts: map<nat, Draft>,   // admitted creates that are not stored yet
    clock: nat,                // nanoseconds
    queue: set<Key>,           // the work queue
    timers: map<Key, nat>,     // delayed requeues and when they fire
    jobs: map<Key, Job>)       // reconciles in flight, at most one per key

  datatype Action =
    | Outside(change: Change)
    | Admit(id: nat, draft: Draft, counted: nat)  // the check of a create, over a list with `counted` active tasks
    | Commit(id: nat)                             // an admitted create is stored
    | Abandon(id: nat)
    | Tick(duration: nat)
    | Fire(key: Key)
    | Resync(key: Key)
    | Begin(key: Key)
    | Call(key: Key, fault: Fault, view: View)
    | Finish(key: Key)
    | Crash

  predicate Enabled(w: World, a: Action) {
    match a
    case Admit(id, d, counted) => id !in w.drafts && Admissible(w.store, d.spec, counted)
    case Commit(id) => id in w.drafts && Free(w.store, w.drafts[id].key)
    case Abandon(id) => id in w.drafts
    case Fire(k) => k in w.timers && w.timers[k] <= w.clock
    case Begin(k) => k in w.queue && k !in w.jobs
    case Call(k, _, _) => k in w.jobs && !w.jobs[k].Done?
    case Finish(k) => k in w.jobs && w.jobs[k].Done?
    case _ => true
  }

  /** The watches put the touched keys into the work queue. */
  function Apply(w: World, e: Effect): World {
    w.(store := e.store, queue := w.queue + e.events)
  }

  function CommitStep(w: World, id: nat): World
    requires id in w.drafts
  {
    var e := Save(w.store, NewTask(w.store, w.drafts[id].key, w.drafts[id].spec));
    Apply(w.(drafts := w.drafts - {id}), e)
  }

  /** One request of the reconcile of `key`, and the code up to the next one. */
  function CallStep(w: World, key: Key, fault: Fault, view: View): World
    requires key in w.jobs && !w.jobs[key].Done?
  {
    var e := Serve(w.store, RequestOf(key, w.jobs[key]), fault, view);
    Apply(w, e).(jobs := w.jobs[key := Advance(w.jobs[key], e.reply, w.clock)])
  }

  /** The reconcile returns and the work queue acts on its result. A delay that
      is not positive means no requeue; an earlier timer is kept. */
  function FinishStep(w: World, key: Key): World
    requires key in w.jobs && w.jobs[key].Done?
  {
    var w' := w.(jobs := w.jobs - {key});
    match w.jobs[key].result
    case Settled => w'
    case Requeue => w'.(queue := w.queue + {key})
    case Error => w'.(queue := w.queue + {key})
    case RequeueAfter(delay) =>
      if delay <= 0 then w'
      else if key in w.timers && w.timers[key] <= w.clock + delay then w'
      else w'.(timers := w.timers[key := w.clock + delay])
  }

  function Owners(s: Store): set<Key> {
    set p | p in s.pods :: s.pods[p].owner
  }

  /** After a restart nothing is in flight and every task and pod owner is queued. */
  function CrashStep(w: World): World {
    w.(jobs := map[], timers := map[], queue := w.store.tasks.Keys + Owners(w.store))
  }

  function Step(w: World, a: Action): World {
    if !Enabled(w, a) then w
    else
      match a
      case Outside(c) => Apply(w, Perform(w.store, c))
      case Admit(id, d, _) => w.(drafts := w.drafts[id := d])
      case Commit(id) => CommitStep(w, id)
      case Abandon(id) => w.(drafts := w.drafts - {id})
      case Tick(d) => w.(clock := w.clock + d)
      case Fire(k) => w.(timers := w.timers - {k}, queue := w.queue + {k})
      case Resync(k) => w.(queue := w.queue + {k})
      case Begin(k) => w.(queue := w.queue - {k}, jobs := w.jobs[k := Fetch])
      case Call(k, fault, view) => CallStep(w, k, fault, view)
      case Finish(k) => FinishStep(w, k)
      case Crash => CrashStep(w)
  }

  /** Which steps write to the store, and what. */
  lemma StepWrites(w: World, a: Action)
    ensures a.Outside? ==> Step(w, a).store == Perform(w.store, a.change).store
    ensures a.Call? && Enabled(w, a) ==> Step(w, a) == CallStep(w, a.key, a.fault, a.view)
    ensures a.Commit? && Enabled(w, a) ==> Step(w, a) == CommitStep(w, a.id)
    ensures !Enabled(w, a) ==> Step(w, a) == w
    ensures !a.Outside? && !a.Call? && !a.Commit? ==> Step(w, a).store == w.store
  {
    hide Perform, CallStep, CommitStep, Owners;
  }

  /** A request leaves the store alone or has its full effect. */
  lemma CallWrites(w: World, k: Key, fault: Fault, view: View)
    requires k in w.jobs && !w.jobs[k].Done?
    ensures var s' := CallStep(w, k, fault, view).store;
            s' == w.store || s' == Respond(w.store, RequestOf(k, w.jobs[k])).store
  {
    hide Respond, RequestOf, Advance;
  }

  // ---- Runs -----------------------------------------------------------------------

  /** The world after a run. */
  function Exec(w: World, run: seq<Action>): World
    decreases |run|
  {
    if run == [] then w else Exec(Step(w, run[0]), run[1..])
  }

  /** A fresh cluster: no tasks and nothing derived from one. */
  predicate Initial(w: World) {
    && w.store.tasks == map[] && w.store.pods == map[] && w.store.sandboxes == map[]
    && w.store.policies == map[] && w.store.past == {}
    && (forall k :: k in w.store.maps ==> !HasSuffix(k.name, "-code"))
    && w.jobs == map[] && w.drafts == map[]
  }

  predicate Current(a: Action) {
    a.Call? ==> a.view.Live?
  }

  /** Every read in the run is served from the store. */
  predicate CurrentReads(run: seq<Action>) {
    forall a :: a in run ==> Current(a)
  }

  lemma {:induction false} ExecConcat(w: World, a: seq<Action>, b: seq<Action>)
    ensures Exec(w, a + b) == Exec(Exec(w, a), b)
    decreases |a|
  {
    if a == [] {
      assert a + b == b;
    } else {
      assert (a + b)[1..] == a[1..] + b;
      ExecConcat(Step(w, a[0]), a[1..], b);
    }
  }

  lemma ExecFirst(w: World, a: Action, rest: seq<Action>)
    ensures Exec(w, [a] + rest) == Exec(Step(w, a), rest)
  {
    assert ([a] + rest)[1..] == rest;
    hide Step;
  }

  lemma ExecNothing(w: World)
    ensures Exec(w, []) == w
  {
    hide Step;
  }

  lemma ExecLast(w: World, run: seq<Action>, a: Action)
    ensures Exec(w, run + [a]) == Step(Exec(w, run), a)
  {
    hide Step;
    ExecConcat(w, run, [a]);
    ExecFirst(Exec(w, run), a, []);
    assert [a] + [] == [a];
  }

  // ---- One reconcile under a given schedule ------------------------------------------

  /** What surrounds one API request of a reconcile: the steps others take before
      it, whether the controller crashes before it, and how it is served. */
  datatype Turn = Turn(others: seq<Action>, crash: bool, fault: Fault, view: View)

  const Calm := Turn([], false, Smooth, Live)

  function FirstTurn(turns: seq<Turn>): Turn {
    if turns == [] then Calm else turns[0]
  }

  function LaterTurns(turns: seq<Turn>): seq<Turn> {
    if turns == [] then [] else turns[1..]
  }

  /** A step that is not taken by the worker of `me` and does not stop it. */
  predicate Foreign(a: Action, me: Key) {
    !a.Crash? && !(a.Begin? && a.key == me) && !(a.Call? && a.key == me) && !(a.Finish? && a.key == me)
  }

  function OnlyForeign(others: seq<Action>, me: Key): seq<Action> {
    if others == [] then []
    else if Foreign(others[0], me) then [others[0]] + OnlyForeign(others[1..], me)
    else OnlyForeign(others[1..], me)
  }

  function Interfere(w: World, me: Key, others: seq<Action>): World {
    Exec(w, OnlyForeign(others, me))
  }

  lemma StepKeepsForeignJob(w: World, a: Action, me: Key)
    requires Foreign(a, me)
    ensures me in w.jobs <==> me in Step(w, a).jobs
    ensures me in w.jobs ==> Step(w, a).jobs[me] == w.jobs[me]
  {
  }

  lemma {:induction false} InterfereKeepsJob(w: World, me: Key, others: seq<Action>)
    ensures me in w.jobs <==> me in Interfere(w, me, others).jobs
    ensures me in w.jobs ==> Interfere(w, me, others).jobs[me] == w.jobs[me]
    decreases |others|
  {
    if others != [] {
      if Foreign(others[0], me) {
        StepKeepsForeignJob(w, others[0], me);
        InterfereKeepsJob(Step(w, others[0]), me, others[1..]);
      } else {
        InterfereKeepsJob(w, me, others[1..]);
      }
    }
  }

  lemma CallAdvances(w: World, me: Key, fault: Fault, view: View)
    requires me in w.jobs && !w.jobs[me].Done?
    ensures me in CallStep(w, me, fault, view).jobs
    ensures Remaining(CallStep(w, me, fault, view).jobs[me]) < Remaining(w.jobs[me])
  {
    AdvanceDecreases(w.jobs[me], Serve(w.store, RequestOf(me, w.jobs[me]), fault, view).reply, w.clock);
  }

  /** The world when the reconcile of `me` is over (or the controller crashed). */
  function Drive(w: World, me: Key, turns: seq<Turn>): World
    decreases if me in w.jobs then Remaining(w.jobs[me]) else 0
  {
    if me !in w.jobs || w.jobs[me].Done? then w
    else
      var turn := FirstTurn(turns);
      var w1 := Interfere(w, me, turn.others);
      InterfereKeepsJob(w, me, turn.others);
      if turn.crash then CrashStep(w1)
      else
        CallAdvances(w1, me, turn.fault, turn.view);
        Drive(CallStep(w1, me, turn.fault, turn.view), me, LaterTurns(turns))
  }

  /** The steps that one reconcile under a schedule takes, with those of the others. */
  function Schedule(w: World, me: Key, turns: seq<Turn>): seq<Action>
    decreases if me in w.jobs then Remaining(w.jobs[me]) else 0
  {
    if me !in w.jobs || w.jobs[me].Done? then []
    else
      var turn := FirstTurn(turns);
      var w1 := Interfere(w, me, turn.others);
      InterfereKeepsJob(w, me, turn.others);
      if turn.crash then OnlyForeign(turn.others, me) + [Crash]
      else
        CallAdvances(w1, me, turn.fault, turn.view);
        OnlyForeign(turn.others, me) + [Call(me, turn.fault, turn.view)]
          + Schedule(CallStep(w1, me, turn.fault, turn.view), me, LaterTurns(turns))
  }

  /** Reconciling under any schedule is a run of the state machine. */
  lemma {:induction false} DriveIsRun(w: World, me: Key, turns: seq<Turn>)
    ensures Exec(w, Schedule(w, me, turns)) == Drive(w, me, turns)
    decreases if me in w.jobs then Remaining(w.jobs[me]) else 0
  {
    if me in w.jobs && !w.jobs[me].Done? {
      var turn := FirstTurn(turns);
      var others := OnlyForeign(turn.others, me);
      var w1 := Interfere(w, me, turn.others);
      InterfereKeepsJob(w, me, turn.others);
      if turn.crash {
        ExecConcat(w, others, [Crash]);
        assert Exec(w1, [Crash]) == CrashStep(w1);
      } else {
        CallAdvances(w1, me, turn.fault, turn.view);
        var a := Call(me, turn.fault, turn.view);
        var w2 := CallStep(w1, me, turn.fault, turn.view);
        var rest := Schedule(w2, me, LaterTurns(turns));
        DriveIsRun(w2, me, LaterTurns(turns));
        ExecConcat(w, others + [a], rest);
        ExecConcat(w, others, [a]);
        assert Exec(w1, [a]) == w2;
      }
    }
  }
}
