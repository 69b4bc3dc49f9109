/** What the reconciler's code holds while it runs: the task object it changes in
    place, and the client through which it reaches the API server. */
module Client {
  import opened Names
  import opened Objects
  import opened Protocol
  import opened ApiServer
  import opened Cluster

  /** The in-memory copy of a task. Assigning to it stores nothing. */
  class TaskObject {
    const key: Key
    const uid: nat
    const version: nat
    const spec: Spec
    const deleting: bool
    var finalizer: bool
    var status: Status

    constructor (t: Task)
      ensures Value() == t
    {
      key, uid, version, spec, deleting := t.key, t.uid, t.version, t.spec, t.deleting;
      finalizer, status := t.finalizer, t.status;
    }

    function Value(): Task
      reads this
    {
      Task(key, uid, version, spec, status, finalizer, deleting)
    }
  }

  /** The client of one reconcile of the task `me`. `turns` says what happens around
      each request; after a crash every request fails and has no effect. The ghost
      fields say where in the automaton the caller is, and in which world the
      reconcile will end. */
  class ApiClient {
    const me: Key
    var world: World
    var turns: seq<Turn>
    var alive: bool
    ghost var job: Job
    ghost var goal: World

    constructor (me: Key, world: World, turns: seq<Turn>)
      requires me in world.jobs && world.jobs[me] == Fetch
      ensures this.me == me && this.world == world && this.turns == turns && alive
      ensures OnTrack() && job == Fetch && goal == Drive(world, me, turns)
    {
      this.me, this.world, this.turns, alive := me, world, turns, true;
      job, goal := Fetch, Drive(world, me, turns);
    }

    /** As long as the controller runs, the automaton's job is the caller's, and the
        rest of the schedule leads to the goal; after a crash the goal is reached. */
    ghost predicate OnTrack()
      reads this
    {
      if alive then me in world.jobs && world.jobs[me] == job && Drive(world, me, turns) == goal
      else world == goal
    }

    /** One API request. The caller must make the request the automaton makes next. */
    method Send(q: Request) returns (r: Reply)
      requires OnTrack() && !job.Done? && q == RequestOf(me, job)
      modifies this
      ensures OnTrack() && goal == old(goal)
      ensures job == Advance(old(job), r, world.clock)
    {
      if !alive {
        job := Advance(job, Unavailable, world.clock);
        return Unavailable;
      }
      var turn := FirstTurn(turns);
      InterfereKeepsJob(world, me, turn.others);
      world := Interfere(world, me, turn.others);
      if turn.crash {
        world := CrashStep(world);
        alive := false;
        job := Advance(job, Unavailable, world.clock);
        return Unavailable;
      }
      CallAdvances(world, me, turn.fault, turn.view);
      r := Serve(world.store, q, turn.fault, turn.view).reply;
      world := CallStep(world, me, turn.fault, turn.view);
      turns := LaterTurns(turns);
      job := Advance(job, r, world.clock);
    }

    method Now() returns (now: nat)
      ensures now == world.clock
    {
      now := world.clock;
    }
  }
}
