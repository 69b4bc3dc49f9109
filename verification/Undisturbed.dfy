/** One reconcile that nobody disturbs: current reads, no faults, no crash. */
module Undisturbed {
  import opened Names
  import opened Objects
  import opened Protocol
  import opened ApiServer
  import opened Cluster

  /** A worker starts on the key, whatever the work queue holds. */
  function Started(w: World, k: Key): World {
    w.(jobs := w.jobs[k := Fetch])
  }

  function CalmCall(w: World, k: Key): World
    requires k in w.jobs && !w.jobs[k].Done?
  {
    CallStep(w, k, Smooth, Live)
  }

  /** The world after one undisturbed reconcile of the task. */
  function Reconciled(w: World, k: Key): World {
    Drive(Started(w, k), k, [])
  }

  lemma CalmDrive(w: World, k: Key)
    requires k in w.jobs && !w.jobs[k].Done?
    ensures Drive(w, k, []) == Drive(CalmCall(w, k), k, [])
  {
    assert Interfere(w, k, []) == w;
    hide CallStep, Remaining, Interfere;
  }

  lemma DoneDrive(w: World, k: Key)
    requires k in w.jobs && w.jobs[k].Done?
    ensures Drive(w, k, []) == w
  {
    hide CallStep, Remaining;
  }

  /** One request of an undisturbed reconcile, spelled out. */
  lemma CalmWork(w: World, k: Key, t: Task, pc: PC)
    requires k in w.jobs && w.jobs[k] == Work(t, pc)
    ensures var e := Respond(w.store, RequestAt(t, pc));
            var w' := CalmCall(w, k);
            && w'.store == e.store && w'.clock == w.clock && w'.queue == w.queue + e.events
            && w'.jobs == w.jobs[k := AdvanceAt(t, pc, e.reply, w.clock)]
  {
    hide Respond, RequestAt, AdvanceAt;
  }

  lemma CalmFetch(w: World, k: Key)
    requires k in w.jobs && w.jobs[k].Fetch? && k in w.store.tasks
    ensures var w' := CalmCall(w, k);
            w'.store == w.store && w'.clock == w.clock && w'.jobs == w.jobs[k := Start(w.store.tasks[k], w.clock)]
  {
    hide Start;
  }
}
