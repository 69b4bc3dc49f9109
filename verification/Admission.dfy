/** The cap on active tasks under interleaved admissions, and that the webhook and
    the controller never block each other. */
module Admission {
  import opened Names
  import opened Webhook
  import opened Protocol
  import opened Lifecycle
  import opened ApiServer
  import opened Cluster
  import opened Safety
  import opened Transitions
  import opened StatusHistory

  function Active(w: World, ns: string): set<Key> {
    ActiveIn(w.store.tasks, ns)
  }

  /** Creates of the namespace between their admission check and their commit. */
  function Waiting(w: World, ns: string): set<nat> {
    Of(w.drafts, ns)
  }

  function Of(drafts: map<nat, Draft>, ns: string): set<nat> {
    set id | id in drafts && drafts[id].key.ns == ns
  }

  /** One step adds an active task only by committing a create; nothing is revived. */
  lemma StepActive(w: World, a: Action, ns: string)
    requires Base(w)
    ensures Active(Step(w, a), ns) <=
              Active(w, ns) + (if a.Commit? && a.id in Waiting(w, ns) && Enabled(w, a) then {w.drafts[a.id].key} else {})
  {
    hide Step, Legal, RecordOk, JobSound;
    StepEvolves(w, a);
    forall k | k in Active(Step(w, a), ns)
      ensures k in Active(w, ns) + (if a.Commit? && a.id in Waiting(w, ns) && Enabled(w, a) then {w.drafts[a.id].key} else {})
    {
      if k in w.store.tasks {
        StepDescends(w, a, k);
      } else {
        AddsByCommit(w, a, k);
      }
    }
  }

  lemma AddsByCommit(w: World, a: Action, k: Key)
    requires Base(w) && k in Step(w, a).store.tasks && k !in w.store.tasks
    ensures Enabled(w, a) && a.Commit? && a.id in w.drafts && w.drafts[a.id].key == k
  {
    StepEvolves(w, a);
  }

  lemma CardinalityUnion<T>(a: set<T>, b: set<T>, x: T)
    requires a <= b + {x}
    ensures |a| <= |b| + 1
  {
    Smaller(a, b + {x});
    if x !in b {
      assert |b + {x}| == |b| + 1;
    } else {
      assert b + {x} == b;
    }
  }

  lemma {:induction false} Smaller<T>(a: set<T>, b: set<T>)
    requires a <= b
    ensures |a| <= |b|
  {
    if a != {} {
      var x :| x in a;
      Smaller(a - {x}, b - {x});
    }
  }

  lemma StepActiveCount(w: World, a: Action, ns: string)
    requires Base(w)
    ensures |Active(Step(w, a), ns)| <=
              |Active(w, ns)| + if a.Commit? && a.id in Waiting(w, ns) && Enabled(w, a) then 1 else 0
  {
    hide Step, Active, Waiting;
    StepActive(w, a, ns);
    if a.Commit? && a.id in Waiting(w, ns) && Enabled(w, a) {
      CardinalityUnion(Active(Step(w, a), ns), Active(w, ns), w.drafts[a.id].key);
    } else {
      Smaller(Active(Step(w, a), ns), Active(w, ns));
    }
  }

  // ---- Counting over an out-of-date list ---------------------------------------------

  /** The creates of the namespace committed in a run. */
  ghost function Created(w: World, run: seq<Action>, ns: string): nat
    decreases |run|
  {
    if run == [] then 0
    else (if run[0].Commit? && run[0].id in Waiting(w, ns) && Enabled(w, run[0]) then 1 else 0)
         + Created(Step(w, run[0]), run[1..], ns)
  }

  lemma {:induction false} GrowsByCreates(w: World, run: seq<Action>, ns: string)
    requires Base(w)
    ensures |Active(Exec(w, run), ns)| <= |Active(w, ns)| + Created(w, run, ns)
    decreases |run|
  {
    hide Step, Base, Active, Waiting, Enabled;
    if run != [] {
      StepActiveCount(w, run[0], ns);
      StepKeepsBase(w, run[0]);
      GrowsByCreates(Step(w, run[0]), run[1..], ns);
    }
  }

  /** For any earlier snapshot: its active count plus the tasks created since is never less
      than the active count now. */
  lemma StaleCountIsSafe(w0: World, before: seq<Action>, since: seq<Action>, ns: string)
    requires Initial(w0)
    ensures var snapshot, w := Exec(w0, before), Exec(w0, before + since);
            |Active(w, ns)| <= |Active(snapshot, ns)| + Created(snapshot, since, ns)
  {
    hide Exec, Active, Created;
    AlwaysBase(w0, before);
    ExecConcat(w0, before, since);
    GrowsByCreates(Exec(w0, before), since, ns);
  }

  // ---- The cap -------------------------------------------------------------------------

  /** At no moment of the run are more than `k` creates of the namespace waiting. */
  ghost predicate AtMostWaiting(w: World, run: seq<Action>, ns: string, k: nat) {
    forall n :: 0 <= n <= |run| ==> |Waiting(Exec(w, run[..n]), ns)| <= k
  }

  /** The list behind the count was right after `m` of the first `n` steps, and the
      namespace has seen at most `j` creates since. */
  ghost predicate ListedAt(w: World, run: seq<Action>, ns: string, n: nat, m: nat, counted: nat, j: nat)
    requires m <= n <= |run|
  {
    && counted == |Active(Exec(w, run[..m]), ns)|
    && Created(Exec(w, run[..m]), run[m..n], ns) <= j
  }

  /** Every list on which a create of the namespace is admitted is at most `j` creates old. */
  ghost predicate ListsWithin(w: World, run: seq<Action>, ns: string, j: nat) {
    forall n :: 0 <= n < |run| && run[n].Admit? && run[n].draft.key.ns == ns ==>
      exists m :: 0 <= m <= n && ListedAt(w, run, ns, n, m, run[n].counted, j)
  }

  /** Active and waiting tasks of the namespace together. */
  function Load(w: World, ns: string): nat {
    |Active(w, ns)| + |Waiting(w, ns)|
  }

  lemma WaitingAfter(w: World, a: Action, ns: string)
    requires Enabled(w, a)
    ensures a.Admit? ==> |Waiting(Step(w, a), ns)| == |Waiting(w, ns)| + if a.draft.key.ns == ns then 1 else 0
    ensures a.Commit? || a.Abandon? ==>
              |Waiting(Step(w, a), ns)| == |Waiting(w, ns)| - if a.id in Waiting(w, ns) then 1 else 0
    ensures !a.Admit? && !a.Commit? && !a.Abandon? ==> Waiting(Step(w, a), ns) == Waiting(w, ns)
  {
    hide Step, Of;
    DraftsAfter(w, a);
    if a.Admit? {
      OneMore(w.drafts, a.id, a.draft, ns);
    } else if a.Commit? || a.Abandon? {
      OneLess(w.drafts, a.id, ns);
    }
  }

  lemma OneMore(ds: map<nat, Draft>, id: nat, d: Draft, ns: string)
    requires id !in ds
    ensures |Of(ds[id := d], ns)| == |Of(ds, ns)| + if d.key.ns == ns then 1 else 0
  {
    assert Of(ds[id := d], ns) == Of(ds, ns) + if d.key.ns == ns then {id} else {};
  }

  lemma OneLess(ds: map<nat, Draft>, id: nat, ns: string)
    requires id in ds
    ensures |Of(ds - {id}, ns)| == |Of(ds, ns)| - if id in Of(ds, ns) then 1 else 0
  {
    assert Of(ds - {id}, ns) == Of(ds, ns) - {id};
  }

  lemma DraftsAfter(w: World, a: Action)
    requires Enabled(w, a)
    ensures Step(w, a).drafts == match a
                                 case Admit(id, d, _) => w.drafts[id := d]
                                 case Commit(id) => w.drafts - {id}
                                 case Abandon(id) => w.drafts - {id}
                                 case _ => w.drafts
  {
  }

  /** The load grows only by an admission, which finds at most 4+j active tasks. */
  lemma StepLoad(w: World, a: Action, ns: string, k: nat, j: nat)
    requires Base(w) && Load(w, ns) <= 4 + k + j && |Waiting(Step(w, a), ns)| <= k
    requires a.Admit? && a.draft.key.ns == ns && Enabled(w, a) ==> |Active(w, ns)| <= 4 + j
    ensures Load(Step(w, a), ns) <= 4 + k + j
  {
    hide Step, Waiting, Base;
    StepActiveCount(w, a, ns);
    if Enabled(w, a) {
      WaitingAfter(w, a, ns);
      if a.Admit? && a.draft.key.ns == ns {
        AdmitKeepsActive(w, a, ns);
      }
    } else {
      DisabledStutters(w, a);
    }
  }

  lemma AdmitKeepsActive(w: World, a: Action, ns: string)
    requires a.Admit?
    ensures Active(Step(w, a), ns) == Active(w, ns)
  {
  }

  lemma DisabledStutters(w: World, a: Action)
    requires !Enabled(w, a)
    ensures Step(w, a) == w
  {
  }

  /** An admission on a list at most `j` creates old finds at most 4+j active tasks. */
  lemma AdmittedCount(w: World, run: seq<Action>, ns: string, n: nat, j: nat)
    requires Base(w) && w.store.guarded && ListsWithin(w, run, ns, j)
    requires n < |run| && run[n].Admit? && run[n].draft.key.ns == ns && Enabled(Exec(w, run[..n]), run[n])
    ensures |Active(Exec(w, run[..n]), ns)| <= 4 + j
  {
    hide Exec, Active, Base, Created;
    var m :| 0 <= m <= n && ListedAt(w, run, ns, n, m, run[n].counted, j);
    assert run[..n] == run[..m] + run[m..n];
    ExecConcat(w, run[..m], run[m..n]);
    RunKeepsBase(w, run[..m]);
    RunKeepsGuard(w, run[..n]);
    GrowsByCreates(Exec(w, run[..m]), run[m..n], ns);
  }

  lemma {:induction false} LoadBounded(w: World, run: seq<Action>, ns: string, k: nat, j: nat, n: nat)
    requires Base(w) && w.store.guarded && Load(w, ns) <= 4 + k + j
    requires AtMostWaiting(w, run, ns, k) && ListsWithin(w, run, ns, j) && n <= |run|
    ensures Load(Exec(w, run[..n]), ns) <= 4 + k + j
    decreases n
  {
    hide Exec, Step, Load, Active, Waiting, Base, Enabled, ListsWithin;
    if n == 0 {
      assert run[..0] == [];
      ExecNothing(w);
    } else {
      var before, a := Exec(w, run[..n - 1]), run[n - 1];
      assert run[..n] == run[..n - 1] + [a];
      LoadBounded(w, run, ns, k, j, n - 1);
      RunKeepsBase(w, run[..n - 1]);
      ExecLast(w, run[..n - 1], a);
      if a.Admit? && a.draft.key.ns == ns && Enabled(before, a) {
        AdmittedCount(w, run, ns, n - 1, j);
      }
      StepLoad(before, a, ns, k, j);
    }
  }

  /** If at most k creates of a namespace are ever between their admission check and their
      commit, and the lists the checks are based on are at most j creates old, the namespace
      never holds more than 4+k+j active tasks: five when admissions are serial and lists
      are up to date. */
  lemma CapUnderInterleaving(w0: World, run: seq<Action>, ns: string, k: nat, j: nat)
    requires Initial(w0) && w0.store.guarded && AtMostWaiting(w0, run, ns, k) && ListsWithin(w0, run, ns, j)
    ensures |Active(Exec(w0, run), ns)| <= 4 + k + j
  {
    hide Exec, AtMostWaiting, ListsWithin;
    InitialBase(w0);
    assert Active(w0, ns) == {} && Waiting(w0, ns) == {};
    LoadBounded(w0, run, ns, k, j, |run|);
    assert run[..|run|] == run;
  }

  // ---- The cap is sharp ------------------------------------------------------------------

  /** Creates that the webhook would admit one by one: valid, new and distinct. */
  ghost predicate Admittable(s: Store, ds: seq<Draft>, ns: string) {
    && (forall i :: 0 <= i < |ds| ==>
          ds[i].key.ns == ns && Free(s, ds[i].key) && ValidateSpec(ds[i].spec).Allowed?)
    && (forall i, j :: 0 <= i < j < |ds| ==> ds[i].key != ds[j].key)
  }

  /** The drafts `ds` wait under the numbers from `first` on; later numbers are not taken. */
  ghost predicate Drafted(w: World, ds: seq<Draft>, first: nat) {
    && (forall id :: first <= id < first + |ds| ==> id in w.drafts && w.drafts[id] == ds[id - first])
    && (forall id :: first + |ds| <= id ==> id !in w.drafts)
  }

  /** A run from `w` within the limits has come to a world where `waiting` wait for their
      commit and `rest` for their admission; the creates it committed are the active tasks
      beyond four. */
  ghost predicate Stage(w: World, run: seq<Action>, ns: string, k: nat, j: nat,
                  first: nat, waiting: seq<Draft>, rest: seq<Draft>) {
    var v := Exec(w, run);
    && AtMostWaiting(w, run, ns, k) && ListsWithin(w, run, ns, j) && |Active(w, ns)| == 4
    && |Waiting(v, ns)| == |waiting| && Drafted(v, waiting, first) && Admittable(v.store, waiting + rest, ns)
    && |Active(v, ns)| == 4 + Created(w, run, ns)
  }

  lemma {:induction false} CreatedLast(w: World, run: seq<Action>, a: Action, ns: string)
    ensures var v := Exec(w, run);
            Created(w, run + [a], ns) ==
            Created(w, run, ns) + if a.Commit? && a.id in Waiting(v, ns) && Enabled(v, a) then 1 else 0
    decreases |run|
  {
    hide Step, Enabled, Waiting;
    if run == [] {
      assert ([] + [a])[1..] == [];
      assert Created(Step(w, a), [], ns) == 0;
    } else {
      assert (run + [a])[1..] == run[1..] + [a];
      CreatedLast(Step(w, run[0]), run[1..], a, ns);
    }
  }

  lemma WaitingNext(w: World, run: seq<Action>, a: Action, ns: string, k: nat)
    requires AtMostWaiting(w, run, ns, k) && |Waiting(Exec(w, run + [a]), ns)| <= k
    ensures AtMostWaiting(w, run + [a], ns, k)
  {
    hide Exec, Waiting;
    assert (run + [a])[..|run| + 1] == run + [a];
    assert forall n :: 0 <= n <= |run| ==> (run + [a])[..n] == run[..n];
  }

  /** One more step; if it is an admission, its list is the one at the beginning. */
  lemma ListsNext(w: World, run: seq<Action>, a: Action, ns: string, j: nat)
    requires ListsWithin(w, run, ns, j)
    requires a.Admit? ==> a.counted == |Active(w, ns)| && Created(w, run, ns) <= j
    ensures ListsWithin(w, run + [a], ns, j)
  {
    hide Exec, Active, Created;
    var longer := run + [a];
    forall n | 0 <= n < |longer| && longer[n].Admit? && longer[n].draft.key.ns == ns
      ensures exists m :: 0 <= m <= n && ListedAt(w, longer, ns, n, m, longer[n].counted, j)
    {
      if n < |run| {
        var m :| 0 <= m <= n && ListedAt(w, run, ns, n, m, run[n].counted, j);
        assert longer[..m] == run[..m] && longer[m..n] == run[m..n];
        assert ListedAt(w, longer, ns, n, m, longer[n].counted, j);
      } else {
        ExecNothing(w);
        assert longer[..0] == [] && longer[0..n] == run;
        assert ListedAt(w, longer, ns, n, 0, longer[n].counted, j);
      }
    }
  }

  lemma AdmitDrafts(w: World, id: nat, d: Draft, counted: nat)
    requires id !in w.drafts && ValidateSpec(d.spec).Allowed? && counted <= 4
    ensures Step(w, Admit(id, d, counted)) == w.(drafts := w.drafts[id := d])
  {
  }

  lemma CommitAdds(w: World, id: nat)
    requires id in w.drafts && Free(w.store, w.drafts[id].key)
    ensures Enabled(w, Commit(id))
    ensures var w', k := Step(w, Commit(id)), w.drafts[id].key;
            && Active(w', k.ns) == Active(w, k.ns) + {k} && k !in Active(w, k.ns)
            && w'.drafts == w.drafts - {id}
            && (forall i :: Free(w.store, i) && i != k ==> Free(w'.store, i))
  {
    hide PodKey, SandboxKey, CodeKey, PolicyKey;
  }

  lemma AdmitNext(w: World, run: seq<Action>, ns: string, k: nat, j: nat,
                  first: nat, waiting: seq<Draft>, rest: seq<Draft>)
    requires Stage(w, run, ns, k, j, first, waiting, rest) && rest != [] && |waiting| < k && Created(w, run, ns) <= j
    ensures Stage(w, run + [Admit(first + |waiting|, rest[0], 4)], ns, k, j, first, waiting + [rest[0]], rest[1..])
    ensures Created(w, run + [Admit(first + |waiting|, rest[0], 4)], ns) == Created(w, run, ns)
  {
    var v, a := Exec(w, run), Admit(first + |waiting|, rest[0], 4);
    assert (waiting + [rest[0]]) + rest[1..] == waiting + rest;
    hide Exec, Step, Active, Waiting, Created, AtMostWaiting, ListsWithin, Admittable, Drafted;
    ExecLast(w, run, a);
    AdmitDraftsNext(v, ns, first, waiting, rest);
    SameActive(v, Step(v, a), ns);
    CreatedLast(w, run, a, ns);
    WaitingNext(w, run, a, ns, k);
    ListsNext(w, run, a, ns, j);
  }

  lemma AdmitDraftsNext(v: World, ns: string, first: nat, waiting: seq<Draft>, rest: seq<Draft>)
    requires Drafted(v, waiting, first) && Admittable(v.store, waiting + rest, ns) && rest != []
    ensures var v' := Step(v, Admit(first + |waiting|, rest[0], 4));
            v'.store == v.store && Drafted(v', waiting + [rest[0]], first) && |Waiting(v', ns)| == |Waiting(v, ns)| + 1
  {
    var a := Admit(first + |waiting|, rest[0], 4);
    assert rest[0] == (waiting + rest)[|waiting|];
    hide Step, Waiting, Free, ValidateSpec, Enabled;
    AdmitDrafts(v, first + |waiting|, rest[0], 4);
    AdmitIsEnabled(v, a);
    WaitingAfter(v, a, ns);
  }

  lemma AdmitIsEnabled(w: World, a: Action)
    requires a.Admit? && a.id !in w.drafts && ValidateSpec(a.draft.spec).Allowed? && a.counted <= 4
    ensures Enabled(w, a)
  {
  }

  lemma CommitNext(w: World, run: seq<Action>, ns: string, k: nat, j: nat,
                  first: nat, waiting: seq<Draft>, rest: seq<Draft>)
    requires Stage(w, run, ns, k, j, first, waiting, rest) && waiting != []
    ensures Stage(w, run + [Commit(first)], ns, k, j, first + 1, waiting[1..], rest)
    ensures Created(w, run + [Commit(first)], ns) == Created(w, run, ns) + 1
  {
    var v, a := Exec(w, run), Commit(first);
    assert v.drafts[first] == (waiting + rest)[0] == waiting[0];
    assert v.drafts[first].key.ns == ns && first in Waiting(v, ns);
    ExecLast(w, run, a);
    assert |Waiting(v, ns)| <= k by { assert run[..|run|] == run; }
    CommitAdds(v, first);
    LaterDrafted(v, Step(v, a), waiting, rest, ns, first);
    hide Exec, Step, Active, Waiting, Created, AtMostWaiting, ListsWithin, Free, Admittable, Drafted, Enabled;
    WaitingAfter(v, a, ns);
    CreatedLast(w, run, a, ns);
    WaitingNext(w, run, a, ns, k);
    ListsNext(w, run, a, ns, j);
  }

  lemma LaterDrafted(w: World, w1: World, waiting: seq<Draft>, rest: seq<Draft>, ns: string, first: nat)
    requires waiting != [] && Admittable(w.store, waiting + rest, ns) && Drafted(w, waiting, first)
    requires w1.drafts == w.drafts - {first}
    requires forall i :: Free(w.store, i) && i != waiting[0].key ==> Free(w1.store, i)
    ensures Admittable(w1.store, waiting[1..] + rest, ns) && Drafted(w1, waiting[1..], first + 1)
  {
    hide Free, ValidateSpec;
    var ds := waiting + rest;
    assert ds[0] == waiting[0];
    assert waiting[1..] + rest == ds[1..];
    assert forall i :: 0 <= i < |ds[1..]| ==> ds[1..][i] == ds[i + 1];
  }

  /** One create after the other, each on the list of the beginning. */
  lemma {:induction false} Serial(w: World, run: seq<Action>, ns: string, k: nat, j: nat, first: nat, rest: seq<Draft>, n: nat)
    returns (longer: seq<Action>)
    requires Stage(w, run, ns, k, j, first, [], rest) && k > 0 && n <= |rest| && Created(w, run, ns) + n <= j
    ensures Stage(w, longer, ns, k, j, first + n, [], rest[n..]) && Created(w, longer, ns) == Created(w, run, ns) + n
    decreases n
  {
    hide Stage, Created;
    longer := run;
    if n > 0 {
      AdmitNext(w, run, ns, k, j, first, [], rest);
      var admitted := run + [Admit(first, rest[0], 4)];
      assert [] + [rest[0]] == [rest[0]];
      CommitNext(w, admitted, ns, k, j, first, [rest[0]], rest[1..]);
      assert [rest[0]][1..] == [];
      longer := Serial(w, admitted + [Commit(first)], ns, k, j, first + 1, rest[1..], n - 1);
      assert rest[1..][n - 1..] == rest[n..];
    }
  }

  lemma {:induction false} AdmitRest(w: World, run: seq<Action>, ns: string, k: nat, j: nat,
                  first: nat, waiting: seq<Draft>, rest: seq<Draft>)
    returns (longer: seq<Action>)
    requires Stage(w, run, ns, k, j, first, waiting, rest) && |waiting| + |rest| <= k && Created(w, run, ns) <= j
    ensures Stage(w, longer, ns, k, j, first, waiting + rest, []) && Created(w, longer, ns) == Created(w, run, ns)
    decreases |rest|
  {
    hide Stage, Created;
    longer := run;
    if rest == [] {
      assert waiting + rest == waiting;
    } else {
      AdmitNext(w, run, ns, k, j, first, waiting, rest);
      longer := AdmitRest(w, run + [Admit(first + |waiting|, rest[0], 4)], ns, k, j, first, waiting + [rest[0]], rest[1..]);
      assert (waiting + [rest[0]]) + rest[1..] == waiting + rest;
    }
  }

  lemma {:induction false} CommitRest(w: World, run: seq<Action>, ns: string, k: nat, j: nat, first: nat, waiting: seq<Draft>)
    returns (longer: seq<Action>)
    requires Stage(w, run, ns, k, j, first, waiting, [])
    ensures Stage(w, longer, ns, k, j, first + |waiting|, [], []) && Created(w, longer, ns) == Created(w, run, ns) + |waiting|
    decreases |waiting|
  {
    hide Stage, Created;
    longer := run;
    if waiting != [] {
      CommitNext(w, run, ns, k, j, first, waiting, []);
      longer := CommitRest(w, run + [Commit(first)], ns, k, j, first + 1, waiting[1..]);
    }
  }

  /** The bound is sharp: from four active tasks and none waiting, j creates on a list that
      stays as it was, and then k that overlap between check and commit, are all admitted
      and make 4+k+j, past the configured maximum of five. */
  lemma OverlappingAdmissionsReachBound(w: World, ds: seq<Draft>, ns: string, first: nat, k: nat, j: nat)
    requires |Active(w, ns)| == 4 && Waiting(w, ns) == {} && Admittable(w.store, ds, ns)
    requires forall id :: first <= id ==> id !in w.drafts
    requires k > 0 && |ds| == k + j
    ensures exists run :: AtMostWaiting(w, run, ns, k) && ListsWithin(w, run, ns, j)
                          && |Active(Exec(w, run), ns)| == 4 + k + j
  {
    StageAtStart(w, ds, ns, first, k, j);
    NothingCreated(w, ns);
    hide Active, Waiting, Admittable, Exec, Stage, Created, AtMostWaiting, ListsWithin;
    var run := SerialThenOverlapping(w, ds, ns, first, k, j);
  }

  lemma SerialThenOverlapping(w: World, ds: seq<Draft>, ns: string, first: nat, k: nat, j: nat) returns (run: seq<Action>)
    requires Stage(w, [], ns, k, j, first, [], ds) && Created(w, [], ns) == 0 && k > 0 && |ds| == k + j
    ensures AtMostWaiting(w, run, ns, k) && ListsWithin(w, run, ns, j)
    ensures |Active(Exec(w, run), ns)| == 4 + k + j
  {
    hide *;
    var rest := ds[j..];
    run := Serial(w, [], ns, k, j, first, ds, j);
    run := AdmitRest(w, run, ns, k, j, first + j, [], rest);
    assert [] + rest == rest;
    run := CommitRest(w, run, ns, k, j, first + j, rest);
    StageActive(w, run, ns, k, j, first + j + k);
  }

  lemma StageAtStart(w: World, ds: seq<Draft>, ns: string, first: nat, k: nat, j: nat)
    requires |Active(w, ns)| == 4 && Waiting(w, ns) == {} && Admittable(w.store, ds, ns)
    requires forall id :: first <= id ==> id !in w.drafts
    ensures Stage(w, [], ns, k, j, first, [], ds)
  {
    ExecNothing(w);
    assert [] + ds == ds;
    hide Exec, Active, Waiting, Admittable;
    var run: seq<Action> := [];
    assert forall n :: 0 <= n <= |run| ==> run[..n] == [];
  }

  lemma NothingCreated(w: World, ns: string)
    ensures Created(w, [], ns) == 0
  {
    hide Step, Waiting, Enabled;
  }

  lemma StageActive(w: World, run: seq<Action>, ns: string, k: nat, j: nat, first: nat)
    requires Stage(w, run, ns, k, j, first, [], [])
    ensures AtMostWaiting(w, run, ns, k) && ListsWithin(w, run, ns, j)
    ensures |Active(Exec(w, run), ns)| == 4 + Created(w, run, ns)
  {
    hide Exec, Active, Waiting, Created, Admittable, Drafted;
  }

  lemma SameActive(w: World, w': World, ns: string)
    requires w'.store == w.store
    ensures Active(w', ns) == Active(w, ns)
  {
  }

  // ---- Webhook and controller never block each other --------------------------------------

  /** Behind the webhook every stored spec stays valid, and no profile is ever left
      unresolved. */
  lemma SpecsStayValid(w0: World, run: seq<Action>, k: Key)
    requires Initial(w0) && w0.store.guarded
    requires k in Exec(w0, run).store.tasks
    ensures var t := Exec(w0, run).store.tasks[k];
            ValidateSpec(t.spec).Allowed? && !t.status.reason.ProfileResolutionFailed?
  {
    hide Exec, ValidateSpec;
    var w := Exec(w0, run);
    InitialBase(w0);
    RunKeepsGuard(w0, run);
    RunKeepsBase(w0, run);
    assert Sound(w.store.guarded, w.store.tasks[k], w.clock);
  }

  /** Webhook and controller never block each other: no request of the controller is ever
      denied, however it is served. */
  lemma NeverBlocked(w0: World, run: seq<Action>, k: Key, fault: Fault, view: View)
    requires Initial(w0)
    requires k in Exec(w0, run).jobs && !Exec(w0, run).jobs[k].Done?
    ensures var w := Exec(w0, run);
            !Serve(w.store, RequestOf(k, w.jobs[k]), fault, view).reply.Denied?
  {
    hide Exec, Respond, RequestOf;
    var w := Exec(w0, run);
    AlwaysBase(w0, run);
    RespondOk(w.store, k, w.jobs[k], w.clock);
    StaleIsNotDenied(w.store, RequestOf(k, w.jobs[k]), view);
  }

  lemma StaleIsNotDenied(s: Store, q: Request, view: View)
    ensures view.Stale? && StaleReply(s, q, view.reply) ==> !view.reply.Denied?
  {
  }
}
