/** The validating admission webhook: spec limits, immutable fields and the
    per-namespace cap on active tasks. */
module Webhook {
  import opened Names
  import opened Objects

  datatype Refusal =
    | InvalidProfile
    | TimeoutNotPositive
    | TimeoutTooLong
    | ProfileImmutable
    | SourceImmutable
    | TooManyActive
    | ListFailed

  datatype Admission = Allowed | Refused(why: Refusal)

  const MaxActiveTasks := 5

  function ValidateSpec(s: Spec): Admission {
    if s.runtimeProfile != "python3.10" && s.runtimeProfile != "python3.11" then Refused(InvalidProfile)
    else if s.timeoutSeconds <= 0 then Refused(TimeoutNotPositive)
    else if s.timeoutSeconds > 3600 then Refused(TimeoutTooLong)
    else Allowed
  }

  function ValidateUpdate(old_: Spec, new_: Spec): Admission {
    if new_.runtimeProfile != old_.runtimeProfile then Refused(ProfileImmutable)
    else if new_.source != old_.source then Refused(SourceImmutable)
    else ValidateSpec(new_)
  }

  /** The keys of the tasks of a namespace that are not in a terminal phase. */
  function ActiveIn(tasks: map<Key, Task>, ns: string): set<Key> {
    set k | k in tasks && k.ns == ns && !Terminal(tasks[k].status.phase)
  }

  function ActiveKeys(items: seq<Task>): set<Key> {
    set i | 0 <= i < |items| && !Terminal(items[i].status.phase) :: items[i].key
  }

  /** The list call returns every task of the namespace once, in some order. */
  ghost predicate Lists(items: seq<Task>, tasks: map<Key, Task>, ns: string) {
    && (forall i :: 0 <= i < |items| ==> items[i].key in tasks && items[i].key.ns == ns
                                         && tasks[items[i].key] == items[i])
    && (forall k :: k in tasks && k.ns == ns ==> tasks[k] in items)
    && (forall i, j :: 0 <= i < j < |items| ==> items[i].key != items[j].key)
  }

  lemma ListedActive(items: seq<Task>, tasks: map<Key, Task>, ns: string)
    requires Lists(items, tasks, ns)
    requires forall k :: k in tasks ==> tasks[k].key == k
    ensures ActiveKeys(items) == ActiveIn(tasks, ns)
    ensures forall k :: k in ActiveIn(tasks, ns) <==>
              k in tasks && k.ns == ns && tasks[k].status.phase in {NoPhase, Pending, Scheduled, Running}
  {
    forall k | k in ActiveIn(tasks, ns)
      ensures k in ActiveKeys(items)
    {
      var i :| 0 <= i < |items| && items[i] == tasks[k];
    }
  }

  lemma CountNext(items: seq<Task>, i: nat)
    requires i < |items| && forall j :: 0 <= j < i ==> items[j].key != items[i].key
    ensures |ActiveKeys(items[..i + 1])| ==
            |ActiveKeys(items[..i])| + if Terminal(items[i].status.phase) then 0 else 1
  {
    var before, grown := items[..i], items[..i + 1];
    assert forall j :: 0 <= j < i ==> grown[j] == before[j];
    if Terminal(items[i].status.phase) {
      assert ActiveKeys(grown) == ActiveKeys(before);
    } else {
      assert ActiveKeys(grown) == ActiveKeys(before) + {items[i].key};
    }
  }

  /** Admission of a new task. `listing` is None when the list call failed. */
  method ValidateCreate(s: Spec, listing: Option<seq<Task>>) returns (a: Admission)
    requires listing.Some? ==>
               forall i, j :: 0 <= i < j < |listing.value| ==> listing.value[i].key != listing.value[j].key
    ensures var known := s.runtimeProfile in {"python3.10", "python3.11"};
            && (a == Refused(InvalidProfile) <==> !known)
            && (a == Refused(TimeoutNotPositive) <==> known && s.timeoutSeconds <= 0)
            && (a == Refused(TimeoutTooLong) <==> known && s.timeoutSeconds > 3600)
            && (a == Refused(ListFailed) <==> known && 0 < s.timeoutSeconds <= 3600 && listing.None?)
            && (a == Refused(TooManyActive) <==>
                  known && 0 < s.timeoutSeconds <= 3600 && listing.Some? && |ActiveKeys(listing.value)| >= 5)
            && (a.Allowed? <==>
                  known && 0 < s.timeoutSeconds <= 3600 && listing.Some? && |ActiveKeys(listing.value)| < 5)
  {
    a := ValidateSpec(s);
    if a.Refused? {
      return;
    }
    if listing.None? {
      return Refused(ListFailed);
    }
    var items := listing.value;
    var activeCount := 0;
    for i := 0 to |items|
      invariant activeCount == |ActiveKeys(items[..i])|
    {
      CountNext(items, i);
      if !Terminal(items[i].status.phase) {
        activeCount := activeCount + 1;
      }
    }
    assert items[..|items|] == items;
    if activeCount >= MaxActiveTasks {
      return Refused(TooManyActive);
    }
  }
}
