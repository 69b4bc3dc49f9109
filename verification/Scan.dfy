/** Reading the outcome of a pod off its container statuses. */
module Scan {
  import opened Objects

  const TaskContainer := "task"

  predicate PullFailing(c: ContainerStatus) {
    c.waiting.Some? && (c.waiting.value == "ImagePullBackOff" || c.waiting.value == "ErrImagePull")
  }

  predicate TaskEnded(c: ContainerStatus) {
    c.name == TaskContainer && c.terminated.Some?
  }

  predicate AnyPullFailing(cs: seq<ContainerStatus>) {
    exists c :: c in cs && PullFailing(c)
  }

  /** The first terminated container called "task". */
  function TaskEnd(cs: seq<ContainerStatus>): Option<Termination> {
    if cs == [] then None
    else if TaskEnded(cs[0]) then cs[0].terminated
    else TaskEnd(cs[1..])
  }

  /** The status written when the pod failed. */
  function FailureStatus(s: Status, cs: seq<ContainerStatus>, now: nat): Status {
    var s' := s.(phase := Failed, completionTime := Some(Stamp(now)));
    match TaskEnd(cs)
    case Some(end) => s'.(exitCode := end.exitCode, reason := Reported(end.reason))
    case None => s'.(reason := if AnyPullFailing(cs) then ImagePullFailed else PodFailedReason)
  }

  /** The status written when the pod succeeded. */
  function SuccessStatus(s: Status, cs: seq<ContainerStatus>, now: nat): Status {
    var s' := s.(phase := Succeeded, completionTime := Some(Stamp(now)));
    match TaskEnd(cs)
    case Some(end) => s'.(exitCode := end.exitCode, result := if end.message != "" then Some(end.message) else s.result)
    case None => s'
  }

  datatype Verdict = Undecided | Success | Failure

  /** What the pod says about the task while the task is recorded as Running. */
  function RunningVerdict(p: Pod): Verdict {
    match p.phase
    case PodRunning =>
      (match TaskEnd(p.containers)
       case None => Undecided
       case Some(end) => if end.exitCode == 0 then Success else Failure)
    case PodSucceeded => Success
    case PodFailed => Failure
    case PodPending => Undecided
    case PodUnknown => Undecided
  }

  predicate UniqueNames(cs: seq<ContainerStatus>) {
    forall i, j :: 0 <= i < j < |cs| ==> cs[i].name != cs[j].name
  }

  lemma {:induction false} TaskEndOrigin(cs: seq<ContainerStatus>)
    ensures TaskEnd(cs).Some? ==> exists c :: c in cs && TaskEnded(c) && TaskEnd(cs) == c.terminated
    ensures TaskEnd(cs).None? ==> forall c :: c in cs ==> !TaskEnded(c)
  {
    if cs != [] {
      assert cs[0] in cs;
      if !TaskEnded(cs[0]) {
        TaskEndOrigin(cs[1..]);
        assert forall c :: c in cs[1..] ==> c in cs;
        assert forall c :: c in cs ==> c == cs[0] || c in cs[1..];
      }
    }
  }

  lemma {:induction false} OnlyTaskEnd(cs: seq<ContainerStatus>, c: ContainerStatus)
    requires UniqueNames(cs) && c in cs && TaskEnded(c)
    ensures TaskEnd(cs) == c.terminated
  {
    TaskEndOrigin(cs);
  }

  /** What is recorded when the task container has ended: its exit code, its message as the
      result of a success, its reason as the reason of a failure. */
  lemma RecordsTheTaskContainer(s: Status, cs: seq<ContainerStatus>, c: ContainerStatus, now: nat)
    requires UniqueNames(cs) && c in cs && c.name == "task" && c.terminated.Some?
    ensures var r := SuccessStatus(s, cs, now);
            && r.phase.Succeeded? && r.exitCode == c.terminated.value.exitCode
            && r.result == if c.terminated.value.message == "" then s.result else Some(c.terminated.value.message)
    ensures var r := FailureStatus(s, cs, now);
            && r.phase.Failed? && r.exitCode == c.terminated.value.exitCode
            && r.reason == Reported(c.terminated.value.reason) && r.result == s.result
  {
    OnlyTaskEnd(cs, c);
  }

  /** What is recorded when it has not: a pull failure if and only if some container shows one. */
  lemma RecordsNoTaskContainer(s: Status, cs: seq<ContainerStatus>, now: nat)
    requires forall c :: c in cs ==> c.name != "task" || c.terminated.None?
    ensures var r := SuccessStatus(s, cs, now); r.exitCode == s.exitCode && r.result == s.result
    ensures var r := FailureStatus(s, cs, now);
            && r.exitCode == s.exitCode
            && (r.reason.ImagePullFailed? <==>
                  exists c :: c in cs && c.waiting in {Some("ImagePullBackOff"), Some("ErrImagePull")})
            && (r.reason.PodFailedReason? <==>
                  forall c :: c in cs ==> c.waiting !in {Some("ImagePullBackOff"), Some("ErrImagePull")})
  {
    TaskEndOrigin(cs);
    assert forall c :: c in cs ==> (PullFailing(c) <==> c.waiting in {Some("ImagePullBackOff"), Some("ErrImagePull")});
  }

  /** With unique container names the scan finds the same termination, and the
      same pull failure, in every order of the container statuses. */
  lemma ScanIgnoresOrder(a: seq<ContainerStatus>, b: seq<ContainerStatus>)
    requires UniqueNames(a)
    requires multiset(a) == multiset(b)
    ensures TaskEnd(a) == TaskEnd(b)
    ensures AnyPullFailing(a) == AnyPullFailing(b)
  {
    assert forall c :: c in a <==> c in multiset(a);
    assert forall c :: c in b <==> c in multiset(b);
    TaskEndOrigin(a);
    TaskEndOrigin(b);
  }

  /** Exit code, result and reason recorded for a finished pod, and the verdict on a
      running one, do not depend on the order of the container statuses. */
  lemma OutcomeIgnoresOrder(s: Status, p: Pod, cs: seq<ContainerStatus>, now: nat)
    requires UniqueNames(p.containers)
    requires multiset(p.containers) == multiset(cs)
    ensures FailureStatus(s, p.containers, now) == FailureStatus(s, cs, now)
    ensures SuccessStatus(s, p.containers, now) == SuccessStatus(s, cs, now)
    ensures RunningVerdict(p) == RunningVerdict(p.(containers := cs))
  {
    ScanIgnoresOrder(p.containers, cs);
  }

  /** The verdict on a running task: its pod succeeded, or runs on while the task container
      ended with exit code 0; it failed, or the task container ended with another one. */
  lemma VerdictExactly(p: Pod)
    requires UniqueNames(p.containers)
    ensures RunningVerdict(p).Success? <==>
              || p.phase.PodSucceeded?
              || (&& p.phase.PodRunning?
                  && exists c :: c in p.containers && c.name == "task" && c.terminated.Some? && c.terminated.value.exitCode == 0)
    ensures RunningVerdict(p).Failure? <==>
              || p.phase.PodFailed?
              || (&& p.phase.PodRunning?
                  && exists c :: c in p.containers && c.name == "task" && c.terminated.Some? && c.terminated.value.exitCode != 0)
  {
    TaskEndOrigin(p.containers);
    forall c | c in p.containers && TaskEnded(c)
      ensures TaskEnd(p.containers) == c.terminated
    {
      OnlyTaskEnd(p.containers, c);
    }
  }

  /** The loop that decides and the loop that records agree: decided from a pod that
      is still running, a success records exit code 0 and a failure another one. */
  lemma VerdictMatchesExitCode(s: Status, p: Pod, now: nat)
    requires p.phase.PodRunning?
    ensures RunningVerdict(p).Success? ==> SuccessStatus(s, p.containers, now).exitCode == 0
    ensures RunningVerdict(p).Failure? ==> FailureStatus(s, p.containers, now).exitCode != 0
    ensures RunningVerdict(p).Undecided? <==> forall c :: c in p.containers ==> !TaskEnded(c)
  {
    TaskEndOrigin(p.containers);
  }
}
