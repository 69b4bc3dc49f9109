/** The reconciler, method by method. Each method is proved to follow the
    automaton of module Protocol, request by request, so that one call of
    Reconcile ends in exactly the world that `Drive` computes. */
module Reconciler {
  import opened Names
  import opened Objects
  import opened Scan
  import opened Protocol
  import opened Cluster
  import opened Client
  import opened SandboxManager

  /** 64-bit two's complement wrap-around of Go's time.Duration. */
  function Wrap64(x: int): int {
    (x + 0x8000_0000_0000_0000) % 0x1_0000_0000_0000_0000 - 0x8000_0000_0000_0000
  }

  /** No int32 number of seconds overflows a Duration, buffer included. */
  lemma DurationsFit(seconds: int32)
    ensures Wrap64(Nanos(seconds)) == Nanos(seconds)
    ensures Wrap64(Wrap64(Nanos(seconds)) + Nanos(2)) == Nanos(seconds + 2)
  {
    assert -0x8000_0000_0000_0000 <= Nanos(seconds) < 0x7000_0000_0000_0000;
  }

  class AgentTaskReconciler {
    const client: ApiClient

    constructor (client: ApiClient)
      ensures this.client == client
    {
      this.client := client;
    }

    /** One reconcile of the task `client.me`. */
    method Reconcile() returns (result: Result)
      requires client.OnTrack() && client.job == Fetch
      modifies client
      ensures client.OnTrack() && client.goal == old(client.goal)
      ensures client.job == Done(result)
    {
      hide Drive, ApiClient.OnTrack;
      var r := client.Send(GetTask(client.me));
      if !r.TaskReply? {
        return if r.NotFound? then Settled else Error;
      }
      var task := new TaskObject(r.task);

      if !task.deleting {
        if !task.finalizer {
          task.finalizer := true;
          r := client.Send(PutTask(task.key, task.version, task.spec, task.finalizer));
          return if r.Ok? then Settled else Error;
        }
      } else {
        if task.finalizer {
          var err := FinalizeAgentTask(task);
          if err {
            return Error;
          }
          task.finalizer := false;
          r := client.Send(PutTask(task.key, task.version, task.spec, task.finalizer));
          if !r.Ok? {
            return Error;
          }
        }
        return Settled;
      }

      if task.status.phase.NoPhase? {
        task.status := task.status.(phase := Pending);
        var now := client.Now();
        task.status := task.status.(startTime := Some(Stamp(now)));
        r := client.Send(PutStatus(task.key, task.version, task.status));
        return if r.Ok? then Requeue else Error;
      }

      if task.spec.canceled {
        if task.status.phase.Succeeded? || task.status.phase.Failed? || task.status.phase.Canceled? {
          return Settled;
        }
        result := ReconcileCanceled(task);
        return;
      }

      var timeout := CheckTimeout(task);
      if timeout {
        result := ReconcileTimeout(task);
        return;
      }

      result := ReconcilePhase(task);
    }

    /** The switch on the phase, past the cancellation and timeout checks. */
    method ReconcilePhase(task: TaskObject) returns (result: Result)
      requires client.OnTrack() && !task.status.phase.NoPhase?
      requires client.job == StartPhase(task.Value(), client.world.clock)
      modifies client, task
      ensures client.OnTrack() && client.goal == old(client.goal)
      ensures client.job == Done(result)
    {
      hide Drive, ApiClient.OnTrack;
      if task.status.phase.Pending? {
        var err := ReconcilePending(task);
        return if err then Error else Requeue;
      } else if task.status.phase.Scheduled? {
        var err := ReconcileScheduled(task);
        return if err then Error else Settled;
      } else if task.status.phase.Running? {
        var err := ReconcileRunning(task);
        return if err then Error else Settled;
      } else if task.spec.ttl.Some? {
        var ttl := Wrap64(task.spec.ttl.value * 1_000_000_000);
        DurationsFit(task.spec.ttl.value);
        if task.status.completionTime.Some? {
          var expiration := Nanos(task.status.completionTime.value) + ttl;
          var now := client.Now();
          if now > expiration {
            var r := client.Send(DeleteTask(task.key));
            return if r.Ok? || r.NotFound? then Settled else Error;
          }
          return RequeueAfter(expiration - now);
        }
      }
      return Settled;
    }

    // ---- Dispatch -------------------------------------------------------------

    method ReconcilePending(task: TaskObject) returns (err: bool)
      requires client.OnTrack() && client.job == Work(task.Value(), StartDispatch(task.Value()))
      modifies client, task
      ensures client.OnTrack() && client.goal == old(client.goal)
      ensures client.job == Done(if err then Error else Requeue)
    {
      hide Drive, ApiClient.OnTrack;
      var codeMap;
      codeMap, err := EnsureCodeConfigMap(task);
      if err {
        return;
      }
      err := EnsureNetworkPolicy(task, codeMap);
      if err {
        return;
      }
      var r := client.Send(GetSandboxCrd);
      var backend := SelectBackend(task.spec.backend, r.Ok?);
      if backend.None? {
        err := UpdatePhaseFailure(task, BackendSelectionFailed);
        return;
      }
      r := client.Send(GetMap(ProfilesKey(task.key.ns)));
      var image := ResolveImage(task.spec.runtimeProfile, backend.value, if r.MapReply? then Some(r.data) else None);
      if image.None? {
        err := UpdatePhaseFailure(task, ProfileResolutionFailed);
        return;
      }
      err := Dispatch(task, codeMap, backend.value, image.value);
    }

    /** The dispatch to the chosen backend and the status update after it. */
    method Dispatch(task: TaskObject, codeMap: string, backend: Backend, image: string) returns (err: bool)
      requires client.OnTrack()
      requires client.job == Work(task.Value(), if backend.SandboxBackend?
                                 then LookSandbox(image) else LookPod(codeMap, image))
      modifies client, task
      ensures client.OnTrack() && client.goal == old(client.goal)
      ensures client.job == Done(if err then Error else Requeue)
    {
      hide Drive, ApiClient.OnTrack;
      if backend.SandboxBackend? {
        var manager := new Manager(client);
        var ref;
        ref, err := manager.EnsureSandbox(task, image);
        if err {
          return;
        }
        task.status := task.status.(podRef := ref);
      } else {
        err := EnsurePod(task, codeMap, image);
        if err {
          return;
        }
      }
      task.status := task.status.(phase := Scheduled);
      var r := client.Send(PutStatus(task.key, task.version, task.status));
      err := !r.Ok?;
    }

    method EnsureCodeConfigMap(task: TaskObject) returns (codeMap: string, err: bool)
      requires client.OnTrack() && client.job == Work(task.Value(), StartDispatch(task.Value()))
      modifies client
      ensures client.OnTrack() && client.goal == old(client.goal)
      ensures client.job == (if err then Done(Error) else Work(task.Value(), LookPolicy(codeMap)))
    {
      hide Drive, ApiClient.OnTrack;
      if task.spec.configMapRef.Some? {
        return task.spec.configMapRef.value, false;
      }
      if task.spec.source != "" {
        codeMap := task.key.name + "-code";
        var key := Key(task.key.ns, codeMap);
        var r := client.Send(GetMap(key));
        if r.NotFound? {
          var cm := ConfigMap(Some(task.key), map["entrypoint.py" := task.spec.source]);
          r := client.Send(CreateMap(key, cm));
          if !r.Ok? {
            return "", true;
          }
        } else if !r.MapReply? {
          return "", true;
        }
        return codeMap, false;
      }
      return "", false;
    }

    method EnsureNetworkPolicy(task: TaskObject, codeMap: string) returns (err: bool)
      requires client.OnTrack() && client.job == Work(task.Value(), LookPolicy(codeMap))
      modifies client
      ensures client.OnTrack() && client.goal == old(client.goal)
      ensures client.job == (if err then Done(Error) else Work(task.Value(), LookCrd(codeMap)))
    {
      hide Drive, ApiClient.OnTrack;
      var key := Key(task.key.ns, task.key.name + "-netpol");
      var r := client.Send(GetPolicy(key));
      if r.NotFound? {
        var selector := map[TaskLabel := task.key.name];
        var policy := NetworkPolicy(task.key, selector, {Ingress, Egress}, [], []);
        r := client.Send(CreatePolicy(key, policy));
      }
      err := !r.Ok?;
    }

    method EnsurePod(task: TaskObject, codeMap: string, image: string) returns (err: bool)
      requires client.OnTrack() && client.job == Work(task.Value(), LookPod(codeMap, image))
      modifies client, task
      ensures client.OnTrack() && client.goal == old(client.goal)
      ensures err ==> client.job == Done(Error)
      ensures var ref := Ref(PodKind, PodKey(task.key));
              !err ==> && task.Value() == old(task.Value()).(status := old(task.status).(podRef := ref))
                       && client.job == Work(old(task.Value()), PutScheduled(ScheduledStatus(old(task.status), ref)))
    {
      hide Drive, ApiClient.OnTrack;
      var key := Key(task.key.ns, task.key.name + "-pod");
      var r := client.Send(GetPod(key));
      if r.NotFound? {
        var labels := map[TaskLabel := task.key.name];
        if task.spec.tenant != "" {
          labels := labels[TenantLabel := task.spec.tenant];
        }
        var pod := Pod(task.key, labels, image, codeMap, PodPending, []);
        r := client.Send(CreatePod(key, pod));
        if !r.Ok? {
          return true;
        }
      } else if !r.PodReply? {
        return true;
      }
      task.status := task.status.(podRef := Ref(PodKind, key));
      err := false;
    }

    // ---- Watching the pod ---------------------------------------------------------

    method ReconcileScheduled(task: TaskObject) returns (err: bool)
      requires task.status.phase.Scheduled? && client.OnTrack()
      requires client.job == Work(task.Value(), if IsSandboxRef(task.status.podRef)
                                 then PutRunning(task.status.(phase := Running)) else LookScheduled)
      modifies client, task
      ensures client.OnTrack() && client.goal == old(client.goal)
      ensures client.job == Done(if err then Error else Settled)
    {
      hide Drive, ApiClient.OnTrack;
      var r;
      if IsSandboxRef(task.status.podRef) {
        task.status := task.status.(phase := Running);
        r := client.Send(PutStatus(task.key, task.version, task.status));
        return !r.Ok?;
      }
      r := client.Send(GetPod(RefKey(task.status.podRef)));
      if !r.PodReply? {
        if r.NotFound? {
          err := UpdatePhaseFailure(task, PodMissing);
          return;
        }
        return true;
      }
      var pod := r.pod;
      match pod.phase {
        case PodPending =>
          for i := 0 to |pod.containers|
            invariant forall j :: 0 <= j < i ==> !PullFailing(pod.containers[j])
            invariant task.status == old(task.status) && client.OnTrack() && client.goal == old(client.goal)
            invariant client.job == AfterScheduledPod(task.Value(), pod, client.world.clock)
          {
            if PullFailing(pod.containers[i]) {
              assert pod.containers[i] in pod.containers;
              err := UpdatePhaseFailure(task, ImagePullFailed);
              return;
            }
          }
          return false;
        case PodRunning =>
          task.status := task.status.(phase := Running);
          r := client.Send(PutStatus(task.key, task.version, task.status));
          return !r.Ok?;
        case PodSucceeded =>
          err := HandlePodSuccess(task, pod);
        case PodFailed =>
          err := HandlePodFailure(task, pod);
        case PodUnknown =>
          return false;
      }
    }

    method ReconcileRunning(task: TaskObject) returns (err: bool)
      requires task.status.phase.Running?
      requires client.OnTrack()
      requires client.job == if IsSandboxRef(task.status.podRef) then Done(Settled) else Work(task.Value(), LookRunning)
      modifies client, task
      ensures client.OnTrack() && client.goal == old(client.goal)
      ensures client.job == Done(if err then Error else Settled)
    {
      hide Drive, ApiClient.OnTrack;
      if IsSandboxRef(task.status.podRef) {
        return false;
      }
      var r := client.Send(GetPod(RefKey(task.status.podRef)));
      if !r.PodReply? {
        if r.NotFound? {
          err := UpdatePhaseFailure(task, PodMissing);
          return;
        }
        return true;
      }
      var pod := r.pod;
      match pod.phase {
        case PodRunning =>
          var cs := pod.containers;
          for i := 0 to |cs|
            invariant TaskEnd(cs) == TaskEnd(cs[i..])
            invariant task.status == old(task.status) && client.OnTrack() && client.goal == old(client.goal)
            invariant client.job == AfterRunningPod(task.Value(), pod, client.world.clock)
          {
            if cs[i].name == TaskContainer && cs[i].terminated.Some? {
              if cs[i].terminated.value.exitCode == 0 {
                err := HandlePodSuccess(task, pod);
              } else {
                err := HandlePodFailure(task, pod);
              }
              return;
            }
          }
          return false;
        case PodSucceeded =>
          err := HandlePodSuccess(task, pod);
        case PodFailed =>
          err := HandlePodFailure(task, pod);
        case _ =>
          return false;
      }
    }

    method HandlePodFailure(task: TaskObject, pod: Pod) returns (err: bool)
      requires client.OnTrack()
      requires client.job == Work(task.Value(), PutFinished(FailureStatus(task.status, pod.containers, client.world.clock)))
      modifies client, task
      ensures client.OnTrack() && client.goal == old(client.goal)
      ensures client.job == Done(if err then Error else Settled)
    {
      hide Drive, ApiClient.OnTrack;
      var now := client.Now();
      RecordFailure(task, pod.containers, now);
      var r := client.Send(PutStatus(task.key, task.version, task.status));
      if !r.Ok? {
        return true;
      }
      r := client.Send(DeletePod(RefKey(task.status.podRef)));
      err := !r.Ok? && !r.NotFound?;
    }

    /** The failure fields of the status, read off the container statuses. */
    method RecordFailure(task: TaskObject, cs: seq<ContainerStatus>, now: nat)
      modifies task
      ensures task.status == FailureStatus(old(task.status), cs, now)
      ensures task.finalizer == old(task.finalizer)
    {
      task.status := task.status.(phase := Failed);
      task.status := task.status.(completionTime := Some(Stamp(now)));
      task.status := task.status.(reason := PodFailedReason);
      ghost var s := old(task.status).(phase := Failed, completionTime := Some(Stamp(now)));
      for i := 0 to |cs|
        invariant TaskEnd(cs) == TaskEnd(cs[i..]) && task.finalizer == old(task.finalizer)
        invariant task.status == s.(reason := if AnyPullFailing(cs[..i]) then ImagePullFailed else PodFailedReason)
      {
        assert cs[..i + 1] == cs[..i] + [cs[i]];
        if PullFailing(cs[i]) {
          task.status := task.status.(reason := ImagePullFailed);
        }
        if cs[i].name == TaskContainer && cs[i].terminated.Some? {
          task.status := task.status.(exitCode := cs[i].terminated.value.exitCode);
          task.status := task.status.(reason := Reported(cs[i].terminated.value.reason));
          return;
        }
      }
      assert cs[..|cs|] == cs;
    }

    method HandlePodSuccess(task: TaskObject, pod: Pod) returns (err: bool)
      requires client.OnTrack()
      requires client.job == Work(task.Value(), PutFinished(SuccessStatus(task.status, pod.containers, client.world.clock)))
      modifies client, task
      ensures client.OnTrack() && client.goal == old(client.goal)
      ensures client.job == Done(if err then Error else Settled)
    {
      hide Drive, ApiClient.OnTrack;
      var now := client.Now();
      RecordSuccess(task, pod.containers, now);
      var r := client.Send(PutStatus(task.key, task.version, task.status));
      if !r.Ok? {
        return true;
      }
      r := client.Send(DeletePod(RefKey(task.status.podRef)));
      err := !r.Ok? && !r.NotFound?;
    }

    /** The success fields of the status, read off the container statuses. */
    method RecordSuccess(task: TaskObject, cs: seq<ContainerStatus>, now: nat)
      modifies task
      ensures task.status == SuccessStatus(old(task.status), cs, now)
      ensures task.finalizer == old(task.finalizer)
    {
      task.status := task.status.(phase := Succeeded);
      task.status := task.status.(completionTime := Some(Stamp(now)));
      for i := 0 to |cs|
        invariant TaskEnd(cs) == TaskEnd(cs[i..]) && task.finalizer == old(task.finalizer)
        invariant task.status == old(task.status).(phase := Succeeded, completionTime := Some(Stamp(now)))
      {
        if cs[i].name == TaskContainer && cs[i].terminated.Some? {
          if cs[i].terminated.value.message != "" {
            task.status := task.status.(result := Some(cs[i].terminated.value.message));
          }
          task.status := task.status.(exitCode := cs[i].terminated.value.exitCode);
          return;
        }
      }
    }

    /** The status of a task that fails for a reason other than its pod's outcome. */
    method UpdatePhaseFailure(task: TaskObject, why: Reason) returns (err: bool)
      requires client.OnTrack() && client.job.Work? && client.job.seen == task.Value()
      requires var s := FailedStatus(task.status, why, client.world.clock);
               client.job.pc == PutRejected(s) || client.job.pc == PutFailed(s)
      modifies client, task
      ensures client.OnTrack() && client.goal == old(client.goal)
      ensures client.job == Done(if err then Error else if old(client.job.pc).PutRejected? then Requeue else Settled)
    {
      hide Drive, ApiClient.OnTrack;
      task.status := task.status.(phase := Failed);
      task.status := task.status.(reason := why);
      var now := client.Now();
      task.status := task.status.(completionTime := Some(Stamp(now)));
      var r := client.Send(PutStatus(task.key, task.version, task.status));
      err := !r.Ok?;
    }

    // ---- Cancellation, timeout, deletion --------------------------------------------

    method ReconcileCanceled(task: TaskObject) returns (result: Result)
      requires client.OnTrack() && client.job == Work(task.Value(), if task.status.podRef.Ref? then CancelLook
                                 else PutCanceled(CanceledStatus(task.status, client.world.clock)))
      modifies client, task
      ensures client.OnTrack() && client.goal == old(client.goal)
      ensures client.job == Done(result)
    {
      hide Drive, ApiClient.OnTrack;
      if task.status.podRef.Ref? {
        var r := client.Send(GetPod(RefKey(task.status.podRef)));
        if r.PodReply? {
          r := client.Send(DeletePod(RefKey(task.status.podRef)));
          if !r.Ok? && !r.NotFound? {
            return Error;
          }
        } else if !r.NotFound? {
          return Error;
        }
      }
      result := CommitCanceled(task);
    }

    /** The status of a canceled task, once its pod is dealt with. */
    method CommitCanceled(task: TaskObject) returns (result: Result)
      requires client.OnTrack()
      requires client.job == Work(task.Value(), PutCanceled(CanceledStatus(task.status, client.world.clock)))
      modifies client, task
      ensures client.OnTrack() && client.goal == old(client.goal)
      ensures client.job == Done(result)
    {
      hide Drive, ApiClient.OnTrack;
      task.status := task.status.(phase := Canceled);
      var now := client.Now();
      task.status := task.status.(completionTime := Some(Stamp(now)));
      task.status := task.status.(reason := CanceledReason);
      var r := client.Send(PutStatus(task.key, task.version, task.status));
      result := if r.Ok? then Settled else Error;
    }

    /** Whether the task is past its deadline, in 64-bit nanoseconds. */
    method CheckTimeout(task: TaskObject) returns (timeout: bool)
      ensures timeout == TimedOut(task.Value(), client.world.clock)
    {
      hide Drive, ApiClient.OnTrack;
      if task.spec.timeoutSeconds <= 0 {
        return false;
      }
      if task.status.startTime.None? {
        return false;
      }
      var duration := Wrap64(Wrap64(task.spec.timeoutSeconds * 1_000_000_000) + 2 * 1_000_000_000);
      DurationsFit(task.spec.timeoutSeconds);
      var deadline := Nanos(task.status.startTime.value) + duration;
      var now := client.Now();
      timeout := now > deadline;
    }

    method ReconcileTimeout(task: TaskObject) returns (result: Result)
      requires client.OnTrack() && client.job == Work(task.Value(), if task.status.podRef.Ref? then TimeoutLook
                                 else PutTimeout(TimeoutStatus(task.status, client.world.clock)))
      modifies client, task
      ensures client.OnTrack() && client.goal == old(client.goal)
      ensures client.job == Done(result)
    {
      hide Drive, ApiClient.OnTrack;
      if task.status.podRef.Ref? {
        var r := client.Send(GetPod(RefKey(task.status.podRef)));
        if r.PodReply? {
          r := client.Send(DeletePod(RefKey(task.status.podRef)));
          if !r.Ok? {
            return Error;
          }
        }
      }
      result := CommitTimeout(task);
    }

    /** The status of a timed-out task, once its pod is dealt with. */
    method CommitTimeout(task: TaskObject) returns (result: Result)
      requires client.OnTrack()
      requires client.job == Work(task.Value(), PutTimeout(TimeoutStatus(task.status, client.world.clock)))
      modifies client, task
      ensures client.OnTrack() && client.goal == old(client.goal)
      ensures client.job == Done(result)
    {
      hide Drive, ApiClient.OnTrack;
      task.status := task.status.(phase := Timeout);
      var now := client.Now();
      task.status := task.status.(completionTime := Some(Stamp(now)));
      task.status := task.status.(reason := TimeoutReason);
      var r := client.Send(PutStatus(task.key, task.version, task.status));
      result := if r.Ok? then Settled else Error;
    }

    method FinalizeAgentTask(task: TaskObject) returns (err: bool)
      requires client.OnTrack()
      requires client.job == Work(task.Value(), if task.status.podRef.Ref? then FinalizeLook else DropFinalizer)
      modifies client
      ensures client.OnTrack() && client.goal == old(client.goal)
      ensures client.job == (if err then Done(Error) else Work(task.Value(), DropFinalizer))
    {
      hide Drive, ApiClient.OnTrack;
      if task.status.podRef.Ref? {
        var r := client.Send(GetPod(RefKey(task.status.podRef)));
        if r.PodReply? {
          r := client.Send(DeletePod(RefKey(task.status.podRef)));
          if !r.Ok? && !r.NotFound? {
            return true;
          }
        } else if !r.NotFound? {
          return true;
        }
      }
      return false;
    }
  }

  /** The reconciler's code refines the automaton: whatever others do between its
      requests, however each request fares and wherever the controller crashes, one
      reconcile of `me` leaves exactly the world that the automaton leaves. */
  method RunReconcile(me: Key, world: World, turns: seq<Turn>) returns (end: World)
    requires me in world.jobs && world.jobs[me] == Fetch
    ensures end == Drive(world, me, turns)
  {
    var client := new ApiClient(me, world, turns);
    var reconciler := new AgentTaskReconciler(client);
    var result := reconciler.Reconcile();
    end := client.world;
  }
}
