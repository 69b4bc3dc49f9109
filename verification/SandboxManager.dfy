/** Create-if-absent for the sandbox backend. */
module SandboxManager {
  import opened Names
  import opened Objects
  import opened Protocol
  import opened Cluster
  import opened Client

  class Manager {
    const client: ApiClient

    constructor (client: ApiClient)
      ensures this.client == client
    {
      this.client := client;
    }

    method EnsureSandbox(task: TaskObject, image: string) returns (ref: PodRef, err: bool)
      requires client.OnTrack() && client.job == Work(task.Value(), LookSandbox(image))
      modifies client
      ensures client.OnTrack() && client.goal == old(client.goal)
      ensures err ==> client.job == Done(Error)
      ensures !err ==> ref == Ref(SandboxKind, SandboxKey(task.key))
                       && client.job == Work(task.Value(), PutScheduled(ScheduledStatus(task.status, ref)))
    {
      hide Drive, ApiClient.OnTrack;
      var sandboxKey := Key(task.key.ns, task.key.name + "-sandbox");
      ref := Ref(SandboxKind, sandboxKey);
      var r := client.Send(GetSandbox(sandboxKey));
      if r.Ok? {
        return ref, false;
      }
      if !r.NotFound? {
        return ref, true;
      }
      var sandbox := Sandbox(task.key, image, ["python", "/workspace/entrypoint.py"]);
      r := client.Send(CreateSandbox(sandboxKey, sandbox));
      err := !r.Ok?;
    }
  }
}
