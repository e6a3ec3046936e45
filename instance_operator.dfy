/** The instance-only live facade (package `instance`): the same requests and
    the same error handling as the `operator` package, over one
    instance-admin client. */
module InstanceOperator {
  import opened Base
  import opened ResourceNames
  import opened AdminApi
  import opened AdminRequests

  class Operator {
    const projectId: string
    /** Never set by `Build`, yet `CreateInstance` sends it. */
    const instanceId: string
    const instanceConfig: string
    const client: AdminClient

    /** `builder.Build`: only the project id and the client are set. */
    constructor Build(projectId: string, client: AdminClient)
      ensures this.projectId == projectId && instanceId == "" && instanceConfig == ""
      ensures this.client == client
    {
      this.projectId := projectId;
      this.instanceId := "";
      this.instanceConfig := "";
      this.client := client;
    }

    /** `updateInstance`: both a failed start and a failed `Wait` are returned. */
    method UpdateInstance(req: Request) returns (err: Option<RpcError>)
      modifies client
      ensures client.sent == old(client.sent) + [req]
      ensures err == Awaited(client.replies(|old(client.sent)|))
    {
      var r := client.Call(req);
      if r.startError.Some? {
        return r.startError;
      }
      err := r.waitError;
    }

    /** The request carries this facade's `instanceId` field, not the
        argument, and a failed `Wait` is dropped: only a failed start is
        returned. */
    method CreateInstance(displayName: string, instanceId: string, instanceConfig: string, nodeCount: int32)
      returns (err: Option<RpcError>)
      modifies client
      ensures client.sent == old(client.sent)
                + [CreateInstanceRequestFor(projectId, this.instanceId, instanceId, instanceConfig, displayName, nodeCount)]
      ensures err == client.replies(|old(client.sent)|).startError
    {
      var req := CreateInstanceRequestFor(projectId, this.instanceId, instanceId, instanceConfig, displayName, nodeCount);
      var r := client.Call(req);
      if r.startError.Some? {
        return r.startError;
      }
      err := None;
    }

    method GetInstance(instanceId: string) returns (result: Result<Instance, RpcError>)
      modifies client
      ensures client.sent == old(client.sent) + [GetInstanceRequestFor(projectId, instanceId)]
      ensures var r := client.replies(|old(client.sent)|);
              result == if r.startError.Some? then Failure(r.startError.value) else Success(r.instance)
    {
      var r := client.Call(GetInstanceRequestFor(projectId, instanceId));
      if r.startError.Some? {
        return Failure(r.startError.value);
      }
      result := Success(r.instance);
    }

    method Scale(instanceId: string, nodeCount: int32) returns (err: Option<RpcError>)
      modifies client
      ensures client.sent == old(client.sent) + [ScaleRequest(projectId, instanceId, nodeCount)]
      ensures err == Awaited(client.replies(|old(client.sent)|))
    {
      err := UpdateInstance(ScaleRequest(projectId, instanceId, nodeCount));
    }

    method DeleteInstance(instanceId: string) returns (err: Option<RpcError>)
      modifies client
      ensures client.sent == old(client.sent) + [DeleteInstanceRequestFor(projectId, instanceId)]
      ensures err == client.replies(|old(client.sent)|).startError
    {
      var r := client.Call(DeleteInstanceRequestFor(projectId, instanceId));
      err := r.startError;
    }

    method UpdateLabels(instanceId: string, labels: Labels) returns (err: Option<RpcError>)
      modifies client
      ensures client.sent == old(client.sent) + [LabelsRequest(projectId, instanceId, labels, [LabelsPath])]
      ensures err == Awaited(client.replies(|old(client.sent)|))
    {
      err := UpdateInstance(LabelsRequest(projectId, instanceId, labels, [LabelsPath]));
    }
  }

}
