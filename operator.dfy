/** The live `operator` facade (package `operator`): each method builds one
    request, sends it to the instance- or database-admin client, and decides
    which errors reach the caller. */
module LiveOperator {
  import opened Base
  import opened ResourceNames
  import opened AdminApi
  import opened AdminRequests

  class Operator {
    const projectId: string
    /** Never set by `Build`, yet `CreateInstance` sends it. */
    const instanceId: string
    const instanceConfig: string
    const instanceAdminClient: AdminClient
    const databaseAdminClient: AdminClient

    /** `builder.Build`: only the project id and the two clients are set. */
    constructor Build(projectId: string, instanceAdminClient: AdminClient, databaseAdminClient: AdminClient)
      ensures this.projectId == projectId && instanceId == "" && instanceConfig == ""
      ensures this.instanceAdminClient == instanceAdminClient
      ensures this.databaseAdminClient == databaseAdminClient
    {
      this.projectId := projectId;
      this.instanceId := "";
      this.instanceConfig := "";
      this.instanceAdminClient := instanceAdminClient;
      this.databaseAdminClient := databaseAdminClient;
    }

    /** `updateInstance`: both a failed start and a failed `Wait` are returned. */
    method UpdateInstance(req: Request) returns (err: Option<RpcError>)
      modifies instanceAdminClient
      ensures instanceAdminClient.sent == old(instanceAdminClient.sent) + [req]
      ensures err == Awaited(instanceAdminClient.replies(|old(instanceAdminClient.sent)|))
    {
      var r := instanceAdminClient.Call(req);
      if r.startError.Some? {
        return r.startError;
      }
      err := r.waitError;
    }

    /** The request carries this facade's `instanceId` field, not the
        argument, and a failed `Wait` is dropped: only a failed start is
        returned. */
    method CreateInstance(displayName: string, instanceId: string, instanceConfig: string, nodeCount: int32)
      returns (err: Option<RpcError>)
      modifies instanceAdminClient
      ensures instanceAdminClient.sent == old(instanceAdminClient.sent)
                + [CreateInstanceRequestFor(projectId, this.instanceId, instanceId, instanceConfig, displayName, nodeCount)]
      ensures err == instanceAdminClient.replies(|old(instanceAdminClient.sent)|).startError
    {
      var req := CreateInstanceRequestFor(projectId, this.instanceId, instanceId, instanceConfig, displayName, nodeCount);
      var r := instanceAdminClient.Call(req);
      if r.startError.Some? {
        return r.startError;
      }
      err := None;
    }

    method GetInstance(instanceId: string) returns (result: Result<Instance, RpcError>)
      modifies instanceAdminClient
      ensures instanceAdminClient.sent == old(instanceAdminClient.sent) + [GetInstanceRequestFor(projectId, instanceId)]
      ensures var r := instanceAdminClient.replies(|old(instanceAdminClient.sent)|);
              result == if r.startError.Some? then Failure(r.startError.value) else Success(r.instance)
    {
      var r := instanceAdminClient.Call(GetInstanceRequestFor(projectId, instanceId));
      if r.startError.Some? {
        return Failure(r.startError.value);
      }
      result := Success(r.instance);
    }

    method Scale(instanceId: string, nodeCount: int32) returns (err: Option<RpcError>)
      modifies instanceAdminClient
      ensures instanceAdminClient.sent == old(instanceAdminClient.sent) + [ScaleRequest(projectId, instanceId, nodeCount)]
      ensures err == Awaited(instanceAdminClient.replies(|old(instanceAdminClient.sent)|))
    {
      err := UpdateInstance(ScaleRequest(projectId, instanceId, nodeCount));
    }

    method DeleteInstance(instanceId: string) returns (err: Option<RpcError>)
      modifies instanceAdminClient
      ensures instanceAdminClient.sent == old(instanceAdminClient.sent) + [DeleteInstanceRequestFor(projectId, instanceId)]
      ensures err == instanceAdminClient.replies(|old(instanceAdminClient.sent)|).startError
    {
      var r := instanceAdminClient.Call(DeleteInstanceRequestFor(projectId, instanceId));
      err := r.startError;
    }

    method UpdateLabels(instanceId: string, labels: Labels) returns (err: Option<RpcError>)
      modifies instanceAdminClient
      ensures instanceAdminClient.sent == old(instanceAdminClient.sent) + [LabelsRequest(projectId, instanceId, labels, [LabelsPath])]
      ensures err == Awaited(instanceAdminClient.replies(|old(instanceAdminClient.sent)|))
    {
      err := UpdateInstance(LabelsRequest(projectId, instanceId, labels, [LabelsPath]));
    }

    /** Only a failed start is returned; the outcome of `Wait` is dropped. */
    method CreateDatabase(instanceId: string, name: string) returns (err: Option<RpcError>)
      modifies databaseAdminClient
      ensures databaseAdminClient.sent == old(databaseAdminClient.sent) + [CreateDatabaseRequestFor(projectId, instanceId, name)]
      ensures err == databaseAdminClient.replies(|old(databaseAdminClient.sent)|).startError
    {
      var r := databaseAdminClient.Call(CreateDatabaseRequestFor(projectId, instanceId, name));
      if r.startError.Some? {
        return r.startError;
      }
      err := None;
    }

    method GetDatabase(instanceId: string, name: string) returns (result: Result<Database, RpcError>)
      modifies databaseAdminClient
      ensures databaseAdminClient.sent == old(databaseAdminClient.sent) + [GetDatabaseRequestFor(projectId, instanceId, name)]
      ensures var r := databaseAdminClient.replies(|old(databaseAdminClient.sent)|);
              result == if r.startError.Some? then Failure(r.startError.value) else Success(r.database)
    {
      var r := databaseAdminClient.Call(GetDatabaseRequestFor(projectId, instanceId, name));
      if r.startError.Some? {
        return Failure(r.startError.value);
      }
      result := Success(r.database);
    }

    method DropDatabase(instanceId: string, name: string) returns (err: Option<RpcError>)
      modifies databaseAdminClient
      ensures databaseAdminClient.sent == old(databaseAdminClient.sent) + [DropDatabaseRequestFor(projectId, instanceId, name)]
      ensures err == databaseAdminClient.replies(|old(databaseAdminClient.sent)|).startError
    {
      var r := databaseAdminClient.Call(DropDatabaseRequestFor(projectId, instanceId, name));
      err := r.startError;
    }

    /** A NotFound answer is an error carrying the gRPC code NotFound; any
        other error, with or without a status, is not. */
    predicate IsNotFoundError(err: RpcError) {
      var (code, ok) := FromError(err);
      ok && code == NotFound
    }
  }

  lemma IsNotFoundErrorExact(o: Operator, err: RpcError)
    ensures o.IsNotFoundError(err) <==> err == StatusError(NotFound, err.message)
  {
  }

  /** An operator made by `Build` sends a create request whose instance id is
      empty, so for every non-empty instance id the request is not well formed. */
  lemma BuiltOperatorCreateRequestMalformed(projectId: string, instanceId: string,
                                            config: string, displayName: string, nodeCount: int32)
    requires instanceId != ""
    ensures !WellFormedCreate(CreateInstanceRequestFor(projectId, "", instanceId, config, displayName, nodeCount))
  {
    CreateInstanceRequestWellFormedIff(projectId, "", instanceId, config, displayName, nodeCount);
  }
}
