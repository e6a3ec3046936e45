/** The slice of the Cloud Spanner instance- and database-admin API that the
    live facades use: requests, the instance record, gRPC errors, and an admin
    client whose replies come from an oracle. */
module AdminApi {
  import opened Base

  /** gRPC status codes. */
  datatype Code =
    | OK | Canceled | Unknown | InvalidArgument | DeadlineExceeded | NotFound
    | AlreadyExists | PermissionDenied | ResourceExhausted | FailedPrecondition
    | Aborted | OutOfRange | Unimplemented | Internal | Unavailable | DataLoss
    | Unauthenticated

  /** An error the client returns: one that carries a gRPC status, or any other. */
  datatype RpcError = StatusError(code: Code, message: string) | PlainError(message: string)

  /** `status.FromError`: the status of a status-carrying error, and whether there was one. */
  function FromError(err: RpcError): (Code, bool) {
    match err
    case StatusError(code, _) => (code, true)
    case PlainError(_) => (Unknown, false)
  }

  datatype State = StateUnspecified | Creating | Ready

  datatype Instance = Instance(
    name: string,
    config: string,
    displayName: string,
    nodeCount: int32,
    state: State,
    labels: Labels)

  /** An `Instance` literal with no field set. */
  const EmptyInstance: Instance := Instance("", "", "", 0, StateUnspecified, map[])

  datatype Database = Database(name: string)

  datatype Request =
    | CreateInstanceRequest(parent: string, instanceId: string, instance: Instance)
    | GetInstanceRequest(name: string)
    | UpdateInstanceRequest(instance: Instance, fieldMask: seq<string>)
    | DeleteInstanceRequest(name: string)
    | CreateDatabaseRequest(parent: string, createStatement: string)
    | GetDatabaseRequest(name: string)
    | DropDatabaseRequest(database: string)

  /** How the service applies an `UpdateInstanceRequest`: each field its mask
      names is taken from the request, every other field keeps its value. */
  function ApplyMask(current: Instance, update: Instance, mask: seq<string>): Instance {
    current.(
      config := if "config" in mask then update.config else current.config,
      displayName := if "display_name" in mask then update.displayName else current.displayName,
      nodeCount := if "node_count" in mask then update.nodeCount else current.nodeCount,
      labels := if "labels" in mask then update.labels else current.labels)
  }

  /** What one call yields: the error of the call itself, the error of waiting
      on the long-running operation it starts (if any), and the record a
      `Get` returns. */
  datatype Reply = Reply(startError: Option<RpcError>, waitError: Option<RpcError>, instance: Instance, database: Database)

  /** The error of an operation whose start and `Wait` errors both reach the caller. */
  function Awaited(r: Reply): Option<RpcError> {
    if r.startError.Some? then r.startError else r.waitError
  }

  /** An admin client: it records every request, and its `i`-th reply is
      `replies(i)`. */
  class AdminClient {
    var sent: seq<Request>
    const replies: nat -> Reply

    constructor (replies: nat -> Reply)
      ensures sent == [] && this.replies == replies
    {
      sent := [];
      this.replies := replies;
    }

    method Call(req: Request) returns (r: Reply)
      modifies this
      ensures sent == old(sent) + [req]
      ensures r == replies(|old(sent)|)
    {
      r := replies(|sent|);
      sent := sent + [req];
    }
  }
}
