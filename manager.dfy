/** The `spannerManager` facade (package `manager`): every request addresses
    the one instance the manager was built for. */
module Manager {
  import opened Base
  import InstanceConfig
  import opened ResourceNames
  import opened AdminApi
  import opened AdminRequests

  class SpannerManager {
    const projectId: string
    const instanceId: string
    const instanceConfig: string
    const client: AdminClient

    /** The builder with its project id and instance id set; `config` is
        the value given to `InstanceConfig`, kept as its name, or `None` when
        that step was skipped and the name stays "". */
    constructor Build(projectId: string, instanceId: string, config: Option<InstanceConfig.InstanceConfig>,
                      client: AdminClient)
      requires config.Some? ==> 0 <= config.value < |InstanceConfig.Table|
      ensures this.projectId == projectId && this.instanceId == instanceId && this.client == client
      ensures instanceConfig == if config.Some? then InstanceConfig.String(config.value) else ""
    {
      this.projectId := projectId;
      this.instanceId := instanceId;
      this.instanceConfig := if config.Some? then InstanceConfig.String(config.value) else "";
      this.client := client;
    }

    /** `name` is only the display name; the node count is always 1. A failed
        `Wait` is dropped. */
    method CreateInstance(name: string) returns (err: Option<RpcError>)
      modifies client
      ensures client.sent == old(client.sent)
                + [CreateInstanceRequestFor(projectId, instanceId, instanceId, instanceConfig, name, 1)]
      ensures WellFormedCreate(client.sent[|client.sent| - 1])
      ensures err == client.replies(|old(client.sent)|).startError
    {
      var req := CreateInstanceRequestFor(projectId, instanceId, instanceId, instanceConfig, name, 1);
      CreateInstanceRequestWellFormedIff(projectId, instanceId, instanceId, instanceConfig, name, 1);
      var r := client.Call(req);
      if r.startError.Some? {
        return r.startError;
      }
      err := None;
    }

    method ScaleNode(num: int32) returns (err: Option<RpcError>)
      modifies client
      ensures client.sent == old(client.sent) + [ScaleRequest(projectId, instanceId, num)]
      ensures err == Awaited(client.replies(|old(client.sent)|))
    {
      var r := client.Call(ScaleRequest(projectId, instanceId, num));
      if r.startError.Some? {
        return r.startError;
      }
      err := r.waitError;
    }

    method DeleteInstance() returns (err: Option<RpcError>)
      modifies client
      ensures client.sent == old(client.sent) + [DeleteInstanceRequestFor(projectId, instanceId)]
      ensures err == client.replies(|old(client.sent)|).startError
    {
      var r := client.Call(DeleteInstanceRequestFor(projectId, instanceId));
      err := r.startError;
    }

    /** The labels travel under the field mask `node_count`: the service
        keeps the instance's labels and sets its node count to zero. */
    method UpdateLabels(labels: Labels) returns (err: Option<RpcError>)
      modifies client
      ensures client.sent == old(client.sent) + [LabelsRequest(projectId, instanceId, labels, [NodeCountPath])]
      ensures forall current :: var u := client.sent[|client.sent| - 1];
                ApplyMask(current, u.instance, u.fieldMask) == current.(nodeCount := 0)
      ensures err == Awaited(client.replies(|old(client.sent)|))
    {
      var req := LabelsRequest(projectId, instanceId, labels, [NodeCountPath]);
      var r := client.Call(req);
      if r.startError.Some? {
        return r.startError;
      }
      err := r.waitError;
    }
  }

  /** The label request the code evidently intends: the mask names `labels`,
      so the labels are replaced and nothing else changes. */
  function IntendedLabelsRequest(projectId: string, instanceId: string, labels: Labels): (r: Request)
    ensures r.UpdateInstanceRequest?
    ensures '/' !in projectId ==> ParseInstanceName(r.instance.name) == Some((projectId, instanceId))
    ensures forall current :: ApplyMask(current, r.instance, r.fieldMask) == current.(labels := labels)
  {
    if '/' !in projectId then InstanceNameRoundTrip(projectId, instanceId); LabelsRequest(projectId, instanceId, labels, [LabelsPath])
    else LabelsRequest(projectId, instanceId, labels, [LabelsPath])
  }
}
