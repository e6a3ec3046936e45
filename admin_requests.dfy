/** The requests the live facades build, and what each one asks of the
    service: which resource it addresses and which fields it changes. */
module AdminRequests {
  import opened Base
  import opened ResourceNames
  import opened AdminApi

  const NodeCountPath: string := "node_count"
  const LabelsPath: string := "labels"

  /** The create request of every facade. `requestInstanceId` is what goes
      into the request's `InstanceId` field; `instanceId` names the instance. */
  function CreateInstanceRequestFor(projectId: string, requestInstanceId: string, instanceId: string,
                                    config: string, displayName: string, nodeCount: int32): (r: Request)
    ensures r.CreateInstanceRequest?
  {
    CreateInstanceRequest(
      ProjectName(projectId),
      requestInstanceId,
      EmptyInstance.(name := InstanceName(projectId, instanceId),
                     config := InstanceConfigName(projectId, config),
                     displayName := displayName,
                     nodeCount := nodeCount))
  }

  /** The service accepts a create request only when the instance it carries
      is named after the parent and the request's instance id. */
  predicate WellFormedCreate(r: Request) {
    r.CreateInstanceRequest? && r.instance.name == r.parent + InstancesSegment + r.instanceId
  }

  /** A create request names the instance, the configuration and the project
      it was built from, and carries the display name and node count. */
  lemma CreateInstanceRequestAddresses(projectId: string, requestInstanceId: string, instanceId: string,
                                       config: string, displayName: string, nodeCount: int32)
    requires '/' !in projectId
    ensures var r := CreateInstanceRequestFor(projectId, requestInstanceId, instanceId, config, displayName, nodeCount);
            ParseInstanceName(r.instance.name) == Some((projectId, instanceId))
            && ParseInstanceConfigName(r.instance.config) == Some((projectId, config))
            && r.instance.displayName == displayName && r.instance.nodeCount == nodeCount
            && r.instance.labels == map[]
  {
    InstanceNameRoundTrip(projectId, instanceId);
    InstanceConfigNameRoundTrip(projectId, config);
  }

  lemma ConcatCancel(a: string, x: string, y: string)
    ensures a + x == a + y <==> x == y
  {
    if a + x == a + y {
      assert x == (a + x)[|a|..];
      assert y == (a + y)[|a|..];
    }
  }

  /** A create request is well formed exactly when its instance id is the id
      of the instance it names. */
  lemma CreateInstanceRequestWellFormedIff(projectId: string, requestInstanceId: string, instanceId: string,
                                           config: string, displayName: string, nodeCount: int32)
    ensures WellFormedCreate(CreateInstanceRequestFor(projectId, requestInstanceId, instanceId, config, displayName, nodeCount))
            <==> requestInstanceId == instanceId
  {
    var p := ProjectName(projectId) + InstancesSegment;
    assert InstanceName(projectId, instanceId) == p + instanceId;
    ConcatCancel(p, instanceId, requestInstanceId);
  }

  /** The create request the code evidently intends: the request's instance id
      is the argument. */
  function IntendedCreateInstanceRequest(projectId: string, instanceId: string,
                                         config: string, displayName: string, nodeCount: int32): (r: Request)
    ensures WellFormedCreate(r)
    ensures '/' !in projectId ==> ParseInstanceName(r.instance.name) == Some((projectId, r.instanceId))
  {
    CreateInstanceRequestWellFormedIff(projectId, instanceId, instanceId, config, displayName, nodeCount);
    if '/' !in projectId then
      CreateInstanceRequestAddresses(projectId, instanceId, instanceId, config, displayName, nodeCount);
      CreateInstanceRequestFor(projectId, instanceId, instanceId, config, displayName, nodeCount)
    else
      CreateInstanceRequestFor(projectId, instanceId, instanceId, config, displayName, nodeCount)
  }

  /** The scale request: it changes the node count of the named instance and
      nothing else. */
  function ScaleRequest(projectId: string, instanceId: string, nodeCount: int32): (r: Request)
    ensures r.UpdateInstanceRequest? && r.instance.name == InstanceName(projectId, instanceId)
    ensures forall current :: ApplyMask(current, r.instance, r.fieldMask) == current.(nodeCount := nodeCount)
  {
    UpdateInstanceRequest(EmptyInstance.(name := InstanceName(projectId, instanceId), nodeCount := nodeCount),
                          [NodeCountPath])
  }

  /** The label request, with the field mask the caller gives. */
  function LabelsRequest(projectId: string, instanceId: string, labels: Labels, mask: seq<string>): (r: Request)
    ensures r.UpdateInstanceRequest? && r.instance.name == InstanceName(projectId, instanceId)
    ensures r.instance.labels == labels && r.fieldMask == mask
  {
    UpdateInstanceRequest(EmptyInstance.(name := InstanceName(projectId, instanceId), labels := labels), mask)
  }

  /** With the mask `labels` the label request replaces the labels and nothing else. */
  lemma LabelsRequestApplies(projectId: string, instanceId: string, labels: Labels, current: Instance)
    ensures var r := LabelsRequest(projectId, instanceId, labels, [LabelsPath]);
            ApplyMask(current, r.instance, r.fieldMask) == current.(labels := labels)
  {
  }

  /** With the mask `node_count` the labels the request carries are outside
      the mask: the labels stay as they were and the node count is set to the
      zero the request carries. */
  lemma LabelsRequestUnderNodeCountMask(projectId: string, instanceId: string, labels: Labels, current: Instance)
    ensures var r := LabelsRequest(projectId, instanceId, labels, [NodeCountPath]);
            ApplyMask(current, r.instance, r.fieldMask) == current.(nodeCount := 0)
  {
  }

  function GetInstanceRequestFor(projectId: string, instanceId: string): (r: Request)
    ensures r.GetInstanceRequest?
    ensures '/' !in projectId ==> ParseInstanceName(r.name) == Some((projectId, instanceId))
  {
    if '/' !in projectId then InstanceNameRoundTrip(projectId, instanceId); GetInstanceRequest(InstanceName(projectId, instanceId))
    else GetInstanceRequest(InstanceName(projectId, instanceId))
  }

  function DeleteInstanceRequestFor(projectId: string, instanceId: string): (r: Request)
    ensures r.DeleteInstanceRequest?
    ensures '/' !in projectId ==> ParseInstanceName(r.name) == Some((projectId, instanceId))
  {
    if '/' !in projectId then InstanceNameRoundTrip(projectId, instanceId); DeleteInstanceRequest(InstanceName(projectId, instanceId))
    else DeleteInstanceRequest(InstanceName(projectId, instanceId))
  }

  /** The create-database request: its parent is the instance, its statement
      names the database. */
  function CreateDatabaseRequestFor(projectId: string, instanceId: string, name: string): (r: Request)
    ensures r.CreateDatabaseRequest?
    ensures ParseCreateDatabaseStatement(r.createStatement) == Some(name)
    ensures '/' !in projectId ==> ParseInstanceName(r.parent) == Some((projectId, instanceId))
  {
    CreateDatabaseStatementRoundTrip(name);
    if '/' !in projectId then
      InstanceNameRoundTrip(projectId, instanceId);
      CreateDatabaseRequest(InstanceName(projectId, instanceId), CreateDatabaseStatement(name))
    else
      CreateDatabaseRequest(InstanceName(projectId, instanceId), CreateDatabaseStatement(name))
  }

  function GetDatabaseRequestFor(projectId: string, instanceId: string, name: string): (r: Request)
    ensures r.GetDatabaseRequest?
    ensures '/' !in projectId && '/' !in instanceId ==>
              ParseDatabaseName(r.name) == Some((projectId, instanceId, name))
  {
    if '/' !in projectId && '/' !in instanceId then
      DatabaseNameRoundTrip(projectId, instanceId, name);
      GetDatabaseRequest(DatabaseName(projectId, instanceId, name))
    else
      GetDatabaseRequest(DatabaseName(projectId, instanceId, name))
  }

  function DropDatabaseRequestFor(projectId: string, instanceId: string, name: string): (r: Request)
    ensures r.DropDatabaseRequest?
    ensures '/' !in projectId && '/' !in instanceId ==>
              ParseDatabaseName(r.database) == Some((projectId, instanceId, name))
  {
    if '/' !in projectId && '/' !in instanceId then
      DatabaseNameRoundTrip(projectId, instanceId, name);
      DropDatabaseRequest(DatabaseName(projectId, instanceId, name))
    else
      DropDatabaseRequest(DatabaseName(projectId, instanceId, name))
  }
}
