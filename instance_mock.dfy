/** The file-backed `instanceMock` (package `instance`). Every method uses the
    one file `{dataPath}/{id}.json`. Which writes fail is given by the set
    `unwritable`. */
module InstanceMock {
  import opened Base
  import opened ResourceNames
  import opened AdminApi
  import opened MockFs

  /** The project segment of every name this mock stores: a fixed
      placeholder, not the project id. */
  const ProjectPlaceholder: string := "<project>"

  function Path(dataPath: string, instanceId: string): string {
    dataPath + "/" + instanceId + ".json"
  }

  /** Distinct instance ids have distinct files. */
  lemma PathInjective(dataPath: string, a: string, b: string)
    requires Path(dataPath, a) == Path(dataPath, b)
    ensures a == b
  {
    var p := dataPath + "/";
    assert Path(dataPath, a) == p + a + ".json";
    assert Path(dataPath, b) == p + b + ".json";
    assert |a| == |b|;
    assert a == Path(dataPath, a)[|p|..|p| + |a|];
    assert b == Path(dataPath, b)[|p|..|p| + |b|];
  }

  /** The record `CreateInstance` stores: its name holds the placeholder in
      place of the project. */
  function CreatedInstance(displayName: string, instanceId: string, config: string, nodeCount: int32): (i: Instance)
    ensures ParseInstanceName(i.name) == Some((ProjectPlaceholder, instanceId))
    ensures i.config == config && i.displayName == displayName && i.nodeCount == nodeCount
    ensures i.state == Ready && i.labels == MockLabels
  {
    InstanceNameRoundTrip(ProjectPlaceholder, instanceId);
    Instance(InstanceName(ProjectPlaceholder, instanceId), config, displayName, nodeCount, Ready, MockLabels)
  }

  class InstanceMockFacade {
    const projectId: string
    const dataPath: string
    const unwritable: set<string>
    var files: Files

    constructor BuildMock(projectId: string, dataPath: string, files: Files, unwritable: set<string>)
      ensures this.projectId == projectId && this.dataPath == dataPath
      ensures this.files == files && this.unwritable == unwritable
    {
      this.projectId := projectId;
      this.dataPath := dataPath;
      this.files := files;
      this.unwritable := unwritable;
    }

    method CreateInstance(displayName: string, instanceId: string, instanceConfig: string, nodeCount: int32)
      returns (err: Option<OsError>)
      modifies this
      ensures var path := Path(dataPath, instanceId);
              if path in unwritable then err == Some(WriteFailed(path)) && files == old(files)
              else err == None
                   && files == old(files)[path := InstanceDoc(CreatedInstance(displayName, instanceId, instanceConfig, nodeCount))]
    {
      var path := Path(dataPath, instanceId);
      if path in unwritable {
        return Some(WriteFailed(path));
      }
      files := files[path := InstanceDoc(CreatedInstance(displayName, instanceId, instanceConfig, nodeCount))];
      err := None;
    }

    method GetInstance(instanceId: string) returns (result: Result<Instance, OsError>)
      ensures result == ReadInstance(files, Path(dataPath, instanceId))
    {
      var path := Path(dataPath, instanceId);
      if path !in files {
        return Failure(NotExist(path));
      }
      result := DecodeInstance(path, files[path]);
    }

    /** Only the node count changes; once the read succeeds the result is
        nil, even when the write fails. */
    method Scale(instanceId: string, nodeCount: int32) returns (err: Option<OsError>)
      modifies this
      ensures var path := Path(dataPath, instanceId);
              match ReadInstance(old(files), path)
              case Failure(e) => err == Some(e) && files == old(files)
              case Success(i) =>
                err == None
                && files == if path in unwritable then old(files)
                            else old(files)[path := InstanceDoc(i.(nodeCount := nodeCount))]
    {
      var path := Path(dataPath, instanceId);
      var read := ReadInstance(files, path);
      if read.Failure? {
        return Some(read.error);
      }
      var i := read.value.(nodeCount := nodeCount);
      if path !in unwritable {
        files := files[path := InstanceDoc(i)];
      }
      err := None;
    }

    method DeleteInstance(instanceId: string) returns (err: Option<OsError>)
      modifies this
      ensures var path := Path(dataPath, instanceId);
              if path in old(files) then err == None && files == old(files) - {path}
              else err == Some(NotExist(path)) && files == old(files)
    {
      var path := Path(dataPath, instanceId);
      if path !in files {
        return Some(NotExist(path));
      }
      files := files - {path};
      err := None;
    }

    /** The label map is replaced wholesale; every other field is kept. */
    method UpdateLabels(instanceId: string, labels: Labels) returns (err: Option<OsError>)
      modifies this
      ensures var path := Path(dataPath, instanceId);
              match ReadInstance(old(files), path)
              case Failure(e) => err == Some(e) && files == old(files)
              case Success(i) =>
                err == None
                && files == if path in unwritable then old(files)
                            else old(files)[path := InstanceDoc(i.(labels := labels))]
    {
      var path := Path(dataPath, instanceId);
      var read := ReadInstance(files, path);
      if read.Failure? {
        return Some(read.error);
      }
      var i := read.value.(labels := labels);
      if path !in unwritable {
        files := files[path := InstanceDoc(i)];
      }
      err := None;
    }
  }

  /** After a successful create, a get of the same id returns exactly the
      stored record, and operations on other ids do not see it. */
  lemma GetAfterCreate(files: Files, dataPath: string, displayName: string, instanceId: string,
                       config: string, nodeCount: int32, otherId: string)
    requires otherId != instanceId
    ensures var created := files[Path(dataPath, instanceId) := InstanceDoc(CreatedInstance(displayName, instanceId, config, nodeCount))];
            ReadInstance(created, Path(dataPath, instanceId)) == Success(CreatedInstance(displayName, instanceId, config, nodeCount))
            && ReadInstance(created, Path(dataPath, otherId)) == ReadInstance(files, Path(dataPath, otherId))
  {
    if Path(dataPath, otherId) == Path(dataPath, instanceId) {
      PathInjective(dataPath, otherId, instanceId);
    }
  }

  /** After a delete, a get of the same id fails with a not-exist error. */
  lemma GetAfterDelete(files: Files, dataPath: string, instanceId: string)
    ensures var path := Path(dataPath, instanceId);
            ReadInstance(files - {path}, path) == Failure(NotExist(path))
  {
  }
}
