/** The file-backed `operatorMock` (package `operator`). Each method is a
    read-modify-write of one JSON file under `dataDir`. Which writes fail is
    given by the set `unwritable`. */
module OperatorMock {
  import opened Base
  import opened ResourceNames
  import opened AdminApi
  import opened MockFs

  /** Where `CreateInstance` writes: `{dataDir}/{projectId}/instance_{id}.json`. */
  function CreatedInstancePath(dataDir: string, projectId: string, instanceId: string): string {
    dataDir + "/" + projectId + "/instance_" + instanceId + ".json"
  }

  /** Where every other instance method looks: `{dataDir}/instance_{id}.json`. */
  function InstancePath(dataDir: string, instanceId: string): string {
    dataDir + "/instance_" + instanceId + ".json"
  }

  /** Where every database method looks: `{dataDir}/database_{name}.json`;
      the instance id plays no part. */
  function DatabasePath(dataDir: string, name: string): string {
    dataDir + "/database_" + name + ".json"
  }

  /** The record `CreateInstance` stores. */
  function CreatedInstance(projectId: string, displayName: string, instanceId: string,
                           config: string, nodeCount: int32): (i: Instance)
    ensures '/' !in projectId ==> ParseInstanceName(i.name) == Some((projectId, instanceId))
    ensures i.config == config && i.displayName == displayName && i.nodeCount == nodeCount
    ensures i.state == Ready && i.labels == MockLabels
  {
    if '/' !in projectId then InstanceNameRoundTrip(projectId, instanceId);
      Instance(InstanceName(projectId, instanceId), config, displayName, nodeCount, Ready, MockLabels)
    else
      Instance(InstanceName(projectId, instanceId), config, displayName, nodeCount, Ready, MockLabels)
  }

  class OperatorMockFacade {
    const projectId: string
    const dataDir: string
    const unwritable: set<string>
    var files: Files

    /** `builder.BuildMock(dataPath)`: the facade's `dataDir` is `dataPath`
        itself, although the directory made ready is `{dataPath}/{projectId}`. */
    constructor BuildMock(projectId: string, dataPath: string, files: Files, unwritable: set<string>)
      ensures this.projectId == projectId && dataDir == dataPath
      ensures this.files == files && this.unwritable == unwritable
    {
      this.projectId := projectId;
      this.dataDir := dataPath;
      this.files := files;
      this.unwritable := unwritable;
    }

    /** A NotFound answer is exactly a missing file. */
    predicate IsNotFoundError(err: OsError) {
      IsNotExist(err)
    }

    /** Writes a fresh record; only the write's failure is returned. */
    method CreateInstance(displayName: string, instanceId: string, instanceConfig: string, nodeCount: int32)
      returns (err: Option<OsError>)
      modifies this
      ensures var path := CreatedInstancePath(dataDir, projectId, instanceId);
              if path in unwritable then err == Some(WriteFailed(path)) && files == old(files)
              else err == None
                   && files == old(files)[path := InstanceDoc(CreatedInstance(projectId, displayName, instanceId, instanceConfig, nodeCount))]
    {
      var path := CreatedInstancePath(dataDir, projectId, instanceId);
      var doc := InstanceDoc(CreatedInstance(projectId, displayName, instanceId, instanceConfig, nodeCount));
      if path in unwritable {
        return Some(WriteFailed(path));
      }
      files := files[path := doc];
      err := None;
    }

    method GetInstance(instanceId: string) returns (result: Result<Instance, OsError>)
      ensures result == ReadInstance(files, InstancePath(dataDir, instanceId))
    {
      var path := InstancePath(dataDir, instanceId);
      if path !in files {
        return Failure(NotExist(path));
      }
      result := DecodeInstance(path, files[path]);
    }

    /** Only the node count changes; once the read succeeds the result is
        nil, even when the write fails. */
    method Scale(instanceId: string, nodeCount: int32) returns (err: Option<OsError>)
      modifies this
      ensures var path := InstancePath(dataDir, instanceId);
              match ReadInstance(old(files), path)
              case Failure(e) => err == Some(e) && files == old(files)
              case Success(i) =>
                err == None
                && files == if path in unwritable then old(files)
                            else old(files)[path := InstanceDoc(i.(nodeCount := nodeCount))]
    {
      var path := InstancePath(dataDir, instanceId);
      var read := ReadInstance(files, path);
      if read.Failure? {
        return Some(read.error);
      }
      var i := read.value.(nodeCount := nodeCount);
      if path !in unwritable {
        files := files[path := InstanceDoc(i)];
      }
      err := None;
    }

    /** `os.Remove`: a missing file gives a not-exist error. */
    method DeleteInstance(instanceId: string) returns (err: Option<OsError>)
      modifies this
      ensures var path := InstancePath(dataDir, instanceId);
              if path in old(files) then err == None && files == old(files) - {path}
              else err == Some(NotExist(path)) && files == old(files)
    {
      var path := InstancePath(dataDir, instanceId);
      if path !in files {
        return Some(NotExist(path));
      }
      files := files - {path};
      err := None;
    }

    /** The label map is replaced wholesale; every other field is kept. Once
        the read succeeds the result is nil, even when the write fails. */
    method UpdateLabels(instanceId: string, labels: Labels) returns (err: Option<OsError>)
      modifies this
      ensures var path := InstancePath(dataDir, instanceId);
              match ReadInstance(old(files), path)
              case Failure(e) => err == Some(e) && files == old(files)
              case Success(i) =>
                err == None
                && files == if path in unwritable then old(files)
                            else old(files)[path := InstanceDoc(i.(labels := labels))]
    {
      var path := InstancePath(dataDir, instanceId);
      var read := ReadInstance(files, path);
      if read.Failure? {
        return Some(read.error);
      }
      var i := read.value.(labels := labels);
      if path !in unwritable {
        files := files[path := InstanceDoc(i)];
      }
      err := None;
    }

    /** Overwrites any record of that name, whatever its instance. */
    method CreateDatabase(instanceId: string, name: string) returns (err: Option<OsError>)
      modifies this
      ensures var path := DatabasePath(dataDir, name);
              if path in unwritable then err == Some(WriteFailed(path)) && files == old(files)
              else err == None
                   && files == old(files)[path := DatabaseDoc(Database(DatabaseName(projectId, instanceId, name)))]
    {
      var path := DatabasePath(dataDir, name);
      if path in unwritable {
        return Some(WriteFailed(path));
      }
      files := files[path := DatabaseDoc(Database(DatabaseName(projectId, instanceId, name)))];
      err := None;
    }

    method GetDatabase(instanceId: string, name: string) returns (result: Result<Database, OsError>)
      ensures result == ReadDatabase(files, DatabasePath(dataDir, name))
    {
      var path := DatabasePath(dataDir, name);
      if path !in files {
        return Failure(NotExist(path));
      }
      result := DecodeDatabase(path, files[path]);
    }

    method DropDatabase(instanceId: string, name: string) returns (err: Option<OsError>)
      modifies this
      ensures var path := DatabasePath(dataDir, name);
              if path in old(files) then err == None && files == old(files) - {path}
              else err == Some(NotExist(path)) && files == old(files)
    {
      var path := DatabasePath(dataDir, name);
      if path !in files {
        return Some(NotExist(path));
      }
      files := files - {path};
      err := None;
    }
  }

  /** For an instance id without '/', the file `CreateInstance` writes is
      never the file the other instance methods read. */
  lemma CreatedPathIsNotInstancePath(dataDir: string, projectId: string, instanceId: string, otherId: string)
    requires '/' !in otherId
    ensures CreatedInstancePath(dataDir, projectId, instanceId) != InstancePath(dataDir, otherId)
  {
    var x := projectId + "/instance_" + instanceId + ".json";
    var y := "instance_" + otherId + ".json";
    assert CreatedInstancePath(dataDir, projectId, instanceId) == dataDir + "/" + x;
    assert InstancePath(dataDir, otherId) == dataDir + "/" + y;
    assert x[|projectId|] == '/';
    assert '/' !in y;
    assert x == (dataDir + "/" + x)[|dataDir| + 1..];
    assert y == (dataDir + "/" + y)[|dataDir| + 1..];
  }

  /** So a `GetInstance` right after a successful `CreateInstance` still finds
      nothing when the file was not there before. */
  lemma GetAfterCreateMisses(files: Files, dataDir: string, projectId: string, instanceId: string, doc: Document)
    requires '/' !in instanceId
    requires InstancePath(dataDir, instanceId) !in files
    ensures ReadInstance(files[CreatedInstancePath(dataDir, projectId, instanceId) := doc],
                         InstancePath(dataDir, instanceId))
            == Failure(NotExist(InstancePath(dataDir, instanceId)))
  {
    CreatedPathIsNotInstancePath(dataDir, projectId, instanceId, instanceId);
  }

  /** A failed read is a NotFound error exactly when the file is missing; a
      file that is there but does not decode fails some other way. */
  lemma NotFoundIffMissing(m: OperatorMockFacade, files: Files, path: string)
    ensures ReadInstance(files, path).Failure? ==>
              (m.IsNotFoundError(ReadInstance(files, path).error) <==> path !in files)
    ensures ReadDatabase(files, path).Failure? ==>
              (m.IsNotFoundError(ReadDatabase(files, path).error) <==> path !in files)
  {
  }
}
