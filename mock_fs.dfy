/** The file system under the mock facades: a map from path to the JSON
    document stored there. Marshalling is the identity on records; reading a
    document as the other kind of record keeps only the `name` both share, as
    `json.Unmarshal` does with unknown fields. */
module MockFs {
  import opened Base
  import opened AdminApi

  datatype Document = InstanceDoc(instance: Instance) | DatabaseDoc(database: Database) | Garbage

  /** The errors the mocks return: a missing file, a file that is not JSON,
      and a failed write. */
  datatype OsError = NotExist(path: string) | DecodeError(path: string) | WriteFailed(path: string)

  /** `os.IsNotExist`. */
  predicate IsNotExist(err: OsError) {
    err.NotExist?
  }

  type Files = map<string, Document>

  function DecodeInstance(path: string, doc: Document): (r: Result<Instance, OsError>)
    ensures doc.InstanceDoc? ==> r == Success(doc.instance)
    ensures r.Failure? <==> doc.Garbage?
  {
    match doc
    case InstanceDoc(i) => Success(i)
    case DatabaseDoc(d) => Success(EmptyInstance.(name := d.name))
    case Garbage => Failure(DecodeError(path))
  }

  function DecodeDatabase(path: string, doc: Document): (r: Result<Database, OsError>)
    ensures doc.DatabaseDoc? ==> r == Success(doc.database)
    ensures r.Failure? <==> doc.Garbage?
  {
    match doc
    case InstanceDoc(i) => Success(Database(i.name))
    case DatabaseDoc(d) => Success(d)
    case Garbage => Failure(DecodeError(path))
  }

  /** `ioutil.ReadFile` followed by `json.Unmarshal` into an instance. */
  function ReadInstance(files: Files, path: string): (r: Result<Instance, OsError>)
    ensures path !in files ==> r == Failure(NotExist(path))
    ensures path in files && files[path].InstanceDoc? ==> r == Success(files[path].instance)
  {
    if path !in files then Failure(NotExist(path)) else DecodeInstance(path, files[path])
  }

  function ReadDatabase(files: Files, path: string): (r: Result<Database, OsError>)
    ensures path !in files ==> r == Failure(NotExist(path))
    ensures path in files && files[path].DatabaseDoc? ==> r == Success(files[path].database)
  {
    if path !in files then Failure(NotExist(path)) else DecodeDatabase(path, files[path])
  }

  /** A record written and read back is the record itself. */
  lemma InstanceRoundTrip(files: Files, path: string, i: Instance)
    ensures ReadInstance(files[path := InstanceDoc(i)], path) == Success(i)
  {
  }

  /** The labels every mock gives a new instance. */
  const MockLabels: Labels := map["mock" := "true"]
}
