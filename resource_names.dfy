/** Resource names of the cloud administration API, as every facade builds
    them with `fmt.Sprintf`, and the parsers that invert them. A project id
    never contains '/', which is what makes the names parse back. */
module ResourceNames {
  import opened Base
  import opened GoStrings

  const ProjectsPrefix: string := "projects/"
  const InstancesSegment: string := "/instances/"
  const InstanceConfigsSegment: string := "/instanceConfigs/"
  const DatabasesSegment: string := "/databases/"
  const StatementPrefix: string := "CREATE DATABASE `"
  const StatementSuffix: string := "`;"

  /** `projects/{projectId}` */
  function ProjectName(projectId: string): string {
    ProjectsPrefix + projectId
  }

  /** `projects/{projectId}/instances/{instanceId}` */
  function InstanceName(projectId: string, instanceId: string): string {
    ProjectsPrefix + projectId + InstancesSegment + instanceId
  }

  /** `projects/{projectId}/instanceConfigs/{config}` */
  function InstanceConfigName(projectId: string, config: string): string {
    ProjectsPrefix + projectId + InstanceConfigsSegment + config
  }

  /** `projects/{projectId}/instances/{instanceId}/databases/{name}` */
  function DatabaseName(projectId: string, instanceId: string, name: string): string {
    InstanceName(projectId, instanceId) + DatabasesSegment + name
  }

  /** ``CREATE DATABASE `{name}`;`` */
  function CreateDatabaseStatement(name: string): string {
    StatementPrefix + name + StatementSuffix
  }

  /** Index of the first '/' in `s`, or `|s|` when there is none. */
  function SlashIndex(s: string): (k: nat)
    ensures k <= |s|
    ensures k < |s| ==> s[k] == '/'
    ensures forall j :: 0 <= j < k ==> s[j] != '/'
  {
    if s == [] then 0 else if s[0] == '/' then 0 else 1 + SlashIndex(s[1..])
  }

  /** Splits `projects/{p}{rest}` at the first '/' after the prefix. */
  function SplitProject(name: string): Option<(string, string)> {
    if HasPrefix(name, ProjectsPrefix) then
      var tail := name[|ProjectsPrefix|..];
      var k := SlashIndex(tail);
      Some((tail[..k], tail[k..]))
    else None
  }

  /** `tail` without its leading `segment`, when it starts with one. */
  function SplitSegment(tail: string, segment: string): Option<string> {
    if HasPrefix(tail, segment) then Some(tail[|segment|..]) else None
  }

  /** Recovers (project, instance) from an instance name. */
  function ParseInstanceName(name: string): Option<(string, string)> {
    match SplitProject(name)
    case None => None
    case Some((p, rest)) =>
      match SplitSegment(rest, InstancesSegment)
      case None => None
      case Some(i) => Some((p, i))
  }

  /** Recovers (project, config) from an instance-config name. */
  function ParseInstanceConfigName(name: string): Option<(string, string)> {
    match SplitProject(name)
    case None => None
    case Some((p, rest)) =>
      match SplitSegment(rest, InstanceConfigsSegment)
      case None => None
      case Some(c) => Some((p, c))
  }

  /** Recovers (project, instance, database) from a database name. */
  function ParseDatabaseName(name: string): Option<(string, string, string)> {
    match ParseInstanceName(name)
    case None => None
    case Some((p, tail)) =>
      var k := SlashIndex(tail);
      match SplitSegment(tail[k..], DatabasesSegment)
      case None => None
      case Some(d) => Some((p, tail[..k], d))
  }

  /** Recovers the database name from a CREATE statement. */
  function ParseCreateDatabaseStatement(statement: string): Option<string> {
    if |StatementPrefix| + |StatementSuffix| <= |statement|
       && statement[..|StatementPrefix|] == StatementPrefix
       && statement[|statement| - |StatementSuffix|..] == StatementSuffix
    then Some(statement[|StatementPrefix|..|statement| - |StatementSuffix|])
    else None
  }

  lemma {:induction false} SlashIndexOfConcat(p: string, rest: string)
    requires '/' !in p
    requires rest == [] || rest[0] == '/'
    ensures SlashIndex(p + rest) == |p|
  {
    if p != [] {
      assert (p + rest)[1..] == p[1..] + rest;
      SlashIndexOfConcat(p[1..], rest);
    }
  }

  lemma SplitProjectOf(p: string, rest: string)
    requires '/' !in p
    requires rest == [] || rest[0] == '/'
    ensures SplitProject(ProjectsPrefix + p + rest) == Some((p, rest))
  {
    var name := ProjectsPrefix + p + rest;
    assert name[..|ProjectsPrefix|] == ProjectsPrefix;
    assert name[|ProjectsPrefix|..] == p + rest;
    SlashIndexOfConcat(p, rest);
    assert (p + rest)[..|p|] == p;
    assert (p + rest)[|p|..] == rest;
  }

  lemma SplitSegmentOf(segment: string, x: string)
    ensures SplitSegment(segment + x, segment) == Some(x)
  {
    assert (segment + x)[..|segment|] == segment;
    assert (segment + x)[|segment|..] == x;
  }

  /** Every instance method addresses the instance it names: the name parses back. */
  lemma InstanceNameRoundTrip(projectId: string, instanceId: string)
    requires '/' !in projectId
    ensures ParseInstanceName(InstanceName(projectId, instanceId)) == Some((projectId, instanceId))
  {
    var rest := InstancesSegment + instanceId;
    assert InstanceName(projectId, instanceId) == ProjectsPrefix + projectId + rest;
    SplitProjectOf(projectId, rest);
    SplitSegmentOf(InstancesSegment, instanceId);
  }

  /** Two instance names are equal only for the same project and instance. */
  lemma InstanceNameInjective(p1: string, i1: string, p2: string, i2: string)
    requires '/' !in p1 && '/' !in p2
    requires InstanceName(p1, i1) == InstanceName(p2, i2)
    ensures p1 == p2 && i1 == i2
  {
    InstanceNameRoundTrip(p1, i1);
    InstanceNameRoundTrip(p2, i2);
  }

  lemma InstanceConfigNameRoundTrip(projectId: string, config: string)
    requires '/' !in projectId
    ensures ParseInstanceConfigName(InstanceConfigName(projectId, config)) == Some((projectId, config))
  {
    var rest := InstanceConfigsSegment + config;
    assert InstanceConfigName(projectId, config) == ProjectsPrefix + projectId + rest;
    SplitProjectOf(projectId, rest);
    SplitSegmentOf(InstanceConfigsSegment, config);
  }

  /** A database name parses back when neither project nor instance id holds '/'. */
  lemma DatabaseNameRoundTrip(projectId: string, instanceId: string, name: string)
    requires '/' !in projectId && '/' !in instanceId
    ensures ParseDatabaseName(DatabaseName(projectId, instanceId, name)) == Some((projectId, instanceId, name))
  {
    var tail := instanceId + DatabasesSegment + name;
    assert DatabaseName(projectId, instanceId, name) == InstanceName(projectId, tail);
    InstanceNameRoundTrip(projectId, tail);
    assert tail == instanceId + (DatabasesSegment + name);
    SlashIndexOfConcat(instanceId, DatabasesSegment + name);
    assert tail[..|instanceId|] == instanceId;
    assert tail[|instanceId|..] == DatabasesSegment + name;
    SplitSegmentOf(DatabasesSegment, name);
  }

  lemma CreateDatabaseStatementRoundTrip(name: string)
    ensures ParseCreateDatabaseStatement(CreateDatabaseStatement(name)) == Some(name)
  {
    var s := CreateDatabaseStatement(name);
    assert s[..|StatementPrefix|] == StatementPrefix;
    assert s[|s| - |StatementSuffix|..] == StatementSuffix;
    assert s[|StatementPrefix|..|s| - |StatementSuffix|] == name;
  }
}
