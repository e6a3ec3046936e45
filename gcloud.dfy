/** The operator's gcloud reader (package `gcloud`): an unknown region gives
    an empty configuration. */
module Gcloud {
  import opened Base
  import opened GoStrings
  import InstanceConfig
  import opened GcloudConfig

  /** `n` empty fallbacks. */
  function Blanks(n: nat): (r: seq<string>)
    ensures |r| == n && forall i :: 0 <= i < n ==> r[i] == ""
  {
    seq(n, _ => "")
  }

  /** `GetDefaults`. Finding the home directory, reading the name of the
      active configuration and opening its file are summed up by
      `setupError`; `lines` are the lines read before the stream ended as
      `end` says. */
  method GetDefaults(setupError: Option<string>, lines: seq<string>, end: StreamEnd)
    returns (projectId: string, instanceConfig: string, err: Option<string>)
    ensures setupError.Some? ==> projectId == "" && instanceConfig == "" && err == setupError
    ensures setupError.None? && end.ReadError? ==>
              projectId == "" && instanceConfig == "" && err == Some(end.message)
    ensures setupError.None? && end.Eof? ==>
              err.None? && Defaults(projectId, instanceConfig) == Read(lines, Blanks(|lines|))
  {
    if setupError.Some? {
      return "", "", setupError;
    }
    ghost var fallbacks := Blanks(|lines|);
    projectId, instanceConfig := "", "";
    var i := 0;
    while i < |lines|
      invariant 0 <= i <= |lines|
      invariant Defaults(projectId, instanceConfig) == Read(lines[..i], fallbacks[..i])
    {
      ReadSnoc(lines, fallbacks, i);
      var s := lines[i];
      if HasPrefix(s, ProjectPrefix) {
        projectId := TrimPrefix(s, ProjectPrefix);
      }
      if HasPrefix(s, RegionPrefix) {
        instanceConfig := RegionConfig(s);
        var c := InstanceConfig.FindByName(instanceConfig);
        if c == InstanceConfig.Undefined {
          instanceConfig := "";
        }
      }
      i := i + 1;
    }
    assert lines[..i] == lines && fallbacks[..i] == fallbacks;
    if end.ReadError? {
      return "", "", Some(end.message);
    }
    err := None;
  }

  /** The configuration this reader returns is empty or a known entry of the
      table, never a name the operator cannot use. */
  lemma ReadConfigKnownOrEmpty(lines: seq<string>)
    ensures var c := Read(lines, Blanks(|lines|)).instanceConfig;
            c == "" || (c in InstanceConfig.Table && IsKnown(c))
  {
    ReadInstanceConfigRange(lines, Blanks(|lines|));
  }

  /** A region whose name starts with a cutset character is lost: a file with
      the line `region = europe-west1` yields no configuration. */
  lemma EuropeWest1ReadsEmpty()
    ensures Read([RegionPrefix + "europe-west1"], Blanks(1)).instanceConfig == ""
  {
    assert Blanks(1) == [""];
    EuropeWest1FallsBack("");
  }
}
