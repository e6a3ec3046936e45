/** The command-line helper's gcloud reader (`GetGCPDefaults` in package
    `helper`): an unknown region is replaced by a randomly chosen
    configuration. */
module HelperGcloud {
  import opened Base
  import opened GoStrings
  import InstanceConfig
  import HelperInstanceConfig
  import opened GcloudConfig

  /** Every draw is a value `rand.Intn` can return for the helper's bound. */
  predicate ValidDraws(draws: seq<int>) {
    forall i :: 0 <= i < |draws| ==> 0 <= draws[i] < HelperInstanceConfig.RandomBound()
  }

  /** The configuration the helper would choose at each line. */
  function RandomFallbacks(draws: seq<int>): (r: seq<string>)
    requires ValidDraws(draws)
    ensures |r| == |draws|
    ensures forall i :: 0 <= i < |draws| ==> r[i] == HelperInstanceConfig.GetRandomInstanceConfig(draws[i])
  {
    seq(|draws|, i requires 0 <= i < |draws| => HelperInstanceConfig.GetRandomInstanceConfig(draws[i]))
  }

  /** `GetGCPDefaults`, with `draws[i]` the value `rand.Intn` would return if
      line `i` needed a random configuration. */
  method GetGCPDefaults(setupError: Option<string>, lines: seq<string>, end: StreamEnd, draws: seq<int>)
    returns (projectId: string, instanceConfig: string, err: Option<string>)
    requires |draws| == |lines| && ValidDraws(draws)
    ensures setupError.Some? ==> projectId == "" && instanceConfig == "" && err == setupError
    ensures setupError.None? && end.ReadError? ==>
              projectId == "" && instanceConfig == "" && err == Some(end.message)
    ensures setupError.None? && end.Eof? ==>
              err.None? && Defaults(projectId, instanceConfig) == Read(lines, RandomFallbacks(draws))
  {
    if setupError.Some? {
      return "", "", setupError;
    }
    ghost var fallbacks := RandomFallbacks(draws);
    projectId, instanceConfig := "", "";
    var i := 0;
    while i < |lines|
      invariant 0 <= i <= |lines|
      invariant Defaults(projectId, instanceConfig) == Read(lines[..i], fallbacks[..i])
    {
      ReadSnoc(lines, fallbacks, i);
      var s := lines[i];
      if HasPrefix(s, ProjectPrefix) {
        projectId := TrimPrefix(s, ProjectPrefix);
      }
      if HasPrefix(s, RegionPrefix) {
        instanceConfig := RegionConfig(s);
        var c := HelperInstanceConfig.FindInstanceConfigByName(instanceConfig);
        HelperInstanceConfig.FindAgrees(RegionConfig(s));
        if c == HelperInstanceConfig.InstanceConfigUndefined {
          instanceConfig := HelperInstanceConfig.GetRandomInstanceConfig(draws[i]);
        }
      }
      i := i + 1;
    }
    assert lines[..i] == lines && fallbacks[..i] == fallbacks;
    if end.ReadError? {
      return "", "", Some(end.message);
    }
    err := None;
  }

  /** Whatever the draws, the helper returns an entry of the table, or the
      empty string when the file has no region line. */
  lemma ReadConfigInTable(lines: seq<string>, draws: seq<int>)
    requires |draws| == |lines| && ValidDraws(draws)
    ensures var c := Read(lines, RandomFallbacks(draws)).instanceConfig;
            c == "" || c in HelperInstanceConfig.Table
  {
    HelperInstanceConfig.SameTable();
    ReadInstanceConfigRange(lines, RandomFallbacks(draws));
  }

  /** The random replacement can be "undefined": a file with the line
      `region = europe-west1` and the draw 0 yields it. */
  lemma EuropeWest1MayReadUndefined()
    ensures ValidDraws([0])
    ensures Read([RegionPrefix + "europe-west1"], RandomFallbacks([0])).instanceConfig == "undefined"
  {
    assert RandomFallbacks([0]) == ["undefined"];
    EuropeWest1FallsBack("undefined");
  }
}
