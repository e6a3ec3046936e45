/** What both gcloud readers do with the lines of the active gcloud
    configuration file: the last `project = ` line gives the project id, and
    the last `region = ` line gives a regional instance configuration, replaced
    by a fallback when it is not a known one. The two readers differ only in
    that fallback. */
module GcloudConfig {
  import opened GoStrings
  import InstanceConfig
  import ConfigTable

  const ProjectPrefix: string := "project = "
  const RegionPrefix: string := "region = "
  const RegionalPrefix: string := "regional-"

  /** How reading the file stopped after its last line: end of file, or an error. */
  datatype StreamEnd = Eof | ReadError(message: string)

  datatype Defaults = Defaults(projectId: string, instanceConfig: string)

  /** The configuration name built from a region line. `strings.Trim` is given
      the prefix as a CUTSET, so any of the characters of "region = " is
      stripped from both ends of the whole line. */
  function RegionConfig(line: string): string {
    RegionalPrefix + Trim(line, RegionPrefix)
  }

  /** The configuration is one `FindByName` recognises. */
  predicate IsKnown(config: string) {
    InstanceConfig.Find(config) != InstanceConfig.Undefined
  }

  /** A known configuration is kept; an unknown one gives way to the fallback. */
  function Resolve(config: string, fallback: string): string {
    if IsKnown(config) then config else fallback
  }

  /** The effect of one line on the values read so far. */
  function Step(d: Defaults, line: string, fallback: string): Defaults {
    var d' := if HasPrefix(line, ProjectPrefix) then d.(projectId := TrimPrefix(line, ProjectPrefix)) else d;
    if HasPrefix(line, RegionPrefix) then d'.(instanceConfig := Resolve(RegionConfig(line), fallback))
    else d'
  }

  /** The values left after reading `lines` in order, both starting empty;
      `fallbacks[i]` replaces an unknown configuration read from `lines[i]`. */
  function Read(lines: seq<string>, fallbacks: seq<string>): Defaults
    requires |fallbacks| == |lines|
  {
    if lines == [] then Defaults("", "")
    else
      var n := |lines| - 1;
      Step(Read(lines[..n], fallbacks[..n]), lines[n], fallbacks[n])
  }

  /** What one `Step` does to each field. */
  lemma StepFields(d: Defaults, line: string, fallback: string)
    ensures Step(d, line, fallback).projectId
            == if HasPrefix(line, ProjectPrefix) then TrimPrefix(line, ProjectPrefix) else d.projectId
    ensures Step(d, line, fallback).instanceConfig
            == if HasPrefix(line, RegionPrefix) then Resolve(RegionConfig(line), fallback) else d.instanceConfig
  {
  }

  /** Reading one more line is one more `Step`. */
  lemma ReadSnoc(lines: seq<string>, fallbacks: seq<string>, i: nat)
    requires |fallbacks| == |lines| && i < |lines|
    ensures Read(lines[..i + 1], fallbacks[..i + 1])
         == Step(Read(lines[..i], fallbacks[..i]), lines[i], fallbacks[i])
  {
    assert lines[..i + 1][..i] == lines[..i];
    assert fallbacks[..i + 1][..i] == fallbacks[..i];
  }

  /** Lines after the last project line leave the project id alone. */
  lemma {:induction false} ReadProjectIdTail(lines: seq<string>, fallbacks: seq<string>, k: nat)
    requires |fallbacks| == |lines| && k <= |lines|
    requires forall j :: k <= j < |lines| ==> !HasPrefix(lines[j], ProjectPrefix)
    ensures Read(lines, fallbacks).projectId == Read(lines[..k], fallbacks[..k]).projectId
    decreases |lines|
  {
    if k < |lines| {
      var n := |lines| - 1;
      StepFields(Read(lines[..n], fallbacks[..n]), lines[n], fallbacks[n]);
      assert lines[..n][..k] == lines[..k] && fallbacks[..n][..k] == fallbacks[..k];
      ReadProjectIdTail(lines[..n], fallbacks[..n], k);
    } else {
      assert lines[..k] == lines && fallbacks[..k] == fallbacks;
    }
  }

  /** The project id is what follows the prefix on the last project line. */
  lemma ReadProjectIdLast(lines: seq<string>, fallbacks: seq<string>, k: nat)
    requires |fallbacks| == |lines|
    requires k < |lines| && HasPrefix(lines[k], ProjectPrefix)
    requires forall j :: k < j < |lines| ==> !HasPrefix(lines[j], ProjectPrefix)
    ensures ProjectPrefix + Read(lines, fallbacks).projectId == lines[k]
  {
    ReadProjectIdTail(lines, fallbacks, k + 1);
    ReadSnoc(lines, fallbacks, k);
    StepFields(Read(lines[..k], fallbacks[..k]), lines[k], fallbacks[k]);
  }

  /** Without a project line the project id stays empty. */
  lemma {:induction false} ReadProjectIdNone(lines: seq<string>, fallbacks: seq<string>)
    requires |fallbacks| == |lines|
    requires forall j :: 0 <= j < |lines| ==> !HasPrefix(lines[j], ProjectPrefix)
    ensures Read(lines, fallbacks).projectId == ""
  {
    if lines != [] {
      var n := |lines| - 1;
      StepFields(Read(lines[..n], fallbacks[..n]), lines[n], fallbacks[n]);
      ReadProjectIdNone(lines[..n], fallbacks[..n]);
    }
  }

  /** Lines after the last region line leave the configuration alone. */
  lemma {:induction false} ReadInstanceConfigTail(lines: seq<string>, fallbacks: seq<string>, k: nat)
    requires |fallbacks| == |lines| && k <= |lines|
    requires forall j :: k <= j < |lines| ==> !HasPrefix(lines[j], RegionPrefix)
    ensures Read(lines, fallbacks).instanceConfig == Read(lines[..k], fallbacks[..k]).instanceConfig
    decreases |lines|
  {
    if k < |lines| {
      var n := |lines| - 1;
      StepFields(Read(lines[..n], fallbacks[..n]), lines[n], fallbacks[n]);
      assert lines[..n][..k] == lines[..k] && fallbacks[..n][..k] == fallbacks[..k];
      ReadInstanceConfigTail(lines[..n], fallbacks[..n], k);
    } else {
      assert lines[..k] == lines && fallbacks[..k] == fallbacks;
    }
  }

  /** The configuration comes from the last region line: its regional name
      when that is known, its fallback otherwise. */
  lemma ReadInstanceConfigLast(lines: seq<string>, fallbacks: seq<string>, k: nat)
    requires |fallbacks| == |lines|
    requires k < |lines| && HasPrefix(lines[k], RegionPrefix)
    requires forall j :: k < j < |lines| ==> !HasPrefix(lines[j], RegionPrefix)
    ensures Read(lines, fallbacks).instanceConfig == Resolve(RegionConfig(lines[k]), fallbacks[k])
  {
    ReadInstanceConfigTail(lines, fallbacks, k + 1);
    ReadSnoc(lines, fallbacks, k);
    StepFields(Read(lines[..k], fallbacks[..k]), lines[k], fallbacks[k]);
  }

  /** Without a region line the configuration stays empty. */
  lemma {:induction false} ReadInstanceConfigNone(lines: seq<string>, fallbacks: seq<string>)
    requires |fallbacks| == |lines|
    requires forall j :: 0 <= j < |lines| ==> !HasPrefix(lines[j], RegionPrefix)
    ensures Read(lines, fallbacks).instanceConfig == ""
  {
    if lines != [] {
      var n := |lines| - 1;
      StepFields(Read(lines[..n], fallbacks[..n]), lines[n], fallbacks[n]);
      ReadInstanceConfigNone(lines[..n], fallbacks[..n]);
    }
  }

  /** The configuration read is empty, a known configuration of the table, or
      one of the fallbacks. */
  lemma {:induction false} ReadInstanceConfigRange(lines: seq<string>, fallbacks: seq<string>)
    requires |fallbacks| == |lines|
    ensures var c := Read(lines, fallbacks).instanceConfig;
            c == "" || (c in InstanceConfig.Table && IsKnown(c)) || c in fallbacks
  {
    if lines != [] {
      var n := |lines| - 1;
      var d := Read(lines[..n], fallbacks[..n]);
      ReadInstanceConfigRange(lines[..n], fallbacks[..n]);
      StepFields(d, lines[n], fallbacks[n]);
      var c := RegionConfig(lines[n]);
      if IsKnown(c) && c !in InstanceConfig.Table {
        ConfigTable.LookupUnknown(InstanceConfig.Table, c);
      }
      assert d.instanceConfig in fallbacks[..n] ==> d.instanceConfig in fallbacks;
    }
  }

  /** A region whose first and last characters are outside the cutset keeps
      its name: `region = asia-east1` gives `regional-asia-east1`. */
  lemma RegionConfigOf(region: string)
    requires region != [] && region[0] !in RegionPrefix && region[|region| - 1] !in RegionPrefix
    ensures RegionConfig(RegionPrefix + region) == RegionalPrefix + region
  {
    TrimLeftOf(RegionPrefix, region, RegionPrefix);
  }

  /** A region that starts with a cutset character loses that character
      (and any cutset characters after it). */
  lemma RegionConfigDropsLeading(c: char, region: string)
    requires c in RegionPrefix
    requires region != [] && region[0] !in RegionPrefix && region[|region| - 1] !in RegionPrefix
    ensures RegionConfig(RegionPrefix + [c] + region) == RegionalPrefix + region
  {
    TrimLeftOf(RegionPrefix + [c], region, RegionPrefix);
  }

  /** The configuration name left of `europe-west1` matches no table entry. */
  lemma UropeWest1Unknown()
    ensures !IsKnown(RegionalPrefix + "urope-west1")
  {
    assert RegionalPrefix + "urope-west1" == "regional-urope-west1";
    assert "regional-urope-west1" !in InstanceConfig.Table;
    ConfigTable.LookupUnknown(InstanceConfig.Table, "regional-urope-west1");
  }

  lemma EuropeWest1Known()
    ensures IsKnown(RegionalPrefix + "europe-west1")
  {
    assert RegionalPrefix + "europe-west1" == InstanceConfig.String(InstanceConfig.RegionalEuropeWest1);
    InstanceConfig.FindByNameRoundTrip(InstanceConfig.RegionalEuropeWest1);
  }

  /** `region = europe-west1` is read as `regional-urope-west1`, which is not
      known, although `regional-europe-west1` is a known configuration. */
  lemma EuropeWest1Mangled()
    ensures RegionConfig(RegionPrefix + "europe-west1") == RegionalPrefix + "urope-west1"
    ensures !IsKnown(RegionConfig(RegionPrefix + "europe-west1"))
    ensures IsKnown(RegionalPrefix + "europe-west1")
  {
    assert RegionPrefix + "europe-west1" == RegionPrefix + ['e'] + "urope-west1";
    RegionConfigDropsLeading('e', "urope-west1");
    UropeWest1Unknown();
    EuropeWest1Known();
  }

  /** A file whose only line is `region = europe-west1` yields the fallback. */
  lemma EuropeWest1FallsBack(fallback: string)
    ensures Read([RegionPrefix + "europe-west1"], [fallback]).instanceConfig == fallback
  {
    EuropeWest1Mangled();
    var lines := [RegionPrefix + "europe-west1"];
    assert lines[..0] == [];
    assert [fallback][..0] == [];
  }

  /** The configuration name the code evidently intends: the region as written
      after the prefix. */
  function IntendedRegionConfig(line: string): string {
    RegionalPrefix + TrimPrefix(line, RegionPrefix)
  }

  /** Every region after the prefix, whatever its first character, is kept. */
  lemma IntendedRegionConfigOf(region: string)
    ensures IntendedRegionConfig(RegionPrefix + region) == RegionalPrefix + region
  {
    assert (RegionPrefix + region)[..|RegionPrefix|] == RegionPrefix;
  }

  lemma IntendedEuropeWest1()
    ensures IntendedRegionConfig("region = europe-west1") == InstanceConfig.String(InstanceConfig.RegionalEuropeWest1)
  {
    IntendedRegionConfigOf("europe-west1");
  }
}
