/** The enumeration of instance configurations and its 22-entry name table
    (package `instance_config`). */
module InstanceConfig {
  import ConfigTable

  /** Go's `type InstanceConfig int`. */
  type InstanceConfig = int

  const Undefined: InstanceConfig := 0
  const Eur3: InstanceConfig := 1
  const NamEurAsia1: InstanceConfig := 2
  const Nam3: InstanceConfig := 3
  const Nam6: InstanceConfig := 4
  const RegionalAsiaEast1: InstanceConfig := 5
  const RegionalAsiaEast2: InstanceConfig := 6
  const RegionalAsiaNortheast1: InstanceConfig := 7
  const RegionalAsiaNortheast2: InstanceConfig := 8
  const RegionalAsiaSouth1: InstanceConfig := 9
  const RegionalAsiaSoutheast1: InstanceConfig := 10
  const RegionalAustraliaSoutheast1: InstanceConfig := 11
  const RegionalEuropeNorth1: InstanceConfig := 12
  const RegionalEuropeWest1: InstanceConfig := 13
  const RegionalEuropeWest2: InstanceConfig := 14
  const RegionalEuropeWest4: InstanceConfig := 15
  const RegionalEuropeWest6: InstanceConfig := 16
  const RegionalNorthamericaNortheast1: InstanceConfig := 17
  const RegionalUsCentral1: InstanceConfig := 18
  const RegionalUsEast1: InstanceConfig := 19
  const RegionalUsEast4: InstanceConfig := 20
  const RegionalUsWast1: InstanceConfig := 21

  const Table: seq<string> := [
    "undefined",
    "eur3",
    "nam-eur-asia1",
    "nam3",
    "nam6",
    "regional-asia-east1",
    "regional-asia-east2",
    "regional-asia-northeast1",
    "regional-asia-northeast2",
    "regional-asia-south1",
    "regional-asia-southeast1",
    "regional-australia-southeast1",
    "regional-europe-north1",
    "regional-europe-west1",
    "regional-europe-west2",
    "regional-europe-west4",
    "regional-europe-west6",
    "regional-northamerica-northeast1",
    "regional-us-central1",
    "regional-us-east1",
    "regional-us-east4",
    "regional-us-west1"
  ]

  /** `InstanceConfig.String()`: indexing a Go array, which panics out of range. */
  function String(s: InstanceConfig): string
    requires 0 <= s < |Table|
  {
    Table[s]
  }

  /** The value `FindByName` computes. */
  function Find(name: string): InstanceConfig {
    ConfigTable.Lookup(Table, name)
  }

  method FindByName(name: string) returns (c: InstanceConfig)
    ensures 0 <= c < |Table|
    ensures name in Table ==> String(c) == name
    ensures name !in Table ==> c == Undefined
    ensures c == Find(name)
  {
    c := ConfigTable.FindIndex(Table, name);
  }

  /** No entry of the table after index `i` repeats the entry at `i`. */
  lemma TableRowDistinct(i: int)
    requires 0 <= i < |Table|
    ensures forall j :: i < j < |Table| ==> Table[i] != Table[j]
  {
  }

  lemma TableDistinct()
    ensures ConfigTable.Distinct(Table)
  {
    forall i | 0 <= i < |Table| {
      TableRowDistinct(i);
    }
  }

  /** Every configuration's name is searched back to that configuration. */
  lemma FindByNameRoundTrip(c: InstanceConfig)
    requires 0 <= c < |Table|
    ensures Find(String(c)) == c
  {
    TableDistinct();
    ConfigTable.LookupRoundTrip(Table, c);
  }

  /** "undefined" and any name outside the table both give `Undefined`. */
  lemma FindUndefined(name: string)
    ensures Find("undefined") == Undefined
    ensures name !in Table ==> Find(name) == Undefined
  {
    if name !in Table {
      ConfigTable.LookupUnknown(Table, name);
    }
  }

  lemma RegionalUsWast1Name()
    ensures String(RegionalUsWast1) == "regional-us-west1"
  {
  }

  const RandomMin: int := 1
  const RandomMax: int := |Table| - 1

  /** The argument given to `rand.Intn`: `(max - min) + min`, that is 21. */
  function RandomBound(): int {
    (RandomMax - RandomMin) + RandomMin
  }

  /** `GetRandomInstanceConfig` with the value drawn by `rand.Intn` as input. */
  function GetRandomInstanceConfig(draw: int): (r: string)
    requires 0 <= draw < RandomBound()
    ensures r in Table[..RandomBound()]
    ensures r != String(RegionalUsWast1)
  {
    assert Table[draw] == Table[..RandomBound()][draw];
    Table[draw]
  }

  /** The draw 0 is possible and yields "undefined". */
  lemma RandomMayBeUndefined()
    ensures 0 < RandomBound() && GetRandomInstanceConfig(0) == String(Undefined)
  {
  }

  /** The choice the code evidently intends: an index drawn from `min` to
      `max` inclusive, so that every configuration but `Undefined` can come up. */
  function IntendedRandomInstanceConfig(draw: int): (r: string)
    requires 0 <= draw <= RandomMax - RandomMin
    ensures r in Table && r != String(Undefined)
  {
    Table[draw + RandomMin]
  }

  /** Every defined configuration is reachable by the intended choice. */
  lemma IntendedRandomCoversAll(c: InstanceConfig)
    requires Undefined < c < |Table|
    ensures 0 <= c - RandomMin <= RandomMax - RandomMin
    ensures IntendedRandomInstanceConfig(c - RandomMin) == String(c)
  {
  }
}
