/** The command-line helper's own copy of the instance-configuration table
    (package `helper`). Its constants carry an `InstanceConfig` prefix; the
    table is a second literal, shown here to agree entry for entry with the
    operator's table. */
module HelperInstanceConfig {
  import ConfigTable
  import InstanceConfig

  type HelperInstanceConfig = int

  const InstanceConfigUndefined: HelperInstanceConfig := 0
  const InstanceConfigRegionalUsWast1: HelperInstanceConfig := 21

  const Table: seq<string> := [
    "undefined",
    "eur3",
    "nam-eur-asia1",
    "nam3",
    "nam6",
    "regional-asia-east1",
    "regional-asia-east2",
    "regional-asia-northeast1",
    "regional-asia-northeast2",
    "regional-asia-south1",
    "regional-asia-southeast1",
    "regional-australia-southeast1",
    "regional-europe-north1",
    "regional-europe-west1",
    "regional-europe-west2",
    "regional-europe-west4",
    "regional-europe-west6",
    "regional-northamerica-northeast1",
    "regional-us-central1",
    "regional-us-east1",
    "regional-us-east4",
    "regional-us-west1"
  ]

  /** The two copies of the table are the same sequence. */
  lemma SameTable()
    ensures Table == InstanceConfig.Table
  {
  }

  function String(s: HelperInstanceConfig): string
    requires 0 <= s < |Table|
  {
    Table[s]
  }

  /** `String()` gives the package's name for the same value, and the name
      is found back to that value. */
  lemma StringRoundTrip(c: HelperInstanceConfig)
    requires 0 <= c < |Table|
    ensures String(c) == InstanceConfig.String(c) && Find(String(c)) == c
  {
    SameTable();
    InstanceConfig.FindByNameRoundTrip(c);
  }

  function Find(name: string): HelperInstanceConfig {
    ConfigTable.Lookup(Table, name)
  }

  method FindInstanceConfigByName(name: string) returns (c: HelperInstanceConfig)
    ensures 0 <= c < |Table|
    ensures name in Table ==> String(c) == name
    ensures name !in Table ==> c == InstanceConfigUndefined
    ensures c == Find(name)
  {
    c := ConfigTable.FindIndex(Table, name);
  }

  /** Both packages map every name to the same configuration number. */
  lemma FindAgrees(name: string)
    ensures Find(name) == InstanceConfig.Find(name)
  {
    SameTable();
  }

  const RandomMin: int := 1
  const RandomMax: int := |Table| - 1

  /** The argument given to `rand.Intn`: `(max - min) + min`. */
  function RandomBound(): int {
    (RandomMax - RandomMin) + RandomMin
  }

  /** `GetRandomInstanceConfig` with the value drawn by `rand.Intn` as input:
      the same biased choice as the operator's copy. */
  function GetRandomInstanceConfig(draw: int): (r: string)
    requires 0 <= draw < RandomBound()
    ensures r in Table && r != String(InstanceConfigRegionalUsWast1)
    ensures r == InstanceConfig.GetRandomInstanceConfig(draw)
  {
    SameTable();
    Table[draw]
  }
}
