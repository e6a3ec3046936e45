/** The linear search both instance-config tables use: the index of the first
    entry equal to a name, and 0 when no entry is. */
module ConfigTable {

  /** Index of the first entry equal to `name`, or `|table|` when there is none. */
  function IndexOf(table: seq<string>, name: string): (i: nat)
    ensures i <= |table|
    ensures i < |table| ==> table[i] == name
    ensures forall j :: 0 <= j < i ==> table[j] != name
  {
    if table == [] then 0
    else if table[0] == name then 0
    else 1 + IndexOf(table[1..], name)
  }

  /** What the search returns: the matching index, or 0 for an unknown name. */
  function Lookup(table: seq<string>, name: string): nat {
    var i := IndexOf(table, name);
    if i < |table| then i else 0
  }

  predicate Distinct(table: seq<string>) {
    forall i, j :: 0 <= i < j < |table| ==> table[i] != table[j]
  }

  /** `for i, c := range table { if c == name { return i } }; return 0` */
  method FindIndex(table: seq<string>, name: string) returns (r: nat)
    ensures name in table ==>
              r < |table| && table[r] == name && forall j :: 0 <= j < r ==> table[j] != name
    ensures name !in table ==> r == 0
    ensures r == Lookup(table, name)
  {
    var i := 0;
    while i < |table|
      invariant 0 <= i <= |table|
      invariant forall j :: 0 <= j < i ==> table[j] != name
    {
      if table[i] == name {
        return i;
      }
      i := i + 1;
    }
    return 0;
  }

  /** In a table without duplicates the search finds every entry at its own index. */
  lemma LookupRoundTrip(table: seq<string>, i: nat)
    requires Distinct(table)
    requires i < |table|
    ensures Lookup(table, table[i]) == i
  {
    var k := IndexOf(table, table[i]);
    assert k <= i;
  }

  /** A name missing from the table is searched to index 0. */
  lemma LookupUnknown(table: seq<string>, name: string)
    requires name !in table
    ensures Lookup(table, name) == 0
  {
  }
}
