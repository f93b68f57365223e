/** What a time-series query hands back to the server: a list of tables,
    each a list of records with tag columns, a value and a time. The query
    language and the client library are not modelled; a query result is an
    input. */
module Influx {
  import opened Common

  datatype Record = Record(tags: map<string, string>, value: Option<real>, time: Option<int>)

  type Table = seq<Record>

  /** The records in the order `for table in result: for record in table.records`
      visits them. */
  function Flatten(tables: seq<Table>): seq<Record>
  {
    if tables == [] then [] else Flatten(tables[..|tables| - 1]) + tables[|tables| - 1]
  }

  lemma {:induction false} FlattenAppend(a: seq<Table>, b: seq<Table>)
    ensures Flatten(a + b) == Flatten(a) + Flatten(b)
    decreases |b|
  {
    if b == [] {
      assert a + b == a;
    } else {
      var c := a + b;
      assert c[..|c| - 1] == a + b[..|b| - 1];
      FlattenAppend(a, b[..|b| - 1]);
    }
  }

  /** Cutting the list of tables around table `t`. */
  lemma FlattenAround(tables: seq<Table>, t: nat)
    requires t < |tables|
    ensures Flatten(tables[..t + 1]) == Flatten(tables[..t]) + tables[t]
    ensures Flatten(tables) == Flatten(tables[..t]) + tables[t] + Flatten(tables[t + 1..])
  {
    assert tables[..t + 1][..t] == tables[..t];
    assert tables == tables[..t + 1] + tables[t + 1..];
    FlattenAppend(tables[..t + 1], tables[t + 1..]);
  }

  lemma FlattenAll(tables: seq<Table>)
    ensures Flatten(tables[..|tables|]) == Flatten(tables)
  {
    assert tables[..|tables|] == tables;
  }
}
