/** Record flattening and serialise-or-fallback, as in app/utils.py. */
module Utils {
  import opened Wrappers
  import opened Json
  import opened Text

  /** The `"k: v"` part one key contributes to a flattened record. */
  function Part(field: (string, Json), show: Json -> string): string
  {
    field.0 + ": " + show(field.1)
  }

  /** The parts of a record, in its key iteration order. */
  function Parts(row: Record, show: Json -> string): (r: seq<string>)
    ensures |r| == |row|
  {
    if |row| == 0 then [] else Parts(row[..|row| - 1], show) + [Part(row[|row| - 1], show)]
  }

  /** The display text of one record: its parts joined by `" | "`. */
  function FlattenRow(row: Record, show: Json -> string): string
  {
    Join(Parts(row, show), " | ")
  }

  /** The display texts of a list of records, one per record. */
  function FlattenAll(rows: seq<Record>, show: Json -> string): (r: seq<string>)
    ensures |r| == |rows|
  {
    if |rows| == 0 then [] else FlattenAll(rows[..|rows| - 1], show) + [FlattenRow(rows[|rows| - 1], show)]
  }

  lemma {:induction false} PartsAt(row: Record, show: Json -> string, i: nat)
    requires i < |row|
    ensures Parts(row, show)[i] == Part(row[i], show)
  {
    if i < |row| - 1 {
      PartsAt(row[..|row| - 1], show, i);
    }
  }

  lemma {:induction false} PartsAppend(a: Record, b: Record, show: Json -> string)
    ensures Parts(a + b, show) == Parts(a, show) + Parts(b, show)
  {
    if |b| == 0 {
      assert a + b == a;
    } else {
      assert (a + b)[..|a + b| - 1] == a + b[..|b| - 1];
      PartsAppend(a, b[..|b| - 1], show);
    }
  }

  /** Element i of the flattened list depends on row i alone. */
  lemma {:induction false} FlattenAllAt(rows: seq<Record>, show: Json -> string, i: nat)
    requires i < |rows|
    ensures FlattenAll(rows, show)[i] == FlattenRow(rows[i], show)
  {
    if i < |rows| - 1 {
      FlattenAllAt(rows[..|rows| - 1], show, i);
    }
  }

  /** Flattening distributes over concatenation of the row list. */
  lemma {:induction false} FlattenAllAppend(a: seq<Record>, b: seq<Record>, show: Json -> string)
    ensures FlattenAll(a + b, show) == FlattenAll(a, show) + FlattenAll(b, show)
  {
    if |b| == 0 {
      assert a + b == a;
    } else {
      assert (a + b)[..|a + b| - 1] == a + b[..|b| - 1];
      FlattenAllAppend(a, b[..|b| - 1], show);
    }
  }

  /** A record with no keys flattens to the empty string; a one-key record to
      exactly `"k: v"`, with no separator. */
  lemma FlattenSmallRows(k: string, v: Json, show: Json -> string)
    ensures FlattenRow([], show) == ""
    ensures FlattenRow([(k, v)], show) == k + ": " + show(v)
  {
  }

  /** Splitting a record into two non-empty halves splits its display text at
      one `" | "`: each key's part appears in key order, once. */
  lemma FlattenRowAppend(a: Record, b: Record, show: Json -> string)
    requires |a| > 0 && |b| > 0
    ensures FlattenRow(a + b, show) == FlattenRow(a, show) + " | " + FlattenRow(b, show)
  {
    PartsAppend(a, b, show);
    JoinAppend(Parts(a, show), Parts(b, show), " | ");
  }

  /** `rows_to_text`: one flattened string per record, in order. */
  method RowsToText(rows: seq<Record>, show: Json -> string) returns (texts: seq<string>)
    ensures texts == FlattenAll(rows, show)
  {
    texts := [];
    for n := 0 to |rows|
      invariant texts == FlattenAll(rows[..n], show)
    {
      var row := rows[n];
      var parts: seq<string> := [];
      for j := 0 to |row|
        invariant parts == Parts(row[..j], show)
      {
        var (k, v) := row[j];
        parts := parts + [k + ": " + show(v)];
        assert row[..j + 1][..j] == row[..j];
      }
      assert row[..|row|] == row;
      texts := texts + [Join(parts, " | ")];
      assert rows[..n + 1][..n] == rows[..n];
    }
    assert rows[..|rows|] == rows;
  }

  /** The rows `name,age / Alice,30 / Bob,25` flatten to `"name: Alice | age: 30"`
      and `"name: Bob | age: 25"`, for any `str()` that renders a string as
      itself and 30 and 25 as their digits. */
  lemma PeopleExample(show: Json -> string)
    requires forall s :: show(JStr(s)) == s
    requires show(JInt(30)) == "30" && show(JInt(25)) == "25"
    ensures FlattenAll([[("name", JStr("Alice")), ("age", JInt(30))], [("name", JStr("Bob")), ("age", JInt(25))]], show)
         == ["name: Alice | age: 30", "name: Bob | age: 25"]
  {
    var alice: Record := [("name", JStr("Alice")), ("age", JInt(30))];
    var bob: Record := [("name", JStr("Bob")), ("age", JInt(25))];
    FlattenRowAppend([alice[0]], [alice[1]], show);
    FlattenRowAppend([bob[0]], [bob[1]], show);
    FlattenSmallRows("name", JStr("Alice"), show);
    FlattenSmallRows("age", JInt(30), show);
    FlattenSmallRows("name", JStr("Bob"), show);
    FlattenSmallRows("age", JInt(25), show);
    assert alice == [alice[0]] + [alice[1]];
    assert bob == [bob[0]] + [bob[1]];
    assert [alice, bob][..1] == [alice] && [alice][..0] == [];
    assert FlattenRow(alice, show) == "name: Alice | age: 30";
    assert FlattenRow(bob, show) == "name: Bob | age: 25";
    assert FlattenAll([alice], show) == [FlattenRow(alice, show)];
    assert FlattenAll([alice, bob], show) == FlattenAll([alice], show) + [FlattenRow(bob, show)];
  }

  /** `robust_json_dump`: the JSON serialisation when it succeeds, otherwise
      `str(obj)`; it never fails. */
  function RobustJsonDump(obj: Json, rt: Runtime): (r: string)
    ensures rt.dumps(obj).Some? ==> r == rt.dumps(obj).value
    ensures rt.dumps(obj).None? ==> r == rt.show(obj)
  {
    match rt.dumps(obj)
    case Some(s) => s
    case None => rt.show(obj)
  }
}
