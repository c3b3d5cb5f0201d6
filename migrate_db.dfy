/**
 * The add-missing-columns migration (`python -m src.migrate_db`): appends the metadata
 * columns that later versions read to the `cards` table, one `ALTER TABLE ... ADD
 * COLUMN` per column that is not there yet. The table is represented by its column
 * names in declaration order; rows only gain NULL cells and are not represented.
 */
module MigrateDb {
  import opened Wrappers

  /** The columns the migration adds, in the order it adds them. */
  const NewColumns: seq<string> := [
    "illustrator", "evolve_from", "description", "attacks", "abilities", "weaknesses",
    "resistances", "retreat_cost", "effect", "trainer_type", "energy_type", "regulation_mark",
    "variants"]

  /** How a run ends. */
  datatype Report =
    | DatabaseNotFound                 // exit status 1, nothing opened
    | Added(count: nat)                // "Migration complete! Added <count> columns."
    | AlreadyUpToDate

  /**
   * The names of `wanted`, in order, that are not in `existing`; the source checks
   * each name against the column list read once before the loop.
   */
  function Missing(existing: seq<string>, wanted: seq<string>): (r: seq<string>)
    ensures forall c :: c in r <==> c in wanted && c !in existing
    ensures |r| <= |wanted|
  {
    if wanted == [] then []
    else if wanted[0] in existing then Missing(existing, wanted[1..])
    else [wanted[0]] + Missing(existing, wanted[1..])
  }

  /** The column list after the run: the old columns, then the missing ones in order. */
  function ColumnsAfter(existing: seq<string>): seq<string>
  {
    existing + Missing(existing, NewColumns)
  }

  /**
   * `migrate_database`. `cards` is the column list of the `cards` table, `None` when
   * the file has no such table: then every `ALTER TABLE` fails, the error is printed and
   * nothing is added.
   */
  method MigrateDatabase(dbExists: bool, cards: Option<seq<string>>)
    returns (report: Report, after: Option<seq<string>>)
    ensures !dbExists ==> report == DatabaseNotFound && after == cards
    ensures dbExists && cards.None? ==> report == AlreadyUpToDate && after == None
    ensures dbExists && cards.Some? ==> after == Some(ColumnsAfter(cards.value))
    ensures dbExists && cards.Some? ==>
      report == (if Missing(cards.value, NewColumns) == [] then AlreadyUpToDate
                 else Added(|Missing(cards.value, NewColumns)|))
  {
    if !dbExists {
      return DatabaseNotFound, cards;
    }
    var existing: seq<string> := if cards.Some? then cards.value else [];
    var columns, addedCount := AddColumns(existing, NewColumns, cards.Some?);
    after := if cards.Some? then Some(columns) else None;
    report := if addedCount > 0 then Added(addedCount) else AlreadyUpToDate;
  }

  /**
   * The loop of `migrate_database`: an `ALTER TABLE cards ADD COLUMN` for each wanted name
   * not in the column list read before the loop; each succeeds exactly when the table exists
   * (the names are compared as written, while SQLite compares column names ignoring case).
   */
  method AddColumns(existing: seq<string>, wanted: seq<string>, tableExists: bool)
    returns (columns: seq<string>, addedCount: nat)
    ensures tableExists ==> columns == existing + Missing(existing, wanted)
    ensures tableExists ==> addedCount == |Missing(existing, wanted)|
    ensures !tableExists ==> columns == existing && addedCount == 0
  {
    columns := existing;
    addedCount := 0;
    var i := 0;
    while i < |wanted|
      invariant 0 <= i <= |wanted|
      invariant tableExists ==> columns == existing + Missing(existing, wanted[..i])
      invariant tableExists ==> addedCount == |Missing(existing, wanted[..i])|
      invariant !tableExists ==> columns == existing && addedCount == 0
    {
      var name := wanted[i];
      if name !in existing && tableExists {
        columns := columns + [name];
        addedCount := addedCount + 1;
      }
      MissingSnoc(existing, wanted[..i], name);
      assert wanted[..i + 1] == wanted[..i] + [name];
      i := i + 1;
    }
    assert wanted[..i] == wanted;
  }

  /** `Missing` grows one wanted name at a time. */
  lemma {:induction false} MissingSnoc(existing: seq<string>, wanted: seq<string>, name: string)
    ensures Missing(existing, wanted + [name]) ==
      Missing(existing, wanted) + (if name in existing then [] else [name])
    decreases |wanted|
  {
    if wanted == [] {
      assert wanted + [name] == [name];
    } else {
      assert (wanted + [name])[1..] == wanted[1..] + [name];
      MissingSnoc(existing, wanted[1..], name);
    }
  }

  /** After a run every listed column is a column of `cards`, and the old columns come first, unchanged. */
  lemma AllPresentAfter(existing: seq<string>)
    ensures forall c :: c in NewColumns ==> c in ColumnsAfter(existing)
    ensures ColumnsAfter(existing)[..|existing|] == existing
  {
  }

  lemma {:induction false} MissingNone(existing: seq<string>, wanted: seq<string>)
    requires forall c :: c in wanted ==> c in existing
    ensures Missing(existing, wanted) == []
  {
    if wanted != [] {
      MissingNone(existing, wanted[1..]);
    }
  }

  /** A second run finds nothing to add. */
  lemma SecondRunAddsNothing(existing: seq<string>)
    ensures Missing(ColumnsAfter(existing), NewColumns) == []
    ensures ColumnsAfter(ColumnsAfter(existing)) == ColumnsAfter(existing)
  {
    MissingNone(ColumnsAfter(existing), NewColumns);
  }

  /** The number of added columns is the number of listed names that were not there before. */
  lemma {:induction false} AddedIsMissingCount(existing: seq<string>, wanted: seq<string>)
    requires forall i, j :: 0 <= i < j < |wanted| ==> wanted[i] != wanted[j]
    ensures |Missing(existing, wanted)| == |set c | c in wanted && c !in existing|
    decreases |wanted|
  {
    if wanted != [] {
      var w := wanted[0];
      AddedIsMissingCount(existing, wanted[1..]);
      var tail := set c | c in wanted[1..] && c !in existing;
      var all := set c | c in wanted && c !in existing;
      assert w !in wanted[1..] by {
        forall j | 0 <= j < |wanted[1..]| ensures wanted[1..][j] != w {
          assert wanted[1..][j] == wanted[j + 1];
        }
      }
      if w in existing {
        assert all == tail;
      } else {
        assert all == tail + {w};
      }
    }
  }
}
