/**
 * What a run of the v1→v2 migration guarantees, stated over the specification in
 * `Migration`: how the legacy rows are grouped, which files a run leaves behind, what the
 * counters add up to, and what the database holds after a run.
 */
module MigrationProps {
  import opened Wrappers
  import opened Models
  import opened Store
  import opened Schema
  import opened Paths
  import opened Migration
  import opened MigrationWrites
  import opened MigrationValues
  import Clock

  // ---------------------------------------------------------------- grouping

  /** A row whose id is absent contributes no holding to that id. */
  lemma {:induction false} HoldingsOfAbsent(rows: seq<OwnedCard>, id: string)
    requires id !in Ids(rows)
    ensures HoldingsOf(rows, id) == []
    decreases |rows|
  {
    if rows != [] {
      var init := rows[..|rows| - 1];
      assert rows == init + [rows[|rows| - 1]];
      assert Ids(init) <= Ids(rows);
      HoldingsOfAbsent(init, id);
    }
  }

  /** The holdings of every id after one more row. */
  lemma HoldingsOfSnoc(init: seq<OwnedCard>, c: OwnedCard, id: string)
    ensures HoldingsOf(init + [c], id) == HoldingsOf(init, id) + (if c.tcgdexId == id then [HoldingOf(c)] else [])
  {
    assert (init + [c])[..|init + [c]| - 1] == init;
  }

  /** What `GroupById` promises of its groups, for the rows `rows`. */
  predicate GroupsOf(gs: seq<Group>, rows: seq<OwnedCard>)
  {
    DistinctIds(gs) && GroupIds(gs) == Ids(rows) &&
    forall i :: 0 <= i < |gs| ==> gs[i].holdings == HoldingsOf(rows, gs[i].id)
  }

  /** A row of a known id goes to the end of that id's group. */
  lemma AddToGroup(gs: seq<Group>, init: seq<OwnedCard>, c: OwnedCard, j: nat)
    requires GroupsOf(gs, init) && j < |gs| && gs[j].id == c.tcgdexId
    ensures GroupsOf(gs[j := Group(c.tcgdexId, gs[j].holdings + [HoldingOf(c)])], init + [c])
  {
    var rows := init + [c];
    var gs1 := gs[j := Group(c.tcgdexId, gs[j].holdings + [HoldingOf(c)])];
    assert Ids(rows) == Ids(init) + {c.tcgdexId};
    forall k | 0 <= k < |gs1| ensures gs1[k].holdings == HoldingsOf(rows, gs1[k].id) {
      HoldingsOfSnoc(init, c, gs1[k].id);
    }
    assert GroupIds(gs1) == GroupIds(gs) by {
      forall g | g in gs ensures g.id in GroupIds(gs1) {
        var k :| 0 <= k < |gs| && gs[k] == g;
        assert gs1[k].id == g.id;
      }
    }
  }

  /** A row of a new id opens a group at the end. */
  lemma AddNewGroup(gs: seq<Group>, init: seq<OwnedCard>, c: OwnedCard)
    requires GroupsOf(gs, init) && forall k :: 0 <= k < |gs| ==> gs[k].id != c.tcgdexId
    ensures GroupsOf(gs + [Group(c.tcgdexId, [HoldingOf(c)])], init + [c])
  {
    var rows := init + [c];
    var gs1 := gs + [Group(c.tcgdexId, [HoldingOf(c)])];
    assert Ids(rows) == Ids(init) + {c.tcgdexId};
    assert c.tcgdexId !in GroupIds(gs);
    HoldingsOfAbsent(init, c.tcgdexId);
    forall k | 0 <= k < |gs1| ensures gs1[k].holdings == HoldingsOf(rows, gs1[k].id) {
      HoldingsOfSnoc(init, c, gs1[k].id);
    }
    assert GroupIds(gs1) == GroupIds(gs) + {c.tcgdexId};
  }

  /**
   * `cards_by_id` holds each legacy id once, holds exactly the legacy ids, and gives each
   * id its rows in row order.
   */
  lemma {:induction false} GroupByIdSpec(rows: seq<OwnedCard>)
    ensures GroupsOf(GroupById(rows), rows)
    decreases |rows|
  {
    if rows != [] {
      var init, c := rows[..|rows| - 1], rows[|rows| - 1];
      assert rows == init + [c];
      GroupByIdSpec(init);
      var gs0 := GroupById(init);
      match FindGroup(gs0, c.tcgdexId)
      case Some(j) => AddToGroup(gs0, init, c, j);
      case None => AddNewGroup(gs0, init, c);
    }
  }

  /** Groups with distinct ids are as many as their ids. */
  lemma {:induction false} DistinctCount(gs: seq<Group>)
    requires DistinctIds(gs)
    ensures |GroupIds(gs)| == |gs|
    decreases |gs|
  {
    if gs != [] {
      var init := gs[..|gs| - 1];
      assert gs == init + [gs[|gs| - 1]];
      assert GroupIds(gs) == GroupIds(init) + {gs[|gs| - 1].id};
      assert gs[|gs| - 1].id !in GroupIds(init);
      DistinctCount(init);
    }
  }

  // ---------------------------------------------------------------- files a run leaves

  /**
   * A file that is empty, already v2, or of a layout the migration does not know is
   * only opened: the run reports why it stops and writes nothing else.
   */
  lemma NotLegacyRun(files: Files, dbPath: Path, backups: Path, now: Clock.DateTime, env: Env,
                     dryRun: bool, script: seq<TableDef>)
    requires now.Valid() && ScriptShaped(script)
    requires dbPath in files ==> WellShaped(files[dbPath])
    ensures var version := DetectSchemaVersion(Opened(files, dbPath));
            var r := Migrate(files, dbPath, backups, now, env, dryRun, script);
            (version == 0 ==> r == Run(Skipped(EmptyReason), files[dbPath := Opened(files, dbPath)])) &&
            (version == 2 ==> r == Run(Skipped(AlreadyV2Reason), files[dbPath := Opened(files, dbPath)])) &&
            (version == -1 ==> r == Run(Refused(UnknownReason), files[dbPath := Opened(files, dbPath)])) &&
            (r.outcome.Skipped? || r.outcome.Refused? <==> version != 1)
  {
  }

  /** A run writes the database file and, unless it is a dry run, the backup; no other file. */
  lemma OtherFilesKept(files: Files, dbPath: Path, backups: Path, now: Clock.DateTime, env: Env,
                       dryRun: bool, script: seq<TableDef>)
    requires now.Valid() && ScriptShaped(script)
    requires dbPath in files ==> WellShaped(files[dbPath])
    ensures var r := Migrate(files, dbPath, backups, now, env, dryRun, script);
            forall p :: p in files && p != dbPath && (dryRun || p != BackupPath(backups, now)) ==>
              p in r.files && r.files[p] == files[p]
  {
    var db := Opened(files, dbPath);
    var current := files[dbPath := db];
    var r := Migrate(files, dbPath, backups, now, env, dryRun, script);
    if DetectSchemaVersion(db) == 1 && (dryRun || BackupPath(backups, now) != dbPath) {
      var backedUp := if dryRun then current else current[BackupPath(backups, now) := db];
      assert r == MigrateLegacy(backedUp, dbPath, db, env, dryRun, script);
      assert r.files == backedUp[dbPath := r.files[dbPath]];
    } else {
      assert r.files == current;
    }
  }

  /** A dry run of an existing file changes no file. */
  lemma DryRunLeavesFiles(files: Files, dbPath: Path, backups: Path, now: Clock.DateTime, env: Env,
                          script: seq<TableDef>)
    requires now.Valid() && ScriptShaped(script)
    requires dbPath in files && WellShaped(files[dbPath])
    ensures Migrate(files, dbPath, backups, now, env, true, script).files == files
  {
    assert files[dbPath := files[dbPath]] == files;
  }

  /** Once a real run of a v1 file gets past the backup, the backup holds the file as it was. */
  lemma BackupHoldsOriginal(files: Files, dbPath: Path, backups: Path, now: Clock.DateTime, env: Env,
                            script: seq<TableDef>)
    requires now.Valid() && ScriptShaped(script)
    requires dbPath in files ==> WellShaped(files[dbPath])
    requires DetectSchemaVersion(Opened(files, dbPath)) == 1 && BackupPath(backups, now) != dbPath
    ensures var r := Migrate(files, dbPath, backups, now, env, false, script);
            BackupPath(backups, now) in r.files && r.files[BackupPath(backups, now)] == Opened(files, dbPath)
  {
  }

  /** A leftover `cards_v1_backup` stops a real run at the rename, with the file as it was. */
  lemma LeftoverBackupTableStopsRun(files: Files, dbPath: Path, backups: Path, now: Clock.DateTime, env: Env,
                                    script: seq<TableDef>)
    requires now.Valid() && ScriptShaped(script)
    requires dbPath in files && WellShaped(files[dbPath])
    requires DetectSchemaVersion(files[dbPath]) == 1 && BackupPath(backups, now) != dbPath
    requires ReadLegacy(files[dbPath]).Ok?
    requires "cards_v1_backup" in files[dbPath].tables && "card_cache" !in files[dbPath].tables
    ensures var r := Migrate(files, dbPath, backups, now, env, false, script);
            r.outcome == Raised("there is already another table or index with this name: " + "cards_v1_backup") &&
            r.files[dbPath] == files[dbPath]
  {
    var db := files[dbPath];
    RunReachesConvert(files, dbPath, backups, now, env, script);
    BackupTableBlocksRename(db);
    ConvertRaisesAtRename(files[BackupPath(backups, now) := db], dbPath, db, ReadLegacy(db).value, env, script);
  }

  /** Without a card cache, a leftover `cards_v1_backup` makes the first rename fail. */
  lemma BackupTableBlocksRename(db: Store)
    requires WellShaped(db) && "cards" in db.tables && "cards_v1_backup" in db.tables && "card_cache" !in db.tables
    ensures RenameLegacy(db) == Renamed(db, Some("there is already another table or index with this name: " + "cards_v1_backup"))
  {
    var e := "there is already another table or index with this name: " + "cards_v1_backup";
    assert Rename(db, "cards", "cards_v1_backup") == Err(e);
    assert RenameLegacy(db) == Renamed(db, Some(e));
  }

  /** A failed rename ends the conversion with its error, the file holding what the renames left. */
  lemma ConvertRaisesAtRename(backedUp: Files, dbPath: Path, db: Store, rows: seq<OwnedCard>, env: Env,
                              script: seq<TableDef>)
    requires WellShaped(db) && ScriptShaped(script) && dbPath in backedUp && RenameLegacy(db).error.Some?
    ensures Convert(backedUp, dbPath, db, rows, env, script) ==
            Run(Raised(RenameLegacy(db).error.value), backedUp[dbPath := RenameLegacy(db).store])
  {
  }

  // ---------------------------------------------------------------- a completed run

  /** The card loop a completed run went through, and where it started. */
  lemma CompletedRun(files: Files, dbPath: Path, backups: Path, now: Clock.DateTime, env: Env,
                     dryRun: bool, script: seq<TableDef>)
    returns (rows: seq<OwnedCard>, start: Store, p: Progress)
    requires now.Valid() && ScriptShaped(script)
    requires dbPath in files ==> WellShaped(files[dbPath])
    requires Migrate(files, dbPath, backups, now, env, dryRun, script).outcome.Completed?
    ensures DetectSchemaVersion(Opened(files, dbPath)) == 1 && ReadLegacy(Opened(files, dbPath)) == Ok(rows)
    ensures WellShaped(start) && MigrateGroups(env, dryRun, GroupById(rows), Progress(NoStats, [], start)) == Ok(p)
    ensures var o := Migrate(files, dbPath, backups, now, env, dryRun, script).outcome;
            o.stats == p.stats && o.failures == p.failures
    ensures dryRun ==> start == Opened(files, dbPath)
    ensures !dryRun ==>
              RenameLegacy(Opened(files, dbPath)).error.None? &&
              start == ExecuteScript(RenameLegacy(Opened(files, dbPath)).store, script) &&
              Validate(p.view).Ok? &&
              Migrate(files, dbPath, backups, now, env, dryRun, script).outcome.validation == Some(Validate(p.view).value) &&
              Migrate(files, dbPath, backups, now, env, dryRun, script).files[dbPath] == p.view
  {
    var db := Opened(files, dbPath);
    rows := ReadLegacy(db).value;
    if dryRun {
      start := db;
    } else {
      var renamed := RenameLegacy(db);
      ScriptKeepsShape(renamed.store, script);
      start := ExecuteScript(renamed.store, script);
    }
    p := MigrateGroups(env, dryRun, GroupById(rows), Progress(NoStats, [], start)).value;
  }

  /** A permutation of the legacy rows has the same ids. */
  lemma PermutedIds(a: seq<OwnedCard>, b: seq<OwnedCard>)
    requires multiset(a) == multiset(b)
    ensures Ids(a) == Ids(b)
  {
    assert forall c :: c in a <==> c in multiset(a);
    assert forall c :: c in b <==> c in multiset(b);
  }

  /** The card loop over `cards_by_id` accounts for every distinct id once. */
  lemma GroupCounts(env: Env, dryRun: bool, rows: seq<OwnedCard>, start: Store, p: Progress)
    requires WellShaped(start)
    requires MigrateGroups(env, dryRun, GroupById(rows), Progress(NoStats, [], start)) == Ok(p)
    ensures p.stats.cardsMigrated + p.stats.cardsFailed == |Ids(rows)|
    ensures |p.failures| == p.stats.cardsFailed
    ensures p.stats.loadedFromJson <= |Ids(rows)| && p.stats.fetchedFromApi <= |Ids(rows)|
  {
    GroupByIdSpec(rows);
    DistinctCount(GroupById(rows));
    MigrateGroupsCounts(env, dryRun, GroupById(rows), Progress(NoStats, [], start));
  }

  /**
   * The counters of a completed run: every distinct legacy id is either migrated or
   * failed, and every failed card has exactly one entry in the failure list.
   */
  lemma CompletedCounts(files: Files, dbPath: Path, backups: Path, now: Clock.DateTime, env: Env,
                        dryRun: bool, script: seq<TableDef>)
    requires now.Valid() && ScriptShaped(script)
    requires dbPath in files ==> WellShaped(files[dbPath])
    requires Migrate(files, dbPath, backups, now, env, dryRun, script).outcome.Completed?
    ensures var db := Opened(files, dbPath);
            var o := Migrate(files, dbPath, backups, now, env, dryRun, script).outcome;
            "cards" in db.tables && db.tables["cards"].rows.Ownership? &&
            o.stats.cardsMigrated + o.stats.cardsFailed == |Ids(db.tables["cards"].rows.owned)| &&
            |o.failures| == o.stats.cardsFailed &&
            o.stats.loadedFromJson <= |Ids(db.tables["cards"].rows.owned)| &&
            o.stats.fetchedFromApi <= |Ids(db.tables["cards"].rows.owned)|
  {
    var db := Opened(files, dbPath);
    var rows, start, p := CompletedRun(files, dbPath, backups, now, env, dryRun, script);
    GroupCounts(env, dryRun, rows, start, p);
    PermutedIds(rows, db.tables["cards"].rows.owned);
  }

  // ---------------------------------------------------------------- a run with the v2 script

  /** An id that has rows has holdings. */
  lemma {:induction false} HoldingsOfPresent(rows: seq<OwnedCard>, c: OwnedCard)
    requires c in rows
    ensures HoldingOf(c) in HoldingsOf(rows, c.tcgdexId)
    decreases |rows|
  {
    var init, last := rows[..|rows| - 1], rows[|rows| - 1];
    assert rows == init + [last];
    if c != last {
      HoldingsOfPresent(init, c);
    }
  }

  /** Every holding of an id comes from a row of that id. */
  lemma {:induction false} HoldingsOfSource(rows: seq<OwnedCard>, id: string, h: Holding)
    requires h in HoldingsOf(rows, id)
    ensures exists c :: c in rows && c.tcgdexId == id && HoldingOf(c) == h
    decreases |rows|
  {
    var init, last := rows[..|rows| - 1], rows[|rows| - 1];
    assert rows == init + [last];
    if h !in HoldingsOf(init, id) {
      assert last.tcgdexId == id && HoldingOf(last) == h;
    } else {
      HoldingsOfSource(init, id, h);
    }
  }

  /** The `(tcgdex_id, variant, language)` keys of the legacy rows. */
  function LegacyOwned(rows: seq<OwnedCard>): set<(string, string, string)>
  {
    set c | c in rows :: (c.tcgdexId, c.variant, c.language)
  }

  /** The `(tcgdex_id, language)` pairs of the legacy rows. */
  function LegacyNames(rows: seq<OwnedCard>): set<(string, string)>
  {
    set c | c in rows :: (c.tcgdexId, c.language)
  }

  /** The keys the groups of `cards_by_id` call for all come from legacy rows. */
  lemma {:induction false} HeldWithin(gs: seq<Group>, rows: seq<OwnedCard>)
    requires forall i :: 0 <= i < |gs| ==> gs[i].holdings == HoldingsOf(rows, gs[i].id)
    ensures HeldOwned(gs) <= LegacyOwned(rows) && HeldNames(gs) <= LegacyNames(rows)
    decreases |gs|
  {
    if gs != [] {
      var init, g := gs[..|gs| - 1], gs[|gs| - 1];
      HeldWithin(init, rows);
      forall h | h in g.holdings
        ensures (g.id, h.variant, h.language) in LegacyOwned(rows) && (g.id, h.language) in LegacyNames(rows)
      {
        HoldingsOfSource(rows, g.id, h);
        var c :| c in rows && c.tcgdexId == g.id && HoldingOf(c) == h;
        assert (c.tcgdexId, c.variant, c.language) in LegacyOwned(rows);
        assert (c.tcgdexId, c.language) in LegacyNames(rows);
      }
    }
  }

  /** The tables the v2 script creates where none of them was. */
  lemma V2Tables(t: Store)
    requires "cards" !in t.tables && "card_names" !in t.tables && "owned_cards" !in t.tables
    ensures var s := ExecuteScript(t, V2Script());
            s.tables["cards"] == Table(CardColumns, Cards(map[])) &&
            s.tables["card_names"] == Table(NameColumns, Names(map[])) &&
            s.tables["owned_cards"] == Table(OwnedColumns, Owned(map[]))
  {
    var script := V2Script();
    assert |"cards"| == 5 && |"card_names"| == 10 && |"owned_cards"| == 11;
    assert script[0].name == "cards" && script[1].name == "card_names" && script[2].name == "owned_cards";
    ScriptCreatesThree(t, script);
  }

  /** A script of three distinct new tables creates each of them empty. */
  lemma ScriptCreatesThree(t: Store, script: seq<TableDef>)
    requires |script| == 3
    requires script[0].name != script[1].name && script[0].name != script[2].name && script[1].name != script[2].name
    requires script[0].name !in t.tables && script[1].name !in t.tables && script[2].name !in t.tables
    ensures ExecuteScript(t, script).tables[script[0].name] == Table(script[0].columns, script[0].empty)
    ensures ExecuteScript(t, script).tables[script[1].name] == Table(script[1].columns, script[1].empty)
    ensures ExecuteScript(t, script).tables[script[2].name] == Table(script[2].columns, script[2].empty)
  {
    var s1 := CreateIfNotExists(t, script[0]);
    var s2 := CreateIfNotExists(s1, script[1]);
    var s3 := CreateIfNotExists(s2, script[2]);
    calc {
      ExecuteScript(t, script);
      ExecuteScript(s1, script[1..]);
      { assert script[1..][1..] == script[2..]; }
      ExecuteScript(s2, script[2..]);
      { assert script[2..][1..] == []; }
      ExecuteScript(s3, []);
    }
  }

  /** Empty tables with the v2 columns: the card loop's starting point. */
  lemma EmptyV2Tables(s: Store)
    requires WellShaped(s)
    requires "cards" in s.tables && s.tables["cards"] == Table(CardColumns, Cards(map[]))
    requires "card_names" in s.tables && s.tables["card_names"] == Table(NameColumns, Names(map[]))
    requires "owned_cards" in s.tables && s.tables["owned_cards"] == Table(OwnedColumns, Owned(map[]))
    ensures LoopInv(s, [], 0)
  {
    assert CardKeys(s) == {} && NameKeys(s) == {} && OwnedKeys(s) == {};
  }

  /** The store the v2 script builds after the renames: the three tables, empty, classified as v2. */
  lemma V2Start(t: Store)
    requires WellShaped(t) && "cards" !in t.tables && "card_names" !in t.tables && "owned_cards" !in t.tables
    ensures LoopInv(ExecuteScript(t, V2Script()), [], 0)
    ensures DetectSchemaVersion(ExecuteScript(t, V2Script())) == 2
  {
    ScriptKeepsShape(t, V2Script());
    V2ScriptIsVersionTwo(t);
    V2Tables(t);
    EmptyV2Tables(ExecuteScript(t, V2Script()));
  }

  /** The classification reads only the table names and their columns. */
  lemma VersionKept(a: Store, b: Store)
    requires Untouched(a, b)
    ensures DetectSchemaVersion(a) == DetectSchemaVersion(b)
  {
    assert Columns(a, "cards") == Columns(b, "cards");
    assert a.tables == map[] <==> b.tables == map[] by {
      assert a.tables.Keys == b.tables.Keys;
    }
  }

  /**
   * A v1 file the migration can convert: its legacy rows can be read, no table of an
   * earlier attempt is in the way, and every legacy id splits on `-`.
   */
  predicate Convertible(db: Store)
  {
    WellShaped(db) && DetectSchemaVersion(db) == 1 && ReadLegacy(db).Ok? &&
    "cards_v1_backup" !in db.tables && ("card_cache" in db.tables ==> "card_cache_v1_backup" !in db.tables) &&
    "card_names" !in db.tables && "owned_cards" !in db.tables &&
    forall c :: c in db.tables["cards"].rows.owned ==> '-' in c.tcgdexId
  }

  /** Every group of a convertible file's rows has a well-formed id. */
  lemma ConvertibleParses(db: Store)
    requires Convertible(db)
    ensures AllParsable(GroupById(ReadLegacy(db).value))
  {
    var rows := ReadLegacy(db).value;
    var gs := GroupById(rows);
    GroupByIdSpec(rows);
    PermutedIds(rows, db.tables["cards"].rows.owned);
    forall i | 0 <= i < |gs| ensures '-' in gs[i].id {
      assert gs[i].id in GroupIds(gs);
      var c :| c in db.tables["cards"].rows.owned && c.tcgdexId == gs[i].id;
    }
  }

  /** The store a real run of a convertible file starts its card loop from. */
  lemma ConvertibleStart(db: Store) returns (start: Store)
    requires Convertible(db)
    ensures RenameLegacy(db).error.None? && start == ExecuteScript(RenameLegacy(db).store, V2Script())
    ensures LoopInv(start, [], 0) && DetectSchemaVersion(start) == 2
    ensures "cards_v1_backup" in start.tables && start.tables["cards_v1_backup"] == db.tables["cards"]
    ensures "card_cache" in db.tables ==>
              "card_cache_v1_backup" in start.tables && start.tables["card_cache_v1_backup"] == db.tables["card_cache"]
  {
    var renamed := RenameLegacy(db);
    assert "cards" !in renamed.store.tables;
    V2Start(renamed.store);
    start := ExecuteScript(renamed.store, V2Script());
  }

  /** The card loop of a real run of a convertible file, from the store the v2 script built. */
  lemma ConvertibleLoop(db: Store, env: Env) returns (start: Store, p: Progress)
    requires Convertible(db)
    ensures RenameLegacy(db).error.None? && start == ExecuteScript(RenameLegacy(db).store, V2Script())
    ensures WellShaped(start) && DetectSchemaVersion(start) == 2
    ensures MigrateGroups(env, false, GroupById(ReadLegacy(db).value), Progress(NoStats, [], start)) == Ok(p)
    ensures LoopInv(p.view, GroupById(ReadLegacy(db).value), p.stats.cardsMigrated)
    ensures Untouched(start, p.view) && Validate(p.view).Ok?
  {
    var rows := ReadLegacy(db).value;
    start := ConvertibleStart(db);
    ConvertibleParses(db);
    GroupByIdSpec(rows);
    var p0 := Progress(NoStats, [], start);
    p := MigrateGroups(env, false, GroupById(rows), p0).value;
    MigrateGroupsKeepsInv(env, GroupById(rows), p0);
    assert p.view.tables.Keys == start.tables.Keys;
  }

  /** A real run of a v1 file whose legacy rows can be read goes on to the conversion. */
  lemma RunReachesConvert(files: Files, dbPath: Path, backups: Path, now: Clock.DateTime, env: Env,
                          script: seq<TableDef>)
    requires now.Valid() && ScriptShaped(script) && dbPath in files && WellShaped(files[dbPath])
    requires DetectSchemaVersion(files[dbPath]) == 1 && ReadLegacy(files[dbPath]).Ok? && BackupPath(backups, now) != dbPath
    ensures Migrate(files, dbPath, backups, now, env, false, script) ==
            Convert(files[BackupPath(backups, now) := files[dbPath]], dbPath, files[dbPath],
                    ReadLegacy(files[dbPath]).value, env, script)
  {
    var db := files[dbPath];
    assert files[dbPath := db] == files;
    V1RunReachesLegacy(files, dbPath, backups, now, env, false, script);
    LegacyRunConverts(files[BackupPath(backups, now) := db], dbPath, db, env, script);
  }

  /** A v1 file that the backup would not overwrite goes on to read its legacy rows. */
  lemma V1RunReachesLegacy(files: Files, dbPath: Path, backups: Path, now: Clock.DateTime, env: Env,
                           dryRun: bool, script: seq<TableDef>)
    requires now.Valid() && ScriptShaped(script)
    requires dbPath in files ==> WellShaped(files[dbPath])
    requires DetectSchemaVersion(Opened(files, dbPath)) == 1 && (dryRun || BackupPath(backups, now) != dbPath)
    ensures var db := Opened(files, dbPath);
            Migrate(files, dbPath, backups, now, env, dryRun, script) ==
            MigrateLegacy(if dryRun then files[dbPath := db] else files[dbPath := db][BackupPath(backups, now) := db],
                          dbPath, db, env, dryRun, script)
  {
  }

  /** Readable legacy rows in a real run go on to the conversion. */
  lemma LegacyRunConverts(backedUp: Files, dbPath: Path, db: Store, env: Env, script: seq<TableDef>)
    requires WellShaped(db) && ScriptShaped(script) && dbPath in backedUp && backedUp[dbPath] == db
    requires ReadLegacy(db).Ok?
    ensures MigrateLegacy(backedUp, dbPath, db, env, false, script) ==
            Convert(backedUp, dbPath, db, ReadLegacy(db).value, env, script)
  {
  }

  /** Once the renames succeed, the conversion populates what the script created. */
  lemma ConvertPopulates(backedUp: Files, dbPath: Path, db: Store, rows: seq<OwnedCard>, env: Env,
                         script: seq<TableDef>)
    requires WellShaped(db) && ScriptShaped(script) && dbPath in backedUp && RenameLegacy(db).error.None?
    ensures WellShaped(ExecuteScript(RenameLegacy(db).store, script))
    ensures Convert(backedUp, dbPath, db, rows, env, script) ==
            Populate(backedUp, dbPath, ExecuteScript(RenameLegacy(db).store, script), rows, env)
  {
    ScriptKeepsShape(RenameLegacy(db).store, script);
  }

  /** A card loop that gets through and a validation that answers complete the run. */
  lemma PopulateCompletes(backedUp: Files, dbPath: Path, created: Store, rows: seq<OwnedCard>, env: Env, p: Progress)
    requires WellShaped(created) && dbPath in backedUp
    requires MigrateGroups(env, false, GroupById(rows), Progress(NoStats, [], created)) == Ok(p)
    requires Validate(p.view).Ok?
    ensures Populate(backedUp, dbPath, created, rows, env) ==
            Run(Completed(p.stats, p.failures, Some(Validate(p.view).value)), backedUp[dbPath := p.view])
  {
  }

  /**
   * A real run of a convertible file with the v2 script completes; the file holds what the
   * card loop wrote, and the backup holds the file as it was.
   */
  lemma ConvertibleRun(files: Files, dbPath: Path, backups: Path, now: Clock.DateTime, env: Env)
    returns (start: Store, p: Progress)
    requires now.Valid() && dbPath in files && Convertible(files[dbPath]) && BackupPath(backups, now) != dbPath
    ensures WellShaped(start) && DetectSchemaVersion(start) == 2
    ensures start == ExecuteScript(RenameLegacy(files[dbPath]).store, V2Script())
    ensures LoopInv(p.view, GroupById(ReadLegacy(files[dbPath]).value), p.stats.cardsMigrated)
    ensures MigrateGroups(env, false, GroupById(ReadLegacy(files[dbPath]).value), Progress(NoStats, [], start)) == Ok(p)
    ensures Untouched(start, p.view) && Validate(p.view).Ok?
    ensures Migrate(files, dbPath, backups, now, env, false, V2Script()) ==
            Run(Completed(p.stats, p.failures, Some(Validate(p.view).value)),
                files[BackupPath(backups, now) := files[dbPath]][dbPath := p.view])
  {
    var db := files[dbPath];
    var rows := ReadLegacy(db).value;
    start, p := ConvertibleLoop(db, env);
    RunReachesConvert(files, dbPath, backups, now, env, V2Script());
    var backedUp := files[BackupPath(backups, now) := db];
    ConvertPopulates(backedUp, dbPath, db, rows, env, V2Script());
    PopulateCompletes(backedUp, dbPath, start, rows, env, p);
  }

  /** The validation queries over a store the card loop left: what they count, and no orphans. */
  lemma ValidateLinked(s: Store)
    requires WellShaped(s) && Ready(s) && Linked(s)
    ensures Validate(s).Ok?
    ensures Validate(s).value.cardsCount == |CardKeys(s)| && Validate(s).value.ownedCount == |OwnedKeys(s)|
    ensures Validate(s).value.namesCount == |NameKeys(s)|
    ensures Validate(s).value.orphanedOwned == 0 && Validate(s).value.orphanedNames == 0
  {
    assert "name" in CardColumns;
    assert s.tables["cards"].rows.Cards? by {
      assert Shaped("cards", s.tables["cards"]);
    }
    var ids := CardIds(s.tables["cards"]);
    assert ids == CardKeys(s);
    assert s.tables["card_names"].rows.Names? && s.tables["owned_cards"].rows.Owned? by {
      assert Shaped("card_names", s.tables["card_names"]) && Shaped("owned_cards", s.tables["owned_cards"]);
    }
    OrphanCountZero(s.tables["card_names"], ids);
    OrphanCountZero(s.tables["owned_cards"], ids);
  }

  /** Once a card is written, so is at least one ownership row. */
  lemma WrittenCardOwned(rows: seq<OwnedCard>, s: Store, migrated: nat)
    requires LoopInv(s, GroupById(rows), migrated) && migrated > 0
    ensures |OwnedKeys(s)| > 0
  {
    var gs := GroupById(rows);
    GroupByIdSpec(rows);
    var id :| id in CardKeys(s);
    var i :| 0 <= i < |gs| && gs[i].id == id;
    var c :| c in rows && c.tcgdexId == id;
    HoldingsOfPresent(rows, c);
    var h := HoldingOf(c);
    assert (id, h.variant, h.language) in OwnedFor(id, gs[i].holdings);
  }

  /**
   * A real run of a convertible file with the v2 script completes; validation finds no
   * orphaned names or ownership rows, counts one card per migrated card, and calls the
   * result valid exactly when at least one card was migrated.
   */
  lemma V2RunValidates(files: Files, dbPath: Path, backups: Path, now: Clock.DateTime, env: Env)
    requires now.Valid() && dbPath in files && Convertible(files[dbPath]) && BackupPath(backups, now) != dbPath
    ensures var r := Migrate(files, dbPath, backups, now, env, false, V2Script());
            r.outcome.Completed? && r.outcome.validation.Some? &&
            r.outcome.validation.value.orphanedOwned == 0 && r.outcome.validation.value.orphanedNames == 0 &&
            r.outcome.validation.value.cardsCount == r.outcome.stats.cardsMigrated &&
            (r.outcome.validation.value.isValid <==> r.outcome.stats.cardsMigrated > 0)
  {
    var start, p := ConvertibleRun(files, dbPath, backups, now, env);
    ValidateLinked(p.view);
    if p.stats.cardsMigrated > 0 {
      WrittenCardOwned(ReadLegacy(files[dbPath]).value, p.view, p.stats.cardsMigrated);
    }
  }

  /** What the card loop leaves, measured against legacy rows it read in some order. */
  lemma LoopContents(rows: seq<OwnedCard>, legacy: seq<OwnedCard>, s: Store, migrated: nat)
    requires multiset(rows) == multiset(legacy) && LoopInv(s, GroupById(rows), migrated)
    ensures forall c :: c in legacy && c.tcgdexId in CardKeys(s) ==>
              (c.tcgdexId, c.variant, c.language) in OwnedKeys(s) && (c.tcgdexId, c.language) in NameKeys(s)
    ensures CardKeys(s) <= Ids(legacy) && OwnedKeys(s) <= LegacyOwned(legacy) && NameKeys(s) <= LegacyNames(legacy)
  {
    PermutedKeys(rows, legacy);
    LoopRowsWritten(rows, s, migrated);
    LoopKeysLegacy(rows, s, migrated);
  }

  /** Legacy rows read in another order have the same members and the same keys. */
  lemma PermutedKeys(a: seq<OwnedCard>, b: seq<OwnedCard>)
    requires multiset(a) == multiset(b)
    ensures forall c :: c in a <==> c in b
    ensures Ids(a) == Ids(b) && LegacyOwned(a) == LegacyOwned(b) && LegacyNames(a) == LegacyNames(b)
  {
    assert forall c :: c in a <==> c in multiset(a);
    assert forall c :: c in b <==> c in multiset(b);
  }

  /** Every legacy row of a card in the card table has its ownership row and its name. */
  lemma LoopRowsWritten(rows: seq<OwnedCard>, s: Store, migrated: nat)
    requires LoopInv(s, GroupById(rows), migrated)
    ensures forall c :: c in rows && c.tcgdexId in CardKeys(s) ==>
              (c.tcgdexId, c.variant, c.language) in OwnedKeys(s) && (c.tcgdexId, c.language) in NameKeys(s)
  {
    var gs := GroupById(rows);
    GroupByIdSpec(rows);
    forall c | c in rows && c.tcgdexId in CardKeys(s)
      ensures (c.tcgdexId, c.variant, c.language) in OwnedKeys(s) && (c.tcgdexId, c.language) in NameKeys(s)
    {
      var i :| 0 <= i < |gs| && gs[i].id == c.tcgdexId;
      HoldingsOfPresent(rows, c);
      var h := HoldingOf(c);
      assert (c.tcgdexId, h.variant, h.language) in OwnedFor(c.tcgdexId, gs[i].holdings);
      assert (c.tcgdexId, h.language) in NamesFor(c.tcgdexId, gs[i].holdings);
    }
  }

  /** The card loop writes only keys that come from legacy rows. */
  lemma LoopKeysLegacy(rows: seq<OwnedCard>, s: Store, migrated: nat)
    requires LoopInv(s, GroupById(rows), migrated)
    ensures CardKeys(s) <= Ids(rows) && OwnedKeys(s) <= LegacyOwned(rows) && NameKeys(s) <= LegacyNames(rows)
  {
    var gs := GroupById(rows);
    GroupByIdSpec(rows);
    HeldWithin(gs, rows);
  }

  /** A table other than the three v2 tables is as it was. */
  lemma UntouchedKeeps(a: Store, b: Store, n: string)
    requires Untouched(a, b) && n in a.tables && n != "cards" && n != "card_names" && n != "owned_cards"
    ensures n in b.tables && b.tables[n] == a.tables[n]
  {
  }

  /**
   * What a completed real run with the v2 script leaves in the file: every migrated card
   * has an ownership row for each of its legacy rows and a name for each of their
   * languages, and every card, name and ownership row comes from the legacy rows.
   */
  lemma V2RunContents(files: Files, dbPath: Path, backups: Path, now: Clock.DateTime, env: Env)
    requires now.Valid() && dbPath in files && Convertible(files[dbPath]) && BackupPath(backups, now) != dbPath
    ensures var legacy := files[dbPath].tables["cards"].rows.owned;
            var after := Migrate(files, dbPath, backups, now, env, false, V2Script()).files[dbPath];
            (forall c :: c in legacy && c.tcgdexId in CardKeys(after) ==>
               (c.tcgdexId, c.variant, c.language) in OwnedKeys(after) && (c.tcgdexId, c.language) in NameKeys(after)) &&
            CardKeys(after) <= Ids(legacy) && OwnedKeys(after) <= LegacyOwned(legacy) && NameKeys(after) <= LegacyNames(legacy)
  {
    var db := files[dbPath];
    var start, p := ConvertibleRun(files, dbPath, backups, now, env);
    assert Migrate(files, dbPath, backups, now, env, false, V2Script()).files[dbPath] == p.view;
    LoopContents(ReadLegacy(db).value, db.tables["cards"].rows.owned, p.view, p.stats.cardsMigrated);
  }

  /**
   * After a completed real run with the v2 script, with the legacy rows in the order the
   * query returned them: each card row is the one extracted from the card's English
   * document, each name is that card's name localized into its language, and each
   * ownership row holds the quantity of the last legacy row with its id, variant and language.
   */
  lemma V2RunValues(files: Files, dbPath: Path, backups: Path, now: Clock.DateTime, env: Env)
    requires now.Valid() && dbPath in files && Convertible(files[dbPath]) && BackupPath(backups, now) != dbPath
    ensures var rows := ReadLegacy(files[dbPath]).value;
            var after := Migrate(files, dbPath, backups, now, env, false, V2Script()).files[dbPath];
            (forall id :: id in CardsOf(after) ==> DocRow(env, id) == Ok(CardsOf(after)[id])) &&
            (forall k :: k in NamesOf(after) ==>
               k.0 in CardsOf(after) && NamesOf(after)[k] == LocalizedName(env, CardOf(k.0, CardsOf(after)[k.0]), k.1)) &&
            (forall k :: k in OwnedOf(after) ==> OwnedOf(after)[k] == LastQuantity(rows, k))
  {
    var db := files[dbPath];
    var rows := ReadLegacy(db).value;
    var start, p := ConvertibleRun(files, dbPath, backups, now, env);
    assert Migrate(files, dbPath, backups, now, env, false, V2Script()).files[dbPath] == p.view;
    var start' := ConvertibleStart(db);
    KeysOfMaps(start);
    GroupByIdSpec(rows);
    MigrateGroupsValues(env, rows, GroupById(rows), Progress(NoStats, [], start));
  }

  /** The quantity written for a legacy row's key after a completed run is the last such row's. */
  lemma V2RunLastRowWins(files: Files, dbPath: Path, backups: Path, now: Clock.DateTime, env: Env, j: nat)
    requires now.Valid() && dbPath in files && Convertible(files[dbPath]) && BackupPath(backups, now) != dbPath
    requires var rows := ReadLegacy(files[dbPath]).value;
             j < |rows| &&
             forall i :: j < i < |rows| ==>
               (rows[i].tcgdexId, rows[i].variant, rows[i].language) != (rows[j].tcgdexId, rows[j].variant, rows[j].language)
    ensures var rows := ReadLegacy(files[dbPath]).value;
            var after := Migrate(files, dbPath, backups, now, env, false, V2Script()).files[dbPath];
            var k := (rows[j].tcgdexId, rows[j].variant, rows[j].language);
            k in OwnedOf(after) <==> rows[j].tcgdexId in CardsOf(after)
    ensures var rows := ReadLegacy(files[dbPath]).value;
            var after := Migrate(files, dbPath, backups, now, env, false, V2Script()).files[dbPath];
            var k := (rows[j].tcgdexId, rows[j].variant, rows[j].language);
            k in OwnedOf(after) ==> OwnedOf(after)[k] == rows[j].quantity
  {
    var db := files[dbPath];
    var rows := ReadLegacy(db).value;
    var after := Migrate(files, dbPath, backups, now, env, false, V2Script()).files[dbPath];
    V2RunValues(files, dbPath, backups, now, env);
    LastQuantityIsLast(rows, j);
    var start, p := ConvertibleRun(files, dbPath, backups, now, env);
    assert after == p.view;
    KeysOfMaps(after);
    LoopContents(rows, db.tables["cards"].rows.owned, after, p.stats.cardsMigrated);
    assert rows[j] in db.tables["cards"].rows.owned by {
      assert rows[j] in multiset(rows);
    }
  }

  /** A completed real run with the v2 script keeps the legacy tables under their backup names. */
  lemma V2RunKeepsLegacy(files: Files, dbPath: Path, backups: Path, now: Clock.DateTime, env: Env)
    requires now.Valid() && dbPath in files && Convertible(files[dbPath]) && BackupPath(backups, now) != dbPath
    ensures var db := files[dbPath];
            var after := Migrate(files, dbPath, backups, now, env, false, V2Script()).files[dbPath];
            "cards_v1_backup" in after.tables && after.tables["cards_v1_backup"] == db.tables["cards"] &&
            ("card_cache" in db.tables ==>
               "card_cache_v1_backup" in after.tables && after.tables["card_cache_v1_backup"] == db.tables["card_cache"])
  {
    var db := files[dbPath];
    var start, p := ConvertibleRun(files, dbPath, backups, now, env);
    assert Migrate(files, dbPath, backups, now, env, false, V2Script()).files[dbPath] == p.view;
    var _ := ConvertibleStart(db);
    UntouchedKeeps(start, p.view, "cards_v1_backup");
    if "card_cache" in db.tables {
      UntouchedKeeps(start, p.view, "card_cache_v1_backup");
    }
  }

  /** A file already classified as v2 is skipped and left as it is. */
  lemma V2FileSkipped(files: Files, dbPath: Path, backups: Path, now: Clock.DateTime, env: Env,
                      dryRun: bool, script: seq<TableDef>)
    requires now.Valid() && ScriptShaped(script)
    requires dbPath in files && WellShaped(files[dbPath]) && DetectSchemaVersion(files[dbPath]) == 2
    ensures Migrate(files, dbPath, backups, now, env, dryRun, script) == Run(Skipped(AlreadyV2Reason), files)
  {
    assert files[dbPath := files[dbPath]] == files;
  }

  /**
   * After a completed real run with the v2 script the file is classified as v2, so
   * running the migration again skips it and changes nothing.
   */
  lemma V2RunIsFinal(files: Files, dbPath: Path, backups: Path, now: Clock.DateTime, later: Clock.DateTime,
                     env: Env, env2: Env, dryRun: bool, script: seq<TableDef>)
    requires now.Valid() && later.Valid() && ScriptShaped(script)
    requires dbPath in files && Convertible(files[dbPath]) && BackupPath(backups, now) != dbPath
    ensures var r := Migrate(files, dbPath, backups, now, env, false, V2Script());
            DetectSchemaVersion(r.files[dbPath]) == 2 &&
            Migrate(r.files, dbPath, backups, later, env2, dryRun, script) == Run(Skipped(AlreadyV2Reason), r.files)
  {
    var start, p := ConvertibleRun(files, dbPath, backups, now, env);
    VersionKept(start, p.view);
    var r := Migrate(files, dbPath, backups, now, env, false, V2Script());
    assert r.files[dbPath] == p.view;
    V2FileSkipped(r.files, dbPath, backups, later, env2, dryRun, script);
  }

  // ---------------------------------------------------------------- the script as written

  /** Where the card insert fails, an iteration writes nothing and migrates no card. */
  lemma NoCardTableStep(env: Env, p: Progress, g: Group)
    requires WellShaped(p.view) && InsertError(p.view, "cards", CardColumns).Some?
    requires CardStep(env, false, p, g).Ok?
    ensures CardStep(env, false, p, g).value.view == p.view
    ensures CardStep(env, false, p, g).value.stats.cardsMigrated == p.stats.cardsMigrated
  {
    var setId, number, looked, data := CardStepCases(env, false, p, g);
  }

  /** Where the card insert fails, the card loop writes nothing and migrates no card. */
  lemma {:induction false} NoCardTableLoop(env: Env, gs: seq<Group>, p0: Progress)
    requires WellShaped(p0.view) && InsertError(p0.view, "cards", CardColumns).Some?
    requires MigrateGroups(env, false, gs, p0).Ok?
    ensures MigrateGroups(env, false, gs, p0).value.view == p0.view
    ensures MigrateGroups(env, false, gs, p0).value.stats.cardsMigrated == p0.stats.cardsMigrated
    decreases |gs|
  {
    if gs != [] {
      MigrateGroupsSnoc(env, false, gs, p0);
      NoCardTableLoop(env, gs[..|gs| - 1], p0);
      NoCardTableStep(env, MigrateGroups(env, false, gs[..|gs| - 1], p0).value, gs[|gs| - 1]);
    }
  }

  lemma LegacyTableNames(t: Store)
    requires "card_names" !in t.tables
    ensures var s := ExecuteScript(t, LegacyScript());
            "card_names" !in s.tables && "card_cache" in s.tables
  {
    LegacyScriptNames();
    ScriptLegacyNames(t, LegacyScript());
  }

  /** A script that declares only the legacy tables adds `card_cache` and no `card_names`. */
  lemma ScriptLegacyNames(t: Store, script: seq<TableDef>)
    requires (set d | d in script :: d.name) == {"cards", "card_cache", "set_cache"}
    requires "card_names" !in t.tables
    ensures "card_names" !in ExecuteScript(t, script).tables && "card_cache" in ExecuteScript(t, script).tables
  {
    var made: set<string> := {"cards", "card_cache", "set_cache"};
    assert "card_names" !in made by {
      assert |"card_names"| != |"cards"| && |"card_names"| != |"set_cache"|;
      assert "card_names"[5] != "card_cache"[5];
    }
  }

  /** The legacy script over a store without `cards` or `card_names`: an empty legacy `cards`, no `card_names`. */
  lemma LegacyTables(t: Store)
    requires "cards" !in t.tables && "card_names" !in t.tables
    ensures var s := ExecuteScript(t, LegacyScript());
            "cards" in s.tables && s.tables["cards"] == Table(LegacyCardColumns, Ownership([])) &&
            "card_names" !in s.tables && "card_cache" in s.tables
  {
    var script := LegacyScript();
    assert script[0].name == "cards";
    ScriptCreates(t, script, 0);
    LegacyTableNames(t);
  }

  /**
   * The v2 card insert into a legacy `cards` table fails: the first v2 column the table
   * lacks is `name`, so SQLite reports "table cards has no column named name".
   */
  lemma LegacyCardsLackName(s: Store)
    requires "cards" in s.tables && s.tables["cards"].columns == LegacyCardColumns
    ensures FirstMissing(s.tables["cards"].columns, CardColumns) == Some("name")
    ensures InsertError(s, "cards", CardColumns).Some?
  {
    var have := LegacyCardColumns;
    assert CardColumns[0] == have[3] && CardColumns[1] == have[1] && CardColumns[2] == have[2];
    assert CardColumns[3] == "name" && "name" !in have;
    assert FirstMissing(have, CardColumns[3..]) == Some("name");
    assert FirstMissing(have, CardColumns[2..]) == Some("name");
    assert FirstMissing(have, CardColumns[1..]) == Some("name");
  }

  /** The store the legacy script builds after the renames: a fresh, empty legacy `cards` table. */
  lemma LegacyStart(db: Store) returns (created: Store)
    requires Convertible(db)
    ensures RenameLegacy(db).error.None? && created == ExecuteScript(RenameLegacy(db).store, LegacyScript())
    ensures WellShaped(created)
    ensures created.tables["cards"] == Table(LegacyCardColumns, Ownership([]))
    ensures "card_names" !in created.tables && "card_cache" in created.tables
    ensures InsertError(created, "cards", CardColumns).Some?
  {
    var renamed := RenameLegacy(db);
    assert "cards" !in renamed.store.tables && "card_names" !in renamed.store.tables;
    ScriptKeepsShape(renamed.store, LegacyScript());
    created := ExecuteScript(renamed.store, LegacyScript());
    LegacyTables(renamed.store);
    LegacyCardsLackName(created);
  }

  /**
   * The migration as written runs the collection manager's legacy script where the v2
   * tables should be created. On a convertible file a real run then renames the legacy
   * tables away, recreates an empty legacy `cards` table, fails every card insert, and
   * raises in validation because `card_names` does not exist. The file is left with the
   * legacy rows only under `cards_v1_backup`, and it is still classified as v1.
   */
  lemma AsWrittenRunRaises(files: Files, dbPath: Path, backups: Path, now: Clock.DateTime, env: Env)
    requires now.Valid() && dbPath in files && Convertible(files[dbPath]) && BackupPath(backups, now) != dbPath
    ensures var r := Migrate(files, dbPath, backups, now, env, false, LegacyScript());
            r.outcome == Raised("no such table: card_names") &&
            r.files[dbPath] == ExecuteScript(RenameLegacy(files[dbPath]).store, LegacyScript()) &&
            r.files[dbPath].tables["cards"] == Table(LegacyCardColumns, Ownership([])) &&
            DetectSchemaVersion(r.files[dbPath]) == 1
  {
    var db := files[dbPath];
    var rows := ReadLegacy(db).value;
    var created := LegacyStart(db);
    ConvertibleParses(db);
    var p0 := Progress(NoStats, [], created);
    NoCardTableLoop(env, GroupById(rows), p0);
    RunReachesConvert(files, dbPath, backups, now, env, LegacyScript());
    var backedUp := files[BackupPath(backups, now) := db];
    ConvertPopulates(backedUp, dbPath, db, rows, env, LegacyScript());
    assert Populate(backedUp, dbPath, created, rows, env) == Run(Raised("no such table: card_names"), backedUp[dbPath := created]);
    assert "quantity" in LegacyCardColumns;
  }

  /** The file a run as written leaves behind still reads as a legacy file, with no rows. */
  lemma LegacyLeftoverReads(s: Store)
    requires "cards" in s.tables && s.tables["cards"] == Table(LegacyCardColumns, Ownership([]))
    requires WellShaped(s)
    ensures ReadLegacy(s) == Ok([])
  {
    var have := LegacyCardColumns;
    assert LegacySelect == [have[3], have[4], have[5], have[6]];
    assert forall c :: c in LegacySelect ==> c in have;
  }

  /** Renames into a store that already holds `cards_v1_backup` fail at the first backup name taken. */
  lemma RenameBlocked(s: Store)
    requires WellShaped(s) && "card_cache" in s.tables && "cards" in s.tables && "cards_v1_backup" in s.tables
    ensures RenameLegacy(s).error ==
            Some("there is already another table or index with this name: " +
                 (if "card_cache_v1_backup" in s.tables then "card_cache_v1_backup" else "cards_v1_backup"))
  {
    if "card_cache_v1_backup" !in s.tables {
      var s1 := Rename(s, "card_cache", "card_cache_v1_backup").value;
      assert "cards" in s1.tables && "cards_v1_backup" in s1.tables;
    }
  }

  /** Successful renames take `cards_v1_backup`, and `card_cache_v1_backup` where there was a card cache. */
  lemma RenamedBackups(db: Store)
    requires WellShaped(db) && RenameLegacy(db).error.None?
    ensures var renamed := RenameLegacy(db).store;
            "cards_v1_backup" in renamed.tables &&
            ("card_cache_v1_backup" in renamed.tables <==>
               "card_cache" in db.tables || "card_cache_v1_backup" in db.tables)
  {
  }

  /** The tables the first run as written leaves: both backup names are taken where the file had a card cache. */
  lemma LeftoverBackups(db: Store)
    requires WellShaped(db) && RenameLegacy(db).error.None?
    ensures var created := ExecuteScript(RenameLegacy(db).store, LegacyScript());
            "cards_v1_backup" in created.tables &&
            ("card_cache_v1_backup" in created.tables <==>
               "card_cache" in db.tables || "card_cache_v1_backup" in db.tables)
  {
    LegacyScriptNames();
    RenamedBackups(db);
    ScriptKeepsBackups(RenameLegacy(db).store, LegacyScript());
  }

  /** A script that declares only the legacy tables neither makes nor removes a backup table. */
  lemma ScriptKeepsBackups(s: Store, script: seq<TableDef>)
    requires (set d | d in script :: d.name) == {"cards", "card_cache", "set_cache"}
    ensures "cards_v1_backup" in ExecuteScript(s, script).tables <==> "cards_v1_backup" in s.tables
    ensures "card_cache_v1_backup" in ExecuteScript(s, script).tables <==> "card_cache_v1_backup" in s.tables
  {
    var made: set<string> := {"cards", "card_cache", "set_cache"};
    assert |"cards_v1_backup"| == 15 && |"card_cache_v1_backup"| == 20;
    assert "cards_v1_backup" !in made && "card_cache_v1_backup" !in made;
  }

  /**
   * A second run as written, once the first has raised, is stopped by the renames: the
   * backup tables the first run made are in the way, and the file cannot be converted.
   */
  lemma AsWrittenRerunFails(files: Files, dbPath: Path, backups: Path, now: Clock.DateTime, later: Clock.DateTime,
                            env: Env)
    requires now.Valid() && dbPath in files && Convertible(files[dbPath]) && BackupPath(backups, now) != dbPath
    requires later.Valid() && BackupPath(backups, later) != dbPath
    ensures var r := Migrate(files, dbPath, backups, now, env, false, LegacyScript());
            var again := Migrate(r.files, dbPath, backups, later, env, false, LegacyScript());
            again.outcome ==
              Raised("there is already another table or index with this name: " +
                     (if "card_cache" in files[dbPath].tables || "card_cache_v1_backup" in files[dbPath].tables
                      then "card_cache_v1_backup" else "cards_v1_backup"))
  {
    var db := files[dbPath];
    var created := LegacyStart(db);
    AsWrittenRunRaises(files, dbPath, backups, now, env);
    var r := Migrate(files, dbPath, backups, now, env, false, LegacyScript());
    assert r.files[dbPath] == created;
    LegacyLeftoverReads(created);
    LeftoverBackups(db);
    RenameBlocked(created);
    RunReachesConvert(r.files, dbPath, backups, later, env, LegacyScript());
  }
}
