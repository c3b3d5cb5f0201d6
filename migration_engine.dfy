/**
 * `migrate_v1_to_v2` as the step-by-step procedure it is: counters and the failure list
 * updated in place, `cards_by_id` built row by row, `languages_seen` grown per card, and
 * one write after another through the connection. Each method is proved to compute what
 * the specification in `Migration` describes.
 */
module MigrationEngine {
  import opened Wrappers
  import opened Payloads
  import opened Models
  import opened Store
  import opened Schema
  import opened Paths
  import opened Migration
  import Clock
  import Collection

  /** Builds `cards_by_id` from the legacy rows, in row order. */
  method GroupRows(rows: seq<OwnedCard>) returns (groups: seq<Group>)
    ensures groups == GroupById(rows)
  {
    groups := [];
    var i := 0;
    while i < |rows|
      invariant 0 <= i <= |rows|
      invariant groups == GroupById(rows[..i])
    {
      var c := rows[i];
      assert rows[..i + 1][..i] == rows[..i] && rows[..i + 1][i] == c;
      ghost var next := AddHolding(groups, c);
      var found := FindGroup(groups, c.tcgdexId);
      if found.None? {
        groups := groups + [Group(c.tcgdexId, [HoldingOf(c)])];
      } else {
        var j := found.value;
        groups := groups[j := Group(c.tcgdexId, groups[j].holdings + [HoldingOf(c)])];
      }
      assert groups == next;
      i := i + 1;
    }
    assert rows[..i] == rows;
  }

  /** The name loop over one more holding is one more step. */
  lemma NamesStep(env: Env, dryRun: bool, c: Card, hs: seq<Holding>, k: nat, view: Store)
    requires WellShaped(view) && k < |hs|
    ensures WellShaped(NamesPass(env, dryRun, c, hs[..k], view).view)
    ensures NamesPass(env, dryRun, c, hs[..k + 1], view) ==
            NameStep(env, dryRun, c, NamesPass(env, dryRun, c, hs[..k], view), hs[k])
  {
    assert hs[..k + 1][..k] == hs[..k] && hs[..k + 1][k] == hs[k];
  }

  /** The ownership loop over one more holding is one more step. */
  lemma OwnedStepOf(dryRun: bool, id: string, hs: seq<Holding>, k: nat, view: Store)
    requires WellShaped(view) && k < |hs|
    ensures WellShaped(OwnedPassOf(dryRun, id, hs[..k], view).view)
    ensures OwnedPassOf(dryRun, id, hs[..k + 1], view) == OwnedStep(dryRun, id, OwnedPassOf(dryRun, id, hs[..k], view), hs[k])
  {
    assert hs[..k + 1][..k] == hs[..k] && hs[..k + 1][k] == hs[k];
  }

  /** One holding of the name loop: a name for its language unless that language was seen. */
  method NameOnce(env: Env, dryRun: bool, c: Card, seen0: set<string>, count0: nat, view0: Store, h: Holding)
    returns (seen: set<string>, count: nat, after: Store)
    requires WellShaped(view0)
    ensures NamePass(seen, count, after) == NameStep(env, dryRun, c, NamePass(seen0, count0, view0), h)
  {
    seen, count, after := seen0, count0, view0;
    if h.language !in seen {
      seen := seen + {h.language};
      var name := LocalizedName(env, c, h.language);
      if !dryRun {
        var inserted := InsertName(after, c.id, h.language, name);
        if inserted.Ok? {
          after := inserted.value;
          count := count + 1;
        }
      } else {
        count := count + 1;
      }
    }
  }

  /** The name loop of one card: a name per language not seen before. */
  method InsertNames(env: Env, dryRun: bool, c: Card, holdings: seq<Holding>, view: Store)
    returns (count: nat, after: Store)
    requires WellShaped(view)
    ensures NamesPass(env, dryRun, c, holdings, view) == NamePass(Languages(holdings), count, after)
  {
    var seen: set<string> := {};
    count, after := 0, view;
    var i := 0;
    while i < |holdings|
      invariant 0 <= i <= |holdings|
      invariant NamesPass(env, dryRun, c, holdings[..i], view) == NamePass(seen, count, after)
    {
      NamesStep(env, dryRun, c, holdings, i, view);
      seen, count, after := NameOnce(env, dryRun, c, seen, count, after, holdings[i]);
      i := i + 1;
    }
    assert holdings[..i] == holdings;
  }

  /** The ownership loop of one card: one insert per legacy row. */
  method InsertOwnership(dryRun: bool, id: string, holdings: seq<Holding>, view: Store)
    returns (count: nat, after: Store)
    requires WellShaped(view)
    ensures OwnedPassOf(dryRun, id, holdings, view) == OwnedPass(count, after)
  {
    count, after := 0, view;
    var i := 0;
    while i < |holdings|
      invariant 0 <= i <= |holdings|
      invariant OwnedPassOf(dryRun, id, holdings[..i], view) == OwnedPass(count, after)
    {
      var h := holdings[i];
      OwnedStepOf(dryRun, id, holdings, i, view);
      ghost var next := OwnedStep(dryRun, id, OwnedPass(count, after), h);
      if !dryRun {
        var inserted := InsertOwned(after, id, h.variant, h.language, h.quantity);
        if inserted.Ok? {
          after := inserted.value;
          count := count + 1;
        }
      } else {
        count := count + 1;
      }
      assert OwnedPass(count, after) == next;
      i := i + 1;
    }
    assert holdings[..i] == holdings;
  }

  /** One iteration of the card loop. */
  method MigrateCard(env: Env, dryRun: bool, p: Progress, g: Group) returns (r: Result<Progress>)
    requires WellShaped(p.view)
    ensures r == CardStep(env, dryRun, p, g)
  {
    var parsed := Collection.ParseTcgdexId(g.id);
    if parsed.Err? {
      return Err(parsed.error);
    }
    var found := MigrateFoundCard(env, dryRun, p, g, parsed.value.0, parsed.value.1);
    return Ok(found);
  }

  /** The iteration after the id has been taken apart: count the lookup, then fail or write the card. */
  method MigrateFoundCard(env: Env, dryRun: bool, p: Progress, g: Group, setId: string, number: string)
    returns (r: Progress)
    requires WellShaped(p.view)
    ensures r == CardFound(env, dryRun, p, g, setId, number)
  {
    var fromFile, fromApi, cardData := LoadCardData(env, g.id, setId, number);
    ghost var lk := Lookup(fromFile, fromApi, cardData);
    var stats := p.stats;
    if fromFile {
      stats := stats.(loadedFromJson := stats.loadedFromJson + 1);
    }
    if fromApi {
      stats := stats.(fetchedFromApi := stats.fetchedFromApi + 1);
    }
    assert stats == Looked(p.stats, lk);
    if cardData.Err? {
      stats := stats.(cardsFailed := stats.cardsFailed + 1);
      return Progress(stats, p.failures + [(g.id, cardData.error)], p.view);
    }
    r := WriteCardData(env, dryRun, p, stats, g, setId, number, cardData.value);
  }

  /** The raw-data file first, then the catalog service; which of the two counted, and the document. */
  method LoadCardData(env: Env, id: string, setId: string, number: string)
    returns (fromFile: bool, fromApi: bool, cardData: Result<Json>)
    ensures Lookup(fromFile, fromApi, cardData) == LookupCard(env, id, setId, number)
  {
    var file := env.cardFile(id);
    fromFile, fromApi := file.Loaded?, false;
    var found: Option<Json> := None;
    if file.Loaded? {
      found := Some(file.json);
    }
    if found.None? || !found.value.Truthy() {
      var fetched := env.api("en", setId, number);
      if fetched.FetchFailed? {
        return fromFile, false, Err(fetched.message);
      }
      found := Some(fetched.json);
      fromApi := true;
    }
    cardData := Ok(found.value);
  }

  /** The rest of one iteration: extract, insert the card, its names and its ownership rows. */
  method WriteCardData(env: Env, dryRun: bool, p: Progress, looked: Stats, g: Group,
                       setId: string, number: string, j: Json) returns (r: Progress)
    requires WellShaped(p.view)
    ensures r == WriteCard(env, dryRun, p, looked, g, setId, number, j)
  {
    var stats := looked;
    var extracted := Extract(j, setId, number);
    if extracted.Err? {
      stats := stats.(cardsFailed := stats.cardsFailed + 1);
      return Progress(stats, p.failures + [(g.id, "Data extraction failed: " + extracted.error)], p.view);
    }
    var row := extracted.value;

    var view := p.view;
    if !dryRun {
      var inserted := InsertCard(view, g.id, row);
      if inserted.Err? {
        stats := stats.(cardsFailed := stats.cardsFailed + 1);
        return Progress(stats, p.failures + [(g.id, "Insert into cards failed: " + inserted.error)], p.view);
      }
      view := inserted.value;
    }
    r := WriteCardRows(env, dryRun, p, stats, g, Card(g.id, setId, number, row.name), view);
  }

  /** One more card migrated, then the card's names and its ownership rows. */
  method WriteCardRows(env: Env, dryRun: bool, p: Progress, looked: Stats, g: Group, c: Card, view: Store)
    returns (r: Progress)
    requires WellShaped(view)
    ensures r == CardWritten(env, dryRun, p, looked, g, c, view)
  {
    var stats := looked.(cardsMigrated := looked.cardsMigrated + 1);
    var names, afterNames := InsertNames(env, dryRun, c, g.holdings, view);
    stats := stats.(namesMigrated := stats.namesMigrated + names);
    var owned, afterOwned := InsertOwnership(dryRun, g.id, g.holdings, afterNames);
    stats := stats.(ownershipMigrated := stats.ownershipMigrated + owned);
    return Progress(stats, p.failures, afterOwned);
  }

  /** Once a prefix of the card loop has raised, the whole loop raises the same error. */
  lemma {:induction false} ErrorEndsLoop(env: Env, dryRun: bool, gs: seq<Group>, k: nat, p0: Progress)
    requires WellShaped(p0.view) && k <= |gs|
    requires MigrateGroups(env, dryRun, gs[..k], p0).Err?
    ensures MigrateGroups(env, dryRun, gs, p0) == MigrateGroups(env, dryRun, gs[..k], p0)
    decreases |gs|
  {
    if k == |gs| {
      assert gs[..k] == gs;
    } else {
      var init := gs[..|gs| - 1];
      assert init[..k] == gs[..k];
      ErrorEndsLoop(env, dryRun, init, k, p0);
    }
  }

  /** The card loop over one more group is one more step. */
  lemma LoopStep(env: Env, dryRun: bool, gs: seq<Group>, k: nat, p0: Progress, p: Progress)
    requires WellShaped(p0.view) && k < |gs|
    requires MigrateGroups(env, dryRun, gs[..k], p0) == Ok(p)
    ensures WellShaped(p.view)
    ensures MigrateGroups(env, dryRun, gs[..k + 1], p0) == CardStep(env, dryRun, p, gs[k])
  {
    assert gs[..k + 1][..k] == gs[..k] && gs[..k + 1][k] == gs[k];
  }

  /** A step that raises ends the whole card loop with its error. */
  lemma LoopStops(env: Env, dryRun: bool, gs: seq<Group>, k: nat, p0: Progress, p: Progress)
    requires WellShaped(p0.view) && k < |gs|
    requires MigrateGroups(env, dryRun, gs[..k], p0) == Ok(p)
    requires WellShaped(p.view) && CardStep(env, dryRun, p, gs[k]).Err?
    ensures MigrateGroups(env, dryRun, gs, p0) == CardStep(env, dryRun, p, gs[k])
  {
    LoopStep(env, dryRun, gs, k, p0, p);
    ErrorEndsLoop(env, dryRun, gs, k + 1, p0);
  }

  /** Groups the legacy rows by id and runs the card loop over the groups. */
  method MigrateCards(env: Env, dryRun: bool, rows: seq<OwnedCard>, conn: Store) returns (r: Result<Progress>)
    requires WellShaped(conn)
    ensures r == MigrateGroups(env, dryRun, GroupById(rows), Progress(NoStats, [], conn))
  {
    var groups := GroupRows(rows);
    r := CardLoop(env, dryRun, groups, Progress(NoStats, [], conn));
  }

  /** The card loop: one iteration per group, until an id fails to parse. */
  method CardLoop(env: Env, dryRun: bool, groups: seq<Group>, start: Progress) returns (r: Result<Progress>)
    requires WellShaped(start.view)
    ensures r == MigrateGroups(env, dryRun, groups, start)
  {
    var progress := start;
    var i := 0;
    while i < |groups|
      invariant 0 <= i <= |groups|
      invariant MigrateGroups(env, dryRun, groups[..i], start) == Ok(progress)
    {
      LoopStep(env, dryRun, groups, i, start, progress);
      var step := MigrateCard(env, dryRun, progress, groups[i]);
      if step.Err? {
        LoopStops(env, dryRun, groups, i, start, progress);
        return step;
      }
      progress := step.value;
      i := i + 1;
    }
    assert groups[..i] == groups;
    return Ok(progress);
  }

  /**
   * `migrate_v1_to_v2`: classify, back up, read the legacy rows, rename the legacy
   * tables, run the table script, migrate card by card, commit and validate.
   */
  method MigrateV1ToV2(files: Files, dbPath: Path, backups: Path, now: Clock.DateTime, env: Env,
                       dryRun: bool, script: seq<TableDef>)
    returns (outcome: Outcome, after: Files)
    requires now.Valid() && ScriptShaped(script)
    requires dbPath in files ==> WellShaped(files[dbPath])
    ensures Run(outcome, after) == Migrate(files, dbPath, backups, now, env, dryRun, script)
  {
    var db := Opened(files, dbPath);
    after := files[dbPath := db];
    var version := DetectSchemaVersion(db);
    if version == 0 {
      return Skipped(EmptyReason), after;
    } else if version == 2 {
      return Skipped(AlreadyV2Reason), after;
    } else if version == -1 {
      return Refused(UnknownReason), after;
    }

    if !dryRun {
      var backup := BackupPath(backups, now);
      if backup == dbPath {
        return Raised(SameFile(dbPath, dbPath)), after;
      }
      after := after[backup := db];
    }

    outcome, after := RunLegacy(after, dbPath, db, env, dryRun, script);
  }

  /** The run once the backup is made: read the legacy rows, then convert or only count. */
  method RunLegacy(backedUp: Files, dbPath: Path, db: Store, env: Env, dryRun: bool, script: seq<TableDef>)
    returns (outcome: Outcome, after: Files)
    requires WellShaped(db) && ScriptShaped(script)
    requires dbPath in backedUp && backedUp[dbPath] == db
    ensures Run(outcome, after) == MigrateLegacy(backedUp, dbPath, db, env, dryRun, script)
  {
    after := backedUp;
    var read := ReadLegacy(db);
    if read.Err? {
      return Raised(read.error), after;
    }
    if !dryRun {
      outcome, after := ConvertDatabase(backedUp, dbPath, db, read.value, env, script);
      return;
    }
    var cards := MigrateCards(env, true, read.value, db);
    if cards.Err? {
      return Raised(cards.error), after;
    }
    return Completed(cards.value.stats, cards.value.failures, None), after;
  }

  /** Rename the legacy tables, run the table script, migrate the cards, commit and validate. */
  method ConvertDatabase(backedUp: Files, dbPath: Path, db: Store, rows: seq<OwnedCard>, env: Env,
                         script: seq<TableDef>)
    returns (outcome: Outcome, after: Files)
    requires WellShaped(db) && ScriptShaped(script) && dbPath in backedUp
    ensures Run(outcome, after) == Convert(backedUp, dbPath, db, rows, env, script)
  {
    var renamed := RenameLegacy(db);
    if renamed.error.Some? {
      return Raised(renamed.error.value), backedUp[dbPath := renamed.store];
    }
    ScriptKeepsShape(renamed.store, script);
    var conn := ExecuteScript(renamed.store, script);
    after := backedUp[dbPath := conn];

    var cards := MigrateCards(env, false, rows, conn);
    if cards.Err? {
      return Raised(cards.error), after;
    }
    var progress := cards.value;
    after := backedUp[dbPath := progress.view];
    var validation := Validate(progress.view);
    if validation.Err? {
      return Raised(validation.error), after;
    }
    return Completed(progress.stats, progress.failures, Some(validation.value)), after;
  }

  /** `rollback_migration`: keep a copy of the current file, then copy the backup over it. */
  method RollbackMigration(files: Files, backup: Path, dbPath: Path, now: Clock.DateTime)
    returns (r: Restored)
    requires now.Valid()
    ensures r == Rollback(files, backup, dbPath, now)
  {
    if backup !in files {
      return Restored(files, None);
    }
    if dbPath !in files {
      return Restored(files, Some("No such file or directory: " + Str(dbPath)));
    }
    var safety := SafetyPath(dbPath, now);
    if safety == dbPath {
      return Restored(files, Some(SameFile(dbPath, safety)));
    }
    var disk := files[safety := files[dbPath]];
    if backup == dbPath {
      return Restored(disk, Some(SameFile(backup, dbPath)));
    }
    disk := disk[dbPath := disk[backup]];
    return Restored(disk, None);
  }
}
