# pkmdex core, modelled in Dafny

pkmdex is a command-line manager for a Pokémon TCG card collection. This project models and proves properties of its core.

**The v1 → v2 database migration** (`src/migrate_v2.py`):
- schema detection and the timestamped backup;
- the renaming of the legacy tables and the table script it runs;
- the grouping of the legacy ownership rows by card id;
- the per-card loop: the English document from the raw-data file or the catalog service, field extraction, the `cards`, `card_names` and `owned_cards` inserts, and the counters and failure list;
- validation and rollback.

**The pieces that engine relies on or shares data with:**
- the collection database of `src/db.py`: the legacy schema, the language-column upgrade, adding and removing variants, the owned-card query, the card and set caches and the statistics;
- the value types of `src/models.py`;
- the command parsers, the `--force` variant check, the `list` listing and the sync error summary of `src/cli.py`;
- the integer parts of `src/analyzer.py`: loading one card with its ownership, the filter chain, and the statistics counts;
- the configuration of `src/config.py` and the session context of `src/session.py`;
- the column migration of `src/migrate_db.py`.

How the model is laid out:
- **The SQLite file is a value.** A `Store.Store` maps table names to their columns and typed rows. The file system is a map from paths to stores. The clock is an instant passed in as a parameter. The raw-data files and the catalog service are an environment `Migration.Env` that the run consults.
- **Pure code becomes functions.** Migration steps, parsers, row codecs and filters are functions over datatypes. The lemmas are stated about them.
- **Loops become verified methods.** Where the source works by loops over mutable dictionaries and counters, the model has a method with loop invariants, proved equal to a specification function:
  - the migration card loop (`MigrationEngine`);
  - the listing and grouping loops (`Cli`);
  - the analyzer loops;
  - `migrate_database`.
- **Objects with mutable state become classes.** `db.py`'s module state is `Collection.CollectionDb`, and the session is `Session.SessionContext`.

Where the code and its own docstrings or comments differ, the model follows the code:
- **Which table script runs.** The docstring of `migrate_v1_to_v2` (`src/migrate_v2.py:100`) says the v2 tables are created. The code runs `db.CREATE_SCHEMA` (`src/migrate_v2.py:210-212`), which is the legacy layout. This is Finding 1. The corrected engine runs the v2 script.
- **The legacy table is kept.** Step 4 of the same docstring (`src/migrate_v2.py:108`) drops the v1 `cards` table. The code renames it to `cards_v1_backup` and keeps it (`src/migrate_v2.py:195`), and the closing message tells the user how to drop it.
- **Failed table creation.** When creating the tables fails, nothing in `migrate_v2.py` renames the legacy tables back.
- **Failed writes.** A failed name or ownership insert is logged and the run goes on. A failed card insert fails only that card.
- **Quantities per variant and language.** Ownership rows are written with `INSERT OR REPLACE` (`src/migrate_v2.py:397`). When one (card, variant, language) appears twice in the legacy rows, the last row's quantity wins.

## Model

| member | source | states |
|---|---|---|
| Schema.DetectSchemaVersion | src/migrate_v2.py:25-64 | 0 exactly for a file without tables; 2 exactly when `card_names` and `owned_cards` exist and `cards` has both `price_eur` and `legal_standard`; otherwise 1 exactly for a `cards` table with `quantity`; -1 in every other case |
| Schema.LegacyScriptIsVersionOne | src/db.py:17-59 | the collection manager's `CREATE_SCHEMA` on an empty file yields a file classified as v1 |
| Schema.V2ScriptIsVersionTwo | src/migrate_v2.py:25-64 | once the v2 tables exist where there was no `cards` table, the file is classified as v2 |
| Schema.Validate | src/migrate_v2.py:446-514 | the counts raise on the first missing table, in the order `cards`, `card_names`, `owned_cards`; when it answers, the tables exist, the counts are the tables' row counts, and the orphan counts are the number of `owned_cards` and `card_names` rows whose id has no `cards` row |
| Store.Rename | src/migrate_v2.py:185-195 | `ALTER TABLE … RENAME` succeeds exactly when the source exists and the target does not, with SQLite's two messages; the rows move with the table and every other table is unchanged |
| Store.ExecuteScript | src/migrate_v2.py:210-213 | `CREATE TABLE IF NOT EXISTS` adds exactly the tables the script names and leaves every existing table as it was |
| Store.ScriptCreates | src/migrate_v2.py:210-213 | a table the script creates where none existed is empty and has the script's columns |
| Store.InsertCard | src/migrate_v2.py:295-319 | the insert fails exactly when `cards` is missing or lacks one of the fourteen columns, with the error SQLite reports; otherwise it replaces the row keyed by the id |
| Store.InsertName | src/migrate_v2.py:377-383 | the same for `card_names`, keyed by (id, language) |
| Store.OrphanCountZero | src/migrate_v2.py:467-485 | an orphan count is 0 exactly when every name or ownership row names a card that exists, and it never exceeds the table's row count |
| Store.InsertOwned | src/migrate_v2.py:395-401 | the same for `owned_cards`, keyed by (id, variant, language) |
| Migration.ReadLegacy | src/migrate_v2.py:170-173 | a file without `cards` raises "no such table: cards"; otherwise the read succeeds exactly when the four selected columns exist, and yields the ownership rows ordered by id |
| Migration.FindGroup | src/migrate_v2.py:220-224 | finds the group of an id when there is one, and otherwise shows that no group has that id |
| Migration.LookupCard | src/migrate_v2.py:236-261 | the file counts as loaded exactly when it was read; a truthy document is used as is; otherwise the catalog service is asked and its failure fails the card |
| Migration.Extract | src/migrate_v2.py:263-290 | succeeds exactly for an object whose `legal` member is absent or an object; the row holds the id's set and number, the name or "Unknown", types only when non-empty, legality false when absent |
| Migration.LocalizedName | src/migrate_v2.py:338-373 | English takes the English name; any other language takes the name its document gives, or the English name when no document names it |
| Migration.NamesPass | src/migrate_v2.py:331-389 | exactly one name per distinct language of the card's rows; only `card_names` changes; a dry run counts without writing (the names written are stated by `MigrationValues.NamesPassValues`) |
| Migration.OwnedPassOf | src/migrate_v2.py:391-407 | at most one counted insert per legacy row; only `owned_cards` changes; a dry run counts every row (the quantities written are stated by `MigrationValues.OwnedPassValues`) |
| Migration.CardFound | src/migrate_v2.py:236-407 | after the id is taken apart, the card counts once, as migrated or failed; a failure adds one entry for the id and writes nothing; each lookup counter rises by at most one; other tables are untouched |
| Migration.CardWritten | src/migrate_v2.py:292-407 | once the card row is in, the card counts as migrated, the lookup counters and failure list are kept, and a dry run writes nothing |
| Migration.MigrateGroupsCounts | src/migrate_v2.py:227-408 | a loop that gets through all groups counts each group once, as migrated or failed |
| Migration.Failed | src/migrate_v2.py:256-261 | a failed card adds one to the failure counter and one entry to the failure list, and writes nothing |
| Migration.CardStep | src/migrate_v2.py:227-408 | an id without `-` raises "Invalid TCGdex ID format"; otherwise the card is either migrated or failed, with a failure entry exactly when failed, and other tables are untouched |
| Migration.WriteCard | src/migrate_v2.py:263-407 | once a document is in hand, the card counts as migrated or failed, with the lookup counters unchanged; a dry run writes nothing |
| Migration.MigrateGroups | src/migrate_v2.py:227-408 | the loop gets through exactly when every id has a `-`; migrated plus failed equals the number of groups; the failure list grows by the failures |
| Migration.StampHasNoSlash | src/migrate_v2.py:82 | a backup stamp never brings a path separator into a file name |
| Migration.BackupName | src/migrate_v2.py:67-88 | the backup's name is a single path component carrying the stamp of the run |
| Migration.RenameLegacy | src/migrate_v2.py:182-202 | the renames succeed exactly when `cards` exists and neither backup name is taken; `cards` and, when present, `card_cache` move to their `_v1_backup` names |
| Migration.Migrate | src/migrate_v2.py:91-443 | the database file stays readable and the only files a run can add are the database and the timestamped backup; a completed run has a validation exactly when it was not a dry run |
| Migration.MigrateLegacy | src/migrate_v2.py:165-443 | after the backup, only the database file changes, and a dry run changes no file |
| Migration.Convert | src/migrate_v2.py:177-419 | the conversion changes only the database file, and a completed conversion has a validation |
| Migration.Populate | src/migrate_v2.py:215-419 | the card loop into the created tables, then the commit and the validation, changes only the database file |
| Migration.SafetyName | src/migrate_v2.py:539-541 | the rollback's safety copy is named by one path component |
| Migration.SafetyNotBackup | src/migrate_v2.py:539-541 | a safety copy never overwrites a backup |
| Migration.Rollback | src/migrate_v2.py:517-548 | a missing backup changes nothing and raises nothing; otherwise it raises exactly when the database is missing or a copy would be onto itself; the safety copy holds the current database and stays even when the restore then raises; on success the database holds the backup; on failure the database keeps its contents; no other file changes and no file appears except the safety copy |
| Clock.Stamp | src/migrate_v2.py:82 | `%Y%m%d_%H%M%S` is fifteen characters: digits, with `_` at position 8 |
| Clock.StampInjective | src/migrate_v2.py:82 | two stamps are equal exactly when the instants agree to the second |
| Clock.ParseDigitsOfDigits | src/db.py:319 | a zero-padded decimal field reads back as the number written |
| Clock.Iso | src/db.py:319 | `isoformat()` is 19 characters, or 26 with microseconds |
| Clock.FromIso | src/models.py:257 | `fromisoformat`, on the two shapes `isoformat()` writes, yields only valid instants: years 1 to 9999 and days that exist in their month, leap years included |
| Clock.ImpossibleDayRefused | src/session.py:75 | `"2024-02-30T00:00:00"` is refused, as `fromisoformat` refuses a day its month does not have |
| Clock.LeapDayReadsBack | src/models.py:257 | 29 February of the leap year 2024 is a valid instant and reads back |
| Clock.IsoRoundTrip | src/models.py:257 | reading back what `isoformat()` wrote gives the same instant |
| MigrationEngine.GroupRows | src/migrate_v2.py:220-224 | the grouping loop builds `cards_by_id` exactly as the grouping specification does |
| MigrationEngine.NameOnce | src/migrate_v2.py:333-389 | one pass of the name loop equals one name step of the specification |
| MigrationEngine.InsertNames | src/migrate_v2.py:331-389 | the name loop equals `NamesPass` |
| MigrationEngine.InsertOwnership | src/migrate_v2.py:391-407 | the ownership loop equals `OwnedPassOf` |
| MigrationEngine.MigrateCard | src/migrate_v2.py:227-408 | one iteration equals `CardStep`, including the raise on a bad id |
| MigrationEngine.MigrateFoundCard | src/migrate_v2.py:236-407 | the iteration after the id is taken apart equals `CardFound` |
| MigrationEngine.LoadCardData | src/migrate_v2.py:236-261 | the raw-file read, then the catalog request, equal `LookupCard`: the same counters and the same document |
| MigrationEngine.WriteCardRows | src/migrate_v2.py:322-407 | the counter, the name loop and the ownership loop equal `CardWritten` |
| MigrationEngine.CardLoop | src/migrate_v2.py:227-408 | the card loop equals `MigrateGroups`, stopping at the first id that fails to parse |
| MigrationEngine.WriteCardData | src/migrate_v2.py:263-407 | extraction and the three inserts equal `WriteCard` |
| MigrationEngine.ErrorEndsLoop | src/migrate_v2.py:231 | once an id has raised, the rest of the loop does not run and the whole loop raises the same error |
| MigrationEngine.MigrateCards | src/migrate_v2.py:219-408 | grouping plus the card loop equals `MigrateGroups` over `GroupById` |
| MigrationEngine.MigrateV1ToV2 | src/migrate_v2.py:91-443 | the method's result and its files equal `Migrate` |
| MigrationEngine.RunLegacy | src/migrate_v2.py:165-443 | equals `MigrateLegacy` |
| MigrationEngine.ConvertDatabase | src/migrate_v2.py:177-419 | equals `Convert` |
| MigrationEngine.RollbackMigration | src/migrate_v2.py:517-548 | the files and the error equal `Rollback`'s, including the safety copy left behind by a restore that raises |
| MigrationProps.GroupByIdSpec | src/migrate_v2.py:220-224 | `cards_by_id` holds each legacy id once and exactly the legacy ids, and gives each id its rows in row order |
| MigrationProps.NotLegacyRun | src/migrate_v2.py:121-137 | an empty, v2 or unknown file is skipped or reported, with the source's reason, and no file changes |
| MigrationProps.OtherFilesKept | src/migrate_v2.py:144-148 | a run writes the database file and, unless it is a dry run, the backup; no other file changes |
| MigrationProps.DryRunLeavesFiles | src/migrate_v2.py:142-148 | a dry run of an existing file changes no file |
| MigrationProps.BackupHoldsOriginal | src/migrate_v2.py:67-88 | once a real run gets past the backup, the backup holds the file as it was |
| MigrationProps.LeftoverBackupTableStopsRun | src/migrate_v2.py:195-202 | a leftover `cards_v1_backup` stops a real run at the rename, with the file as it was |
| MigrationProps.CompletedCounts | src/migrate_v2.py:152-159 | in a completed run, every distinct legacy id is either migrated or failed, and every failed card has exactly one entry in the failure list |
| MigrationProps.ConvertibleRun | src/migrate_v2.py:91-443 | a real run of a convertible file with the v2 script completes; the file holds what the card loop wrote and the backup holds the original |
| MigrationProps.ValidateLinked | src/migrate_v2.py:446-514 | over what the card loop leaves, validation finds no orphaned names or ownership rows |
| MigrationProps.WrittenCardOwned | src/migrate_v2.py:292-407 | every card written has at least one ownership row |
| MigrationProps.V2RunValidates | src/migrate_v2.py:409-419 | with the v2 script, validation of a completed run finds no orphans and counts one card per migrated id |
| MigrationProps.V2RunContents | src/migrate_v2.py:292-407 | after a completed run with the v2 script, every migrated card has an ownership row for each legacy row and a name for each of its languages |
| MigrationProps.V2RunValues | src/migrate_v2.py:227-407 | after a completed run with the v2 script, every card row is the row extracted from the card's English document, every name is that card's name localized into its language, and every ownership row holds the quantity of the last legacy row with its key |
| MigrationProps.V2RunLastRowWins | src/migrate_v2.py:391-407 | after a completed run with the v2 script, a legacy row that no later row repeats has an ownership row exactly when its card was migrated, and that row holds its quantity |
| MigrationProps.V2RunKeepsLegacy | src/migrate_v2.py:182-199 | a completed run keeps the legacy tables under their backup names |
| MigrationProps.V2FileSkipped | src/migrate_v2.py:128-132 | a file already classified as v2 is skipped and left as it is |
| MigrationProps.V2RunIsFinal | src/migrate_v2.py:121-132 | after a completed run the file is v2, so running again skips it and changes nothing |
| MigrationProps.NoCardTableLoop | src/migrate_v2.py:322-327 | where the card insert fails, the loop writes nothing and migrates no card |
| MigrationProps.LegacyCardsLackName | src/migrate_v2.py:295-319 | the v2 card insert into a legacy `cards` table fails with "table cards has no column named name" |
| MigrationProps.AsWrittenRunRaises | src/migrate_v2.py:210-212 | as written, a real run of a convertible file fails every card and then raises in validation (Finding 1) |
| MigrationProps.AsWrittenRerunFails | src/migrate_v2.py:182-202 | as written, a second run after the first has raised is stopped at the renames (Finding 1) |
| MigrationWrites.NamesPassKeys | src/migrate_v2.py:331-389 | with `card_names` in place, the name loop adds a name for each language of the card's rows |
| MigrationWrites.OwnedPassKeys | src/migrate_v2.py:391-407 | with `owned_cards` in place, the ownership loop adds a row for each variant and language and changes no other table |
| MigrationWrites.WrittenKeys | src/migrate_v2.py:292-407 | a written card leaves its id, its names and its ownership rows, and nothing else |
| MigrationWrites.MigrateGroupsKeepsInv | src/migrate_v2.py:227-408 | with the v2 tables in place, the card loop keeps every row tied to a card and every written card complete |
| MigrationValues.NamesPassValues | src/migrate_v2.py:331-389 | with `card_names` in place, the name loop adds, for each language of the card's rows, the name localized into that language, and keeps every other name |
| MigrationValues.OwnedRowsLast | src/migrate_v2.py:391-407 | among a card's rows with one variant and language, the last one's quantity is the one kept |
| MigrationValues.OwnedPassValues | src/migrate_v2.py:391-407 | with `owned_cards` in place, the ownership loop adds one row per variant and language holding the last such row's quantity, and keeps every other row |
| MigrationValues.WrittenValues | src/migrate_v2.py:292-407 | a written card sets its `cards` row to the extracted row, adds its localized names and its ownership quantities, and keeps every other row |
| MigrationValues.LastQuantityIsLast | src/migrate_v2.py:391-407 | the quantity kept for a key is the last legacy row's with that key |
| MigrationValues.OwnedRowsLegacy | src/migrate_v2.py:391-407 | an id's group writes, for each of its keys, the quantity of the last legacy row with that key |
| MigrationValues.WriteCardValues | src/migrate_v2.py:263-407 | writing a card from its document keeps every row equal to the value the documents and the legacy rows determine |
| MigrationValues.CardStepValues | src/migrate_v2.py:227-408 | one iteration of the real loop keeps every row equal to the value the documents and the legacy rows determine |
| MigrationValues.MigrateGroupsValues | src/migrate_v2.py:227-408 | the whole real loop, started on empty v2 tables, leaves every card, name and ownership row equal to the value the documents and the legacy rows determine |
| MigrateDb.Missing | src/migrate_db.py:40-53 | a name is added exactly when it is listed and was not already a column |
| MigrateDb.AddColumns | src/migrate_db.py:40-53 | the `ADD COLUMN` loop appends exactly the missing names, in list order, and counts them; without a table it adds nothing |
| MigrateDb.MigrateDatabase | src/migrate_db.py:8-73 | a missing file is reported and nothing changes; otherwise the columns become the old columns followed by the missing ones, and the report lists exactly what was added |
| MigrateDb.AllPresentAfter | src/migrate_db.py:40-55 | after a run, every listed column exists and the old columns come first, unchanged |
| MigrateDb.SecondRunAddsNothing | src/migrate_db.py:8-73 | the column migration is idempotent |
| MigrateDb.AddedIsMissingCount | src/migrate_db.py:44-51 | the number of added columns is the number of listed names that were missing |
| Collection.ParseTcgdexId | src/db.py:157-172 | succeeds exactly when the id has a `-`, cutting at the first one so that the set part has no `-` and the parts join back to the id |
| Collection.ParseBuiltId | src/db.py:157-172 | an id built as `set + "-" + number` parses back to its parts |
| Collection.Find | src/db.py:194-209 | finds the row with a key when there is one, and otherwise shows that no row has it |
| Collection.AddTotal | src/db.py:178-209 | adding raises the collection total by exactly the quantity added |
| Collection.RemoveTotal | src/db.py:212-261 | removing lowers the total by `min(current, quantity)`, and by nothing for an absent key |
| Collection.AddQuantities | src/db.py:178-209 | adding keeps keys unique, sets the key to old plus added (or to added), and leaves other keys alone |
| Collection.RemoveDropped | src/db.py:239-246 | deleting a row removes its key and keeps every other key's quantity and the keys unique |
| Collection.RemoveLowered | src/db.py:247-260 | lowering a row's quantity sets its key to the new quantity and keeps every other key's quantity and the keys unique |
| Collection.RemoveQuantities | src/db.py:212-261 | removing leaves other keys alone; the key disappears when nothing would remain, and is lowered otherwise |
| Collection.FindUnique | src/db.py:17-59 | with the table's unique key, the row found is the only row with that key |
| Collection.Filter | src/db.py:264-291 | keeps exactly the rows matching the set and language filters, never more than the table holds |
| Collection.OwnedCards | src/db.py:264-291 | `get_owned_cards` returns exactly the matching rows, ordered by set and then card number |
| Collection.BestSet | src/db.py:437-449 | the most collected set is the set of some row, and no set has a larger total |
| Collection.Stats | src/db.py:414-481 | unique cards, set count and total are those of the rows; the variant and rarity breakdowns have exactly the keys present, each with its total |
| Collection.VariantBreakdownSumsToTotal | src/db.py:451-459 | the variant breakdown adds up to the total number of cards |
| Collection.SetMatchesContains | src/db.py:385-389 | for a term without wildcards, the search is a case-insensitive substring test on name or set id |
| Collection.UpsertSet | src/db.py:356-371 | `INSERT OR REPLACE` by set id keeps the table ordered by id and replaces exactly the row with the same id |
| Collection.UpsertAll | src/db.py:348-373 | caching a list keeps the table ordered by set id |
| Collection.UpsertAllSnoc | src/db.py:356-371 | caching one more set is one more upsert of its row |
| Collection.UpsertAllFrom | src/db.py:348-373 | after caching a list, every row came from the list or was there before |
| Collection.UpsertAllKeeps | src/db.py:348-373 | caching a list keeps every row whose id the list does not mention |
| Collection.UpsertAllLast | src/db.py:348-373 | after caching a list, the last entry the list has for each id is in the table |
| Collection.SearchSets | src/db.py:375-393 | returns exactly the matching rows, in table order |
| Collection.ReadSets | src/db.py:375-393 | reading succeeds exactly when every row can be read, giving one set per row |
| Collection.MinText | src/db.py:396-408 | `MIN(cached_at)` is the smallest stored text |
| Collection.SetCacheAge | src/db.py:396-408 | an empty cache, or an empty oldest text, gives `None`; otherwise the oldest text is parsed, and an unreadable one raises |
| Collection.SetCacheAgeOfIso | src/db.py:396-408 | when the oldest row was cached at instant `d`, the age is `d` |
| Collection.RowsOf | src/db.py:356-371 | `cache_sets` writes one row per set, in list order |
| Collection.CachedCard | src/db.py:325-346 | an uncached card gives `None`; a found card has the id that was asked for |
| Collection.CacheThenGet | src/db.py:297-346 | caching a card and then looking it up gives that card back; other cards are unaffected |
| Collection.LocalizedAll | src/db.py:93-99 | every legacy row is copied with the language `de` |
| Collection.AddLanguageColumn | src/db.py:62-109 | a table that already has the column is unchanged; otherwise the copy succeeds exactly when no two rows share an id and variant, and then every row is copied, one for one, with language `de`; when it fails, the new `cards` table is left empty and the rows stay in `cards_old` |
| Collection.AddLanguageColumnTwice | src/db.py:62-109 | a second upgrade changes nothing, even after a failed copy; a successful upgrade keeps the collection total |
| Collection.LocalizedTotal | src/db.py:93-99 | copying the rows keeps the total quantity |
| Collection.CollectionDb.AddCardVariant | src/db.py:178-209 | an id without `-` raises and nothing changes; otherwise the rows become `AddSpec` of the old rows and the returned row is the key's new row |
| Collection.CollectionDb.RemoveCardVariant | src/db.py:212-261 | the rows become `RemoveSpec` of the old rows; `None` exactly when the key was absent or its row was deleted |
| Collection.CollectionDb.GetOwnedCards | src/db.py:264-291 | exactly the rows matching the filters, in set and card-number order |
| Collection.CollectionDb.GetCollectionStats | src/db.py:414-481 | the total is the sum of the rows' quantities, and the variant breakdown is keyed by the variants present |
| Collection.CollectionDb.CacheCard | src/db.py:297-323 | the cache gains the card's row, and looking the card up then returns it |
| Collection.CollectionDb.GetCachedCard | src/db.py:325-346 | `None` exactly for an uncached card |
| Collection.CollectionDb.CacheSets | src/db.py:348-373 | the set cache becomes `UpsertAll` of the old cache and every set's row, in list order, so `UpsertAllFrom`, `UpsertAllKeeps` and `UpsertAllLast` give its contents |
| Collection.CollectionDb.GetCachedSets | src/db.py:375-393 | without a term it reads all rows; with a term it reads the matching rows |
| Collection.CollectionDb.GetSetCacheAge | src/db.py:396-408 | an empty cache gives `None` |
| Models.ValidateLanguage | src/models.py:30-45 | succeeds exactly for the eleven catalog languages, with the source's message otherwise |
| Models.ValidateVariant | src/models.py:47-61 | succeeds exactly for the four variants, with the source's message otherwise |
| Models.CardVariants.AvailableList | src/models.py:100-106 | exactly the available variant names, in strictly ascending order |
| Models.CardVariants.ToJson | src/models.py:108-121 | one entry per variant, holding its flag |
| Models.VariantsFromApi | src/models.py:73-87 | each flag is read from its key and is false when the key is missing |
| Models.VariantsFromApiOfToJson | src/models.py:73-121 | reading back the JSON of a set of variants gives the same variants |
| Models.VariantsFromKwargs | src/models.py:255 | `CardVariants(**d)` fails exactly when `d` has a key that is not a variant |
| Models.ImageUrl | src/models.py:221-222 | a non-empty base URL without a picture suffix gets `/high.png`; anything else is kept |
| Models.ImageUrlIdempotent | src/models.py:221-222 | applying the image rule twice is applying it once |
| Models.CardInfoFromApi | src/models.py:174-235 | succeeds exactly when `id` and `name` are present; missing types become `[]`, missing variants become all false, the time is the given instant |
| Models.CardInfoToRow | src/db.py:297-323 | the cache row holds the card's id, its types, and one variants entry per variant |
| Models.CardInfoFromRow | src/models.py:237-260 | reading succeeds exactly when the variants have no foreign key and the timestamp is ISO text |
| Models.CardInfoRowRoundTrip | src/models.py:237-260 | caching a card and reading the row back gives the same card |
| Models.SetInfoFromApi | src/models.py:274-317 | succeeds exactly when `id` and `name` are present; a missing count is 0; the series fields are read only when `serie` is there |
| Models.SetInfoToRow | src/db.py:356-371 | the cache row holds the set's fields and the ISO text of its time |
| Models.SetInfoFromRow | src/models.py:319-336 | reading fails only on an unreadable timestamp |
| Models.SetInfoRowRoundTrip | src/models.py:319-336 | caching a set and reading the row back gives the same set |
| Config.Default | src/config.py:22-33 | the three paths share one directory and are named `pokedex.db`, `backups` and `raw_data` |
| Config.ToDict | src/config.py:35-42 | exactly the three keys, each holding its path as text |
| Config.FromDict | src/config.py:44-57 | succeeds exactly when `db_path` and `backups_path` are present; a missing or empty `raw_data_path` defaults to `raw_data` beside the database |
| Config.FromDictToDict | src/config.py:35-57 | saving a configuration and loading it back gives the same configuration |
| Config.FromOldDict | src/config.py:44-52 | a file written before `raw_data_path` existed reads back colocated |
| Config.SetupDatabasePath | src/config.py:132-181 | a `~name` path for an unknown user raises pathlib's `RuntimeError`, creating and saving nothing; otherwise a directory, or a path without a suffix, gets `pokedex.db` inside it, and a file path keeps its name; it raises "Cannot create directory" when the directory cannot be created, creating nothing, and "Directory not writable" when it is not writable, after creating it; on success it creates the directory, `backups` and `raw_data` and saves exactly the configuration it returns; it saves nothing when it raises |
| Config.SetupSavesLoadable | src/config.py:132-181 | a configuration file is saved exactly when the setup succeeds, and loading it gives back the configuration returned |
| Config.SetupColocated | src/config.py:132-181 | whatever path is given, the configuration derived is colocated and well formed |
| Paths.ParseStr | src/config.py:132-181 | writing a well-formed path out and reading it back gives the same path |
| Paths.Resolve | src/config.py:146 | `expanduser().resolve()` raises "Could not determine home directory." exactly when the path starts with `~name` for an unknown user; otherwise it gives an absolute, well-formed path without `..` |
| Paths.ResolveOtherUser | src/config.py:146 | `~name/rest` resolves under that user's home directory, not the working directory |
| Paths.ResolveRelative | src/config.py:146 | a path starting with neither `~` nor `/` resolves under the working directory |
| Paths.Suffix | src/config.py:149 | a suffix starts with a dot, ends the name, and is shorter than the name |
| Session.SnapshotToDict | src/session.py:45-57 | all three keys; the timestamp is present exactly when one is set |
| Session.FromDict | src/session.py:60-77 | missing keys read as `None`, an empty timestamp is ignored; it raises exactly when a non-empty timestamp does not read as a valid instant (wrong shape, or a day the month does not have), and otherwise holds the instant read |
| Session.ImpossibleDayRaises | src/session.py:73-75 | a stored `last_updated` of `"2024-02-30T00:00:00"` makes loading raise |
| Session.FromDictToDict | src/session.py:45-77 | saving a context and loading it back restores it |
| Session.Describe | src/session.py:79-87 | `lang:set_id` for a valid context, "No context set" otherwise |
| Session.SessionContext.IsValid | src/session.py:20-26 | valid exactly when both language and set are known |
| Session.SessionContext.Update | src/session.py:28-37 | records language, set and time, after which the context is valid and reads `lang:set_id` |
| Session.SessionContext.Clear | src/session.py:39-43 | forgets everything, after which the context is invalid |
| Session.SessionContext.ToDict | src/session.py:45-57 | what it writes reads back as the same context |
| Session.SessionContext.Str | src/session.py:79-87 | `lang:set_id` when valid, "No context set" otherwise |
| Cli.ParseCardInputAsWritten | src/cli.py:21-63 | three or four parts, with `normal` as the default variant; fields stripped of every character `str.strip()` removes (Unicode spaces and `\x1c`-`\x1f` included) and lower-cased, then validated (Finding 2) |
| Strings.StripUnicodeSpace | src/cli.py:54 | a trailing no-break space or a leading `\x1c` is stripped from a card number like a space |
| Cli.AsWrittenNeverFirstEdition | src/cli.py:51-61 | as written, no input ever parses to `firstEdition` (Finding 2) |
| Cli.AsWrittenFormatFails | src/cli.py:51-61 | as written, formatting an input with `firstEdition` and parsing it back fails (Finding 2) |
| Cli.ParseCardInput | src/cli.py:21-63 | as intended: the variant is matched without regard to case and returned in its own spelling |
| Cli.ParseFormat | src/cli.py:21-63 | formatting an input and parsing it back gives the input, for all four variants |
| Cli.ParseFourParts | src/cli.py:33-61 | a four-part input with a catalog language and an accepted variant parses to its folded fields |
| Cli.AsWrittenRefusesFourParts | src/cli.py:58-61 | a four-part input whose folded variant is not a variant name is refused |
| Cli.ParseCardInputFlexibleAsWritten | src/cli.py:66-115 | two to four parts; only a non-empty variant is normalised and validated (Finding 3) |
| Cli.FlexibleAsWrittenEmptyVariant | src/cli.py:109-111 | as written, `de:me01:136:` parses with the variant `""` (Finding 3) |
| Cli.ParseCardInputFlexible | src/cli.py:66-115 | as intended: a variant part, when present, is always validated |
| Cli.FlexibleVariant | src/cli.py:66-115 | every returned variant is a variant name, and none is returned exactly when none was asked for and none was given |
| Cli.FlexibleExtendsStrict | src/cli.py:21-115 | asked for a variant, the flexible parser accepts what the strict one accepts, with the same fields |
| Cli.StrictCoversFlexible | src/cli.py:21-115 | on three or four parts, the flexible parser asked for a variant refuses what the strict one refuses |
| Cli.TwoPartsAreGerman | src/cli.py:84-88 | `set:card` means `de:set:card` |
| Cli.ValidateVariantOrPrompt | src/cli.py:225-261 | proceeds as listed exactly when the variant is available, and as forced exactly when `--force` is given for an unavailable variant |
| Cli.RefusedIffUnlisted | src/cli.py:225-261 | the add is refused exactly when `--force` is off and the variant is missing from the list the error message shows |
| Cli.ListFilterOf | src/cli.py:454-466 | no argument means no filter; a lower-cased catalog language filters by language; anything else filters by set |
| Cli.RowsOfMembers | src/cli.py:482-487 | a card's rows in one language are exactly the matching rows, in query order |
| Cli.FirstSeen | src/cli.py:482-487 | the grouping keys are distinct and are exactly the (card, language) pairs present |
| Cli.Truncate | src/cli.py:512-513 | a name longer than 24 becomes 24 characters ending in `...` with its first 21 kept; shorter names are kept |
| Cli.TruncateIdempotent | src/cli.py:512-513 | truncating twice is truncating once |
| Cli.GroupByCardLanguage | src/cli.py:481-487 | the grouping loop's dictionary maps each present pair to its rows, and its insertion order is the order first seen |
| Cli.CardLine | src/cli.py:498-517 | the body of the printing loop for one key yields that key's line |
| Cli.VariantEntries | src/cli.py:504-511 | the inner loop over a line's rows yields one `variant(quantity)` entry per row and their sum |
| Cli.LinesTotalWeights | src/cli.py:504-511 | the lines' quantities add up to the total weight of their keys' rows |
| Cli.PrintLines | src/cli.py:496-519 | the printing loop yields one line per key and counts the lines and their quantities |
| Cli.ListCollection | src/cli.py:471-526 | the listing equals `ListingOf` of the filter and the rows |
| Cli.LineQuantity | src/cli.py:504-509 | a line's quantity is the sum of its (card, language) rows |
| Cli.RowsQuantityPermutation | src/cli.py:504-509 | the copies of some rows do not depend on their order |
| Cli.ListingCounts | src/cli.py:471-524 | nothing found exactly when no row matched, with the filter's message; otherwise one line per distinct pair, and a total equal to the quantities of all rows |
| Cli.SummarizeErrors | src/cli.py:851-856 | nothing is shown exactly when there was no error; the errors shown are the first ten, or all of them when there are at most ten; the "and N more" count appears exactly when there were more than ten, and N is the number beyond ten |
| Cli.ErrorsAccounted | src/cli.py:851-856 | the shown errors plus the hidden count add up to the error count; each error is either shown in its place or counted as hidden, never both; fewer than ten are shown only when all are |
| Analyzer.Owned | src/analyzer.py:64-67 | exactly the rows of the card in the language, in table order |
| Analyzer.CardOf | src/analyzer.py:44-85 | `None` exactly when the raw document is missing or empty or the rows hold no copies; otherwise the fields with their "Unknown" defaults |
| Analyzer.PositiveQuantity | src/analyzer.py:69-70 | with positive quantities, the rows hold copies exactly when there is at least one row |
| Analyzer.CardFoundIffOwned | src/analyzer.py:44-85 | with positive quantities, a card is found exactly when its document is non-empty and some row owns it in the language |
| Analyzer.LoadCardWithOwnership | src/analyzer.py:44-85 | the loading loop returns `CardOf` |
| Analyzer.Keep | src/analyzer.py:118-162 | the chain of `continue` tests keeps a card exactly when it meets every criterion in force |
| Analyzer.AnalyzeCollection | src/analyzer.py:88-166 | the analysis loop returns `Analyze` |
| Analyzer.AnalyzeSound | src/analyzer.py:88-166 | every result is the found card of an owned pair and meets the language, set, stage, type, rarity, inclusive HP, category, regulation and artist criteria |
| Analyzer.AnalyzeComplete | src/analyzer.py:88-166 | every found card of an owned pair that meets the criteria is among the results |
| Analyzer.ZeroBoundIsNoBound | src/analyzer.py:138-146 | an HP bound of 0 filters exactly as no bound |
| Analyzer.GetCollectionStatistics | src/analyzer.py:169-226 | the statistics loops return `StatisticsOf`: the count, the total quantity, and one tally per field |
| Analyzer.TotalQuantity | src/analyzer.py:192 | the quantity loop returns the sum of the quantities |
| Analyzer.Count | src/analyzer.py:202-226 | a counting loop returns the tally of its labels |
| Analyzer.TypeCounts | src/analyzer.py:207-210 | the type loops return the tally of every type of every card |
| Analyzer.CountTypes | src/analyzer.py:208-210 | the inner loop adds one for each of a card's types |
| Analyzer.CategoryCountsSum | src/analyzer.py:218-221 | the category counts, summed over all categories, give the number of cards |
| Analyzer.TypeCountsSum | src/analyzer.py:207-210 | the type counts, summed over all types, give one per type of every card |
| Analyzer.TypesOccurrences | src/analyzer.py:207-210 | the types listed over all cards hold each type as often as there are cards with it, when each card's types are distinct |
| Analyzer.TypeCountsCards | src/analyzer.py:207-210 | when each card's types are distinct, a type is counted exactly when some card has it, and its count is the number of cards having it |
| Analyzer.SetKeys | src/analyzer.py:224-226 | the set counts are keyed by the set prefixes of the card ids |
| Tally.TallySum | src/analyzer.py:202-226 | summing a tally's values over all its keys, in any order, gives the total weight |
| Tally.TallyMapWeights | src/analyzer.py:202-226 | a tally holds exactly the keys of its entries, each with their summed weight |
| Tally.OccurrencesCounted | src/analyzer.py:202-226 | counting labels gives a key exactly to each label that occurs, with the number of its occurrences |
| Tally.WeightOverAllKeys | src/cli.py:504-509 | grouping neither loses entries nor counts them twice |
| SqlLike.LikeContains | src/db.py:385-389 | `LOWER(col) LIKE LOWER('%term%')` is a case-insensitive substring test when the term has no wildcard |
| Sorting.SortBy | src/cli.py:498 | `sorted` returns a sorted permutation of its input |
| Sorting.SortByStable | src/cli.py:498 | the sort is stable: the elements with any one key come out in their input order |
| Strings.SplitJoin | src/cli.py:33 | splitting a join of separator-free pieces gives the pieces back |
| Strings.SplitJoinFour | src/cli.py:33 | the same for four pieces, as in `lang:set:card:variant` |

## Left out

- `src/api.py`, `src/web.py` and `src/set_code_mapping.py` are not part of this model. The catalog service is an oracle in `Migration.Env` that returns a document or fails for each card and language.
- The migration reads English documents through `get_card_raw`, which `src/api.py` does not define. The oracle stands for whatever that call would return.
- `get_db_path` is imported from `src/db.py` by the migration, but `src/db.py` defines no such function. Every operation takes the database path as a parameter.
- `get_v2_owned_cards` is not part of this model, and neither are the other v2 query helpers the CLI calls. The `list` listing takes the query's rows as input, and the analyzer takes the owned (id, language) pairs and rows as input.
- **Printing, progress output and `verbose` logging.** These only print; the model keeps the data that is printed. The listing is modelled as its lines and counters, not their column formatting.
- **Floating point** (the analyzer's average HP and price fields). Only the integer parts of the analyzer are modelled.
- **JSON documents as records of optional fields.** A JSON `null` and a missing key read the same, except for `legal`, where a non-object raises.
- Analyzer.CardOf: gives "Unknown" for the set name when `set` holds `null` or another non-object. The source raises `AttributeError` there, at `raw_data.get("set", {}).get("name", "Unknown")`. A `name` or `category` holding `null` gives `None` in the source, where the model gives "Unknown".
- **Analyzer documents.** The analyzer's raw documents are taken to be objects. A raw file holding a non-object is not modelled.
- **`illustrator` when it is `null`.** When the artist filter is set and `illustrator` is `null`, the source raises. The model treats the field as absent.
- **The second raw-file read.** `analyze_collection` reads the same raw file twice (once inside `load_card_with_ownership` and once for regulation and artist). The model reads it once, which gives the same result when the file does not change in between.
- Strings.Lower, Cli.ParseCardInputAsWritten, Cli.ParseCardInput, Cli.ParseCardInputFlexibleAsWritten, Cli.ParseCardInputFlexible: case folding is ASCII only. `Strings.Lower` folds only ASCII letters, while Python's `lower()` folds all of Unicode (`É` becomes `é`).
- **Models.CardVariants.IsValid** answers only for the four variant names. In the source, `getattr` also finds method names such as `to_json`, which are truthy, but no caller passes them after validation.
- **SQL indexes and `ORDER BY` ties.** Indexes are not modelled. Rows that tie under `ORDER BY` keep table order, whereas SQLite leaves that order unspecified.
- **The shape of the SQLite store.** `Store.WellShaped` ties each table name to its row type. It is a model assumption about the file, not a check the source makes.
- **File-system messages.** When a file cannot be copied or created, the error message is approximated by a fixed text.
- **The CLI handlers.** The sync loop of `handle_sync` calls the catalog service, and the add, remove, stats, export and import handlers call the unseen v2 database API. They are not modelled beyond the parsers, the variant check, the listing and the error summary they share.
- Clock.FromIso, Session.FromDict: read only the two shapes `isoformat()` writes. Other text Python's `fromisoformat` accepts (a date alone, a space for `T`, a UTC offset, fewer fraction digits) raises in the model, because nothing the program stores has those shapes.
- Clock.Stamp: writes every year with four digits. The C library's `strftime` may write a year below 1000 with fewer digits, but the stamp is only taken of the current time.
- MigrateDb.AddColumns: compares column names case-sensitively, as the source does, but does not model SQLite's case-insensitive "duplicate column name" error. A table already holding `Illustrator` would make `ADD COLUMN illustrator` fail and go uncounted in the source. No schema the program writes has such a column.
- Paths.Resolve: folds `..` lexically, which is what `resolve()` does only when no component is a symbolic link. Symbolic links are not modelled. The home directories are parameters (`home` for `~`, `users` for `~name`).
- Config.SetupDatabasePath: creating `backups` and `raw_data` and saving the configuration are taken to succeed once the database directory is writable. A failure of those later steps (a full disk, say) is not modelled.
- **Migration.LookupCard** does not model how long the catalog service takes or whether it is called again. Each (card, language) call is a fixed answer of the oracle.

## Findings

| source | as written | input that shows it | evidently intended | confidence | as-written member | corrected member |
|---|---|---|---|---|---|---|
| src/migrate_v2.py:210-212 | creates the tables with `db.CREATE_SCHEMA`, the legacy layout: `cards` with `quantity` and no `name`, and no `card_names` or `owned_cards` | any v1 file with one ownership row `swsh3-136`, and its document present; every v2 `INSERT INTO cards (… name …)` fails, the card is failed, and validation raises "no such table: card_names"; a rerun then stops at the rename | create the v2 tables (`cards` keyed by id with `name`, `card_names`, `owned_cards`) | not executed | MigrationProps.AsWrittenRunRaises, MigrationProps.AsWrittenRerunFails | MigrationProps.V2RunValidates, MigrationProps.V2RunContents, MigrationProps.V2RunValues |
| src/cli.py:51-61 | lower-cases the variant, then checks it against a whitelist spelled `firstEdition` | `de:swsh3:136:firstEdition` is refused as "Invalid variant: firstedition" | accept any capitalisation of a variant name and return its canonical spelling | not executed | Cli.ParseCardInputAsWritten, Cli.AsWrittenNeverFirstEdition, Cli.AsWrittenFormatFails | Cli.ParseCardInput, Cli.ParseFormat |
| src/cli.py:109-111 | validates the variant only `if variant:`, so an empty fourth part is returned unvalidated | `de:me01:136:` parses with the variant `""` | refuse an empty variant part like any other invalid variant | not executed | Cli.FlexibleAsWrittenEmptyVariant | Cli.ParseCardInputFlexible, Cli.FlexibleVariant |
