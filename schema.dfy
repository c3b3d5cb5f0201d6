/**
 * The schema layouts the v1→v2 migration tells apart, the two table scripts it can run,
 * and the post-migration validation queries.
 */
module Schema {
  import opened Wrappers
  import opened Store

  /** The v2 marker columns of `cards` are present. */
  predicate HasV2Columns(columns: seq<string>)
  {
    "price_eur" in columns && "legal_standard" in columns
  }

  /**
   * `detect_schema_version`: 0 for a file without tables, 2 for the v2 layout, 1 for a
   * `cards` table holding quantities, -1 for anything else.
   */
  function DetectSchemaVersion(s: Store): (v: int)
    ensures v == 0 <==> s.tables == map[]
    ensures v == 2 <==> s.tables != map[] && "card_names" in s.tables && "owned_cards" in s.tables &&
                        HasV2Columns(Columns(s, "cards"))
    ensures v == 1 <==> s.tables != map[] && "cards" in s.tables && "quantity" in s.tables["cards"].columns &&
                        !("card_names" in s.tables && "owned_cards" in s.tables && HasV2Columns(Columns(s, "cards")))
    ensures v == -1 || v == 0 || v == 1 || v == 2
  {
    if s.tables.Keys == {} then
      assert s.tables == map[];
      0
    else
      assert s.tables != map[] by {
        var n :| n in s.tables.Keys;
      }
      if "card_names" in s.tables && "owned_cards" in s.tables && HasV2Columns(Columns(s, "cards")) then 2
      else if "cards" in s.tables && "quantity" in Columns(s, "cards") then 1
      else -1
  }

  /** The columns of the legacy ownership table. */
  const LegacyCardColumns: seq<string> := [
    "id", "set_id", "card_number", "tcgdex_id", "variant", "language", "quantity", "added_at", "updated_at"]

  /** Every definition of a script agrees with its table name. */
  predicate ScriptShaped(script: seq<TableDef>)
  {
    forall d :: d in script ==> Shaped(d.name, Table(d.columns, d.empty))
  }

  /**
   * The table script the migration runs as written: the collection manager's own
   * `CREATE_SCHEMA`, which declares the legacy layout (ownership rows in `cards`, the
   * card cache and the set cache).
   */
  function LegacyScript(): (script: seq<TableDef>)
    ensures ScriptShaped(script)
  {
    [TableDef("cards", LegacyCardColumns, Ownership([])),
     TableDef("card_cache", ["tcgdex_id", "name", "set_name", "rarity", "types", "hp",
                             "available_variants", "image_url", "cached_at"], Opaque(0)),
     TableDef("set_cache", ["set_id", "name", "card_count", "release_date", "serie_id",
                            "serie_name", "cached_at"], Opaque(0))]
  }

  /** The v2 layout the migration writes into: canonical cards, localized names, ownership. */
  function V2Script(): (script: seq<TableDef>)
    ensures ScriptShaped(script)
  {
    assert "quantity" !in CardColumns;
    [TableDef("cards", CardColumns, Cards(map[])),
     TableDef("card_names", NameColumns, Names(map[])),
     TableDef("owned_cards", OwnedColumns, Owned(map[]))]
  }

  /** The legacy script declares `cards`, `card_cache` and `set_cache`, and nothing else. */
  lemma LegacyScriptNames()
    ensures (set d | d in LegacyScript() :: d.name) == {"cards", "card_cache", "set_cache"}
  {
    var script := LegacyScript();
    assert script[0].name == "cards" && script[1].name == "card_cache" && script[2].name == "set_cache";
    assert forall d :: d in script ==> d == script[0] || d == script[1] || d == script[2];
  }

  /** The v2 card columns carry the v2 markers and no quantity. */
  lemma CardColumnsAreV2()
    ensures HasV2Columns(CardColumns) && "quantity" !in CardColumns
  {
    assert CardColumns[10] == "price_eur" && CardColumns[12] == "legal_standard";
  }

  /** `init_database` on a new file yields a database the migration classifies as v1. */
  lemma LegacyScriptIsVersionOne()
    ensures DetectSchemaVersion(ExecuteScript(Empty, LegacyScript())) == 1
  {
    LegacyScriptNames();
    ScriptVersionOne(LegacyScript());
  }

  /** A script of the legacy tables, with the legacy `cards` first, run on a new file. */
  lemma ScriptVersionOne(script: seq<TableDef>)
    requires (set d | d in script :: d.name) == {"cards", "card_cache", "set_cache"}
    requires script != [] && script[0].name == "cards" && script[0].columns == LegacyCardColumns
    ensures DetectSchemaVersion(ExecuteScript(Empty, script)) == 1
  {
    var s := ExecuteScript(Empty, script);
    ScriptCreates(Empty, script, 0);
    LegacyColumnsHoldQuantity();
    LegacyNamesLackCardNames();
    assert "card_names" !in s.tables;
    assert "cards" in s.tables && "quantity" in s.tables["cards"].columns;
  }

  lemma LegacyColumnsHoldQuantity()
    ensures "quantity" in LegacyCardColumns
  {
    assert LegacyCardColumns[6] == "quantity";
  }

  lemma LegacyNamesLackCardNames()
    ensures "card_names" !in {"cards", "card_cache", "set_cache"}
  {
    assert |"card_names"| != |"cards"| && |"card_names"| != |"set_cache"|;
    assert "card_names"[5] != "card_cache"[5];
  }

  /** Once the v2 script has run where there was no `cards` table, the file is classified as v2. */
  lemma V2ScriptIsVersionTwo(s: Store)
    requires "cards" !in s.tables
    ensures DetectSchemaVersion(ExecuteScript(s, V2Script())) == 2
  {
    var script := V2Script();
    assert script[0].name == "cards" && script[0].columns == CardColumns;
    assert script[1].name == "card_names" && script[2].name == "owned_cards";
    ScriptVersionTwo(s, script);
  }

  /** A script whose first three tables are the v2 `cards`, `card_names` and `owned_cards`. */
  lemma ScriptVersionTwo(s: Store, script: seq<TableDef>)
    requires "cards" !in s.tables
    requires |script| >= 3 && script[0].name == "cards" && script[0].columns == CardColumns
    requires script[1].name == "card_names" && script[2].name == "owned_cards"
    ensures DetectSchemaVersion(ExecuteScript(s, script)) == 2
  {
    var r := ExecuteScript(s, script);
    ScriptCreates(s, script, 0);
    assert script[1] in script && script[2] in script;
    assert "card_names" in r.tables && "owned_cards" in r.tables;
    CardColumnsAreV2();
  }

  /** The answers of `validate_migration`. */
  datatype Validation = Validation(
    tablesExist: bool,
    cardsCount: nat,
    namesCount: nat,
    ownedCount: nat,
    orphanedOwned: nat,
    orphanedNames: nat,
    isValid: bool)

  /**
   * `validate_migration`: the counts raise on the first missing table, in the order
   * `cards`, `card_names`, `owned_cards`.
   */
  function Validate(s: Store): (r: Result<Validation>)
    ensures "cards" !in s.tables ==> r == Err("no such table: cards")
    ensures "cards" in s.tables && "card_names" !in s.tables ==> r == Err("no such table: card_names")
    ensures "cards" in s.tables && "card_names" in s.tables && "owned_cards" !in s.tables ==>
              r == Err("no such table: owned_cards")
    ensures r.Ok? ==> r.value.tablesExist
    ensures r.Ok? ==>
              (r.value.isValid <==>
                 r.value.cardsCount > 0 && r.value.ownedCount > 0 &&
                 r.value.orphanedOwned == 0 && r.value.orphanedNames == 0)
    ensures r.Ok? ==>
              r.value.cardsCount == Count(s.tables["cards"]) &&
              r.value.namesCount == Count(s.tables["card_names"]) &&
              r.value.ownedCount == Count(s.tables["owned_cards"])
    ensures r.Ok? ==>
              r.value.orphanedOwned == OrphanCount(s.tables["owned_cards"], CardIds(s.tables["cards"])) &&
              r.value.orphanedNames == OrphanCount(s.tables["card_names"], CardIds(s.tables["cards"]))
  {
    if "cards" !in s.tables then Err("no such table: cards")
    else if "card_names" !in s.tables then Err("no such table: card_names")
    else if "owned_cards" !in s.tables then Err("no such table: owned_cards")
    else
      var present := s.tables.Keys * {"cards", "card_names", "owned_cards"};
      assert present == {"cards", "card_names", "owned_cards"};
      var ids := CardIds(s.tables["cards"]);
      var cards, names, owned := Count(s.tables["cards"]), Count(s.tables["card_names"]), Count(s.tables["owned_cards"]);
      var orphanedOwned := OrphanCount(s.tables["owned_cards"], ids);
      var orphanedNames := OrphanCount(s.tables["card_names"], ids);
      Ok(Validation(|present| == 3, cards, names, owned, orphanedOwned, orphanedNames,
                    |present| == 3 && cards > 0 && owned > 0 && orphanedOwned == 0 && orphanedNames == 0))
  }
}
