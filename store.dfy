/**
 * An SQLite database file as the schema migration sees it: named tables, each with its
 * column list (what `PRAGMA table_info` reports) and its rows. Rows are held by layout:
 * the v1 ownership table, the v2 card table keyed by `tcgdex_id`, the localized-name
 * table keyed by `(tcgdex_id, language)`, the v2 ownership table keyed by
 * `(tcgdex_id, variant, language)`, and tables whose rows the migration only counts.
 * Keyed rows make `INSERT OR REPLACE` a map update. Indexes are not represented.
 */
module Store {
  import opened Wrappers
  import opened Models

  /** A row of the v2 `cards` table; the two price columns, always NULL here, are not held. */
  datatype CardRow = CardRow(
    setId: string,
    cardNumber: string,
    name: string,
    rarity: Option<string>,
    types: Option<seq<string>>,     // the `json.dumps` text of the list, held decoded
    hp: Option<int>,
    stage: Option<string>,
    category: Option<string>,
    imageUrl: Option<string>,
    legalStandard: bool,
    legalExpanded: bool)

  /** The rows of one table, by layout. */
  datatype Rows =
    | Ownership(owned: seq<OwnedCard>)                        // the v1 `cards` table, in rowid order
    | Cards(byId: map<string, CardRow>)                       // the v2 `cards` table
    | Names(byName: map<(string, string), string>)            // `card_names`
    | Owned(byKey: map<(string, string, string), int>)        // `owned_cards`
    | Opaque(count: nat)                                      // any other table: only its size matters

  datatype Table = Table(columns: seq<string>, rows: Rows)

  datatype Store = Store(tables: map<string, Table>)

  /** A file `sqlite3.connect` has just created. */
  const Empty := Store(map[])

  /**
   * The layouts agree with the names and columns, as they do for every table the
   * collection manager creates: the v1 ownership layout has no `name` column, the v2
   * card layout no `quantity` column, and the three v2 table names hold their layouts.
   */
  predicate Shaped(name: string, t: Table)
  {
    (t.rows.Ownership? ==> "name" !in t.columns) &&
    (t.rows.Cards? ==> "quantity" !in t.columns) &&
    (name == "cards" ==> t.rows.Ownership? || t.rows.Cards?) &&
    (name == "card_names" ==> t.rows.Names?) &&
    (name == "owned_cards" ==> t.rows.Owned?)
  }

  predicate WellShaped(s: Store)
  {
    forall name :: name in s.tables ==> Shaped(name, s.tables[name])
  }

  /** `PRAGMA table_info(name)`: the column names, none for a missing table. */
  function Columns(s: Store, name: string): seq<string>
  {
    if name in s.tables then s.tables[name].columns else []
  }

  /** The first of `wanted` that `have` lacks: the column SQLite reports. */
  function FirstMissing(have: seq<string>, wanted: seq<string>): (r: Option<string>)
    ensures r.None? <==> forall c :: c in wanted ==> c in have
    ensures r.Some? ==> r.value in wanted && r.value !in have
  {
    if wanted == [] then None
    else if wanted[0] !in have then Some(wanted[0])
    else FirstMissing(have, wanted[1..])
  }

  /** `ALTER TABLE from RENAME TO to`: the rows move with the table. */
  function Rename(s: Store, from: string, to: string): (r: Result<Store>)
    ensures r.Ok? <==> from in s.tables && to !in s.tables
    ensures from !in s.tables ==> r == Err("no such table: " + from)
    ensures from in s.tables && to in s.tables ==> r == Err("there is already another table or index with this name: " + to)
    ensures r.Ok? ==> r.value.tables.Keys == s.tables.Keys - {from} + {to} && r.value.tables[to] == s.tables[from]
    ensures r.Ok? ==> forall n :: n in s.tables && n != from ==> r.value.tables[n] == s.tables[n]
    ensures r.Ok? && WellShaped(s) && to != "cards" && to != "card_names" && to != "owned_cards" ==> WellShaped(r.value)
  {
    if from !in s.tables then Err("no such table: " + from)
    else if to in s.tables then Err("there is already another table or index with this name: " + to)
    else Ok(Store((s.tables - {from})[to := s.tables[from]]))
  }

  /** One `CREATE TABLE IF NOT EXISTS` of a schema script. */
  datatype TableDef = TableDef(name: string, columns: seq<string>, empty: Rows)

  function CreateIfNotExists(s: Store, d: TableDef): (r: Store)
    ensures r.tables.Keys == s.tables.Keys + {d.name}
    ensures forall n :: n in s.tables ==> r.tables[n] == s.tables[n]
    ensures d.name !in s.tables ==> r.tables[d.name] == Table(d.columns, d.empty)
  {
    if d.name in s.tables then s else Store(s.tables[d.name := Table(d.columns, d.empty)])
  }

  /** `executescript` of a script made of `CREATE TABLE IF NOT EXISTS` statements. */
  function ExecuteScript(s: Store, script: seq<TableDef>): (r: Store)
    ensures r.tables.Keys == s.tables.Keys + set d | d in script :: d.name
    ensures forall n :: n in s.tables ==> r.tables[n] == s.tables[n]
    decreases |script|
  {
    if script == [] then s else ExecuteScript(CreateIfNotExists(s, script[0]), script[1..])
  }

  /** A table the script creates, where there was none of that name, holds the script's first definition of it. */
  lemma {:induction false} ScriptCreates(s: Store, script: seq<TableDef>, i: nat)
    requires i < |script| && script[i].name !in s.tables
    requires forall j :: 0 <= j < i ==> script[j].name != script[i].name
    ensures ExecuteScript(s, script).tables[script[i].name] == Table(script[i].columns, script[i].empty)
    decreases |script|
  {
    if i > 0 {
      ScriptCreates(CreateIfNotExists(s, script[0]), script[1..], i - 1);
    }
  }

  /** A script of well-shaped definitions keeps a store well shaped. */
  lemma {:induction false} ScriptKeepsShape(s: Store, script: seq<TableDef>)
    requires WellShaped(s)
    requires forall d :: d in script ==> Shaped(d.name, Table(d.columns, d.empty))
    ensures WellShaped(ExecuteScript(s, script))
    decreases |script|
  {
    if script != [] {
      assert forall d :: d in script[1..] ==> d in script;
      ScriptKeepsShape(CreateIfNotExists(s, script[0]), script[1..]);
    }
  }

  /** The columns of the v2 card insert, in its order. */
  const CardColumns: seq<string> := [
    "tcgdex_id", "set_id", "card_number", "name", "rarity", "types", "hp", "stage",
    "category", "image_url", "price_eur", "price_usd", "legal_standard", "legal_expanded"]

  const NameColumns: seq<string> := ["tcgdex_id", "language", "name"]

  const OwnedColumns: seq<string> := ["tcgdex_id", "variant", "language", "quantity"]

  /** The error SQLite raises for an insert into `table` naming the columns `wanted`, if any. */
  function InsertError(s: Store, table: string, wanted: seq<string>): (r: Option<string>)
    ensures r.None? <==> table in s.tables && forall c :: c in wanted ==> c in s.tables[table].columns
  {
    if table !in s.tables then Some("no such table: " + table)
    else match FirstMissing(s.tables[table].columns, wanted)
      case Some(c) => Some("table " + table + " has no column named " + c)
      case None => None
  }

  /** `table`, which exists, with its rows replaced. */
  function WithRows(s: Store, table: string, rows: Rows): Store
    requires table in s.tables
  {
    Store(s.tables[table := Table(s.tables[table].columns, rows)])
  }

  /** `INSERT OR REPLACE INTO cards (...)`. */
  function InsertCard(s: Store, id: string, row: CardRow): (r: Result<Store>)
    requires WellShaped(s)
    ensures r.Err? <==> InsertError(s, "cards", CardColumns).Some?
    ensures r.Err? ==> r.error == InsertError(s, "cards", CardColumns).value
    ensures r.Ok? ==> s.tables["cards"].rows.Cards? && WellShaped(r.value)
    ensures r.Ok? ==> r.value == WithRows(s, "cards", Cards(s.tables["cards"].rows.byId[id := row]))
  {
    match InsertError(s, "cards", CardColumns)
    case Some(e) => Err(e)
    case None =>
      var t := s.tables["cards"];
      assert "name" in CardColumns;
      Ok(Store(s.tables["cards" := Table(t.columns, Cards(t.rows.byId[id := row]))]))
  }

  /** `INSERT OR REPLACE INTO card_names (tcgdex_id, language, name)`. */
  function InsertName(s: Store, id: string, language: string, name: string): (r: Result<Store>)
    requires WellShaped(s)
    ensures r.Err? <==> InsertError(s, "card_names", NameColumns).Some?
    ensures r.Err? ==> r.error == InsertError(s, "card_names", NameColumns).value
    ensures r.Ok? ==> WellShaped(r.value)
    ensures r.Ok? ==> r.value == WithRows(s, "card_names", Names(s.tables["card_names"].rows.byName[(id, language) := name]))
  {
    match InsertError(s, "card_names", NameColumns)
    case Some(e) => Err(e)
    case None =>
      var t := s.tables["card_names"];
      Ok(Store(s.tables["card_names" := Table(t.columns, Names(t.rows.byName[(id, language) := name]))]))
  }

  /** `INSERT OR REPLACE INTO owned_cards (tcgdex_id, variant, language, quantity)`. */
  function InsertOwned(s: Store, id: string, variant: string, language: string, quantity: int): (r: Result<Store>)
    requires WellShaped(s)
    ensures r.Err? <==> InsertError(s, "owned_cards", OwnedColumns).Some?
    ensures r.Err? ==> r.error == InsertError(s, "owned_cards", OwnedColumns).value
    ensures r.Ok? ==> WellShaped(r.value)
    ensures r.Ok? ==>
      r.value == WithRows(s, "owned_cards", Owned(s.tables["owned_cards"].rows.byKey[(id, variant, language) := quantity]))
  {
    match InsertError(s, "owned_cards", OwnedColumns)
    case Some(e) => Err(e)
    case None =>
      var t := s.tables["owned_cards"];
      Ok(Store(s.tables["owned_cards" := Table(t.columns, Owned(t.rows.byKey[(id, variant, language) := quantity]))]))
  }

  /** `SELECT COUNT(*)`. */
  function Count(t: Table): nat
  {
    match t.rows
    case Ownership(rs) => |rs|
    case Cards(m) => |m|
    case Names(m) => |m|
    case Owned(m) => |m|
    case Opaque(n) => n
  }

  /** The `tcgdex_id` values of a card table. */
  function CardIds(t: Table): set<string>
  {
    match t.rows
    case Ownership(rs) => set c | c in rs :: c.tcgdexId
    case Cards(m) => m.Keys
    case _ => {}
  }

  /**
   * `COUNT(*) FROM child LEFT JOIN cards ... WHERE c.tcgdex_id IS NULL`: the rows of a
   * name or ownership table whose card is missing.
   */
  function OrphanCount(child: Table, ids: set<string>): nat
  {
    match child.rows
    case Names(m) => |set k | k in m.Keys && k.0 !in ids|
    case Owned(m) => |set k | k in m.Keys && k.0 !in ids|
    case _ => 0
  }

  /** No orphan is counted exactly when every name or ownership row names a known card, and each orphan row counts once. */
  lemma OrphanCountZero(child: Table, ids: set<string>)
    ensures child.rows.Names? ==>
              (OrphanCount(child, ids) == 0 <==> forall k :: k in child.rows.byName ==> k.0 in ids)
    ensures child.rows.Owned? ==>
              (OrphanCount(child, ids) == 0 <==> forall k :: k in child.rows.byKey ==> k.0 in ids)
    ensures child.rows.Names? || child.rows.Owned? ==> OrphanCount(child, ids) <= Count(child)
  {
    match child.rows
    case Names(m) =>
      var o := set k | k in m.Keys && k.0 !in ids;
      assert o <= m.Keys;
      SubsetCard(o, m.Keys);
      assert forall k :: k in m && k.0 !in ids ==> k in o;
    case Owned(m) =>
      var o := set k | k in m.Keys && k.0 !in ids;
      assert o <= m.Keys;
      SubsetCard(o, m.Keys);
      assert forall k :: k in m && k.0 !in ids ==> k in o;
    case _ =>
  }

  lemma SubsetCard<T>(a: set<T>, b: set<T>)
    requires a <= b
    ensures |a| <= |b|
  {
    if a != {} {
      var x :| x in a;
      SubsetCard(a - {x}, b - {x});
    }
  }
}
