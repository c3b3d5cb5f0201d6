/**
 * The v1→v2 migration of the collection database, as a specification: what a run
 * reads, what it counts, what it writes and which files it leaves behind. The raw card
 * documents and the catalog service are oracles; the database file and its backups are
 * a map from paths to stores.
 *
 * Writes go through one connection. Renames and the table script take effect at once
 * (SQLite runs DDL outside a transaction here); the inserts stay pending until the final
 * commit, so an exception inside the card loop leaves the file as the script left it.
 */
module Migration {
  import opened Wrappers
  import opened Payloads
  import opened Models
  import opened Sorting
  import opened Store
  import opened Schema
  import opened Paths
  import Clock
  import Collection

  /** A file under the raw-data directory: absent, present but not JSON, or its content. */
  datatype JsonFile = Missing | Unreadable | Loaded(json: Json)

  /** What a catalog request answers: a document, or the message of the exception it raised. */
  datatype Fetch = Fetched(json: Json) | FetchFailed(message: string)

  /** What a run reads besides the database. */
  datatype Env = Env(
    cardFile: string -> JsonFile,                  // raw_data/cards/<id>.json
    nameFile: (string, string) -> JsonFile,        // raw_data/cards/<id>.<language>.json
    api: (string, string, string) -> Fetch)        // the card (set, number) in a language

  // ---------------------------------------------------------------- legacy rows

  /** The columns the legacy query selects, in its order. */
  const LegacySelect: seq<string> := ["tcgdex_id", "variant", "language", "quantity"]

  function IdKey(c: OwnedCard): seq<string>
  {
    [c.tcgdexId]
  }

  /** `SELECT tcgdex_id, variant, language, quantity FROM cards ORDER BY tcgdex_id`. */
  function ReadLegacy(s: Store): (r: Result<seq<OwnedCard>>)
    requires WellShaped(s)
    ensures "cards" !in s.tables ==> r == Err("no such table: cards")
    ensures "cards" in s.tables ==> (r.Ok? <==> forall c :: c in LegacySelect ==> c in s.tables["cards"].columns)
    ensures r.Err? && "cards" in s.tables ==>
              exists c :: c in LegacySelect && c !in s.tables["cards"].columns && r.error == "no such column: " + c
    ensures r.Ok? ==> s.tables["cards"].rows.Ownership? &&
                      multiset(r.value) == multiset(s.tables["cards"].rows.owned) && SortedBy(r.value, IdKey)
  {
    if "cards" !in s.tables then Err("no such table: cards")
    else
      var t := s.tables["cards"];
      match FirstMissing(t.columns, LegacySelect)
      case Some(c) => Err("no such column: " + c)
      case None =>
        assert LegacySelect[3] == "quantity";
        Ok(SortBy(t.rows.owned, IdKey))
  }

  // ---------------------------------------------------------------- grouping

  /** One legacy row without its id: `(variant, language, quantity)`. */
  datatype Holding = Holding(variant: string, language: string, quantity: int)

  /** The legacy rows of one `tcgdex_id`, in row order. */
  datatype Group = Group(id: string, holdings: seq<Holding>)

  function HoldingOf(c: OwnedCard): Holding
  {
    Holding(c.variant, c.language, c.quantity)
  }

  /** Where `id` sits among the groups built so far. */
  function FindGroup(gs: seq<Group>, id: string): (r: Option<nat>)
    ensures r.Some? ==> r.value < |gs| && gs[r.value].id == id
    ensures r.None? ==> forall j :: 0 <= j < |gs| ==> gs[j].id != id
  {
    if gs == [] then None
    else if gs[0].id == id then Some(0)
    else match FindGroup(gs[1..], id)
      case Some(j) => Some(j + 1)
      case None => None
  }

  /** One step of building `cards_by_id`: append to the id's group, or open a new one at the end. */
  function AddHolding(gs: seq<Group>, c: OwnedCard): seq<Group>
  {
    match FindGroup(gs, c.tcgdexId)
    case Some(j) => gs[j := Group(c.tcgdexId, gs[j].holdings + [HoldingOf(c)])]
    case None => gs + [Group(c.tcgdexId, [HoldingOf(c)])]
  }

  /** `cards_by_id`: an insertion-ordered dictionary, as a sequence of groups. */
  function GroupById(rows: seq<OwnedCard>): seq<Group>
  {
    if rows == [] then [] else AddHolding(GroupById(rows[..|rows| - 1]), rows[|rows| - 1])
  }

  /** The holdings of `id`, in row order: the reference the grouping is measured against. */
  function HoldingsOf(rows: seq<OwnedCard>, id: string): seq<Holding>
  {
    if rows == [] then []
    else
      var last := rows[|rows| - 1];
      HoldingsOf(rows[..|rows| - 1], id) + (if last.tcgdexId == id then [HoldingOf(last)] else [])
  }

  function Ids(rows: seq<OwnedCard>): set<string>
  {
    set c | c in rows :: c.tcgdexId
  }

  predicate DistinctIds(gs: seq<Group>)
  {
    forall i, j :: 0 <= i < j < |gs| ==> gs[i].id != gs[j].id
  }

  // ---------------------------------------------------------------- one card

  /** How the English document of a card was found. */
  datatype Lookup = Lookup(loadedFromJson: bool, fetchedFromApi: bool, data: Result<Json>)

  /**
   * The English document: the raw-data file first; the catalog service when the file is
   * missing, unreadable, or holds a value Python treats as false.
   */
  function LookupCard(env: Env, id: string, setId: string, number: string): (r: Lookup)
    ensures r.loadedFromJson <==> env.cardFile(id).Loaded?
    ensures env.cardFile(id).Loaded? && env.cardFile(id).json.Truthy() ==>
              r.data == Ok(env.cardFile(id).json) && !r.fetchedFromApi
    ensures !(env.cardFile(id).Loaded? && env.cardFile(id).json.Truthy()) ==>
              (r.fetchedFromApi <==> r.data.Ok?) &&
              (r.data.Ok? ==> env.api("en", setId, number) == Fetched(r.data.value)) &&
              (r.data.Err? ==> env.api("en", setId, number) == FetchFailed(r.data.error))
  {
    var file := env.cardFile(id);
    if file.Loaded? && file.json.Truthy() then Lookup(true, false, Ok(file.json))
    else match env.api("en", setId, number)
      case Fetched(j) => Lookup(file.Loaded?, true, Ok(j))
      case FetchFailed(m) => Lookup(file.Loaded?, false, Err(m))
  }

  /** The message of `AttributeError` for `.get` on a value of type `typeName`. */
  function NoGet(typeName: string): string
  {
    "'" + typeName + "' object has no attribute 'get'"
  }

  /**
   * The v2 card row read from a document: `.get` on a value that is not an object
   * raises, and so does `.get` on a `legal` member that is not an object.
   */
  function Extract(j: Json, setId: string, number: string): (r: Result<CardRow>)
    ensures r.Ok? <==> j.Object? && !j.card.legal.LegalNotObject?
    ensures j.NotObject? ==> r == Err(NoGet(j.typeName))
    ensures j.Object? && j.card.legal.LegalNotObject? ==> r == Err(NoGet(j.card.legal.typeName))
    ensures r.Ok? ==> r.value.setId == setId && r.value.cardNumber == number
    ensures r.Ok? ==> r.value.name == j.card.name.GetOr("Unknown")
    ensures r.Ok? ==> (r.value.types.Some? <==> j.card.types.Some? && j.card.types.value != [])
    ensures r.Ok? && j.card.legal.LegalAbsent? ==> !r.value.legalStandard && !r.value.legalExpanded
  {
    match j
    case NotObject(t, _) => Err(NoGet(t))
    case Object(p) =>
      match p.legal
      case LegalNotObject(t) => Err(NoGet(t))
      case LegalAbsent => Ok(RowOf(p, setId, number, false, false))
      case LegalObject(standard, expanded) => Ok(RowOf(p, setId, number, standard.GetOr(false), expanded.GetOr(false)))
  }

  /** The fourteen values of the card insert; the types list is written only when non-empty. */
  function RowOf(p: CardPayload, setId: string, number: string, standard: bool, expanded: bool): CardRow
  {
    var types := if p.types.Some? && p.types.value != [] then p.types else None;
    CardRow(setId, number, p.name.GetOr("Unknown"), p.rarity, types, p.hp, p.stage, p.category, p.image,
            standard, expanded)
  }

  /** The card being migrated: its id, the two halves of the id, and its English name. */
  datatype Card = Card(id: string, setId: string, number: string, nameEn: string)

  function NameIn(j: Json, fallback: string): string
  {
    match j
    case Object(p) => p.name.GetOr(fallback)
    case NotObject(_, _) => fallback
  }

  /** The name a localized document gives `language`: the file first, the catalog only when there is no file. */
  ghost predicate NamedByDocument(env: Env, c: Card, language: string, name: string)
  {
    var file := env.nameFile(c.id, language);
    var fetched := env.api(language, c.setId, c.number);
    language != "en" &&
    ((file.Loaded? && file.json.Object? && file.json.card.name == Some(name)) ||
     (file.Missing? && fetched.Fetched? && fetched.json.Object? && fetched.json.card.name == Some(name)))
  }

  /** The localized name written for `language`: the document's name, otherwise the English one. */
  function LocalizedName(env: Env, c: Card, language: string): (r: string)
    ensures language == "en" ==> r == c.nameEn
    ensures r == c.nameEn || NamedByDocument(env, c, language, r)
    ensures NamedByDocument(env, c, language, r) || (r == c.nameEn && !exists n :: n != c.nameEn && NamedByDocument(env, c, language, n))
  {
    if language == "en" then c.nameEn
    else match env.nameFile(c.id, language)
      case Loaded(j) => NameIn(j, c.nameEn)
      case Unreadable => c.nameEn
      case Missing =>
        match env.api(language, c.setId, c.number)
        case Fetched(j) => NameIn(j, c.nameEn)
        case FetchFailed(_) => c.nameEn
  }

  /**
   * The writes of one card create no table, change no table's columns, and leave every
   * table but the three v2 tables as it was.
   */
  predicate Untouched(a: Store, b: Store)
  {
    a.tables.Keys == b.tables.Keys &&
    (forall n :: n in a.tables ==> b.tables[n].columns == a.tables[n].columns) &&
    (forall n :: n in a.tables && n != "cards" && n != "card_names" && n != "owned_cards" ==> b.tables[n] == a.tables[n])
  }

  lemma UntouchedTrans(a: Store, b: Store, c: Store)
    requires Untouched(a, b) && Untouched(b, c)
    ensures Untouched(a, c)
  {
  }

  /** Writing rows into one of the three v2 tables leaves the store untouched in layout. */
  lemma WithRowsUntouched(s: Store, table: string, rows: Rows)
    requires table in s.tables && (table == "cards" || table == "card_names" || table == "owned_cards")
    ensures Untouched(s, WithRows(s, table, rows))
  {
  }

  /** The state of the name loop: `languages_seen`, the names counted, the connection's view. */
  datatype NamePass = NamePass(seen: set<string>, count: nat, view: Store)

  function NameStep(env: Env, dryRun: bool, c: Card, st: NamePass, h: Holding): (r: NamePass)
    requires WellShaped(st.view)
    ensures WellShaped(r.view) && Untouched(st.view, r.view)
    ensures r.seen == st.seen + {h.language}
    ensures h.language in st.seen ==> r == st
    ensures h.language !in st.seen && dryRun ==> r.count == st.count + 1 && r.view == st.view
    ensures h.language !in st.seen ==> r.count <= st.count + 1
  {
    if h.language in st.seen then st
    else
      var name := LocalizedName(env, c, h.language);
      var seen := st.seen + {h.language};
      if dryRun then NamePass(seen, st.count + 1, st.view)
      else match InsertName(st.view, c.id, h.language, name)
        case Ok(v) => NamePass(seen, st.count + 1, v)
        case Err(_) => NamePass(seen, st.count, st.view)
  }

  function Languages(hs: seq<Holding>): set<string>
  {
    set h | h in hs :: h.language
  }

  /** The name loop of one card: one name per distinct language, the first occurrence deciding. */
  function NamesPass(env: Env, dryRun: bool, c: Card, hs: seq<Holding>, view: Store): (r: NamePass)
    requires WellShaped(view)
    ensures WellShaped(r.view) && Untouched(view, r.view)
    ensures r.seen == Languages(hs)
    ensures r.count <= |r.seen|
    ensures dryRun ==> r.count == |r.seen| && r.view == view
    decreases |hs|
  {
    if hs == [] then NamePass({}, 0, view)
    else
      var init, last := hs[..|hs| - 1], hs[|hs| - 1];
      assert Languages(hs) == Languages(init) + {last.language} by {
        assert hs == init + [last];
      }
      NameStep(env, dryRun, c, NamesPass(env, dryRun, c, init, view), last)
  }

  /** The state of the ownership loop: the records counted and the connection's view. */
  datatype OwnedPass = OwnedPass(count: nat, view: Store)

  function OwnedStep(dryRun: bool, id: string, st: OwnedPass, h: Holding): (r: OwnedPass)
    requires WellShaped(st.view)
    ensures WellShaped(r.view) && Untouched(st.view, r.view)
    ensures r.count <= st.count + 1
    ensures dryRun ==> r == OwnedPass(st.count + 1, st.view)
  {
    if dryRun then OwnedPass(st.count + 1, st.view)
    else match InsertOwned(st.view, id, h.variant, h.language, h.quantity)
      case Ok(v) => OwnedPass(st.count + 1, v)
      case Err(_) => st
  }

  /** The ownership loop of one card: one insert per legacy row. */
  function OwnedPassOf(dryRun: bool, id: string, hs: seq<Holding>, view: Store): (r: OwnedPass)
    requires WellShaped(view)
    ensures WellShaped(r.view) && Untouched(view, r.view)
    ensures r.count <= |hs|
    ensures dryRun ==> r.count == |hs| && r.view == view
    decreases |hs|
  {
    if hs == [] then OwnedPass(0, view)
    else OwnedStep(dryRun, id, OwnedPassOf(dryRun, id, hs[..|hs| - 1], view), hs[|hs| - 1])
  }

  /** The six counters of the run. */
  datatype Stats = Stats(
    cardsMigrated: nat,
    fetchedFromApi: nat,
    loadedFromJson: nat,
    cardsFailed: nat,
    namesMigrated: nat,
    ownershipMigrated: nat)

  const NoStats := Stats(0, 0, 0, 0, 0, 0)

  /** The counters, `failed_cards`, and what the connection sees of the database. */
  datatype Progress = Progress(stats: Stats, failures: seq<(string, string)>, view: Store)

  /** A card that failed: the counter, the failure list, and nothing written. */
  function Failed(p: Progress, looked: Stats, id: string, message: string): (r: Progress)
    ensures r.view == p.view && r.failures == p.failures + [(id, message)]
    ensures r.stats == looked.(cardsFailed := looked.cardsFailed + 1)
  {
    Progress(looked.(cardsFailed := looked.cardsFailed + 1), p.failures + [(id, message)], p.view)
  }

  /**
   * One iteration of the card loop. Parsing the id is outside any handler, so an id
   * without `-` ends the run; every other problem fails this card only.
   */
  function CardStep(env: Env, dryRun: bool, p: Progress, g: Group): (r: Result<Progress>)
    requires WellShaped(p.view)
    ensures r.Err? <==> '-' !in g.id
    ensures r.Err? ==> r.error == "Invalid TCGdex ID format: " + g.id
    ensures r.Ok? ==> WellShaped(r.value.view) && Untouched(p.view, r.value.view)
    ensures r.Ok? ==> r.value.stats.cardsMigrated + r.value.stats.cardsFailed ==
                      p.stats.cardsMigrated + p.stats.cardsFailed + 1
    ensures r.Ok? && r.value.stats.cardsFailed != p.stats.cardsFailed ==>
              r.value.view == p.view && p.failures <= r.value.failures &&
              |r.value.failures| == |p.failures| + 1 && r.value.failures[|p.failures|].0 == g.id
    ensures r.Ok? && r.value.stats.cardsFailed == p.stats.cardsFailed ==> r.value.failures == p.failures
    ensures r.Ok? ==> r.value.stats.loadedFromJson <= p.stats.loadedFromJson + 1 &&
                      r.value.stats.fetchedFromApi <= p.stats.fetchedFromApi + 1
    ensures r.Ok? && dryRun ==> r.value.view == p.view
  {
    match Collection.ParseTcgdexId(g.id)
    case Err(e) => Err(e)
    case Ok(parts) => Ok(CardFound(env, dryRun, p, g, parts.0, parts.1))
  }

  /**
   * The card row a real run writes for `id`: the id taken apart, its English document
   * looked up, and the row extracted from it; any of the three can fail.
   */
  function DocRow(env: Env, id: string): Result<CardRow>
  {
    match Collection.ParseTcgdexId(id)
    case Err(e) => Err(e)
    case Ok(parts) =>
      match LookupCard(env, id, parts.0, parts.1).data
      case Err(m) => Err(m)
      case Ok(j) => Extract(j, parts.0, parts.1)
  }

  /** The counters after the lookup: one more card read from its file, one more fetched. */
  function Looked(stats: Stats, lk: Lookup): Stats
  {
    stats.(loadedFromJson := stats.loadedFromJson + (if lk.loadedFromJson then 1 else 0),
           fetchedFromApi := stats.fetchedFromApi + (if lk.fetchedFromApi then 1 else 0))
  }

  /**
   * One iteration once the id has been taken apart: look the document up, then fail the
   * card or write it. Each card is counted once, as migrated or as failed.
   */
  function CardFound(env: Env, dryRun: bool, p: Progress, g: Group, setId: string, number: string): (r: Progress)
    requires WellShaped(p.view)
    ensures WellShaped(r.view) && Untouched(p.view, r.view)
    ensures r.stats.cardsMigrated + r.stats.cardsFailed == p.stats.cardsMigrated + p.stats.cardsFailed + 1
    ensures r.stats.cardsFailed != p.stats.cardsFailed ==>
              r.view == p.view && p.failures <= r.failures &&
              |r.failures| == |p.failures| + 1 && r.failures[|p.failures|].0 == g.id
    ensures r.stats.cardsFailed == p.stats.cardsFailed ==> r.failures == p.failures
    ensures r.stats.loadedFromJson <= p.stats.loadedFromJson + 1 &&
            r.stats.fetchedFromApi <= p.stats.fetchedFromApi + 1
    ensures dryRun ==> r.view == p.view
  {
    var lk := LookupCard(env, g.id, setId, number);
    match lk.data
    case Err(m) => Failed(p, Looked(p.stats, lk), g.id, m)
    case Ok(j) => WriteCard(env, dryRun, p, Looked(p.stats, lk), g, setId, number, j)
  }

  /**
   * The rest of one iteration once a document is in hand: extract, insert the card, then
   * its names and its ownership rows. A failed extraction or card insert fails the card.
   */
  function WriteCard(env: Env, dryRun: bool, p: Progress, looked: Stats, g: Group,
                     setId: string, number: string, j: Json): (r: Progress)
    requires WellShaped(p.view)
    ensures WellShaped(r.view) && Untouched(p.view, r.view)
    ensures r.stats.cardsMigrated + r.stats.cardsFailed == looked.cardsMigrated + looked.cardsFailed + 1
    ensures r.stats.loadedFromJson == looked.loadedFromJson && r.stats.fetchedFromApi == looked.fetchedFromApi
    ensures r.stats.cardsFailed != looked.cardsFailed ==>
              r.view == p.view && p.failures <= r.failures &&
              |r.failures| == |p.failures| + 1 && r.failures[|p.failures|].0 == g.id
    ensures r.stats.cardsFailed == looked.cardsFailed ==> r.failures == p.failures
    ensures dryRun ==> r.view == p.view
  {
    match Extract(j, setId, number)
    case Err(e) => Failed(p, looked, g.id, "Data extraction failed: " + e)
    case Ok(row) =>
      var inserted := if dryRun then Ok(p.view) else InsertCard(p.view, g.id, row);
      match inserted
      case Err(e) => Failed(p, looked, g.id, "Insert into cards failed: " + e)
      case Ok(v) =>
        assert Untouched(p.view, v) by {
          if !dryRun {
            WithRowsUntouched(p.view, "cards", Cards(p.view.tables["cards"].rows.byId[g.id := row]));
          }
        }
        var r := CardWritten(env, dryRun, p, looked, g, Card(g.id, setId, number, row.name), v);
        UntouchedTrans(p.view, v, r.view);
        r
  }

  /** The card row is in: one more card migrated, then its names and its ownership rows. */
  function CardWritten(env: Env, dryRun: bool, p: Progress, looked: Stats, g: Group, c: Card, v: Store): (r: Progress)
    requires WellShaped(v)
    ensures WellShaped(r.view) && Untouched(v, r.view)
    ensures r.stats.cardsMigrated == looked.cardsMigrated + 1 && r.stats.cardsFailed == looked.cardsFailed
    ensures r.stats.loadedFromJson == looked.loadedFromJson && r.stats.fetchedFromApi == looked.fetchedFromApi
    ensures r.failures == p.failures
    ensures dryRun ==> r.view == v
  {
    var names := NamesPass(env, dryRun, c, g.holdings, v);
    var owned := OwnedPassOf(dryRun, g.id, g.holdings, names.view);
    Progress(looked.(cardsMigrated := looked.cardsMigrated + 1,
                     namesMigrated := looked.namesMigrated + names.count,
                     ownershipMigrated := looked.ownershipMigrated + owned.count),
             p.failures, owned.view)
  }

  /** Every id of the groups splits on `-`. */
  predicate AllParsable(gs: seq<Group>)
  {
    forall i :: 0 <= i < |gs| ==> '-' in gs[i].id
  }

  /** The card loop over the groups, from the progress `p0`; the first bad id ends it. */
  function MigrateGroups(env: Env, dryRun: bool, gs: seq<Group>, p0: Progress): (r: Result<Progress>)
    requires WellShaped(p0.view)
    ensures r.Ok? <==> AllParsable(gs)
    ensures r.Ok? ==> WellShaped(r.value.view) && Untouched(p0.view, r.value.view)
    ensures r.Ok? && dryRun ==> r.value.view == p0.view
    decreases |gs|
  {
    if gs == [] then Ok(p0)
    else
      var init, last := gs[..|gs| - 1], gs[|gs| - 1];
      assert AllParsable(gs) <==> AllParsable(init) && '-' in last.id by {
        assert forall i :: 0 <= i < |init| ==> init[i] == gs[i];
      }
      match MigrateGroups(env, dryRun, init, p0)
      case Err(e) => Err(e)
      case Ok(p) => CardStep(env, dryRun, p, last)
  }

  /**
   * The counters after `n` groups from `p0`: every group is counted once, as migrated or
   * failed; the failure list grows by one entry per failed card; a group reads at most one
   * file and makes at most one fetch.
   */
  predicate Counted(p0: Progress, p: Progress, n: nat)
  {
    p.stats.cardsMigrated + p.stats.cardsFailed == p0.stats.cardsMigrated + p0.stats.cardsFailed + n &&
    |p.failures| + p0.stats.cardsFailed == |p0.failures| + p.stats.cardsFailed &&
    p0.failures <= p.failures &&
    p.stats.loadedFromJson <= p0.stats.loadedFromJson + n &&
    p.stats.fetchedFromApi <= p0.stats.fetchedFromApi + n
  }

  lemma PrefixTrans(a: seq<(string, string)>, b: seq<(string, string)>, c: seq<(string, string)>)
    requires a <= b && b <= c
    ensures a <= c
  {
    assert b[..|a|] == a;
    assert c[..|b|][..|a|] == c[..|a|];
  }

  /** One more iteration counts one more group. */
  lemma CountedStep(env: Env, dryRun: bool, p0: Progress, q: Progress, g: Group, n: nat)
    requires WellShaped(q.view) && Counted(p0, q, n) && CardStep(env, dryRun, q, g).Ok?
    ensures Counted(p0, CardStep(env, dryRun, q, g).value, n + 1)
  {
    var p := CardStep(env, dryRun, q, g).value;
    assert q.failures <= p.failures;
    PrefixTrans(p0.failures, q.failures, p.failures);
  }

  /** The counters of a card loop that got through all the groups. */
  lemma {:induction false} MigrateGroupsCounts(env: Env, dryRun: bool, gs: seq<Group>, p0: Progress)
    requires WellShaped(p0.view) && MigrateGroups(env, dryRun, gs, p0).Ok?
    ensures Counted(p0, MigrateGroups(env, dryRun, gs, p0).value, |gs|)
    decreases |gs|
  {
    if gs == [] {
    } else {
      var init := gs[..|gs| - 1];
      MigrateGroupsCounts(env, dryRun, init, p0);
      CountedStep(env, dryRun, p0, MigrateGroups(env, dryRun, init, p0).value, gs[|gs| - 1], |init|);
    }
  }

  // ---------------------------------------------------------------- a run

  /** How `migrate_v1_to_v2` ends. */
  datatype Outcome =
    | Skipped(reason: string)                                 // status "skipped"
    | Refused(reason: string)                                 // status "error"
    | Completed(stats: Stats, failures: seq<(string, string)>, validation: Option<Validation>)
    | Raised(error: string)                                   // an exception escapes

  const EmptyReason := "Database is empty (nothing to migrate)"
  const AlreadyV2Reason := "Database already uses v2 schema"
  const UnknownReason := "Unknown database schema (manual intervention required)"

  /** The database files and backups on disk. */
  type Files = map<Path, Store>

  datatype Run = Run(outcome: Outcome, files: Files)

  /** The file `sqlite3.connect` opens: the existing one, or a new empty one. */
  function Opened(files: Files, dbPath: Path): Store
  {
    if dbPath in files then files[dbPath] else Empty
  }

  /** A stamp holds digits and `_` only, so it never brings a separator into a file name. */
  lemma StampHasNoSlash(d: Clock.DateTime)
    requires d.Valid()
    ensures '/' !in Clock.Stamp(d)
  {
    var s := Clock.Stamp(d);
    forall k | 0 <= k < |s| ensures s[k] != '/' {
      assert Clock.IsDigit(s[k]) || s[k] == '_';
    }
  }

  /** The name `create_backup` gives the copy, to the second. */
  function BackupName(now: Clock.DateTime): (n: string)
    requires now.Valid()
    ensures IsPart(n)
  {
    StampHasNoSlash(now);
    "pokedex_v1_backup_" + Clock.Stamp(now) + ".db"
  }

  function BackupPath(backups: Path, now: Clock.DateTime): Path
    requires now.Valid()
  {
    Slash(backups, BackupName(now))
  }

  /** The message of `shutil.SameFileError`. */
  function SameFile(a: Path, b: Path): string
  {
    Str(a) + " and " + Str(b) + " are the same file"
  }

  /** The outcome of the renames: the store they left behind and the error, if one was raised. */
  datatype Renamed = Renamed(store: Store, error: Option<string>)

  /** `card_cache` (when present) and then `cards` get a `_v1_backup` suffix. */
  function RenameLegacy(s: Store): (r: Renamed)
    requires WellShaped(s)
    ensures WellShaped(r.store)
    ensures r.error.None? <==>
              "cards" in s.tables && "cards_v1_backup" !in s.tables &&
              ("card_cache" in s.tables ==> "card_cache_v1_backup" !in s.tables)
    ensures r.error.None? ==>
              r.store.tables.Keys == s.tables.Keys - {"cards", "card_cache"} + {"cards_v1_backup"} +
                                     (if "card_cache" in s.tables then {"card_cache_v1_backup"} else {})
    ensures r.error.None? ==> r.store.tables["cards_v1_backup"] == s.tables["cards"]
    ensures r.error.None? && "card_cache" in s.tables ==>
              r.store.tables["card_cache_v1_backup"] == s.tables["card_cache"]
    ensures r.error.None? ==>
              forall n :: n in s.tables && n != "cards" && n != "card_cache" ==> r.store.tables[n] == s.tables[n]
  {
    var first := if "card_cache" in s.tables then Rename(s, "card_cache", "card_cache_v1_backup") else Ok(s);
    if first.Err? then Renamed(s, Some(first.error))
    else
      var s1 := first.value;
      match Rename(s1, "cards", "cards_v1_backup")
      case Err(e) => Renamed(s1, Some(e))
      case Ok(s2) => Renamed(s2, None)
  }

  /**
   * `migrate_v1_to_v2(db_path, dry_run)` with the backups directory `backups`, the
   * instant `now` and the table script `script` it runs.
   */
  function Migrate(files: Files, dbPath: Path, backups: Path, now: Clock.DateTime, env: Env,
                   dryRun: bool, script: seq<TableDef>): (r: Run)
    requires now.Valid() && ScriptShaped(script)
    requires dbPath in files ==> WellShaped(files[dbPath])
    ensures dbPath in r.files && WellShaped(r.files[dbPath])
    ensures r.files.Keys <= files.Keys + {dbPath, BackupPath(backups, now)}
    ensures r.outcome.Completed? ==> (r.outcome.validation.None? <==> dryRun)
  {
    var db := Opened(files, dbPath);
    var current := files[dbPath := db];
    var version := DetectSchemaVersion(db);
    if version == 0 then Run(Skipped(EmptyReason), current)
    else if version == 2 then Run(Skipped(AlreadyV2Reason), current)
    else if version != 1 then Run(Refused(UnknownReason), current)
    else if !dryRun && BackupPath(backups, now) == dbPath then Run(Raised(SameFile(dbPath, dbPath)), current)
    else
      var backedUp := if dryRun then current else current[BackupPath(backups, now) := db];
      MigrateLegacy(backedUp, dbPath, db, env, dryRun, script)
  }

  /** The run once the backup is made: read the legacy rows, then convert or only count. */
  function MigrateLegacy(backedUp: Files, dbPath: Path, db: Store, env: Env, dryRun: bool,
                         script: seq<TableDef>): (r: Run)
    requires WellShaped(db) && ScriptShaped(script)
    requires dbPath in backedUp && backedUp[dbPath] == db
    ensures dbPath in r.files && r.files == backedUp[dbPath := r.files[dbPath]]
    ensures WellShaped(r.files[dbPath])
    ensures dryRun ==> r.files == backedUp
    ensures r.outcome.Completed? ==> (r.outcome.validation.None? <==> dryRun)
    ensures r.outcome.Completed? || r.outcome.Raised?
  {
    match ReadLegacy(db)
    case Err(e) => Run(Raised(e), backedUp)
    case Ok(rows) =>
      if dryRun then
        match MigrateGroups(env, true, GroupById(rows), Progress(NoStats, [], db))
        case Err(e) => Run(Raised(e), backedUp)
        case Ok(p) => Run(Completed(p.stats, p.failures, None), backedUp)
      else Convert(backedUp, dbPath, db, rows, env, script)
  }

  /**
   * The writing part of a run: rename the legacy tables, run the table script, migrate
   * the cards and validate. The file holds whatever the connection had committed when
   * the run stopped.
   */
  function Convert(backedUp: Files, dbPath: Path, db: Store, rows: seq<OwnedCard>, env: Env,
                   script: seq<TableDef>): (r: Run)
    requires WellShaped(db) && ScriptShaped(script)
    requires dbPath in backedUp
    ensures dbPath in r.files && r.files == backedUp[dbPath := r.files[dbPath]]
    ensures WellShaped(r.files[dbPath])
    ensures r.outcome.Completed? ==> r.outcome.validation.Some?
    ensures r.outcome.Completed? || r.outcome.Raised?
  {
    var renamed := RenameLegacy(db);
    if renamed.error.Some? then Run(Raised(renamed.error.value), backedUp[dbPath := renamed.store])
    else
      ScriptKeepsShape(renamed.store, script);
      Populate(backedUp, dbPath, ExecuteScript(renamed.store, script), rows, env)
  }

  /** The card loop into the tables the script created, the commit and the validation. */
  function Populate(backedUp: Files, dbPath: Path, created: Store, rows: seq<OwnedCard>, env: Env): (r: Run)
    requires WellShaped(created) && dbPath in backedUp
    ensures dbPath in r.files && r.files == backedUp[dbPath := r.files[dbPath]]
    ensures WellShaped(r.files[dbPath])
    ensures r.outcome.Completed? ==> r.outcome.validation.Some?
    ensures r.outcome.Completed? || r.outcome.Raised?
  {
    match MigrateGroups(env, false, GroupById(rows), Progress(NoStats, [], created))
    case Err(e) => Run(Raised(e), backedUp[dbPath := created])
    case Ok(p) =>
      match Validate(p.view)
      case Err(e) => Run(Raised(e), backedUp[dbPath := p.view])
      case Ok(v) => Run(Completed(p.stats, p.failures, Some(v)), backedUp[dbPath := p.view])
  }

  // ---------------------------------------------------------------- rollback

  /** The name of the safety copy `rollback_migration` makes beside the database. */
  function SafetyName(now: Clock.DateTime): (n: string)
    requires now.Valid()
    ensures IsPart(n)
  {
    StampHasNoSlash(now);
    "pokedex_before_rollback_" + Clock.Stamp(now) + ".db"
  }

  function SafetyPath(dbPath: Path, now: Clock.DateTime): Path
    requires now.Valid()
  {
    Slash(Parent(dbPath), SafetyName(now))
  }

  /** A safety copy and a backup never share a name. */
  lemma SafetyNotBackup(dbPath: Path, backups: Path, now: Clock.DateTime, later: Clock.DateTime)
    requires now.Valid() && later.Valid()
    ensures SafetyPath(dbPath, later) != BackupPath(backups, now)
  {
    var a, b := SafetyName(later), BackupName(now);
    assert a[8] == 'b' && b[8] == 'v';
    assert SafetyPath(dbPath, later).parts[|SafetyPath(dbPath, later).parts| - 1] == a;
    assert BackupPath(backups, now).parts[|BackupPath(backups, now).parts| - 1] == b;
  }

  /** The files after `rollback_migration`, and the error it raised, if any. */
  datatype Restored = Restored(files: Files, error: Option<string>)

  /**
   * `rollback_migration(backup, db_path)`: nothing happens without the backup; otherwise
   * the current database is copied aside and the backup is copied over it. Each copy
   * that raises leaves the copies made before it in place.
   */
  function Rollback(files: Files, backup: Path, dbPath: Path, now: Clock.DateTime): (r: Restored)
    requires now.Valid()
    ensures backup !in files ==> r == Restored(files, None)
    ensures backup in files ==>
              (r.error.None? <==> dbPath in files && backup != dbPath && SafetyPath(dbPath, now) != dbPath)
    ensures dbPath !in files || SafetyPath(dbPath, now) == dbPath ==> r.files == files
    ensures dbPath in files && SafetyPath(dbPath, now) != dbPath && backup in files ==>
              SafetyPath(dbPath, now) in r.files && r.files[SafetyPath(dbPath, now)] == files[dbPath]
    ensures r.error.None? && backup in files ==>
              dbPath in r.files && r.files[dbPath] == (if backup == SafetyPath(dbPath, now) then files[dbPath] else files[backup])
    ensures r.error.Some? && dbPath in files ==> dbPath in r.files && r.files[dbPath] == files[dbPath]
    ensures forall q :: q in files && q != dbPath && q != SafetyPath(dbPath, now) ==> q in r.files && r.files[q] == files[q]
    ensures forall q :: q in r.files ==> q in files || q == SafetyPath(dbPath, now)
  {
    if backup !in files then Restored(files, None)
    else if dbPath !in files then Restored(files, Some("No such file or directory: " + Str(dbPath)))
    else
      var safety := SafetyPath(dbPath, now);
      if safety == dbPath then Restored(files, Some(SameFile(dbPath, safety)))
      else
        var kept := files[safety := files[dbPath]];
        if backup == dbPath then Restored(kept, Some(SameFile(backup, dbPath)))
        else Restored(kept[dbPath := kept[backup]], None)
  }
}
