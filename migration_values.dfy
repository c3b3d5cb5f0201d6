/**
 * What the card loop writes, value by value, when the v2 tables are in place: each card
 * row is the one extracted from the card's English document, each name is the name
 * localized into its language, and each ownership row holds the quantity of the last
 * legacy row with its `(tcgdex_id, variant, language)`, in the order the legacy query
 * returns the rows (`INSERT OR REPLACE` keeps the last write).
 */
module MigrationValues {
  import opened Wrappers
  import opened Payloads
  import opened Models
  import opened Store
  import opened Migration
  import opened MigrationWrites

  /** The rows of the v2 `cards` table by id; none when the table is missing or in the v1 layout. */
  function CardsOf(s: Store): map<string, CardRow>
  {
    if "cards" in s.tables && s.tables["cards"].rows.Cards? then s.tables["cards"].rows.byId else map[]
  }

  /** The names of `card_names` by `(tcgdex_id, language)`. */
  function NamesOf(s: Store): map<(string, string), string>
  {
    if "card_names" in s.tables && s.tables["card_names"].rows.Names? then s.tables["card_names"].rows.byName else map[]
  }

  /** The quantities of `owned_cards` by `(tcgdex_id, variant, language)`. */
  function OwnedOf(s: Store): map<(string, string, string), int>
  {
    if "owned_cards" in s.tables && s.tables["owned_cards"].rows.Owned? then s.tables["owned_cards"].rows.byKey else map[]
  }

  /** Updating a merge at one key is merging with the update. */
  lemma MergeUpdate<K, V>(a: map<K, V>, b: map<K, V>, k: K, x: V)
    ensures (a + b)[k := x] == a + b[k := x]
  {
  }

  lemma KeysOfMaps(s: Store)
    ensures CardsOf(s).Keys == CardKeys(s) && NamesOf(s).Keys == NameKeys(s) && OwnedOf(s).Keys == OwnedKeys(s)
  {
  }

  // ---------------------------------------------------------------- the name loop

  /** The names the name loop of a card calls for: for each language of its rows, the name localized into it. */
  function NameRows(env: Env, c: Card, hs: seq<Holding>): (m: map<(string, string), string>)
    ensures m.Keys == NamesFor(c.id, hs)
    ensures forall k :: k in m ==> m[k] == LocalizedName(env, c, k.1)
  {
    if hs == [] then map[]
    else
      var init, last := hs[..|hs| - 1], hs[|hs| - 1];
      assert NamesFor(c.id, hs) == NamesFor(c.id, init) + {(c.id, last.language)} by {
        assert hs == init + [last];
      }
      NameRows(env, c, init)[(c.id, last.language) := LocalizedName(env, c, last.language)]
  }

  /** One step of the name loop leaves the localized name of its language, written now or before. */
  lemma NameStepValues(env: Env, c: Card, st: NamePass, h: Holding)
    requires WellShaped(st.view) && InsertError(st.view, "card_names", NameColumns).None?
    requires h.language in st.seen ==>
               (c.id, h.language) in NamesOf(st.view) && NamesOf(st.view)[(c.id, h.language)] == LocalizedName(env, c, h.language)
    ensures NamesOf(NameStep(env, false, c, st, h).view) ==
            NamesOf(st.view)[(c.id, h.language) := LocalizedName(env, c, h.language)]
  {
    if h.language !in st.seen {
      var name := LocalizedName(env, c, h.language);
      assert InsertName(st.view, c.id, h.language, name).Ok?;
    }
  }

  /**
   * The name loop of a card, with `card_names` in place, writes for each language of its
   * rows the name localized into that language, and keeps every other name.
   */
  lemma {:induction false} NamesPassValues(env: Env, c: Card, hs: seq<Holding>, v: Store)
    requires WellShaped(v) && InsertError(v, "card_names", NameColumns).None?
    ensures NamesOf(NamesPass(env, false, c, hs, v).view) == NamesOf(v) + NameRows(env, c, hs)
    decreases |hs|
  {
    if hs != [] {
      var init, last := hs[..|hs| - 1], hs[|hs| - 1];
      NamesPassValues(env, c, init, v);
      var st := NamesPass(env, false, c, init, v);
      assert InsertError(st.view, "card_names", NameColumns).None? by {
        assert st.view.tables["card_names"].columns == v.tables["card_names"].columns;
      }
      assert last.language in st.seen ==> (c.id, last.language) in NameRows(env, c, init) by {
        if last.language in st.seen {
          var h :| h in init && h.language == last.language;
          assert (c.id, h.language) in NamesFor(c.id, init);
        }
      }
      NameStepValues(env, c, st, last);
      NamesPassSnoc(env, c, hs, v);
      MergeUpdate(NamesOf(v), NameRows(env, c, init), (c.id, last.language), LocalizedName(env, c, last.language));
    }
  }

  // ---------------------------------------------------------------- the ownership loop

  /** The quantities the ownership loop of a card writes, one row after another, the later replacing the earlier. */
  function OwnedRows(id: string, hs: seq<Holding>): (m: map<(string, string, string), int>)
    ensures m.Keys == OwnedFor(id, hs)
  {
    if hs == [] then map[]
    else
      var init, last := hs[..|hs| - 1], hs[|hs| - 1];
      assert OwnedFor(id, hs) == OwnedFor(id, init) + {(id, last.variant, last.language)} by {
        assert hs == init + [last];
      }
      OwnedRows(id, init)[(id, last.variant, last.language) := last.quantity]
  }

  /** Of the rows with one variant and language, the last one's quantity is the one kept. */
  lemma {:induction false} OwnedRowsLast(id: string, hs: seq<Holding>, j: nat)
    requires j < |hs|
    requires forall k :: j < k < |hs| ==> (hs[k].variant, hs[k].language) != (hs[j].variant, hs[j].language)
    ensures (id, hs[j].variant, hs[j].language) in OwnedRows(id, hs)
    ensures OwnedRows(id, hs)[(id, hs[j].variant, hs[j].language)] == hs[j].quantity
    decreases |hs|
  {
    var init := hs[..|hs| - 1];
    if j < |init| {
      assert forall k :: j < k < |init| ==> init[k] == hs[k];
      OwnedRowsLast(id, init, j);
      assert init[j] == hs[j];
    }
  }

  /** One step of the ownership loop writes the quantity of its row. */
  lemma OwnedStepValues(id: string, st: OwnedPass, h: Holding)
    requires WellShaped(st.view) && InsertError(st.view, "owned_cards", OwnedColumns).None?
    ensures OwnedOf(OwnedStep(false, id, st, h).view) == OwnedOf(st.view)[(id, h.variant, h.language) := h.quantity]
  {
    assert InsertOwned(st.view, id, h.variant, h.language, h.quantity).Ok?;
  }

  /**
   * The ownership loop of a card, with `owned_cards` in place, writes the quantity of the
   * last of its rows for each variant and language, and keeps every other row.
   */
  lemma {:induction false} OwnedPassValues(id: string, hs: seq<Holding>, v: Store)
    requires WellShaped(v) && InsertError(v, "owned_cards", OwnedColumns).None?
    ensures OwnedOf(OwnedPassOf(false, id, hs, v).view) == OwnedOf(v) + OwnedRows(id, hs)
    decreases |hs|
  {
    if hs != [] {
      var init, last := hs[..|hs| - 1], hs[|hs| - 1];
      OwnedPassValues(id, init, v);
      var st := OwnedPassOf(false, id, init, v);
      assert st.view.tables["owned_cards"].columns == v.tables["owned_cards"].columns;
      OwnedStepValues(id, st, last);
      assert OwnedPassOf(false, id, hs, v) == OwnedStep(false, id, st, last);
      MergeUpdate(OwnedOf(v), OwnedRows(id, init), (id, last.variant, last.language), last.quantity);
    }
  }

  // ---------------------------------------------------------------- one card

  /** The card a written row stands for: its id, the halves of the id, and its English name. */
  function CardOf(id: string, row: CardRow): Card
  {
    Card(id, row.setId, row.cardNumber, row.name)
  }

  /** A written card leaves its row, the names of its languages and its ownership rows; every other row stays. */
  lemma WrittenValues(env: Env, p: Progress, looked: Stats, g: Group, row: CardRow)
    requires WellShaped(p.view) && Ready(p.view)
    ensures InsertCard(p.view, g.id, row).Ok?
    ensures var w := CardWritten(env, false, p, looked, g, CardOf(g.id, row), InsertCard(p.view, g.id, row).value).view;
            CardsOf(w) == CardsOf(p.view)[g.id := row] &&
            NamesOf(w) == NamesOf(p.view) + NameRows(env, CardOf(g.id, row), g.holdings) &&
            OwnedOf(w) == OwnedOf(p.view) + OwnedRows(g.id, g.holdings)
  {
    var v := InsertCard(p.view, g.id, row).value;
    var c := CardOf(g.id, row);
    assert CardsOf(v) == CardsOf(p.view)[g.id := row];
    assert NamesOf(v) == NamesOf(p.view) && OwnedOf(v) == OwnedOf(p.view);
    assert Ready(v) by {
      assert Untouched(p.view, v);
      ReadyKept(p.view, v);
    }
    var names := NamesPass(env, false, c, g.holdings, v);
    NamesPassValues(env, c, g.holdings, v);
    NamesPassOthers(env, c, g.holdings, v);
    assert CardsOf(names.view) == CardsOf(v);
    assert Ready(names.view) by {
      ReadyKept(v, names.view);
    }
    var w := OwnedPassOf(false, g.id, g.holdings, names.view).view;
    OwnedPassValues(g.id, g.holdings, names.view);
    OwnedPassKeys(g.id, g.holdings, names.view);
    assert CardsOf(w) == CardsOf(names.view) && NamesOf(w) == NamesOf(names.view);
  }

  // ---------------------------------------------------------------- the loop

  /** The quantity of the last legacy row with the key `k`, in row order; 0 when there is none. */
  function LastQuantity(rows: seq<OwnedCard>, k: (string, string, string)): int
  {
    if rows == [] then 0
    else
      var last := rows[|rows| - 1];
      if (last.tcgdexId, last.variant, last.language) == k then last.quantity
      else LastQuantity(rows[..|rows| - 1], k)
  }

  /** The last row with a key decides its quantity. */
  lemma {:induction false} LastQuantityIsLast(rows: seq<OwnedCard>, j: nat)
    requires j < |rows|
    requires forall i :: j < i < |rows| ==>
               (rows[i].tcgdexId, rows[i].variant, rows[i].language) != (rows[j].tcgdexId, rows[j].variant, rows[j].language)
    ensures LastQuantity(rows, (rows[j].tcgdexId, rows[j].variant, rows[j].language)) == rows[j].quantity
    decreases |rows|
  {
    var init := rows[..|rows| - 1];
    if j < |init| {
      assert forall i :: j < i < |init| ==> init[i] == rows[i];
      LastQuantityIsLast(init, j);
      assert init[j] == rows[j];
    }
  }

  /** One more holding is one more write. */
  lemma OwnedRowsSnoc(id: string, hs: seq<Holding>, h: Holding)
    ensures OwnedRows(id, hs + [h]) == OwnedRows(id, hs)[(id, h.variant, h.language) := h.quantity]
  {
    assert (hs + [h])[..|hs|] == hs;
  }

  /** The keys of one id's ownership rows carry that id. */
  lemma OwnedRowsId(id: string, hs: seq<Holding>, k: (string, string, string))
    requires k in OwnedRows(id, hs)
    ensures k.0 == id
  {
    assert k in OwnedFor(id, hs);
  }

  /** The ownership rows of an id's group carry the quantities of its last legacy rows. */
  lemma {:induction false} OwnedRowsLegacy(rows: seq<OwnedCard>, id: string, k: (string, string, string))
    requires k in OwnedRows(id, HoldingsOf(rows, id))
    ensures OwnedRows(id, HoldingsOf(rows, id))[k] == LastQuantity(rows, k)
    decreases |rows|
  {
    if rows != [] {
      var init, last := rows[..|rows| - 1], rows[|rows| - 1];
      var hs := HoldingsOf(init, id);
      OwnedRowsId(id, HoldingsOf(rows, id), k);
      if last.tcgdexId == id {
        var h := HoldingOf(last);
        assert HoldingsOf(rows, id) == hs + [h];
        OwnedRowsSnoc(id, hs, h);
        if k != (id, h.variant, h.language) {
          OwnedRowsLegacy(init, id, k);
        }
      } else {
        assert HoldingsOf(rows, id) == hs;
        OwnedRowsLegacy(init, id, k);
      }
    }
  }

  /**
   * What the card loop keeps, measured against the legacy rows in the order they were
   * read: every card row is its document's, every name is its card's name localized
   * into its language, and every quantity is that of the last legacy row with its key.
   */
  predicate ValuesInv(env: Env, rows: seq<OwnedCard>, s: Store)
  {
    (forall id :: id in CardsOf(s) ==> DocRow(env, id) == Ok(CardsOf(s)[id])) &&
    (forall k :: k in NamesOf(s) ==>
       k.0 in CardsOf(s) && NamesOf(s)[k] == LocalizedName(env, CardOf(k.0, CardsOf(s)[k.0]), k.1)) &&
    (forall k :: k in OwnedOf(s) ==> OwnedOf(s)[k] == LastQuantity(rows, k))
  }

  /** A new card written with its document's row, its names and its group's ownership rows keeps the values right. */
  lemma WrittenInv(env: Env, rows: seq<OwnedCard>, s: Store, w: Store, g: Group, row: CardRow)
    requires ValuesInv(env, rows, s) && g.id !in CardsOf(s)
    requires DocRow(env, g.id) == Ok(row) && g.holdings == HoldingsOf(rows, g.id)
    requires CardsOf(w) == CardsOf(s)[g.id := row]
    requires NamesOf(w) == NamesOf(s) + NameRows(env, CardOf(g.id, row), g.holdings)
    requires OwnedOf(w) == OwnedOf(s) + OwnedRows(g.id, g.holdings)
    ensures ValuesInv(env, rows, w)
  {
    forall k | k in NamesOf(w)
      ensures k.0 in CardsOf(w) && NamesOf(w)[k] == LocalizedName(env, CardOf(k.0, CardsOf(w)[k.0]), k.1)
    {
      if k in NameRows(env, CardOf(g.id, row), g.holdings) {
        assert k in NamesFor(g.id, g.holdings);
      }
    }
    forall k | k in OwnedOf(w) ensures OwnedOf(w)[k] == LastQuantity(rows, k) {
      if k in OwnedRows(g.id, g.holdings) {
        OwnedRowsLegacy(rows, g.id, k);
      }
    }
  }

  /** Writing the last group's card from its document, with the v2 tables in place, keeps the values right. */
  lemma WriteCardValues(env: Env, rows: seq<OwnedCard>, p: Progress, looked: Stats, gs: seq<Group>,
                        setId: string, number: string, j: Json)
    requires FreshLast(gs) && LoopInv(p.view, gs[..|gs| - 1], looked.cardsMigrated) && ValuesInv(env, rows, p.view)
    requires gs[|gs| - 1].holdings == HoldingsOf(rows, gs[|gs| - 1].id)
    requires Extract(j, setId, number).Ok? && DocRow(env, gs[|gs| - 1].id) == Extract(j, setId, number)
    ensures ValuesInv(env, rows, WriteCard(env, false, p, looked, gs[|gs| - 1], setId, number, j).view)
  {
    var g := gs[|gs| - 1];
    var row := Extract(j, setId, number).value;
    assert Card(g.id, setId, number, row.name) == CardOf(g.id, row);
    WrittenValues(env, p, looked, g, row);
    var r := CardWritten(env, false, p, looked, g, CardOf(g.id, row), InsertCard(p.view, g.id, row).value);
    assert WriteCard(env, false, p, looked, g, setId, number, j) == r;
    KeysOfMaps(p.view);
    WrittenInv(env, rows, p.view, r.view, g, row);
  }

  /** The iteration over the last group of a real run with the v2 tables in place keeps the values right. */
  lemma CardStepValues(env: Env, rows: seq<OwnedCard>, p: Progress, gs: seq<Group>)
    requires FreshLast(gs) && LoopInv(p.view, gs[..|gs| - 1], p.stats.cardsMigrated) && ValuesInv(env, rows, p.view)
    requires gs[|gs| - 1].holdings == HoldingsOf(rows, gs[|gs| - 1].id)
    requires CardStep(env, false, p, gs[|gs| - 1]).Ok?
    ensures ValuesInv(env, rows, CardStep(env, false, p, gs[|gs| - 1]).value.view)
  {
    var setId, number, looked, data := CardStepCases(env, false, p, gs[|gs| - 1]);
    if data.Ok? && Extract(data.value, setId, number).Ok? {
      WriteCardValues(env, rows, p, looked, gs, setId, number, data.value);
    }
  }

  /** The card loop of a real run with the v2 tables in place writes the right values throughout. */
  lemma {:induction false} MigrateGroupsValues(env: Env, rows: seq<OwnedCard>, gs: seq<Group>, p0: Progress)
    requires LoopInv(p0.view, [], p0.stats.cardsMigrated) && ValuesInv(env, rows, p0.view) && DistinctIds(gs)
    requires forall i :: 0 <= i < |gs| ==> gs[i].holdings == HoldingsOf(rows, gs[i].id)
    requires MigrateGroups(env, false, gs, p0).Ok?
    ensures ValuesInv(env, rows, MigrateGroups(env, false, gs, p0).value.view)
    decreases |gs|
  {
    if gs != [] {
      var init := gs[..|gs| - 1];
      MigrateGroupsSnoc(env, false, gs, p0);
      DistinctSnoc(gs);
      assert forall i :: 0 <= i < |init| ==> init[i] == gs[i];
      MigrateGroupsValues(env, rows, init, p0);
      MigrateGroupsKeepsInv(env, init, p0);
      var p := MigrateGroups(env, false, init, p0).value;
      assert FreshLast(gs) && LoopInv(p.view, gs[..|gs| - 1], p.stats.cardsMigrated) && ValuesInv(env, rows, p.view);
      assert gs[|gs| - 1].holdings == HoldingsOf(rows, gs[|gs| - 1].id);
      CardStepValues(env, rows, p, gs);
      assert MigrateGroups(env, false, gs, p0) == CardStep(env, false, p, gs[|gs| - 1]);
    }
  }
}
