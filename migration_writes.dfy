/**
 * What the card loop writes when the v2 tables are in place: which keys each pass adds
 * to `cards`, `card_names` and `owned_cards`, and the invariant the loop keeps between
 * them (every name and ownership row belongs to a card that is there, and every card that
 * is there has all its rows).
 */
module MigrationWrites {
  import opened Wrappers
  import opened Payloads
  import opened Models
  import opened Store
  import opened Migration
  import Collection

  /** The ids in the card table. */
  function CardKeys(s: Store): set<string>
  {
    if "cards" in s.tables && s.tables["cards"].rows.Cards? then s.tables["cards"].rows.byId.Keys else {}
  }

  /** The `(tcgdex_id, language)` keys of `card_names`. */
  function NameKeys(s: Store): set<(string, string)>
  {
    if "card_names" in s.tables && s.tables["card_names"].rows.Names? then s.tables["card_names"].rows.byName.Keys else {}
  }

  /** The `(tcgdex_id, variant, language)` keys of `owned_cards`. */
  function OwnedKeys(s: Store): set<(string, string, string)>
  {
    if "owned_cards" in s.tables && s.tables["owned_cards"].rows.Owned? then s.tables["owned_cards"].rows.byKey.Keys else {}
  }

  /** The three inserts of the card loop find their tables and columns. */
  predicate Ready(s: Store)
  {
    InsertError(s, "cards", CardColumns).None? &&
    InsertError(s, "card_names", NameColumns).None? &&
    InsertError(s, "owned_cards", OwnedColumns).None?
  }

  /** Whether an insert can succeed depends only on the tables and their columns. */
  lemma ReadyKept(a: Store, b: Store)
    requires Untouched(a, b) && Ready(a)
    ensures Ready(b)
  {
    assert a.tables["cards"].columns == b.tables["cards"].columns;
    assert a.tables["card_names"].columns == b.tables["card_names"].columns;
    assert a.tables["owned_cards"].columns == b.tables["owned_cards"].columns;
  }

  /** The name keys one card's holdings call for: one per language. */
  function NamesFor(id: string, hs: seq<Holding>): set<(string, string)>
  {
    set h | h in hs :: (id, h.language)
  }

  /** The ownership keys one card's holdings call for: one per variant and language. */
  function OwnedFor(id: string, hs: seq<Holding>): set<(string, string, string)>
  {
    set h | h in hs :: (id, h.variant, h.language)
  }

  /** One step of the name loop adds the key of its language, present already when the language was seen. */
  lemma NameStepKeys(env: Env, c: Card, st: NamePass, h: Holding)
    requires WellShaped(st.view) && InsertError(st.view, "card_names", NameColumns).None?
    requires h.language in st.seen ==> (c.id, h.language) in NameKeys(st.view)
    ensures NameKeys(NameStep(env, false, c, st, h).view) == NameKeys(st.view) + {(c.id, h.language)}
    ensures forall n :: n in st.view.tables && n != "card_names" ==> NameStep(env, false, c, st, h).view.tables[n] == st.view.tables[n]
  {
    if h.language !in st.seen {
      var name := LocalizedName(env, c, h.language);
      assert InsertName(st.view, c.id, h.language, name).Ok?;
    }
  }

  /** The name loop over one more holding is one more step. */
  lemma NamesPassSnoc(env: Env, c: Card, hs: seq<Holding>, v: Store)
    requires WellShaped(v) && hs != []
    ensures NamesPass(env, false, c, hs, v) ==
            NameStep(env, false, c, NamesPass(env, false, c, hs[..|hs| - 1], v), hs[|hs| - 1])
  {
  }

  /** The name loop of a card writes `card_names` only. */
  lemma {:induction false} NamesPassOthers(env: Env, c: Card, hs: seq<Holding>, v: Store)
    requires WellShaped(v) && InsertError(v, "card_names", NameColumns).None?
    ensures forall n :: n in v.tables && n != "card_names" ==> NamesPass(env, false, c, hs, v).view.tables[n] == v.tables[n]
    decreases |hs|
  {
    if hs != [] {
      var init, last := hs[..|hs| - 1], hs[|hs| - 1];
      NamesPassOthers(env, c, init, v);
      NamesPassSnoc(env, c, hs, v);
    }
  }

  /**
   * The name loop of a card, with `card_names` in place, adds a name for each language of
   * its holdings.
   */
  lemma {:induction false} NamesPassKeys(env: Env, c: Card, hs: seq<Holding>, v: Store)
    requires WellShaped(v) && InsertError(v, "card_names", NameColumns).None?
    ensures NameKeys(NamesPass(env, false, c, hs, v).view) == NameKeys(v) + NamesFor(c.id, hs)
    decreases |hs|
  {
    if hs != [] {
      var init, last := hs[..|hs| - 1], hs[|hs| - 1];
      assert hs == init + [last];
      assert NamesFor(c.id, hs) == NamesFor(c.id, init) + {(c.id, last.language)};
      NamesPassKeys(env, c, init, v);
      var st := NamesPass(env, false, c, init, v);
      assert InsertError(st.view, "card_names", NameColumns).None? by {
        assert st.view.tables["card_names"].columns == v.tables["card_names"].columns;
      }
      assert last.language in st.seen ==> (c.id, last.language) in NameKeys(st.view) by {
        if last.language in st.seen {
          var h :| h in init && h.language == last.language;
          assert (c.id, h.language) in NamesFor(c.id, init);
        }
      }
      NameStepKeys(env, c, st, last);
      NamesPassSnoc(env, c, hs, v);
    }
  }

  /**
   * The ownership loop of a card, with `owned_cards` in place, adds a row for each
   * variant and language of its holdings and changes no other table.
   */
  lemma {:induction false} OwnedPassKeys(id: string, hs: seq<Holding>, v: Store)
    requires WellShaped(v) && InsertError(v, "owned_cards", OwnedColumns).None?
    ensures OwnedKeys(OwnedPassOf(false, id, hs, v).view) == OwnedKeys(v) + OwnedFor(id, hs)
    ensures forall n :: n in v.tables && n != "owned_cards" ==> OwnedPassOf(false, id, hs, v).view.tables[n] == v.tables[n]
    decreases |hs|
  {
    if hs != [] {
      var init, last := hs[..|hs| - 1], hs[|hs| - 1];
      assert hs == init + [last];
      assert OwnedFor(id, hs) == OwnedFor(id, init) + {(id, last.variant, last.language)};
      OwnedPassKeys(id, init, v);
      var st := OwnedPassOf(false, id, init, v);
      assert st.view.tables["owned_cards"].columns == v.tables["owned_cards"].columns;
      assert InsertOwned(st.view, id, last.variant, last.language, last.quantity).Ok?;
    }
  }

  // ---------------------------------------------------------------- one card

  /** The ids of the groups. */
  function GroupIds(gs: seq<Group>): set<string>
  {
    set g | g in gs :: g.id
  }

  /** The name keys the groups call for. */
  function HeldNames(gs: seq<Group>): set<(string, string)>
  {
    if gs == [] then {} else HeldNames(gs[..|gs| - 1]) + NamesFor(gs[|gs| - 1].id, gs[|gs| - 1].holdings)
  }

  /** The ownership keys the groups call for. */
  function HeldOwned(gs: seq<Group>): set<(string, string, string)>
  {
    if gs == [] then {} else HeldOwned(gs[..|gs| - 1]) + OwnedFor(gs[|gs| - 1].id, gs[|gs| - 1].holdings)
  }

  /** Every name and ownership row belongs to a card in the card table. */
  predicate Linked(s: Store)
  {
    (forall k :: k in NameKeys(s) ==> k.0 in CardKeys(s)) &&
    (forall k :: k in OwnedKeys(s) ==> k.0 in CardKeys(s))
  }

  /** Every group whose card is in the card table has all its names and ownership rows. */
  predicate Complete(s: Store, gs: seq<Group>)
  {
    forall i :: 0 <= i < |gs| && gs[i].id in CardKeys(s) ==>
      NamesFor(gs[i].id, gs[i].holdings) <= NameKeys(s) && OwnedFor(gs[i].id, gs[i].holdings) <= OwnedKeys(s)
  }

  /**
   * What the card loop keeps, once the groups `gs` are done with `migrated` cards
   * written: the inserts still find their tables, nothing refers to a missing card,
   * nothing was written that the groups do not call for, and each written card is complete.
   */
  predicate LoopInv(s: Store, gs: seq<Group>, migrated: nat)
  {
    WellShaped(s) && Ready(s) && Linked(s) && Complete(s, gs) &&
    CardKeys(s) <= GroupIds(gs) && NameKeys(s) <= HeldNames(gs) && OwnedKeys(s) <= HeldOwned(gs) &&
    |CardKeys(s)| == migrated
  }

  /** The keys a written card leaves: its id, its names and its ownership rows, nothing else. */
  lemma WrittenKeys(env: Env, p: Progress, looked: Stats, g: Group, setId: string, number: string, row: CardRow)
    returns (w: Store)
    requires WellShaped(p.view) && Ready(p.view)
    ensures InsertCard(p.view, g.id, row).Ok?
    ensures w == CardWritten(env, false, p, looked, g, Card(g.id, setId, number, row.name),
                             InsertCard(p.view, g.id, row).value).view
    ensures WellShaped(w) && Ready(w)
    ensures CardKeys(w) == CardKeys(p.view) + {g.id}
    ensures NameKeys(w) == NameKeys(p.view) + NamesFor(g.id, g.holdings)
    ensures OwnedKeys(w) == OwnedKeys(p.view) + OwnedFor(g.id, g.holdings)
  {
    var v := InsertCard(p.view, g.id, row).value;
    var c := Card(g.id, setId, number, row.name);
    assert CardKeys(v) == CardKeys(p.view) + {g.id};
    assert NameKeys(v) == NameKeys(p.view) && OwnedKeys(v) == OwnedKeys(p.view);
    assert Ready(v) by {
      assert Untouched(p.view, v);
      ReadyKept(p.view, v);
    }
    var names := NamesPass(env, false, c, g.holdings, v);
    NamesPassKeys(env, c, g.holdings, v);
    NamesPassOthers(env, c, g.holdings, v);
    assert Ready(names.view) by {
      ReadyKept(v, names.view);
    }
    w := OwnedPassOf(false, g.id, g.holdings, names.view).view;
    OwnedPassKeys(g.id, g.holdings, names.view);
    ReadyKept(names.view, w);
  }

  /** The groups but the last, and the last group's id is not among theirs. */
  predicate FreshLast(gs: seq<Group>)
  {
    gs != [] && gs[|gs| - 1].id !in GroupIds(gs[..|gs| - 1])
  }

  /** A last group that is done without a write keeps the invariant. */
  lemma SkippedKeepsInv(s: Store, gs: seq<Group>, migrated: nat)
    requires FreshLast(gs) && LoopInv(s, gs[..|gs| - 1], migrated)
    ensures LoopInv(s, gs, migrated)
  {
    GroupsSnoc(gs);
    SkippedComplete(s, gs);
  }

  /** Where the last group's card is not written, the written cards stay complete. */
  lemma SkippedComplete(s: Store, gs: seq<Group>)
    requires gs != [] && Complete(s, gs[..|gs| - 1]) && gs[|gs| - 1].id !in CardKeys(s)
    ensures Complete(s, gs)
  {
    var init := gs[..|gs| - 1];
    forall i | 0 <= i < |gs| && gs[i].id in CardKeys(s)
      ensures NamesFor(gs[i].id, gs[i].holdings) <= NameKeys(s) && OwnedFor(gs[i].id, gs[i].holdings) <= OwnedKeys(s)
    {
      assert i < |init| && init[i] == gs[i];
    }
  }

  /** The group lists with the last group. */
  lemma GroupsSnoc(gs: seq<Group>)
    requires gs != []
    ensures GroupIds(gs) == GroupIds(gs[..|gs| - 1]) + {gs[|gs| - 1].id}
    ensures HeldNames(gs) == HeldNames(gs[..|gs| - 1]) + NamesFor(gs[|gs| - 1].id, gs[|gs| - 1].holdings)
    ensures HeldOwned(gs) == HeldOwned(gs[..|gs| - 1]) + OwnedFor(gs[|gs| - 1].id, gs[|gs| - 1].holdings)
  {
    GroupIdsSnoc(gs);
  }

  lemma GroupIdsSnoc(gs: seq<Group>)
    requires gs != []
    ensures GroupIds(gs) == GroupIds(gs[..|gs| - 1]) + {gs[|gs| - 1].id}
  {
    var init, last := gs[..|gs| - 1], gs[|gs| - 1];
    forall g | g in gs ensures g in init || g == last {
      var i :| 0 <= i < |gs| && gs[i] == g;
      if i < |init| {
        assert init[i] == g;
      }
    }
    forall g | g in init ensures g in gs {
      var i :| 0 <= i < |init| && init[i] == g;
      assert gs[i] == g;
    }
  }

  /** Rows added for a card that is added keep every row tied to a card. */
  lemma WrittenLinked(s: Store, w: Store, g: Group)
    requires Linked(s)
    requires CardKeys(w) == CardKeys(s) + {g.id}
    requires NameKeys(w) == NameKeys(s) + NamesFor(g.id, g.holdings)
    requires OwnedKeys(w) == OwnedKeys(s) + OwnedFor(g.id, g.holdings)
    ensures Linked(w)
  {
    assert forall k :: k in NamesFor(g.id, g.holdings) ==> k.0 == g.id;
    assert forall k :: k in OwnedFor(g.id, g.holdings) ==> k.0 == g.id;
  }

  /** A new card written with all its rows keeps every written card complete. */
  lemma WrittenComplete(s: Store, w: Store, gs: seq<Group>)
    requires FreshLast(gs)
    requires Complete(s, gs[..|gs| - 1]) && CardKeys(s) <= GroupIds(gs[..|gs| - 1])
    requires CardKeys(w) == CardKeys(s) + {gs[|gs| - 1].id}
    requires NameKeys(s) <= NameKeys(w) && NamesFor(gs[|gs| - 1].id, gs[|gs| - 1].holdings) <= NameKeys(w)
    requires OwnedKeys(s) <= OwnedKeys(w) && OwnedFor(gs[|gs| - 1].id, gs[|gs| - 1].holdings) <= OwnedKeys(w)
    ensures Complete(w, gs)
  {
    var init := gs[..|gs| - 1];
    forall i | 0 <= i < |gs| && gs[i].id in CardKeys(w)
      ensures NamesFor(gs[i].id, gs[i].holdings) <= NameKeys(w) && OwnedFor(gs[i].id, gs[i].holdings) <= OwnedKeys(w)
    {
      if i < |init| {
        assert init[i] == gs[i] && init[i] in init;
      }
    }
  }

  /** A last group whose card is written keeps the invariant, with one more card. */
  lemma WrittenKeepsInv(s: Store, w: Store, gs: seq<Group>, migrated: nat)
    requires FreshLast(gs) && LoopInv(s, gs[..|gs| - 1], migrated)
    requires WellShaped(w) && Ready(w)
    requires CardKeys(w) == CardKeys(s) + {gs[|gs| - 1].id}
    requires NameKeys(w) == NameKeys(s) + NamesFor(gs[|gs| - 1].id, gs[|gs| - 1].holdings)
    requires OwnedKeys(w) == OwnedKeys(s) + OwnedFor(gs[|gs| - 1].id, gs[|gs| - 1].holdings)
    ensures LoopInv(w, gs, migrated + 1)
  {
    GroupsSnoc(gs);
    WrittenLinked(s, w, gs[|gs| - 1]);
    WrittenComplete(s, w, gs);
    assert gs[|gs| - 1].id !in CardKeys(s);
  }

  /** Writing the last group's card from its document, with the v2 tables in place, keeps the invariant. */
  lemma WriteCardKeepsInv(env: Env, p: Progress, looked: Stats, gs: seq<Group>,
                          setId: string, number: string, j: Json)
    requires FreshLast(gs) && LoopInv(p.view, gs[..|gs| - 1], looked.cardsMigrated)
    ensures var r := WriteCard(env, false, p, looked, gs[|gs| - 1], setId, number, j);
            LoopInv(r.view, gs, r.stats.cardsMigrated)
  {
    if Extract(j, setId, number).Err? {
      ExtractFailedKeepsInv(env, p, looked, gs, setId, number, j);
    } else {
      ExtractedKeepsInv(env, p, looked, gs, setId, number, j);
    }
  }

  /** A document the card row cannot be read from writes nothing. */
  lemma ExtractFailedKeepsInv(env: Env, p: Progress, looked: Stats, gs: seq<Group>,
                              setId: string, number: string, j: Json)
    requires FreshLast(gs) && LoopInv(p.view, gs[..|gs| - 1], looked.cardsMigrated)
    requires Extract(j, setId, number).Err?
    ensures var r := WriteCard(env, false, p, looked, gs[|gs| - 1], setId, number, j);
            LoopInv(r.view, gs, r.stats.cardsMigrated)
  {
    var r := WriteCard(env, false, p, looked, gs[|gs| - 1], setId, number, j);
    assert r.view == p.view && r.stats.cardsMigrated == looked.cardsMigrated;
    SkippedKeepsInv(p.view, gs, looked.cardsMigrated);
  }

  /** A card row read from the document is written with its names and ownership rows. */
  lemma ExtractedKeepsInv(env: Env, p: Progress, looked: Stats, gs: seq<Group>,
                          setId: string, number: string, j: Json)
    requires FreshLast(gs) && LoopInv(p.view, gs[..|gs| - 1], looked.cardsMigrated)
    requires Extract(j, setId, number).Ok?
    ensures var r := WriteCard(env, false, p, looked, gs[|gs| - 1], setId, number, j);
            LoopInv(r.view, gs, r.stats.cardsMigrated)
  {
    var g := gs[|gs| - 1];
    assert WellShaped(p.view) && Ready(p.view);
    var w := ExtractedKeys(env, p, looked, g, setId, number, j);
    WrittenKeepsInv(p.view, w, gs, looked.cardsMigrated);
  }

  /** The keys a real write of a readable document leaves, with the v2 tables in place. */
  lemma ExtractedKeys(env: Env, p: Progress, looked: Stats, g: Group, setId: string, number: string, j: Json)
    returns (w: Store)
    requires WellShaped(p.view) && Ready(p.view) && Extract(j, setId, number).Ok?
    ensures var r := WriteCard(env, false, p, looked, g, setId, number, j);
            r.view == w && r.stats.cardsMigrated == looked.cardsMigrated + 1
    ensures WellShaped(w) && Ready(w)
    ensures CardKeys(w) == CardKeys(p.view) + {g.id}
    ensures NameKeys(w) == NameKeys(p.view) + NamesFor(g.id, g.holdings)
    ensures OwnedKeys(w) == OwnedKeys(p.view) + OwnedFor(g.id, g.holdings)
  {
    var row := Extract(j, setId, number).value;
    w := WrittenKeys(env, p, looked, g, setId, number, row);
    WriteCardInserted(env, p, looked, g, setId, number, j);
  }

  /** A real write of a readable document where the card table takes the row is the card row followed by the two passes. */
  lemma WriteCardInserted(env: Env, p: Progress, looked: Stats, g: Group, setId: string, number: string, j: Json)
    requires WellShaped(p.view) && Extract(j, setId, number).Ok?
    requires InsertCard(p.view, g.id, Extract(j, setId, number).value).Ok?
    ensures var row := Extract(j, setId, number).value;
            WriteCard(env, false, p, looked, g, setId, number, j) ==
              CardWritten(env, false, p, looked, g, Card(g.id, setId, number, row.name), InsertCard(p.view, g.id, row).value)
  {
  }

  /** The two ways an iteration with a well-formed id ends: the document is missing, or it is written. */
  lemma CardStepCases(env: Env, dryRun: bool, p: Progress, g: Group)
    returns (setId: string, number: string, looked: Stats, data: Result<Json>)
    requires WellShaped(p.view) && '-' in g.id
    ensures looked.cardsMigrated == p.stats.cardsMigrated
    ensures data.Err? ==> CardStep(env, dryRun, p, g) == Ok(Failed(p, looked, g.id, data.error))
    ensures data.Ok? ==> CardStep(env, dryRun, p, g) == Ok(WriteCard(env, dryRun, p, looked, g, setId, number, data.value))
    ensures data.Ok? ==> DocRow(env, g.id) == Extract(data.value, setId, number)
  {
    var parts := Collection.ParseTcgdexId(g.id).value;
    setId, number := parts.0, parts.1;
    var lk := LookupCard(env, g.id, setId, number);
    looked := Looked(p.stats, lk);
    data := lk.data;
  }

  /** The iteration over the last group of a real run with the v2 tables in place keeps the invariant. */
  lemma CardStepKeepsInv(env: Env, p: Progress, gs: seq<Group>)
    requires FreshLast(gs) && LoopInv(p.view, gs[..|gs| - 1], p.stats.cardsMigrated)
    requires CardStep(env, false, p, gs[|gs| - 1]).Ok?
    ensures LoopInv(CardStep(env, false, p, gs[|gs| - 1]).value.view, gs,
                    CardStep(env, false, p, gs[|gs| - 1]).value.stats.cardsMigrated)
  {
    var setId, number, looked, data := CardStepCases(env, false, p, gs[|gs| - 1]);
    if data.Err? {
      SkippedKeepsInv(p.view, gs, p.stats.cardsMigrated);
    } else {
      WriteCardKeepsInv(env, p, looked, gs, setId, number, data.value);
    }
  }

  /** A card loop that got through all groups got through all but the last, then took one more step. */
  lemma MigrateGroupsSnoc(env: Env, dryRun: bool, gs: seq<Group>, p0: Progress)
    requires WellShaped(p0.view) && gs != [] && MigrateGroups(env, dryRun, gs, p0).Ok?
    ensures MigrateGroups(env, dryRun, gs[..|gs| - 1], p0).Ok?
    ensures MigrateGroups(env, dryRun, gs, p0) ==
            CardStep(env, dryRun, MigrateGroups(env, dryRun, gs[..|gs| - 1], p0).value, gs[|gs| - 1])
  {
  }

  /** The last of distinct groups is not among the others. */
  lemma DistinctSnoc(gs: seq<Group>)
    requires DistinctIds(gs) && gs != []
    ensures DistinctIds(gs[..|gs| - 1]) && gs[|gs| - 1].id !in GroupIds(gs[..|gs| - 1])
  {
    var init := gs[..|gs| - 1];
    forall g | g in init ensures g.id != gs[|gs| - 1].id {
      var k :| 0 <= k < |init| && init[k] == g;
      assert gs[k] == g;
    }
  }

  /** The card loop of a real run with the v2 tables in place keeps the invariant throughout. */
  lemma {:induction false} MigrateGroupsKeepsInv(env: Env, gs: seq<Group>, p0: Progress)
    requires LoopInv(p0.view, [], p0.stats.cardsMigrated) && DistinctIds(gs)
    requires MigrateGroups(env, false, gs, p0).Ok?
    ensures LoopInv(MigrateGroups(env, false, gs, p0).value.view, gs, MigrateGroups(env, false, gs, p0).value.stats.cardsMigrated)
    decreases |gs|
  {
    if gs != [] {
      var init := gs[..|gs| - 1];
      MigrateGroupsSnoc(env, false, gs, p0);
      DistinctSnoc(gs);
      MigrateGroupsKeepsInv(env, init, p0);
      CardStepKeepsInv(env, MigrateGroups(env, false, init, p0).value, gs);
    }
  }
}
