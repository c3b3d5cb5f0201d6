/**
 * The collection database of the command line (`db.py`): the `cards` table of owned
 * card variants keyed by `(tcgdex_id, variant, language)`, the card metadata cache and
 * the set cache. The SQLite file is a `CollectionDb` object whose fields are the three
 * tables; `now` stands for `CURRENT_TIMESTAMP` / `datetime.now()`.
 */
module Collection {
  import opened Wrappers
  import opened Strings
  import opened Sorting
  import opened SqlLike
  import opened Models
  import Clock

  /** `parse_tcgdex_id`: cut at the first `-`; an id without `-` is refused. */
  function ParseTcgdexId(tcgdexId: string): (r: Result<(string, string)>)
    ensures r.Ok? <==> '-' in tcgdexId
    ensures r.Ok? ==> '-' !in r.value.0 && r.value.0 + "-" + r.value.1 == tcgdexId
    ensures r.Err? ==> r.error == "Invalid TCGdex ID format: " + tcgdexId
  {
    var parts := SplitFirst(tcgdexId, '-');
    if |parts| != 2 then Err("Invalid TCGdex ID format: " + tcgdexId)
    else Ok((parts[0], parts[1]))
  }

  /** Ids are built as `set_id + "-" + number`; parsing takes them apart again. */
  lemma ParseBuiltId(setId: string, number: string)
    requires '-' !in setId
    ensures ParseTcgdexId(setId + "-" + number) == Ok((setId, number))
  {
    var s := setId + "-" + number;
    IndexOfAfterFree(setId, '-', number);
    assert s[..|setId|] == setId && s[|setId| + 1..] == number;
  }

  /** The unique key of a `cards` row. */
  function Key(c: OwnedCard): (string, string, string)
  {
    (c.tcgdexId, c.variant, c.language)
  }

  predicate KeysUnique(rows: seq<OwnedCard>)
  {
    forall i, j :: 0 <= i < j < |rows| ==> Key(rows[i]) != Key(rows[j])
  }

  /** The position of the row with key `k`, if any (the table's unique index). */
  function Find(rows: seq<OwnedCard>, k: (string, string, string)): (r: Option<nat>)
    ensures r.Some? ==> r.value < |rows| && Key(rows[r.value]) == k
    ensures r.None? ==> forall i :: 0 <= i < |rows| ==> Key(rows[i]) != k
  {
    if rows == [] then None
    else if Key(rows[|rows| - 1]) == k then Some(|rows| - 1)
    else Find(rows[..|rows| - 1], k)
  }

  /** The quantity stored under key `k`. */
  function QuantityOf(rows: seq<OwnedCard>, k: (string, string, string)): Option<int>
  {
    match Find(rows, k)
    case None => None
    case Some(i) => Some(rows[i].quantity)
  }

  /** `SUM(quantity)` over the rows, 0 for no rows. */
  function TotalQuantity(rows: seq<OwnedCard>): int
  {
    if rows == [] then 0 else TotalQuantity(rows[..|rows| - 1]) + rows[|rows| - 1].quantity
  }

  /** The table after `add_card_variant`: the quantity is added to the row with that key, or a new row is appended. */
  function AddSpec(rows: seq<OwnedCard>, tcgdexId: string, setId: string, cardNumber: string,
                   variant: string, language: string, quantity: int, now: Clock.DateTime, newId: int): seq<OwnedCard>
  {
    match Find(rows, (tcgdexId, variant, language))
    case Some(i) => rows[i := rows[i].(quantity := rows[i].quantity + quantity, updatedAt := now)]
    case None => rows + [OwnedCard(newId, setId, cardNumber, tcgdexId, variant, language, quantity, now, now)]
  }

  /** The table after `remove_card_variant`: the row is deleted when nothing would remain, else lowered. */
  function RemoveSpec(rows: seq<OwnedCard>, k: (string, string, string), quantity: int, now: Clock.DateTime): seq<OwnedCard>
  {
    match Find(rows, k)
    case None => rows
    case Some(i) =>
      if rows[i].quantity - quantity <= 0 then rows[..i] + rows[i + 1..]
      else rows[i := rows[i].(quantity := rows[i].quantity - quantity, updatedAt := now)]
  }

  lemma {:induction false} TotalAppend(rows: seq<OwnedCard>, x: OwnedCard)
    ensures TotalQuantity(rows + [x]) == TotalQuantity(rows) + x.quantity
  {
    assert (rows + [x])[..|rows|] == rows;
  }

  lemma {:induction false} TotalUpdate(rows: seq<OwnedCard>, i: nat, x: OwnedCard)
    requires i < |rows|
    ensures TotalQuantity(rows[i := x]) == TotalQuantity(rows) - rows[i].quantity + x.quantity
    decreases |rows|
  {
    var n := |rows| - 1;
    if i < n {
      TotalUpdate(rows[..n], i, x);
      assert rows[i := x][..n] == rows[..n][i := x];
    } else {
      assert rows[i := x][..n] == rows[..n];
    }
  }

  lemma {:induction false} TotalDelete(rows: seq<OwnedCard>, i: nat)
    requires i < |rows|
    ensures TotalQuantity(rows[..i] + rows[i + 1..]) == TotalQuantity(rows) - rows[i].quantity
    decreases |rows|
  {
    var n := |rows| - 1;
    if i < n {
      TotalDelete(rows[..n], i);
      var r := rows[..i] + rows[i + 1..];
      assert r[..|r| - 1] == rows[..n][..i] + rows[..n][i + 1..];
      assert r[|r| - 1] == rows[n];
    } else {
      assert rows[..i] + rows[i + 1..] == rows[..n];
    }
  }

  /** Adding `quantity` of a variant raises the collection total by exactly `quantity`. */
  lemma AddTotal(rows: seq<OwnedCard>, tcgdexId: string, setId: string, cardNumber: string,
                 variant: string, language: string, quantity: int, now: Clock.DateTime, newId: int)
    ensures TotalQuantity(AddSpec(rows, tcgdexId, setId, cardNumber, variant, language, quantity, now, newId))
         == TotalQuantity(rows) + quantity
  {
    match Find(rows, (tcgdexId, variant, language))
    case Some(i) =>
      TotalUpdate(rows, i, rows[i].(quantity := rows[i].quantity + quantity, updatedAt := now));
    case None =>
      TotalAppend(rows, OwnedCard(newId, setId, cardNumber, tcgdexId, variant, language, quantity, now, now));
  }

  /** Removing `quantity` lowers the total by what was there, at most: `min(current, quantity)`. */
  lemma RemoveTotal(rows: seq<OwnedCard>, k: (string, string, string), quantity: int, now: Clock.DateTime)
    ensures QuantityOf(rows, k).None? ==> TotalQuantity(RemoveSpec(rows, k, quantity, now)) == TotalQuantity(rows)
    ensures QuantityOf(rows, k).Some? ==>
      var current := QuantityOf(rows, k).value;
      TotalQuantity(RemoveSpec(rows, k, quantity, now)) ==
        TotalQuantity(rows) - (if current <= quantity then current else quantity)
  {
    match Find(rows, k)
    case None =>
    case Some(i) =>
      if rows[i].quantity - quantity <= 0 {
        TotalDelete(rows, i);
      } else {
        TotalUpdate(rows, i, rows[i].(quantity := rows[i].quantity - quantity, updatedAt := now));
      }
  }

  /** Adding keeps keys unique, sets the key's quantity to old + added (or the added amount), and leaves every other key alone. */
  lemma AddQuantities(rows: seq<OwnedCard>, tcgdexId: string, setId: string, cardNumber: string,
                      variant: string, language: string, quantity: int, now: Clock.DateTime, newId: int,
                      other: (string, string, string))
    requires KeysUnique(rows)
    ensures var after := AddSpec(rows, tcgdexId, setId, cardNumber, variant, language, quantity, now, newId);
      var k := (tcgdexId, variant, language);
      && KeysUnique(after)
      && QuantityOf(after, k) == Some(if QuantityOf(rows, k).Some? then QuantityOf(rows, k).value + quantity else quantity)
      && (other != k ==> QuantityOf(after, other) == QuantityOf(rows, other))
  {
    var k := (tcgdexId, variant, language);
    var after := AddSpec(rows, tcgdexId, setId, cardNumber, variant, language, quantity, now, newId);
    assert forall i :: 0 <= i < |rows| ==> Key(after[i]) == Key(rows[i]);
    FindUnique(after, k);
    FindUnique(rows, k);
    if other != k {
      FindUnique(after, other);
      FindUnique(rows, other);
      match Find(rows, other)
      case Some(j) =>
        assert Key(after[j]) == other && after[j] == rows[j];
        assert Find(after, other) == Some(j);
      case None =>
        assert forall i :: 0 <= i < |after| ==> Key(after[i]) != other;
    }
  }

  /** Removing leaves other keys alone; the key is gone when nothing would remain, otherwise lowered. */
  lemma RemoveQuantities(rows: seq<OwnedCard>, k: (string, string, string), quantity: int, now: Clock.DateTime,
                         other: (string, string, string))
    requires KeysUnique(rows)
    ensures var after := RemoveSpec(rows, k, quantity, now);
      && KeysUnique(after)
      && (QuantityOf(rows, k).None? ==> after == rows)
      && (QuantityOf(rows, k).Some? && QuantityOf(rows, k).value - quantity <= 0 ==> QuantityOf(after, k).None?)
      && (QuantityOf(rows, k).Some? && QuantityOf(rows, k).value - quantity > 0 ==>
            QuantityOf(after, k) == Some(QuantityOf(rows, k).value - quantity))
      && (other != k ==> QuantityOf(after, other) == QuantityOf(rows, other))
  {
    match Find(rows, k)
    case None =>
    case Some(i) =>
      if rows[i].quantity - quantity <= 0 {
        RemoveDropped(rows, i, other);
      } else {
        RemoveLowered(rows, i, rows[i].quantity - quantity, now, other);
      }
  }

  /** Deleting the row at `i` removes its key and keeps every other key's quantity. */
  lemma RemoveDropped(rows: seq<OwnedCard>, i: nat, other: (string, string, string))
    requires KeysUnique(rows) && i < |rows|
    ensures var after := rows[..i] + rows[i + 1..];
      && KeysUnique(after)
      && QuantityOf(after, Key(rows[i])).None?
      && (other != Key(rows[i]) ==> QuantityOf(after, other) == QuantityOf(rows, other))
  {
    var k := Key(rows[i]);
    var after := rows[..i] + rows[i + 1..];
    assert forall j :: 0 <= j < |after| ==> after[j] == (if j < i then rows[j] else rows[j + 1]);
    assert forall j :: 0 <= j < |after| ==> Key(after[j]) != k;
    if other != k {
      FindUnique(after, other);
      FindUnique(rows, other);
      match Find(rows, other)
      case Some(j) =>
        var t := if i < j then j - 1 else j;
        assert Key(after[t]) == other && after[t] == rows[j];
      case None =>
        assert forall t :: 0 <= t < |after| ==> Key(after[t]) != other;
    }
  }

  /** Lowering the quantity at `i` keeps the keys and every other key's quantity. */
  lemma RemoveLowered(rows: seq<OwnedCard>, i: nat, q: int, now: Clock.DateTime, other: (string, string, string))
    requires KeysUnique(rows) && i < |rows|
    ensures var after := rows[i := rows[i].(quantity := q, updatedAt := now)];
      && KeysUnique(after)
      && QuantityOf(after, Key(rows[i])) == Some(q)
      && (other != Key(rows[i]) ==> QuantityOf(after, other) == QuantityOf(rows, other))
  {
    var k := Key(rows[i]);
    var after := rows[i := rows[i].(quantity := q, updatedAt := now)];
    assert forall j :: 0 <= j < |rows| ==> Key(after[j]) == Key(rows[j]);
    FindUnique(after, k);
    if other != k {
      FindUnique(after, other);
      FindUnique(rows, other);
      match Find(rows, other)
      case Some(j) =>
        assert Key(after[j]) == other && after[j] == rows[j];
      case None =>
        assert forall t :: 0 <= t < |after| ==> Key(after[t]) != other;
    }
  }


  /** In a table with unique keys, the row `Find` returns is the only one with that key. */
  lemma FindUnique(rows: seq<OwnedCard>, k: (string, string, string))
    requires KeysUnique(rows)
    ensures forall i :: 0 <= i < |rows| && Key(rows[i]) == k ==> Find(rows, k) == Some(i)
  {
    forall i | 0 <= i < |rows| && Key(rows[i]) == k ensures Find(rows, k) == Some(i) {
    }
  }

  /** `get_owned_cards` filter: a missing or empty filter matches every row. */
  predicate Matches(c: OwnedCard, setId: Option<string>, language: Option<string>)
  {
    (setId.None? || setId.value == "" || c.setId == setId.value) &&
    (language.None? || language.value == "" || c.language == language.value)
  }

  function Filter(rows: seq<OwnedCard>, setId: Option<string>, language: Option<string>): (r: seq<OwnedCard>)
    ensures forall c :: c in r <==> c in rows && Matches(c, setId, language)
    ensures multiset(r) <= multiset(rows)
  {
    if rows == [] then []
    else
      var rest := Filter(rows[1..], setId, language);
      assert rows == [rows[0]] + rows[1..];
      if Matches(rows[0], setId, language) then [rows[0]] + rest else rest
  }

  function OwnedOrder(c: OwnedCard): seq<string>
  {
    [c.setId, c.cardNumber]
  }

  /** `ORDER BY set_id, card_number`. */
  ghost predicate InOwnedOrder(rows: seq<OwnedCard>)
  {
    forall i, j :: 0 <= i < j < |rows| ==> KeyLe(OwnedOrder(rows[i]), OwnedOrder(rows[j]))
  }

  /** `get_owned_cards`: exactly the matching rows, ordered by set and card number. */
  function OwnedCards(rows: seq<OwnedCard>, setId: Option<string>, language: Option<string>): (r: seq<OwnedCard>)
    ensures forall c :: c in r <==> c in rows && Matches(c, setId, language)
    ensures multiset(r) == multiset(Filter(rows, setId, language))
    ensures InOwnedOrder(r)
  {
    var f := Filter(rows, setId, language);
    var r := SortBy(f, OwnedOrder);
    assert forall c :: c in r <==> c in f by {
      forall c ensures c in r <==> c in f { SortedMembers(f, OwnedOrder, c); }
    }
    r
  }



  /** The statistics `get_collection_stats` returns. */
  datatype CollectionStats = CollectionStats(
    uniqueCards: nat,
    totalCards: int,
    setsCount: nat,
    mostCollectedSet: Option<string>,
    mostCollectedQty: int,
    variantBreakdown: map<string, int>,
    rarityBreakdown: map<string, int>)

  /** `SUM(quantity) ... WHERE set_id = setId`. */
  function SetTotal(rows: seq<OwnedCard>, setId: string): int
  {
    if rows == [] then 0
    else SetTotal(rows[..|rows| - 1], setId) + (if rows[|rows| - 1].setId == setId then rows[|rows| - 1].quantity else 0)
  }

  /** `SUM(quantity) ... WHERE variant = variant`. */
  function VariantTotal(rows: seq<OwnedCard>, variant: string): int
  {
    if rows == [] then 0
    else VariantTotal(rows[..|rows| - 1], variant) + (if rows[|rows| - 1].variant == variant then rows[|rows| - 1].quantity else 0)
  }

  /** The rarity the card cache records for a card (the `LEFT JOIN card_cache`). */
  function RarityOf(cache: map<string, CardCacheRow>, tcgdexId: string): Option<string>
  {
    if tcgdexId in cache then cache[tcgdexId].rarity else None
  }

  /** `SUM(cards.quantity) ... WHERE c.rarity = rarity`. */
  function RarityTotal(rows: seq<OwnedCard>, cache: map<string, CardCacheRow>, rarity: string): int
  {
    if rows == [] then 0
    else
      var last := rows[|rows| - 1];
      RarityTotal(rows[..|rows| - 1], cache, rarity) + (if RarityOf(cache, last.tcgdexId) == Some(rarity) then last.quantity else 0)
  }

  /**
   * The set, among those of the first `k` rows, with the largest total
   * (`GROUP BY set_id ORDER BY qty DESC LIMIT 1`).
   */
  function BestSet(rows: seq<OwnedCard>, k: nat): (s: string)
    requires 0 < k <= |rows|
    ensures exists i :: 0 <= i < k && rows[i].setId == s
    ensures forall i :: 0 <= i < k ==> SetTotal(rows, rows[i].setId) <= SetTotal(rows, s)
  {
    if k == 1 then rows[0].setId
    else
      var b := BestSet(rows, k - 1);
      if SetTotal(rows, rows[k - 1].setId) > SetTotal(rows, b) then rows[k - 1].setId else b
  }

  /** `get_collection_stats` over the owned rows and the card cache. */
  function Stats(rows: seq<OwnedCard>, cache: map<string, CardCacheRow>): (s: CollectionStats)
    ensures s.uniqueCards == |set c | c in rows :: c.tcgdexId|
    ensures s.setsCount == |set c | c in rows :: c.setId|
    ensures s.totalCards == TotalQuantity(rows)
    ensures rows == [] ==> s.mostCollectedSet == None && s.mostCollectedQty == 0
    ensures rows != [] ==>
      s.mostCollectedSet.Some? &&
      (exists c :: c in rows && c.setId == s.mostCollectedSet.value) &&
      s.mostCollectedQty == SetTotal(rows, s.mostCollectedSet.value) &&
      forall c :: c in rows ==> SetTotal(rows, c.setId) <= s.mostCollectedQty
    ensures s.variantBreakdown.Keys == set c | c in rows :: c.variant
    ensures forall v :: v in s.variantBreakdown ==> s.variantBreakdown[v] == VariantTotal(rows, v)
    ensures s.rarityBreakdown.Keys == set c | c in rows && RarityOf(cache, c.tcgdexId).Some? :: RarityOf(cache, c.tcgdexId).value
    ensures forall r :: r in s.rarityBreakdown ==> s.rarityBreakdown[r] == RarityTotal(rows, cache, r)
  {
    var best := if rows == [] then None else Some(BestSet(rows, |rows|));
    assert rows != [] ==> forall c :: c in rows ==> SetTotal(rows, c.setId) <= SetTotal(rows, best.value);
    CollectionStats(
      |set c | c in rows :: c.tcgdexId|,
      TotalQuantity(rows),
      |set c | c in rows :: c.setId|,
      best,
      if best.Some? then SetTotal(rows, best.value) else 0,
      map v | v in (set c | c in rows :: c.variant) :: VariantTotal(rows, v),
      map r | r in (set c | c in rows && RarityOf(cache, c.tcgdexId).Some? :: RarityOf(cache, c.tcgdexId).value) ::
        RarityTotal(rows, cache, r))
  }

  /** The per-variant totals of the listed variants, added up. */
  function SumOver(rows: seq<OwnedCard>, variants: seq<string>): int
  {
    if variants == [] then 0 else VariantTotal(rows, variants[0]) + SumOver(rows, variants[1..])
  }

  /** The variant breakdown accounts for every card: its values add up to the total. */
  lemma {:induction false} VariantBreakdownSumsToTotal(rows: seq<OwnedCard>, variants: seq<string>)
    requires forall i, j :: 0 <= i < j < |variants| ==> variants[i] != variants[j]
    requires forall c :: c in rows ==> c.variant in variants
    ensures SumOver(rows, variants) == TotalQuantity(rows)
    decreases |rows|
  {
    if rows == [] {
      SumOverEmpty(variants);
    } else {
      var init, last := rows[..|rows| - 1], rows[|rows| - 1];
      assert forall c :: c in init ==> c in rows;
      VariantBreakdownSumsToTotal(init, variants);
      SumOverSnoc(init, last, variants);
      assert rows == init + [last];
    }
  }

  lemma {:induction false} SumOverEmpty(variants: seq<string>)
    ensures SumOver([], variants) == 0
  {
    if variants != [] {
      SumOverEmpty(variants[1..]);
    }
  }

  lemma {:induction false} SumOverSnoc(rows: seq<OwnedCard>, x: OwnedCard, variants: seq<string>)
    requires forall i, j :: 0 <= i < j < |variants| ==> variants[i] != variants[j]
    requires x.variant in variants
    ensures SumOver(rows + [x], variants) == SumOver(rows, variants) + x.quantity
    decreases |variants|
  {
    assert (rows + [x])[..|rows|] == rows;
    if variants[0] == x.variant {
      assert x.variant !in variants[1..] by {
        forall j | 0 <= j < |variants[1..]| ensures variants[1..][j] != x.variant {
          assert variants[1..][j] == variants[j + 1];
        }
      }
      SumOverMissing(rows, x, variants[1..]);
    } else {
      SumOverSnoc(rows, x, variants[1..]);
    }
  }

  lemma {:induction false} SumOverMissing(rows: seq<OwnedCard>, x: OwnedCard, variants: seq<string>)
    requires x.variant !in variants
    ensures SumOver(rows + [x], variants) == SumOver(rows, variants)
    decreases |variants|
  {
    assert (rows + [x])[..|rows|] == rows;
    if variants != [] {
      SumOverMissing(rows, x, variants[1..]);
    }
  }

  /** `LOWER(name) LIKE LOWER('%term%') OR LOWER(set_id) LIKE LOWER('%term%')`. */
  predicate SetMatches(row: SetCacheRow, term: string)
  {
    Like(Lower(row.name), Lower("%" + term + "%")) || Like(Lower(row.setId), Lower("%" + term + "%"))
  }

  /** For a term without wildcards the search is a case-insensitive substring test on name or set id. */
  lemma SetMatchesContains(row: SetCacheRow, term: string)
    requires NoWildcards(term)
    ensures SetMatches(row, term) <==> Contains(Lower(row.name), Lower(term)) || Contains(Lower(row.setId), Lower(term))
  {
    LikeContains(row.name, term);
    LikeContains(row.setId, term);
  }

  /** The set cache in `set_id` order, one row per set id. */
  predicate SetIdsAscending(rows: seq<SetCacheRow>)
  {
    forall i, j :: 0 <= i < j < |rows| ==> Less(rows[i].setId, rows[j].setId)
  }

  /** `INSERT OR REPLACE` by `set_id` into a table kept in `set_id` order. */
  function UpsertSet(rows: seq<SetCacheRow>, row: SetCacheRow): (r: seq<SetCacheRow>)
    requires SetIdsAscending(rows)
    ensures SetIdsAscending(r)
    ensures row in r
    ensures forall x :: x in r ==> x == row || (x in rows && x.setId != row.setId)
    ensures forall x :: x in rows && x.setId != row.setId ==> x in r
    decreases |rows|
  {
    if rows == [] then [row]
    else if rows[0].setId == row.setId then
      AscendingTail(rows);
      forall x | x in rows[1..] ensures x.setId != row.setId { LessIrreflexive(rows[0].setId); }
      [row] + rows[1..]
    else if Less(row.setId, rows[0].setId) then
      LessIrreflexive(row.setId);
      forall j | 0 <= j < |rows| ensures Less(row.setId, rows[j].setId) && rows[j].setId != row.setId {
        if j > 0 { LessTransitive(row.setId, rows[0].setId, rows[j].setId); }
      }
      [row] + rows
    else
      LessTotal(row.setId, rows[0].setId);
      AscendingTail(rows);
      [rows[0]] + UpsertSet(rows[1..], row)
  }

  /** The rows after the first of an ascending table: ascending, and all after the first. */
  lemma AscendingTail(rows: seq<SetCacheRow>)
    requires rows != [] && SetIdsAscending(rows)
    ensures SetIdsAscending(rows[1..])
    ensures forall x :: x in rows[1..] ==> Less(rows[0].setId, x.setId)
    ensures forall x :: x in rows ==> x == rows[0] || x in rows[1..]
  {
    forall x | x in rows[1..] ensures Less(rows[0].setId, x.setId) {
      var j :| 0 <= j < |rows[1..]| && rows[1..][j] == x;
      assert rows[j + 1] == x;
    }
    assert rows == [rows[0]] + rows[1..];
  }

  /** `cache_sets`: the rows of a list of sets upserted one after another. */
  function UpsertAll(rows: seq<SetCacheRow>, news: seq<SetCacheRow>): (r: seq<SetCacheRow>)
    requires SetIdsAscending(rows)
    ensures SetIdsAscending(r)
  {
    if news == [] then rows
    else UpsertSet(UpsertAll(rows, news[..|news| - 1]), news[|news| - 1])
  }

  /** Caching one more row is one more upsert. */
  lemma UpsertAllSnoc(rows: seq<SetCacheRow>, news: seq<SetCacheRow>, i: nat)
    requires SetIdsAscending(rows) && i < |news|
    ensures UpsertAll(rows, news[..i + 1]) == UpsertSet(UpsertAll(rows, news[..i]), news[i])
  {
    assert news[..i + 1][..i] == news[..i];
  }

  /** After caching a list, every row of the table came from the list or was there before. */
  lemma {:induction false} UpsertAllFrom(rows: seq<SetCacheRow>, news: seq<SetCacheRow>, x: SetCacheRow)
    requires SetIdsAscending(rows) && x in UpsertAll(rows, news)
    ensures x in news || x in rows
  {
    if news != [] {
      var init, last := news[..|news| - 1], news[|news| - 1];
      var prev := UpsertAll(rows, init);
      assert x == last || x in prev;
      if x != last {
        UpsertAllFrom(rows, init, x);
        assert x in init ==> x in news;
      }
    }
  }

  /** Caching a list keeps every row whose id the list does not mention. */
  lemma {:induction false} UpsertAllKeeps(rows: seq<SetCacheRow>, news: seq<SetCacheRow>, x: SetCacheRow)
    requires SetIdsAscending(rows) && x in rows
    requires forall n :: n in news ==> n.setId != x.setId
    ensures x in UpsertAll(rows, news)
  {
    if news != [] {
      var init, last := news[..|news| - 1], news[|news| - 1];
      assert forall n :: n in init ==> n in news;
      UpsertAllKeeps(rows, init, x);
      assert last in news;
    }
  }

  /** After caching a list, the last entry it has for each id is in the table. */
  lemma {:induction false} UpsertAllLast(rows: seq<SetCacheRow>, news: seq<SetCacheRow>, j: nat)
    requires SetIdsAscending(rows) && j < |news|
    requires forall k :: j < k < |news| ==> news[k].setId != news[j].setId
    ensures news[j] in UpsertAll(rows, news)
  {
    var init, last := news[..|news| - 1], news[|news| - 1];
    if j < |init| {
      assert forall k :: j < k < |init| ==> init[k] == news[k];
      UpsertAllLast(rows, init, j);
      assert init[j] == news[j] && last.setId != news[j].setId;
    }
  }

  /** The set rows the search returns, in table order. */
  function SearchSets(rows: seq<SetCacheRow>, term: string): (r: seq<SetCacheRow>)
    ensures forall x :: x in r <==> x in rows && SetMatches(x, term)
    ensures SetIdsAscending(rows) ==> SetIdsAscending(r)
  {
    if rows == [] then []
    else
      var rest := SearchSets(rows[1..], term);
      assert forall x :: x in rows <==> x == rows[0] || x in rows[1..] by {
        assert rows == [rows[0]] + rows[1..];
      }
      assert SetIdsAscending(rows) ==> SetIdsAscending([rows[0]] + rest) by {
        if SetIdsAscending(rows) {
          AscendingTail(rows);
        }
      }
      if SetMatches(rows[0], term) then [rows[0]] + rest else rest
  }

  /** Read every set row back with `SetInfo.from_db_row`; the first unreadable one raises. */
  function ReadSets(rows: seq<SetCacheRow>): (r: Result<seq<SetInfo>>)
    ensures r.Ok? <==> forall i :: 0 <= i < |rows| ==> SetInfoFromRow(rows[i]).Ok?
    ensures r.Ok? ==> |r.value| == |rows| && forall i :: 0 <= i < |rows| ==> SetInfoFromRow(rows[i]) == Ok(r.value[i])
  {
    if rows == [] then Ok([])
    else
      var first := SetInfoFromRow(rows[0]);
      var rest := ReadSets(rows[1..]);
      RowsTail(rows);
      if first.Err? then Err(first.error)
      else if rest.Err? then Err(rest.error)
      else Ok([first.value] + rest.value)
  }

  lemma RowsTail(rows: seq<SetCacheRow>)
    requires rows != []
    ensures forall i :: 1 <= i < |rows| ==> rows[i] == rows[1..][i - 1]
  {
  }

  /** `MIN(cached_at)`: the smallest stored timestamp text. */
  function MinText(rows: seq<SetCacheRow>): (m: string)
    requires rows != []
    ensures exists i :: 0 <= i < |rows| && rows[i].cachedAt == m
    ensures forall i :: 0 <= i < |rows| ==> !Less(rows[i].cachedAt, m)
  {
    if |rows| == 1 then
      LessIrreflexive(rows[0].cachedAt);
      rows[0].cachedAt
    else
      var m := MinText(rows[1..]);
      assert forall i :: 1 <= i < |rows| ==> rows[i] == rows[1..][i - 1];
      if Less(rows[0].cachedAt, m) then
        forall i | 1 <= i < |rows| ensures !Less(rows[i].cachedAt, rows[0].cachedAt) {
          if Less(rows[i].cachedAt, rows[0].cachedAt) {
            LessTransitive(rows[i].cachedAt, rows[0].cachedAt, m);
          }
        }
        LessIrreflexive(rows[0].cachedAt);
        rows[0].cachedAt
      else
        LessIrreflexive(m);
        m
  }

  /** `get_set_cache_age`: the oldest cache time, `None` for an empty cache or an empty oldest text; an unreadable text raises. */
  function SetCacheAge(rows: seq<SetCacheRow>): (r: Result<Option<Clock.DateTime>>)
    ensures rows == [] ==> r == Ok(None)
    ensures rows != [] && MinText(rows) == "" ==> r == Ok(None)
    ensures rows != [] && MinText(rows) != "" ==> r == (match Clock.FromIso(MinText(rows))
                                                       case Ok(t) => Ok(Some(t))
                                                       case Err(e) => Err(e))
  {
    if rows == [] || MinText(rows) == "" then Ok(None)
    else
      match Clock.FromIso(MinText(rows))
      case Ok(t) => Ok(Some(t))
      case Err(e) => Err(e)
  }

  /** When the oldest row was cached with `isoformat()` at instant `d`, the age is `d`. */
  lemma SetCacheAgeOfIso(rows: seq<SetCacheRow>, i: nat, d: Clock.DateTime)
    requires i < |rows| && d.Valid() && rows[i].cachedAt == Clock.Iso(d)
    requires forall k :: 0 <= k < |rows| ==> !Less(rows[k].cachedAt, rows[i].cachedAt)
    ensures SetCacheAge(rows) == Ok(Some(d))
  {
    LessTotal(rows[i].cachedAt, MinText(rows));
    Clock.IsoRoundTrip(d);
  }

  /** The rows `cache_sets` writes for a list of sets. */
  function RowsOf(infos: seq<SetInfo>): (rows: seq<SetCacheRow>)
    requires forall k :: 0 <= k < |infos| ==> infos[k].cachedAt.Valid()
    ensures |rows| == |infos| && forall k :: 0 <= k < |infos| ==> rows[k] == SetInfoToRow(infos[k])
  {
    if infos == [] then [] else [SetInfoToRow(infos[0])] + RowsOf(infos[1..])
  }

  /** The card cache: `INSERT OR REPLACE` by `tcgdex_id`. */
  function CacheCardSpec(cache: map<string, CardCacheRow>, info: CardInfo): map<string, CardCacheRow>
    requires info.cachedAt.Valid()
  {
    cache[info.tcgdexId := CardInfoToRow(info)]
  }

  /** `get_cached_card`: `None` for an uncached card; a row `from_db_row` cannot read raises. */
  function CachedCard(cache: map<string, CardCacheRow>, tcgdexId: string): (r: Result<Option<CardInfo>>)
    ensures tcgdexId !in cache <==> r == Ok(None)
    ensures r.Ok? && r.value.Some? ==> r.value.value.tcgdexId == tcgdexId
  {
    if tcgdexId !in cache then Ok(None)
    else
      match CardInfoFromRow(cache[tcgdexId])
      case Err(e) => Err(e)
      case Ok(c) =>
        if cache[tcgdexId].tcgdexId == tcgdexId then Ok(Some(c)) else Ok(Some(c.(tcgdexId := tcgdexId)))
  }

  /** Caching a card and then looking it up gives that card back; other cards are unaffected. */
  lemma CacheThenGet(cache: map<string, CardCacheRow>, info: CardInfo, other: string)
    requires info.cachedAt.Valid()
    ensures CachedCard(CacheCardSpec(cache, info), info.tcgdexId) == Ok(Some(info))
    ensures other != info.tcgdexId ==> CachedCard(CacheCardSpec(cache, info), other) == CachedCard(cache, other)
  {
    CardInfoRowRoundTrip(info);
  }

  /** A row of the `cards` table before the language column existed. */
  datatype UnlocalizedCard = UnlocalizedCard(
    id: int, setId: string, cardNumber: string, tcgdexId: string, variant: string,
    quantity: int, addedAt: Clock.DateTime, updatedAt: Clock.DateTime)

  /** The `cards` table, with or without its language column. */
  datatype CardsTable =
    | WithLanguage(rows: seq<OwnedCard>)
    | WithoutLanguage(oldRows: seq<UnlocalizedCard>)

  /** The copy of an old row: the same fields, language `de`. */
  function Localized(c: UnlocalizedCard): OwnedCard
  {
    OwnedCard(c.id, c.setId, c.cardNumber, c.tcgdexId, c.variant, "de", c.quantity, c.addedAt, c.updatedAt)
  }

  function LocalizedAll(rows: seq<UnlocalizedCard>): (r: seq<OwnedCard>)
    ensures |r| == |rows| && forall i :: 0 <= i < |rows| ==> r[i] == Localized(rows[i])
  {
    if rows == [] then [] else LocalizedAll(rows[..|rows| - 1]) + [Localized(rows[|rows| - 1])]
  }

  /**
   * The tables `_migrate_add_language_column` leaves: `cards`, the renamed old table when
   * it is still there, and the error the copy raised, if any.
   */
  datatype Upgrade = Upgrade(cards: CardsTable, cardsOld: Option<seq<UnlocalizedCard>>, error: Option<string>)

  /**
   * `_migrate_add_language_column`: a table that has the column is left as it is;
   * otherwise the table is renamed to `cards_old`, the new layout is created, and every
   * row is copied in with language `de`. The rename and the creation take effect at once;
   * when two copies collide on the new unique key the copy fails, which leaves the new
   * `cards` table empty and the rows in `cards_old`.
   */
  function AddLanguageColumn(table: CardsTable): (r: Upgrade)
    ensures table.WithLanguage? ==> r == Upgrade(table, None, None)
    ensures r.cards.WithLanguage?
    ensures table.WithoutLanguage? ==>
      (r.error.None? <==> forall i, j :: 0 <= i < j < |table.oldRows| ==>
         (table.oldRows[i].tcgdexId, table.oldRows[i].variant) != (table.oldRows[j].tcgdexId, table.oldRows[j].variant))
    ensures r.error.Some? ==> r.cards.rows == [] && r.cardsOld == Some(table.oldRows)
    ensures table.WithoutLanguage? && r.error.None? ==> r.cardsOld.None? && |r.cards.rows| == |table.oldRows|
    ensures table.WithoutLanguage? && r.error.None? ==> forall i :: 0 <= i < |table.oldRows| ==>
      var n, o := r.cards.rows[i], table.oldRows[i];
      n.language == "de" && n.id == o.id && n.setId == o.setId && n.cardNumber == o.cardNumber &&
      n.tcgdexId == o.tcgdexId && n.variant == o.variant && n.quantity == o.quantity &&
      n.addedAt == o.addedAt && n.updatedAt == o.updatedAt
  {
    if table.WithLanguage? then Upgrade(table, None, None)
    else
      var rows := LocalizedAll(table.oldRows);
      if KeysUnique(rows) then Upgrade(WithLanguage(rows), None, None)
      else Upgrade(WithLanguage([]), Some(table.oldRows), Some("UNIQUE constraint failed: cards.tcgdex_id, cards.variant, cards.language"))
  }

  /**
   * The upgrade runs once: afterwards `cards` has the column and a second run changes
   * nothing, even after a failed copy, whose rows stay behind in `cards_old`. A
   * successful upgrade keeps the collection total.
   */
  lemma AddLanguageColumnTwice(table: CardsTable)
    ensures var r := AddLanguageColumn(table);
      AddLanguageColumn(r.cards) == Upgrade(r.cards, None, None)
    ensures table.WithoutLanguage? && AddLanguageColumn(table).error.None? ==>
      TotalQuantity(AddLanguageColumn(table).cards.rows) == OldTotal(table.oldRows)
  {
    if table.WithoutLanguage? {
      LocalizedTotal(table.oldRows);
    }
  }

  function OldTotal(rows: seq<UnlocalizedCard>): int
  {
    if rows == [] then 0 else OldTotal(rows[..|rows| - 1]) + rows[|rows| - 1].quantity
  }

  lemma {:induction false} LocalizedTotal(rows: seq<UnlocalizedCard>)
    ensures TotalQuantity(LocalizedAll(rows)) == OldTotal(rows)
  {
    if rows != [] {
      LocalizedTotal(rows[..|rows| - 1]);
      TotalAppend(LocalizedAll(rows[..|rows| - 1]), Localized(rows[|rows| - 1]));
    }
  }

  /**
   * The collection database: the `cards` table (rows in insertion order, `nextId` the
   * next `AUTOINCREMENT` id), the card cache keyed by card id and the set cache kept in
   * `set_id` order.
   */
  class CollectionDb {
    var cards: seq<OwnedCard>
    var nextId: int
    var cardCache: map<string, CardCacheRow>
    var setCache: seq<SetCacheRow>

    /** The table constraints: unique `(tcgdex_id, variant, language)`, ids below the counter, one set row per id. */
    predicate Valid()
      reads this
    {
      KeysUnique(cards) && (forall i :: 0 <= i < |cards| ==> cards[i].id < nextId) && SetIdsAscending(setCache)
    }

    /** `init_database` on a new file: the empty schema. */
    constructor ()
      ensures Valid() && cards == [] && cardCache == map[] && setCache == []
    {
      cards, nextId, cardCache, setCache := [], 1, map[], [];
    }

    /**
     * `add_card_variant`: adds `quantity` to the variant's row, creating it when absent,
     * and returns the row; an id without `-` raises before the database is touched.
     */
    method AddCardVariant(tcgdexId: string, variant: string, language: string, quantity: int, now: Clock.DateTime)
      returns (r: Result<OwnedCard>)
      requires Valid()
      modifies this
      ensures Valid()
      ensures unchanged(this`cardCache) && unchanged(this`setCache)
      ensures r.Err? <==> '-' !in tcgdexId
      ensures r.Err? ==> r.error == "Invalid TCGdex ID format: " + tcgdexId && unchanged(this)
      ensures r.Ok? ==>
        var (setId, cardNumber) := ParseTcgdexId(tcgdexId).value;
        cards == AddSpec(old(cards), tcgdexId, setId, cardNumber, variant, language, quantity, now, old(nextId)) &&
        r.value in cards && Key(r.value) == (tcgdexId, variant, language)
    {
      var parsed := ParseTcgdexId(tcgdexId);
      if parsed.Err? {
        return Err(parsed.error);
      }
      var (setId, cardNumber) := parsed.value;
      var k := (tcgdexId, variant, language);
      AddQuantities(cards, tcgdexId, setId, cardNumber, variant, language, quantity, now, nextId, k);
      var found := Find(cards, k);
      if found.Some? {
        var i := found.value;
        var row := cards[i].(quantity := cards[i].quantity + quantity, updatedAt := now);
        cards := cards[i := row];
        r := Ok(row);
      } else {
        var row := OwnedCard(nextId, setId, cardNumber, tcgdexId, variant, language, quantity, now, now);
        cards := cards + [row];
        nextId := nextId + 1;
        r := Ok(row);
      }
    }

    /**
     * `remove_card_variant`: lowers the variant's quantity, deleting the row when nothing
     * would remain; returns the updated row, or `None` when the row is gone or was never there.
     */
    method RemoveCardVariant(tcgdexId: string, variant: string, language: string, quantity: int, now: Clock.DateTime)
      returns (r: Option<OwnedCard>)
      requires Valid()
      modifies this`cards
      ensures Valid()
      ensures cards == RemoveSpec(old(cards), (tcgdexId, variant, language), quantity, now)
      ensures r.Some? <==>
        QuantityOf(old(cards), (tcgdexId, variant, language)).Some? &&
        QuantityOf(old(cards), (tcgdexId, variant, language)).value - quantity > 0
      ensures r.Some? ==> r.value in cards && Key(r.value) == (tcgdexId, variant, language) &&
                          r.value.quantity == QuantityOf(old(cards), (tcgdexId, variant, language)).value - quantity
    {
      var k := (tcgdexId, variant, language);
      RemoveQuantities(cards, k, quantity, now, k);
      var found := Find(cards, k);
      if found.None? {
        return None;
      }
      var i := found.value;
      var newQty := cards[i].quantity - quantity;
      if newQty <= 0 {
        cards := cards[..i] + cards[i + 1..];
        assert forall j :: 0 <= j < |cards| ==> cards[j] in old(cards);
        return None;
      }
      var row := cards[i].(quantity := newQty, updatedAt := now);
      cards := cards[i := row];
      return Some(row);
    }

    /** `get_owned_cards`. */
    function GetOwnedCards(setId: Option<string>, language: Option<string>): (r: seq<OwnedCard>)
      reads this
      ensures forall c :: c in r <==> c in cards && Matches(c, setId, language)
      ensures InOwnedOrder(r)
    {
      OwnedCards(cards, setId, language)
    }

    /** `get_collection_stats`. */
    function GetCollectionStats(): (s: CollectionStats)
      reads this
      ensures s.totalCards == TotalQuantity(cards)
      ensures s.variantBreakdown.Keys == set c | c in cards :: c.variant
    {
      Stats(cards, cardCache)
    }

    /** `cache_card`. */
    method CacheCard(info: CardInfo)
      requires info.cachedAt.Valid()
      modifies this`cardCache
      ensures cardCache == CacheCardSpec(old(cardCache), info)
      ensures GetCachedCard(info.tcgdexId) == Ok(Some(info))
    {
      cardCache := cardCache[info.tcgdexId := CardInfoToRow(info)];
      CacheThenGet(old(cardCache), info, info.tcgdexId);
    }

    /** `get_cached_card`. */
    function GetCachedCard(tcgdexId: string): (r: Result<Option<CardInfo>>)
      reads this
      ensures tcgdexId !in cardCache <==> r == Ok(None)
    {
      CachedCard(cardCache, tcgdexId)
    }

    /** `cache_sets`: one `INSERT OR REPLACE` per set, in list order. */
    method CacheSets(infos: seq<SetInfo>)
      requires Valid() && forall k :: 0 <= k < |infos| ==> infos[k].cachedAt.Valid()
      modifies this`setCache
      ensures Valid()
      ensures setCache == UpsertAll(old(setCache), RowsOf(infos))
    {
      var rows := RowsOf(infos);
      var i := 0;
      while i < |infos|
        invariant 0 <= i <= |infos|
        invariant SetIdsAscending(setCache)
        invariant setCache == UpsertAll(old(setCache), rows[..i])
      {
        UpsertAllSnoc(old(setCache), rows, i);
        setCache := UpsertSet(setCache, SetInfoToRow(infos[i]));
        i := i + 1;
      }
      assert rows[..i] == rows;
    }

    /** `get_cached_sets`: all sets in `set_id` order, or those the search term matches. */
    function GetCachedSets(searchTerm: Option<string>): (r: Result<seq<SetInfo>>)
      reads this
      ensures (searchTerm.None? || searchTerm.value == "") ==> r == ReadSets(setCache)
      ensures searchTerm.Some? && searchTerm.value != "" ==> r == ReadSets(SearchSets(setCache, searchTerm.value))
    {
      if searchTerm.None? || searchTerm.value == "" then ReadSets(setCache)
      else ReadSets(SearchSets(setCache, searchTerm.value))
    }

    /** `get_set_cache_age`. */
    function GetSetCacheAge(): (r: Result<Option<Clock.DateTime>>)
      reads this
      ensures setCache == [] ==> r == Ok(None)
    {
      SetCacheAge(setCache)
    }
  }
}
