/**
 * Collection analysis over the raw card documents: the ownership summary of one card
 * in one language, filtering the owned cards, and the statistics of a list of
 * analysed cards. The raw documents (one JSON file per card id) and the owned rows
 * are inputs; what `load_raw_card_data` finds for an id is `raw[id]`, and an id
 * without a file is missing from `raw`.
 */
module Analyzer {
  import opened Wrappers
  import opened Strings
  import opened Payloads
  import opened Models
  import opened Tally

  /** A raw card document: the card fields plus the two only the filters read. */
  datatype RawCard = RawCard(card: CardPayload, regulationMark: Option<string>, illustrator: Option<string>)
  {
    /** Python truthiness of the document: false exactly when it has no keys. */
    predicate Truthy()
    {
      card.NonEmpty() || regulationMark.Some? || illustrator.Some?
    }
  }

  /** The filter criteria; every criterion is optional. */
  datatype AnalysisFilter = AnalysisFilter(
    stage: Option<string>,
    cardType: Option<string>,
    rarity: Option<string>,
    hpMin: Option<int>,
    hpMax: Option<int>,
    category: Option<string>,
    language: Option<string>,
    setId: Option<string>,
    regulation: Option<string>,
    artist: Option<string>)

  /** Whether a text criterion is in force: an absent and an empty one are both off. */
  predicate On(o: Option<string>)
  {
    o.Some? && o.value != ""
  }

  /** Whether an HP bound is in force: an absent bound and a bound of 0 are both off. */
  predicate Bound(o: Option<int>)
  {
    o.Some? && o.value != 0
  }

  /** The analysis of one owned card in one language. */
  datatype CardAnalysis = CardAnalysis(
    tcgdexId: string,
    name: string,
    language: string,
    setName: string,
    stage: Option<string>,
    types: seq<string>,
    hp: Option<int>,
    rarity: Option<string>,
    category: string,
    quantity: int,
    variants: seq<string>)

  // ---------------------------------------------------------------- one card

  /** The owned rows of a card in a language, in table order. */
  function Owned(owned: seq<OwnedCard>, id: string, language: string): (g: seq<OwnedCard>)
    ensures forall o :: o in g <==> o in owned && o.tcgdexId == id && o.language == language
  {
    if owned == [] then []
    else
      var last := owned[|owned| - 1];
      assert owned == owned[..|owned| - 1] + [last];
      Owned(owned[..|owned| - 1], id, language) +
        (if last.tcgdexId == id && last.language == language then [last] else [])
  }

  function OwnedQuantity(g: seq<OwnedCard>): int
  {
    if g == [] then 0 else OwnedQuantity(g[..|g| - 1]) + g[|g| - 1].quantity
  }

  function VariantsOf(g: seq<OwnedCard>): (vs: seq<string>)
    ensures |vs| == |g| && forall i :: 0 <= i < |g| ==> vs[i] == g[i].variant
  {
    seq(|g|, i requires 0 <= i < |g| => g[i].variant)
  }

  /**
   * What `load_card_with_ownership` returns: nothing without a (non-empty) raw
   * document or when the matching rows hold no copies; otherwise the document's
   * data, with "Unknown" for a missing name, set name or category.
   */
  function CardOf(id: string, language: string, raw: map<string, RawCard>, owned: seq<OwnedCard>): (r: Option<CardAnalysis>)
    ensures r.None? <==> id !in raw || !raw[id].Truthy() || OwnedQuantity(Owned(owned, id, language)) == 0
    ensures r.Some? ==> r.value.tcgdexId == id && r.value.language == language
    ensures r.Some? ==> r.value.quantity == OwnedQuantity(Owned(owned, id, language))
    ensures r.Some? ==> r.value.variants == VariantsOf(Owned(owned, id, language))
  {
    if id !in raw || !raw[id].Truthy() then None
    else
      var g := Owned(owned, id, language);
      if OwnedQuantity(g) == 0 then None
      else
        var c := raw[id].card;
        Some(CardAnalysis(id, c.name.GetOr("Unknown"), language, c.setName.GetOr("Unknown"), c.stage,
                          c.types.GetOr([]), c.hp, c.rarity, c.category.GetOr("Unknown"),
                          OwnedQuantity(g), VariantsOf(g)))
  }

  /** Rows with positive quantities hold copies exactly when there is at least one. */
  lemma {:induction false} PositiveQuantity(g: seq<OwnedCard>)
    requires forall o :: o in g ==> o.quantity > 0
    ensures OwnedQuantity(g) >= |g|
    ensures OwnedQuantity(g) == 0 <==> g == []
  {
    if g != [] {
      var init := g[..|g| - 1];
      assert forall o :: o in init ==> o in g;
      PositiveQuantity(init);
      assert g[|g| - 1] in g;
    }
  }

  /**
   * When every stored quantity is positive, a card is found exactly when its raw
   * document exists and is non-empty and at least one row owns it in that language.
   */
  lemma CardFoundIffOwned(id: string, language: string, raw: map<string, RawCard>, owned: seq<OwnedCard>)
    requires forall o :: o in owned ==> o.quantity > 0
    ensures CardOf(id, language, raw, owned).Some? <==>
            id in raw && raw[id].Truthy() && exists o :: o in owned && o.tcgdexId == id && o.language == language
  {
    var g := Owned(owned, id, language);
    PositiveQuantity(g);
    if g != [] {
      assert g[0] in g;
    }
  }

  /** One more row adds its variant and its quantity when it matches. */
  lemma OwnedStep(owned: seq<OwnedCard>, i: nat, id: string, language: string)
    requires i < |owned|
    ensures var g := Owned(owned[..i], id, language);
            var o := owned[i];
            if o.tcgdexId == id && o.language == language then
              VariantsOf(Owned(owned[..i + 1], id, language)) == VariantsOf(g) + [o.variant] &&
              OwnedQuantity(Owned(owned[..i + 1], id, language)) == OwnedQuantity(g) + o.quantity
            else Owned(owned[..i + 1], id, language) == g
  {
    var g := Owned(owned[..i], id, language);
    var o := owned[i];
    assert owned[..i + 1][..i] == owned[..i];
    if o.tcgdexId == id && o.language == language {
      assert Owned(owned[..i + 1], id, language) == g + [o];
      assert (g + [o])[..|g|] == g;
    }
  }

  /** `load_card_with_ownership`: look up the raw document, then sum the matching rows. */
  method LoadCardWithOwnership(id: string, language: string, raw: map<string, RawCard>, owned: seq<OwnedCard>)
    returns (r: Option<CardAnalysis>)
    ensures r == CardOf(id, language, raw, owned)
  {
    if id !in raw || !raw[id].Truthy() {
      return None;
    }
    var cardVariants: seq<string> := [];
    var totalQuantity := 0;
    for i := 0 to |owned|
      invariant cardVariants == VariantsOf(Owned(owned[..i], id, language))
      invariant totalQuantity == OwnedQuantity(Owned(owned[..i], id, language))
    {
      var o := owned[i];
      OwnedStep(owned, i, id, language);
      if o.tcgdexId == id && o.language == language {
        cardVariants := cardVariants + [o.variant];
        totalQuantity := totalQuantity + o.quantity;
      }
    }
    assert owned[..|owned|] == owned;
    if totalQuantity == 0 {
      return None;
    }
    var c := raw[id].card;
    r := Some(CardAnalysis(id, c.name.GetOr("Unknown"), language, c.setName.GetOr("Unknown"), c.stage,
                           c.types.GetOr([]), c.hp, c.rarity, c.category.GetOr("Unknown"),
                           totalQuantity, cardVariants));
  }

  // ---------------------------------------------------------------- filtering

  /** The set id of a card id: the text before the first "-". */
  function SetOf(id: string): string
  {
    Split(id, '-')[0]
  }

  /** The criteria after the language, met by a found card and its raw document. */
  predicate Satisfies(f: AnalysisFilter, c: CardAnalysis, doc: RawCard)
  {
    (On(f.setId) ==> SetOf(c.tcgdexId) == f.setId.value) &&
    (On(f.stage) ==> c.stage == f.stage) &&
    (On(f.cardType) ==> f.cardType.value in c.types) &&
    (On(f.rarity) ==> c.rarity == f.rarity) &&
    (Bound(f.hpMin) ==> c.hp.Some? && c.hp.value >= f.hpMin.value) &&
    (Bound(f.hpMax) ==> c.hp.Some? && c.hp.value <= f.hpMax.value) &&
    (On(f.category) ==> c.category == f.category.value) &&
    (On(f.regulation) ==> doc.regulationMark == f.regulation) &&
    (On(f.artist) ==> Contains(Lower(doc.illustrator.GetOr("")), Lower(f.artist.value)))
  }

  /** The result contributed by one owned (card id, language) pair. */
  function Selected(f: AnalysisFilter, key: (string, string), raw: map<string, RawCard>, owned: seq<OwnedCard>): Option<CardAnalysis>
  {
    if On(f.language) && key.1 != f.language.value then None
    else
      match CardOf(key.0, key.1, raw, owned)
      case None => None
      case Some(c) => if Satisfies(f, c, raw[key.0]) then Some(c) else None
  }

  /** What `analyze_collection` returns for the owned pairs `ids`, in their order. */
  function Analyze(f: AnalysisFilter, ids: seq<(string, string)>, raw: map<string, RawCard>, owned: seq<OwnedCard>): seq<CardAnalysis>
  {
    if ids == [] then []
    else
      Analyze(f, ids[..|ids| - 1], raw, owned) +
        match Selected(f, ids[|ids| - 1], raw, owned)
        case None => []
        case Some(c) => [c]
  }

  /** The chain of `continue` tests of `analyze_collection` after a card was found. */
  method Keep(f: AnalysisFilter, card: CardAnalysis, doc: RawCard) returns (keep: bool)
    ensures keep <==> Satisfies(f, card, doc)
  {
    keep := true;
    if On(f.setId) && SetOf(card.tcgdexId) != f.setId.value {
      keep := false;
    }
    if On(f.stage) && card.stage != f.stage {
      keep := false;
    }
    if On(f.cardType) && (card.types == [] || f.cardType.value !in card.types) {
      keep := false;
    }
    if On(f.rarity) && card.rarity != f.rarity {
      keep := false;
    }
    if Bound(f.hpMin) && (card.hp.None? || card.hp.value < f.hpMin.value) {
      keep := false;
    }
    if Bound(f.hpMax) && (card.hp.None? || card.hp.value > f.hpMax.value) {
      keep := false;
    }
    if On(f.category) && card.category != f.category.value {
      keep := false;
    }
    if On(f.regulation) && doc.regulationMark != f.regulation {
      keep := false;
    }
    if On(f.artist) && !Contains(Lower(doc.illustrator.GetOr("")), Lower(f.artist.value)) {
      keep := false;
    }
  }

  /** `analyze_collection` over the owned (card id, language) pairs. */
  method AnalyzeCollection(f: AnalysisFilter, ids: seq<(string, string)>, raw: map<string, RawCard>, owned: seq<OwnedCard>)
    returns (results: seq<CardAnalysis>)
    ensures results == Analyze(f, ids, raw, owned)
  {
    results := [];
    for i := 0 to |ids|
      invariant results == Analyze(f, ids[..i], raw, owned)
    {
      var (id, language) := ids[i];
      assert ids[..i + 1][..i] == ids[..i];
      if !(On(f.language) && language != f.language.value) {
        var card := LoadCardWithOwnership(id, language, raw, owned);
        if card.Some? {
          var keep := Keep(f, card.value, raw[id]);
          if keep {
            results := results + [card.value];
          }
        }
      }
    }
    assert ids[..|ids|] == ids;
  }

  /**
   * Every result is the found card of an owned pair and meets every criterion in
   * force: language, set prefix, stage, type, rarity, inclusive HP bounds (a card
   * without HP fails a bound), category, regulation mark and artist.
   */
  lemma {:induction false} AnalyzeSound(f: AnalysisFilter, ids: seq<(string, string)>, raw: map<string, RawCard>,
                                        owned: seq<OwnedCard>, c: CardAnalysis)
    requires c in Analyze(f, ids, raw, owned)
    ensures exists k :: k in ids && CardOf(k.0, k.1, raw, owned) == Some(c)
    ensures On(f.language) ==> c.language == f.language.value
    ensures c.tcgdexId in raw && Satisfies(f, c, raw[c.tcgdexId])
  {
    var init := ids[..|ids| - 1];
    var last := ids[|ids| - 1];
    if c in Analyze(f, init, raw, owned) {
      AnalyzeSound(f, init, raw, owned, c);
      var k :| k in init && CardOf(k.0, k.1, raw, owned) == Some(c);
      assert k in ids;
    } else {
      assert Selected(f, last, raw, owned) == Some(c);
      assert last in ids;
    }
  }

  /** Every found card of an owned pair that meets the criteria is among the results. */
  lemma {:induction false} AnalyzeComplete(f: AnalysisFilter, ids: seq<(string, string)>, raw: map<string, RawCard>,
                                           owned: seq<OwnedCard>, k: (string, string))
    requires k in ids
    requires !On(f.language) || k.1 == f.language.value
    requires CardOf(k.0, k.1, raw, owned).Some?
    requires Satisfies(f, CardOf(k.0, k.1, raw, owned).value, raw[k.0])
    ensures CardOf(k.0, k.1, raw, owned).value in Analyze(f, ids, raw, owned)
  {
    var init := ids[..|ids| - 1];
    if k != ids[|ids| - 1] {
      assert ids == init + [ids[|ids| - 1]];
      AnalyzeComplete(f, init, raw, owned, k);
    }
  }

  /** An HP bound of 0 filters exactly as no bound. */
  lemma {:induction false} ZeroBoundIsNoBound(f: AnalysisFilter, ids: seq<(string, string)>, raw: map<string, RawCard>,
                                              owned: seq<OwnedCard>)
    ensures Analyze(f.(hpMin := Some(0)), ids, raw, owned) == Analyze(f.(hpMin := None), ids, raw, owned)
    ensures Analyze(f.(hpMax := Some(0)), ids, raw, owned) == Analyze(f.(hpMax := None), ids, raw, owned)
  {
    if ids != [] {
      ZeroBoundIsNoBound(f, ids[..|ids| - 1], raw, owned);
      var last := ids[|ids| - 1];
      assert Selected(f.(hpMin := Some(0)), last, raw, owned) == Selected(f.(hpMin := None), last, raw, owned);
      assert Selected(f.(hpMax := Some(0)), last, raw, owned) == Selected(f.(hpMax := None), last, raw, owned);
    }
  }

  // ---------------------------------------------------------------- statistics

  /** The statistics of a list of analysed cards, without the floating-point average HP. */
  datatype Statistics = Statistics(
    totalCards: int,
    totalQuantity: int,
    byStage: map<string, int>,
    byType: map<string, int>,
    byRarity: map<string, int>,
    byCategory: map<string, int>,
    bySet: map<string, int>)

  function Quantity(cards: seq<CardAnalysis>): int
  {
    if cards == [] then 0 else Quantity(cards[..|cards| - 1]) + cards[|cards| - 1].quantity
  }

  /** The set stages, one per card that has one. */
  function Stages(cards: seq<CardAnalysis>): seq<string>
  {
    if cards == [] then []
    else
      var c := cards[|cards| - 1];
      Stages(cards[..|cards| - 1]) + (if On(c.stage) then [c.stage.value] else [])
  }

  /** Every type of every card, in order. */
  function Types(cards: seq<CardAnalysis>): seq<string>
  {
    if cards == [] then [] else Types(cards[..|cards| - 1]) + cards[|cards| - 1].types
  }

  function Rarities(cards: seq<CardAnalysis>): seq<string>
  {
    if cards == [] then []
    else
      var c := cards[|cards| - 1];
      Rarities(cards[..|cards| - 1]) + (if On(c.rarity) then [c.rarity.value] else [])
  }

  function Categories(cards: seq<CardAnalysis>): (cs: seq<string>)
    ensures |cs| == |cards| && forall i :: 0 <= i < |cards| ==> cs[i] == cards[i].category
  {
    seq(|cards|, i requires 0 <= i < |cards| => cards[i].category)
  }

  function Sets(cards: seq<CardAnalysis>): (ss: seq<string>)
    ensures |ss| == |cards| && forall i :: 0 <= i < |cards| ==> ss[i] == SetOf(cards[i].tcgdexId)
  {
    seq(|cards|, i requires 0 <= i < |cards| => SetOf(cards[i].tcgdexId))
  }

  /** Each count is the number of occurrences of its label. */
  function StatisticsOf(cards: seq<CardAnalysis>): Statistics
  {
    Statistics(|cards|, Quantity(cards), TallyMap(Ones(Stages(cards))), TallyMap(Ones(Types(cards))),
               TallyMap(Ones(Rarities(cards))), TallyMap(Ones(Categories(cards))), TallyMap(Ones(Sets(cards))))
  }

  /** `get_collection_statistics`: the totals, then one counting loop per dictionary. */
  method GetCollectionStatistics(cards: seq<CardAnalysis>) returns (stats: Statistics)
    ensures stats == StatisticsOf(cards)
  {
    if cards == [] {
      return Statistics(0, 0, map[], map[], map[], map[], map[]);
    }
    var totalQuantity := TotalQuantity(cards);
    var byStage := Count(Stages(cards));
    var byType := TypeCounts(cards);
    var byRarity := Count(Rarities(cards));
    var byCategory := Count(Categories(cards));
    var bySet := Count(Sets(cards));
    stats := Statistics(|cards|, totalQuantity, byStage, byType, byRarity, byCategory, bySet);
  }

  /** `sum(c.quantity for c in cards)`. */
  method TotalQuantity(cards: seq<CardAnalysis>) returns (total: int)
    ensures total == Quantity(cards)
  {
    total := 0;
    for i := 0 to |cards|
      invariant total == Quantity(cards[..i])
    {
      assert cards[..i + 1][..i] == cards[..i];
      total := total + cards[i].quantity;
    }
    assert cards[..|cards|] == cards;
  }

  /** A counting loop: `d[l] = d.get(l, 0) + 1` for every label in order. */
  method Count(labels: seq<string>) returns (counts: map<string, int>)
    ensures counts == TallyMap(Ones(labels))
  {
    counts := map[];
    for i := 0 to |labels|
      invariant counts == TallyMap(Ones(labels[..i]))
    {
      var key := labels[i];
      assert labels[..i + 1] == labels[..i] + [key];
      TallyOnesSnoc(labels[..i], key);
      counts := counts[key := (if key in counts then counts[key] else 0) + 1];
    }
    assert labels[..|labels|] == labels;
  }

  /** The type-counting loops: every type of every card adds one. */
  method TypeCounts(cards: seq<CardAnalysis>) returns (byType: map<string, int>)
    ensures byType == TallyMap(Ones(Types(cards)))
  {
    byType := map[];
    for i := 0 to |cards|
      invariant byType == TallyMap(Ones(Types(cards[..i])))
    {
      assert cards[..i + 1][..i] == cards[..i];
      assert Types(cards[..i + 1]) == Types(cards[..i]) + cards[i].types;
      byType := CountTypes(byType, cards[i].types);
      AddAllTally(Types(cards[..i]), cards[i].types);
    }
    assert cards[..|cards|] == cards;
  }

  /** The inner loop over one card's types. */
  method CountTypes(byType: map<string, int>, types: seq<string>) returns (counts: map<string, int>)
    ensures counts == AddAll(byType, types)
  {
    counts := byType;
    for j := 0 to |types|
      invariant counts == AddAll(byType, types[..j])
    {
      var cardType := types[j];
      assert types[..j + 1][..j] == types[..j];
      counts := counts[cardType := (if cardType in counts then counts[cardType] else 0) + 1];
    }
    assert types[..|types|] == types;
  }

  /** Summed over all categories, the category counts give the number of cards. */
  lemma CategoryCountsSum(cards: seq<CardAnalysis>, ks: seq<string>)
    requires Distinct(ks) && (set k | k in ks) == StatisticsOf(cards).byCategory.Keys
    ensures forall k :: k in ks ==> k in StatisticsOf(cards).byCategory
    ensures MapSum(StatisticsOf(cards).byCategory, ks) == StatisticsOf(cards).totalCards
  {
    TallyMapWeights(Ones(Categories(cards)));
    TallySum(Ones(Categories(cards)), ks);
    OnesTotal(Categories(cards));
  }

  /** The types of all cards: as many as the cards' type lists together. */
  function TypeTotal(cards: seq<CardAnalysis>): int
  {
    if cards == [] then 0 else TypeTotal(cards[..|cards| - 1]) + |cards[|cards| - 1].types|
  }

  lemma {:induction false} TypesLength(cards: seq<CardAnalysis>)
    ensures |Types(cards)| == TypeTotal(cards)
  {
    if cards != [] {
      TypesLength(cards[..|cards| - 1]);
    }
  }

  /** Summed over all types, the type counts give one per type of every card. */
  lemma TypeCountsSum(cards: seq<CardAnalysis>, ks: seq<string>)
    requires Distinct(ks) && (set k | k in ks) == StatisticsOf(cards).byType.Keys
    ensures forall k :: k in ks ==> k in StatisticsOf(cards).byType
    ensures MapSum(StatisticsOf(cards).byType, ks) == TypeTotal(cards)
  {
    TallyMapWeights(Ones(Types(cards)));
    TallySum(Ones(Types(cards)), ks);
    OnesTotal(Types(cards));
    TypesLength(cards);
  }

  /** The number of cards that have the type `t`. */
  function WithType(cards: seq<CardAnalysis>, t: string): nat
  {
    if cards == [] then 0
    else WithType(cards[..|cards| - 1], t) + (if t in cards[|cards| - 1].types then 1 else 0)
  }

  /**
   * A card whose types are distinct counts once for each of its types: the type counts
   * hold exactly the types that occur, each with the number of cards that have it.
   */
  lemma TypeCountsCards(cards: seq<CardAnalysis>, t: string)
    requires forall c :: c in cards ==> Distinct(c.types)
    ensures t in StatisticsOf(cards).byType <==> WithType(cards, t) > 0
    ensures t in StatisticsOf(cards).byType ==> StatisticsOf(cards).byType[t] == WithType(cards, t)
  {
    OccurrencesCounted(Types(cards), t);
    TypesOccurrences(cards, t);
  }

  lemma {:induction false} TypesOccurrences(cards: seq<CardAnalysis>, t: string)
    requires forall c :: c in cards ==> Distinct(c.types)
    ensures multiset(Types(cards))[t] == WithType(cards, t)
    ensures t in Types(cards) <==> WithType(cards, t) > 0
  {
    if cards != [] {
      var init, c := cards[..|cards| - 1], cards[|cards| - 1];
      assert forall d :: d in init ==> d in cards;
      TypesOccurrences(init, t);
      assert multiset(Types(cards)) == multiset(Types(init)) + multiset(c.types);
      DistinctAtMostOnce(c.types, t);
      assert t in c.types <==> multiset(c.types)[t] > 0;
      assert t in Types(cards) <==> t in multiset(Types(cards));
      assert t in Types(init) <==> t in multiset(Types(init));
    }
  }

  /** The set counts are keyed by the card ids' set prefixes. */
  lemma SetKeys(cards: seq<CardAnalysis>)
    ensures StatisticsOf(cards).bySet.Keys == set c | c in cards :: SetOf(c.tcgdexId)
  {
    OnesKeys(Sets(cards));
    TallyMapWeights(Ones(Sets(cards)));
    forall c | c in cards ensures SetOf(c.tcgdexId) in Sets(cards) {
      var i :| 0 <= i < |cards| && cards[i] == c;
      assert Sets(cards)[i] == SetOf(c.tcgdexId);
    }
  }
}
