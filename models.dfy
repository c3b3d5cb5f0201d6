/**
 * The value models of the collection manager: the language and variant whitelists,
 * the variant flags of a card, cached card and set metadata, and their conversions
 * from service documents and database rows.
 */
module Models {
  import opened Wrappers
  import opened Strings
  import opened Payloads
  import Clock

  /** The eleven catalog languages. */
  const ValidLanguages: set<string> := {"de", "en", "fr", "es", "it", "pt", "ja", "ko", "zh-tw", "th", "id"}

  /** The four print variants. */
  const ValidVariants: set<string> := {"normal", "reverse", "holo", "firstEdition"}

  /** The lines after the offending value in the `ValueError` of `validate_language`. */
  const LanguageHint := "\nValid languages: de, en, es, fr, id, it, ja, ko, pt, th, zh-tw\nNote: Use 'de' for German (default)"

  /** `validate_language`: succeeds exactly for a catalog language. */
  function ValidateLanguage(language: string): (r: Result<()>)
    ensures r.Ok? <==> language in ValidLanguages
    ensures r.Err? ==> r.error == "Invalid language: " + language + LanguageHint
  {
    if language !in ValidLanguages then Err("Invalid language: " + language + LanguageHint)
    else Ok(())
  }

  /** `validate_variant`: succeeds exactly for one of the four variants. */
  function ValidateVariant(variant: string): (r: Result<()>)
    ensures r.Ok? <==> variant in ValidVariants
    ensures r.Err? ==> r.error == "Invalid variant: " + variant + "\nValid variants: firstEdition, holo, normal, reverse"
  {
    if variant !in ValidVariants then
      Err("Invalid variant: " + variant + "\nValid variants: firstEdition, holo, normal, reverse")
    else Ok(())
  }

  /** Which print variants the catalog lists for a card; every flag defaults to false. */
  datatype CardVariants = CardVariants(normal: bool, reverse: bool, holo: bool, firstEdition: bool)
  {
    /** The flag named `variant`; a name that is not a variant reads as false. */
    predicate IsValid(variant: string)
    {
      match variant
      case "normal" => normal
      case "reverse" => reverse
      case "holo" => holo
      case "firstEdition" => firstEdition
      case _ => false
    }

    /** `available_list`: the names of the set flags in sorted order. */
    function AvailableList(): (r: seq<string>)
      ensures forall v :: v in r <==> v in ValidVariants && IsValid(v)
      ensures forall i, j :: 0 <= i < j < |r| ==> Less(r[i], r[j])
    {
      assert forall v :: v in SortedVariants <==> v in ValidVariants;
      AvailableFrom(0)
    }

    /** The names of the set flags among `SortedVariants[k..]`, in order. */
    function AvailableFrom(k: nat): (r: seq<string>)
      requires k <= |SortedVariants|
      ensures forall v :: v in r <==> v in SortedVariants[k..] && IsValid(v)
      ensures forall i, j :: 0 <= i < j < |r| ==> Less(r[i], r[j])
      decreases |SortedVariants| - k
    {
      if k == |SortedVariants| then []
      else
        var rest := AvailableFrom(k + 1);
        assert SortedVariants[k..] == [SortedVariants[k]] + SortedVariants[k + 1..];
        if IsValid(SortedVariants[k]) then
          SortedVariantsAscend(k);
          [SortedVariants[k]] + rest
        else rest
    }

    /** `to_json`: one entry per variant. */
    function ToJson(): (m: map<string, bool>)
      ensures m.Keys == ValidVariants
      ensures forall v :: v in m ==> m[v] == IsValid(v)
    {
      map["normal" := normal, "reverse" := reverse, "holo" := holo, "firstEdition" := firstEdition]
    }
  }

  const NoVariants := CardVariants(false, false, false, false)

  /** The four variant names in code-point order. */
  const SortedVariants: seq<string> := ["firstEdition", "holo", "normal", "reverse"]

  /** Each variant name sorts before every later one. */
  lemma SortedVariantsAscend(k: nat)
    requires k < |SortedVariants|
    ensures forall v :: v in SortedVariants[k + 1..] ==> Less(SortedVariants[k], v)
  {
    assert "firstEdition"[0] == 'f' && "holo"[0] == 'h' && "normal"[0] == 'n' && "reverse"[0] == 'r';
    assert SortedVariants[1..] == ["holo", "normal", "reverse"];
    assert SortedVariants[2..] == ["normal", "reverse"];
    assert SortedVariants[3..] == ["reverse"];
    assert SortedVariants[4..] == [];
  }

  /** `CardVariants.from_api_response`: each flag read from its key, false when the key is missing. */
  function VariantsFromApi(data: map<string, bool>): (v: CardVariants)
    ensures forall name :: name in ValidVariants ==>
      (v.IsValid(name) <==> name in data && data[name])
  {
    CardVariants(
      "normal" in data && data["normal"],
      "reverse" in data && data["reverse"],
      "holo" in data && data["holo"],
      "firstEdition" in data && data["firstEdition"])
  }

  lemma VariantsFromApiOfToJson(v: CardVariants)
    ensures VariantsFromApi(v.ToJson()) == v
  {
  }

  /**
   * `CardVariants(**data)`: the keyword constructor, which refuses any key that is not
   * one of the four fields.
   */
  function VariantsFromKwargs(data: map<string, bool>): (r: Result<CardVariants>)
    ensures r.Ok? <==> data.Keys <= ValidVariants
    ensures r.Ok? ==> r.value == VariantsFromApi(data)
  {
    if data.Keys <= ValidVariants then Ok(VariantsFromApi(data))
    else Err("CardVariants.__init__() got an unexpected keyword argument")
  }

  /** A card image URL already names a picture file. */
  predicate HasPictureSuffix(url: string)
  {
    EndsWith(url, ".png") || EndsWith(url, ".jpg") || EndsWith(url, ".webp")
  }

  /**
   * The image rule of `CardInfo.from_api_response`: a non-empty base URL without a
   * picture suffix gets `/high.png`; anything else is kept.
   */
  function ImageUrl(image: Option<string>): (r: Option<string>)
    ensures r.None? <==> image.None?
    ensures image.Some? && image.value != [] ==> HasPictureSuffix(r.value)
    ensures image.Some? && (image.value == [] || HasPictureSuffix(image.value)) ==> r == image
    ensures image.Some? && image.value != [] && !HasPictureSuffix(image.value) ==>
      r.value == image.value + "/high.png"
  {
    match image
    case None => None
    case Some(url) =>
      if url != [] && !HasPictureSuffix(url) then
        EndsWithConcat(url + "/high", ".png");
        Some(url + "/high.png")
      else image
  }

  lemma ImageUrlIdempotent(image: Option<string>)
    ensures ImageUrl(ImageUrl(image)) == ImageUrl(image)
  {
  }

  /** Cached card metadata. */
  datatype CardInfo = CardInfo(
    tcgdexId: string,
    name: string,
    setName: Option<string>,
    rarity: Option<string>,
    types: seq<string>,
    hp: Option<int>,
    availableVariants: CardVariants,
    imageUrl: Option<string>,
    cachedAt: Clock.DateTime)

  /**
   * `CardInfo.from_api_response` for a document: `id` and `name` are required, missing
   * types become the empty list, missing variants all false, and the image URL follows
   * `ImageUrl`. `now` is the caching instant.
   */
  function CardInfoFromApi(data: CardPayload, now: Clock.DateTime): (r: Result<CardInfo>)
    ensures r.Ok? <==> data.id.Some? && data.name.Some?
    ensures r.Ok? ==> r.value.tcgdexId == data.id.value && r.value.name == data.name.value
    ensures r.Ok? ==> r.value.setName == data.setName && r.value.rarity == data.rarity && r.value.hp == data.hp
    ensures r.Ok? ==> r.value.types == (if data.types.Some? then data.types.value else [])
    ensures r.Ok? && data.variants.None? ==> r.value.availableVariants == NoVariants
    ensures r.Ok? ==> r.value.imageUrl == ImageUrl(data.image) && r.value.cachedAt == now
    ensures data.id.None? ==> r == Err("'id'")
  {
    if data.id.None? then Err("'id'")
    else if data.name.None? then Err("'name'")
    else
      var variants := if data.variants.Some? then VariantsFromApi(data.variants.value) else NoVariants;
      Ok(CardInfo(data.id.value, data.name.value, data.setName, data.rarity,
                  data.types.GetOr([]), data.hp, variants, ImageUrl(data.image), now))
  }

  /**
   * A `card_cache` row. The two JSON text columns are held decoded: `types` is the list
   * `json.dumps` wrote (or `None` for SQL NULL), `variants` the object.
   */
  datatype CardCacheRow = CardCacheRow(
    tcgdexId: string,
    name: string,
    setName: Option<string>,
    rarity: Option<string>,
    types: Option<seq<string>>,
    hp: Option<int>,
    variants: map<string, bool>,
    imageUrl: Option<string>,
    cachedAt: string)

  /** The row `cache_card` writes for a card. */
  function CardInfoToRow(c: CardInfo): (row: CardCacheRow)
    requires c.cachedAt.Valid()
    ensures row.tcgdexId == c.tcgdexId && row.types == Some(c.types)
    ensures row.variants.Keys == ValidVariants
  {
    CardCacheRow(c.tcgdexId, c.name, c.setName, c.rarity, Some(c.types), c.hp,
                 c.availableVariants.ToJson(), c.imageUrl, Clock.Iso(c.cachedAt))
  }

  /** `CardInfo.from_db_row`: fails on a variants object with a foreign key or an unreadable timestamp. */
  function CardInfoFromRow(row: CardCacheRow): (r: Result<CardInfo>)
    ensures r.Ok? <==> row.variants.Keys <= ValidVariants && Clock.FromIso(row.cachedAt).Ok?
    ensures r.Ok? ==> r.value.tcgdexId == row.tcgdexId && r.value.name == row.name
    ensures r.Ok? ==> r.value.types == (if row.types.Some? then row.types.value else [])
  {
    match VariantsFromKwargs(row.variants)
    case Err(e) => Err(e)
    case Ok(variants) =>
      match Clock.FromIso(row.cachedAt)
      case Err(e) => Err(e)
      case Ok(at) =>
        Ok(CardInfo(row.tcgdexId, row.name, row.setName, row.rarity, row.types.GetOr([]),
                    row.hp, variants, row.imageUrl, at))
  }

  /** Caching a card and reading it back gives the same card. */
  lemma CardInfoRowRoundTrip(c: CardInfo)
    requires c.cachedAt.Valid()
    ensures CardInfoFromRow(CardInfoToRow(c)) == Ok(c)
  {
    Clock.IsoRoundTrip(c.cachedAt);
    VariantsFromApiOfToJson(c.availableVariants);
  }

  /** Cached set metadata. */
  datatype SetInfo = SetInfo(
    setId: string,
    name: string,
    cardCount: int,
    releaseDate: Option<string>,
    serieId: Option<string>,
    serieName: Option<string>,
    cachedAt: Clock.DateTime)

  /**
   * `SetInfo.from_api_response` for a document: `id` and `name` are required, a missing
   * card count is 0, and the series fields are read only when `serie` is present.
   */
  function SetInfoFromApi(data: SetPayload, now: Clock.DateTime): (r: Result<SetInfo>)
    ensures r.Ok? <==> data.id.Some? && data.name.Some?
    ensures r.Ok? ==> r.value.setId == data.id.value && r.value.name == data.name.value
    ensures r.Ok? ==> r.value.cardCount == (if data.cardCountTotal.Some? then data.cardCountTotal.value else 0)
    ensures r.Ok? && data.serie.None? ==> r.value.serieId.None? && r.value.serieName.None?
    ensures r.Ok? && data.serie.Some? ==>
      r.value.serieId == data.serie.value.id && r.value.serieName == data.serie.value.name
    ensures r.Ok? ==> r.value.releaseDate == data.releaseDate && r.value.cachedAt == now
  {
    if data.id.None? then Err("'id'")
    else if data.name.None? then Err("'name'")
    else
      var serieId := if data.serie.Some? then data.serie.value.id else None;
      var serieName := if data.serie.Some? then data.serie.value.name else None;
      Ok(SetInfo(data.id.value, data.name.value, data.cardCountTotal.GetOr(0),
                 data.releaseDate, serieId, serieName, now))
  }

  /** A `set_cache` row; `cachedAt` is the `isoformat()` text. */
  datatype SetCacheRow = SetCacheRow(
    setId: string,
    name: string,
    cardCount: int,
    releaseDate: Option<string>,
    serieId: Option<string>,
    serieName: Option<string>,
    cachedAt: string)

  /** The row `cache_sets` writes for a set. */
  function SetInfoToRow(s: SetInfo): (row: SetCacheRow)
    requires s.cachedAt.Valid()
    ensures row.setId == s.setId && row.name == s.name && row.cachedAt == Clock.Iso(s.cachedAt)
  {
    SetCacheRow(s.setId, s.name, s.cardCount, s.releaseDate, s.serieId, s.serieName, Clock.Iso(s.cachedAt))
  }

  /** `SetInfo.from_db_row`: fails only on an unreadable timestamp. */
  function SetInfoFromRow(row: SetCacheRow): (r: Result<SetInfo>)
    ensures r.Ok? <==> Clock.FromIso(row.cachedAt).Ok?
    ensures r.Ok? ==> r.value.setId == row.setId && r.value.name == row.name && r.value.cardCount == row.cardCount
  {
    match Clock.FromIso(row.cachedAt)
    case Err(e) => Err(e)
    case Ok(at) => Ok(SetInfo(row.setId, row.name, row.cardCount, row.releaseDate, row.serieId, row.serieName, at))
  }

  lemma SetInfoRowRoundTrip(s: SetInfo)
    requires s.cachedAt.Valid()
    ensures SetInfoFromRow(SetInfoToRow(s)) == Ok(s)
  {
    Clock.IsoRoundTrip(s.cachedAt);
  }

  /** A row of the legacy `cards` table: one owned variant of a card in one language. */
  datatype OwnedCard = OwnedCard(
    id: int,
    setId: string,
    cardNumber: string,
    tcgdexId: string,
    variant: string,
    language: string,
    quantity: int,
    addedAt: Clock.DateTime,
    updatedAt: Clock.DateTime)
}
