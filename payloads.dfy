/**
 * The JSON documents the catalog service returns and the raw-data cache stores, as
 * far as the collection manager reads them. A key that is absent and a key holding
 * `null` are the same here (both read back as `None` through `dict.get`). In the source
 * they differ for `legal` and for `set`, where `.get` on a `null` raises; the model keeps
 * that difference for `legal` only.
 */
module Payloads {
  import opened Wrappers

  /** The `legal` member of a card document. */
  datatype Legal =
    | LegalAbsent
    | LegalObject(standard: Option<bool>, expanded: Option<bool>)
    /** `null`, a list, a string or a number: `.get` on it raises `AttributeError`. */
    | LegalNotObject(typeName: string)

  /** A card document (`GET /cards/{id}` or `raw_data/cards/<id>.json`). */
  datatype CardPayload = CardPayload(
    id: Option<string>,
    name: Option<string>,
    setName: Option<string>,          // `set.name`
    rarity: Option<string>,
    hp: Option<int>,
    stage: Option<string>,
    category: Option<string>,
    image: Option<string>,
    types: Option<seq<string>>,
    variants: Option<map<string, bool>>,
    legal: Legal,
    otherKeys: bool)                  // whether the object has keys not listed above
  {
    /** Python truthiness of the object: a dict is false exactly when it has no keys. */
    predicate NonEmpty()
    {
      id.Some? || name.Some? || setName.Some? || rarity.Some? || hp.Some? || stage.Some? ||
      category.Some? || image.Some? || types.Some? || variants.Some? || !legal.LegalAbsent? ||
      otherKeys
    }
  }

  /** What `json.load` returns for a card file or what the service answers. */
  datatype Json =
    | Object(card: CardPayload)
    /** Any other JSON value; `truthy` is its Python truthiness. */
    | NotObject(typeName: string, truthy: bool)
  {
    predicate Truthy()
    {
      match this
      case Object(c) => c.NonEmpty()
      case NotObject(_, t) => t
    }
  }

  /** A set document (`GET /sets/{id}`). */
  datatype SeriePayload = SeriePayload(id: Option<string>, name: Option<string>)

  datatype SetPayload = SetPayload(
    id: Option<string>,
    name: Option<string>,
    cardCountTotal: Option<int>,      // `cardCount.total`
    releaseDate: Option<string>,
    serie: Option<SeriePayload>)
}
