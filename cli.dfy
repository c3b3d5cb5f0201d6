/**
 * The command line's own logic (`cli.py`): the `lang:set:card[:variant]` parsers, the
 * variant check before an add, the `list` filter with its grouping, totals and name
 * truncation, and the error summary of `sync`. Printing is replaced by the values
 * that would be printed.
 */
module Cli {
  import opened Wrappers
  import opened Strings
  import opened Sorting
  import opened Models
  import opened Tally

  // ---------------------------------------------------------------- parsing card inputs

  /** `(language, set_id, card_number, variant)` as `parse_card_input` returns it. */
  datatype CardInput = CardInput(language: string, setId: string, cardNumber: string, variant: string)

  /** The lines of the format error after the offending input. */
  const FormatHelp: string :=
    "\nExpected: <lang>:<set_id>:<card_number>[:<variant>]\nExamples:\n  de:me01:136:normal\n  de:me01:136          (defaults to normal variant)\n  en:swsh3:136:holo"

  /** `x.strip().lower()`. */
  function Fold(x: string): (r: string)
    ensures NoUpper(r)
  {
    LowerNoUpper(Strip(x));
    Lower(Strip(x))
  }

  /**
   * `parse_card_input` as written: three or four `:`-separated parts, the variant
   * defaulting to `normal`; language, set and variant are stripped and lower-cased, the
   * card number only stripped; then the language and the variant are validated.
   */
  function ParseCardInputAsWritten(s: string): (r: Result<CardInput>)
    ensures |Split(s, ':')| != 3 && |Split(s, ':')| != 4 ==> r == Err("Invalid format: " + s + FormatHelp)
    ensures r.Ok? ==> r.value.language in ValidLanguages && r.value.variant in ValidVariants
    ensures r.Ok? ==> NoUpper(r.value.variant)
  {
    var parts := Split(s, ':');
    if |parts| != 3 && |parts| != 4 then Err("Invalid format: " + s + FormatHelp)
    else
      var c := CardInput(Fold(parts[0]), Fold(parts[1]), Strip(parts[2]),
                         Fold(if |parts| == 3 then "normal" else parts[3]));
      match ValidateLanguage(c.language)
      case Err(e) => Err(e)
      case Ok(_) =>
        match ValidateVariant(c.variant)
        case Err(e) => Err(e)
        case Ok(_) => Ok(c)
  }

  /** `firstEdition` is the one variant name with a capital letter. */
  lemma FirstEditionHasCapital()
    ensures !NoUpper("firstEdition")
    ensures forall v :: v in ValidVariants && v != "firstEdition" ==> NoUpper(v)
  {
    assert "firstEdition"[5] == 'E';
  }

  /**
   * As written, no input is ever parsed to the `firstEdition` variant: the variant is
   * lower-cased before it is checked against a whitelist that spells it with a capital,
   * so `de:me01:136:firstEdition` is refused as `firstedition`.
   */
  lemma AsWrittenNeverFirstEdition(s: string)
    ensures ParseCardInputAsWritten(s).Ok? ==> ParseCardInputAsWritten(s).value.variant != "firstEdition"
  {
    FirstEditionHasCapital();
  }

  /** The variant name whose lower-case spelling is `v`. */
  function CanonicalVariant(v: string): (r: Option<string>)
    ensures forall w :: w in ValidVariants ==> (Lower(w) == v <==> r == Some(w))
    ensures r.Some? ==> r.value in ValidVariants
  {
    FirstEditionHasCapital();
    forall w | w in ValidVariants && w != "firstEdition" ensures Lower(w) == w {
      LowerNoUpper(w);
    }
    assert Lower("firstEdition") == "firstedition";
    if v == "firstedition" then Some("firstEdition")
    else if v == "normal" || v == "reverse" || v == "holo" then Some(v)
    else None
  }

  /** The variant check of the corrected parsers, on a lower-cased name: any capitalisation of a variant name is accepted. */
  function CheckVariant(v: string): (r: Result<string>)
    requires NoUpper(v)
    ensures r.Ok? <==> exists w :: w in ValidVariants && Lower(w) == v
    ensures r.Ok? ==> r.value in ValidVariants && Lower(r.value) == v
    ensures r.Err? ==> ValidateVariant(v).Err? && r.error == ValidateVariant(v).error
  {
    match CanonicalVariant(v)
    case Some(w) => Ok(w)
    case None =>
      assert v !in ValidVariants by {
        FirstEditionHasCapital();
        if v in ValidVariants {
          LowerNoUpper(v);
        }
      }
      Err(ValidateVariant(v).error)
  }

  /** The default variant passes the check unchanged. */
  lemma NormalChecks()
    ensures NoUpper("normal") && CheckVariant("normal") == Ok("normal")
  {
    LowerNoUpper("normal");
  }

  /**
   * `parse_card_input` as evidently intended: as written, except that the variant is
   * matched against the whitelist without regard to case and returned in its canonical
   * spelling.
   */
  function ParseCardInput(s: string): (r: Result<CardInput>)
    ensures |Split(s, ':')| != 3 && |Split(s, ':')| != 4 ==> r == Err("Invalid format: " + s + FormatHelp)
    ensures r.Ok? <==>
              (|Split(s, ':')| == 3 || |Split(s, ':')| == 4) && Fold(Split(s, ':')[0]) in ValidLanguages &&
              (|Split(s, ':')| == 4 ==> CheckVariant(Fold(Split(s, ':')[3])).Ok?)
    ensures r.Ok? ==> r.value.language in ValidLanguages && r.value.variant in ValidVariants
    ensures r.Ok? && |Split(s, ':')| == 3 ==> r.value.variant == "normal"
  {
    var parts := Split(s, ':');
    if |parts| != 3 && |parts| != 4 then Err("Invalid format: " + s + FormatHelp)
    else
      var language := Fold(parts[0]);
      match ValidateLanguage(language)
      case Err(e) => Err(e)
      case Ok(_) =>
        var variant := if |parts| == 3 then "normal" else Fold(parts[3]);
        NormalChecks();
        match CheckVariant(variant)
        case Err(e) => Err(e)
        case Ok(v) => Ok(CardInput(language, Fold(parts[1]), Strip(parts[2]), v))
  }

  /** A field as the parsers leave it: no separator and no outer whitespace. */
  predicate Field(x: string)
  {
    ':' !in x && Trimmed(x)
  }

  /** An input in the form the parser returns it. */
  predicate Canonical(c: CardInput)
  {
    c.language in ValidLanguages && c.variant in ValidVariants &&
    Field(c.setId) && NoUpper(c.setId) && Field(c.cardNumber)
  }

  /** `f"{language}:{set_id}:{card_number}:{variant}"`. */
  function Format(c: CardInput): string
  {
    Join([c.language, c.setId, c.cardNumber, c.variant], ':')
  }

  lemma LanguageIsField(l: string)
    requires l in ValidLanguages
    ensures Field(l) && NoUpper(l)
  {
  }

  lemma VariantIsField(v: string)
    requires v in ValidVariants
    ensures Field(v)
  {
  }

  lemma FoldField(x: string)
    requires Field(x) && NoUpper(x)
    ensures Fold(x) == x
  {
    StripTrimmed(x);
    LowerNoUpper(x);
  }

  /** The four fields of a canonical input are what splitting its formatted form gives back. */
  lemma SplitFormat(c: CardInput)
    requires Canonical(c)
    ensures Split(Format(c), ':') == [c.language, c.setId, c.cardNumber, c.variant]
  {
    LanguageIsField(c.language);
    VariantIsField(c.variant);
    SplitJoin([c.language, c.setId, c.cardNumber, c.variant], ':');
  }

  /** The folded fields of a canonical input: the language and set unchanged, the variant lower-cased. */
  lemma FoldFields(c: CardInput)
    requires Canonical(c)
    ensures Fold(c.language) == c.language && Fold(c.setId) == c.setId && Strip(c.cardNumber) == c.cardNumber
    ensures Fold(c.variant) == Lower(c.variant)
  {
    LanguageIsField(c.language);
    VariantIsField(c.variant);
    FoldField(c.language);
    FoldField(c.setId);
    StripTrimmed(c.cardNumber);
    StripTrimmed(c.variant);
  }

  /** Every variant name, lower-cased, passes the check and comes back in its own spelling. */
  lemma CheckLowered(v: string)
    requires v in ValidVariants
    ensures NoUpper(Lower(v)) && CheckVariant(Lower(v)) == Ok(v)
  {
    LowerNoUpper(v);
    assert CanonicalVariant(Lower(v)) == Some(v);
  }

  /** A four-part input with a catalog language and an accepted variant parses to its folded fields. */
  lemma ParseFourParts(s: string, variant: string)
    requires |Split(s, ':')| == 4 && Fold(Split(s, ':')[0]) in ValidLanguages
    requires CheckVariant(Fold(Split(s, ':')[3])) == Ok(variant)
    ensures var parts := Split(s, ':');
            ParseCardInput(s) == Ok(CardInput(Fold(parts[0]), Fold(parts[1]), Strip(parts[2]), variant))
  {
  }

  /** A four-part input whose folded variant is not a variant name is refused, as written. */
  lemma AsWrittenRefusesFourParts(s: string)
    requires |Split(s, ':')| == 4 && Fold(Split(s, ':')[3]) !in ValidVariants
    ensures ParseCardInputAsWritten(s).Err?
  {
  }

  /** Formatting an input and parsing it back gives the input, for all four variants. */
  lemma ParseFormat(c: CardInput)
    requires Canonical(c)
    ensures ParseCardInput(Format(c)) == Ok(c)
  {
    SplitFormat(c);
    FoldFields(c);
    CheckLowered(c.variant);
    ParseFourParts(Format(c), c.variant);
  }

  /** `"firstEdition".lower()` is not a variant name. */
  lemma FirstEditionLowered()
    ensures Lower("firstEdition") !in ValidVariants
  {
    FirstEditionHasCapital();
    var folded := Lower("firstEdition");
    LowerNoUpper("firstEdition");
    assert |folded| == 12 && folded != "firstEdition";
    assert folded != "normal" && folded != "reverse" && folded != "holo";
  }

  /** As written, the same round trip fails for the `firstEdition` variant. */
  lemma AsWrittenFormatFails(c: CardInput)
    requires Canonical(c) && c.variant == "firstEdition"
    ensures ParseCardInputAsWritten(Format(c)).Err?
  {
    SplitFormat(c);
    FoldFields(c);
    FirstEditionLowered();
    AsWrittenRefusesFourParts(Format(c));
  }

  // ---------------------------------------------------------------- the flexible parser

  /** What `parse_card_input_flexible` returns; the variant may be `None`. */
  datatype FlexibleInput = FlexibleInput(language: string, setId: string, cardNumber: string, variant: Option<string>)

  const FlexibleHelp: string :=
    "\nExpected: <lang>:<set_id>:<card_number>[:<variant>] or <set_id>:<card_number>\nExamples:\n  de:me01:136\n  me01:136 (uses German)"

  /** The fields by number of parts: two parts are a set and a number in German, and without a variant part it is `normal` or `None`. */
  function RawFields(parts: seq<string>, requireVariant: bool): (f: (string, string, string, Option<string>))
    requires 2 <= |parts| <= 4
    ensures f.3.None? <==> !requireVariant && |parts| < 4
    ensures |parts| < 4 && requireVariant ==> f.3 == Some("normal")
    ensures |parts| == 4 ==> f.3 == Some(parts[3])
    ensures |parts| == 2 ==> f.0 == "de" && f.1 == parts[0] && f.2 == parts[1]
    ensures |parts| >= 3 ==> f.0 == parts[0] && f.1 == parts[1] && f.2 == parts[2]
  {
    var default := if requireVariant then Some("normal") else None;
    if |parts| == 2 then ("de", parts[0], parts[1], default)
    else if |parts| == 3 then (parts[0], parts[1], parts[2], default)
    else (parts[0], parts[1], parts[2], Some(parts[3]))
  }

  /**
   * `parse_card_input_flexible` as written: two to four parts; only a variant that is
   * not empty (`if variant:`) is normalised and validated, before the language is.
   */
  function ParseCardInputFlexibleAsWritten(s: string, requireVariant: bool): (r: Result<FlexibleInput>)
    ensures |Split(s, ':')| < 2 || |Split(s, ':')| > 4 ==> r == Err("Invalid format: " + s + FlexibleHelp)
    ensures r.Ok? ==> r.value.language in ValidLanguages
  {
    var parts := Split(s, ':');
    if |parts| < 2 || |parts| > 4 then Err("Invalid format: " + s + FlexibleHelp)
    else
      var (l, setId, number, raw) := RawFields(parts, requireVariant);
      var language := Fold(l);
      var variant := if raw.Some? && raw.value != "" then Some(Fold(raw.value)) else raw;
      if raw.Some? && raw.value != "" && ValidateVariant(variant.value).Err? then Err(ValidateVariant(variant.value).error)
      else
        match ValidateLanguage(language)
        case Err(e) => Err(e)
        case Ok(_) => Ok(FlexibleInput(language, Fold(setId), Strip(number), variant))
  }

  /** The empty string is no variant name. */
  lemma EmptyIsNoVariant()
    ensures "" !in ValidVariants
  {
  }

  /** The default language of a two-part input survives folding. */
  lemma GermanFolds()
    ensures Fold("de") == "de"
  {
    assert Field("de") && NoUpper("de");
    FoldField("de");
  }

  /** A four-part input with an empty variant part and a catalog language, as written. */
  lemma FlexibleAsWrittenEmptyPart(s: string, l: string, setId: string, number: string, requireVariant: bool)
    requires Split(s, ':') == [l, setId, number, ""] && Fold(l) in ValidLanguages
    ensures ParseCardInputFlexibleAsWritten(s, requireVariant) == Ok(FlexibleInput(Fold(l), Fold(setId), Strip(number), Some("")))
  {
    var parts := Split(s, ':');
    assert |parts| == 4 && parts[3] == "";
    var f := RawFields(parts, requireVariant);
    assert f == (l, setId, number, Some(""));
    assert ValidateLanguage(Fold(l)).Ok?;
  }

  /**
   * As written, an empty fourth part slips through: `de:me01:136:` parses with the
   * variant `""`, which is no variant at all.
   */
  lemma FlexibleAsWrittenEmptyVariant(l: string, setId: string, number: string, requireVariant: bool)
    requires ':' !in l && ':' !in setId && ':' !in number && Fold(l) in ValidLanguages
    ensures ParseCardInputFlexibleAsWritten(Join([l, setId, number, ""], ':'), requireVariant) ==
            Ok(FlexibleInput(Fold(l), Fold(setId), Strip(number), Some("")))
  {
    SplitJoinFour(l, setId, number, "", ':');
    FlexibleAsWrittenEmptyPart(Join([l, setId, number, ""], ':'), l, setId, number, requireVariant);
  }

  /** The variant check of the corrected flexible parser: a variant that is there is always checked. */
  function CheckPresent(raw: Option<string>): (r: Result<Option<string>>)
    ensures r.Ok? ==> (r.value.None? <==> raw.None?)
    ensures r.Ok? && r.value.Some? ==> r.value.value in ValidVariants
    ensures raw.Some? ==> (r.Ok? <==> CheckVariant(Fold(raw.value)).Ok?)
    ensures raw == Some("normal") ==> r == Ok(Some("normal"))
  {
    match raw
    case None => Ok(None)
    case Some(v) =>
      NormalChecks();
      assert v == "normal" ==> Fold(v) == "normal" by {
        if v == "normal" {
          assert Field(v);
          FoldField(v);
        }
      }
      match CheckVariant(Fold(v))
      case Err(e) => Err(e)
      case Ok(w) => Ok(Some(w))
  }

  /**
   * `parse_card_input_flexible` as evidently intended: a variant part, when there is
   * one, is always validated (an empty one is refused like a blank one), and it is
   * matched without regard to case as in `ParseCardInput`.
   */
  function ParseCardInputFlexible(s: string, requireVariant: bool): (r: Result<FlexibleInput>)
    ensures |Split(s, ':')| < 2 || |Split(s, ':')| > 4 ==> r == Err("Invalid format: " + s + FlexibleHelp)
    ensures r.Ok? ==> r.value.language in ValidLanguages
    ensures r.Ok? && |Split(s, ':')| == 2 ==> r.value.language == "de"
  {
    var parts := Split(s, ':');
    if |parts| < 2 || |parts| > 4 then Err("Invalid format: " + s + FlexibleHelp)
    else
      var f := RawFields(parts, requireVariant);
      match CheckPresent(f.3)
      case Err(e) => Err(e)
      case Ok(variant) =>
        match ValidateLanguage(Fold(f.0))
        case Err(e) => Err(e)
        case Ok(_) =>
          GermanFolds();
          Ok(FlexibleInput(Fold(f.0), Fold(f.1), Strip(f.2), variant))
  }

  /**
   * Every variant the corrected flexible parser returns is a variant name, and it
   * returns none exactly when none was asked for and none was given.
   */
  lemma FlexibleVariant(s: string, requireVariant: bool)
    requires ParseCardInputFlexible(s, requireVariant).Ok?
    ensures var v := ParseCardInputFlexible(s, requireVariant).value.variant;
            (v.Some? ==> v.value in ValidVariants) &&
            (v.None? <==> !requireVariant && |Split(s, ':')| < 4)
  {
    var parts := Split(s, ':');
    var f := RawFields(parts, requireVariant);
    assert CheckPresent(f.3).Ok?;
  }

  /** The flexible parser, asked for a variant, accepts what the strict parser accepts, with the same fields. */
  lemma FlexibleExtendsStrict(s: string)
    requires ParseCardInput(s).Ok?
    ensures var c := ParseCardInput(s).value;
            ParseCardInputFlexible(s, true) == Ok(FlexibleInput(c.language, c.setId, c.cardNumber, Some(c.variant)))
  {
    NormalChecks();
  }

  /** On three or four parts the flexible parser, asked for a variant, refuses what the strict parser refuses. */
  lemma StrictCoversFlexible(s: string)
    requires |Split(s, ':')| >= 3 && ParseCardInputFlexible(s, true).Ok?
    ensures ParseCardInput(s).Ok?
  {
    NormalChecks();
  }

  /** `set:card` means `de:set:card`. */
  lemma TwoPartsAreGerman(setId: string, number: string, requireVariant: bool)
    requires ':' !in setId && ':' !in number
    ensures ParseCardInputFlexible(Join([setId, number], ':'), requireVariant) ==
            ParseCardInputFlexible(Join(["de", setId, number], ':'), requireVariant)
  {
    SplitJoin([setId, number], ':');
    SplitJoin(["de", setId, number], ':');
  }

  // ---------------------------------------------------------------- adding a variant

  /** What `validate_variant_or_prompt` decides: go ahead, go ahead with a warning, or stop with an error. */
  datatype VariantDecision = Listed | Forced | Refused

  /** `validate_variant_or_prompt`: an unlisted variant stops the add unless `--force` is given. */
  function ValidateVariantOrPrompt(available: CardVariants, variant: string, force: bool): (d: VariantDecision)
    ensures d.Listed? <==> available.IsValid(variant)
    ensures d.Forced? <==> force && !available.IsValid(variant)
  {
    if !force && !available.IsValid(variant) then Refused
    else if force && !available.IsValid(variant) then Forced
    else Listed
  }

  /**
   * For a variant name, the add is refused exactly when `--force` is off and the
   * variant is missing from the list the error message shows.
   */
  lemma RefusedIffUnlisted(available: CardVariants, variant: string, force: bool)
    requires variant in ValidVariants
    ensures ValidateVariantOrPrompt(available, variant, force).Refused? <==>
            !force && variant !in available.AvailableList()
  {
  }

  // ---------------------------------------------------------------- listing the collection

  /** What `list` filters on: at most one of a set and a language. */
  datatype ListFilter = ListFilter(setId: Option<string>, language: Option<string>)

  /** The `list` argument, lower-cased, is a language if it is a catalog language and a set otherwise. */
  function ListFilterOf(arg: Option<string>): (f: ListFilter)
    ensures f.setId.None? || f.language.None?
    ensures arg.None? || arg.value == "" ==> f == ListFilter(None, None)
    ensures arg.Some? && arg.value != "" ==>
              (f.language.Some? <==> Lower(arg.value) in ValidLanguages) &&
              (f.setId.Some? || f.language.Some?) &&
              (f.setId.Some? ==> f.setId.value == Lower(arg.value)) &&
              (f.language.Some? ==> f.language.value == Lower(arg.value))
  {
    if arg.None? || arg.value == "" then ListFilter(None, None)
    else
      var a := Lower(arg.value);
      if a in ValidLanguages then ListFilter(None, Some(a)) else ListFilter(Some(a), None)
  }

  /** The message of an empty listing. */
  function NothingFoundMessage(f: ListFilter): string
  {
    if f.setId.Some? then "No cards found in set: " + f.setId.value
    else if f.language.Some? then "No cards found for language: " + f.language.value
    else "Your collection is empty."
  }

  /** A row of the v2 listing query: one owned variant with its card's display data. */
  datatype ListedRow = ListedRow(tcgdexId: string, language: string, variant: string, quantity: int,
                                 displayName: string, rarity: Option<string>, setId: string, cardNumber: string)

  /** One printed line: a card in one language with its variants and their quantities. */
  datatype ListLine = ListLine(setId: string, cardNumber: string, language: string, name: string,
                               quantity: int, rarity: string, variants: seq<(string, int)>)

  datatype Listing =
    | NothingFound(message: string)
    | Lines(lines: seq<ListLine>, unique: int, total: int)

  function CardLangOf(r: ListedRow): (string, string)
  {
    (r.tcgdexId, r.language)
  }

  function CardLangs(rows: seq<ListedRow>): set<(string, string)>
  {
    set r | r in rows :: CardLangOf(r)
  }

  /** The rows of one card in one language, in query order. */
  function RowsOf(rows: seq<ListedRow>, k: (string, string)): seq<ListedRow>
  {
    if rows == [] then []
    else
      var last := rows[|rows| - 1];
      RowsOf(rows[..|rows| - 1], k) + (if CardLangOf(last) == k then [last] else [])
  }

  /** A card's rows in one language are exactly the rows with that card and language. */
  lemma {:induction false} RowsOfMembers(rows: seq<ListedRow>, k: (string, string))
    ensures forall r :: r in RowsOf(rows, k) <==> r in rows && CardLangOf(r) == k
  {
    if rows != [] {
      var last := rows[|rows| - 1];
      assert rows == rows[..|rows| - 1] + [last];
      RowsOfMembers(rows[..|rows| - 1], k);
    }
  }

  /** The pairs in the order they first occur: the insertion order of the grouping dictionary. */
  function FirstSeen(rows: seq<ListedRow>): (ks: seq<(string, string)>)
    ensures Distinct(ks)
    ensures (set k | k in ks) == CardLangs(rows)
  {
    if rows == [] then []
    else
      var init := rows[..|rows| - 1];
      var ks := FirstSeen(init);
      var k := CardLangOf(rows[|rows| - 1]);
      assert CardLangs(rows) == CardLangs(init) + {k} by {
        assert rows == init + [rows[|rows| - 1]];
      }
      if k in ks then ks else ks + [k]
  }

  /** `name[:21] + "..."` for a name longer than 24 characters. */
  function Truncate(name: string): (r: string)
    ensures |r| <= 24
    ensures |name| <= 24 ==> r == name
    ensures |name| > 24 ==> |r| == 24 && r[..21] == name[..21] && r[21..] == "..."
  {
    if |name| > 24 then name[..21] + "..." else name
  }

  /** Truncating twice is truncating once. */
  lemma TruncateIdempotent(name: string)
    ensures Truncate(Truncate(name)) == Truncate(name)
  {
  }

  /** The `variant(quantity)` entries of a line. */
  function VariantCounts(g: seq<ListedRow>): (vs: seq<(string, int)>)
    ensures |vs| == |g|
    ensures forall i :: 0 <= i < |g| ==> vs[i] == (g[i].variant, g[i].quantity)
  {
    seq(|g|, i requires 0 <= i < |g| => (g[i].variant, g[i].quantity))
  }

  function VariantKey(r: ListedRow): seq<string>
  {
    [r.variant]
  }

  function CardLangKey(k: (string, string)): seq<string>
  {
    [k.0, k.1]
  }

  /** The line of one card in one language: the first row's data, the variants sorted by name. */
  function LineOf(k: (string, string), g: seq<ListedRow>): ListLine
    requires g != []
  {
    var variants := VariantCounts(SortBy(g, VariantKey));
    ListLine(g[0].setId, g[0].cardNumber, k.1, Truncate(g[0].displayName), TotalWeight(variants),
             g[0].rarity.GetOr(""), variants)
  }

  function LinesTotal(lines: seq<ListLine>): int
  {
    if lines == [] then 0 else LinesTotal(lines[..|lines| - 1]) + lines[|lines| - 1].quantity
  }

  /** A key is listed exactly when some row has it, and then it has rows. */
  lemma SortedKey(rows: seq<ListedRow>, k: (string, string))
    ensures k in SortBy(FirstSeen(rows), CardLangKey) <==> k in CardLangs(rows)
    ensures k in CardLangs(rows) ==> RowsOf(rows, k) != []
  {
    SortedMembers(FirstSeen(rows), CardLangKey, k);
    assert k in FirstSeen(rows) <==> k in (set k | k in FirstSeen(rows));
    if k in CardLangs(rows) {
      var r :| r in rows && CardLangOf(r) == k;
      RowsOfMembers(rows, k);
      assert r in RowsOf(rows, k);
    }
  }

  /** The keys of the listing in printing order. */
  function SortedKeys(rows: seq<ListedRow>): (keys: seq<(string, string)>)
    ensures forall k :: k in keys ==> RowsOf(rows, k) != []
    ensures forall k :: k in keys <==> k in CardLangs(rows)
  {
    var keys := SortBy(FirstSeen(rows), CardLangKey);
    forall k ensures k in keys <==> k in CardLangs(rows) {
      SortedKey(rows, k);
    }
    forall k | k in keys ensures RowsOf(rows, k) != [] {
      SortedKey(rows, k);
    }
    keys
  }

  /** What `list` prints, given the rows of the query. */
  function ListingOf(f: ListFilter, rows: seq<ListedRow>): Listing
  {
    if rows == [] then NothingFound(NothingFoundMessage(f))
    else
      var lines := LinesOf(rows);
      Lines(lines, |lines|, LinesTotal(lines))
  }

  /** One line per key, in key order. */
  function LinesOf(rows: seq<ListedRow>): (lines: seq<ListLine>)
    ensures |lines| == |SortedKeys(rows)|
    ensures forall j :: 0 <= j < |lines| ==> lines[j] == LineOf(SortedKeys(rows)[j], RowsOf(rows, SortedKeys(rows)[j]))
  {
    var keys := SortedKeys(rows);
    seq(|keys|, j requires 0 <= j < |keys| => LineOf(keys[j], RowsOf(rows, keys[j])))
  }

  /** What the grouping loop knows after the rows `seen`. */
  predicate Grouped(seen: seq<ListedRow>, groups: map<(string, string), seq<ListedRow>>, order: seq<(string, string)>)
  {
    && order == FirstSeen(seen)
    && groups.Keys == CardLangs(seen)
    && forall k :: k in groups ==> groups[k] == RowsOf(seen, k)
  }

  /** One more row: its key joins the order unless it was seen. */
  lemma FirstSeenSnoc(seen: seq<ListedRow>, row: ListedRow)
    ensures FirstSeen(seen + [row]) ==
            if CardLangOf(row) in FirstSeen(seen) then FirstSeen(seen) else FirstSeen(seen) + [CardLangOf(row)]
  {
    assert (seen + [row])[..|seen|] == seen;
  }

  /** One more row: its key joins the keys. */
  lemma CardLangsSnoc(seen: seq<ListedRow>, row: ListedRow)
    ensures CardLangs(seen + [row]) == CardLangs(seen) + {CardLangOf(row)}
  {
    assert (seen + [row])[..|seen|] == seen;
  }

  /** One more row: it joins the rows of its key. */
  lemma RowsOfSnoc(seen: seq<ListedRow>, row: ListedRow, k: (string, string))
    ensures RowsOf(seen + [row], k) == RowsOf(seen, k) + (if CardLangOf(row) == k then [row] else [])
  {
    assert (seen + [row])[..|seen|] == seen;
  }

  /** A key without rows has an empty group. */
  lemma {:induction false} RowsOfAbsent(seen: seq<ListedRow>, k: (string, string))
    requires k !in CardLangs(seen)
    ensures RowsOf(seen, k) == []
  {
    if seen != [] {
      var init := seen[..|seen| - 1];
      assert seen == init + [seen[|seen| - 1]];
      assert CardLangs(init) <= CardLangs(seen);
      RowsOfAbsent(init, k);
    }
  }

  /** The keys received so far are the keys of the groups. */
  lemma OrderIsKeys(seen: seq<ListedRow>, groups: map<(string, string), seq<ListedRow>>,
                    order: seq<(string, string)>, key: (string, string))
    requires Grouped(seen, groups, order)
    ensures key in order <==> key in groups
  {
    assert key in order <==> key in (set k | k in order);
  }

  /** One more row of a key already seen joins that key's group. */
  lemma GroupKnown(seen: seq<ListedRow>, row: ListedRow, groups: map<(string, string), seq<ListedRow>>,
                   order: seq<(string, string)>)
    requires Grouped(seen, groups, order) && CardLangOf(row) in groups
    ensures Grouped(seen + [row], groups[CardLangOf(row) := groups[CardLangOf(row)] + [row]], order)
  {
    var key := CardLangOf(row);
    OrderIsKeys(seen, groups, order, key);
    FirstSeenSnoc(seen, row);
    CardLangsSnoc(seen, row);
    var next := groups[key := groups[key] + [row]];
    forall k | k in next ensures next[k] == RowsOf(seen + [row], k) {
      RowsOfSnoc(seen, row, k);
    }
  }

  /** One more row of a new key opens a group for it at the end of the order. */
  lemma GroupNew(seen: seq<ListedRow>, row: ListedRow, groups: map<(string, string), seq<ListedRow>>,
                 order: seq<(string, string)>)
    requires Grouped(seen, groups, order) && CardLangOf(row) !in groups
    ensures Grouped(seen + [row], groups[CardLangOf(row) := [] + [row]], order + [CardLangOf(row)])
  {
    var key := CardLangOf(row);
    OrderIsKeys(seen, groups, order, key);
    GroupNewOrder(seen, row, order);
    GroupNewKeys(seen, row, groups);
    GroupNewRows(seen, row, groups);
  }

  /** A new key goes to the end of the order. */
  lemma GroupNewOrder(seen: seq<ListedRow>, row: ListedRow, order: seq<(string, string)>)
    requires order == FirstSeen(seen) && CardLangOf(row) !in order
    ensures FirstSeen(seen + [row]) == order + [CardLangOf(row)]
  {
    FirstSeenSnoc(seen, row);
  }

  /** A new key joins the keys. */
  lemma GroupNewKeys(seen: seq<ListedRow>, row: ListedRow, groups: map<(string, string), seq<ListedRow>>)
    requires groups.Keys == CardLangs(seen)
    ensures groups[CardLangOf(row) := [] + [row]].Keys == CardLangs(seen + [row])
  {
    CardLangsSnoc(seen, row);
  }

  /** The groups after one more row of a new key: that key's group is the row alone. */
  lemma GroupNewRows(seen: seq<ListedRow>, row: ListedRow, groups: map<(string, string), seq<ListedRow>>)
    requires groups.Keys == CardLangs(seen) && CardLangOf(row) !in groups
    requires forall k :: k in groups ==> groups[k] == RowsOf(seen, k)
    ensures forall k :: k in groups[CardLangOf(row) := [] + [row]] ==>
              groups[CardLangOf(row) := [] + [row]][k] == RowsOf(seen + [row], k)
  {
    var key := CardLangOf(row);
    RowsOfAbsent(seen, key);
    var next := groups[key := [] + [row]];
    forall k | k in next ensures next[k] == RowsOf(seen + [row], k) {
      RowsOfSnoc(seen, row, k);
      if k == key {
        assert next[k] == RowsOf(seen, k) + [row];
      } else {
        assert next[k] == groups[k] == RowsOf(seen, k);
      }
    }
  }

  /**
   * The grouping loop of `handle_list`: one entry per (card, language), holding its rows
   * in query order, and the keys in the order the dictionary received them.
   */
  method GroupByCardLanguage(rows: seq<ListedRow>) returns (groups: map<(string, string), seq<ListedRow>>, order: seq<(string, string)>)
    ensures order == FirstSeen(rows)
    ensures groups.Keys == CardLangs(rows)
    ensures forall k :: k in groups ==> groups[k] == RowsOf(rows, k)
  {
    groups := map[];
    order := [];
    var i := 0;
    while i < |rows|
      invariant 0 <= i <= |rows|
      invariant Grouped(rows[..i], groups, order)
    {
      var row := rows[i];
      var key := CardLangOf(row);
      assert rows[..i + 1] == rows[..i] + [row];
      if key !in groups {
        GroupNew(rows[..i], row, groups, order);
        groups := groups[key := []];
        order := order + [key];
      } else {
        GroupKnown(rows[..i], row, groups, order);
      }
      groups := groups[key := groups[key] + [row]];
      i := i + 1;
    }
    assert rows[..|rows|] == rows;
  }

  /** The inner loop of the printing loop: the `variant(quantity)` entries of some rows and their sum. */
  method VariantEntries(sorted: seq<ListedRow>) returns (variantStrs: seq<(string, int)>, cardTotal: int)
    ensures variantStrs == VariantCounts(sorted)
    ensures cardTotal == TotalWeight(variantStrs)
  {
    variantStrs := [];
    cardTotal := 0;
    var m := 0;
    while m < |sorted|
      invariant 0 <= m <= |sorted|
      invariant variantStrs == VariantCounts(sorted[..m])
      invariant cardTotal == TotalWeight(variantStrs)
    {
      var entry := (sorted[m].variant, sorted[m].quantity);
      assert (variantStrs + [entry])[..|variantStrs|] == variantStrs;
      variantStrs := variantStrs + [entry];
      cardTotal := cardTotal + sorted[m].quantity;
      m := m + 1;
    }
    assert sorted[..|sorted|] == sorted;
  }

  /** The body of the printing loop for one (card, language): its variants and their sum. */
  method CardLine(key: (string, string), cardVariants: seq<ListedRow>) returns (line: ListLine)
    requires cardVariants != []
    ensures line == LineOf(key, cardVariants)
  {
    var first := cardVariants[0];
    var name := first.displayName;
    var rarity := first.rarity.GetOr("");
    var variantStrs, cardTotal := VariantEntries(SortBy(cardVariants, VariantKey));
    if |name| > 24 {
      name := name[..21] + "...";
    }
    line := ListLine(first.setId, first.cardNumber, key.1, name, cardTotal, rarity, variantStrs);
  }

  /** The lines of some keys, one after another. */
  function LinesFor(groups: map<(string, string), seq<ListedRow>>, keys: seq<(string, string)>): seq<ListLine>
    requires forall k :: k in keys ==> k in groups && groups[k] != []
  {
    if keys == [] then []
    else LinesFor(groups, keys[..|keys| - 1]) + [LineOf(keys[|keys| - 1], groups[keys[|keys| - 1]])]
  }

  /** The `t`-th of the lines of some keys is the line of the `t`-th key. */
  lemma {:induction false} LinesForAt(groups: map<(string, string), seq<ListedRow>>, keys: seq<(string, string)>)
    requires forall k :: k in keys ==> k in groups && groups[k] != []
    ensures |LinesFor(groups, keys)| == |keys|
    ensures forall t :: 0 <= t < |keys| ==> LinesFor(groups, keys)[t] == LineOf(keys[t], groups[keys[t]])
  {
    if keys != [] {
      var init := keys[..|keys| - 1];
      var last := keys[|keys| - 1];
      LinesForAt(groups, init);
      var prev := LinesFor(groups, init);
      var lines := LinesFor(groups, keys);
      assert lines == prev + [LineOf(last, groups[last])];
      forall t | 0 <= t < |keys| ensures lines[t] == LineOf(keys[t], groups[keys[t]]) {
        if t < |init| {
          assert keys[t] == init[t];
          assert lines[t] == prev[t];
        } else {
          assert keys[t] == last;
        }
      }
    }
  }

  /** The lines of one more key are the lines so far and that key's line. */
  lemma LinesForSnoc(groups: map<(string, string), seq<ListedRow>>, keys: seq<(string, string)>, j: nat, line: ListLine)
    requires forall k :: k in keys ==> k in groups && groups[k] != []
    requires j < |keys| && line == LineOf(keys[j], groups[keys[j]])
    ensures forall k :: k in keys[..j + 1] ==> k in groups && groups[k] != []
    ensures LinesFor(groups, keys[..j + 1]) == LinesFor(groups, keys[..j]) + [line]
  {
    assert keys[..j + 1][..j] == keys[..j];
  }

  /** The printing loop of `handle_list` over the sorted keys: the lines and the two counters. */
  method PrintLines(groups: map<(string, string), seq<ListedRow>>, keys: seq<(string, string)>)
    returns (lines: seq<ListLine>, totalUnique: int, totalQuantity: int)
    requires forall k :: k in keys ==> k in groups && groups[k] != []
    ensures |lines| == |keys|
    ensures forall t :: 0 <= t < |keys| ==> lines[t] == LineOf(keys[t], groups[keys[t]])
    ensures totalUnique == |lines| && totalQuantity == LinesTotal(lines)
  {
    lines := [];
    totalUnique := 0;
    totalQuantity := 0;
    var j := 0;
    while j < |keys|
      invariant 0 <= j <= |keys| && totalUnique == j
      invariant forall k :: k in keys[..j] ==> k in groups && groups[k] != []
      invariant lines == LinesFor(groups, keys[..j])
      invariant totalQuantity == LinesTotal(lines)
    {
      var key := keys[j];
      var line := CardLine(key, groups[key]);
      LinesTotalSnoc(lines, line);
      LinesForSnoc(groups, keys, j, line);
      lines := lines + [line];
      totalQuantity := totalQuantity + line.quantity;
      totalUnique := totalUnique + 1;
      j := j + 1;
    }
    assert keys[..j] == keys;
    LinesForAt(groups, keys);
  }

  lemma LinesTotalSnoc(lines: seq<ListLine>, line: ListLine)
    ensures LinesTotal(lines + [line]) == LinesTotal(lines) + line.quantity
  {
    assert (lines + [line])[..|lines|] == lines;
  }

  lemma GroupsCoverKeys(rows: seq<ListedRow>, groups: map<(string, string), seq<ListedRow>>)
    requires groups.Keys == CardLangs(rows)
    requires forall k :: k in groups ==> groups[k] == RowsOf(rows, k)
    ensures forall k :: k in SortedKeys(rows) ==> k in groups && groups[k] == RowsOf(rows, k) && groups[k] != []
  {
  }

  lemma PrintedLines(rows: seq<ListedRow>, groups: map<(string, string), seq<ListedRow>>, lines: seq<ListLine>)
    requires forall k :: k in SortedKeys(rows) ==> k in groups && groups[k] == RowsOf(rows, k)
    requires |lines| == |SortedKeys(rows)|
    requires forall t :: 0 <= t < |lines| ==> lines[t] == LineOf(SortedKeys(rows)[t], groups[SortedKeys(rows)[t]])
    ensures lines == LinesOf(rows)
  {
  }

  /**
   * `handle_list` after the query: group, print one line per (card, language) in key
   * order with the variants sorted by name, and count unique cards and copies.
   */
  method ListCollection(f: ListFilter, rows: seq<ListedRow>) returns (listing: Listing)
    ensures listing == ListingOf(f, rows)
  {
    if rows == [] {
      return NothingFound(NothingFoundMessage(f));
    }
    var groups, order := GroupByCardLanguage(rows);
    var keys := SortBy(order, CardLangKey);
    GroupsCoverKeys(rows, groups);
    var lines, totalUnique, totalQuantity := PrintLines(groups, keys);
    PrintedLines(rows, groups, lines);
    listing := Lines(lines, totalUnique, totalQuantity);
  }

  // ---------------------------------------------------------------- what the listing adds up to

  /** The copies held in some rows. */
  function RowsQuantity(g: seq<ListedRow>): int
  {
    if g == [] then 0 else RowsQuantity(g[..|g| - 1]) + g[|g| - 1].quantity
  }

  /** Each row as a quantity tallied under its (card, language). */
  function Quantities(rows: seq<ListedRow>): (xs: seq<((string, string), int)>)
    ensures |xs| == |rows|
    ensures forall i :: 0 <= i < |rows| ==> xs[i] == (CardLangOf(rows[i]), rows[i].quantity)
  {
    seq(|rows|, i requires 0 <= i < |rows| => (CardLangOf(rows[i]), rows[i].quantity))
  }

  lemma {:induction false} VariantCountsTotal(g: seq<ListedRow>)
    ensures TotalWeight(VariantCounts(g)) == RowsQuantity(g)
  {
    if g != [] {
      VariantCountsTotal(g[..|g| - 1]);
      assert VariantCounts(g)[..|g| - 1] == VariantCounts(g[..|g| - 1]);
    }
  }

  lemma {:induction false} QuantitiesTotal(rows: seq<ListedRow>)
    ensures TotalWeight(Quantities(rows)) == RowsQuantity(rows)
  {
    if rows != [] {
      QuantitiesTotal(rows[..|rows| - 1]);
      assert Quantities(rows)[..|rows| - 1] == Quantities(rows[..|rows| - 1]);
    }
  }

  lemma {:induction false} RowsQuantityConcat(a: seq<ListedRow>, c: seq<ListedRow>)
    ensures RowsQuantity(a + c) == RowsQuantity(a) + RowsQuantity(c)
  {
    if c != [] {
      RowsQuantityConcat(a, c[..|c| - 1]);
      assert (a + c)[..|a + c| - 1] == a + c[..|c| - 1];
    } else {
      assert a + c == a;
    }
  }

  /** The copies of some rows do not depend on their order. */
  lemma {:induction false} RowsQuantityPermutation(a: seq<ListedRow>, b: seq<ListedRow>)
    requires multiset(a) == multiset(b)
    ensures RowsQuantity(a) == RowsQuantity(b)
  {
    if a == [] {
      assert |multiset(b)| == 0;
    } else {
      var init := a[..|a| - 1];
      var x := a[|a| - 1];
      assert a == init + [x];
      assert x in multiset(b);
      var j :| 0 <= j < |b| && b[j] == x;
      var rest := b[..j] + b[j + 1..];
      RemoveRow(b, j);
      assert multiset(a) == multiset(init) + multiset{x};
      assert multiset(rest) == multiset(init) by {
        forall y ensures multiset(rest)[y] == multiset(init)[y] {
          assert (multiset(rest) + multiset{x})[y] == (multiset(init) + multiset{x})[y];
        }
      }
      RowsQuantityPermutation(init, rest);
    }
  }

  /** Taking one row out of a list takes it out of the multiset and its copies out of the sum. */
  lemma RemoveRow(b: seq<ListedRow>, j: nat)
    requires j < |b|
    ensures multiset(b[..j] + b[j + 1..]) + multiset{b[j]} == multiset(b)
    ensures RowsQuantity(b) == RowsQuantity(b[..j] + b[j + 1..]) + b[j].quantity
  {
    SplitAround(b, j);
    RemoveRowQuantity(b[..j], b[j], b[j + 1..]);
    RemoveRowMultiset(b[..j], b[j], b[j + 1..]);
  }

  lemma SplitAround(b: seq<ListedRow>, j: nat)
    requires j < |b|
    ensures b == b[..j] + [b[j]] + b[j + 1..]
  {
  }

  lemma RemoveRowMultiset(front: seq<ListedRow>, x: ListedRow, back: seq<ListedRow>)
    ensures multiset(front + back) + multiset{x} == multiset(front + [x] + back)
  {
    assert multiset(front + [x] + back) == multiset(front) + multiset{x} + multiset(back);
  }

  lemma RemoveRowQuantity(front: seq<ListedRow>, x: ListedRow, back: seq<ListedRow>)
    ensures RowsQuantity(front + [x] + back) == RowsQuantity(front + back) + x.quantity
  {
    RowsQuantityConcat(front + [x], back);
    RowsQuantityConcat(front, [x]);
    RowsQuantityConcat(front, back);
    assert RowsQuantity([x]) == x.quantity by {
      assert [x][..0] == [];
    }
  }

  /** The rows of one (card, language) hold that pair's tallied copies. */
  lemma {:induction false} GroupQuantity(rows: seq<ListedRow>, k: (string, string))
    ensures RowsQuantity(RowsOf(rows, k)) == WeightOf(Quantities(rows), k)
  {
    if rows != [] {
      var init := rows[..|rows| - 1];
      var last := rows[|rows| - 1];
      GroupQuantity(init, k);
      assert Quantities(rows)[..|rows| - 1] == Quantities(init);
      RowsQuantityConcat(RowsOf(init, k), if CardLangOf(last) == k then [last] else []);
      assert RowsQuantity([last]) == last.quantity by {
        assert [last][..0] == [];
      }
    }
  }

  /** A printed line's quantity is the sum of its (card, language)'s rows. */
  lemma LineQuantity(rows: seq<ListedRow>, k: (string, string))
    requires RowsOf(rows, k) != []
    ensures LineOf(k, RowsOf(rows, k)).quantity == WeightOf(Quantities(rows), k)
  {
    var g := RowsOf(rows, k);
    VariantCountsTotal(SortBy(g, VariantKey));
    RowsQuantityPermutation(SortBy(g, VariantKey), g);
    GroupQuantity(rows, k);
  }

  /** The line at position `j` holds the copies of the `j`-th key. */
  lemma LineAt(rows: seq<ListedRow>, j: nat)
    requires j < |SortedKeys(rows)|
    ensures LinesOf(rows)[j].quantity == WeightOf(Quantities(rows), SortedKeys(rows)[j])
  {
    var k := SortedKeys(rows)[j];
    assert k in SortedKeys(rows);
    LineQuantity(rows, k);
  }

  /** Lines that each hold their key's tallied copies add up, over a prefix, to the weight of its keys. */
  lemma {:induction false} LinesTotalWeights(q: seq<((string, string), int)>, lines: seq<ListLine>,
                                             keys: seq<(string, string)>)
    requires |lines| == |keys|
    requires forall t :: 0 <= t < |keys| ==> lines[t].quantity == WeightOf(q, keys[t])
    ensures LinesTotal(lines) == WeightOver(q, keys)
  {
    if lines != [] {
      var n := |lines| - 1;
      LinesTotalWeights(q, lines[..n], keys[..n]);
    }
  }

  lemma QuantityKeys(rows: seq<ListedRow>)
    ensures KeysOf(Quantities(rows)) == CardLangs(rows)
  {
    forall k | k in CardLangs(rows) ensures k in KeysOf(Quantities(rows)) {
      var i :| 0 <= i < |rows| && CardLangOf(rows[i]) == k;
      assert Quantities(rows)[i] == (k, rows[i].quantity);
    }
  }

  /** The listed keys are distinct and as many as the pairs among the rows. */
  lemma SortedKeysCount(rows: seq<ListedRow>)
    ensures Distinct(SortedKeys(rows))
    ensures |SortedKeys(rows)| == |CardLangs(rows)|
  {
    var keys := SortedKeys(rows);
    DistinctPermutation(FirstSeen(rows), keys);
    assert (set k | k in keys) == CardLangs(rows);
    DistinctCard(keys);
  }

  /** The lines add up to the copies of all rows. */
  lemma LinesTotalAll(rows: seq<ListedRow>)
    ensures LinesTotal(LinesOf(rows)) == RowsQuantity(rows)
  {
    var keys := SortedKeys(rows);
    SortedKeysCount(rows);
    var lines := LinesOf(rows);
    forall t | 0 <= t < |keys| ensures lines[t].quantity == WeightOf(Quantities(rows), keys[t]) {
      LineAt(rows, t);
    }
    LinesTotalWeights(Quantities(rows), lines, keys);
    QuantityKeys(rows);
    assert KeysOf(Quantities(rows)) <= set k | k in keys;
    WeightOverAllKeys(Quantities(rows), keys);
    QuantitiesTotal(rows);
  }

  /**
   * The listing is empty exactly when no row matched, and otherwise it prints one line
   * per distinct (card, language), with the grand total equal to the copies of all rows.
   */
  lemma ListingCounts(f: ListFilter, rows: seq<ListedRow>)
    ensures ListingOf(f, rows).NothingFound? <==> rows == []
    ensures rows == [] ==> ListingOf(f, rows).message == NothingFoundMessage(f)
    ensures rows != [] ==> ListingOf(f, rows).unique == |ListingOf(f, rows).lines| == |CardLangs(rows)|
    ensures rows != [] ==> ListingOf(f, rows).total == RowsQuantity(rows)
  {
    if rows != [] {
      SortedKeysCount(rows);
      LinesTotalAll(rows);
    }
  }

  // ---------------------------------------------------------------- the sync summary

  /** The error part of the sync summary: the first ten messages and how many were not shown. */
  datatype ErrorReport = ErrorReport(count: nat, shown: seq<string>, hidden: Option<nat>)

  const ShownErrors: nat := 10

  function SummarizeErrors(errors: seq<string>): (r: Option<ErrorReport>)
    ensures r.None? <==> errors == []
    ensures r.Some? ==> r.value.count == |errors| && |r.value.shown| <= ShownErrors
    ensures r.Some? ==> r.value.shown <= errors
    ensures r.Some? ==> (r.value.hidden.Some? <==> |errors| > ShownErrors)
    ensures r.Some? ==> r.value.shown == errors[..if |errors| > ShownErrors then ShownErrors else |errors|]
    ensures r.Some? && |errors| > ShownErrors ==> r.value.hidden == Some(|errors| - ShownErrors)
  {
    if errors == [] then None
    else if |errors| > ShownErrors then Some(ErrorReport(|errors|, errors[..ShownErrors], Some(|errors| - ShownErrors)))
    else Some(ErrorReport(|errors|, errors, None))
  }

  /**
   * The summary accounts for every error: the earliest ten are shown in order, the
   * count of the others is reported, and no message is both shown and counted as hidden.
   */
  lemma ErrorsAccounted(errors: seq<string>)
    requires errors != []
    ensures var r := SummarizeErrors(errors).value;
            |r.shown| + (if r.hidden.Some? then r.hidden.value else 0) == |errors| == r.count
    ensures var r := SummarizeErrors(errors).value;
            forall i :: 0 <= i < |errors| ==>
              (i < |r.shown| && r.shown[i] == errors[i]) != (i >= ShownErrors && r.hidden.Some?)
    ensures var r := SummarizeErrors(errors).value;
            |r.shown| == ShownErrors || r.shown == errors
  {
  }
}
