/**
  The local ingredient knowledge base: a static table keyed by lower-case
  ingredient names and aliases, and a lookup that normalises its argument
  (lower-case, then trim) before consulting the table and falls back to a
  fixed "Unknown" record on a miss.

  Normalisation is modelled over ASCII: lower-casing maps 'A'..'Z' to
  'a'..'z' and leaves every other character alone, and trimming removes the
  six ASCII whitespace characters (tab, line feed, vertical tab, form feed,
  carriage return, space) from both ends.
 */
module KnowledgeBase {
  import opened Types

  /** A table record: an ingredient record without its name. */
  datatype Details = Details(
    description: string,
    healthImpact: string,
    riskLevel: RiskLevel,
    alternatives: Option<seq<string>>)

  /** The records of the table; two keys that hold field-identical records share one entry. */
  datatype Entry =
    | Paraben
    | Methylparaben
    | Butylparaben
    | Propylparaben
    | Edta
    | SodiumLaurethSulfate
    | Sles
    | SodiumLaurylEtherSulfate
    | Fragrance
    | Parfum
    | Aroma
    | CitricAcid
    | Talc
    | TitaniumDioxide
    | Glycerin
    | Aqua
    | Water
    | Phenoxyethanol
    | AlcoholDenat
    | MineralOil
    | Phthalates
    | Formaldehyde

  /** The keys of the table, all lower-case and trimmed. */
  const Keys: map<string, Entry> := map[
      "paraben" := Paraben,
      "methylparaben" := Methylparaben,
      "butylparaben" := Butylparaben,
      "propylparaben" := Propylparaben,
      "edta" := Edta,
      "ethylenediaminetetraacetic acid" := Edta,
      "sodium laureth sulfate" := SodiumLaurethSulfate,
      "sles" := Sles,
      "sodium lauryl ether sulfate" := SodiumLaurylEtherSulfate,
      "fragrance" := Fragrance,
      "parfum" := Parfum,
      "aroma" := Aroma,
      "citric acid" := CitricAcid,
      "talc" := Talc,
      "titanium dioxide" := TitaniumDioxide,
      "glycerin" := Glycerin,
      "aqua" := Aqua,
      "water" := Water,
      "phenoxyethanol" := Phenoxyethanol,
      "alcohol denat." := AlcoholDenat,
      "mineral oil" := MineralOil,
      "phthalates" := Phthalates,
      "formaldehyde" := Formaldehyde
    ]

  /** The `description` field of each record. */
  function Description(e: Entry): string {
    match e
    case Paraben =>
      "A class of widely used preservatives in cosmetic and pharmaceutical products. They prevent the growth of bacteria and mold."
    case Methylparaben =>
      "A type of paraben, commonly used as an anti-fungal agent and preservative in cosmetics and personal care products."
    case Butylparaben =>
      "A type of paraben used as a preservative. It is more potent than methylparaben."
    case Propylparaben =>
      "A type of paraben used as a preservative, similar in potency and concern to butylparaben."
    case Edta =>
      "Ethylenediaminetetraacetic acid (EDTA) is a chelating agent. It binds to metal ions, improving product stability, texture, and rinse-off performance."
    case SodiumLaurethSulfate =>
      "A surfactant (surface active agent) and foaming agent commonly found in cleansers, shampoos, and soaps. It creates lather."
    case Sles =>
      "Sodium Laureth Sulfate, an anionic surfactant used for its cleansing and foaming properties in many personal care products."
    case SodiumLaurylEtherSulfate =>
      "Another name for Sodium Laureth Sulfate (SLES), a common surfactant in cleansing products."
    case Fragrance =>
      "A complex mixture of scent chemicals, often undeclared individually to protect trade secrets. Can contain dozens to hundreds of different chemicals."
    case Parfum =>
      "International Nomenclature for Cosmetic Ingredients (INCI) term for fragrance. A blend of various scent chemicals."
    case Aroma =>
      "Often used interchangeably with fragrance or parfum, indicating a blend of scent compounds."
    case CitricAcid =>
      "An organic acid naturally found in citrus fruits. Used as a preservative, pH adjuster, and chelating agent in cosmetics and food."
    case Talc =>
      "A mineral composed of hydrated magnesium silicate. Used in cosmetics for its absorbent properties and to improve texture."
    case TitaniumDioxide =>
      "A naturally occurring mineral used as a white pigment, opacifier, and sunscreen agent (physical blocker)."
    case Glycerin =>
      "A humectant that draws moisture from the air into the skin. Widely used in skincare for its moisturizing properties."
    case Aqua =>
      "The INCI name for purified water, the most common ingredient in cosmetics, serving as a solvent and base for many formulations."
    case Water =>
      "Purified water, used as a solvent and base in countless cosmetic and food products."
    case Phenoxyethanol =>
      "A common preservative used as an alternative to parabens. It has broad-spectrum antimicrobial activity."
    case AlcoholDenat =>
      "Denatured alcohol, ethanol that has additives to make it taste bad, preventing consumption. Used as a solvent, astringent, and to enhance penetration of other ingredients."
    case MineralOil =>
      "A clear, odorless oil derived from petroleum. Used as an emollient and moisturizer due to its occlusive properties."
    case Phthalates =>
      "A group of chemicals used to make plastics more flexible (plasticizers) and as solvents in cosmetics, often found in fragrances and nail polishes."
    case Formaldehyde =>
      "A known carcinogen used as a preservative or released by other preservatives (formaldehyde releasers) in cosmetics."
  }

  /** The `healthImpact` field of each record. */
  function HealthImpact(e: Entry): string {
    match e
    case Paraben =>
      "Potential endocrine disruptor, meaning it can interfere with hormone systems. Some studies link parabens to reproductive issues and increased risk of certain cancers. Can cause skin irritation and allergic reactions in some individuals."
    case Methylparaben =>
      "Considered one of the less potent parabens, but still shares general paraben concerns like potential endocrine disruption and skin irritation. Regulatory bodies often deem it safe at low concentrations."
    case Butylparaben =>
      "Stronger potential endocrine disruptor compared to methylparaben. Associated with reproductive toxicity and developmental issues in animal studies. Higher concern for bioaccumulation."
    case Propylparaben =>
      "Potential endocrine disruptor with effects on reproductive systems shown in animal studies. Can cause skin sensitization."
    case Edta =>
      "Generally considered safe for use in cosmetics in permitted concentrations. However, it can enhance the penetration of other ingredients through the skin, which could be a concern if harmful chemicals are also present. Not readily biodegradable, leading to environmental concerns."
    case SodiumLaurethSulfate =>
      "Can cause skin and eye irritation, especially in higher concentrations or with prolonged exposure. A primary concern is potential contamination with 1,4-dioxane, a suspected carcinogen, during its manufacturing process (ethoxylation)."
    case Sles =>
      "Can cause skin irritation. Risk of contamination with 1,4-dioxane, a potential carcinogen, during manufacturing."
    case SodiumLaurylEtherSulfate =>
      "Can cause skin irritation. Risk of contamination with 1,4-dioxane, a potential carcinogen, during manufacturing."
    case Fragrance =>
      "One of the most common causes of allergic contact dermatitis. Can trigger asthma, headaches, and other sensitivities. Some fragrance components have been linked to hormone disruption and are classified as potential carcinogens or reproductive toxicants."
    case Parfum =>
      "Can cause allergies, skin sensitization, respiratory issues. Some fragrance components may be endocrine disruptors or carcinogens."
    case Aroma =>
      "Can cause allergies, skin sensitization, respiratory issues. Some fragrance components may be endocrine disruptors or carcinogens."
    case CitricAcid =>
      "Generally Recognized As Safe (GRAS). Can cause mild skin irritation or stinging in high concentrations or on sensitive/broken skin. Not a significant health concern for most people."
    case Talc =>
      "Concern primarily revolves around potential contamination with asbestos, a known carcinogen. Asbestos-free talc is considered safer, but inhalation of talc particles (even asbestos-free) can cause respiratory issues. Ovarian cancer concerns are controversial and mainly linked to perineal use of talc-based powders."
    case TitaniumDioxide =>
      "Generally considered safe for topical use, especially in non-nano form. Concerns arise with inhalation of fine particles/powder (potential carcinogen). Nano-sized titanium dioxide in sunscreens has been studied extensively, with most research suggesting minimal skin penetration."
    case Glycerin =>
      "Very safe and beneficial for most skin types. Non-toxic and non-allergenic for the vast majority of people. Helps maintain skin hydration and barrier function."
    case Aqua =>
      "Completely safe and essential in many product formulations."
    case Water =>
      "Essential and safe."
    case Phenoxyethanol =>
      "Generally considered safe in concentrations up to 1%. Can cause skin irritation and eczema in some individuals, especially those with sensitive skin. Concerns about neurotoxicity in infants if ingested (e.g., via nipple creams not wiped off)."
    case AlcoholDenat =>
      "Can be very drying and irritating to the skin, especially in high concentrations. May disrupt the skin barrier, leading to increased sensitivity and damage over time."
    case MineralOil =>
      "Highly refined cosmetic-grade mineral oil is considered safe and non-comedogenic for most. Concerns often stem from poorly refined industrial grades or misconceptions. It can feel heavy on some skin types and may trap other comedogenic ingredients if skin is not cleansed properly."
    case Phthalates =>
      "Significant concern as endocrine disruptors, linked to reproductive and developmental harm, asthma, and some cancers. Often hidden under \"fragrance\" or \"parfum\"."
    case Formaldehyde =>
      "Carcinogenic, potent skin sensitizer and allergen. Can cause contact dermatitis and respiratory issues. Strictly regulated, but formaldehyde-releasing preservatives are still common."
  }

  /** The `riskLevel` field of each record. */
  function Risk(e: Entry): RiskLevel {
    match e
    case Paraben =>
      Medium
    case Methylparaben =>
      Medium
    case Butylparaben =>
      High
    case Propylparaben =>
      High
    case Edta =>
      Low
    case SodiumLaurethSulfate =>
      Medium
    case Sles =>
      Medium
    case SodiumLaurylEtherSulfate =>
      Medium
    case Fragrance =>
      High
    case Parfum =>
      High
    case Aroma =>
      High
    case CitricAcid =>
      Low
    case Talc =>
      Medium
    case TitaniumDioxide =>
      Low
    case Glycerin =>
      Low
    case Aqua =>
      Low
    case Water =>
      Low
    case Phenoxyethanol =>
      Low
    case AlcoholDenat =>
      Medium
    case MineralOil =>
      Low
    case Phthalates =>
      High
    case Formaldehyde =>
      High
  }

  /** The `alternatives` field of each record; water and aqua have none. */
  function Alternatives(e: Entry): Option<seq<string>> {
    match e
    case Paraben =>
      Some(["Phenoxyethanol", "Sodium Benzoate", "Potassium Sorbate", "Natural extracts with preservative properties (e.g., grapefruit seed extract, rosemary extract)"])
    case Methylparaben =>
      Some(["Phenoxyethanol", "Caprylyl Glycol", "Ethylhexylglycerin"])
    case Butylparaben =>
      Some(["Look for \"paraben-free\" labels", "Products preserved with sorbic acid or benzoic acid"])
    case Propylparaben =>
      Some(["Opt for products with natural preservatives", "Benzyl Alcohol"])
    case Edta =>
      Some(["Sodium Phytate", "Gluconolactone", "Citric Acid (in some applications)"])
    case SodiumLaurethSulfate =>
      Some(["Sodium Cocoyl Isethionate", "Decyl Glucoside", "Lauryl Glucoside", "Cocamidopropyl Betaine (can still be irritating for some)"])
    case Sles =>
      Some(["Sodium Lauroyl Sarcosinate", "Disodium Laureth Sulfosuccinate"])
    case SodiumLaurylEtherSulfate =>
      Some(["Sulfate-free cleansers", "Glucoside-based surfactants"])
    case Fragrance =>
      Some(["Fragrance-free products", "Products scented with essential oils (note: essential oils can also be allergenic for some)"])
    case Parfum =>
      Some(["Unscented products", "Essential oil blends (use with caution if sensitive)"])
    case Aroma =>
      Some(["Products labeled \"hypoallergenic\" and \"fragrance-free\""])
    case CitricAcid =>
      Some(["Lactic Acid (for pH adjustment)", "Sodium Citrate (as a chelator/buffer)"])
    case Talc =>
      Some(["Cornstarch", "Arrowroot powder", "Rice powder", "Kaolin clay"])
    case TitaniumDioxide =>
      Some(["Zinc Oxide (for sunscreen)", "Mica (for pigment, different properties)"])
    case Glycerin =>
      Some(["Hyaluronic Acid", "Sorbitol", "Propylene Glycol (can be irritating for some)"])
    case Aqua =>
      None
    case Water =>
      None
    case Phenoxyethanol =>
      Some(["Caprylyl Glycol", "Ethylhexylglycerin", "Sodium Benzoate combined with Potassium Sorbate"])
    case AlcoholDenat =>
      Some(["Fatty alcohols (Cetyl, Stearyl, Cetearyl alcohol - moisturizing)", "Witch Hazel (alcohol-free versions)", "Glycerin-based toners"])
    case MineralOil =>
      Some(["Squalane", "Jojoba Oil", "Caprylic/Capric Triglyceride", "Shea Butter"])
    case Phthalates =>
      Some(["Look for \"phthalate-free\" labels", "Avoid products listing generic \"fragrance\" if concerned"])
    case Formaldehyde =>
      Some(["Look for \"formaldehyde-free\" and \"formaldehyde-releaser-free\" labels", "Products preserved with phenoxyethanol or parabens (though parabens have their own concerns)."])
  }

  /** The record stored for an entry. */
  function DetailsOf(e: Entry): Details {
    Details(Description(e), HealthImpact(e), Risk(e), Alternatives(e))
  }

  const UnknownDescription: string := "No detailed information available in local database for this ingredient."
  const UnknownHealthImpact: string := "Unknown from local database."

  // ---------------------------------------------------------------------------
  // ASCII normalisation
  // ---------------------------------------------------------------------------

  predicate IsAsciiSpace(c: char) {
    c == ' ' || c == '\t' || c == '\n' || c == '\U{000B}' || c == '\U{000C}' || c == '\r'
  }

  predicate IsAsciiUpper(c: char) {
    'A' <= c <= 'Z'
  }

  predicate AllSpace(s: string) {
    forall i :: 0 <= i < |s| ==> IsAsciiSpace(s[i])
  }

  function LowerChar(c: char): (r: char)
    ensures !IsAsciiUpper(r)
    ensures IsAsciiSpace(r) <==> IsAsciiSpace(c)
  {
    if IsAsciiUpper(c) then (c as int + 32) as char else c
  }

  function UpperChar(c: char): char {
    if 'a' <= c <= 'z' then (c as int - 32) as char else c
  }

  /** Lower-cases every ASCII letter, position by position. */
  function ToLower(s: string): string {
    seq(|s|, i requires 0 <= i < |s| => LowerChar(s[i]))
  }

  /** Upper-cases every ASCII letter; used only to state case-insensitivity. */
  function ToUpper(s: string): string {
    seq(|s|, i requires 0 <= i < |s| => UpperChar(s[i]))
  }

  /** Drops the leading whitespace. */
  function TrimStart(s: string): string {
    if s != [] && IsAsciiSpace(s[0]) then TrimStart(s[1..]) else s
  }

  /** Drops the trailing whitespace. */
  function TrimEnd(s: string): string {
    if s != [] && IsAsciiSpace(s[|s| - 1]) then TrimEnd(s[..|s| - 1]) else s
  }

  /** Whitespace removed from both ends. */
  function Trim(s: string): string {
    TrimEnd(TrimStart(s))
  }

  /** The key a name is looked up under: lower-cased, then trimmed. */
  function Normalize(name: string): string {
    Trim(ToLower(name))
  }

  /** `r` is the part of `s` starting at `lo`, and everything around it is whitespace. */
  predicate SpaceMargins(s: string, lo: int, r: string) {
    0 <= lo && lo + |r| <= |s| && s[lo..lo + |r|] == r && AllSpace(s[..lo]) && AllSpace(s[lo + |r|..])
  }

  /** Neither end of `s` is whitespace. */
  predicate Trimmed(s: string) {
    s == [] || (!IsAsciiSpace(s[0]) && !IsAsciiSpace(s[|s| - 1]))
  }

  /** TrimStart leaves a suffix that starts with a non-space, and drops only whitespace. */
  lemma {:induction false} TrimStartSpec(s: string)
    ensures |TrimStart(s)| <= |s| && TrimStart(s) == s[|s| - |TrimStart(s)|..]
    ensures AllSpace(s[..|s| - |TrimStart(s)|])
    ensures TrimStart(s) == [] || !IsAsciiSpace(TrimStart(s)[0])
  {
    if s != [] && IsAsciiSpace(s[0]) {
      TrimStartSpec(s[1..]);
      var r := TrimStart(s[1..]);
      assert s[|s| - |r|..] == s[1..][|s| - 1 - |r|..];
      assert forall i :: 1 <= i < |s| - |r| ==> s[i] == s[1..][..|s| - 1 - |r|][i - 1];
    }
  }

  /** TrimEnd leaves a prefix that ends with a non-space, and drops only whitespace. */
  lemma {:induction false} TrimEndSpec(s: string)
    ensures |TrimEnd(s)| <= |s| && TrimEnd(s) == s[..|TrimEnd(s)|]
    ensures AllSpace(s[|TrimEnd(s)|..])
    ensures TrimEnd(s) == [] || !IsAsciiSpace(TrimEnd(s)[|TrimEnd(s)| - 1])
  {
    if s != [] && IsAsciiSpace(s[|s| - 1]) {
      var p := s[..|s| - 1];
      TrimEndSpec(p);
      var r := TrimEnd(p);
      assert s[..|r|] == p[..|r|];
      assert forall i :: |r| <= i < |s| - 1 ==> s[i] == p[|r|..][i - |r|];
    }
  }

  /** Trim keeps a contiguous part of its input, has no whitespace at either end, and drops only whitespace. */
  lemma TrimSpec(s: string)
    ensures SpaceMargins(s, |s| - |TrimStart(s)|, Trim(s))
    ensures Trimmed(Trim(s))
  {
    var t := TrimStart(s);
    var r := TrimEnd(t);
    TrimStartSpec(s);
    TrimEndSpec(t);
    var lo := |s| - |t|;
    assert s[lo..lo + |r|] == r by {
      assert t == s[lo..];
    }
    assert s[lo + |r|..] == t[|r|..];
  }

  /** A normalised key has no upper-case ASCII letter and no whitespace at either end. */
  lemma NormalizeSpec(name: string)
    ensures forall i :: 0 <= i < |Normalize(name)| ==> !IsAsciiUpper(Normalize(name)[i])
    ensures Trimmed(Normalize(name))
    ensures SpaceMargins(ToLower(name), |name| - |TrimStart(ToLower(name))|, Normalize(name))
  {
    TrimSpec(ToLower(name));
    var l := ToLower(name);
    var lo := |name| - |TrimStart(l)|;
    var k := Normalize(name);
    assert forall i :: 0 <= i < |k| ==> k[i] == l[lo + i];
  }

  // ---------------------------------------------------------------------------
  // Lookup
  // ---------------------------------------------------------------------------

  /** The sentinel returned for a name that is not in the table. */
  function UnknownIngredient(name: string): (r: Ingredient)
    ensures r.name == name && r.riskLevel == Unknown
    ensures r.alternatives.None? && r.purpose.None? && r.safeAlternative.None?
  {
    Ingredient(name, UnknownDescription, UnknownHealthImpact, Unknown, None, None, None)
  }

  /** The entry of the table, carried over unchanged into a record named `name`. */
  predicate CopiesEntry(r: Ingredient, name: string, d: Details) {
    && r.name == name
    && r.description == d.description
    && r.healthImpact == d.healthImpact
    && r.riskLevel == d.riskLevel
    && r.alternatives == d.alternatives
    && r.purpose == None
    && r.safeAlternative == None
  }

  /** No record of the table is classified Unknown. */
  lemma TableHasNoUnknown()
    ensures forall e: Entry :: Risk(e) != Unknown
  {
  }

  /**
    Looks `name` up. The result always keeps the caller's spelling of the name;
    on a hit it copies the entry, on a miss it is the Unknown sentinel.
   */
  function Lookup(name: string): (r: Ingredient)
    ensures r.name == name
    ensures Normalize(name) in Keys ==> CopiesEntry(r, name, DetailsOf(Keys[Normalize(name)]))
    ensures Normalize(name) !in Keys ==> r == UnknownIngredient(name)
  {
    var key := Normalize(name);
    if key in Keys then
      var d := DetailsOf(Keys[key]);
      Ingredient(name, d.description, d.healthImpact, d.riskLevel, d.alternatives, None, None)
    else
      UnknownIngredient(name)
  }

  /** Two names with the same normalised key get the same record, apart from the name. */
  lemma LookupDependsOnlyOnKey(a: string, b: string)
    requires Normalize(a) == Normalize(b)
    ensures Lookup(a).(name := b) == Lookup(b)
  {
  }

  /** Two keys that share an entry (the two spellings of EDTA) give the same record, apart from the name. */
  lemma LookupSameEntry(a: string, b: string)
    requires Normalize(a) in Keys && Normalize(b) in Keys
    requires Keys[Normalize(a)] == Keys[Normalize(b)]
    ensures Lookup(a).(name := b) == Lookup(b)
  {
  }

  /** On a hit the risk level is the entry's. */
  lemma LookupRisk(name: string)
    requires Normalize(name) in Keys
    ensures Lookup(name).riskLevel == Risk(Keys[Normalize(name)])
  {
  }

  // ---------------------------------------------------------------------------
  // Case and whitespace insensitivity
  // ---------------------------------------------------------------------------

  lemma ToLowerOfToUpper(s: string)
    ensures ToLower(ToUpper(s)) == ToLower(s)
  {
  }

  lemma ToLowerAppend(a: string, b: string)
    ensures ToLower(a + b) == ToLower(a) + ToLower(b)
  {
  }

  lemma {:induction false} TrimStartSpacePrefix(p: string, x: string)
    requires AllSpace(p)
    ensures TrimStart(p + x) == TrimStart(x)
  {
    if p != [] {
      assert (p + x)[0] == p[0];
      assert (p + x)[1..] == p[1..] + x;
      TrimStartSpacePrefix(p[1..], x);
    } else {
      assert p + x == x;
    }
  }

  lemma {:induction false} TrimEndSpaceSuffix(x: string, q: string)
    requires AllSpace(q)
    ensures TrimEnd(x + q) == TrimEnd(x)
  {
    if q != [] {
      assert (x + q)[|x + q| - 1] == q[|q| - 1];
      assert (x + q)[..|x + q| - 1] == x + q[..|q| - 1];
      TrimEndSpaceSuffix(x, q[..|q| - 1]);
    } else {
      assert x + q == x;
    }
  }

  /** Trailing material after a non-blank string survives the leading trim. */
  lemma {:induction false} TrimStartAppend(x: string, q: string)
    requires !AllSpace(x)
    ensures TrimStart(x + q) == TrimStart(x) + q
  {
    assert x != [];
    if IsAsciiSpace(x[0]) {
      assert (x + q)[1..] == x[1..] + q;
      assert !AllSpace(x[1..]) by {
        var i :| 0 <= i < |x| && !IsAsciiSpace(x[i]);
        assert x[1..][i - 1] == x[i];
      }
      TrimStartAppend(x[1..], q);
    }
  }

  lemma {:induction false} AllSpaceTrimStart(s: string)
    requires AllSpace(s)
    ensures TrimStart(s) == []
  {
    if s != [] {
      AllSpaceTrimStart(s[1..]);
    }
  }

  /** Surrounding whitespace does not change the trimmed string. */
  lemma TrimIgnoresPadding(p: string, x: string, q: string)
    requires AllSpace(p) && AllSpace(q)
    ensures Trim(p + x + q) == Trim(x)
  {
    assert p + x + q == p + (x + q);
    TrimStartSpacePrefix(p, x + q);
    if AllSpace(x) {
      assert AllSpace(x + q);
      AllSpaceTrimStart(x + q);
      AllSpaceTrimStart(x);
    } else {
      TrimStartAppend(x, q);
      TrimEndSpaceSuffix(TrimStart(x), q);
    }
  }

  /** A string with no upper-case letter and no whitespace at its ends is its own key. */
  lemma NormalizeFixesKeys(k: string)
    requires forall i :: 0 <= i < |k| ==> !IsAsciiUpper(k[i])
    requires Trimmed(k)
    ensures Normalize(k) == k
  {
    assert ToLower(k) == k;
  }

  lemma ToLowerKeepsSpace(s: string)
    requires AllSpace(s)
    ensures AllSpace(ToLower(s))
  {
  }

  /** Upper-casing the name does not change the record found. */
  lemma LookupIgnoresCase(name: string)
    ensures Lookup(ToUpper(name)).(name := name) == Lookup(name)
  {
    ToLowerOfToUpper(name);
  }

  /** Whitespace around the name does not change its key. */
  lemma NormalizeIgnoresPadding(p: string, name: string, q: string)
    requires AllSpace(p) && AllSpace(q)
    ensures Normalize(p + name + q) == Normalize(name)
  {
    ToLowerAppend(p + name, q);
    ToLowerAppend(p, name);
    ToLowerKeepsSpace(p);
    ToLowerKeepsSpace(q);
    TrimIgnoresPadding(ToLower(p), ToLower(name), ToLower(q));
  }

  /** Whitespace around the name does not change the record found. */
  lemma LookupIgnoresPadding(p: string, name: string, q: string)
    requires AllSpace(p) && AllSpace(q)
    ensures Lookup(p + name + q).(name := name) == Lookup(name)
  {
    NormalizeIgnoresPadding(p, name, q);
  }
}
