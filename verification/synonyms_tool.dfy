/**
  The mock `ingredientSynonyms` tool of src/ai/flows/extract-ingredients.ts:
  an exact-key table of synonyms with an empty default. The extraction prompt
  that may call it is not modelled.
 */
module SynonymsTool {

  const SynonymMap: map<string, seq<string>> := map[
    "Sodium Laureth Sulfate" := ["SLES", "Sodium Lauryl Ether Sulfate"],
    "Paraben" := ["Butylparaben", "Methylparaben", "Propylparaben"],
    "Fragrance" := ["Parfum", "Aroma"],
    "EDTA" := ["Ethylenediaminetetraacetic Acid"]
  ]

  /** The synonyms of `ingredient`: its list when it is a key, spelled exactly; none otherwise. */
  function Synonyms(ingredient: string): (r: seq<string>)
    ensures ingredient in SynonymMap <==> r != []
    ensures ingredient in SynonymMap ==> r == SynonymMap[ingredient]
  {
    if ingredient in SynonymMap then SynonymMap[ingredient] else []
  }

  /**
    Worked lookups: a key gives its list; the same name in lower case, and a
    synonym looked up in turn, give nothing, since matching is exact and the
    table only maps keys to their synonyms.
   */
  lemma SynonymExamples()
    ensures Synonyms("Sodium Laureth Sulfate") == ["SLES", "Sodium Lauryl Ether Sulfate"]
    ensures Synonyms("EDTA") == ["Ethylenediaminetetraacetic Acid"]
    ensures Synonyms("sodium laureth sulfate") == []
    ensures Synonyms("Parfum") == []
  {
  }

  /** No synonym is itself a key, so the lookup never chains. */
  lemma SynonymsAreNotKeys()
    ensures forall k, s :: k in SynonymMap && s in SynonymMap[k] ==> s !in SynonymMap
  {
  }
}
