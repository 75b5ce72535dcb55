/**
  How the synonym tool of src/ai/flows/extract-ingredients.ts lines up with
  the local table of src/lib/ingredient-data.ts: every key of the synonym
  table and every synonym it offers is a name the local table knows, once
  normalised.
 */
module SynonymCoverage {
  import opened KnowledgeBase
  import opened SynonymsTool
  import opened KnowledgeBaseFacts

  /** A name and all its synonyms resolve in the local table. */
  predicate KnownLocally(k: string) {
    Normalize(k) in Keys && forall s :: s in Synonyms(k) ==> Normalize(s) in Keys
  }

  lemma SodiumLaurethSulfateKnown()
    ensures KnownLocally("Sodium Laureth Sulfate")
  {
    assert Synonyms("Sodium Laureth Sulfate") == ["SLES", "Sodium Lauryl Ether Sulfate"];
    SodiumLaurethSulfateSpelling();
    SlesSpelling();
    SodiumLaurylEtherSulfateSpelling();
    SlesKeys();
  }

  lemma ButylparabenSpelling()
    ensures Normalize("Butylparaben") == "butylparaben"
  {
  }

  lemma MethylparabenSpelling()
    ensures Normalize("Methylparaben") == "methylparaben"
  {
  }

  lemma PropylparabenSpelling()
    ensures Normalize("Propylparaben") == "propylparaben"
  {
  }

  lemma ParabenFamilyKeys()
    ensures "butylparaben" in Keys && "methylparaben" in Keys && "propylparaben" in Keys
  {
  }

  lemma ParabenKnown()
    ensures KnownLocally("Paraben")
  {
    assert Synonyms("Paraben") == ["Butylparaben", "Methylparaben", "Propylparaben"];
    ParabenSpellings();
    ButylparabenSpelling();
    MethylparabenSpelling();
    PropylparabenSpelling();
    ParabenFamilyKeys();
  }

  lemma FragranceSpellings()
    ensures Normalize("Fragrance") == "fragrance"
    ensures Normalize("Parfum") == "parfum"
    ensures Normalize("Aroma") == "aroma"
  {
  }

  lemma FragranceKnown()
    ensures KnownLocally("Fragrance")
  {
    assert Synonyms("Fragrance") == ["Parfum", "Aroma"];
    FragranceSpellings();
  }

  lemma EdtaKnown()
    ensures KnownLocally("EDTA")
  {
    assert Synonyms("EDTA") == ["Ethylenediaminetetraacetic Acid"];
    EdtaSpellings();
    EthylenediaminetetraaceticAcidSpelling();
    EdtaKeys();
  }

  /** Every key of the synonym table passes. */
  lemma AllSynonymsKnownLocally(k: string)
    requires k in SynonymMap
    ensures KnownLocally(k)
  {
    if k == "Sodium Laureth Sulfate" {
      SodiumLaurethSulfateKnown();
    } else if k == "Paraben" {
      ParabenKnown();
    } else if k == "Fragrance" {
      FragranceKnown();
    } else {
      EdtaKnown();
    }
  }
}
