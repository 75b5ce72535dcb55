/**
  Facts about the contents of the ingredient table: which spellings reach
  which record, and how the known aliases relate to each other.
 */
module KnowledgeBaseFacts {
  import opened Types
  import opened KnowledgeBase

  /** No record is classified Unknown, so a lookup is Unknown exactly on a miss. */
  lemma UnknownExactlyOnMiss(name: string)
    ensures Lookup(name).riskLevel == Unknown <==> Normalize(name) !in Keys
  {
  }

  lemma PaddedParabenSpelling()
    ensures Normalize(" paraben ") == "paraben"
  {
    assert " paraben " == " " + "paraben" + " ";
    NormalizeIgnoresPadding(" ", "paraben", " ");
    NormalizeFixesKeys("paraben");
  }

  lemma UpperParabenSpelling()
    ensures Normalize("PARABEN") == "paraben"
  {
  }

  lemma CapitalParabenSpelling()
    ensures Normalize("Paraben") == "paraben"
  {
  }

  lemma ParabenKey()
    ensures Keys["paraben"] == Paraben
  {
  }

  /** " paraben ", "PARABEN" and "Paraben" share one key, which holds the Medium paraben record. */
  lemma ParabenSpellings()
    ensures Normalize(" paraben ") == "paraben"
    ensures Normalize("PARABEN") == "paraben"
    ensures Normalize("Paraben") == "paraben"
    ensures "paraben" in Keys && Risk(Keys["paraben"]) == Medium
  {
    PaddedParabenSpelling();
    UpperParabenSpelling();
    CapitalParabenSpelling();
    ParabenKey();
  }

  lemma EdtaKeys()
    ensures "edta" in Keys && Keys["edta"] == Edta
    ensures "ethylenediaminetetraacetic acid" in Keys && Keys["ethylenediaminetetraacetic acid"] == Edta
  {
  }

  /** Names that normalise to "edta" and to its long form get field-identical Low records. */
  lemma EdtaAliases(short: string, long: string)
    requires Normalize(short) == "edta"
    requires Normalize(long) == "ethylenediaminetetraacetic acid"
    ensures Lookup(short).(name := long) == Lookup(long)
    ensures Lookup(short).riskLevel == Low
  {
    EdtaKeys();
    LookupSameEntry(short, long);
  }

  lemma EdtaSpellings()
    ensures Normalize("EDTA") == "edta"
  {
  }

  lemma EthylenediaminetetraaceticAcidLower()
    ensures ToLower("Ethylenediaminetetraacetic Acid") == "ethylenediaminetetraacetic acid"
  {
  }

  lemma EthylenediaminetetraaceticAcidSpelling()
    ensures Normalize("Ethylenediaminetetraacetic Acid") == "ethylenediaminetetraacetic acid"
  {
    EthylenediaminetetraaceticAcidLower();
  }

  /**
    The three names of sodium laureth sulfate are three separate entries of
    the table (so their texts may differ) ...
   */
  lemma SlesKeys()
    ensures "sles" in Keys && Keys["sles"] == Sles
    ensures "sodium laureth sulfate" in Keys && Keys["sodium laureth sulfate"] == SodiumLaurethSulfate
    ensures "sodium lauryl ether sulfate" in Keys && Keys["sodium lauryl ether sulfate"] == SodiumLaurylEtherSulfate
  {
  }

  /** ... but every name that normalises to one of them gets a Medium record. */
  lemma SlesRisk(name: string)
    requires Normalize(name) in {"sles", "sodium laureth sulfate", "sodium lauryl ether sulfate"}
    ensures Lookup(name).riskLevel == Medium
  {
    SlesEntriesMedium(Normalize(name));
    LookupRisk(name);
  }

  lemma SlesEntriesMedium(k: string)
    requires k in {"sles", "sodium laureth sulfate", "sodium lauryl ether sulfate"}
    ensures k in Keys && Risk(Keys[k]) == Medium
  {
    SlesKeys();
  }

  lemma SlesSpelling()
    ensures Normalize("SLES") == "sles"
  {
  }

  lemma SodiumLaurethSulfateSpelling()
    ensures Normalize("Sodium Laureth Sulfate") == "sodium laureth sulfate"
  {
  }

  lemma SodiumLaurylEtherSulfateSpelling()
    ensures Normalize("Sodium Lauryl Ether Sulfate") == "sodium lauryl ether sulfate"
  {
  }

  /** The entries of "sles" and "sodium lauryl ether sulfate" carry the same health-impact text. */
  lemma SlesHealthImpactShared()
    ensures HealthImpact(Sles) == HealthImpact(SodiumLaurylEtherSulfate)
  {
  }
}
