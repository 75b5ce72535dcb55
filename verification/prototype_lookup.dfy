/**
  The knowledge-base lookup as src/lib/ingredient-data.ts:145-146 actually
  behaves in JavaScript: the table is a plain object, so indexing it with a
  normalised name also finds the properties every object inherits. Two of
  their names are already lower-case and trimmed, so `getIngredientDetails`
  reaches them: it takes the inherited value for a hit and reads undefined
  fields out of it. `KnowledgeBase.Lookup` is the intended behaviour, which
  the rest of the model uses.
 */
module PrototypeLookup {
  import opened Types
  import opened KnowledgeBase

  /** The inherited property names that survive lower-casing and trimming unchanged. */
  const InheritedKeys: set<string> := {"constructor", "__proto__"}

  /** A record as JavaScript builds it: a field read from a value that lacks it is undefined (`None`). */
  datatype LooseIngredient = LooseIngredient(
    name: string,
    description: Option<string>,
    healthImpact: Option<string>,
    riskLevel: Option<RiskLevel>,
    alternatives: Option<seq<string>>)

  /** A well-formed record seen as a loose one: every required field defined. */
  function Loosen(g: Ingredient): LooseIngredient {
    LooseIngredient(g.name, Some(g.description), Some(g.healthImpact), Some(g.riskLevel), g.alternatives)
  }

  /**
    The lookup as written: an inherited key is a truthy hit whose table
    fields are all undefined; every other name behaves as in `Lookup`. (No
    table key is an inherited name, so own properties never shadow them.)
   */
  function LookupAsWritten(name: string): (r: LooseIngredient)
    ensures r.name == name
    ensures Normalize(name) in InheritedKeys ==> r == LooseIngredient(name, None, None, None, None)
    ensures Normalize(name) !in InheritedKeys ==> r == Loosen(Lookup(name))
  {
    var key := Normalize(name);
    if key in InheritedKeys then LooseIngredient(name, None, None, None, None)
    else Loosen(Lookup(name))
  }

  lemma ConstructorNotAKey()
    ensures "constructor" !in Keys
  {
  }

  lemma ConstructorSpelling()
    ensures Normalize("Constructor") == "constructor"
  {
  }

  /**
    "Constructor" is not an ingredient, yet the lookup as written gives it
    no risk level at all, neither a table level nor Unknown; the intended
    lookup classifies it Unknown with the sentinel texts.
   */
  lemma ConstructorIsMisclassified()
    ensures LookupAsWritten("Constructor").riskLevel.None?
    ensures Lookup("Constructor") == UnknownIngredient("Constructor")
  {
    ConstructorSpelling();
    ConstructorNotAKey();
  }
}
