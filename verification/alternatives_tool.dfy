/**
  The mock `getAlternativeProducts` tool of
  src/ai/flows/suggest-safer-alternatives.ts: one templated product record per
  harmful ingredient, in input order. The prompt that decides whether to call
  the tool is not modelled; `Target` recovers the ingredient from a record.
 */
module AlternativesTool {
  import opened Types

  const NamePrefix: string := "Alternative to "
  const DescriptionPrefix: string := "This product is a safer alternative to products containing "
  const ReasonPrefix: string := "Does not contain "

  /** The ingredient a record's name refers to, if the name has the template's shape. */
  function Target(p: AlternativeProduct): Option<string> {
    if StartsWith(p.name, NamePrefix) then Some(p.name[|NamePrefix|..]) else None
  }

  /** A record whose three texts all follow the template for the same ingredient. */
  predicate Templated(p: AlternativeProduct) {
    && Target(p).Some?
    && p.description == DescriptionPrefix + Target(p).value + "."
    && p.reason == ReasonPrefix + Target(p).value
  }

  /** The record generated for one ingredient. */
  function AlternativeFor(ingredient: string): (p: AlternativeProduct)
    ensures Templated(p) && Target(p) == Some(ingredient)
  {
    var p := AlternativeProduct(
      NamePrefix + ingredient,
      DescriptionPrefix + ingredient + ".",
      ReasonPrefix + ingredient);
    assert p.name[..|NamePrefix|] == NamePrefix;
    assert p.name[|NamePrefix|..] == ingredient;
    p
  }

  /** Any templated record is the one generated for its target: the round trip in the other direction. */
  lemma AlternativeForOfTarget(p: AlternativeProduct)
    requires Templated(p)
    ensures AlternativeFor(Target(p).value) == p
  {
  }

  /** Distinct ingredients give distinct records. */
  lemma AlternativeForInjective(a: string, b: string)
    requires AlternativeFor(a) == AlternativeFor(b)
    ensures a == b
  {
  }

  /**
    The tool body: exactly one record per input ingredient, in input order,
    each pointing back at its ingredient.
   */
  function AlternativeProducts(ingredients: seq<string>): (r: seq<AlternativeProduct>)
    ensures |r| == |ingredients|
    ensures forall i :: 0 <= i < |r| ==> Templated(r[i]) && Target(r[i]) == Some(ingredients[i])
  {
    seq(|ingredients|, i requires 0 <= i < |ingredients| => AlternativeFor(ingredients[i]))
  }

  /** The ingredient list can be read back from the records the tool returns. */
  lemma TargetsOfProducts(ingredients: seq<string>)
    ensures
      var r := AlternativeProducts(ingredients);
      seq(|r|, i requires 0 <= i < |r| => Target(r[i]).value) == ingredients
  {
  }

  /** The tool commutes with concatenation of its input. */
  lemma AlternativeProductsAppend(a: seq<string>, b: seq<string>)
    ensures AlternativeProducts(a + b) == AlternativeProducts(a) + AlternativeProducts(b)
  {
  }
}
