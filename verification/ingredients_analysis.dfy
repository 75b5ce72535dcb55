/**
  The batch ingredient analysis of src/ai/flows/get-ingredients-analysis.ts:
  the output schema, the wrapper's guard against an empty name list, and the
  flow's fallback when the model produces no usable output. The model call
  itself is the `prompt` parameter.
 */
module IngredientsAnalysis {
  import opened Types

  /** The risk levels the output schema admits: its enum has no Unknown. */
  type ClassifiedRisk = r: RiskLevel | r != Unknown witness Low

  /**
    One element of the analysis output. Every field is required except
    `safeAlternative`, which the schema marks optional.
   */
  datatype AnalysisItem = AnalysisItem(
    ingredient: string,
    description: string,
    purpose: string,
    riskLevel: ClassifiedRisk,
    healthImpact: string,
    safeAlternative: Option<string>)

  /**
    The model call: it throws, or returns the schema-valid output, or returns
    nothing (`None`) when the output is absent or fails the schema.
   */
  type Prompt = seq<string> -> Outcome<Option<seq<AnalysisItem>>>

  /** A name list counts as given when it is present and non-empty. */
  predicate Given(names: Option<seq<string>>) {
    names.Some? && |names.value| > 0
  }

  /**
    The flow: one model call; a throw propagates, a missing output becomes
    the empty list and a present output is passed on unchanged.
   */
  function AnalysisFlow(names: seq<string>, prompt: Prompt): (r: Traced<Outcome<seq<AnalysisItem>>>)
    ensures r.calls == [AnalyzeCall(names)]
    ensures r.value.Throws? <==> prompt(names).Throws?
    ensures r.value.Throws? ==> r.value.exception == prompt(names).exception
    ensures r.value.Returns? && r.value.value != [] ==> prompt(names) == Returns(Some(r.value.value))
    ensures prompt(names).Returns? && prompt(names).value.Some? ==> r.value == Returns(prompt(names).value.value)
  {
    var out := prompt(names);
    var value :=
      match out
      case Throws(e) => Throws(e)
      case Returns(None) => Returns([])
      case Returns(Some(items)) => Returns(items);
    Traced(value, [AnalyzeCall(names)])
  }

  /**
    `getIngredientsAnalysis`: no names means no model call and an empty
    result; otherwise the flow's result. Every item it hands back was produced
    by the one model call on exactly the given names, and none is Unknown.
   */
  function GetIngredientsAnalysis(names: Option<seq<string>>, prompt: Prompt): (r: Traced<Outcome<seq<AnalysisItem>>>)
    ensures !Given(names) ==> r.value == Returns([]) && r.calls == []
    ensures Given(names) ==> r == AnalysisFlow(names.value, prompt)
    ensures |r.calls| <= 1
    ensures r.value.Throws? ==> Given(names)
    ensures r.value.Returns? && r.value.value != [] ==>
      Given(names) && r.calls == [AnalyzeCall(names.value)] && prompt(names.value) == Returns(Some(r.value.value))
    ensures r.value.Returns? ==> forall i :: 0 <= i < |r.value.value| ==> r.value.value[i].riskLevel != Unknown
  {
    if !Given(names) then Traced(Returns([]), [])
    else AnalysisFlow(names.value, prompt)
  }
}
