/**
  Shared data model of the ingredient scanner: the records of src/lib/types.ts,
  the optional values and thrown exceptions of the TypeScript runtime, and the
  trace of AI collaborator invocations that the orchestration produces.
 */
module Types {

  /** A value that may be absent (`undefined` / `null` in the source). */
  datatype Option<+T> = None | Some(value: T) {
    function GetOr(default: T): T {
      match this
      case Some(v) => v
      case None => default
    }
  }

  /** One byte of an uploaded file. */
  newtype byte = x: int | 0 <= x < 256

  /** The risk classification of an ingredient. */
  datatype RiskLevel = Low | Medium | High | Unknown

  /** The string literal the source uses for each risk level. */
  function RiskName(r: RiskLevel): string {
    match r
    case Low => "Low"
    case Medium => "Medium"
    case High => "High"
    case Unknown => "Unknown"
  }

  /** Medium and High ingredients are the ones that trigger product suggestions. */
  predicate IsHarmful(r: RiskLevel) {
    r == High || r == Medium
  }

  /**
    An ingredient record. `name`, `description`, `healthImpact`, `riskLevel`
    and `alternatives` are the declared fields; the records built from the AI
    analysis also carry `purpose` and `safeAlternative`, which the knowledge
    base never sets.
   */
  datatype Ingredient = Ingredient(
    name: string,
    description: string,
    healthImpact: string,
    riskLevel: RiskLevel,
    alternatives: Option<seq<string>>,
    purpose: Option<string>,
    safeAlternative: Option<string>)

  /** A suggested whole product. */
  datatype AlternativeProduct = AlternativeProduct(name: string, description: string, reason: string)

  /** One persisted history entry. */
  datatype ScanResult = ScanResult(
    id: string,
    timestamp: int,
    imageUrl: Option<string>,
    originalImageFileName: Option<string>,
    extractedIngredients: seq<Ingredient>,
    suggestedAlternatives: seq<AlternativeProduct>)

  /** The payload of one successful orchestration run. */
  datatype ProcessedScanData = ProcessedScanData(
    detailedIngredients: seq<Ingredient>,
    alternatives: seq<AlternativeProduct>)

  /**
    A thrown value. `message` is `Some(m)` when the thrown value is an object
    with a `message` property (already converted to a string), `None` otherwise.
   */
  datatype Exception = Exception(message: Option<string>)

  /** What an awaited collaborator call does: it either throws or returns a value. */
  datatype Outcome<+T> = Throws(exception: Exception) | Returns(value: T)

  /** One invocation of an AI collaborator, with the argument it received. */
  datatype Call =
    | ExtractCall(photoDataUri: string)
    | AnalyzeCall(ingredientNames: seq<string>)
    | SuggestCall(ingredients: seq<string>)

  /** A result together with the collaborator invocations made to compute it, in order. */
  datatype Traced<+T> = Traced(value: T, calls: seq<Call>)

  /** JavaScript truthiness of a `string | null | undefined`: present and non-empty. */
  predicate Truthy(s: Option<string>) {
    s.Some? && s.value != ""
  }

  predicate StartsWith(s: string, prefix: string) {
    |prefix| <= |s| && s[..|prefix|] == prefix
  }
}
