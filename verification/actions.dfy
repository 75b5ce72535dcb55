/**
  The server action of src/lib/actions.ts: validate the uploaded file, turn
  it into a data URI, extract ingredient names, analyse them, ask for safer
  products when something is Medium or High, and fold every failure into an
  error result. The three AI steps and the file read are collaborators
  supplied as parameters; the trace of a run records which of them were
  invoked and with what.
 */
module Actions {
  import opened Types
  import opened IngredientsAnalysis

  /** An uploaded file: its declared MIME type and its bytes (`size` is their number). */
  datatype File = File(mimeType: string, contents: seq<byte>)

  /**
    What the action cannot see. `readFault` is the exception reading the
    file's bytes throws, if any; `base64` is the encoder; `extract`, `analyze`
    and `suggest` are the three model calls. `extract` and `suggest` return
    `None` when the flow's output, or the list inside it, is missing.
   */
  datatype Collaborators = Collaborators(
    readFault: Option<Exception>,
    base64: seq<byte> -> string,
    extract: string -> Outcome<Option<seq<string>>>,
    analyze: Prompt,
    suggest: seq<string> -> Outcome<Option<seq<AlternativeProduct>>>)

  /** The action's result, which the upload form receives as its state. */
  datatype ActionState = ActionState(
    data: Option<ProcessedScanData>,
    error: Option<string>,
    message: Option<string>)

  const EmptyFileError: string := "No image file provided or file is empty."
  const InvalidTypeError: string := "Invalid file type. Please upload an image."
  const NoIngredientsError: string :=
    "Could not extract any ingredients from the image. The image might be unclear or not contain an ingredient list."
  const UnexpectedError: string := "An unexpected error occurred while processing the image. Please try again."
  const SuccessMessage: string := "Ingredients processed successfully."
  const ImagePrefix: string := "image/"

  /** A failed run: no data, the given error, no message. */
  function Failed(error: string): ActionState {
    ActionState(None, Some(error), None)
  }

  /** The error text for a caught exception: its message, or the generic text when it has none. */
  function MessageOf(e: Exception): (m: string)
    ensures e.message.Some? ==> m == e.message.value
    ensures e.message.None? ==> m == UnexpectedError
  {
    e.message.GetOr(UnexpectedError)
  }

  // ---------------------------------------------------------------------------
  // Data URI (RFC 2397 shape, base64 left to the encoder)
  // ---------------------------------------------------------------------------

  const DataScheme: string := "data:"
  const Base64Marker: string := ";base64,"

  /**
    `fileToDataUri`: `data:<type>;base64,<payload>`. The URI opens with the
    scheme, the type follows it, and the payload closes it.
   */
  function DataUri(mimeType: string, payload: string): (u: string)
    ensures |u| == |DataScheme| + |mimeType| + |Base64Marker| + |payload|
    ensures u[..|DataScheme|] == DataScheme
    ensures u[|DataScheme|..|DataScheme| + |mimeType|] == mimeType
    ensures u[|u| - |payload|..] == payload
  {
    DataScheme + mimeType + Base64Marker + payload
  }

  /** The position of the first `c` in `s`. */
  function IndexOf(s: string, c: char): (r: Option<nat>)
    ensures r.None? <==> c !in s
    ensures r.Some? ==> r.value < |s| && s[r.value] == c && c !in s[..r.value]
  {
    if s == [] then None
    else if s[0] == c then Some(0)
    else
      match IndexOf(s[1..], c)
      case None => None
      case Some(k) =>
        assert s[..k + 1] == [s[0]] + s[1..][..k];
        Some(k + 1)
  }

  /** Skipping a prefix without `c` shifts the first `c` by the prefix's length. */
  lemma {:induction false} IndexOfAfter(a: string, b: string, c: char)
    requires c !in a
    ensures IndexOf(a + b, c) == match IndexOf(b, c) case None => None case Some(k) => Some(|a| + k)
  {
    if a != [] {
      assert (a + b)[0] == a[0] != c;
      assert (a + b)[1..] == a[1..] + b;
      IndexOfAfter(a[1..], b, c);
    } else {
      assert a + b == b;
    }
  }

  /**
    Reads a data URI back into its MIME type and payload: the type runs up
    to the first `;`, which must open the `;base64,` marker.
   */
  function ParseDataUri(uri: string): Option<(string, string)> {
    if !StartsWith(uri, DataScheme) then None
    else
      var rest := uri[|DataScheme|..];
      match IndexOf(rest, ';')
      case None => None
      case Some(k) =>
        if StartsWith(rest[k..], Base64Marker) then Some((rest[..k], rest[k + |Base64Marker|..]))
        else None
  }

  /** Splitting a concatenation at the first part's length gives the parts back. */
  lemma SplitAppend(a: string, b: string)
    ensures StartsWith(a + b, a)
    ensures (a + b)[..|a|] == a && (a + b)[|a|..] == b
  {
  }

  /** A MIME type without `;` and any payload survive the trip through a data URI. */
  lemma DataUriRoundTrip(mimeType: string, payload: string)
    requires ';' !in mimeType
    ensures ParseDataUri(DataUri(mimeType, payload)) == Some((mimeType, payload))
  {
    var tail := Base64Marker + payload;
    var rest := mimeType + tail;
    assert DataUri(mimeType, payload) == DataScheme + rest;
    SplitAppend(DataScheme, rest);
    IndexOfAfter(mimeType, tail, ';');
    assert IndexOf(tail, ';') == Some(0);
    SplitAppend(mimeType, tail);
    SplitAppend(Base64Marker, payload);
  }

  // ---------------------------------------------------------------------------
  // Renaming the analysis into ingredient records
  // ---------------------------------------------------------------------------

  /** One analysed item as an ingredient record: `ingredient` becomes `name`, and so on. */
  function ToIngredient(item: AnalysisItem): (g: Ingredient)
    ensures FromAnalysis(g) && ToItem(g) == item
  {
    Ingredient(item.ingredient, item.description, item.healthImpact, item.riskLevel,
               None, Some(item.purpose), item.safeAlternative)
  }

  /** A record that came out of `ToIngredient`: classified, with a purpose and no table alternatives. */
  predicate FromAnalysis(g: Ingredient) {
    g.riskLevel != Unknown && g.purpose.Some? && g.alternatives.None?
  }

  /** The inverse renaming. */
  function ToItem(g: Ingredient): AnalysisItem
    requires FromAnalysis(g)
  {
    AnalysisItem(g.name, g.description, g.purpose.value, g.riskLevel, g.healthImpact, g.safeAlternative)
  }

  /** The renamed list: same length and order, each record renamed from the item at its index. */
  function ToDetailed(items: seq<AnalysisItem>): (r: seq<Ingredient>)
    ensures |r| == |items|
    ensures forall i :: 0 <= i < |r| ==> FromAnalysis(r[i]) && ToItem(r[i]) == items[i]
  {
    seq(|items|, i requires 0 <= i < |items| => ToIngredient(items[i]))
  }

  /** Renaming loses nothing: the analysis can be read back from the records. */
  lemma ToDetailedRoundTrip(items: seq<AnalysisItem>)
    ensures
      var r := ToDetailed(items);
      seq(|r|, i requires 0 <= i < |r| => ToItem(r[i])) == items
  {
  }

  // ---------------------------------------------------------------------------
  // The risk trigger
  // ---------------------------------------------------------------------------

  /** Some record of `ings` is Medium or High. */
  predicate AnyHarmful(ings: seq<Ingredient>) {
    exists i :: 0 <= i < |ings| && IsHarmful(ings[i].riskLevel)
  }

  /** The names of the Medium and High records, in their original order. */
  function HarmfulNames(ings: seq<Ingredient>): (r: seq<string>)
    ensures |r| <= |ings|
    ensures forall n :: n in r <==> exists i :: 0 <= i < |ings| && IsHarmful(ings[i].riskLevel) && ings[i].name == n
    ensures r != [] <==> AnyHarmful(ings)
  {
    if ings == [] then []
    else
      var rest := HarmfulNames(ings[1..]);
      assert forall i :: 1 <= i < |ings| ==> ings[i] == ings[1..][i - 1];
      if IsHarmful(ings[0].riskLevel) then [ings[0].name] + rest else rest
  }

  /** The filter works record by record: it distributes over concatenation. */
  lemma {:induction false} HarmfulNamesAppend(a: seq<Ingredient>, b: seq<Ingredient>)
    ensures HarmfulNames(a + b) == HarmfulNames(a) + HarmfulNames(b)
  {
    if a == [] {
      assert a + b == b;
    } else {
      assert (a + b)[1..] == a[1..] + b;
      HarmfulNamesAppend(a[1..], b);
    }
  }

  /** On one record the filter keeps its name exactly when it is harmful. */
  lemma HarmfulNamesSingle(g: Ingredient)
    ensures HarmfulNames([g]) == if IsHarmful(g.riskLevel) then [g.name] else []
  {
  }

  /**
    The product suggestion step: invoked only when there are harmful names,
    with exactly those names; a throw or a missing list leaves no products.
   */
  function SuggestProducts(
    harmful: seq<string>,
    suggest: seq<string> -> Outcome<Option<seq<AlternativeProduct>>>): (r: Traced<seq<AlternativeProduct>>)
    ensures harmful == [] ==> r == Traced([], [])
    ensures harmful != [] ==> r.calls == [SuggestCall(harmful)]
    ensures r.value != [] ==> suggest(harmful) == Returns(Some(r.value))
    ensures harmful != [] && suggest(harmful).Returns? && suggest(harmful).value.Some? ==>
      r.value == suggest(harmful).value.value
  {
    if harmful == [] then Traced([], [])
    else
      var products :=
        match suggest(harmful)
        case Returns(Some(ps)) => ps
        case _ => [];
      Traced(products, [SuggestCall(harmful)])
  }

  // ---------------------------------------------------------------------------
  // The action
  // ---------------------------------------------------------------------------

  /** The file passes both checks: present and non-empty, with an `image/` type. */
  predicate PassesChecks(file: Option<File>) {
    file.Some? && |file.value.contents| > 0 && StartsWith(file.value.mimeType, ImagePrefix)
  }

  /** Collaborators are invoked in pipeline order, each at most once. */
  predicate PipelineOrder(calls: seq<Call>) {
    && |calls| <= 3
    && (|calls| > 0 ==> calls[0].ExtractCall?)
    && (|calls| > 1 ==> calls[1].AnalyzeCall?)
    && (|calls| > 2 ==> calls[2].SuggestCall?)
  }

  /** The names extraction yields, when there are any. */
  function ExtractedNames(out: Option<seq<string>>): (r: Option<seq<string>>)
    ensures r.Some? <==> out.Some? && out.value != []
    ensures r.Some? ==> r == out
  {
    if out.Some? && out.value != [] then out else None
  }

  /** `processImageAction`. */
  function ProcessImage(file: Option<File>, env: Collaborators): (r: Traced<ActionState>)
    ensures r.value.data.Some? <==> r.value.error.None?
    ensures r.value.data.Some? ==> r.value.message == Some(SuccessMessage)
    ensures r.value.data.None? ==> r.value.message.None?
    ensures (file.None? || |file.value.contents| == 0) ==> r == Traced(Failed(EmptyFileError), [])
    ensures file.Some? && |file.value.contents| > 0 && !StartsWith(file.value.mimeType, ImagePrefix) ==>
      r == Traced(Failed(InvalidTypeError), [])
    ensures r.calls != [] ==> PassesChecks(file)
    ensures PipelineOrder(r.calls)
  {
    if file.None? || |file.value.contents| == 0 then Traced(Failed(EmptyFileError), [])
    else if !StartsWith(file.value.mimeType, ImagePrefix) then Traced(Failed(InvalidTypeError), [])
    else if env.readFault.Some? then Traced(Failed(MessageOf(env.readFault.value)), [])
    else
      var uri := DataUri(file.value.mimeType, env.base64(file.value.contents));
      var extracted := [ExtractCall(uri)];
      match env.extract(uri)
      case Throws(e) => Traced(Failed(MessageOf(e)), extracted)
      case Returns(out) =>
        if ExtractedNames(out).None? then Traced(Failed(NoIngredientsError), extracted)
        else
          var analysis := GetIngredientsAnalysis(ExtractedNames(out), env.analyze);
          var analysed := extracted + analysis.calls;
          match analysis.value
          case Throws(e) => Traced(Failed(MessageOf(e)), analysed)
          case Returns(items) =>
            var detailed := ToDetailed(items);
            var products := SuggestProducts(HarmfulNames(detailed), env.suggest);
            Traced(
              ActionState(Some(ProcessedScanData(detailed, products.value)), None, Some(SuccessMessage)),
              analysed + products.calls)
  }

  /** The data URI the action builds for a file. */
  function UriOf(file: File, env: Collaborators): string {
    DataUri(file.mimeType, env.base64(file.contents))
  }

  /**
    The two file checks decide whether any collaborator can be invoked: a
    file that fails them ends the run with one of the two validation errors
    before any call, and a readable file that passes them reaches extraction.
   */
  lemma ChecksGateCollaborators(file: Option<File>, env: Collaborators)
    ensures !PassesChecks(file) ==>
      && ProcessImage(file, env).calls == []
      && ProcessImage(file, env).value.error in {Some(EmptyFileError), Some(InvalidTypeError)}
    ensures PassesChecks(file) && env.readFault.None? ==> ProcessImage(file, env).calls != []
  {
  }

  /**
    A file that passes validation but whose bytes cannot be read, or whose
    extraction throws or yields no names, ends the run with the matching
    error before analysis is invoked.
   */
  lemma EarlyFailures(file: Option<File>, env: Collaborators)
    requires PassesChecks(file)
    ensures
      var r := ProcessImage(file, env);
      var uri := UriOf(file.value, env);
      && (env.readFault.Some? ==> r == Traced(Failed(MessageOf(env.readFault.value)), []))
      && (env.readFault.None? && env.extract(uri).Throws? ==>
            r == Traced(Failed(MessageOf(env.extract(uri).exception)), [ExtractCall(uri)]))
      && (env.readFault.None? && env.extract(uri) in {Returns(None), Returns(Some([]))} ==>
            r == Traced(Failed(NoIngredientsError), [ExtractCall(uri)]))
  {
  }

  /** A throw from the analysis model call is not absorbed: the run fails with its message. */
  lemma AnalysisThrowFails(file: Option<File>, env: Collaborators, names: seq<string>)
    requires PassesChecks(file) && env.readFault.None?
    requires env.extract(UriOf(file.value, env)) == Returns(Some(names)) && names != []
    requires env.analyze(names).Throws?
    ensures
      ProcessImage(file, env) ==
        Traced(Failed(MessageOf(env.analyze(names).exception)),
               [ExtractCall(UriOf(file.value, env)), AnalyzeCall(names)])
  {
  }

  /**
    A successful run went through every stage: the file was valid and read,
    extraction was invoked on its data URI and gave names, analysis was
    invoked on exactly those names, and the detailed ingredients are the
    renamed analysis (none when the model gave no output).
   */
  lemma SuccessProvenance(file: Option<File>, env: Collaborators)
    ensures
      var r := ProcessImage(file, env);
      r.value.data.Some? ==>
        && PassesChecks(file)
        && env.readFault.None?
        && |r.calls| >= 2
        && r.calls[0] == ExtractCall(UriOf(file.value, env))
        && r.calls[1].AnalyzeCall?
        && var names := r.calls[1].ingredientNames;
        && names != []
        && env.extract(UriOf(file.value, env)) == Returns(Some(names))
        && match env.analyze(names)
           case Returns(Some(items)) => r.value.data.value.detailedIngredients == ToDetailed(items)
           case Returns(None) => r.value.data.value.detailedIngredients == []
           case Throws(_) => false
  {
  }

  /**
    The risk trigger: a successful run invokes the suggester exactly when a
    detailed ingredient is Medium or High, with exactly the names of those
    ingredients in their order; a failed run never invokes it.
   */
  lemma SuggesterInvokedIffHarmful(file: Option<File>, env: Collaborators)
    ensures
      var r := ProcessImage(file, env);
      && (r.value.data.Some? ==>
            (|r.calls| == 3 <==> AnyHarmful(r.value.data.value.detailedIngredients)))
      && (r.value.data.Some? && |r.calls| == 3 ==>
            r.calls[2] == SuggestCall(HarmfulNames(r.value.data.value.detailedIngredients)))
      && (r.value.data.None? ==> |r.calls| <= 2)
  {
  }

  /**
    The suggester cannot fail a run: replacing it by one that always throws
    or returns no list keeps success and the detailed ingredients, and only
    empties the alternatives.
   */
  lemma SuggesterFailureAbsorbed(
    file: Option<File>, env: Collaborators,
    broken: seq<string> -> Outcome<Option<seq<AlternativeProduct>>>)
    requires forall names :: broken(names).Throws? || broken(names) == Returns(None)
    ensures
      var r := ProcessImage(file, env);
      var b := ProcessImage(file, env.(suggest := broken));
      && (b.value.data.Some? <==> r.value.data.Some?)
      && (r.value.data.Some? ==>
            b.value == ActionState(Some(ProcessedScanData(r.value.data.value.detailedIngredients, [])), None, Some(SuccessMessage)))
      && (r.value.data.None? ==> b.value == r.value)
  {
  }

  /**
    The worked example: extraction reads Water, Paraben and Fragrance, the
    analysis rates them Low, Medium and High, and the mock suggester is asked
    about Paraben and Fragrance only.
   */
  lemma WaterParabenFragrance(file: Option<File>, env: Collaborators, water: AnalysisItem, paraben: AnalysisItem, fragrance: AnalysisItem)
    requires PassesChecks(file) && env.readFault.None?
    requires env.extract(UriOf(file.value, env)) == Returns(Some(["Water", "Paraben", "Fragrance"]))
    requires water.ingredient == "Water" && water.riskLevel == Low
    requires paraben.ingredient == "Paraben" && paraben.riskLevel == Medium
    requires fragrance.ingredient == "Fragrance" && fragrance.riskLevel == High
    requires env.analyze(["Water", "Paraben", "Fragrance"]) == Returns(Some([water, paraben, fragrance]))
    ensures
      var r := ProcessImage(file, env);
      && r.value.data.Some?
      && |r.value.data.value.detailedIngredients| == 3
      && |r.calls| == 3
      && r.calls[2] == SuggestCall(["Paraben", "Fragrance"])
  {
    var detailed := ToDetailed([water, paraben, fragrance]);
    assert detailed == [ToIngredient(water)] + [ToIngredient(paraben)] + [ToIngredient(fragrance)];
    HarmfulNamesAppend([ToIngredient(water)] + [ToIngredient(paraben)], [ToIngredient(fragrance)]);
    HarmfulNamesAppend([ToIngredient(water)], [ToIngredient(paraben)]);
  }
}
