# BehindYourLabel ingredient scanner — a Dafny model

BehindYourLabel is a web app. A user photographs the ingredient list of a
cosmetic or food product. A server action turns the photo into ingredient
names, has each one analysed and risk-rated (Low, Medium or High), and asks
for safer whole products when something is Medium or High. The browser keeps
the ten most recent scans. This project models the sequential logic of the
app and proves properties of it:

- the local ingredient knowledge base and its normalise-then-look-up rule
  (`KnowledgeBase`, `KnowledgeBaseFacts`, `PrototypeLookup`);
- the batch analysis wrapper and its fallbacks (`IngredientsAnalysis`);
- the server action `processImageAction`, with its validation order, data
  URI, risk trigger and error folding (`Actions`);
- the two deterministic mock tools behind the AI prompts: the
  alternative-product generator (`AlternativesTool`) and the synonym table
  (`SynonymsTool`), and how the synonym table lines up with the knowledge
  base (`SynonymCoverage`);
- the upload form's history insertion and notices (`UploadForm`);
- the history page's delete, clear-all and badge label (`ScanHistory`).

`Types` holds the records of `src/lib/types.ts` and the modelling vocabulary.

The AI steps are modelled as parameters that either throw or return a value
(`Outcome`): extraction, analysis and suggestion, plus reading the file's
bytes. Every run returns a trace of which collaborators it invoked and with
which argument, so "the suggester is not invoked" is a statement about the
trace. Strings are sequences of characters. Lower-casing and trimming cover
the ASCII letters and the six ASCII whitespace characters.

Behaviours of the code worth knowing:

- A throw from the analysis model call is not absorbed. The wrapper only
  turns a missing output into an empty list. A throw reaches the action's
  catch, and the run fails with the exception's message (`Actions.AnalysisThrowFails`).
- The records of `sles` and `sodium lauryl ether sulfate` share one
  health-impact text. `sodium laureth sulfate` has a different one. All
  three are Medium and are three separate table entries.
- The records built from the analysis also carry `purpose` and
  `safe_alternative`, which the `Ingredient` type does not declare. They
  never carry `alternatives`.
- An exception whose message is the empty string fails the run with error
  `""`. The form treats that as falsy and shows no notice at all
  (`UploadForm.RunThenEffect`).

## Model

| member | source | states |
|---|---|---|
| KnowledgeBase.Normalize | src/lib/ingredient-data.ts:144 | The lookup key: the name lower-cased, then trimmed. Its properties are stated by the lemmas below (`NormalizeSpec`, `NormalizeIgnoresPadding`, `NormalizeFixesKeys`) |
| KnowledgeBase.TrimStartSpec | src/lib/ingredient-data.ts:144 | Trimming the start keeps a suffix of the name that starts with a non-space, and everything it drops is whitespace |
| KnowledgeBase.TrimEndSpec | src/lib/ingredient-data.ts:144 | Trimming the end keeps a prefix of the name that ends with a non-space, and everything it drops is whitespace |
| KnowledgeBase.TrimSpec | src/lib/ingredient-data.ts:144 | `trim` keeps a contiguous part of the name with no whitespace at either end, and everything around it is whitespace |
| KnowledgeBase.NormalizeSpec | src/lib/ingredient-data.ts:144 | The lookup key has no upper-case letter and no surrounding whitespace, and it is the lower-cased name with only whitespace cut off |
| KnowledgeBase.UnknownIngredient | src/lib/ingredient-data.ts:156-162 | The miss record keeps the caller's name, is rated Unknown, and carries no alternatives, purpose or safer alternative |
| KnowledgeBase.TableHasNoUnknown | src/lib/ingredient-data.ts:4-141 | No record of the table is rated Unknown |
| KnowledgeBase.Lookup | src/lib/ingredient-data.ts:143-163 | Total. The result keeps the caller's spelling of the name. On a hit it copies description, health impact, risk level and alternatives unchanged from the entry. On a miss it is the Unknown record with the two sentinel texts and no alternatives |
| KnowledgeBase.LookupDependsOnlyOnKey | src/lib/ingredient-data.ts:144-145 | Two names with the same key get the same record, apart from the name |
| KnowledgeBase.LookupSameEntry | src/lib/ingredient-data.ts:145-154 | Two keys holding the same entry give the same record, apart from the name |
| KnowledgeBase.LookupRisk | src/lib/ingredient-data.ts:145-154 | On a hit the record's risk level is the table entry's |
| KnowledgeBase.TrimIgnoresPadding | src/lib/ingredient-data.ts:144 | Surrounding whitespace does not change the trimmed name |
| KnowledgeBase.NormalizeFixesKeys | src/lib/ingredient-data.ts:144 | A lower-case, trimmed key normalises to itself |
| KnowledgeBase.LookupIgnoresCase | src/lib/ingredient-data.ts:144-145 | Upper-casing a name does not change its record, apart from the name |
| KnowledgeBase.NormalizeIgnoresPadding | src/lib/ingredient-data.ts:144 | Surrounding whitespace does not change a name's key |
| KnowledgeBase.LookupIgnoresPadding | src/lib/ingredient-data.ts:144-145 | Surrounding whitespace does not change a name's record, apart from the name |
| KnowledgeBaseFacts.UnknownExactlyOnMiss | src/lib/ingredient-data.ts:143-163 | A lookup is rated Unknown exactly when the key is not in the table |
| KnowledgeBaseFacts.ParabenSpellings | src/lib/ingredient-data.ts:5-10 | " paraben ", "PARABEN" and "Paraben" share the key "paraben", which is in the table and rated Medium |
| KnowledgeBaseFacts.EdtaKeys | src/lib/ingredient-data.ts:29-40 | "edta" and "ethylenediaminetetraacetic acid" are both keys and hold the same entry |
| KnowledgeBaseFacts.EdtaAliases | src/lib/ingredient-data.ts:29-40 | Names keyed "edta" and "ethylenediaminetetraacetic acid" get field-identical Low records |
| KnowledgeBaseFacts.SlesKeys | src/lib/ingredient-data.ts:41-58 | The three names of sodium laureth sulfate are three separate entries of the table |
| KnowledgeBaseFacts.SlesEntriesMedium | src/lib/ingredient-data.ts:41-58 | Each of the three sodium laureth sulfate names is a key whose entry is rated Medium |
| KnowledgeBaseFacts.SlesHealthImpactShared | src/lib/ingredient-data.ts:47-58 | The entries of "sles" and "sodium lauryl ether sulfate" carry the same health-impact text |
| KnowledgeBaseFacts.SlesRisk | src/lib/ingredient-data.ts:41-58 | Any name keyed by one of the three sodium laureth sulfate names is rated Medium |
| PrototypeLookup.LookupAsWritten | src/lib/ingredient-data.ts:145-146 | As the code runs: an inherited property name counts as a hit and gives a record that keeps the name and has every table field undefined (no texts, no risk level, no alternatives); every other name behaves as `Lookup` |
| PrototypeLookup.ConstructorIsMisclassified | src/lib/ingredient-data.ts:145-162 | "Constructor" gets no risk level at all from the code as written, while the intended lookup gives the Unknown record |
| IngredientsAnalysis.AnalysisFlow | src/ai/flows/get-ingredients-analysis.ts:81-99 | One model call on the names. A throw propagates with its exception. A missing output becomes the empty list. A present output is passed on unchanged |
| IngredientsAnalysis.GetIngredientsAnalysis | src/ai/flows/get-ingredients-analysis.ts:32-37 | Missing or empty names give an empty list with no model call. Otherwise the flow runs. At most one call. Every returned item comes from a call on exactly those names, and none is Unknown |
| AlternativesTool.AlternativeFor | src/ai/flows/suggest-safer-alternatives.ts:62-66 | The record for an ingredient follows the template in all three texts, and its target is that ingredient |
| AlternativesTool.AlternativeForOfTarget | src/ai/flows/suggest-safer-alternatives.ts:63-65 | Every record that follows the template is the one generated for its target ingredient |
| AlternativesTool.AlternativeForInjective | src/ai/flows/suggest-safer-alternatives.ts:63-65 | Different ingredients give different records |
| AlternativesTool.AlternativeProducts | src/ai/flows/suggest-safer-alternatives.ts:60-68 | One record per ingredient, in input order, each templated for the ingredient at its index; an empty input gives an empty output |
| AlternativesTool.TargetsOfProducts | src/ai/flows/suggest-safer-alternatives.ts:62-67 | The ingredient list can be read back from the tool's output |
| AlternativesTool.AlternativeProductsAppend | src/ai/flows/suggest-safer-alternatives.ts:62-67 | The tool works one ingredient at a time: it distributes over concatenation |
| SynonymsTool.Synonyms | src/ai/flows/extract-ingredients.ts:45-52 | Total. A key spelled exactly gives its list, which is non-empty. Any other input gives the empty list |
| SynonymsTool.SynonymExamples | src/ai/flows/extract-ingredients.ts:45-52 | "Sodium Laureth Sulfate" and "EDTA" give their lists. "sodium laureth sulfate" and the synonym "Parfum" give nothing, because matching is exact and one-way |
| SynonymsTool.SynonymsAreNotKeys | src/ai/flows/extract-ingredients.ts:45-50 | No synonym is itself a key |
| SynonymCoverage.AllSynonymsKnownLocally | src/ai/flows/extract-ingredients.ts:45-50 | Every key of the synonym table, and every synonym it lists, normalises to a key of the local ingredient table |
| SynonymCoverage.SodiumLaurethSulfateKnown | src/ai/flows/extract-ingredients.ts:46 | "Sodium Laureth Sulfate", "SLES" and "Sodium Lauryl Ether Sulfate" are all found in the local table |
| SynonymCoverage.ParabenKnown | src/ai/flows/extract-ingredients.ts:47 | "Paraben" and its three named parabens are all found in the local table |
| SynonymCoverage.FragranceKnown | src/ai/flows/extract-ingredients.ts:48 | "Fragrance", "Parfum" and "Aroma" are all found in the local table |
| SynonymCoverage.EdtaKnown | src/ai/flows/extract-ingredients.ts:49 | "EDTA" and "Ethylenediaminetetraacetic Acid" are both found in the local table |
| Actions.MessageOf | src/lib/actions.ts:83-85 | A caught exception gives its message when it has one, and the generic text otherwise |
| Actions.DataUri | src/lib/actions.ts:11-16 | The URI opens with `data:`, continues with the MIME type, and ends with the payload; its length is the sum of the four parts |
| Actions.DataUriRoundTrip | src/lib/actions.ts:11-16 | The MIME type and the base64 payload can be read back from the data URI when the type has no `;` |
| Actions.ToIngredient | src/lib/actions.ts:45-52 | The renamed record is classified, has a purpose and no table alternatives, and renaming it back gives the analysed item |
| Actions.ToDetailed | src/lib/actions.ts:45-52 | Same length and order as the analysis. Each record is the renamed item at its index, rated Low, Medium or High, with a purpose and no table alternatives |
| Actions.ToDetailedRoundTrip | src/lib/actions.ts:45-52 | The renaming loses nothing: the analysis can be read back from the records |
| Actions.HarmfulNames | src/lib/actions.ts:56-58 | A name is selected exactly when some Medium or High record carries it. The list is non-empty exactly when such a record exists, and it is no longer than the input |
| Actions.HarmfulNamesAppend | src/lib/actions.ts:56-58 | The filter distributes over concatenation, so selected names keep their order |
| Actions.SuggestProducts | src/lib/actions.ts:54-70 | No harmful names: no call and no products. Otherwise one call with exactly those names. Products exist only when the call returned them; a throw or a missing list leaves none |
| Actions.PassesChecks | src/lib/actions.ts:24-30 | The two file checks: a present, non-empty file with an `image/` type. `ChecksGateCollaborators` states what they decide |
| Actions.ChecksGateCollaborators | src/lib/actions.ts:24-37 | A file that fails the checks ends the run with one of the two validation errors before any call; a readable file that passes them reaches extraction |
| Actions.ExtractedNames | src/lib/actions.ts:36-38 | Extraction yields names exactly when its output is present and non-empty, and then they are the output unchanged |
| Actions.ProcessImage | src/lib/actions.ts:18-88 | Data is present exactly when the error is absent, and then the message is the success text. A missing or empty file fails with the empty-file error before any call. A non-image file fails with the type error before any call. Calls happen only for a valid file, in pipeline order, each at most once |
| Actions.EarlyFailures | src/lib/actions.ts:32-38 | A read fault fails with its message and no call. An extraction throw fails with its message after the one extraction call. A missing or empty extraction gives the no-ingredients error without invoking analysis |
| Actions.AnalysisThrowFails | src/lib/actions.ts:43-87 | A throw from the analysis call fails the run with the exception's message after the extraction and analysis calls |
| Actions.SuccessProvenance | src/lib/actions.ts:33-79 | A successful run had a valid, readable file. Extraction ran on its data URI and gave names, and analysis ran on exactly those names. The detailed ingredients are the renamed analysis, or none when the model gave no output |
| Actions.SuggesterInvokedIffHarmful | src/lib/actions.ts:56-70 | A successful run invokes the suggester exactly when some detailed ingredient is Medium or High, with exactly their names in order. A failed run never invokes it |
| Actions.SuggesterFailureAbsorbed | src/lib/actions.ts:54-70 | A suggester that always throws or returns no list does not change whether a run succeeds or its detailed ingredients. It only empties the alternatives |
| Actions.WaterParabenFragrance | src/lib/actions.ts:35-70 | Water, Paraben and Fragrance rated Low, Medium and High lead to a successful run with three records, and the suggester is asked about Paraben and Fragrance only |
| UploadForm.NewScan | src/components/ImageUploadForm.tsx:66-73 | The scan carries the run's ingredients and alternatives. It has an image URL exactly when there is a non-empty preview. Its file name is the given one, or "Uploaded Image" when that is missing or empty. Id and timestamp come from the clock readings |
| UploadForm.InsertScan | src/components/ImageUploadForm.tsx:74 | The new scan is first and is followed by the nine newest older scans in order. Length is 1 + min(9, old length), never above ten. The result is the newest ten of new-then-old |
| UploadForm.InsertAllKeepsNewest | src/components/ImageUploadForm.tsx:74 | After recording any number of scans, the history is the newest ten of all scans seen, newest first |
| UploadForm.OnFormState | src/components/ImageUploadForm.tsx:64-95 | Only a state with data changes the history, and it adds one scan holding that data. Success is reported exactly when there is data. An error notice appears exactly when there is no data and a non-empty error. A general notice appears exactly when there is neither data nor an error but a non-empty message |
| UploadForm.RunThenEffect | src/components/ImageUploadForm.tsx:64-93 | After any run, the form either records a scan and reports success, or leaves the history unchanged. A failure is reported as an error unless its message is empty, in which case nothing is shown |
| ScanHistory.DeleteScan | src/components/ScanHistoryClientPage.tsx:32-34 | No remaining scan has the id, and the history never grows |
| ScanHistory.DeleteScanMembers | src/components/ScanHistoryClientPage.tsx:33 | A scan remains exactly when it was there and has another id |
| ScanHistory.DeleteScanLength | src/components/ScanHistoryClientPage.tsx:33 | The length drops by exactly the number of scans with that id |
| ScanHistory.DeleteScanAppend | src/components/ScanHistoryClientPage.tsx:33 | Deletion distributes over concatenation, so the remaining scans keep their relative order |
| ScanHistory.DeleteScanAbsent | src/components/ScanHistoryClientPage.tsx:33 | Deleting an id no scan carries leaves the history unchanged |
| ScanHistory.DeleteScanIdempotent | src/components/ScanHistoryClientPage.tsx:33 | Deleting the same id twice is deleting it once |
| ScanHistory.DeleteScanShrinks | src/components/ScanHistoryClientPage.tsx:33 | Deletion shortens the history exactly when the id is present |
| ScanHistory.DeleteAllScans | src/components/ScanHistoryClientPage.tsx:36-38 | Clearing leaves an empty history whatever it held |
| ScanHistory.BadgeLabel | src/components/ScanHistoryClientPage.tsx:40-51 | The label is always one of Low, Medium, High and Unknown, and it is either the stored value itself or Unknown |
| ScanHistory.BadgeLabelNames | src/components/ScanHistoryClientPage.tsx:40-51 | Low, Medium, High and Unknown label as themselves. A stored value labels as itself exactly when it is one of those four names, and anything else labels as Unknown |

## Findings

| source | as written | input that shows it | evidently intended | confidence | as-written member | corrected member |
|---|---|---|---|---|---|---|
| src/lib/ingredient-data.ts:145-146 | The table is a plain object indexed by the normalised name. Inherited property names whose spelling survives lower-casing and trimming ("constructor", "\_\_proto\_\_") count as hits, and the record is built from undefined fields | `getIngredientDetails("Constructor")` | A miss: the Unknown record with the sentinel texts | not executed; high | PrototypeLookup.LookupAsWritten, PrototypeLookup.ConstructorIsMisclassified | KnowledgeBase.Lookup, KnowledgeBaseFacts.UnknownExactlyOnMiss |

## Left out

- Unicode case mapping and whitespace: `toLowerCase` and `trim` are modelled on ASCII letters and the six ASCII whitespace characters only.
- Base64 encoding: the encoder is a parameter. Only the `data:<type>;base64,<payload>` shape is modelled.
- Reading the file's bytes: modelled as a parameter that may throw.
- AI prompt and flow machinery: prompts, tool dispatch, safety settings and schema validation are parameters returning an outcome. Nothing is claimed about what a model returns, for example that the analysis has one item per name.
- `src/ai/flows/get-ingredient-info.ts`: the current pipeline does not call it.
- Supabase authentication, the login form and the header: network and session I/O.
- localStorage persistence and the clock: the stored history is a parameter, and the scan's id and timestamp are parameters.
- Rendering, toasts' icons and texts other than their kind and description, dialogs, pages and loading states.
- Async scheduling and React effect timing: everything is a sequential function.
- The form's file-change and remove-image handlers: they only set the preview and file name, which are parameters here.
- A form value that is not a `File`, and `String()` of a non-string exception message: the message is taken as already converted.
- `KnowledgeBase.Description`, `KnowledgeBase.HealthImpact` and `KnowledgeBase.Alternatives` carry the table's texts verbatim. No lemma states that the health-impact text of `sodium laureth sulfate` differs from that of `sles`, because proving two long string literals unequal is too costly for the verifier here. The shared text of `sles` and `sodium lauryl ether sulfate` is stated (`KnowledgeBaseFacts.SlesHealthImpactShared`).
- SynonymsTool.Synonyms: the synonym table is also a plain object, so an inherited name such as "constructor" returns a non-list there. The model returns the empty list for every non-key.
