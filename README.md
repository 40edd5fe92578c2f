# Geotechnical assistant core, modelled in Dafny

The system is a geotechnical-engineering assistant built from three agents over a hosted
language model:

- a chat agent that answers questions under an expert system prompt;
- an extraction agent that reads a PDF, asks the model for a JSON summary and validates it
  as a `DocumentSummary` record;
- a report agent that asks for a report, optionally quoting earlier summaries, and validates
  the reply as a `Report` record.

A shared cleaner strips Markdown code fences from the model's replies. A small tool checks
soil parameters against typical ranges.

This project models that core:

- `Text.dfy`: the Python string built-ins the core relies on. These are `str.strip()` with
  `str.isspace()`'s whitespace set, `startswith`, `endswith`, `str.join` and `str()` of an int.
- `JsonValue.dfy`: the JSON value `json.loads` produces.
- `Models.dfy`: the five pydantic records.
  - How pydantic validates them out of a JSON value: required fields, Optional fields, nested
    records, lists and dicts.
  - The JSON value each record serialises to, with round-trip lemmas.
- `Prompts.dfy`: the three prompt builders, and where each argument lands in the prompt.
- `Agents.dfy`:
  - `clean_response`;
  - `validate`, as a loop proved against a recursive specification;
  - the three `execute` pipelines. The model gateway, the PDF loader and `json.loads` are
    function parameters, so the lemmas hold for every answer they give.
- `Wrappers.dfy`: `Option` and `Result`.

Three behaviours of the code are easy to misread, and the model follows the code:

- `clean_response` is not idempotent. `Agents.CleanNotIdempotent` shows a doubled closing
  fence losing one fence per call.
- The docstring at agents.py:31 speaks of removing `` ```json `` or `` ``` `` markers, but
  agents.py:33 removes only a leading `` ```json ``. A bare `` ``` `` opener, or one such as
  `` ```python ``, stays in place (`Agents.CleanBareFence`).
- The analysis prompt tells the model at prompts.py:37 that `test_results` is an "empty dict
  if not specified". But models.py:27 declares the field with `Field(...)` and no default, so
  a reply that leaves it out fails validation (`Models.DocumentSummaryFields`).

## Model

| member | source | states |
|---|---|---|
| Text.Join | agents.py:71 | `sep.join(parts)`, used with a space at agents.py:71 and a newline at agents.py:92; its contract is carried by the `Text.JoinPartAt`, `Text.JoinSepAfter` and `Text.JoinEndsWithLast` rows |
| Text.IntToString | agents.py:46 | `str()` of an int, as the warning f-string renders a value; its contract is carried by the `Text.NatToString` and `Text.IntToStringRoundTrip` rows |
| Text.Strip | agents.py:32 | `strip()` returns the slice of its input left after removing leading and trailing whitespace (Python's `isspace` set), and that slice has no outer whitespace |
| Text.StripUnique | agents.py:32 | only one slice of a string has that characterisation, so the result of `strip()` is determined by it |
| Text.StripEmptyIff | agents.py:32 | `strip()` gives the empty string exactly when the input is all whitespace |
| Text.StripNoOuterSpace | agents.py:34 | `strip()` leaves a string without outer whitespace unchanged |
| Text.TrimStartShape | agents.py:32 | the leading-whitespace pass keeps a suffix, drops only whitespace, and stops at a non-space character |
| Text.TrimEndShape | agents.py:32 | the trailing-whitespace pass keeps a prefix, drops only whitespace, and stops at a non-space character |
| Text.JoinPartAt | agents.py:71 | `sep.join(parts)` holds every part verbatim at its offset, in list order |
| Text.JoinSepAfter | agents.py:71 | each part but the last is followed by exactly one separator |
| Text.JoinEndsWithLast | agents.py:71 | nothing follows the last part |
| Text.NatToString | agents.py:46 | `str()` of a natural number is a non-empty string of decimal digits with no leading zero |
| Text.IntToStringRoundTrip | agents.py:46 | the decimal text `str()` gives for an int reads back as that int |
| Agents.CleanResponse | agents.py:30-37 | a cleaned reply never starts or ends with whitespace |
| Agents.CleanWithoutFences | agents.py:32-37 | a reply whose stripped form has no `` ```json `` opener and no `` ``` `` closer is only stripped |
| Agents.CleanFenced | agents.py:32-36 | `` ```json `` + body + `` ``` `` cleans to the stripped body |
| Agents.CleanBareFence | agents.py:33-36 | `` ``` `` + body + `` ``` `` keeps its opener: only the closer and trailing whitespace go |
| Agents.CleanDropsOneFence | agents.py:35-36 | one call removes exactly one closing fence |
| Agents.CleanNotIdempotent | agents.py:30-37 | cleaning twice differs from cleaning once when the reply ends in two fences |
| Agents.ValidationMessage | agents.py:42-47 | what `validate` returns, as a recursive specification; its contract is carried by the `Agents.Validate`, `Agents.ValidationWithinIff`, `Agents.ValidationFirstWarning` and `Agents.ValidationIgnoresUnknownKeys` rows |
| Agents.Warning | agents.py:46 | the warning f-string; its contract is carried by the `Agents.WarningLayout`, `Agents.WarningDeterminesEntry` and `Agents.CohesionWarningExample` rows |
| Agents.Validate | agents.py:42-47 | the loop returns the message `ValidationMessage` specifies: the warning for the first out-of-range entry in iteration order, else the success message |
| Agents.ValidationWithinIff | agents.py:44-47 | the success message is returned if and only if no recognised key is strictly outside its closed range; boundaries, unknown keys and the empty dict pass |
| Agents.ValidationFirstWarning | agents.py:44-46 | otherwise the warning is for the first out-of-range entry |
| Agents.ValidationIgnoresUnknownKeys | agents.py:45 | entries whose key has no range do not affect the result |
| Agents.WarningLayout | agents.py:46 | the warning holds the key, then `str()` of the value, then the range tuple as Python prints it |
| Agents.WarningDeterminesEntry | agents.py:46 | key and value can be read back from a warning: different entries give different warnings |
| Agents.CohesionWarningExample | agents.py:43-46 | cohesion 60 gives `Warning: cohesion (60 kPa) outside typical range (0, 50).` |
| Agents.WithinRangesExamples | agents.py:43-47 | in-range values and an unknown key give the success message |
| Agents.BoundaryExamples | agents.py:45 | both ends of each range pass; one past either end is out of range |
| Agents.ChatExecute | agents.py:60-62 | `ChatAgent.execute`; its contract is carried by the `Agents.ChatUncleaned` row |
| Agents.ExtractExecute | agents.py:68-84 | `ExtractionAgent.execute`; its contract is carried by the `Agents.ExtractionPromptPageAt`, `Agents.ExtractionPromptSpaceAfter`, `Agents.ExtractionPromptNoPages`, `Agents.ExtractOutcome` and `Agents.ExtractFencedReply` rows |
| Agents.ChatUncleaned | agents.py:60-62 | the chat reply is the gateway's answer to the expert prompt, not cleaned, and a gateway error propagates |
| Agents.ExtractionPromptPageAt | agents.py:69-72 | every page's text appears verbatim in the analysis prompt, in page order |
| Agents.ExtractionPromptSpaceAfter | agents.py:71 | consecutive pages are separated by exactly one space |
| Agents.ExtractionPromptNoPages | agents.py:71-72 | a document without pages sends exactly the fixed instructions |
| Agents.ExtractOutcome | agents.py:68-84 | extraction succeeds only when loading, the gateway, JSON parsing of the cleaned reply and schema validation all succeed; each failure is raised with its cause and no partial summary is returned |
| Agents.ExtractFencedReply | agents.py:73-80 | a gateway reply wrapped in a `` ```json `` fence reaches `json.loads` and the schema as its stripped body, whether or not it then parses and validates |
| Agents.ReferencedDocuments | agents.py:92 | the Documents argument of the report prompt; its contract is carried by the `Agents.ReportWithoutSummaries`, `Agents.ReportSummaryAt` and `Agents.ReportSummaryNewlineAfter` rows |
| Agents.ReportExecute | agents.py:91-105 | `ReportAgent.execute`; its contract is carried by the `Agents.ReportDocumentsSlot`, `Agents.ReportOutcome` and `Agents.ReportFencedReply` rows |
| Agents.ReportWithoutSummaries | agents.py:92-93 | with no summaries, or an empty list, the Documents slot reads `None` |
| Agents.ReportSummaryAt | agents.py:92 | otherwise each rendered summary appears verbatim in the documents text, in list order |
| Agents.ReportSummaryNewlineAfter | agents.py:92 | consecutive summaries are separated by exactly one newline |
| Agents.ReportDocumentsSlot | agents.py:92-93 | non-empty joined summaries fill the prompt's Documents slot unchanged |
| Agents.ReportOutcome | agents.py:91-105 | report generation succeeds only when the gateway answers and the cleaned reply parses and validates as a `Report`; each failure is raised with its cause |
| Agents.ReportFencedReply | agents.py:94-101 | a gateway reply wrapped in a `` ```json `` fence reaches `json.loads` and the schema as its stripped body, whether or not it then parses and validates |
| Prompts.ExpertPrompt | prompts.py:1-15 | the expert prompt builder; its contract is carried by the `Prompts.ExpertPromptLayout`, `Prompts.ExpertPromptHistoryInjective` and `Prompts.ExpertPromptEmptyHistory` rows |
| Prompts.AnalysisPrompt | prompts.py:17-67 | the analysis prompt builder; its contract is carried by the `Prompts.AnalysisPromptLayout` and `Prompts.AnalysisPromptInjective` rows |
| Prompts.ReportPrompt | prompts.py:69-96 | the report prompt builder; its contract is carried by the `Prompts.DocumentsSlot`, `Prompts.ReportPromptSlots` and `Prompts.ReportPromptFixedText` rows |
| Prompts.ExpertPromptLayout | prompts.py:15 | the expert prompt is the instructions, `\nChat History:\n`, the history, `\nQuery: ` and the query, so it ends with the query |
| Prompts.ExpertPromptHistoryInjective | prompts.py:15 | different histories give different prompts |
| Prompts.ExpertPromptEmptyHistory | prompts.py:15 | an empty history keeps both headers |
| Prompts.AnalysisPromptLayout | prompts.py:67 | the analysis prompt is the instructions followed by the content; empty content gives exactly the instructions |
| Prompts.AnalysisPromptInjective | prompts.py:67 | different contents give different prompts |
| Prompts.DocumentsSlot | prompts.py:85 | Python's `or 'None'`: the slot is the text itself unless it is missing or empty, which give `None` |
| Prompts.ReportPromptSlots | prompts.py:70-96 | report type, project info, parameters and documents appear verbatim at their offsets, in this order, and the prompt ends with the closing text |
| Prompts.ReportPromptFixedText | prompts.py:70-96 | the fixed text between the slots is unchanged whatever the arguments |
| Models.DecodeSoilLayer | models.py:4-8 | validation of a `SoilLayer`; its contract is carried by the `Models.SoilLayerFields` and `Models.SoilLayerRoundTrip` rows |
| Models.DecodeProjectInfo | models.py:10-13 | validation of a `ProjectInfo`; its contract is carried by the `Models.ProjectInfoFields` and `Models.ProjectInfoRoundTrip` rows |
| Models.DecodeHazardInfo | models.py:15-20 | validation of a `HazardInfo`; its contract is carried by the `Models.HazardInfoEmpty` and `Models.HazardInfoRoundTrip` rows |
| Models.DecodeDocumentSummary | models.py:22-32 | validation of a `DocumentSummary`; its contract is carried by the `Models.DocumentSummaryFields`, `Models.DocumentSummaryFieldwise`, `Models.DocumentSummaryRoundTrip` and `Models.WorkedExampleValidates` rows |
| Models.DecodeReport | models.py:34-40 | validation of a `Report`; its contract is carried by the `Models.ReportFields`, `Models.ReportIgnoresExtraKeys` and `Models.ReportRoundTrip` rows |
| Models.DecodeEach | models.py:25 | a list validates exactly when every element does, to the elements' values in order |
| Models.DecodeTestResults | models.py:27 | a `Dict[str, float]` validates exactly when every value is a number, keeping the same keys |
| Models.SoilLayerFields | models.py:4-8 | a soil layer needs both depths and the soil type; strength may be absent or null, and absent gives None |
| Models.ProjectInfoFields | models.py:10-13 | project info needs a location; absent client or date give None |
| Models.HazardInfoEmpty | models.py:15-20 | an empty object validates to hazard info with every field None |
| Models.DocumentSummaryFields | models.py:22-32 | a summary without doc_type, project_info, soil_profile, test_results or confidence fails; absent optional fields give None |
| Models.ReportFields | models.py:34-40 | a report validates exactly when all six fields are strings |
| Models.ReportIgnoresExtraKeys | models.py:34-40 | keys a report does not declare are ignored |
| Models.SoilLayerRoundTrip | models.py:4-8 | a soil layer validates back from its JSON form |
| Models.ProjectInfoRoundTrip | models.py:10-13 | project info validates back from its JSON form |
| Models.HazardInfoRoundTrip | models.py:15-20 | hazard info validates back from its JSON form |
| Models.TestResultsRoundTrip | models.py:27 | test results validate back from their JSON form |
| Models.SoilProfileRoundTrip | models.py:25 | a list of soil layers validates back, element by element |
| Models.DocumentSummaryFieldwise | models.py:22-32 | a summary validates to a record exactly when each of its ten fields validates to that record's component |
| Models.DocumentSummaryRoundTrip | models.py:22-32 | a document summary validates back from its JSON form, with None fields coming back as None |
| Models.ReportRoundTrip | models.py:34-40 | a report validates back from its JSON form |
| Models.WorkedExampleValidates | prompts.py:63 | the example output in the analysis prompt is a valid summary, with an empty soil profile and empty test results |

## Left out

- The gateway, the PDF loader and `json.loads` are passed in as function parameters. The
  tokeniser and the network calls are not modelled, and neither is the API key read from the
  environment.
- The `logger.info`, `logger.debug` and `logger.error` calls produce no value and are left out.
- The instruction text of the three prompts is an uninterpreted string constant. The lemmas
  locate every argument by that text's length, so they hold whatever the literal text is.
  The two short labels around the parameters and documents slots are written out.
- `str(summary)` in the report agent is a function parameter, and the summaries' type is a
  type parameter. The chat front end passes `DocumentSummary` records. The HTTP front end
  passes the request's raw dicts (fastapi_app.py:34-35). Neither pydantic's printed form of a
  record nor Python's printed form of a dict is modelled.
- Validation stops at the first failing field. Pydantic collects every error, so the model
  reports only one of them.
- Validation uses pydantic's strict shapes: a `str` field takes only a JSON string and a
  `float` field only a JSON number, integer or not (a `Json.Number` holds a real). Lax
  coercions are not modelled: pydantic's default mode accepts `true` or `"150"` for a
  `float` field, and the model rejects both.
- Agents.Validate: parameter values are Python ints, so that `str()` of a value can be
  written out exactly. Float values, and the `TypeError` a non-numeric value raises, are not
  modelled.
- A JSON object is a map, so duplicate keys in the reply text are not represented.
- The depth fields of a soil layer are any numbers. The source does not check that a start
  depth lies above its end depth, and neither does the model.
- The `ValidationTool` registration (its name, description and the `Tool` base class) is not
  modelled. The report agent lists the tool, but `execute` never calls it.
- The web front ends (`streamlit_app.py`, `fastapi_app.py`) are not part of this model. That
  includes how the chat front end formats the history string.
