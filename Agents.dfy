/** The three agents of agents.py, the response cleaner they share, and the parameter
    check exposed as the validate_parameters tool.

    The language-model gateway, the PDF loader and json.loads are outside the model: each
    execute pipeline takes them as function parameters, so every property below holds
    whatever the gateway answers. */
module Agents {
  import opened Wrappers
  import opened Text
  import opened JsonValue
  import opened Models
  import opened Prompts

  // ---------------------------------------------------------------------------
  // clean_response

  const JsonFence: string := "```json"
  const Fence: string := "```"

  /** Strips the reply, drops one leading "```json" marker and one trailing "```" marker,
      stripping again after each removal. A bare "```" opener and openers such as
      "```python" are not removed. */
  function CleanResponse(response: string): (r: string)
    ensures NoOuterSpace(r)
  {
    var c0 := Strip(response);
    var c1 := if StartsWith(c0, JsonFence) then Strip(c0[|JsonFence|..]) else c0;
    if EndsWith(c1, Fence) then Strip(c1[..|c1| - |Fence|]) else c1
  }

  /** A reply without markers is only stripped. */
  lemma CleanWithoutFences(response: string)
    requires !StartsWith(Strip(response), JsonFence) && !EndsWith(Strip(response), Fence)
    ensures CleanResponse(response) == Strip(response)
  {
  }

  lemma JsonFencedStrips(body: string)
    ensures Strip(JsonFence + body + Fence) == JsonFence + body + Fence
  {
    StripNoOuterSpace(JsonFence + body + Fence);
  }

  /** Before a closing marker only leading whitespace is stripped. */
  lemma ClosedStrips(body: string)
    ensures Strip(body + Fence) == TrimStart(body) + Fence
  {
    TrimStartConcat(body, Fence);
    StripNoOuterSpace(TrimStart(body) + Fence);
  }

  /** A reply with a leading "```json" and a trailing "```" is cut back to its stripped body. */
  lemma CleanFenced(body: string)
    ensures CleanResponse(JsonFence + body + Fence) == Strip(body)
  {
    assert JsonFence + body + Fence == JsonFence + (body + Fence);
    PieceAt(JsonFence, body + Fence, JsonFence + (body + Fence));
    PieceAt(TrimStart(body), Fence, TrimStart(body) + Fence);
    JsonFencedStrips(body);
    ClosedStrips(body);
    StripAfterTrimStart(body);
  }

  lemma BareFencedStrips(body: string)
    ensures Strip(Fence + body + Fence) == Fence + body + Fence
  {
    StripNoOuterSpace(Fence + body + Fence);
  }

  /** After an opening marker only trailing whitespace is stripped. */
  lemma OpenedStrips(body: string)
    ensures Strip(Fence + body) == Fence + TrimEnd(body)
  {
    assert TrimStart(Fence + body) == Fence + body;
    TrimEndConcat(Fence, body);
  }

  lemma BareFenceIsNotJsonFence(body: string)
    requires !StartsWith(body, "json")
    ensures !StartsWith(Fence + body + Fence, JsonFence)
  {
    var x := Fence + body + Fence;
    if |body| >= 4 {
      assert x[3..7] == body[..4];
    } else {
      assert x[3 + |body|] == '`';
    }
  }

  /** Only the exact "```json" opener is removed: after a bare "```" opener the trailing
      marker is dropped but the opener stays. */
  lemma CleanBareFence(body: string)
    requires !StartsWith(body, "json")
    ensures CleanResponse(Fence + body + Fence) == Fence + TrimEnd(body)
  {
    PieceAt(Fence + body, Fence, Fence + body + Fence);
    BareFencedStrips(body);
    BareFenceIsNotJsonFence(body);
    OpenedStrips(body);
  }

  lemma NotJsonOpened(x: string)
    requires x != [] && x[0] != '`'
    ensures !StartsWith(x, JsonFence)
  {
    if |x| >= |JsonFence| {
      assert x[..|JsonFence|][0] == x[0];
    }
  }

  lemma ClosedKeeps(s: string)
    requires s != [] && NoOuterSpace(s)
    ensures Strip(s + Fence) == s + Fence
  {
    StripNoOuterSpace(s + Fence);
  }

  /** A stripped reply that does not open with a marker loses exactly one closing marker. */
  lemma CleanDropsOneFence(s: string)
    requires s != [] && NoOuterSpace(s) && s[0] != '`'
    ensures CleanResponse(s + Fence) == s
  {
    PieceAt(s, Fence, s + Fence);
    NotJsonOpened(s + Fence);
    ClosedKeeps(s);
    StripNoOuterSpace(s);
  }

  /** Cleaning is not idempotent: a doubled closing marker loses one marker per call, as
      "x``````" cleans to "x```" and that to "x". */
  lemma CleanNotIdempotent(s: string)
    requires s != [] && NoOuterSpace(s) && s[0] != '`'
    ensures CleanResponse(s + Fence + Fence) == s + Fence
    ensures CleanResponse(CleanResponse(s + Fence + Fence)) == s != s + Fence
  {
    CleanDropsOneFence(s + Fence);
    CleanDropsOneFence(s);
  }

  // ---------------------------------------------------------------------------
  // validate, the function behind the validate_parameters tool

  /** The parameters dict in iteration (insertion) order. Values are Python ints. A dict
      holds each key once; the sequence type also admits repeated keys, and every lemma below
      holds for those too. */
  type Params = seq<(string, int)>

  /** The typical ranges in kPa, both ends included. */
  const Ranges: map<string, (int, int)> := map["cohesion" := (0, 50), "bearing_capacity" := (100, 300)]

  const WithinRanges: string := "Parameters within expected ranges."

  /** A recognised key whose value lies strictly outside its closed range. */
  predicate OutOfRange(key: string, value: int) {
    key in Ranges && (value < Ranges[key].0 || value > Ranges[key].1)
  }

  /** str() of a pair of ints, as Python renders a tuple. */
  function RangeText(range: (int, int)): string {
    "(" + IntToString(range.0) + ", " + IntToString(range.1) + ")"
  }

  function Warning(key: string, value: int): string
    requires key in Ranges
  {
    "Warning: " + key + " (" + IntToString(value) + " kPa) outside typical range " + RangeText(Ranges[key]) + "."
  }

  /** What validate returns: the warning for the first out-of-range entry, if any. */
  function ValidationMessage(params: Params): string {
    if |params| == 0 then WithinRanges
    else if OutOfRange(params[0].0, params[0].1) then Warning(params[0].0, params[0].1)
    else ValidationMessage(params[1..])
  }

  /** The loop of validate: scans the entries in order and returns at the first one out of
      range. */
  method Validate(params: Params) returns (message: string)
    ensures message == ValidationMessage(params)
  {
    var i := 0;
    while i < |params|
      invariant 0 <= i <= |params|
      invariant ValidationMessage(params[i..]) == ValidationMessage(params)
    {
      var (key, value) := params[i];
      if key in Ranges && (value < Ranges[key].0 || value > Ranges[key].1) {
        return Warning(key, value);
      }
      assert params[i..][1..] == params[i + 1..];
      i := i + 1;
    }
    return WithinRanges;
  }

  lemma WarningIsNotWithin(key: string, value: int)
    requires key in Ranges
    ensures Warning(key, value) != WithinRanges
  {
    assert Warning(key, value)[0] == 'W' && WithinRanges[0] == 'P';
  }

  /** validate reports success exactly when no recognised key is outside its range;
      boundary values, unknown keys and the empty dict all count as in range. */
  lemma {:induction false} ValidationWithinIff(params: Params)
    ensures ValidationMessage(params) == WithinRanges <==>
      forall i :: 0 <= i < |params| ==> !OutOfRange(params[i].0, params[i].1)
  {
    if |params| > 0 {
      ValidationWithinIff(params[1..]);
      if OutOfRange(params[0].0, params[0].1) {
        WarningIsNotWithin(params[0].0, params[0].1);
      } else {
        assert forall i :: 1 <= i < |params| ==> params[1..][i - 1] == params[i];
      }
    }
  }

  /** Otherwise validate returns the warning for the first entry out of range. */
  lemma {:induction false} ValidationFirstWarning(params: Params, k: nat)
    requires k < |params| && OutOfRange(params[k].0, params[k].1)
    requires forall i :: 0 <= i < k ==> !OutOfRange(params[i].0, params[i].1)
    ensures ValidationMessage(params) == Warning(params[k].0, params[k].1)
  {
    if k > 0 {
      assert !OutOfRange(params[0].0, params[0].1);
      assert params[1..][k - 1] == params[k];
      ValidationFirstWarning(params[1..], k - 1);
    }
  }

  /** The entries with a recognised key, in order. */
  function Recognised(params: Params): (r: Params)
    ensures forall i :: 0 <= i < |r| ==> r[i].0 in Ranges
    ensures |r| <= |params|
  {
    if |params| == 0 then []
    else if params[0].0 in Ranges then [params[0]] + Recognised(params[1..])
    else Recognised(params[1..])
  }

  /** Keys validate does not know are skipped. */
  lemma {:induction false} ValidationIgnoresUnknownKeys(params: Params)
    ensures ValidationMessage(params) == ValidationMessage(Recognised(params))
  {
    if |params| > 0 {
      ValidationIgnoresUnknownKeys(params[1..]);
      if params[0].0 in Ranges {
        assert ([params[0]] + Recognised(params[1..]))[1..] == Recognised(params[1..]);
      }
    }
  }

  /** The number of characters before the rendered value in a warning for key. */
  function ValueAt(key: string): nat { |"Warning: " + key + " ("| }

  function WarningTail(key: string): string
    requires key in Ranges
  {
    " kPa) outside typical range " + RangeText(Ranges[key]) + "."
  }

  /** A warning names the key, then the value as str() renders it, then the range tuple. */
  lemma WarningLayout(key: string, value: int)
    requires key in Ranges
    ensures var w, v := Warning(key, value), IntToString(value);
      && |w| == ValueAt(key) + |v| + |WarningTail(key)|
      && w[9..9 + |key|] == key
      && w[ValueAt(key)..ValueAt(key) + |v|] == v
      && w[ValueAt(key) + |v|..] == WarningTail(key)
  {
    var w, v := Warning(key, value), IntToString(value);
    var head := "Warning: " + key + " (";
    assert w == head + v + WarningTail(key);
    assert head[9..9 + |key|] == key;
  }

  lemma WarningKeyAt(key: string, value: int)
    requires key in Ranges
    ensures |Warning(key, value)| > 9 && Warning(key, value)[9] == key[0]
  {
    WarningLayout(key, value);
    var w := Warning(key, value);
    assert w[9..9 + |key|][0] == w[9];
  }

  /** Different recognised keys give different warnings. */
  lemma WarningDeterminesKey(k1: string, v1: int, k2: string, v2: int)
    requires k1 in Ranges && k2 in Ranges
    requires Warning(k1, v1) == Warning(k2, v2)
    ensures k1 == k2
  {
    WarningKeyAt(k1, v1);
    WarningKeyAt(k2, v2);
  }

  /** For one key, different values give different warnings. */
  lemma WarningDeterminesValue(key: string, v1: int, v2: int)
    requires key in Ranges
    requires Warning(key, v1) == Warning(key, v2)
    ensures v1 == v2
  {
    WarningLayout(key, v1);
    WarningLayout(key, v2);
    assert IntToString(v1) == IntToString(v2);
    IntToStringRoundTrip(v1);
    IntToStringRoundTrip(v2);
  }

  /** The key and the value can be read back from the warning. */
  lemma WarningDeterminesEntry(k1: string, v1: int, k2: string, v2: int)
    requires k1 in Ranges && k2 in Ranges
    requires Warning(k1, v1) == Warning(k2, v2)
    ensures k1 == k2 && v1 == v2
  {
    WarningDeterminesKey(k1, v1, k2, v2);
    WarningDeterminesValue(k1, v1, v2);
  }

  lemma Renders60And50()
    ensures IntToString(60) == "60" && RangeText(Ranges["cohesion"]) == "(0, 50)"
  {
    assert NatToString(60) == NatToString(6) + "0";
    assert NatToString(50) == NatToString(5) + "0";
  }

  /** The documented out-of-range call: cohesion 60 against (0, 50). */
  lemma CohesionWarningExample()
    ensures ValidationMessage([("cohesion", 60)])
      == "Warning: " + "cohesion" + " (" + "60" + " kPa) outside typical range " + "(0, 50)" + "."
  {
    assert ValidationMessage([("cohesion", 60)]) == Warning("cohesion", 60);
    Renders60And50();
  }

  /** The documented in-range call and an unknown key. */
  lemma WithinRangesExamples()
    ensures ValidationMessage([("cohesion", 30), ("bearing_capacity", 200)]) == WithinRanges
    ensures ValidationMessage([("unknown_param", 9999)]) == WithinRanges
  {
  }

  /** Both ends of each range are accepted. */
  lemma BoundaryExamples()
    ensures ValidationMessage([("cohesion", 0), ("bearing_capacity", 100)]) == WithinRanges
    ensures ValidationMessage([("cohesion", 50), ("bearing_capacity", 300)]) == WithinRanges
    ensures OutOfRange("cohesion", -1) && OutOfRange("cohesion", 51)
    ensures OutOfRange("bearing_capacity", 99) && OutOfRange("bearing_capacity", 301)
  {
  }

  // ---------------------------------------------------------------------------
  // The execute pipelines

  /** A page as PyPDFLoader returns it. */
  datatype Page = Page(pageContent: string)

  /** Why an execute call raised: the loader or the gateway failed, or the cleaned reply
      was not JSON, or was JSON that does not validate against the record. */
  datatype AgentError =
    | LoadFailed(reason: string)
    | GatewayFailed(reason: string)
    | InvalidJson(cleaned: string)
    | InvalidSchema(cleaned: string, error: SchemaError)

  /** The gateway: a prompt in, a reply or an error out. */
  type Generate = string -> Result<string, string>

  /** The PDF loader: a file path in, its pages or an error out. */
  type Load = string -> Result<seq<Page>, string>

  /** json.loads: the JSON value a text holds, or None when it is not JSON. */
  type Parse = string -> Option<Json>

  function Ask(generate: Generate, prompt: string): Result<string, AgentError> {
    match generate(prompt)
    case Failure(e) => Failure(GatewayFailed(e))
    case Success(reply) => Success(reply)
  }

  /** ChatAgent.execute: the reply to the expert prompt, returned as the gateway gave it. */
  function ChatExecute(generate: Generate, query: string, chatHistory: string): Result<string, AgentError> {
    Ask(generate, ExpertPrompt(query, chatHistory))
  }

  /** The chat reply is not cleaned, and a gateway error is raised to the caller. */
  lemma ChatUncleaned(generate: Generate, query: string, chatHistory: string)
    ensures var r, g := ChatExecute(generate, query, chatHistory), generate(ExpertPrompt(query, chatHistory));
      && (r.Success? <==> g.Success?)
      && (r.Success? ==> r.value == g.value)
      && (r.Failure? ==> r.error == GatewayFailed(g.error))
  {
  }

  /** Parses the cleaned reply and validates it with decode: parse_raw. */
  function ParseRecord<T>(parse: Parse, decode: Json -> Result<T, SchemaError>, cleaned: string): Result<T, AgentError> {
    match parse(cleaned)
    case None => Failure(InvalidJson(cleaned))
    case Some(j) =>
      match decode(j)
      case Failure(e) => Failure(InvalidSchema(cleaned, e))
      case Success(v) => Success(v)
  }

  function PageContents(pages: seq<Page>): (r: seq<string>)
    ensures |r| == |pages| && forall i :: 0 <= i < |pages| ==> r[i] == pages[i].pageContent
  {
    seq(|pages|, i requires 0 <= i < |pages| => pages[i].pageContent)
  }

  /** The prompt ExtractionAgent sends for the given pages. */
  function ExtractionPrompt(pages: seq<Page>): string {
    AnalysisPrompt(Join(" ", PageContents(pages)))
  }

  /** ExtractionAgent.execute */
  function ExtractExecute(load: Load, generate: Generate, parse: Parse, filePath: string): Result<DocumentSummary, AgentError> {
    var pages :- (match load(filePath) case Failure(e) => Failure(LoadFailed(e)) case Success(p) => Success(p));
    var reply :- Ask(generate, ExtractionPrompt(pages));
    ParseRecord(parse, DecodeDocumentSummary, CleanResponse(reply))
  }

  /** The extraction prompt holds every page verbatim, in page order, after the fixed
      instructions. */
  lemma ExtractionPromptPageAt(pages: seq<Page>, k: nat)
    requires k < |pages|
    ensures var p, o, n := ExtractionPrompt(pages), |AnalysisInstructions| + Offset(" ", PageContents(pages), k),
                           |pages[k].pageContent|;
      o + n <= |p| && p[o..o + n] == pages[k].pageContent
  {
    var parts := PageContents(pages);
    var content := Join(" ", parts);
    JoinPartAt(" ", parts, k);
    var o := Offset(" ", parts, k);
    SliceOfConcat(AnalysisInstructions, content, o, o + |parts[k]|);
  }

  /** Consecutive pages are separated by exactly one space. */
  lemma ExtractionPromptSpaceAfter(pages: seq<Page>, k: nat)
    requires k + 1 < |pages|
    ensures var p, o, n := ExtractionPrompt(pages), |AnalysisInstructions| + Offset(" ", PageContents(pages), k),
                           |pages[k].pageContent|;
      o + n + 1 <= |p| && p[o + n..o + n + 1] == " "
  {
    var parts := PageContents(pages);
    var content := Join(" ", parts);
    JoinSepAfter(" ", parts, k);
    var o := Offset(" ", parts, k) + |parts[k]|;
    SliceOfConcat(AnalysisInstructions, content, o, o + 1);
  }

  /** A document without pages is analysed as empty content. */
  lemma ExtractionPromptNoPages()
    ensures ExtractionPrompt([]) == AnalysisInstructions
  {
    AnalysisPromptLayout("");
  }

  /** Extraction succeeds only when every stage does, and the summary returned is what the
      schema makes of the cleaned reply; each failing stage raises its own error. */
  lemma ExtractOutcome(load: Load, generate: Generate, parse: Parse, filePath: string)
    ensures var r := ExtractExecute(load, generate, parse, filePath);
      && (load(filePath).Failure? ==> r == Failure(LoadFailed(load(filePath).error)))
      && (load(filePath).Success? ==>
            var g := generate(ExtractionPrompt(load(filePath).value));
            && (g.Failure? ==> r == Failure(GatewayFailed(g.error)))
            && (g.Success? ==>
                  var c := CleanResponse(g.value);
                  && (parse(c).None? ==> r == Failure(InvalidJson(c)))
                  && (parse(c).Some? ==>
                        && (DecodeDocumentSummary(parse(c).value).Failure? ==>
                              r == Failure(InvalidSchema(c, DecodeDocumentSummary(parse(c).value).error)))
                        && (DecodeDocumentSummary(parse(c).value).Success? ==>
                              r == Success(DecodeDocumentSummary(parse(c).value).value)))))
  {
  }

  /** A gateway reply wrapped in a "```json" block reaches the schema as its stripped body. */
  lemma ExtractFencedReply(load: Load, generate: Generate, parse: Parse, filePath: string, body: string)
    requires load(filePath).Success?
    requires generate(ExtractionPrompt(load(filePath).value)) == Success(JsonFence + body + Fence)
    ensures ExtractExecute(load, generate, parse, filePath) == ParseRecord(parse, DecodeDocumentSummary, Strip(body))
  {
    CleanFenced(body);
  }

  /** str() of each summary, in list order. The summaries are DocumentSummary records when
      the chat front end calls the agent and plain dicts when the HTTP front end does, so their
      type is a parameter. */
  function Rendered<T>(render: T -> string, ds: seq<T>): (r: seq<string>)
    ensures |r| == |ds| && forall i :: 0 <= i < |ds| ==> r[i] == render(ds[i])
  {
    seq(|ds|, i requires 0 <= i < |ds| => render(ds[i]))
  }

  /** The text passed to the report prompt as its Documents argument: None for a missing or
      empty list, otherwise the rendered summaries joined by newlines. */
  function ReferencedDocuments<T>(render: T -> string, docSummaries: Option<seq<T>>): Option<string> {
    match docSummaries
    case None => None
    case Some(ds) => if |ds| == 0 then None else Some(Join("\n", Rendered(render, ds)))
  }

  /** The prompt ReportAgent sends. */
  function ReportRequest<T>(render: T -> string, reportType: string, projectInfo: string,
                         parameters: string, docSummaries: Option<seq<T>>): string {
    ReportPrompt(reportType, projectInfo, parameters, ReferencedDocuments(render, docSummaries))
  }

  /** ReportAgent.execute; render stands for str() of a summary. The validate_parameters
      tool attached to the agent is not called on this path. */
  function ReportExecute<T>(generate: Generate, parse: Parse, render: T -> string, reportType: string,
                         projectInfo: string, parameters: string, docSummaries: Option<seq<T>>)
    : Result<Report, AgentError>
  {
    var reply :- Ask(generate, ReportRequest(render, reportType, projectInfo, parameters, docSummaries));
    ParseRecord(parse, DecodeReport, CleanResponse(reply))
  }

  /** Without summaries the Documents slot reads "None". */
  lemma ReportWithoutSummaries<T>(render: T -> string, reportType: string, projectInfo: string,
                               parameters: string, docSummaries: Option<seq<T>>)
    requires docSummaries.None? || |docSummaries.value| == 0
    ensures ReferencedDocuments(render, docSummaries) == None
    ensures var p := ReportRequest(render, reportType, projectInfo, parameters, docSummaries);
      var at := DocumentsAt(reportType, projectInfo, parameters);
      p[at..at + 4] == "None"
  {
    ReportPromptSlots(reportType, projectInfo, parameters, None);
  }

  /** With summaries, each rendered summary sits verbatim in the Documents text, in list
      order. */
  lemma ReportSummaryAt<T>(render: T -> string, ds: seq<T>, k: nat)
    requires k < |ds|
    ensures var docs, o, n := Join("\n", Rendered(render, ds)), Offset("\n", Rendered(render, ds), k), |render(ds[k])|;
      && ReferencedDocuments(render, Some(ds)) == Some(docs)
      && o + n <= |docs| && docs[o..o + n] == render(ds[k])
  {
    JoinPartAt("\n", Rendered(render, ds), k);
  }

  /** Consecutive summaries are separated by exactly one newline. */
  lemma ReportSummaryNewlineAfter<T>(render: T -> string, ds: seq<T>, k: nat)
    requires k + 1 < |ds|
    ensures var docs, o, n := Join("\n", Rendered(render, ds)), Offset("\n", Rendered(render, ds), k), |render(ds[k])|;
      o + n + 1 <= |docs| && docs[o + n..o + n + 1] == "\n"
  {
    JoinSepAfter("\n", Rendered(render, ds), k);
  }

  /** When the joined summaries are non-empty they fill the Documents slot of the prompt
      unchanged. */
  lemma ReportDocumentsSlot<T>(render: T -> string, reportType: string, projectInfo: string,
                            parameters: string, ds: seq<T>)
    requires |ds| > 0
    requires ReferencedDocuments(render, Some(ds)).value != ""
    ensures var p, docs := ReportRequest(render, reportType, projectInfo, parameters, Some(ds)),
                           ReferencedDocuments(render, Some(ds)).value;
      var at := DocumentsAt(reportType, projectInfo, parameters);
      at + |docs| <= |p| && p[at..at + |docs|] == docs
  {
    ReportPromptSlots(reportType, projectInfo, parameters, ReferencedDocuments(render, Some(ds)));
  }

  /** Report generation succeeds only when the gateway answers and the cleaned reply is a JSON
      object with all six report fields as strings. */
  lemma ReportOutcome<T>(generate: Generate, parse: Parse, render: T -> string, reportType: string,
                      projectInfo: string, parameters: string, docSummaries: Option<seq<T>>)
    ensures var r := ReportExecute(generate, parse, render, reportType, projectInfo, parameters, docSummaries);
      var g := generate(ReportRequest(render, reportType, projectInfo, parameters, docSummaries));
      && (g.Failure? ==> r == Failure(GatewayFailed(g.error)))
      && (g.Success? ==>
            var c := CleanResponse(g.value);
            && (parse(c).None? ==> r == Failure(InvalidJson(c)))
            && (parse(c).Some? ==>
                  && (DecodeReport(parse(c).value).Failure? ==>
                        r == Failure(InvalidSchema(c, DecodeReport(parse(c).value).error)))
                  && (DecodeReport(parse(c).value).Success? ==>
                        r == Success(DecodeReport(parse(c).value).value))))
  {
  }

  /** A gateway reply wrapped in a "```json" block reaches the schema as its stripped body. */
  lemma ReportFencedReply<T>(generate: Generate, parse: Parse, render: T -> string, reportType: string,
                          projectInfo: string, parameters: string, docSummaries: Option<seq<T>>, body: string)
    requires generate(ReportRequest(render, reportType, projectInfo, parameters, docSummaries)) == Success(JsonFence + body + Fence)
    ensures ReportExecute(generate, parse, render, reportType, projectInfo, parameters, docSummaries)
      == ParseRecord(parse, DecodeReport, Strip(body))
  {
    CleanFenced(body);
  }
}
