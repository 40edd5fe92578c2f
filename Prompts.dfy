/** The three prompt builders of prompts.py. Each is a pure concatenation of fixed text with
    the caller's strings, which are inserted verbatim: nothing is escaped, trimmed or truncated. */
module Prompts {
  import opened Wrappers
  import opened Text

  const HistoryHeader: string := "\nChat History:\n"
  const QueryHeader: string := "\nQuery: "

  // ---------------------------------------------------------------------------
  // create_geotech_expert_prompt

  function ExpertPrompt(query: string, chatHistory: string): string {
    ExpertInstructions + HistoryHeader + chatHistory + QueryHeader + query
  }

  /** The chat prompt is the fixed block and the history header, then the whole history
      verbatim, then the query header and the query, which ends the prompt. */
  lemma ExpertPromptLayout(query: string, chatHistory: string)
    ensures var p, n := ExpertPrompt(query, chatHistory), |ExpertInstructions + HistoryHeader|;
      && |p| == n + |chatHistory| + |QueryHeader| + |query|
      && p[..n] == ExpertInstructions + HistoryHeader
      && p[n..n + |chatHistory|] == chatHistory
      && p[n + |chatHistory|..] == QueryHeader + query
      && EndsWith(p, query)
  {
    var head := ExpertInstructions + HistoryHeader;
    var p := ExpertPrompt(query, chatHistory);
    assert p == head + (chatHistory + (QueryHeader + query));
    assert p[|p| - |query|..] == query;
  }

  /** With the query fixed, the chat prompt determines the history it was built from. */
  lemma ExpertPromptHistoryInjective(query: string, h1: string, h2: string)
    requires ExpertPrompt(query, h1) == ExpertPrompt(query, h2)
    ensures h1 == h2
  {
    ExpertPromptLayout(query, h1);
    ExpertPromptLayout(query, h2);
  }

  /** An empty history keeps the "Chat History:" header, followed directly by the query header. */
  lemma ExpertPromptEmptyHistory(query: string)
    ensures ExpertPrompt(query, "") == ExpertInstructions + "\nChat History:\n\nQuery: " + query
  {
    assert HistoryHeader + "" + QueryHeader == "\nChat History:\n\nQuery: ";
  }

  // ---------------------------------------------------------------------------
  // create_document_analysis_prompt

  function AnalysisPrompt(documentContent: string): string {
    AnalysisInstructions + documentContent
  }

  /** The analysis prompt is the same fixed block for every input, followed by the document
      content, which ends the prompt; for empty content it is exactly the fixed block. */
  lemma AnalysisPromptLayout(documentContent: string)
    ensures var p := AnalysisPrompt(documentContent);
      && StartsWith(p, AnalysisInstructions)
      && p[|AnalysisInstructions|..] == documentContent
      && (documentContent == "" ==> p == AnalysisInstructions)
  {
    var p := AnalysisPrompt(documentContent);
    assert p[..|AnalysisInstructions|] == AnalysisInstructions;
    assert documentContent == "" ==> p == AnalysisInstructions + "";
  }

  lemma AnalysisPromptInjective(c1: string, c2: string)
    requires AnalysisPrompt(c1) == AnalysisPrompt(c2)
    ensures c1 == c2
  {
    AnalysisPromptLayout(c1);
    AnalysisPromptLayout(c2);
  }

  // ---------------------------------------------------------------------------
  // create_report_generation_prompt

  /** The f-string slot {referenced_documents or 'None'}: Python's `or` falls back to the
      literal None both for a missing value and for the empty string. */
  function DocumentsSlot(referencedDocuments: Option<string>): (r: string)
    ensures r == "None" <==> referencedDocuments in {None, Some(""), Some("None")}
    ensures referencedDocuments.Some? && referencedDocuments.value != "" ==> r == referencedDocuments.value
  {
    match referencedDocuments
    case None => "None"
    case Some(d) => if d == "" then "None" else d
  }

  function ReportPrompt(reportType: string, projectInfo: string, parameters: string,
                        referencedDocuments: Option<string>): string
  {
    ReportOpening + reportType + ReportSchema + projectInfo + ParametersLabel + parameters
      + DocumentsLabel + DocumentsSlot(referencedDocuments) + ReportClosing
  }

  /** Where the four slots of the report prompt begin: each depends only on the lengths of
      the slots before it, since the text between them is fixed. */
  function ReportTypeAt(): nat { |ReportOpening| }
  function ProjectInfoAt(reportType: string): nat { ReportTypeAt() + |reportType| + |ReportSchema| }
  function ParametersAt(reportType: string, projectInfo: string): nat {
    ProjectInfoAt(reportType) + |projectInfo| + |ParametersLabel|
  }
  function DocumentsAt(reportType: string, projectInfo: string, parameters: string): nat {
    ParametersAt(reportType, projectInfo) + |parameters| + |DocumentsLabel|
  }

  /** The report prompt holds report_type, project_info, parameters and the documents slot
      verbatim and in that order, and ends with the fixed closing text right after the last. */
  lemma ReportPromptSlots(reportType: string, projectInfo: string, parameters: string,
                          referencedDocuments: Option<string>)
    ensures var p := ReportPrompt(reportType, projectInfo, parameters, referencedDocuments);
      var d := DocumentsSlot(referencedDocuments);
      var o1, o2 := ReportTypeAt(), ProjectInfoAt(reportType);
      var o3, o4 := ParametersAt(reportType, projectInfo), DocumentsAt(reportType, projectInfo, parameters);
      && |p| == o4 + |d| + |ReportClosing|
      && p[o1..o1 + |reportType|] == reportType
      && p[o2..o2 + |projectInfo|] == projectInfo
      && p[o3..o3 + |parameters|] == parameters
      && p[o4..o4 + |d|] == d
      && p[o4 + |d|..] == ReportClosing
  {
    TemplateLayout(ReportOpening, reportType, ReportSchema, projectInfo, ParametersLabel, parameters,
                   DocumentsLabel, DocumentsSlot(referencedDocuments), ReportClosing);
  }

  /** Between the slots stands only the fixed text of the template. */
  lemma ReportPromptFixedText(reportType: string, projectInfo: string, parameters: string,
                              referencedDocuments: Option<string>)
    ensures var p := ReportPrompt(reportType, projectInfo, parameters, referencedDocuments);
      var o1, o2 := ReportTypeAt(), ProjectInfoAt(reportType);
      var o3, o4 := ParametersAt(reportType, projectInfo), DocumentsAt(reportType, projectInfo, parameters);
      && o4 <= |p|
      && p[..o1] == ReportOpening
      && p[o1 + |reportType|..o2] == ReportSchema
      && p[o2 + |projectInfo|..o3] == ParametersLabel
      && p[o3 + |parameters|..o4] == DocumentsLabel
  {
    TemplateLayout(ReportOpening, reportType, ReportSchema, projectInfo, ParametersLabel, parameters,
                   DocumentsLabel, DocumentsSlot(referencedDocuments), ReportClosing);
  }

  /** Where each of nine concatenated pieces sits in their concatenation. */
  lemma TemplateLayout(a1: string, a2: string, a3: string, a4: string, a5: string,
                       a6: string, a7: string, a8: string, a9: string)
    ensures var p := a1 + a2 + a3 + a4 + a5 + a6 + a7 + a8 + a9;
      var e1 := |a1|;
      var e2 := e1 + |a2|;
      var e3 := e2 + |a3|;
      var e4 := e3 + |a4|;
      var e5 := e4 + |a5|;
      var e6 := e5 + |a6|;
      var e7 := e6 + |a7|;
      var e8 := e7 + |a8|;
      && |p| == e8 + |a9|
      && p[..e1] == a1 && p[e1..e2] == a2 && p[e2..e3] == a3 && p[e3..e4] == a4
      && p[e4..e5] == a5 && p[e5..e6] == a6 && p[e6..e7] == a7 && p[e7..e8] == a8
      && p[e8..] == a9
  {
    var s2 := a1 + a2;
    var s3 := s2 + a3;
    var s4 := s3 + a4;
    var s5 := s4 + a5;
    var s6 := s5 + a6;
    var s7 := s6 + a7;
    var s8 := s7 + a8;
    var p := s8 + a9;
    PieceAt(s8, a9, p);
    PieceAt(s7, a8, s8);
    PieceAt(s6, a7, s7);
    PieceAt(s5, a6, s6);
    PieceAt(s4, a5, s5);
    PieceAt(s3, a4, s4);
    PieceAt(s2, a3, s3);
    PieceAt(a1, a2, s2);
    PrefixOfPrefix(p, s8, s7);
    PrefixOfPrefix(p, s7, s6);
    PrefixOfPrefix(p, s6, s5);
    PrefixOfPrefix(p, s5, s4);
    PrefixOfPrefix(p, s4, s3);
    PrefixOfPrefix(p, s3, s2);
    PrefixOfPrefix(p, s2, a1);
    SliceOfPrefix(p, s8, |s7|);
    SliceOfPrefix(p, s7, |s6|);
    SliceOfPrefix(p, s6, |s5|);
    SliceOfPrefix(p, s5, |s4|);
    SliceOfPrefix(p, s4, |s3|);
    SliceOfPrefix(p, s3, |s2|);
    SliceOfPrefix(p, s2, |a1|);
  }

  /** A prefix of a prefix of p is a prefix of p. */
  lemma PrefixOfPrefix(p: string, s: string, t: string)
    requires |s| <= |p| && p[..|s|] == s && |t| <= |s| && s[..|t|] == t
    ensures p[..|t|] == t
  {
    assert p[..|t|] == p[..|s|][..|t|];
  }

  /** Inside a prefix s of p, a slice of s from i onwards is the same slice of p. */
  lemma SliceOfPrefix(p: string, s: string, i: nat)
    requires |s| <= |p| && p[..|s|] == s && i <= |s|
    ensures p[i..|s|] == s[i..]
  {
    assert p[i..|s|] == p[..|s|][i..];
  }

  // ---------------------------------------------------------------------------
  // The fixed text. Its wording is instructions to the language model and plays no part in
  // any property stated here, so each block is an uninterpreted constant: every lemma above
  // holds whatever the text is.

  /** The expert persona of create_geotech_expert_prompt: Pacific Northwest focus, five
      guidelines and an example answer (prompts.py:2-14). */
  const ExpertInstructions: string

  /** The system text of create_document_analysis_prompt: the DocumentSummary schema, the
      extraction guidelines, the worked example and the closing "Document Content:" label
      (prompts.py:18-66). */
  const AnalysisInstructions: string

  /** The text of the report f-string before the report_type slot (prompts.py:70-71). */
  const ReportOpening: string

  /** The text between the report_type and project_info slots: the Report schema and the
      "Project Info:" label (prompts.py:71-83). */
  const ReportSchema: string

  /** The text between the project_info and parameters slots (prompts.py:83-84). */
  const ParametersLabel: string := "\n    Parameters: "

  /** The text between the parameters and documents slots (prompts.py:84-85). */
  const DocumentsLabel: string := "\n    Documents: "

  /** The text after the documents slot: guidelines and an example Report (prompts.py:85-95). */
  const ReportClosing: string
}
