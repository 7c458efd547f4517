/** The deterministic part of the medical-records agent: the parses of generated record
    content and of record analyses, and the content truncation applied when records are
    summarised for analysis or returned from a search. */
module MedicalRecordsAgent {
  import opened Common
  import opened SectionParser

  const ContentHeaders: seq<Header> := [
    Header("CLINICAL_ASSESSMENT:", SetText("clinical_assessment", false)),
    Header("FINDINGS:", OpenList("findings")),
    Header("DIAGNOSTIC_REASONING:", SetText("diagnostic_reasoning", false)),
    Header("TREATMENT_PLAN:", OpenList("treatment_plan")),
    Header("FOLLOW_UP:", OpenList("follow_up")),
    Header("CLINICAL_NOTES:", OpenList("clinical_notes")),
    Header("SUMMARY:", SetText("summary", false))
  ]

  const ContentDefaults: Record := Record(
    map["clinical_assessment" := "", "diagnostic_reasoning" := "", "summary" := ""],
    map[],
    map["findings" := [], "treatment_plan" := [], "follow_up" := [], "clinical_notes" := []])

  method ParseRecordContent(result: string) returns (content: Record)
    ensures content == Parse(ContentHeaders, ContentDefaults, result)
  {
    content := ParseText(ContentHeaders, ContentDefaults, result);
  }

  lemma ContentTableFacts()
    ensures Targets(ContentHeaders, ContentDefaults)
    ensures ContentDefaults.texts.Keys == {"clinical_assessment", "diagnostic_reasoning", "summary"}
    ensures ContentDefaults.ints.Keys == {}
    ensures ContentDefaults.lists.Keys == {"findings", "treatment_plan", "follow_up", "clinical_notes"}
  {
  }

  /** Record content always has three scalar and four list fields. */
  lemma ContentShape(result: string)
    ensures Parse(ContentHeaders, ContentDefaults, result).texts.Keys ==
      {"clinical_assessment", "diagnostic_reasoning", "summary"}
    ensures Parse(ContentHeaders, ContentDefaults, result).ints.Keys == {}
    ensures Parse(ContentHeaders, ContentDefaults, result).lists.Keys ==
      {"findings", "treatment_plan", "follow_up", "clinical_notes"}
  {
    ContentTableFacts();
    ParseKeepsFields(ContentHeaders, ContentDefaults, result);
  }

  const AnalysisHeaders: seq<Header> := [
    Header("HEALTH_STATUS:", SetText("health_status", false)),
    Header("PATTERNS:", OpenList("patterns")),
    Header("RISKS:", OpenList("risks")),
    Header("TREATMENT_EFFECTIVENESS:", SetText("treatment_effectiveness", false)),
    Header("RECOMMENDATIONS:", OpenList("recommendations")),
    Header("ATTENTION_AREAS:", OpenList("attention_areas")),
    Header("SUMMARY:", SetText("summary", false))
  ]

  const AnalysisDefaults: Record := Record(
    map["health_status" := "", "treatment_effectiveness" := "", "summary" := ""],
    map[],
    map["patterns" := [], "risks" := [], "recommendations" := [], "attention_areas" := []])

  method ParseAnalysisResult(result: string) returns (analysis: Record)
    ensures analysis == Parse(AnalysisHeaders, AnalysisDefaults, result)
  {
    analysis := ParseText(AnalysisHeaders, AnalysisDefaults, result);
  }

  /** The analysis always has health_status, treatment_effectiveness and summary as
      scalars and patterns, risks, recommendations and attention_areas as lists. */
  lemma AnalysisTableFacts()
    ensures Targets(AnalysisHeaders, AnalysisDefaults)
    ensures AnalysisDefaults.texts.Keys == {"health_status", "treatment_effectiveness", "summary"}
    ensures AnalysisDefaults.ints.Keys == {}
    ensures AnalysisDefaults.lists.Keys == {"patterns", "risks", "recommendations", "attention_areas"}
  {
  }

  lemma AnalysisShape(result: string)
    ensures Parse(AnalysisHeaders, AnalysisDefaults, result).texts.Keys ==
      {"health_status", "treatment_effectiveness", "summary"}
    ensures Parse(AnalysisHeaders, AnalysisDefaults, result).ints.Keys == {}
    ensures Parse(AnalysisHeaders, AnalysisDefaults, result).lists.Keys ==
      {"patterns", "risks", "recommendations", "attention_areas"}
  {
    AnalysisTableFacts();
    ParseKeepsFields(AnalysisHeaders, AnalysisDefaults, result);
  }

  // ---------------------------------------------------------------------------
  // Truncation

  /** Python's s[:n]. */
  function Prefix(s: string, n: nat): (r: string)
    ensures |r| == if |s| < n then |s| else n
    ensures r <= s
  {
    if |s| <= n then s else s[..n]
  }

  datatype StoredRecord = StoredRecord(recordType: string, title: string, content: string,
                                       medications: seq<string>, diagnosisCodes: seq<string>)

  /** How many records the analysis input summarises. */
  const MaxAnalysedRecords := 10

  /** The lines one record contributes to the analysis input. */
  function SummaryLines(k: nat, r: StoredRecord): seq<string>
  {
    ["Record " + NatToString(k + 1) + " (" + r.recordType + "): " + r.title,
     "  Content: " + Prefix(r.content, 200) + "..."] +
    (if r.medications != [] then ["  Medications: " + JoinWith(r.medications, ", ")] else []) +
    (if r.diagnosisCodes != [] then ["  Diagnosis Codes: " + JoinWith(r.diagnosisCodes, ", ")] else [])
  }

  function AllSummaryLines(records: seq<StoredRecord>): seq<string>
    decreases |records|
  {
    if records == [] then []
    else AllSummaryLines(records[..|records| - 1]) + SummaryLines(|records| - 1, records[|records| - 1])
  }

  /** The input parts `_prepare_analysis_input` collects: a header with the analysis
      type and the record count, then the summaries of at most the first ten records. */
  method PrepareAnalysisParts(records: seq<StoredRecord>, analysisType: string) returns (parts: seq<string>)
    ensures parts == ["Analysis Type: " + analysisType, "Number of Records: " + NatToString(|records|)] +
      AllSummaryLines(records[..if |records| < MaxAnalysedRecords then |records| else MaxAnalysedRecords])
  {
    var header := ["Analysis Type: " + analysisType, "Number of Records: " + NatToString(|records|)];
    parts := header;
    var n := if |records| < MaxAnalysedRecords then |records| else MaxAnalysedRecords;
    var i := 0;
    while i < n
      invariant 0 <= i <= n
      invariant parts == header + AllSummaryLines(records[..i])
    {
      var lines := RecordSummary(i, records[i]);
      SummaryStep(records, i);
      AppendAssoc(header, AllSummaryLines(records[..i]), lines);
      parts := parts + lines;
      i := i + 1;
    }
  }

  lemma SummaryStep(records: seq<StoredRecord>, i: nat)
    requires i < |records|
    ensures AllSummaryLines(records[..i + 1]) == AllSummaryLines(records[..i]) + SummaryLines(i, records[i])
  {
    assert records[..i + 1][..i] == records[..i];
  }

  /** One pass of the loop: the k-th record's title line and content line, then its
      medications and its diagnosis codes when it has any. */
  method RecordSummary(k: nat, r: StoredRecord) returns (lines: seq<string>)
    ensures lines == SummaryLines(k, r)
    ensures 2 <= |lines| <= 4
  {
    lines := ["Record " + NatToString(k + 1) + " (" + r.recordType + "): " + r.title];
    lines := lines + ["  Content: " + Prefix(r.content, 200) + "..."];
    if r.medications != [] {
      lines := lines + ["  Medications: " + JoinWith(r.medications, ", ")];
    }
    if r.diagnosisCodes != [] {
      lines := lines + ["  Diagnosis Codes: " + JoinWith(r.diagnosisCodes, ", ")];
    }
  }

  /** Each summarised record contributes two to four lines, so the input has at most
      2 + 4 * 10 parts however many records there are. */
  lemma {:induction false} SummaryBounded(records: seq<StoredRecord>)
    ensures 2 * |records| <= |AllSummaryLines(records)| <= 4 * |records|
    decreases |records|
  {
    if records != [] {
      SummaryBounded(records[..|records| - 1]);
    }
  }

  /** The content shown for a search result: cut to 500 characters plus '...' only when
      it is longer than 500. */
  function SearchContent(content: string): (r: string)
    ensures |content| <= 500 ==> r == content
    ensures |content| > 500 ==> |r| == 503 && r[..500] == content[..500] && r[500..] == "..."
  {
    if |content| > 500 then content[..500] + "..." else content
  }

  /** `search_criteria.get('limit', 50)`. */
  function SearchLimit(criteria: Dict): (limit: Value)
    ensures !Has(criteria, "limit") ==> limit == VInt(50)
    ensures Has(criteria, "limit") ==> Get(criteria, "limit") == Some(limit)
  {
    match Get(criteria, "limit")
    case Some(v) => v
    case None => VInt(50)
  }
}
