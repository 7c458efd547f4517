/** The deterministic part of the monitoring agent: the parse of the model's vital-sign
    analysis text, and the choice of alerts raised from a parsed analysis. */
module MonitoringAgent {
  import opened Common
  import opened Models
  import opened SectionParser

  const AnalysisHeaders: seq<Header> := [
    Header("OVERALL_STATUS:", SetText("overall_status", true)),
    Header("ABNORMALITIES:", OpenList("abnormalities")),
    Header("TRENDS:", OpenList("trends")),
    Header("ALERT_SEVERITY:", SetText("alert_severity", true)),
    Header("RECOMMENDED_ACTIONS:", OpenList("recommended_actions")),
    Header("MONITORING_FREQUENCY:", SetText("monitoring_frequency", false)),
    Header("ASSESSMENT:", SetText("assessment", false))
  ]

  const AnalysisDefaults: Record := Record(
    map["overall_status" := "normal", "alert_severity" := "none",
        "monitoring_frequency" := "standard", "assessment" := ""],
    map[],
    map["abnormalities" := [], "trends" := [], "recommended_actions" := []])

  method ParseAnalysisResult(result: string) returns (analysis: Record)
    ensures analysis == Parse(AnalysisHeaders, AnalysisDefaults, result)
  {
    analysis := ParseText(AnalysisHeaders, AnalysisDefaults, result);
  }

  lemma AnalysisTableFacts()
    ensures Targets(AnalysisHeaders, AnalysisDefaults)
    ensures AnalysisDefaults.texts.Keys == {"overall_status", "alert_severity", "monitoring_frequency", "assessment"}
    ensures AnalysisDefaults.ints.Keys == {}
    ensures AnalysisDefaults.lists.Keys == {"abnormalities", "trends", "recommended_actions"}
  {
  }

  lemma AnalysisLowerFacts()
    ensures LowersText(AnalysisHeaders, "overall_status")
    ensures Lower(AnalysisDefaults.texts["overall_status"]) == AnalysisDefaults.texts["overall_status"]
    ensures LowersText(AnalysisHeaders, "alert_severity")
    ensures Lower(AnalysisDefaults.texts["alert_severity"]) == AnalysisDefaults.texts["alert_severity"]
  {
    var d := AnalysisDefaults.texts;
    assert d["overall_status"] == "normal" && d["alert_severity"] == "none";
    LowerNoUpper(d["overall_status"]);
    LowerNoUpper(d["alert_severity"]);
    AnalysisHeadersLower();
  }

  /** The two headers that lower-case their values. */
  lemma AnalysisHeadersLower()
    ensures LowersText(AnalysisHeaders, "overall_status")
    ensures LowersText(AnalysisHeaders, "alert_severity")
  {
    var hs := AnalysisHeaders;
    assert hs[0].action == SetText("overall_status", true) && hs[3].action == SetText("alert_severity", true);
    assert !hs[1].action.SetText? && !hs[2].action.SetText? && !hs[4].action.SetText?;
    assert hs[5].action.field == "monitoring_frequency" && hs[6].action.field == "assessment";
    LowersTextAt(hs, "overall_status");
    LowersTextAt(hs, "alert_severity");
  }

  /** Whatever the text, the analysis has exactly the default fields. */
  lemma AnalysisShape(result: string)
    ensures Parse(AnalysisHeaders, AnalysisDefaults, result).texts.Keys ==
      {"overall_status", "alert_severity", "monitoring_frequency", "assessment"}
    ensures Parse(AnalysisHeaders, AnalysisDefaults, result).ints.Keys == {}
    ensures Parse(AnalysisHeaders, AnalysisDefaults, result).lists.Keys ==
      {"abnormalities", "trends", "recommended_actions"}
  {
    AnalysisTableFacts();
    ParseKeepsFields(AnalysisHeaders, AnalysisDefaults, result);
  }

  /** OVERALL_STATUS and ALERT_SEVERITY are always lower case, whatever the model wrote. */
  lemma StatusAndSeverityLowerCase(result: string)
    ensures Lower(TextOf(Parse(AnalysisHeaders, AnalysisDefaults, result), "overall_status")) ==
      TextOf(Parse(AnalysisHeaders, AnalysisDefaults, result), "overall_status")
    ensures Lower(TextOf(Parse(AnalysisHeaders, AnalysisDefaults, result), "alert_severity")) ==
      TextOf(Parse(AnalysisHeaders, AnalysisDefaults, result), "alert_severity")
  {
    AnalysisLowerFacts();
    ParseLowered(AnalysisHeaders, AnalysisDefaults, result, "overall_status");
    ParseLowered(AnalysisHeaders, AnalysisDefaults, result, "alert_severity");
  }

  /** Text without any header line yields the defaults: status 'normal', alert
      severity 'none', frequency 'standard', and no items. */
  lemma HeaderlessTextGivesDefaults(result: string)
    requires forall i :: 0 <= i < |Split(result, '\n')| ==>
      FindHeader(AnalysisHeaders, Strip(Split(result, '\n')[i])).None?
    ensures Parse(AnalysisHeaders, AnalysisDefaults, result) == AnalysisDefaults
  {
    ParseHeaderless(AnalysisHeaders, AnalysisDefaults, result);
  }

  /** An alert row: the patient it is for, its type, severity, title and message. */
  datatype AlertDraft =
    AlertDraft(patientId: Value, alertType: string, severity: AlertSeverity, title: string, message: string)

  predicate HasAlertOfType(alerts: seq<AlertDraft>, t: string)
  {
    exists k :: 0 <= k < |alerts| && alerts[k].alertType == t
  }

  /** The alerts `_create_alerts` inserts for the submitted vitals: one 'vital_signs'
      alert, at the severity named by alert_severity (MEDIUM when unrecognised), iff
      there are abnormalities; then one MEDIUM 'trend_analysis' alert iff there are
      trends; each for the submitted patient id. Reading a missing 'patient_id' raises
      KeyError inside the try, which ends the call with no alert. */
  method CreateAlerts(vitals: Dict, analysis: Record) returns (alerts: seq<AlertDraft>)
    ensures !Has(vitals, "patient_id") ==> alerts == []
    ensures Has(vitals, "patient_id") ==>
      |alerts| == (if ListOf(analysis, "abnormalities") != [] then 1 else 0) +
                  (if ListOf(analysis, "trends") != [] then 1 else 0)
    ensures Has(vitals, "patient_id") ==>
      (HasAlertOfType(alerts, "vital_signs") <==> ListOf(analysis, "abnormalities") != []) &&
      (HasAlertOfType(alerts, "trend_analysis") <==> ListOf(analysis, "trends") != [])
    ensures forall a :: a in alerts ==>
      a.alertType in {"vital_signs", "trend_analysis"} && a.patientId == Get(vitals, "patient_id").value
    ensures forall a :: a in alerts && a.alertType == "vital_signs" ==>
      a.severity == SeverityFromKey(TextOf(analysis, "alert_severity")) &&
      a.message == "Monitoring system detected: " + JoinWith(ListOf(analysis, "abnormalities"), ", ")
    ensures forall a :: a in alerts && a.alertType == "trend_analysis" ==>
      a.severity == Medium && a.message == "Trend analysis shows: " + JoinWith(ListOf(analysis, "trends"), ", ")
    ensures |alerts| == 2 ==> alerts[0].alertType == "vital_signs"
  {
    alerts := [];
    var severity := SeverityFromKey(TextOf(analysis, "alert_severity"));
    var abnormalities := ListOf(analysis, "abnormalities");
    var trends := ListOf(analysis, "trends");
    if abnormalities != [] {
      if !Has(vitals, "patient_id") { return []; }
      alerts := alerts + [AlertDraft(Get(vitals, "patient_id").value, "vital_signs", severity,
                                     "Abnormal Vital Signs Detected",
                                     "Monitoring system detected: " + JoinWith(abnormalities, ", "))];
      assert alerts[0].alertType == "vital_signs";
    }
    if trends != [] {
      if !Has(vitals, "patient_id") { return []; }
      alerts := alerts + [AlertDraft(Get(vitals, "patient_id").value, "trend_analysis", Medium,
                                     "Concerning Health Trends Detected",
                                     "Trend analysis shows: " + JoinWith(trends, ", "))];
      assert alerts[|alerts| - 1].alertType == "trend_analysis";
      assert abnormalities != [] ==> alerts[0].alertType == "vital_signs";
    }
  }

  /** `analyze_vital_signs` after a successful model call: parse, then raise alerts only
      when the analysis lists abnormalities, so trends alone raise nothing; vitals
      without a patient id raise nothing either. */
  method AnalyzeVitalSigns(vitals: Dict, result: string) returns (analysis: Record, alerts: seq<AlertDraft>)
    ensures analysis == Parse(AnalysisHeaders, AnalysisDefaults, result)
    ensures ListOf(analysis, "abnormalities") == [] || !Has(vitals, "patient_id") ==> alerts == []
    ensures ListOf(analysis, "abnormalities") != [] && Has(vitals, "patient_id") ==>
      1 <= |alerts| <= 2 && alerts[0].alertType == "vital_signs" &&
      (|alerts| == 2 <==> ListOf(analysis, "trends") != [])
  {
    analysis := ParseAnalysisResult(result);
    alerts := [];
    if ListOf(analysis, "abnormalities") != [] {
      alerts := CreateAlerts(vitals, analysis);
      if !Has(vitals, "patient_id") {
        assert alerts == [];
      } else if ListOf(analysis, "trends") != [] {
        assert HasAlertOfType(alerts, "vital_signs");
        assert HasAlertOfType(alerts, "trend_analysis");
        assert |alerts| == 2;
      } else {
        assert HasAlertOfType(alerts, "vital_signs");
        assert !HasAlertOfType(alerts, "trend_analysis");
        assert alerts[0].alertType == "vital_signs";
      }
    }
  }
}
