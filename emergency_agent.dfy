/** The deterministic part of the emergency agent: the parse of the model's response plan
    and the severity stored on the emergency record. */
module EmergencyAgent {
  import opened Common
  import opened Models
  import opened SectionParser

  const PlanHeaders: seq<Header> := [
    Header("SEVERITY:", SetText("severity", true)),
    Header("IMMEDIATE_ACTIONS:", OpenList("immediate_actions")),
    Header("REQUIRED_TEAM:", OpenList("required_team")),
    Header("RESPONSE_TIME:", SetInt("response_time")),
    Header("INTERVENTIONS:", OpenList("interventions")),
    Header("PROTOCOL:", SetText("protocol", false)),
    Header("ASSESSMENT:", SetText("assessment", false))
  ]

  /** Response time defaults to 300 seconds. */
  const DefaultResponseTime := 300

  const PlanDefaults: Record := Record(
    map["severity" := "medium", "protocol" := "", "assessment" := ""],
    map["response_time" := DefaultResponseTime],
    map["immediate_actions" := [], "required_team" := [], "interventions" := []])

  method ParseEmergencyResponse(result: string) returns (plan: Record)
    ensures plan == Parse(PlanHeaders, PlanDefaults, result)
  {
    plan := ParseText(PlanHeaders, PlanDefaults, result);
  }

  lemma PlanTableFacts()
    ensures Targets(PlanHeaders, PlanDefaults)
    ensures PlanDefaults.texts.Keys == {"severity", "protocol", "assessment"}
    ensures PlanDefaults.ints.Keys == {"response_time"}
    ensures PlanDefaults.lists.Keys == {"immediate_actions", "required_team", "interventions"}
  {
  }

  lemma PlanLowerFacts()
    ensures LowersText(PlanHeaders, "severity")
    ensures Lower(PlanDefaults.texts["severity"]) == PlanDefaults.texts["severity"]
  {
    var d := PlanDefaults.texts;
    assert d["severity"] == "medium";
    LowerNoUpper(d["severity"]);
    var hs := PlanHeaders;
    assert hs[0].action == SetText("severity", true);
    assert !hs[1].action.SetText? && !hs[2].action.SetText? && !hs[3].action.SetText? && !hs[4].action.SetText?;
    assert hs[5].action.field == "protocol" && hs[6].action.field == "assessment";
    LowersTextAt(hs, "severity");
  }

  /** Whatever the text, the plan has exactly the default fields. */
  lemma PlanShape(result: string)
    ensures Parse(PlanHeaders, PlanDefaults, result).texts.Keys == {"severity", "protocol", "assessment"}
    ensures Parse(PlanHeaders, PlanDefaults, result).ints.Keys == {"response_time"}
    ensures Parse(PlanHeaders, PlanDefaults, result).lists.Keys == {"immediate_actions", "required_team", "interventions"}
  {
    PlanTableFacts();
    ParseKeepsFields(PlanHeaders, PlanDefaults, result);
  }

  /** The severity is always lower case. */
  lemma SeverityLowerCase(result: string)
    ensures Lower(TextOf(Parse(PlanHeaders, PlanDefaults, result), "severity")) ==
      TextOf(Parse(PlanHeaders, PlanDefaults, result), "severity")
  {
    PlanLowerFacts();
    ParseLowered(PlanHeaders, PlanDefaults, result, "severity");
  }

  /** RESPONSE_TIME only overwrites when its text reads as an int: the response time is
      300 or the int() reading of one of the lines. */
  lemma ResponseTimeDefaultOrParsed(result: string)
    ensures IntOf(Parse(PlanHeaders, PlanDefaults, result), "response_time") == DefaultResponseTime ||
      IntOnSomeLine(Split(result, '\n'), IntOf(Parse(PlanHeaders, PlanDefaults, result), "response_time"))
  {
    PlanTableFacts();
    ParseIntDefaultOrLine(PlanHeaders, PlanDefaults, result, "response_time");
  }

  /** Text without any header line yields the defaults. */
  lemma HeaderlessTextGivesDefaults(result: string)
    requires forall i :: 0 <= i < |Split(result, '\n')| ==>
      FindHeader(PlanHeaders, Strip(Split(result, '\n')[i])).None?
    ensures Parse(PlanHeaders, PlanDefaults, result) == PlanDefaults
  {
    ParseHeaderless(PlanHeaders, PlanDefaults, result);
  }

  /** The severity stored on the emergency record: the parsed severity when it names a
      level, MEDIUM otherwise. */
  function RecordSeverity(plan: Record): (s: AlertSeverity)
    ensures TextOf(plan, "severity") !in {"low", "medium", "high", "critical"} ==> s == Medium
    ensures TextOf(plan, "severity") in {"low", "medium", "high", "critical"} ==> SeverityValue(s) == TextOf(plan, "severity")
  {
    SeverityFromKey(TextOf(plan, "severity"))
  }
}
