/** The decisions of the emergency response workflow: the response level, the alert
    severity, the protocol and team lists, the fixed escalation triggers, and the
    per-protocol activation loop. What the emergency agent answers is a parameter. */
module EmergencyWorkflow {
  import opened Common

  datatype ResponseLevel = CodeBlue | RapidResponse | UrgentCare | StandardEmergency

  function LevelName(l: ResponseLevel): string
  {
    match l
    case CodeBlue => "code_blue"
    case RapidResponse => "rapid_response"
    case UrgentCare => "urgent_care"
    case StandardEmergency => "standard_emergency"
  }

  /** `assessment_result.get('risk_level', 'unknown')`. */
  function RiskLevel(assessment: Dict): Value
  {
    if Has(assessment, "risk_level") then Get(assessment, "risk_level").value else VStr("unknown")
  }

  /** `_determine_response_level`: critical first, then high, then medium, on either
      the reported severity or the assessed risk. */
  function DetermineResponseLevel(assessment: Dict, severity: string): ResponseLevel
  {
    var risk := RiskLevel(assessment);
    if severity == "critical" || risk == VStr("critical") then CodeBlue
    else if severity == "high" || risk == VStr("high") then RapidResponse
    else if severity == "medium" || risk == VStr("medium") then UrgentCare
    else StandardEmergency
  }

  /** How urgent a severity word is: critical 3, high 2, medium 1, anything else 0. */
  function Urgency(word: Value): nat
  {
    if word == VStr("critical") then 3
    else if word == VStr("high") then 2
    else if word == VStr("medium") then 1
    else 0
  }

  function LevelUrgency(l: ResponseLevel): nat
  {
    match l
    case CodeBlue => 3
    case RapidResponse => 2
    case UrgentCare => 1
    case StandardEmergency => 0
  }

  /** The level answers to the more urgent of severity and risk. */
  lemma ResponseIsMoreUrgentOfBoth(assessment: Dict, severity: string)
    ensures LevelUrgency(DetermineResponseLevel(assessment, severity)) ==
      if Urgency(VStr(severity)) >= Urgency(RiskLevel(assessment)) then Urgency(VStr(severity))
      else Urgency(RiskLevel(assessment))
  {
  }

  /** A missing risk level is 'unknown', so the severity alone decides. */
  lemma MissingRiskUsesSeverity(assessment: Dict, severity: string)
    requires !Has(assessment, "risk_level")
    ensures LevelUrgency(DetermineResponseLevel(assessment, severity)) == Urgency(VStr(severity))
  {
  }

  /** The emergency alert is critical for a code blue and high otherwise. */
  function AlertSeverity(level: ResponseLevel): (s: string)
    ensures s == "critical" <==> level == CodeBlue
    ensures s != "critical" ==> s == "high"
  {
    if level == CodeBlue then "critical" else "high"
  }

  // ---------------------------------------------------------------------------
  // _get_emergency_protocols

  const BaseProtocols: seq<string> := ["patient_safety", "communication", "documentation"]

  /** The group of protocols chosen by the lower-cased emergency type, if any. */
  function TypeProtocols(lowerType: string): seq<string>
  {
    if lowerType in ["cardiac", "heart attack", "chest pain"] then ["cardiac_arrest", "defibrillation", "cardiac_monitoring"]
    else if lowerType in ["respiratory", "breathing", "asthma"] then ["respiratory_distress", "oxygen_therapy", "ventilation"]
    else if lowerType in ["neurological", "stroke", "seizure"] then ["stroke_protocol", "neurological_assessment", "imaging"]
    else if lowerType in ["trauma", "injury"] then ["trauma_protocol", "bleeding_control", "immobilization"]
    else []
  }

  function LevelProtocols(level: ResponseLevel): seq<string>
  {
    match level
    case CodeBlue => ["code_blue_activation", "crash_cart", "emergency_team"]
    case RapidResponse => ["rapid_response_team", "vital_signs_monitoring"]
    case _ => []
  }

  method GetEmergencyProtocols(emergencyType: string, level: ResponseLevel) returns (protocols: seq<string>)
    ensures protocols == BaseProtocols + TypeProtocols(Lower(emergencyType)) + LevelProtocols(level)
  {
    protocols := [];
    protocols := protocols + ["patient_safety", "communication", "documentation"];
    var group := TypeGroup(Lower(emergencyType));
    protocols := protocols + group;
    var extra := LevelGroup(level);
    protocols := protocols + extra;
  }

  /** The if-chain over the lower-cased emergency type. */
  method TypeGroup(t: string) returns (group: seq<string>)
    ensures group == TypeProtocols(t)
  {
    group := [];
    if t in ["cardiac", "heart attack", "chest pain"] {
      group := ["cardiac_arrest", "defibrillation", "cardiac_monitoring"];
    } else if t in ["respiratory", "breathing", "asthma"] {
      group := ["respiratory_distress", "oxygen_therapy", "ventilation"];
    } else if t in ["neurological", "stroke", "seizure"] {
      group := ["stroke_protocol", "neurological_assessment", "imaging"];
    } else if t in ["trauma", "injury"] {
      group := ["trauma_protocol", "bleeding_control", "immobilization"];
    }
  }

  /** The if-chain over the response level. */
  method LevelGroup(level: ResponseLevel) returns (group: seq<string>)
    ensures group == LevelProtocols(level)
  {
    group := [];
    if level == CodeBlue {
      group := ["code_blue_activation", "crash_cart", "emergency_team"];
    } else if level == RapidResponse {
      group := ["rapid_response_team", "vital_signs_monitoring"];
    }
  }

  /** The protocol list starts with the three base protocols, adds at most one group of
      three for the type, then three for a code blue or two for a rapid response; the
      type is matched without regard to case. */
  lemma ProtocolsShape(emergencyType: string, level: ResponseLevel)
    ensures var p := BaseProtocols + TypeProtocols(Lower(emergencyType)) + LevelProtocols(level);
      p[..3] == BaseProtocols &&
      |p| == 3 + |TypeProtocols(Lower(emergencyType))| + |LevelProtocols(level)| &&
      |TypeProtocols(Lower(emergencyType))| in {0, 3} &&
      |LevelProtocols(level)| == (if level == CodeBlue then 3 else if level == RapidResponse then 2 else 0)
    ensures TypeProtocols(Lower(Lower(emergencyType))) == TypeProtocols(Lower(emergencyType))
  {
    LowerIdempotent(emergencyType);
  }

  // ---------------------------------------------------------------------------
  // _get_required_team_members

  const BaseTeam: seq<string> := ["emergency_team", "charge_nurse"]

  function TypeTeam(lowerType: string): seq<string>
  {
    if lowerType in ["cardiac", "heart attack"] then ["cardiologist", "cardiology_team"]
    else if lowerType in ["respiratory", "breathing"] then ["pulmonologist", "respiratory_therapist"]
    else if lowerType in ["neurological", "stroke"] then ["neurologist", "neurology_team"]
    else if lowerType in ["trauma", "injury"] then ["trauma_surgeon", "trauma_team"]
    else []
  }

  function LevelTeam(level: ResponseLevel): seq<string>
  {
    match level
    case CodeBlue => ["anesthesiologist", "emergency_physician", "respiratory_therapist"]
    case RapidResponse => ["hospitalist", "critical_care_nurse"]
    case _ => []
  }

  method GetRequiredTeamMembers(emergencyType: string, level: ResponseLevel) returns (team: seq<string>)
    ensures team == BaseTeam + TypeTeam(Lower(emergencyType)) + LevelTeam(level)
  {
    team := [];
    team := team + ["emergency_team", "charge_nurse"];
    var specialists := TypeSpecialists(Lower(emergencyType));
    team := team + specialists;
    var extra := LevelSpecialists(level);
    team := team + extra;
  }

  /** The if-chain over the lower-cased emergency type. */
  method TypeSpecialists(t: string) returns (members: seq<string>)
    ensures members == TypeTeam(t)
  {
    members := [];
    if t in ["cardiac", "heart attack"] {
      members := ["cardiologist", "cardiology_team"];
    } else if t in ["respiratory", "breathing"] {
      members := ["pulmonologist", "respiratory_therapist"];
    } else if t in ["neurological", "stroke"] {
      members := ["neurologist", "neurology_team"];
    } else if t in ["trauma", "injury"] {
      members := ["trauma_surgeon", "trauma_team"];
    }
  }

  /** The if-chain over the response level. */
  method LevelSpecialists(level: ResponseLevel) returns (members: seq<string>)
    ensures members == LevelTeam(level)
  {
    members := [];
    if level == CodeBlue {
      members := ["anesthesiologist", "emergency_physician", "respiratory_therapist"];
    } else if level == RapidResponse {
      members := ["hospitalist", "critical_care_nurse"];
    }
  }

  /** The team is not de-duplicated: a respiratory code blue lists the respiratory
      therapist twice. A chest-pain emergency gets the cardiac protocols but no
      cardiology team. */
  lemma TeamQuirks()
    ensures var team := BaseTeam + TypeTeam("respiratory") + LevelTeam(CodeBlue);
      team[3] == team[6] == "respiratory_therapist" && !NoDuplicates(team)
    ensures TypeProtocols("chest pain") != [] && TypeTeam("chest pain") == []
  {
    var team := BaseTeam + TypeTeam("respiratory") + LevelTeam(CodeBlue);
    assert team == ["emergency_team", "charge_nurse", "pulmonologist", "respiratory_therapist",
                    "anesthesiologist", "emergency_physician", "respiratory_therapist"];
  }

  /** The team always starts with the emergency team and the charge nurse. */
  lemma TeamStartsWithBase(emergencyType: string, level: ResponseLevel)
    ensures (BaseTeam + TypeTeam(Lower(emergencyType)) + LevelTeam(level))[..2] == BaseTeam
    ensures |BaseTeam + TypeTeam(Lower(emergencyType)) + LevelTeam(level)| <= 7
  {
  }

  // ---------------------------------------------------------------------------
  // _setup_escalation_triggers

  datatype Trigger = Trigger(kind: string, condition: string, action: string, priority: string)

  /** The escalation triggers: three on vital signs, then two on elapsed time. */
  const EscalationTriggers: seq<Trigger> := [
    Trigger("vital_signs", "heart_rate < 50 or heart_rate > 150", "escalate_to_critical_care", "high"),
    Trigger("vital_signs", "oxygen_saturation < 90", "escalate_to_respiratory_care", "high"),
    Trigger("vital_signs", "systolic_bp < 80 or systolic_bp > 200", "escalate_to_critical_care", "high"),
    Trigger("time", "no_improvement_after_15_minutes", "escalate_response_level", "medium"),
    Trigger("time", "no_improvement_after_30_minutes", "activate_code_blue", "high")
  ]

  /** The triggers set up are the escalation triggers, whatever the patient and
      emergency type. */
  method SetupEscalationTriggers(patientId: string, emergencyType: string) returns (triggers: seq<Trigger>)
    ensures triggers == EscalationTriggers
  {
    triggers := [];
    triggers := triggers + [Trigger("vital_signs", "heart_rate < 50 or heart_rate > 150", "escalate_to_critical_care", "high")];
    triggers := triggers + [Trigger("vital_signs", "oxygen_saturation < 90", "escalate_to_respiratory_care", "high")];
    triggers := triggers + [Trigger("vital_signs", "systolic_bp < 80 or systolic_bp > 200", "escalate_to_critical_care", "high")];
    triggers := triggers + [Trigger("time", "no_improvement_after_15_minutes", "escalate_response_level", "medium")];
    triggers := triggers + [Trigger("time", "no_improvement_after_30_minutes", "activate_code_blue", "high")];
  }

  /** Five triggers, the vital-sign ones before the time ones; every trigger is of
      high priority except the 15-minute one, and only the 30-minute one activates a
      code blue. */
  lemma EscalationTriggersShape()
    ensures |EscalationTriggers| == 5
    ensures forall k :: 0 <= k < 3 ==> EscalationTriggers[k].kind == "vital_signs"
    ensures forall k :: 3 <= k < 5 ==> EscalationTriggers[k].kind == "time"
    ensures forall k :: 0 <= k < 5 ==> (EscalationTriggers[k].priority == "medium" <==> k == 3)
    ensures forall k :: 0 <= k < 5 ==> (EscalationTriggers[k].action == "activate_code_blue" <==> k == 4)
  {
    var t := EscalationTriggers;
    assert t[3].priority[0] == 'm' && t[0].priority[0] == 'h';
    assert t[4].action[0] == 'a' && t[0].action[0] == 'e' && t[1].action[0] == 'e' && t[2].action[0] == 'e' && t[3].action[0] == 'e';
  }

  // ---------------------------------------------------------------------------
  // _activate_emergency_protocols

  /** One protocol's activation: the agent's answer, or a failure when it raised. */
  datatype Activation = Activated(protocol: string, result: Value) | ActivationFailed(protocol: string)

  datatype ActivationReport = ActivationReport(alertSeverity: string, alertCreated: bool, responseLevel: ResponseLevel,
                                               activated: seq<Activation>, totalProtocols: nat)

  /** The emergency alert, then one activation entry per protocol, failed or not.
      `agentAnswers` maps each protocol the agent activates to its answer; a protocol
      missing from it stands for an activation that raised. */
  method ActivateEmergencyProtocols(emergencyType: string, level: ResponseLevel, alertCreated: bool,
                                    agentAnswers: map<string, Value>) returns (r: ActivationReport)
    ensures r.alertSeverity == AlertSeverity(level) && r.alertCreated == alertCreated && r.responseLevel == level
    ensures var protocols := BaseProtocols + TypeProtocols(Lower(emergencyType)) + LevelProtocols(level);
      r.totalProtocols == |protocols| == |r.activated| &&
      forall k :: 0 <= k < |protocols| ==>
        r.activated[k].protocol == protocols[k] &&
        (r.activated[k].Activated? <==> protocols[k] in agentAnswers) &&
        (r.activated[k].Activated? ==> r.activated[k].result == agentAnswers[protocols[k]])
  {
    var severity := AlertSeverity(level);
    var protocols := GetEmergencyProtocols(emergencyType, level);
    var activated := ActivateAll(protocols, agentAnswers);
    r := ActivationReport(severity, alertCreated, level, activated, |protocols|);
  }

  /** The `except` answer of `_activate_emergency_protocols`. */
  datatype ActivationFailure = ActivationFailure(alertCreated: bool, error: string,
                                                 activated: seq<Activation>, totalProtocols: nat)

  /** `_activate_emergency_protocols` as the source stands. EmergencyAgent defines no
      `create_emergency_alert`, so the first call raises AttributeError before any
      protocol is looked at, and the outer `except` answers with no alert and no
      protocol, whatever the type and level. */
  function ActivationAsWritten(emergencyType: string, level: ResponseLevel): (r: ActivationFailure)
    ensures !r.alertCreated && r.activated == [] && r.totalProtocols == 0
    ensures r.error == NoAttribute("EmergencyAgent", "create_emergency_alert")
  {
    ActivationFailure(false, NoAttribute("EmergencyAgent", "create_emergency_alert"), [], 0)
  }

  /** As written, every emergency loses its protocols: the list the workflow builds
      holds at least the three base protocols, and `ActivateEmergencyProtocols` reports
      one entry for each, but the as-written answer reports none. */
  lemma AsWrittenActivatesNothing(emergencyType: string, level: ResponseLevel)
    ensures var protocols := BaseProtocols + TypeProtocols(Lower(emergencyType)) + LevelProtocols(level);
      |protocols| >= 3 &&
      ActivationAsWritten(emergencyType, level).totalProtocols == 0 < |protocols|
  {
  }

  /** The loop over the protocols: each one is activated, or recorded as failed when
      the agent raised. */
  method ActivateAll(protocols: seq<string>, agentAnswers: map<string, Value>) returns (activated: seq<Activation>)
    ensures |activated| == |protocols|
    ensures forall k :: 0 <= k < |protocols| ==>
      activated[k].protocol == protocols[k] &&
      (activated[k].Activated? <==> protocols[k] in agentAnswers) &&
      (activated[k].Activated? ==> activated[k].result == agentAnswers[protocols[k]])
  {
    activated := [];
    var i := 0;
    while i < |protocols|
      invariant 0 <= i <= |protocols| && |activated| == i
      invariant forall k :: 0 <= k < i ==>
        activated[k].protocol == protocols[k] &&
        (activated[k].Activated? <==> protocols[k] in agentAnswers) &&
        (activated[k].Activated? ==> activated[k].result == agentAnswers[protocols[k]])
    {
      var protocol := protocols[i];
      if protocol in agentAnswers {
        activated := activated + [Activated(protocol, agentAnswers[protocol])];
      } else {
        activated := activated + [ActivationFailed(protocol)];
      }
      i := i + 1;
    }
  }
}
