/** The patient admission workflow after registration: the triage node, the routing on
    the triage level, the pathway nodes and the admission summary with its next steps.
    What the triage, monitoring and scheduling agents answer is a parameter. */
module AdmissionWorkflow {
  import opened Common
  import TriageAgent

  // ---------------------------------------------------------------------------
  // Substring facts used below

  /** A string containing `p + q` contains `q`. */
  lemma {:induction false} ContainsTail(s: string, p: string, q: string)
    requires Contains(s, p + q)
    ensures Contains(s, q)
    decreases |s|
  {
    if StartsWith(s, p + q) {
      assert s[|p|..|p| + |q|] == (p + q)[|p|..];
      ContainsAt(s, q, |p|);
    } else {
      ContainsTail(s[1..], p, q);
    }
  }

  /** A pattern longer than the string is not in it. */
  lemma {:induction false} TooLongNotContained(s: string, t: string)
    requires |t| > |s|
    ensures !Contains(s, t)
    decreases |s|
  {
    if s != [] {
      TooLongNotContained(s[1..], t);
    }
  }

  // ---------------------------------------------------------------------------
  // _extract_triage_level_from_result

  /** The keyword scan over the lower-cased text, first match wins. */
  function ExtractTriageLevel(text: string): (level: int)
    ensures 1 <= level <= 5
  {
    var t := Lower(text);
    if Contains(t, "level 1") || Contains(t, "immediate") then 1
    else if Contains(t, "level 2") || Contains(t, "emergent") then 2
    else if Contains(t, "level 3") || Contains(t, "urgent") then 3
    else if Contains(t, "level 4") then 4
    else 5
  }

  predicate MentionsHighPriority(text: string)
  {
    var t := Lower(text);
    Contains(t, "level 1") || Contains(t, "immediate") || Contains(t, "level 2") || Contains(t, "emergent")
  }

  /** The text decides level 1 or 2 exactly when it mentions one of their keywords. */
  lemma HighPriorityIff(text: string)
    ensures ExtractTriageLevel(text) <= 2 <==> MentionsHighPriority(text)
  {
  }

  /** "less urgent" reads as level 3: the 'urgent' test comes before 'level 4'. */
  lemma LessUrgentIsThree(text: string)
    requires Contains(Lower(text), "less urgent")
    requires !MentionsHighPriority(text)
    ensures ExtractTriageLevel(text) == 3
  {
    assert "less urgent" == "less " + "urgent";
    ContainsTail(Lower(text), "less ", "urgent");
  }

  /** The scan ignores case. */
  lemma ExtractIgnoresCase(text: string)
    ensures ExtractTriageLevel(Lower(text)) == ExtractTriageLevel(text)
  {
    LowerIdempotent(text);
  }

  /** `str({})` mentions nothing, so an absent assessment reads as level 5. */
  lemma EmptyDictTextIsFive()
    ensures ExtractTriageLevel("{}") == 5
  {
    LowerNoUpper("{}");
    TooLongNotContained("{}", "level 1");
    TooLongNotContained("{}", "immediate");
    TooLongNotContained("{}", "level 2");
    TooLongNotContained("{}", "emergent");
    TooLongNotContained("{}", "level 3");
    TooLongNotContained("{}", "urgent");
    TooLongNotContained("{}", "level 4");
  }

  /** The dictionary a successful `assess_patient` returns. */
  function AssessmentResult(a: TriageAgent.Assessment, assessmentId: Value): (d: Dict)
    ensures Get(d, "assessment") == Some(VStr(a.assessment))
    ensures Get(d, "triage_level") == Some(VInt(a.triageLevel))
  {
    var d := [("success", VBool(true)), ("triage_level", VInt(a.triageLevel)), ("assessment", VStr(a.assessment)),
              ("assessment_id", assessmentId), ("wait_time_estimate", VInt(a.waitTimeEstimate))];
    assert d[0].0 != "assessment" && d[1].0 != "assessment" && d[0].0 != "triage_level";
    assert d[1..][1..] == d[2..] && Get(d[2..], "assessment") == Some(VStr(a.assessment));
    d
  }

  /** `str(result.get(key, {}))`: "{}" when absent, the string itself for a string;
      the rendering of other values is not modelled (None). */
  function ResultText(result: Dict, key: string): (t: Option<string>)
    ensures !Has(result, key) ==> t == Some("{}")
    ensures Has(result, key) && Get(result, key).value.VStr? ==> t == Some(Get(result, key).value.s)
  {
    match Get(result, key)
    case None => Some("{}")
    case Some(VStr(s)) => Some(s)
    case Some(_) => None
  }

  /** The extraction as written: it reads the key 'ai_assessment'. */
  function ExtractTriageLevelAsWritten(result: Dict): Option<int>
  {
    var text := ResultText(result, "ai_assessment");
    if text.Some? then Some(ExtractTriageLevel(text.value)) else None
  }

  /** The triage agent's result has no 'ai_assessment' key, so as written every
      successful assessment -- a level 1 one included -- reads as level 5 and is
      routed to the standard pathway. */
  lemma AsWrittenAlwaysFive(a: TriageAgent.Assessment, assessmentId: Value)
    ensures ExtractTriageLevelAsWritten(AssessmentResult(a, assessmentId)) == Some(5)
    ensures RouteAfterTriage(Some(5)) == StandardPathway
  {
    var d := AssessmentResult(a, assessmentId);
    assert d[0].0 != "ai_assessment" && d[1].0 != "ai_assessment" && d[2].0 != "ai_assessment";
    assert d[3].0[1] != "ai_assessment"[1];
    assert d[4].0 != "ai_assessment";
    EmptyDictTextIsFive();
  }

  /** The corrected extraction: the keyword scan over the assessment text the triage
      agent returns. */
  function ExtractTriageLevelFromResult(a: TriageAgent.Assessment): (level: int)
    ensures 1 <= level <= 5
    ensures level <= 2 <==> MentionsHighPriority(a.assessment)
  {
    HighPriorityIff(a.assessment);
    ExtractTriageLevel(a.assessment)
  }

  /** With the corrected extraction, an assessment mentioning level 1 or 2 reaches the
      emergency pathway, and any other reaches the standard one. */
  lemma CorrectedRoutesHighPriority(a: TriageAgent.Assessment)
    ensures RouteAfterTriage(Some(ExtractTriageLevelFromResult(a))) == EmergencyPathway <==>
      MentionsHighPriority(a.assessment)
  {
  }

  // ---------------------------------------------------------------------------
  // route_after_triage

  datatype Route = EmergencyPathway | StandardPathway

  /** `state.get('triage_level', 5) <= 2`. */
  function RouteAfterTriage(triageLevel: Option<int>): (r: Route)
    ensures r == EmergencyPathway <==> triageLevel.Some? && triageLevel.value <= 2
  {
    var level := if triageLevel.Some? then triageLevel.value else 5;
    if level <= 2 then EmergencyPathway else StandardPathway
  }

  // ---------------------------------------------------------------------------
  // The workflow state and its nodes

  const PatientIdKeyError := "'patient_id'"

  class AdmissionState {
    var patientId: Option<Value>
    var registrationStatus: Option<string>
    var triageResult: Option<Dict>
    var triageStatus: Option<string>
    var triageLevel: Option<int>
    var monitoringSetup: Option<Dict>
    var appointmentResult: Option<Dict>
    var pathway: Option<string>
    var error: Option<Value>

    /** The state after registration. */
    constructor (patientId: Option<Value>, registrationStatus: Option<string>)
      ensures this.patientId == patientId && this.registrationStatus == registrationStatus
      ensures triageResult == None && triageStatus == None && triageLevel == None
      ensures monitoringSetup == None && appointmentResult == None && pathway == None && error == None
    {
      this.patientId := patientId;
      this.registrationStatus := registrationStatus;
      triageResult := None;
      triageStatus := None;
      triageLevel := None;
      monitoringSetup := None;
      appointmentResult := None;
      pathway := None;
      error := None;
    }
  }

  /** `triage_assessment` with the corrected level read: nothing happens after a failed
      registration; a missing patient id fails on the KeyError; otherwise the agent's
      outcome is recorded, with the level read from its 'assessment' text by
      `ExtractTriageLevelFromResult`. As written, the node reads 'ai_assessment' and
      stores 5 for every successful assessment (`AsWrittenAlwaysFive`). */
  method TriageAssessment(state: AdmissionState, outcome: Result<TriageAgent.Assessment>, assessmentId: Value)
    modifies state
    ensures old(state.registrationStatus) == Some("failed") ==> unchanged(state)
    ensures state.patientId == old(state.patientId) && state.registrationStatus == old(state.registrationStatus)
    ensures state.monitoringSetup == old(state.monitoringSetup) && state.appointmentResult == old(state.appointmentResult)
    ensures state.pathway == old(state.pathway)
    ensures old(state.registrationStatus) != Some("failed") && old(state.patientId).None? ==>
      state.triageStatus == Some("failed") && state.error == Some(VStr(PatientIdKeyError)) &&
      state.triageLevel == old(state.triageLevel) && state.triageResult == old(state.triageResult)
    ensures old(state.registrationStatus) != Some("failed") && old(state.patientId).Some? && outcome.Ok? ==>
      state.triageStatus == Some("completed") &&
      state.triageResult == Some(AssessmentResult(outcome.value, assessmentId)) &&
      state.triageLevel == Some(ExtractTriageLevelFromResult(outcome.value)) &&
      state.error == old(state.error)
    ensures old(state.registrationStatus) != Some("failed") && old(state.patientId).Some? && outcome.Err? ==>
      state.triageStatus == Some("failed") && state.error == Some(VStr(outcome.msg)) &&
      state.triageLevel == old(state.triageLevel) && state.triageResult == old(state.triageResult)
  {
    if state.registrationStatus == Some("failed") {
      return;
    }
    if state.patientId.None? {
      state.triageStatus := Some("failed");
      state.error := Some(VStr(PatientIdKeyError));
      return;
    }
    if outcome.Ok? {
      state.triageResult := Some(AssessmentResult(outcome.value, assessmentId));
      state.triageStatus := Some("completed");
      state.triageLevel := Some(ExtractTriageLevelFromResult(outcome.value));
    } else {
      state.triageStatus := Some("failed");
      state.error := Some(VStr(outcome.msg));
    }
  }

  /** `emergency_pathway` / `standard_pathway`: a missing patient id fails on the
      KeyError; otherwise the agents' answers are stored and the pathway is named. */
  method RunPathway(state: AdmissionState, route: Route, monitoring: Dict, appointment: Dict)
    modifies state
    ensures state.patientId == old(state.patientId) && state.registrationStatus == old(state.registrationStatus)
    ensures state.triageResult == old(state.triageResult) && state.triageStatus == old(state.triageStatus)
    ensures state.triageLevel == old(state.triageLevel)
    ensures old(state.patientId).None? ==>
      state.error == Some(VStr(PatientIdKeyError)) && state.pathway == old(state.pathway) &&
      state.monitoringSetup == old(state.monitoringSetup) && state.appointmentResult == old(state.appointmentResult)
    ensures old(state.patientId).Some? ==>
      state.monitoringSetup == Some(monitoring) && state.appointmentResult == Some(appointment) &&
      state.pathway == Some(if route == EmergencyPathway then "emergency" else "standard") &&
      state.error == old(state.error)
  {
    if state.patientId.None? {
      state.error := Some(VStr(PatientIdKeyError));
      return;
    }
    state.monitoringSetup := Some(monitoring);
    state.appointmentResult := Some(appointment);
    state.pathway := Some(if route == EmergencyPathway then "emergency" else "standard");
  }

  /** The agent method a pathway node calls first. */
  function PathwayFirstCall(route: Route): string
  {
    if route == EmergencyPathway then "setup_emergency_monitoring" else "setup_standard_monitoring"
  }

  /** `emergency_pathway` / `standard_pathway` as the source stands. MonitoringAgent
      defines neither `setup_emergency_monitoring` nor `setup_standard_monitoring`, so
      after the patient id is read the first call raises AttributeError, and the
      `except` only records the error: no monitoring, no appointment, no pathway. */
  method RunPathwayAsWritten(state: AdmissionState, route: Route)
    modifies state
    ensures state.patientId == old(state.patientId) && state.registrationStatus == old(state.registrationStatus)
    ensures state.triageResult == old(state.triageResult) && state.triageStatus == old(state.triageStatus)
    ensures state.triageLevel == old(state.triageLevel)
    ensures state.monitoringSetup == old(state.monitoringSetup) && state.appointmentResult == old(state.appointmentResult)
    ensures state.pathway == old(state.pathway)
    ensures old(state.patientId).None? ==> state.error == Some(VStr(PatientIdKeyError))
    ensures old(state.patientId).Some? ==>
      state.error == Some(VStr(NoAttribute("MonitoringAgent", PathwayFirstCall(route))))
  {
    if state.patientId.None? {
      state.error := Some(VStr(PatientIdKeyError));
      return;
    }
    state.error := Some(VStr(NoAttribute("MonitoringAgent", PathwayFirstCall(route))));
  }

  /** As written, no pathway is ever recorded, so even with the triage level read
      correctly (`ExtractTriageLevelFromResult`), an admission routed to the emergency
      pathway is finalised with the standard next steps: a level-1 patient is told to
      proceed to a scheduled appointment, with the high-priority step after it. */
  lemma AsWrittenEmergencyGetsStandardSteps()
    ensures NextStepsSpec(None, Some(1)) == StandardSteps + [HighPriorityStep]
    ensures NextStepsSpec(Some("emergency"), Some(1)) == EmergencySteps + [HighPriorityStep]
    ensures StandardSteps != EmergencySteps
  {
    assert StandardSteps[0][0] != EmergencySteps[0][0];
  }

  // ---------------------------------------------------------------------------
  // _generate_next_steps and finalize_admission

  const EmergencySteps: seq<string> :=
    ["Immediate physician evaluation", "Continuous vital signs monitoring", "Prepare for potential interventions"]
  const StandardSteps: seq<string> :=
    ["Proceed to scheduled appointment", "Complete intake documentation", "Begin routine monitoring"]
  const HighPriorityStep := "High priority - expedite all processes"

  /** What the next steps are: the pathway's three, then the high-priority step for a
      level of 2 or less (a missing level counts as 5). */
  function NextStepsSpec(pathway: Option<string>, triageLevel: Option<int>): seq<string>
  {
    var level := if triageLevel.Some? then triageLevel.value else 5;
    (if pathway == Some("emergency") then EmergencySteps else StandardSteps) +
    (if level <= 2 then [HighPriorityStep] else [])
  }

  method GenerateNextSteps(pathway: Option<string>, triageLevel: Option<int>) returns (steps: seq<string>)
    ensures steps == NextStepsSpec(pathway, triageLevel)
    ensures |steps| == 4 <==> triageLevel.Some? && triageLevel.value <= 2
    ensures |steps| == 3 || |steps| == 4
    ensures |steps| == 4 ==> steps[3] == HighPriorityStep
  {
    steps := [];
    var level := if triageLevel.Some? then triageLevel.value else 5;
    if pathway == Some("emergency") {
      steps := steps + ["Immediate physician evaluation", "Continuous vital signs monitoring",
                        "Prepare for potential interventions"];
    } else {
      steps := steps + ["Proceed to scheduled appointment", "Complete intake documentation",
                        "Begin routine monitoring"];
    }
    if level <= 2 {
      steps := steps + ["High priority - expedite all processes"];
    }
  }

  /** After routing on a level, the emergency steps and the high-priority step come
      together: both or neither. */
  lemma NextStepsAgreeWithRoute(triageLevel: Option<int>)
    ensures var route := RouteAfterTriage(triageLevel);
      var steps := NextStepsSpec(Some(if route == EmergencyPathway then "emergency" else "standard"), triageLevel);
      (steps[..3] == EmergencySteps <==> |steps| == 4) && steps[..3] != []
  {
    var route := RouteAfterTriage(triageLevel);
    var steps := NextStepsSpec(Some(if route == EmergencyPathway then "emergency" else "standard"), triageLevel);
    assert steps[..3] == (if route == EmergencyPathway then EmergencySteps else StandardSteps);
    assert EmergencySteps[0] != StandardSteps[0];
  }

  datatype AdmissionSummary = AdmissionSummary(
    patientId: Value, registrationStatus: Option<string>, triageLevel: Option<int>, pathway: Option<string>,
    appointmentScheduled: Value, monitoringActive: Value, admissionTime: Value, nextSteps: seq<string>)

  /** `d.get('success', False)` of an optional dictionary. */
  function SuccessOf(d: Option<Dict>): (v: Value)
    ensures d.None? ==> v == VBool(false)
  {
    if d.Some? && Has(d.value, "success") then Get(d.value, "success").value else VBool(false)
  }

  /** `finalize_admission`: the summary of the state, or a failure on a missing patient id.
      `admissionTime` is the state's 'admission_time', copied from the admission request. */
  method FinalizeAdmission(state: AdmissionState, admissionTime: Value) returns (r: Result<AdmissionSummary>)
    ensures old(state.patientId).None? ==> r == Err(PatientIdKeyError)
    ensures state.patientId.Some? ==>
      r.Ok? && r.value.patientId == state.patientId.value &&
      r.value.registrationStatus == state.registrationStatus && r.value.admissionTime == admissionTime &&
      r.value.triageLevel == state.triageLevel && r.value.pathway == state.pathway &&
      r.value.appointmentScheduled == SuccessOf(state.appointmentResult) &&
      r.value.monitoringActive == SuccessOf(state.monitoringSetup) &&
      r.value.nextSteps == NextStepsSpec(state.pathway, state.triageLevel)
  {
    if state.patientId.None? {
      return Err(PatientIdKeyError);
    }
    var steps := GenerateNextSteps(state.pathway, state.triageLevel);
    r := Ok(AdmissionSummary(state.patientId.value, state.registrationStatus, state.triageLevel, state.pathway,
                             SuccessOf(state.appointmentResult), SuccessOf(state.monitoringSetup),
                             admissionTime, steps));
  }
}
