# Healthcare agents: the deterministic rules, modelled and proved in Dafny

The healthcare-agents system is a set of language-model agents (triage, monitoring,
emergency, treatment, medical records, scheduling, chatbot) wired into workflows and
served by a Flask API over a patient database. Around the model calls sit plain,
deterministic rules. This project models those rules and proves what they promise:

- **Vital-sign classification and escalation.** Models the band classifier and severity
  breakpoints of the vital-signs analysis tool and the inline alert rule of the vitals
  route (as it would run if the route's validation check worked; see "## Left out"). Also the monitoring workflow's buckets, alerts, escalation level and dispatch,
  the emergency workflow's response level, protocols, team and triggers, the triage
  level parse and wait time, and admission routing.
- **Validators, sanitisers and masking.** Covers `HealthcareValidators`,
  `DataSanitizer`, `ValidationResult`, the validation and data-quality tools,
  the middleware's recursive masking, token and required-field checks, and the patient
  registration form's check chain.
- **Line-prefix section parsers.** The agents share one parsing pattern:
  - a record of defaults;
  - header lines that set a scalar or open a list section;
  - `-` lines appended to the open section.

  `SectionParser` models this pattern once: a `Parse` specification as a left fold, and
  a loop method proved equal to it. The monitoring, emergency, treatment,
  medical-records and scheduling agents each instantiate it with their own header table.
- **Appointment slots.** The fixed half-hour grid from 9:00 to 16:30 is filtered by the
  half-open overlap test. Times are integer minutes.
- **Small utilities.** Notification recipients and priorities, the patient-search SQL
  builder (one placeholder per parameter), the vital-sign recorder's filter and unit
  map, the chatbot's fence stripping, keyword fallback, routing and history cap, the
  console intake's `comma_list` and `ask`, and the project tree printer (file icons,
  sort order, connectors, counters).

Python values are a `Value` datatype. A dict is an ordered `seq<(string, Value)>`, so
insertion order and the order of error lists are kept. `Common` models the Python
built-ins the rules use: `strip`, `lower`, `upper`, `split`, `join`, `startswith`,
`in` on strings, `int()`, `float()`, `dict.get`, item assignment, `dict.update` and
truthiness. Those helpers have no row of their own below. Sensor readings are `real`.
Objects the source updates in place are classes with `modifies` clauses:
- a stored treatment;
- an appointment;
- an alert;
- the chatbot context;
- the admission state;
- the validation result;
- the tree generator.

Anything that comes from the language model, the database, the clock or the console is
a parameter.

## Model

| member | source | states |
|---|---|---|
| MedicalTools.TableOrdered | src/tools/medical_tools.py:497-518 | every breakpoint triple of the severity table is ordered away from the normal band (moderate before high before critical) |
| MedicalTools.ClassifyDeepest | src/tools/medical_tools.py:520-537 | with ordered breakpoints the severity is at least moderate, high or critical exactly when the value is at or past that breakpoint (`<=` below the band, `>=` above it) |
| MedicalTools.SeverityMonotone | src/tools/medical_tools.py:497-536 | for one vital and direction, a value further from the normal band never gets a lower severity |
| MedicalTools.SeverityExamples | src/tools/medical_tools.py:494-537 | heart rate 145 is 'high' and 150 'critical'; any oxygen saturation above 100 is 'critical'; respiratory rate and blood glucose abnormalities are always 'low' |
| MedicalTools.Check | src/tools/medical_tools.py:430-449 | a vital outside the normal-range table or with a None value is skipped; a non-number in a known vital raises; a number is abnormal exactly when strictly below min or above max, with status 'low' iff below min and the severity of `_assess_vital_severity` |
| MedicalTools.ScanRaisesIff | src/tools/medical_tools.py:430-449 | the scan of the dictionary raises exactly when some known vital holds a non-number |
| MedicalTools.ScanMembers | src/tools/medical_tools.py:430-449 | without a raise, the abnormalities are exactly the entries reported abnormal: in-range values, unknown vitals and None values never appear |
| MedicalTools.MaxSeverity | src/tools/medical_tools.py:452-461 | the overall severity ranks at or above every abnormality's severity and is the severity of one of them |
| MedicalTools.AnalyzeVitalSigns | src/tools/medical_tools.py:411-492 | the loop's result is the scan followed by grading: the error report when the scan raises, else the abnormalities, their overall severity, its two recommendations and `abnormal_count` equal to the number of abnormalities |
| MedicalTools.OverallIsWorst | src/tools/medical_tools.py:415-461 | overall severity is 'normal' iff there is no abnormality; otherwise it is the maximum abnormality severity in the order critical > high > moderate > low |
| MedicalTools.CheckPair | src/tools/medical_tools.py:113-142 | a pair interacts iff either lower-cased drug's entry lists the other; the drug whose entry lists the other is named first (the first direction wins) and the description names both |
| MedicalTools.PairSymmetricCaseInsensitive | src/tools/medical_tools.py:117-140 | whether a pair interacts depends neither on the order of the two drugs nor on their letter case |
| MedicalTools.CheckRow | src/tools/medical_tools.py:47-52 | the inner loop of the pair check collects exactly the row's interactions for columns j > i |
| MedicalTools.RowMembers | src/tools/medical_tools.py:49-52 | row i of the pair loop reports exactly the interactions of i with the later medications |
| MedicalTools.PairRows | src/tools/medical_tools.py:47-52 | the outer loop's findings are exactly the union of its rows |
| MedicalTools.PairInteractionsMembers | src/tools/medical_tools.py:47-52 | the reported interactions are exactly those of the pairs i < j: each unordered pair is examined once |
| MedicalTools.PairInteractionsBound | src/tools/medical_tools.py:47-52 | there is at most one interaction per unordered pair, so at most n(n-1)/2 for n medications |
| MedicalTools.CheckContraindications | src/tools/medical_tools.py:144-158 | a medication has a contraindication entry iff its lower-cased name is in the table; the entry keeps the caller's spelling and lists the table's conditions |
| MedicalTools.Contraindicated | src/tools/medical_tools.py:55-58 | the contraindication loop reports only entries of listed medications, at most one per medication |
| MedicalTools.ContraindicatedComplete | src/tools/medical_tools.py:55-58 | every medication with a contraindication entry is reported |
| MedicalTools.DrugRecommendations | src/tools/medical_tools.py:160-175 | the single "no known interactions" line appears iff nothing was found; otherwise two lines per kind of finding |
| MedicalTools.CheckDrugInteractions | src/tools/medical_tools.py:37-66 | the tool's report holds the pair interactions, the contraindications, `safe_to_prescribe` iff both are empty, and the recommendations for them |
| MedicalTools.SafeIffNothingFound | src/tools/medical_tools.py:47-64 | safe to prescribe iff no pair i < j interacts and no medication's lower-cased name has a contraindication entry |
| MedicalTools.BasicTableExamples | src/tools/medical_tools.py:94-110 | with the built-in fallback table, warfarin and aspirin interact and warfarin is named first |
| MedicalTools.PartialMatchesOf | src/tools/medical_tools.py:211-217 | the partial matches are exactly the table entries whose code contains the upper-cased code or is contained in it |
| MedicalTools.LookupMedicalCode | src/tools/medical_tools.py:183-232 | an unknown lower-cased code type gives the unsupported-type error with the known types; an exact upper-cased code gives its description; otherwise the partial matches in table order, or 'Code not found' when there are none |
| MedicalTools.NotFoundIffNoOverlap | src/tools/medical_tools.py:211-232 | a code missing from the table is reported as not found iff no table code contains it or is contained in it |
| MedicalTools.MatchesIn | src/tools/medical_tools.py:296-307 | each hit for a symptom names a condition whose symptom list holds the lower-cased symptom and carries that symptom as its only match |
| MedicalTools.MergeNames | src/tools/medical_tools.py:310-318 | the merged list names exactly the conditions that were hit |
| MedicalTools.MergeDistinct | src/tools/medical_tools.py:310-318 | each condition appears at most once in the merged list |
| MedicalTools.MergeSymptoms | src/tools/medical_tools.py:310-316 | each merged condition carries all of its matching symptoms, in the order they were found |
| MedicalTools.SymptomSeverity | src/tools/medical_tools.py:293-328 | the assessment is one of low/moderate/high/critical, ranks at or above every condition's severity, and is the severity of some condition unless it is the default 'low' |
| MedicalTools.SymptomMatches | src/tools/medical_tools.py:297-307 | the loop over the condition table collects exactly the hits the table gives the symptom, in table order |
| MedicalTools.MergeAll | src/tools/medical_tools.py:310-318 | the loop over the hits folds each one into the merged list, giving the merge of all the hits |
| MedicalTools.AnalyzeSymptoms | src/tools/medical_tools.py:285-349 | the report holds the merged conditions, their severity assessment, its recommendations, and `total_conditions_found` equal to the number of merged conditions |
| MonitoringWorkflow.NumericErrors | src/workflows/monitoring_workflow.py:302-308 | the numeric check adds at most one error per numeric field examined |
| MonitoringWorkflow.ValidateVitalSignsFallback | src/workflows/monitoring_workflow.py:289-311 | the basic validation's errors are the missing-patient_id error followed by one error per present, non-null, non-numeric field, in field order; `is_valid` iff no error was added; no warnings |
| MonitoringWorkflow.NumericError | src/workflows/monitoring_workflow.py:306-311 | one field's check adds exactly the next step of the numeric errors: the 'must be numeric' error when the field is present, not None and float() rejects it, nothing otherwise |
| MonitoringWorkflow.NumericErrorsEmpty | src/workflows/monitoring_workflow.py:302-308 | the numeric check adds no error iff none of the examined fields holds a present, non-null non-number |
| MonitoringWorkflow.FallbackValidIff | src/workflows/monitoring_workflow.py:289-311 | the basic validation passes iff patient_id is present and none of the five numeric fields holds a non-number |
| MonitoringWorkflow.CheckAbnormalities | src/workflows/monitoring_workflow.py:345-377 | each bucket list holds exactly the abnormalities of its severity, in order, and the total is the number of abnormalities |
| MonitoringWorkflow.BucketsPartition | src/workflows/monitoring_workflow.py:356-372 | the four bucket counts sum to `total_abnormalities` |
| MonitoringWorkflow.InBucketMembers | src/workflows/monitoring_workflow.py:356-365 | an abnormality is in a bucket iff its severity selects that bucket, so each is in exactly one |
| MonitoringWorkflow.UnknownSeverityIsLow | src/workflows/monitoring_workflow.py:357-365 | an abnormality with a missing or unrecognised severity goes into the low bucket |
| MonitoringWorkflow.CountSeverity | src/workflows/monitoring_workflow.py:439-440 | the number of generated alerts of one severity is at most the number of alerts |
| MonitoringWorkflow.GenerateAlertsIfNeeded | src/workflows/monitoring_workflow.py:386-441 | with a `create_alert` that answers (the intended node; see "## Findings"), the details are the critical alert with the agent's id when there are critical abnormalities and the agent created it, followed by the high alert with its id under the same condition for high; at most one of each, and the two counts add up to `alerts_generated` |
| MonitoringWorkflow.GenerateAlertsAsWritten | src/workflows/monitoring_workflow.py:386-448 | as the source stands, a non-empty critical or high bucket ends in the `except` answer, no alert generated and MonitoringAgent's AttributeError for `create_alert`; only two empty buckets return a summary, with no alert |
| MonitoringWorkflow.AsWrittenNeverAlerts | src/workflows/monitoring_workflow.py:392-404 | as written, a single critical abnormality yields the error answer with 0 alerts generated |
| MonitoringWorkflow.AssessEscalation | src/workflows/monitoring_workflow.py:517-543 | `escalation_needed` iff the level is not 'none'; the reason text names both counts |
| MonitoringWorkflow.EscalationLevels | src/workflows/monitoring_workflow.py:524-535 | any critical alert gives 'emergency' whatever the high count; otherwise two or more high give 'urgent', exactly one 'attention', none 'none' |
| MonitoringWorkflow.EscalationMonotone | src/workflows/monitoring_workflow.py:524-535 | more critical or high alerts never give a lower escalation level |
| MonitoringWorkflow.Dispatch | src/workflows/monitoring_workflow.py:553-579 | only 'emergency', 'urgent' and 'attention' lead to an action; any other level to none |
| MonitoringWorkflow.DispatchOfAssessment | src/workflows/monitoring_workflow.py:524-579 | after assessment, the emergency agent is called iff there is a critical alert, monitoring is escalated iff two or more high, staff are notified iff exactly one high, and nothing happens iff no escalation is needed |
| Routes.RuleAlertMeaning | src/api/routes.py:370-398 | for a truthy value, a value inside the normal band raises no alert; one outside the medium band raises a 'high' alert; one between the bands a 'medium' alert |
| Routes.RulesWellFormed | src/api/routes.py:370-398 | the heart-rate, blood-pressure and temperature rules each have their normal band inside their medium band |
| Routes.HeartRateExamples | src/api/routes.py:370-374 | heart rate 55 gives 'medium', 45 'high', 80 no alert, and 0 (falsy) no alert |
| Routes.AlertFor | src/api/routes.py:370-404 | one signal creates at most one alert, exactly when its rule fires, with the rule's severity and title |
| Routes.RaiseIfAbnormal | src/api/routes.py:370-404 | one step of the submission appends that signal's alert, if any, and its name to `alerts_created` |
| Routes.SubmitVitalAlerts | src/api/routes.py:369-404 | the alerts are those of the three rules in order, and `alerts_created` lists their signal names (the intended route; see Findings) |
| Routes.SubmitVitalSignsAsWritten | src/api/routes.py:342-422 | as written, every JSON object body ends in the 500 answer quoting the AttributeError for `is_valid`, with no alert created |
| Routes.AsWrittenVitalsCreateNoAlert | src/api/routes.py:352-369 | a heart rate of 45 would raise one high heart-rate alert, yet the route as written creates none |
| Routes.SubmissionAlertsShape | src/api/routes.py:369-404 | at most three alerts, no signal twice, each signal present iff its rule fires, heart_rate first and temperature last when present |
| Routes.FloorDiv | src/api/routes.py:160 | Python's `//`: the quotient is rounded toward minus infinity |
| Routes.IntArg | src/api/routes.py:115-116 | `request.args.get(k, default, type=int)`: the parsed integer, or the default when the argument is absent or not an integer |
| Routes.Paginate | src/api/routes.py:115-160 | `per_page` is the requested value capped at 100, `offset` is (page-1)·per_page, and a zero `per_page` makes the request fail |
| Routes.PagesIsCeiling | src/api/routes.py:160 | `pages` is the ceiling of total/per_page: enough pages for every patient, none empty, and zero pages iff no patients |
| Routes.PerPageCapped | src/api/routes.py:116 | `per_page` never exceeds 100 and is exactly 100 when 100 or more is asked for |
| Routes.Alert.constructor | src/database/models.py:160-182 | a new alert is unacknowledged and unresolved, with the given patient, severity and title |
| Routes.Acknowledger | src/api/routes.py:519 | the actor is the request's `acknowledged_by`, defaulting to 'system' |
| Routes.AcknowledgeAlert | src/api/routes.py:513-537 | an unknown id gives 404 and changes nothing; otherwise the alert becomes acknowledged by the actor at the given time, and resolved and all other fields stay as they were |
| Models.SeverityFromKey | src/agents/monitoring_agent.py:229-236 | `severity_map.get(key, AlertSeverity.MEDIUM)`: an exact stored value names its severity and any other key falls back to MEDIUM |
| Models.SeverityRoundTrip | src/database/models.py:45-50 | every alert severity is recovered from its stored value |
| Models.TriageLevelFromValue | src/database/models.py:21-27 | the triage level enumeration accepts exactly the strings "1" to "5", each naming its digit |
| TriageAgent.Clamp | src/agents/triage_agent.py:184 | `max(1, min(5, level))` lies in 1..5, keeps levels already in range, and sends smaller values to 1 and larger ones to 5 |
| TriageAgent.FirstDigit | src/agents/triage_agent.py:181 | the position of the first digit, with no digit before it; None iff there is no digit |
| TriageAgent.DigitPrefix | src/agents/triage_agent.py:181 | the maximal run of digits at the start of the text |
| TriageAgent.FirstNumber | src/agents/triage_agent.py:181-183 | `re.search(r'\d+', ...)`: a non-empty run of digits, absent iff the text holds no digit |
| TriageAgent.LineLevel | src/agents/triage_agent.py:177-184 | a line that decides the level yields a level in 1..5 |
| TriageAgent.LevelOf | src/agents/triage_agent.py:175-187 | the parsed level is always in 1..5 |
| TriageAgent.ParseTriageLevel | src/agents/triage_agent.py:171-187 | the line loop with its early return computes the level of the first deciding line, or the default |
| TriageAgent.FirstDecidingLineWins | src/agents/triage_agent.py:176-184 | the first line starting with 'TRIAGE_LEVEL:' whose text between the first and second ':' holds a digit decides the level, later lines are ignored |
| TriageAgent.NoDecidingLineDefaults | src/agents/triage_agent.py:176-187 | without such a line the level defaults to 3 |
| TriageAgent.WaitTimeMonotone | src/agents/triage_agent.py:220-229 | over levels 1..5 (0, 15, 30, 60, 120 minutes) a less urgent level never waits less |
| TriageAgent.WaitTimeDefault | src/agents/triage_agent.py:228-229 | a level outside the table waits 30 minutes |
| TriageAgent.AssessPatient | src/agents/triage_agent.py:46-61 | a successful assessment reports the parsed level, in 1..5, the model's text, and the wait time of that level |
| EmergencyWorkflow.ResponseIsMoreUrgentOfBoth | src/workflows/emergency_response_workflow.py:118-130 | the response level answers to the more urgent of the severity and the assessed risk: critical gives code_blue, else high rapid_response, else medium urgent_care, else standard_emergency |
| EmergencyWorkflow.MissingRiskUsesSeverity | src/workflows/emergency_response_workflow.py:120 | without a risk level ('unknown') the severity alone decides |
| EmergencyWorkflow.AlertSeverity | src/workflows/emergency_response_workflow.py:139 | the emergency alert is 'critical' iff the response level is code_blue, else 'high' |
| EmergencyWorkflow.GetEmergencyProtocols | src/workflows/emergency_response_workflow.py:299-322 | the protocols are the three base ones, then the group of the lower-cased emergency type, then those of the response level |
| EmergencyWorkflow.TypeGroup | src/workflows/emergency_response_workflow.py:307-314 | the type's if-chain adds the cardiac, respiratory, neurological or trauma group for the names each branch lists, and nothing for any other type |
| EmergencyWorkflow.LevelGroup | src/workflows/emergency_response_workflow.py:317-320 | the level's if-chain adds three protocols for a code blue, two for a rapid response, none otherwise |
| EmergencyWorkflow.ProtocolsShape | src/workflows/emergency_response_workflow.py:299-322 | the list starts with patient_safety, communication, documentation, adds at most one 3-item type group, then 3 for code_blue or 2 for rapid_response; the type match ignores case |
| EmergencyWorkflow.GetRequiredTeamMembers | src/workflows/emergency_response_workflow.py:324-347 | the team is the two base members, then the type's members, then the level's, without deduplication |
| EmergencyWorkflow.TypeSpecialists | src/workflows/emergency_response_workflow.py:332-339 | the type's if-chain adds the two specialists of the cardiac, respiratory, neurological or trauma branch, and nobody for any other type |
| EmergencyWorkflow.LevelSpecialists | src/workflows/emergency_response_workflow.py:342-345 | the level's if-chain adds three members for a code blue, two for a rapid response, none otherwise |
| EmergencyWorkflow.TeamQuirks | src/workflows/emergency_response_workflow.py:307-347 | a respiratory code_blue lists respiratory_therapist twice, and 'chest pain' gets cardiac protocols but no cardiology team |
| EmergencyWorkflow.TeamStartsWithBase | src/workflows/emergency_response_workflow.py:324-347 | the team always starts with emergency_team and charge_nurse and has at most seven members |
| EmergencyWorkflow.SetupEscalationTriggers | src/workflows/emergency_response_workflow.py:349-390 | the triggers are exactly the five listed conditions, actions and priorities, in the source's order, whatever the patient and emergency type |
| EmergencyWorkflow.EscalationTriggersShape | src/workflows/emergency_response_workflow.py:351-388 | three 'vital_signs' triggers come before two 'time' triggers; only the 15-minute trigger is of medium priority, and only the 30-minute one activates a code blue |
| EmergencyWorkflow.ActivateEmergencyProtocols | src/workflows/emergency_response_workflow.py:132-172 | with a `create_emergency_alert` and an `activate_protocol` that answer (the intended node; see "## Findings"), one activation entry per protocol in order, a success when the agent answered and a failure when it raised; `total_protocols` is the protocol count; the alert severity follows the response level |
| EmergencyWorkflow.ActivateAll | src/workflows/emergency_response_workflow.py:152-165 | the loop gives one entry per protocol, in order, a success carrying the agent's answer when it answered and a failure when it raised |
| EmergencyWorkflow.ActivationAsWritten | src/workflows/emergency_response_workflow.py:132-182 | as the source stands, every call ends in the outer `except`: no alert created, no activated protocol, a total of 0, and EmergencyAgent's AttributeError for `create_emergency_alert` |
| EmergencyWorkflow.AsWrittenActivatesNothing | src/workflows/emergency_response_workflow.py:146-182 | the protocol list the node would activate holds at least three protocols, yet the as-written answer reports none |
| AdmissionWorkflow.ExtractTriageLevel | src/workflows/patient_admission_workflow.py:227-237 | the keyword scan of the lower-cased text always gives a level in 1..5 |
| AdmissionWorkflow.HighPriorityIff | src/workflows/patient_admission_workflow.py:227-230 | the level is 1 or 2 iff the text mentions level 1, immediate, level 2 or emergent |
| AdmissionWorkflow.LessUrgentIsThree | src/workflows/patient_admission_workflow.py:231-235 | text containing 'less urgent' (and no higher-priority word) gives 3, because the 'urgent' test precedes the 'level 4' test |
| AdmissionWorkflow.ExtractIgnoresCase | src/workflows/patient_admission_workflow.py:227-235 | the scan ignores letter case |
| AdmissionWorkflow.EmptyDictTextIsFive | src/workflows/patient_admission_workflow.py:226-237 | the text "{}" of a missing key gives level 5 |
| AdmissionWorkflow.AssessmentResult | src/agents/triage_agent.py:55-61 | the dictionary of a successful assessment carries the assessment text under 'assessment' and the level under 'triage_level' |
| AdmissionWorkflow.ResultText | src/workflows/patient_admission_workflow.py:226 | `str(result.get(key, {}))` is "{}" for a missing key and the string itself for a string value |
| AdmissionWorkflow.AsWrittenAlwaysFive | src/workflows/patient_admission_workflow.py:222-239 | as written, every successful assessment, a level 1 one included, is read as level 5 and routed to the standard pathway |
| AdmissionWorkflow.ExtractTriageLevelFromResult | src/workflows/patient_admission_workflow.py:222-239 | the corrected extraction reads the assessment text: a level in 1..5 that is 1 or 2 iff the text mentions a high-priority level |
| AdmissionWorkflow.CorrectedRoutesHighPriority | src/workflows/patient_admission_workflow.py:184-191 | with the corrected extraction, an admission goes to the emergency pathway iff its assessment mentions a high-priority level |
| AdmissionWorkflow.RouteAfterTriage | src/workflows/patient_admission_workflow.py:184-191 | the emergency pathway iff a triage level is present and at most 2; a missing level counts as 5 |
| AdmissionWorkflow.AdmissionState.constructor | src/workflows/patient_admission_workflow.py:44-63 | the state after registration holds only the patient id and the registration status; every later field is absent |
| AdmissionWorkflow.TriageAssessment | src/workflows/patient_admission_workflow.py:66-98 | a failed registration leaves the state unchanged; a missing patient id fails with its KeyError; a successful assessment stores the result, 'completed' and the level read from its 'assessment' text by the corrected ExtractTriageLevelFromResult (as written, line 226 reads 'ai_assessment' and stores 5; see "## Findings"); a failed one stores 'failed' and the error; other fields are untouched |
| AdmissionWorkflow.RunPathway | src/workflows/patient_admission_workflow.py:100-151 | with agents that answer (the intended nodes; see "## Findings"), a pathway node stores the monitoring and appointment results and names the pathway, or records the KeyError of a missing patient id; triage fields are untouched |
| AdmissionWorkflow.RunPathwayAsWritten | src/workflows/patient_admission_workflow.py:100-151 | as the source stands, a pathway node records the KeyError of a missing patient id or MonitoringAgent's AttributeError for the setup method it calls, and stores no monitoring, appointment or pathway |
| AdmissionWorkflow.AsWrittenEmergencyGetsStandardSteps | src/workflows/patient_admission_workflow.py:241-264 | with no pathway recorded, a level-1 admission gets the standard steps plus the high-priority step, where an emergency pathway would give the emergency steps |
| AdmissionWorkflow.GenerateNextSteps | src/workflows/patient_admission_workflow.py:241-264 | three pathway-specific steps, plus a fourth "High priority" step iff the triage level is at most 2 |
| AdmissionWorkflow.NextStepsAgreeWithRoute | src/workflows/patient_admission_workflow.py:184-264 | after routing, the emergency steps are given iff the high-priority step is added |
| AdmissionWorkflow.SuccessOf | src/workflows/patient_admission_workflow.py:166-167 | `state.get(k, {}).get('success', False)` is false for a missing result |
| AdmissionWorkflow.FinalizeAdmission | src/workflows/patient_admission_workflow.py:154-181 | the summary carries the patient, registration status, triage level, pathway, the two success flags, the admission time and the next steps; a missing patient id fails with its KeyError |
| Validators.DigitsOnly | src/utils/validators.py:417 | `re.sub(r'\D', '', s)` keeps every digit of the input and nothing else |
| Validators.DigitsOnlyIdempotent | src/utils/validators.py:417 | a string of digits is its own digit filter |
| Validators.PhoneValidAfterSanitizing | src/utils/validators.py:411-420 | a phone number is valid (7 to 15 digits once non-digits are removed) iff its digits alone are |
| Validators.ShortPhoneRejected | src/utils/validators.py:411-420 | fewer than seven digits is never a valid phone number |
| Validators.UpperKeepsClasses | src/utils/validators.py:369-376 | upper-casing keeps which characters are whitespace and which are letters or digits |
| Validators.MrnValidAfterSanitizing | src/utils/validators.py:369-376 | an MRN (3 to 20 letters and digits after stripping) stays valid or invalid once sanitised to its stripped upper-case form |
| Validators.Outcome | src/utils/validators.py:62 | a validate_* call raises iff one of its checks raises; otherwise ok iff the error list is empty |
| Validators.StrStep | src/utils/validators.py:28-60 | a check that calls a string method on its field raises exactly when the field holds a truthy non-string |
| Validators.DateStep | src/utils/validators.py:36-40 | the date-of-birth check never raises: its verdict is given |
| Validators.MissingFields | src/utils/validators.py:22-25 | at most one message per required field |
| Validators.RequiredFieldErrors | src/utils/validators.py:22-25 | the required-field loop yields the missing-field messages in field order |
| Validators.MissingMessageInjective | src/utils/validators.py:25 | distinct fields give distinct "Missing required field" messages |
| Validators.MissingFieldsMembers | src/utils/validators.py:22-25 | a field is reported iff it is required and absent or falsy |
| Validators.MissingFieldsOnce | src/utils/validators.py:22-25 | each absent required field is reported exactly once |
| Validators.ValidatePatientData | src/utils/validators.py:17-62 | ok iff no error, and the missing-field messages come first, in the order first_name, last_name, date_of_birth, gender, mrn |
| Validators.PatientRaisesIff | src/utils/validators.py:28-60 | patient validation raises iff a name, gender, MRN, e-mail or phone field holds a truthy non-string |
| Validators.PatientMissingReportedOnce | src/utils/validators.py:22-25 | each absent required patient field is reported exactly once |
| Validators.MrnStepMeaning | src/utils/validators.py:48-50 | the MRN check passes iff the MRN is 3 to 20 letters and digits after stripping |
| Validators.RangeError | src/utils/validators.py:84-92 | one vital gives at most one error: out of range or not numeric |
| Validators.ValidateVitalSigns | src/utils/validators.py:65-104 | the errors are the missing patient_id error, one per present vital outside its inclusive range or non-numeric, in table order, and the systolic-not-above-diastolic error; ok iff there are none |
| Validators.CheckRanges | src/utils/validators.py:84-92 | the loop over the range table yields exactly the range errors of the table, vital by vital in table order |
| Validators.RangeErrorsMembers | src/utils/validators.py:84-92 | every range error belongs to one vital of the table |
| Validators.RangeErrorsBound | src/utils/validators.py:84-92 | at most one range error per vital |
| Validators.VitalErrorsBound | src/utils/validators.py:65-104 | at most ten errors: patient_id, eight vitals, blood-pressure consistency |
| Validators.HeartRateBoundsInclusive | src/utils/validators.py:75-92 | heart rates 30 and 200 are accepted, 201 is out of range, and a list is not numeric |
| Validators.LengthStep | src/utils/validators.py:128-143 | a length check raises exactly when the field holds a truthy non-string |
| Validators.ValidateMedicalRecord | src/utils/validators.py:107-160 | ok iff no error, and the missing-field messages come first |
| Validators.MedicalRecordRaisesIff | src/utils/validators.py:117-158 | medical-record validation raises iff record_type, content, title, doctor_id or department holds a truthy non-string |
| Validators.ContentTooShortAndTooLong | src/utils/validators.py:128-134 | content whose stripped form is under 10 characters but whose raw form is over 10000 gets both errors |
| Validators.DurationStep | src/utils/validators.py:180-186 | a truthy duration that converts to an integer outside 15..240 gives the range error; one that does not convert gives the numeric error |
| Validators.ValidateAppointment | src/utils/validators.py:163-194 | ok iff no error, and the missing-field messages come first |
| Validators.AppointmentRaisesIff | src/utils/validators.py:189-192 | appointment validation raises iff appointment_type holds a truthy non-string |
| Validators.DurationExamples | src/utils/validators.py:180-186 | durations 15 and 240 pass, 14 and 241 fail, and `int()` truncates 14.9 (fails) and 240.9 (passes) |
| Validators.ValidateAlert | src/utils/validators.py:197-219 | ok iff no error, and the missing-field messages come first |
| Validators.AlertRaisesIff | src/utils/validators.py:207-217 | alert validation raises iff severity or alert_type holds a truthy non-string |
| Validators.AlertSeverityIgnoresCase | src/utils/validators.py:208-211 | the severity check passes iff the lower-cased severity is low, medium, high or critical |
| Validators.DateRangeStep | src/utils/validators.py:250-257 | with both dates truthy, the range check raises iff the start date is not a string, or it parses and the end date is not a string (an unparseable start is caught before the end is read); it errs only after both parse with start not before end |
| Validators.ValidateTreatment | src/utils/validators.py:222-259 | ok iff no error, and the missing-field messages come first |
| Validators.TreatmentRaisesIff | src/utils/validators.py:232-257 | treatment validation raises iff treatment_type is a truthy non-string, or both dates are truthy and the start is a non-string or parses while the end is a non-string |
| Validators.UnparsedStartShieldsEnd | src/utils/validators.py:250-257 | start "x" with end 5 passes the range check, while a parseable start with end 5 raises |
| Validators.ValidateDoctorData | src/utils/validators.py:262-306 | ok iff no error, and the missing-field messages come first |
| Validators.DoctorRaisesIff | src/utils/validators.py:272-304 | doctor validation raises iff a name, specialty, licence, e-mail or phone field holds a truthy non-string |
| Sanitizer.TitleFrom | src/utils/validators.py:432-435 | `str.title()` over ASCII: the length and the letter and space positions are kept, a letter is lower-cased right after a letter and upper-cased elsewhere, other characters are kept |
| Sanitizer.Title | src/utils/validators.py:432-435 | title-casing keeps the length |
| Sanitizer.TitleIdempotent | src/utils/validators.py:432-435 | title-casing twice is title-casing once |
| Sanitizer.TitleKeepsStripped | src/utils/validators.py:432-435 | title-casing a stripped name leaves nothing to strip |
| Sanitizer.CaseKeepsSpaces | src/utils/validators.py:439-447 | lower- and upper-casing keep which characters are whitespace |
| Sanitizer.NameFormIdempotent | src/utils/validators.py:432-435 | the name form `strip().title()` applied twice is applied once |
| Sanitizer.LowerFormIdempotent | src/utils/validators.py:439 | the form `strip().lower()` applied twice is applied once |
| Sanitizer.MrnFormIdempotent | src/utils/validators.py:447 | the MRN form `strip().upper()` applied twice is applied once |
| Sanitizer.NameValidAfterSanitizing | src/utils/validators.py:311-318 | a name is valid iff its sanitised form is |
| Sanitizer.SanitizeField | src/utils/validators.py:431-447 | one field of the copy: an absent field leaves the dict alone, a string field takes its sanitised value in place, a non-string field raises |
| Sanitizer.SanitizeFieldStable | src/utils/validators.py:431-447 | a field already in sanitised form is left as it is |
| Sanitizer.Sanitized | src/utils/validators.py:428-449 | a key is present after sanitising iff it was before |
| Sanitizer.SanitizedElsewhere | src/utils/validators.py:428 | a key no step sanitises keeps its value |
| Sanitizer.SanitizeAllGet | src/utils/validators.py:428-449 | after all the steps, each key holds its sanitised value |
| Sanitizer.SanitizeAllRaises | src/utils/validators.py:428-449 | sanitising raises iff one of the sanitised fields holds a non-string |
| Sanitizer.SanitizedAt | src/utils/validators.py:428-449 | a present string field holds its form's value of the original text |
| Sanitizer.SanitizeAllStable | src/utils/validators.py:428-449 | data whose fields are all in sanitised form is returned unchanged |
| Sanitizer.SanitizeAllIdempotent | src/utils/validators.py:428-449 | sanitising sanitised data changes nothing |
| Sanitizer.PatientFormsWellFormed | src/utils/validators.py:431-447 | the five patient fields are distinct and each of their forms is idempotent |
| Sanitizer.SanitizePatientRaises | src/utils/validators.py:426-449 | `sanitize_patient_data` raises iff a name, e-mail, phone or MRN field holds a non-string |
| Sanitizer.SanitizePatientKeepsOthers | src/utils/validators.py:428 | every other key keeps its value |
| Sanitizer.SanitizePatientMrnAndPhone | src/utils/validators.py:443-447 | the MRN becomes its stripped upper-case form and the phone its digits |
| Sanitizer.SanitizePatientIdempotent | src/utils/validators.py:426-449 | sanitising patient data twice is sanitising it once |
| Sanitizer.SanitizingKeepsPatientValidity | src/utils/validators.py:311-420 | sanitising neither makes a valid MRN, phone or name invalid nor an invalid one valid |
| Sanitizer.StripIdempotent | src/utils/validators.py:458-462 | stripping twice is stripping once |
| Sanitizer.MedicalRecordFormsWellFormed | src/utils/validators.py:452-472 | the four medical-record fields are distinct and each of their forms is idempotent |
| Sanitizer.SanitizeMedicalRecordIdempotent | src/utils/validators.py:452-472 | sanitising a medical record twice is sanitising it once |
| Sanitizer.SanitizingRepairsPaddedRecordType | src/utils/validators.py:466 | the record type " note" is refused as given but accepted once sanitised |
| Sanitizer.FloatOrNone | src/utils/validators.py:484-488 | a value converts to a float or to None |
| Sanitizer.SanitizeVitalSigns | src/utils/validators.py:475-490 | each present, non-null numeric field becomes its float or None, every other key keeps its value, the keys and their order are unchanged, and the input is not modified |
| Sanitizer.SanitizeFields | src/utils/validators.py:483-488 | the loop over distinct fields replaces each one present and not None by its float() value, or None when that raises; every other key keeps its value and the keys are unchanged |
| Sanitizer.SanitizedVitalsStable | src/utils/validators.py:480-488 | a sanitised numeric vital is a float or None and sanitising it again gives the same |
| Sanitizer.ValidationResult.constructor | src/utils/validators.py:495-498 | a missing error or warning list starts empty |
| Sanitizer.ValidationResult.AddError | src/utils/validators.py:500-503 | appends the error and makes the result invalid; the warnings are unchanged |
| Sanitizer.ValidationResult.AddWarning | src/utils/validators.py:505-507 | appends the warning; validity and errors are unchanged |
| Sanitizer.ValidationResult.ToDict | src/utils/validators.py:509-517 | the counts equal the lengths of the error and warning lists |
| Sanitizer.ValidationResult.Render | src/utils/validators.py:519-534 | the text starts with "Validation Result: VALID" or "INVALID" as the result says, and is exactly the lines of RenderLines for the current errors and warnings, each ended by a line break |
| Sanitizer.RenderText | src/utils/validators.py:519-534 | the rendering starts with the status line and is the status line, then "Errors (n):" with one "  - e" line per error when there are errors, then the same for the warnings, each line ended by a line break |
| Sanitizer.BulletsAsLines | src/utils/validators.py:525-532 | the bullet text is one "  - item" line per item, in order |
| Sanitizer.BlockAsLines | src/utils/validators.py:524-532 | a block is its counted heading line followed by its item lines |
| Sanitizer.SplitLines | src/utils/validators.py:519-534 | break-free lines, each ended by a break, split on '\n' into themselves and a final empty piece |
| Sanitizer.RenderSplits | src/utils/validators.py:519-534 | when no message spans lines, `str(result)` splits on '\n' into exactly the status line, the counted headings and the "  - " lines of the errors and then the warnings |
| Sanitizer.BulletsLines | src/utils/validators.py:526-527 | one line per item |
| Sanitizer.RenderLineCount | src/utils/validators.py:519-534 | the rendering has one status line, plus a header and one line per error when there are errors, and the same for warnings |
| Sanitizer.BlockLines | src/utils/validators.py:524-532 | a titled block has its title line and one line per item |
| ValidationTools.TextVerdict | src/tools/validation_tools.py:53-91 | a format check on an optional field raises iff the field holds a truthy non-string, and flags it iff it holds a string the check refuses |
| ValidationTools.PresentFields | src/tools/validation_tools.py:45-51 | `validated_fields` names at most the required fields |
| ValidationTools.PresentOrMissing | src/tools/validation_tools.py:45-51 | each required field is either reported missing or validated, never both, and all are validated iff all are present and truthy |
| ValidationTools.AcceptRequired | src/tools/validation_tools.py:45-51 | the required-field loop gives the missing-field errors and the validated fields in field order |
| ValidationTools.EmailExamples | src/tools/validation_tools.py:163-169 | the e-mail pattern accepts "a@b.co" and refuses a one-letter top-level domain and an empty local part |
| ValidationTools.IcdLength | src/tools/validation_tools.py:395-402 | an accepted ICD code is three to eight characters once stripped |
| ValidationTools.IcdExamples | src/tools/validation_tools.py:395-402 | "I10", "E11.9" and "J45.9091" are accepted; "I1", "I10.", "I10.12345" and "110" are refused |
| ValidationTools.PatientFormatChecks | src/tools/validation_tools.py:53-81 | the name, date-of-birth, gender and MRN checks raise iff a name, gender or MRN holds a truthy non-string, and otherwise give their errors in order |
| ValidationTools.PatientContactChecks | src/tools/validation_tools.py:83-97 | the e-mail, phone and age checks raise iff e-mail or phone holds a truthy non-string, and otherwise give warnings only |
| ValidationTools.ValidatePatientData | src/tools/validation_tools.py:34-108 | the failure record iff a check raises; otherwise the errors are the missing fields then the format errors, e-mail, phone and age problems are warnings only, and `is_valid` iff there is no error |
| ValidationTools.PatientToolValidIff | src/tools/validation_tools.py:44-81 | the patient is valid iff names, gender and MRN are present and well-formed and the date of birth is present and accepted |
| ValidationTools.RangeIn | src/tools/validation_tools.py:221-234 | a vital has a range iff it is in the table |
| ValidationTools.CheckEntry | src/tools/validation_tools.py:233-254 | a known vital's value gives at most one range warning |
| ValidationTools.ValidateVitalSignsTool | src/tools/validation_tools.py:203-276 | errors are the missing patient_id, the non-numeric vitals and the systolic-not-above-diastolic error; out-of-range values and low pulse pressure are warnings only; `is_valid` iff there is no error |
| ValidationTools.ScanItems | src/tools/validation_tools.py:232-254 | the loop over the input's items appends exactly the scan's numeric errors, range warnings and accepted vitals, in item order, after what the patient_id check put in |
| ValidationTools.PressureChecks | src/tools/validation_tools.py:256-274 | the pressure cross-check adds the ordering error exactly when both pressures read as numbers and systolic is not above diastolic, and the low-pulse-pressure warning exactly when their difference is below 20 |
| ValidationTools.NumericMessageInjective | src/tools/validation_tools.py:240 | distinct vitals give distinct "must be numeric" errors |
| ValidationTools.ScanErrorsMembers | src/tools/validation_tools.py:233-242 | a vital's numeric error is reported iff an entry of that vital holds a value `float()` refuses |
| ValidationTools.ScanErrorsEmpty | src/tools/validation_tools.py:233-242 | the scan reports no error iff no known vital holds a non-number |
| ValidationTools.ScanValidatedMembers | src/tools/validation_tools.py:233-254 | a vital is validated iff one of its entries was accepted as a number, in or out of range |
| ValidationTools.VitalsToolValidIff | src/tools/validation_tools.py:213-268 | the vitals are valid iff patient_id is present, no known vital is non-numeric and systolic is above diastolic |
| ValidationTools.NonNumericVitalRejected | src/tools/validation_tools.py:237-254 | a non-numeric known vital adds an error and is not added to `validated_fields` |
| ValidationTools.PressureExamples | src/tools/validation_tools.py:256-274 | systolic equal to diastolic gives both the ordering error and the low-pulse-pressure warning |
| ValidationTools.HeartRateExample | src/tools/validation_tools.py:221-254 | heart rate 250 is accepted with an above-range warning against 30-200 bpm |
| ValidationTools.UnknownVitalExample | src/tools/validation_tools.py:221-233 | a vital outside the range table is ignored |
| ValidationTools.NoMissingIff | src/tools/validation_tools.py:45-51 | no field is reported missing iff all are present and truthy |
| ValidationTools.ItemWarning | src/tools/validation_tools.py:358-371 | checking one list item raises iff it is a truthy non-string |
| ValidationTools.ItemWarnings | src/tools/validation_tools.py:358-371 | checking a list raises iff one of its items is a truthy non-string |
| ValidationTools.ItemWarningsSnoc | src/tools/validation_tools.py:358-371 | the warnings of a longer list are those of the shorter list followed by those of the new item |
| ValidationTools.CheckItems | src/tools/validation_tools.py:358-371 | the item loop gives the list's warnings, in order, or raises |
| ValidationTools.CheckList | src/tools/validation_tools.py:355-373 | a list field gives its items' warnings; a value that is not a list gives the "should be a list" warning |
| ValidationTools.RecordTextChecks | src/tools/validation_tools.py:312-353 | the record type, content, title, doctor and department checks raise iff one of those fields holds a truthy non-string, and otherwise give their warnings in order |
| ValidationTools.ValidateMedicalRecordTool | src/tools/validation_tools.py:293-384 | the failure record iff a check raises; otherwise only missing required fields are errors, every other problem is a warning, and `is_valid` iff there is no error |
| ValidationTools.RecordToolValidIff | src/tools/validation_tools.py:303-310 | a medical record is valid iff patient_id, record_type, title and content are present and truthy |
| ValidationTools.DiagnosisCodeExamples | src/tools/validation_tools.py:355-363 | a string of codes is "not a list"; None and "" items are refused as codes; a number among the codes raises |
| ValidationTools.Max0 | src/tools/validation_tools.py:485-509 | `max(0, x)` |
| ValidationTools.CheckPatientQuality | src/tools/validation_tools.py:448-510 | the score is 100 − 20 for missing required fields − 10 per contact problem − 10 for an unreasonable age, which stays within 50..100, and is 100 iff there is no issue; it raises iff e-mail or phone holds a truthy non-string |
| ValidationTools.ContactAccuracy | src/tools/validation_tools.py:473-483 | the e-mail then the phone check raise exactly when the value is truthy but not a string; otherwise each flagged format counts once and adds its issue, in that order |
| ValidationTools.NonNullCount | src/tools/validation_tools.py:525 | at most the number of vitals counted |
| ValidationTools.NonNumericIssues | src/tools/validation_tools.py:545 | one issue per non-numeric key |
| ValidationTools.CheckVitalSignsQuality | src/tools/validation_tools.py:512-576 | completeness is present/5·100; below 50 costs 30 and below 80 costs 15; each non-numeric value costs 15 and an inverted pressure 20; the score is clamped at 0 and is 100 iff there is no issue |
| ValidationTools.VitalCompleteness | src/tools/validation_tools.py:524-535 | completeness is 20 points per vital present; fewer than three present costs 30 with "Very few vital signs recorded", exactly three costs 15 with "Some vital signs missing", more costs nothing |
| ValidationTools.CollectNonNumeric | src/tools/validation_tools.py:539-545 | the accuracy loop collects the non-numeric keys and one issue for each |
| ValidationTools.NonNumericKeysMembers | src/tools/validation_tools.py:539-545 | a key is collected iff its value is not None and `float()` refuses it |
| ValidationTools.CheckMedicalRecordQuality | src/tools/validation_tools.py:578-621 | it raises iff a present content is not a string; otherwise completeness is 25 per required field present, the issues are the missing-fields issue when a field is missing followed by the content issue, the score is 100 − 30 for a missing field − 20 for content under 20 characters once stripped or else − 10 for content over 5000, which equals 100 minus the weights of the reported issues, stays within 50..100 and is 100 iff there is no issue, and the recommendations are those two in order |
| ValidationTools.RecordContentIssues | src/tools/validation_tools.py:600-606 | a truthy string content is 'too brief' iff under 20 characters once stripped, else 'very long' iff over 5000; at most one issue |
| ValidationTools.RecordContentCheck | src/tools/validation_tools.py:600-606 | the content check raises iff a truthy content is not a string; otherwise it reports the content issue with its 20 or 10 deduction |
| ValidationTools.RecordRecommendations | src/tools/validation_tools.py:614-618 | the recommendations are 'complete the fields' when some are missing, then 'more detail' when a present content is brief once stripped; it raises iff a present content, truthy or not, is not a string |
| ValidationTools.RecordWeightsSplit | src/tools/validation_tools.py:596-606 | the missing-fields issue weighs 30 and the content issue at most 20, and the weights of the two parts add up |
| ValidationTools.BriefRecordScore | src/tools/validation_tools.py:590-606 | a record with brief string content scores 80 with the single brevity issue when complete, and 50 with both issues when a required field is missing |
| ValidationTools.EmptyCount | src/tools/validation_tools.py:641 | at most the number of fields |
| ValidationTools.RoundHalfEven | src/tools/validation_tools.py:470 | the rounded percentage is within one half of the value |
| ValidationTools.CompletenessBelowEighty | src/tools/validation_tools.py:645-650 | completeness is below 80% iff the empty fields are more than a fifth of all fields |
| ValidationTools.CheckGeneralQuality | src/tools/validation_tools.py:623-660 | an empty dict scores 0 with the single issue 'Empty data'; otherwise completeness is the share of non-empty values and the score is 80 when it is below 80%, else 100 |
| ValidationTools.RunQualityCheck | src/tools/validation_tools.py:418-446 | for 'patient', 'vital_signs' and 'medical_record' the result is exactly what that check promises (its score formula, issues, completeness and raising condition), and for any other type what the general check promises, whose score is 0 iff the data is empty |
| SectionParser.FindHeader | src/agents/monitoring_agent.py:184-201 | the if/elif chain picks the first header whose prefix the line starts with, and none iff no prefix matches |
| SectionParser.ParseLines | src/agents/monitoring_agent.py:180-205 | the loop over lines, with its mutable record and current section, computes the left fold of the line step from the defaults |
| SectionParser.ParseText | src/agents/monitoring_agent.py:180-208 | parsing a text is the loop over its '\n'-separated lines from the default record with no section open |
| SectionParser.RunSnoc | src/agents/monitoring_agent.py:182-205 | the state after i+1 lines is one more step from the state after i lines |
| SectionParser.StepKeepsFields | src/agents/monitoring_agent.py:182-205 | one line never adds or removes a field of the record |
| SectionParser.StepListsGrow | src/agents/monitoring_agent.py:202-205 | one line only ever extends lists |
| SectionParser.StepTextUntouched | src/agents/monitoring_agent.py:184-201 | a line that is not the header of a scalar field leaves that field alone |
| SectionParser.RunAppend | src/agents/monitoring_agent.py:182-205 | parsing a + b is parsing b from the state after a |
| SectionParser.RunKeepsFields | src/agents/monitoring_agent.py:182-205 | no sequence of lines adds or removes a field |
| SectionParser.ParseKeepsFields | src/agents/monitoring_agent.py:170-205 | a parsed record has exactly the fields of the defaults |
| SectionParser.ParseLowered | src/agents/monitoring_agent.py:185-193 | a lower-cased scalar field with a lower-case default stays lower-case |
| SectionParser.ParseIntDefaultOrLine | src/agents/emergency_agent.py:199-204 | an integer field holds its default or the `int()` reading of some line |
| SectionParser.ParseHeaderless | src/agents/monitoring_agent.py:170-205 | a text without a header line parses to the defaults, so dash lines before any list header are dropped |
| SectionParser.RunListsGrow | src/agents/monitoring_agent.py:202-205 | lists are only appended to |
| SectionParser.BulletsBeforeSectionDropped | src/agents/monitoring_agent.py:181-205 | while no list header has been seen, dash lines change no list |
| SectionParser.NoHeaderKeepsDefaults | src/agents/monitoring_agent.py:181-205 | lines without a header change nothing while no section is open |
| SectionParser.TextUntouched | src/agents/monitoring_agent.py:184-201 | a scalar field no line sets keeps its value |
| SectionParser.LastTextWins | src/agents/treatment_agent.py:209-231 | the last header line of a scalar field decides its value: a later header of the same name overwrites an earlier one |
| SectionParser.LoweredStaysLower | src/agents/monitoring_agent.py:185-193 | a lower-cased field stays lower-case through any lines |
| SectionParser.StepIntSource | src/agents/emergency_agent.py:199-204 | one line leaves an integer field alone or sets it to its `int()` reading |
| SectionParser.StepKeepsOthers | src/agents/monitoring_agent.py:202-205 | a non-header line changes no scalar field |
| SectionParser.IntOnLongerText | src/agents/emergency_agent.py:199-204 | a value read on a line of a prefix is read on a line of the whole |
| SectionParser.IntFromSomeLine | src/agents/emergency_agent.py:199-204 | after any lines, an integer field holds its start value or the reading of one of them |
| SectionParser.BulletAppended | src/agents/monitoring_agent.py:202-205 | a dash line appends its text, without the dash and stripped, to the current section and changes nothing else |
| SectionParser.ScalarKeepsSection | src/agents/monitoring_agent.py:184-201 | a scalar header does not change the current section |
| MonitoringAgent.ParseAnalysisResult | src/agents/monitoring_agent.py:167-208 | `_parse_analysis_result` is the shared parser over the monitoring headers and defaults |
| MonitoringAgent.AnalysisTableFacts | src/agents/monitoring_agent.py:170-205 | every header targets a field of the defaults: four scalar fields and the lists abnormalities, trends and recommended_actions |
| MonitoringAgent.AnalysisHeadersLower | src/agents/monitoring_agent.py:171-193 | exactly the OVERALL_STATUS and ALERT_SEVERITY headers lower-case the fields they set |
| MonitoringAgent.AnalysisLowerFacts | src/agents/monitoring_agent.py:171-193 | OVERALL_STATUS and ALERT_SEVERITY are lower-cased and their defaults 'normal' and 'none' are lower-case |
| MonitoringAgent.AnalysisShape | src/agents/monitoring_agent.py:170-178 | every parse has exactly the fields of the defaults |
| MonitoringAgent.StatusAndSeverityLowerCase | src/agents/monitoring_agent.py:185-193 | the parsed overall_status and alert_severity are always lower-case |
| MonitoringAgent.HeaderlessTextGivesDefaults | src/agents/monitoring_agent.py:170-178 | a text without headers gives overall_status 'normal', alert_severity 'none', monitoring_frequency 'standard' and empty lists |
| MonitoringAgent.CreateAlerts | src/agents/monitoring_agent.py:222-280 | no alert when the vitals lack 'patient_id' (the KeyError is caught); otherwise at most two alerts for that patient: a 'vital_signs' one iff there are abnormalities, with the mapped severity (MEDIUM for an unknown word) and the joined abnormalities, and a MEDIUM 'trend_analysis' one iff there are trends, in that order |
| MonitoringAgent.AnalyzeVitalSigns | src/agents/monitoring_agent.py:40-67 | alerts are created only when abnormalities were found and the vitals carry a patient id, so trends alone create none |
| EmergencyAgent.ParseEmergencyResponse | src/agents/emergency_agent.py:175-218 | `_parse_emergency_response` is the shared parser over the emergency headers and defaults |
| EmergencyAgent.PlanTableFacts | src/agents/emergency_agent.py:177-185 | the defaults hold severity, protocol and assessment, response_time, and the lists immediate_actions, required_team and interventions |
| EmergencyAgent.PlanLowerFacts | src/agents/emergency_agent.py:192-194 | SEVERITY is lower-cased and its default 'medium' is lower-case |
| EmergencyAgent.PlanShape | src/agents/emergency_agent.py:177-216 | every parse has exactly the fields of the defaults |
| EmergencyAgent.SeverityLowerCase | src/agents/emergency_agent.py:192-194 | the parsed severity is always lower-case |
| EmergencyAgent.ResponseTimeDefaultOrParsed | src/agents/emergency_agent.py:199-204 | response_time is 300 or the `int()` reading of a RESPONSE_TIME line: text that does not parse keeps the earlier value |
| EmergencyAgent.HeaderlessTextGivesDefaults | src/agents/emergency_agent.py:177-185 | a text without headers gives severity 'medium', response_time 300, empty lists and empty strings |
| EmergencyAgent.RecordSeverity | src/agents/emergency_agent.py:237-244 | a known severity word names its severity and any other word maps to MEDIUM |
| TreatmentAgent.ParseTreatmentPlan | src/agents/treatment_agent.py:191-237 | the parsed plan is exactly the section parse of the result under the nine treatment headers and the nine defaults of the source |
| TreatmentAgent.PlanTableFacts | src/agents/treatment_agent.py:194-231 | every header targets a field of the defaults of the right kind; the text fields are treatment_type, timeline, assessment and the list fields the six sections |
| TreatmentAgent.PlanShape | src/agents/treatment_agent.py:194-237 | whatever the model writes, the plan has exactly the nine keys of the defaults, three texts and six lists |
| TreatmentAgent.LastScalarHeaderWins | src/agents/treatment_agent.py:211-231 | a TREATMENT_TYPE, TIMELINE or ASSESSMENT line overrides the earlier ones: the last such line decides the field |
| TreatmentAgent.BulletsBeforeListHeaderDropped | src/agents/treatment_agent.py:206-235 | '-' lines seen before any list header opens a section are dropped: every list keeps its default |
| TreatmentAgent.ParseInteractionResult | src/agents/treatment_agent.py:442-474 | the interaction data is exactly the section parse under the five interaction headers and defaults |
| TreatmentAgent.InteractionTableFacts | src/agents/treatment_agent.py:445-468 | the headers target the defaults; safety is the only text field, interactions, side_effects, monitoring and alternatives the lists |
| TreatmentAgent.InteractionShape | src/agents/treatment_agent.py:445-474 | the result always has exactly the five keys of the defaults |
| TreatmentAgent.SafetyDefaultsToUnknown | src/agents/treatment_agent.py:445-468 | without a SAFETY line the safety field is 'unknown' |
| TreatmentAgent.Treatment.constructor | src/database/models.py:184-201 | a stored treatment has exactly the columns of the treatments table |
| TreatmentAgent.ApplyUpdatesKeepsKeys | src/agents/treatment_agent.py:328-330 | the hasattr/setattr loop never adds or removes an attribute |
| TreatmentAgent.ApplyUpdatesUntouched | src/agents/treatment_agent.py:328-330 | an attribute no update names keeps its value |
| TreatmentAgent.ApplyUpdatesLastWins | src/agents/treatment_agent.py:328-330 | an existing attribute ends with the value of the last update that names it |
| TreatmentAgent.ApplyUpdatesAppend | src/agents/treatment_agent.py:328-330 | applying two batches of updates one after the other equals applying them concatenated |
| TreatmentAgent.UpdateTreatmentPlan | src/agents/treatment_agent.py:315-343 | an unknown id gives 'Treatment not found' and changes nothing; otherwise success with the id, the attributes updated in order and updated_at set to the given time, and the columns kept |
| MedicalRecordsAgent.ParseRecordContent | src/agents/medical_records_agent.py:180-220 | the record content is exactly the section parse under the seven content headers and defaults |
| MedicalRecordsAgent.ContentTableFacts | src/agents/medical_records_agent.py:183-218 | the headers target the defaults; clinical_assessment, diagnostic_reasoning and summary are texts, findings, treatment_plan, follow_up and clinical_notes lists |
| MedicalRecordsAgent.ContentShape | src/agents/medical_records_agent.py:183-220 | the content always has exactly the seven keys of the defaults |
| MedicalRecordsAgent.ParseAnalysisResult | src/agents/medical_records_agent.py:394-434 | the analysis is exactly the section parse under the seven analysis headers and defaults |
| MedicalRecordsAgent.AnalysisTableFacts | src/agents/medical_records_agent.py:397-432 | the headers target the defaults; health_status, treatment_effectiveness and summary are texts, patterns, risks, recommendations and attention_areas lists |
| MedicalRecordsAgent.AnalysisShape | src/agents/medical_records_agent.py:397-434 | the analysis always has exactly the seven keys of the defaults |
| MedicalRecordsAgent.Prefix | src/agents/medical_records_agent.py:362 | s[:n] is a prefix of s of length min(len(s), n) |
| MedicalRecordsAgent.PrepareAnalysisParts | src/agents/medical_records_agent.py:352-366 | the input parts are the type and count header followed by the summary lines of the first min(10, n) records, in order |
| MedicalRecordsAgent.RecordSummary | src/agents/medical_records_agent.py:361-366 | one record gives its numbered title line and its content line cut to 200 characters, then its medications and its diagnosis codes only when it has some: two to four lines |
| MedicalRecordsAgent.SummaryBounded | src/agents/medical_records_agent.py:360-366 | each summarised record contributes between two and four lines |
| MedicalRecordsAgent.SearchContent | src/agents/medical_records_agent.py:535 | content of at most 500 characters is shown whole; longer content is its first 500 characters followed by '...' |
| MedicalRecordsAgent.SearchLimit | src/agents/medical_records_agent.py:525 | the limit is the criteria's 'limit' when present and 50 otherwise |
| SchedulingAgent.ParseSchedulingResult | src/agents/scheduling_agent.py:174-224 | the scheduling data is exactly the section parse under the eight scheduling headers and defaults |
| SchedulingAgent.SchedulingTableFacts | src/agents/scheduling_agent.py:177-218 | the headers target the defaults; six text fields, duration the only integer field, alternatives the only list |
| SchedulingAgent.SchedulingLowerFacts | src/agents/scheduling_agent.py:182-213 | the PRIORITY header lower-cases its value and the default 'medium' is already lower case |
| SchedulingAgent.SchedulingShape | src/agents/scheduling_agent.py:177-224 | the result always has exactly the eight keys of the defaults |
| SchedulingAgent.PriorityAndDuration | src/agents/scheduling_agent.py:182-213 | the priority is always lower case; the duration is the default 30 or an integer parsed from some DURATION line |
| SchedulingAgent.HasConflict | src/agents/scheduling_agent.py:448-455 | a slot conflicts exactly when some booking overlaps the half-hour from its start (half-open intervals) |
| SchedulingAgent.SlotIfFree | src/agents/scheduling_agent.py:445-463 | a candidate is offered, as an available half-hour slot labelled with its start time, exactly when no booking conflicts with it |
| SchedulingAgent.GenerateAvailableSlots | src/agents/scheduling_agent.py:429-465 | the slots are exactly the free half-hour candidates from 9:00 to 16:30, in order |
| SchedulingAgent.FreeSlotsSound | src/agents/scheduling_agent.py:443-463 | every returned slot starts at a candidate time, overlaps no booking, lasts 30 minutes and is marked available |
| SchedulingAgent.FreeSlotsComplete | src/agents/scheduling_agent.py:443-463 | every candidate time that overlaps no booking is returned |
| SchedulingAgent.FreeSlotsAscending | src/agents/scheduling_agent.py:443-463 | the slots are in strictly increasing time order |
| SchedulingAgent.NoBookingsAllFree | src/agents/scheduling_agent.py:437-463 | with no appointments all sixteen candidates are returned |
| SchedulingAgent.TouchingIsNoConflict | src/agents/scheduling_agent.py:454 | a booking that ends when the slot starts, or starts when it ends, is no conflict |
| SchedulingAgent.Appointment.constructor | src/database/models.py:112-127 | an appointment holds its status, notes and update time |
| SchedulingAgent.CancelledNotes | src/agents/scheduling_agent.py:539 | the new notes start with 'Cancelled: ' and the reason and a blank line, end with the old notes, and contain nothing else |
| SchedulingAgent.CancelAppointment | src/agents/scheduling_agent.py:525-551 | an unknown id gives 'Appointment not found'; otherwise the appointment is cancelled, its notes prefixed with the reason and its update time set, and the reason is returned |
| ChatbotAgent.StripFences | src/agents/chatbot_agent.py:172-180 | the cleaned reply is never longer than the raw one and has no leading or trailing whitespace |
| ChatbotAgent.FencedRoundTrip | src/agents/chatbot_agent.py:176-180 | a trimmed text wrapped in a '```json' fence and a closing '```' comes back unchanged |
| ChatbotAgent.FirstIntent | src/agents/chatbot_agent.py:189-202 | the intent is that of the first keyword group with a word in the text, and general_help when no group has one |
| ChatbotAgent.KeywordAnalysis | src/agents/chatbot_agent.py:203-208 | the keyword fallback has all four analysis keys: the given intent, confidence 0.6, no entities and urgency 'low' |
| ChatbotAgent.SetDefault | src/agents/chatbot_agent.py:216-219 | setdefault keeps an existing key's value, adds the default for a missing one and changes no other key |
| ChatbotAgent.GetAppend | src/agents/chatbot_agent.py:216-219 | looking a key up after appending an entry finds the old value first, then the appended one |
| ChatbotAgent.WithDefaults | src/agents/chatbot_agent.py:215-219 | after the four setdefault calls every key the reply had keeps its value, a missing key holds the default analysis's value for it (intent 'general_help', confidence 0.5, entities {} or urgency 'low', by DefaultAnalysisGet), no other key appears, and all analysis keys are present |
| ChatbotAgent.SetDefaultsAt | src/agents/chatbot_agent.py:215-219 | for any list of setdefault calls made in order: a key present before keeps its value, a missing key takes the value of the first call that names it, and a key no call names stays absent |
| ChatbotAgent.DefaultAnalysisGet | src/agents/chatbot_agent.py:215-233 | the analysis returned on failure holds exactly the values the setdefault calls supply |
| ChatbotAgent.AnalyzeIntent | src/agents/chatbot_agent.py:150-233 | a failed model call or a JSON reply that is not an object gives the default analysis; unparsable JSON gives the keyword analysis; a JSON object keeps its own values and takes intent 'general_help', confidence 0.5, entities {} or urgency 'low' for each key it lacks; all four analysis keys are always present |
| ChatbotAgent.PatientKeywordWins | src/agents/chatbot_agent.py:189-191 | a message containing 'patient' in any case is a patient lookup, whatever else it contains |
| ChatbotAgent.Route | src/agents/chatbot_agent.py:235-260 | the emergency handler is chosen exactly when the urgency is 'critical'; otherwise the intent's own handler, and general help exactly for an intent with no handler |
| ChatbotAgent.DefaultsGoToGeneralHelp | src/agents/chatbot_agent.py:239-260 | an analysis with intent 'general_help' and urgency 'low' is answered by general help |
| ChatbotAgent.ObjectWithoutIntentIsGeneralHelp | src/agents/chatbot_agent.py:215-260 | a JSON reply naming neither an intent nor an urgency is routed to general help, never to the emergency handler |
| ChatbotAgent.KeywordFallbackNeverEscalates | src/agents/chatbot_agent.py:203-260 | the keyword fallback never reaches the emergency handler; even an 'emergency' keyword intent is routed to general help |
| ChatbotAgent.AlertBaseFields | src/agents/chatbot_agent.py:265-271 | the alert's fixed fields are a critical 'emergency' alert quoting the message, with no patient id |
| ChatbotAgent.EmergencyAlert | src/agents/chatbot_agent.py:265-274 | the alert is critical, of type 'emergency', quotes the message, and carries the context's patient id exactly when the context has a truthy one |
| ChatbotAgent.HandleEmergency | src/agents/chatbot_agent.py:262-288 | one 'emergency_alert' action with that alert, the intent 'emergency', full confidence, no entities and the emergency_mode state |
| ChatbotAgent.LastN | src/agents/chatbot_agent.py:663-665 | list[-n:] has min(len, n) items, the last ones of the list in order |
| ChatbotAgent.ChatContext.constructor | src/agents/chatbot_agent.py:127-137 | a new context holds the given entries and an empty history |
| ChatbotAgent.ChatContext.UpdateContext | src/agents/chatbot_agent.py:644-668 | the context update is merged in, the exchange is appended, the history is cut to its last ten entries and ends with the new exchange |
| ChatbotAgent.CappedHistoryIsSuffix | src/agents/chatbot_agent.py:663-665 | the capped history is a suffix of the full one, of length ten once there are ten or more exchanges |
| NotificationTools.AlertSeverityOf | src/tools/notification_tools.py:44-51 | a severity names its level case-insensitively; any text that is not one of the four levels becomes medium |
| NotificationTools.AlertSeverityIgnoresCase | src/tools/notification_tools.py:51 | the level does not depend on the case of the text, and a text equal to a level's value in lower case gives that level |
| NotificationTools.UpperCaseSeverityExample | src/tools/notification_tools.py:44-51 | 'CRITICAL' is critical |
| NotificationTools.MixedCaseSeverityExample | src/tools/notification_tools.py:44-51 | 'High' is high |
| NotificationTools.UnknownSeverityExample | src/tools/notification_tools.py:44-51 | 'severe' falls back to medium |
| NotificationTools.FanOut | src/tools/notification_tools.py:147-160 | one notification per recipient, in recipient order, each with the request's message type and priority |
| NotificationTools.TeamFor | src/tools/notification_tools.py:187-197 | the team of the first group listing the emergency type, and the general medical team when no group does |
| NotificationTools.TypeTeamShape | src/tools/notification_tools.py:187-197 | every type team has two distinct members, none in the core emergency team, and it is the general team exactly when no group lists the type |
| NotificationTools.KindRecipients | src/tools/notification_tools.py:188-197 | the if/elif chain on the emergency type picks the team the group table gives that type, the general team when no group lists it |
| NotificationTools.RecipientsDistinct | src/tools/notification_tools.py:181-200 | the core team (when urgent) followed by a type team has no duplicates, holds exactly their members, and has five or two entries |
| NotificationTools.EmergencyRecipients | src/tools/notification_tools.py:179-200 | the recipients are without duplicates, exactly the core team when the severity is critical or high plus the type team, five or two of them |
| NotificationTools.SendEmergencyNotification | src/tools/notification_tools.py:131-177 | a non-string type or severity fails; otherwise the distinct recipients each get one emergency notification of priority critical (for critical or high severity) or high, and the count sent is the number of recipients |
| NotificationTools.DefaultSeverityIsUrgent | src/tools/notification_tools.py:136-185 | a request without a severity counts as high and so reaches the core team |
| NotificationTools.LookupTable | src/tools/notification_tools.py:421-437 | a role or type is found exactly when the table lists it, with the team listed for it |
| NotificationTools.StaffGroupsShape | src/tools/notification_tools.py:421-437 | the role team is one of the four role teams, the extra is none or one of the three type teams, and together they have no duplicates |
| NotificationTools.RoleTeamCases | src/tools/notification_tools.py:422-429 | the role table gives the nurse, doctor and specialist their teams and any other role the general staff |
| NotificationTools.TypeExtraCases | src/tools/notification_tools.py:432-437 | the type table gives patient alerts, schedule changes and emergencies their pairs and any other type nothing |
| NotificationTools.RoleRecipients | src/tools/notification_tools.py:422-429 | the if/elif chain on the role picks the role table's team, always two names |
| NotificationTools.TypeRecipients | src/tools/notification_tools.py:432-437 | the if/elif chain on the notification type picks the type table's pair, or nothing |
| NotificationTools.StaffRecipients | src/tools/notification_tools.py:417-440 | the recipients are without duplicates, exactly the role team plus the type's extra team, two plus the extra's size of them |
| NotificationTools.SendStaffNotification | src/tools/notification_tools.py:367-451 | only a patient alert whose priority is not a string fails; otherwise each distinct recipient gets one notification with the request's type and priority |
| NotificationTools.NurseEmergencyExample | src/tools/notification_tools.py:422-437 | a nurse emergency notification goes to the charge nurse, the floor nurses, the emergency team and the rapid response team |
| NotificationTools.SendPatientNotification | src/tools/notification_tools.py:229-276 | a missing or empty contact record is the no-contact error for the request's patient id; otherwise the channels are email, sms and the preferred channel, each when its field is truthy, in that order |
| NotificationTools.StoredContactRepeatsEmail | src/tools/notification_tools.py:249-292 | for a stored patient with an e-mail, 'email' is listed twice (once as the e-mail channel, once as the fixed preferred channel) |
| DatabaseTools.PlaceholdersAppend | src/tools/database_tools.py:39-59 | the '%s' placeholders of two query pieces add up when the join does not create a new one |
| DatabaseTools.NoPercent | src/tools/database_tools.py:39-59 | a query piece without '%' has no placeholders |
| DatabaseTools.RenderPlaceholders | src/tools/database_tools.py:39-59 | the rendered query has exactly as many placeholders as its clauses have parameter slots |
| DatabaseTools.RenderAppend | src/tools/database_tools.py:39-59 | rendering and slot counting both distribute over joining clauses |
| DatabaseTools.AddClause | src/tools/database_tools.py:42-57 | one criterion's step: a present criterion appends exactly its clause's text to the query and its values to the parameters; an absent one changes neither |
| DatabaseTools.BuildClauses | src/tools/database_tools.py:39-57 | the four criterion steps in order give the head's text followed by the text of each present clause, and the present clauses' values in the same order |
| DatabaseTools.FinishQuery | src/tools/database_tools.py:59 | the new query is the old one followed by the ORDER BY ... LIMIT 20 tail |
| DatabaseTools.BuildSearchQuery | src/tools/database_tools.py:39-59 | the query is the SELECT head, then the name, phone, e-mail and patient_id clauses for exactly the truthy criteria, in that order, then the ORDER BY tail; the parameters are the name pattern twice, the phone pattern, the e-mail pattern and the id itself, each when its criterion is truthy, in that order |
| DatabaseTools.PiecesPlaceholders | src/tools/database_tools.py:42-59 | for any combination of criteria the query has one '%s' per parameter: two for a name, one for each other criterion |
| DatabaseTools.SearchPlaceholdersMatch | src/tools/database_tools.py:39-61 | the query executed for any criteria has exactly as many placeholders as parameters: twice the name indicator plus the phone, e-mail and id indicators |
| DatabaseTools.SearchQueryEnds | src/tools/database_tools.py:39-59 | every search query starts with the SELECT head and ends with the ORDER BY tail |
| DatabaseTools.PiecesEnds | src/tools/database_tools.py:39-59 | for any combination of criteria the rendered query opens with the head's text and closes with the tail's |
| DatabaseTools.ParamsEnds | src/tools/database_tools.py:42-57 | for any combination of criteria, a name puts its pattern first twice, a patient id puts the id itself last, and only that last parameter is exact |
| DatabaseTools.SearchParamsEnds | src/tools/database_tools.py:42-57 | with a name criterion the first two parameters are its pattern; with a patient_id the last parameter is the id itself, not a pattern, and no other parameter is exact |
| DatabaseTools.PhoneEmailExample | src/tools/database_tools.py:47-53 | a phone and an e-mail criterion give the phone clause before the e-mail clause, with the phone pattern then the e-mail pattern |
| DatabaseTools.SearchPatients | src/tools/database_tools.py:37-66 | the executed query and parameters are those of the criteria's search pieces; the rows are what the query returns, and none when it raises |
| DatabaseTools.UnitFor | src/tools/database_tools.py:147-159 | a unit is found exactly for the six recordable measurement types, and it is the one the unit table lists |
| DatabaseTools.RecordedFrom | src/tools/database_tools.py:136-180 | only recordable measurement types are recorded, at most one per item |
| DatabaseTools.RecordVitalSigns | src/tools/database_tools.py:136-186 | an insert that raises fails the whole call; otherwise the recorded measurements are exactly those of the items, in order |
| DatabaseTools.RecordedPrefixFails | src/tools/database_tools.py:137-186 | once an insert has raised for some prefix of the items, the whole call fails |
| DatabaseTools.AllRowsRecordAllRecordable | src/tools/database_tools.py:138-180 | when every insert returns a row, every recordable item is recorded, in order |
| DatabaseTools.Filtered | src/tools/database_tools.py:140-141 | the recordable items are items of the input with a recordable type |
| PatientEntryForm.MissingFields | src/api/patient_entry_form.py:283-296 | a field is reported missing exactly when it is required and absent or empty; no more fields than are required |
| PatientEntryForm.ProcessPatientEntry | src/api/patient_entry_form.py:264-432 | the intended outcome (as written the success is unreachable; see "## Findings"): the checks run in order (missing fields, e-mail containing '@' and '.', gender one of Male, Female, Other, an existing MRN or e-mail, the date of birth) and each outcome happens exactly when all earlier checks pass and its own fails; registration exactly when all pass |
| PatientEntryForm.ProcessPatientEntryAsWritten | src/api/patient_entry_form.py:379-393 | as the source stands, never a registration: where the intended outcome is a registration, the page shows the constructor's TypeError for 'emergency_contact_name'; every other outcome is the intended one |
| PatientEntryForm.MissingIgnoresOthers | src/api/patient_entry_form.py:283-296 | a field outside the required list never changes which fields are missing |
| PatientEntryForm.InsuranceOptional | src/api/patient_entry_form.py:264-432 | the insurance provider and policy number never change the outcome |
| PatientEntryForm.GenderCaseSensitive | src/api/patient_entry_form.py:335 | the gender is compared exactly: 'male' is refused even when everything before it is valid |
| PatientEntryChat.StripNonEmpty | patient_entry_chat.py:20 | the stripped pieces kept are no more than the pieces, each non-empty and without surrounding whitespace |
| PatientEntryChat.StripNonEmptyAvoids | patient_entry_chat.py:20 | stripping never introduces a character the pieces did not contain |
| PatientEntryChat.CommaList | patient_entry_chat.py:17-20 | 'none' in any case and with any surrounding space gives no items; otherwise the items are trimmed, non-empty, comma-free and no more than the comma-separated pieces |
| PatientEntryChat.StripNonEmptyTidy | patient_entry_chat.py:20 | pieces that are already trimmed and non-empty are kept as they are |
| PatientEntryChat.CommaListJoin | patient_entry_chat.py:17-20 | trimmed comma-free items joined with commas come back unchanged, unless the join reads as 'none' |
| PatientEntryChat.BlankPiecesVanish | patient_entry_chat.py:20 | pieces made only of whitespace are all dropped |
| PatientEntryChat.BlankStrips | patient_entry_chat.py:20 | a string made only of whitespace strips to the empty string |
| PatientEntryChat.Attempt | patient_entry_chat.py:5-15 | an empty answer is refused unless empty answers are allowed; an accepted answer is the validator's value |
| PatientEntryChat.Ask | patient_entry_chat.py:3-15 | the value is that of the first acceptable answer, every earlier answer having been refused; no value only when every answer given was refused |
| TreeGenerator.Lookup | 1.py:66-107 | a key is found exactly when the table lists it, and the first entry for it gives the icon |
| TreeGenerator.IconFor | 1.py:107 | an extension the icon table does not know gets the page icon |
| TreeGenerator.LastIndexOf | 1.py:65 | the index found holds the character and none follows it; no index only when the character does not occur |
| TreeGenerator.Ext | 1.py:65 | a non-empty extension starts with its only '.', and the name ends with it |
| TreeGenerator.ExtPresent | 1.py:65 | a name has an extension exactly when some '.' follows a character that is not a '.' (leading dots do not start an extension) |
| TreeGenerator.FileIconRules | 1.py:94-107 | a hidden name is a wrench whatever else holds; a name no fixed rule catches is a page without an extension, otherwise the icon of its lower-cased extension, a page when the table does not know it |
| TreeGenerator.FixedNamesWin | 1.py:96-103 | the readme, requirements, setup.py and manage.py names get their own icon whatever their extension says |
| TreeGenerator.ExtensionDecides | 1.py:104-107 | two ordinary names with the same lower-cased extension get the same icon |
| TreeGenerator.HiddenBeatsTable | 1.py:88-95 | the file '.env' is a wrench, while an ordinary name ending in '.env' gets the lock of the table |
| TreeGenerator.EnvIconIsLock | 1.py:88 | the extension table gives '.env' the lock |
| TreeGenerator.StrLeTotal | 1.py:132 | any two names are ordered one way or the other |
| TreeGenerator.StrLeTrans | 1.py:132 | the name order is transitive |
| TreeGenerator.KeyLeTotal | 1.py:132 | the sort key (directories first, then the lower-cased name) orders any two items |
| TreeGenerator.KeyLeTrans | 1.py:132 | the sort key order is transitive |
| TreeGenerator.Insert | 1.py:132 | inserting into a sorted listing keeps it sorted and adds exactly the item |
| TreeGenerator.SortItems | 1.py:132 | the sorted listing is ordered by the key, a permutation of the listing, and has every directory before every file |
| TreeGenerator.SortKeepsItems | 1.py:132 | sorting introduces no item |
| TreeGenerator.Kept | 1.py:116-127 | every kept item is in the listing and not excluded |
| TreeGenerator.KeptComplete | 1.py:116-127 | every item of the listing that is not excluded is kept |
| TreeGenerator.Dropped | 1.py:119-127 | the excluded count and the kept items add up to the listing |
| TreeGenerator.Walk | 1.py:134-150 | a directory's drawing has one line per directory and file counted |
| TreeGenerator.ItemsWalk | 1.py:134-150 | the drawing of the remaining items has one line per directory and file counted |
| TreeGenerator.ItemWalk | 1.py:140-150 | an item's drawing has one line per directory and file it counts |
| TreeGenerator.WalkUnderPrefix | 1.py:134-150 | every line of a directory's drawing starts with its prefix |
| TreeGenerator.ItemsUnderPrefix | 1.py:134-150 | every line drawn for the remaining items starts with the prefix |
| TreeGenerator.ItemUnderPrefix | 1.py:140-150 | every line of an item's drawing, its own and its subtree's, starts with the prefix |
| TreeGenerator.ItemShape | 1.py:135-149 | an item's first line is the prefix and the tee or last connector; its subtree lines continue with a pipe or blank as the item is last or not |
| TreeGenerator.Rule | 1.py:175-189 | a rule of n characters is n copies of its character |
| TreeGenerator.TreeGenerator.constructor | 1.py:45-47 | the three counters start at zero |
| TreeGenerator.TreeGenerator.KeepItems | 1.py:114-127 | the items are the kept ones, the excluded counter grows by the dropped ones, the other counters are unchanged |
| TreeGenerator.TreeGenerator.BuildTree | 1.py:113-150 | the lines drawn and the three counters' growth are those of the directory's walk |
| TreeGenerator.TreeGenerator.DrawItems | 1.py:134-150 | the lines drawn for the sorted items and the counters' growth are those of the items' walk |
| TreeGenerator.TreeGenerator.DrawItem | 1.py:135-150 | the lines drawn for one item and the counters' growth are those of the item's walk |
| TreeGenerator.TreeGenerator.GenerateTree | 1.py:155-204 | the counters are reset and then hold the walk's counts; the report is the eight header lines, each tree line after the stem, the eleven summary lines with the walk's directory, file and excluded counts and a total equal to the number of tree lines, then a bullet per excluded directory pattern, 'Files:' and a bullet per excluded file pattern |
| TreeGenerator.TreeGenerator.Report | 1.py:173-203 | the report is the header, the tree lines indented by the stem, the eleven summary lines for the given directory, file and excluded counts (the total being directories plus files), then a bullet per excluded directory pattern, 'Files:' and a bullet per excluded file pattern, in table order |
| TreeGenerator.TreeGenerator.AppendLines | 1.py:184-203 | the lines are appended in order, each after the lead, and the earlier content is kept |
| TreeGenerator.Header | 1.py:174-181 | eight header lines, the last the project folder line |
| TreeGenerator.Summary | 1.py:187-198 | eleven summary lines, the seventh the total of directories and files |
| Middleware.Stars | src/api/middleware.py:117 | '*' * n is n stars |
| Middleware.SensitiveMask | src/api/middleware.py:114-119 | a sensitive string becomes as many stars as it has characters; any other value, a dict included, becomes '***' |
| Middleware.MaskFirstPass | src/api/middleware.py:112-119 | the copy keeps every key in order; each sensitive key's value is masked and every other value is kept |
| Middleware.MaskSensitiveData | src/api/middleware.py:102-131 | the result is the masked form of the input: a non-dict is returned unchanged; a dict keeps its keys, masks sensitive values without looking into them, masks nested dicts recursively and the dict items of lists |
| Middleware.MaskItems | src/api/middleware.py:126-129 | a list keeps its length; dict items are masked, other items kept |
| Middleware.MaskedUnique | src/api/middleware.py:102-131 | the masked form of an input is unique |
| Middleware.EntryUnique | src/api/middleware.py:114-129 | the masked form of one entry's value is unique |
| Middleware.MaskIdempotent | src/api/middleware.py:102-131 | masking a masked body changes nothing |
| Middleware.EntryIdempotent | src/api/middleware.py:114-129 | masking an already masked entry value changes nothing |
| Middleware.MaskedPasswordExample | src/api/middleware.py:114-117 | a seven-character password becomes seven stars while a name is kept |
| Middleware.ValidateToken | src/api/middleware.py:212-221 | a token is valid exactly when it is present and at least ten characters long |
| Middleware.AbsentFields | src/api/middleware.py:269 | a field is reported exactly when it is required and absent or falsy |
| Middleware.ValidateRequiredFields | src/api/middleware.py:264-277 | an error exactly for a JSON request with some absent or falsy required field, naming those fields joined by ', ' |
| Middleware.ValidateRequiredFieldsOfBody | src/api/middleware.py:264-277 | for any JSON body: an object is checked as ValidateRequiredFields says and never raises; with fields required, a non-object never passes; null, booleans and numbers raise; a list raises iff it holds a required field's name and a string iff it contains one, otherwise every field is reported missing |
| Middleware.ListBodyExamples | src/api/middleware.py:267-269 | a JSON array holding "name" raises when 'name' is required; an empty array reports every required field missing |
| Middleware.AbsentFieldsInOrder | src/api/middleware.py:269 | the reported fields are in the order the required fields were listed |
| Middleware.IsRateLimited | src/api/middleware.py:240-247 | no client is ever rate limited |

## Left out

- The language-model calls, agent graphs and prompt builders are left out. Every parser takes the model's answer as a string, and every workflow takes the agents' results as parameters.
- The database, SQL execution, sessions and commits are left out. Lookups (an existing patient, a stored record, a contact record) and query results are parameters. Stored rows are classes or maps. `execute_query` is a function parameter.
- Flask routing, responses, the HTML page, logging and the middleware's header and error hooks are left out. Only the rules inside them are modelled.
- The clock, timestamps and generated ids are parameters.
  - The date-of-birth, future-date and age checks need today's date, so the model takes their verdicts.
  - The patient form takes whether the date of birth parses.
- The `email_validator` library check is given as its verdict. `fnmatch` glob matching in the tree printer is given as two exclusion predicates.
- Loading the drug, code and symptom tables from JSON files is left out. The tables are parameters, and the built-in fallback tables are constants.
- Whitespace is Python's full `str.isspace()` set, for `strip()` and for `\s`. Case mapping, letters and digits are ASCII only.
  - `int()` accepts an optional sign and ASCII digits.
  - `float()` accepts a sign, digits and an optional fraction. It does not accept exponents, `inf`, `nan` or underscores.
  - Sensor values are exact reals, not binary floats.
- TriageAgent.FirstDigit and TriageAgent.FirstNumber: `\d` in `re.search(r'\d+', ...)` and the digits `int()` reads match only ASCII 0-9. Python also accepts the other Unicode decimal digits there.
- Number formatting (`str(float)`, `{:.1f}`) is not modelled. Warnings and messages carry the number itself rather than its rendered text. The one exception is the percentage of ValidationTools.CheckGeneralQuality, below.
- `list(set(...))` has no defined order in Python. The recipient lists keep first occurrences, and their contracts state only membership, absence of duplicates and size.
- The tree printer's sort is stable in Python. The model's insertion sort is stated as sorted and a permutation, so the relative order of items with equal keys is not pinned down. Writing the report file and printing to the console are left out; the report is the returned list of lines.
- TreeGenerator.Kept: its contract states one direction (kept items are in the listing and not excluded); the other direction is the separate lemma KeptComplete.
- AdmissionWorkflow.ResultText: only an absent key and a string value are rendered; `str()` of any other value is not modelled (None).
- The triage agent's `_create_assessment_record` (src/agents/triage_agent.py:193-199) is left out. It passes the integer level to `TriageLevel(...)`, whose values are the strings "1" to "5" (src/database/models.py:21-27). That call raises, so no assessment record is ever created.
- Of the chatbot's handlers, only emergency handling and routing are modelled. The lookup, scheduling, records, vitals, triage and general-help handlers call tools and the database.
- PatientEntryChat.Ask: the source loops until an answer is accepted, and `input()` raises EOFError when the console input ends. The model reads a finite sequence of answers; its "none accepted" result stands for that EOFError.
- PatientEntryForm.ProcessPatientEntry: models the intended outcome. As written, `Patient(...)` (src/api/patient_entry_form.py:379-393) passes five keywords the Patient table has no column for (src/database/models.py:52-83), so the constructor raises TypeError and the success path is never reached; ProcessPatientEntryAsWritten and "## Findings" show this. Of the other exceptions, only a date of birth that does not parse is modelled (outcome DateError). Its message is fixed rather than Python's exception text, and the database insert itself is not modelled.
- ValidationTools.CheckGeneralQuality: the 'Many empty fields' percentage is rendered from the exact share, rounded half to even. Python computes it in binary floating point, so the two can differ next to a .5: with 40 fields of which 17 are empty, Python computes 57.49999999999999 and prints 43%, while the model prints 42%. The contract states the score and the completeness, not this text.
- MonitoringWorkflow.GenerateAlertsIfNeeded: models the intended node, with the `create_alert` answers as parameters. MonitoringAgent defines no `create_alert` (src/workflows/monitoring_workflow.py:403, 423), so as written a non-empty bucket gives 0 alerts and an error; MonitoringWorkflow.GenerateAlertsAsWritten and "## Findings" show this. The escalation actions at lines 568, 572 and 576 call methods that EmergencyAgent and MonitoringAgent do not define either; MonitoringWorkflow.Dispatch models only which branch is chosen.
- EmergencyWorkflow.ActivateEmergencyProtocols: models the intended node. EmergencyAgent defines neither `create_emergency_alert` nor `activate_protocol` (src/workflows/emergency_response_workflow.py:146, 155), so as written the node returns no activations and `alert_created` False; EmergencyWorkflow.ActivationAsWritten and "## Findings" show this. EmergencyAgent has no `assess_emergency` either (line 100), so as written `_assess_emergency` always returns the risk level 'unknown', the case EmergencyWorkflow.MissingRiskUsesSeverity covers.
- AdmissionWorkflow.RunPathway: models the intended nodes. MonitoringAgent defines neither `setup_emergency_monitoring` nor `setup_standard_monitoring`, and SchedulingAgent has no `schedule_emergency_appointment` (src/workflows/patient_admission_workflow.py:107, 118, 136), so as written each pathway node records an AttributeError and stores nothing else; AdmissionWorkflow.RunPathwayAsWritten and "## Findings" show this. Besides, `__init__` (lines 18-21) builds the four agents without their required `tools` argument, which raises TypeError, so the workflow cannot be constructed as written; the model takes its nodes one by one.
- AdmissionWorkflow.TriageAssessment: models the node with the corrected read of the 'assessment' text. As written (line 226) it stores level 5 for every successful assessment, as AdmissionWorkflow.AsWrittenAlwaysFive shows.
- Middleware.ValidateRequiredFields: takes an object body; Middleware.ValidateRequiredFieldsOfBody covers every other JSON body. A body that is not valid JSON, where `get_json()` itself fails, is not modelled.
- `SendMessageTool` echoes its arguments with a timestamp and is left out. So is `validate_json_content_type`, which reads only the Flask request.
- The message texts built for notifications (`_create_emergency_message`, `_create_staff_message`, `_create_patient_message`) are left out. Only the case where building them raises is kept.
- Routes.SubmitVitalAlerts: the alert rule is modelled as if the route's validation had passed. As written, the route reads `validation.is_valid` (src/api/routes.py:352-353), but `validate_vital_signs` returns a `(bool, errors)` tuple (src/utils/validators.py:65, 104, 539-540). That attribute access raises AttributeError inside the route's `try`. So every POST /vital-signs ends in the 500 branch, and the alert code (src/api/routes.py:369-404) is never reached; Routes.SubmitVitalSignsAsWritten and "## Findings" show this. The patient and appointment routes read the tuple in the same way (src/api/routes.py:184, 696).
- TreatmentAgent.ApplyUpdates: `hasattr` is modelled as membership in the treatment's columns. The `patient` relationship (src/database/models.py:204) also passes `hasattr`, and `setattr` of a plain value on it raises. The model does not capture that failure.
- Routes.Paginate: a negative `page` or `per_page` gives a negative offset or limit. The model returns Ok for it, and the database's refusal of such a query is not modelled.
- Sanitizer.FloatOrNone, ValidationTools.CheckEntry and MonitoringWorkflow.NumericError: `float()` of an int too large for a double raises OverflowError, which their `except (ValueError, TypeError)` does not catch. The model converts every int, so such a value counts as a number instead of ending the call. The same holds for the other `float()` calls (src/utils/validators.py:88, 97-98; src/tools/validation_tools.py:263-264, 542, 554-555).
- SchedulingAgent.GenerateAvailableSlots: the slots are modelled as times of one day. A `date` argument that does not parse makes `datetime.strptime` raise (src/agents/scheduling_agent.py:405, 434), and `get_available_slots` then answers its failure record; that path is not modelled.
- Sanitizer.ValidationResult.constructor: `errors or []` keeps the caller's list when it is non-empty (src/utils/validators.py:497), so a later `add_error` also changes the caller's list. The model's fields are sequence values and do not capture that aliasing.
- Settings, the data generator and the build and test scripts are not part of this model.

## Findings

| source | as written | input that shows it | evidently intended | confidence | as-written member | corrected member |
|---|---|---|---|---|---|---|
| src/workflows/patient_admission_workflow.py:226 | the triage level is read from `assessment_result.get('ai_assessment', {})`, but the triage agent's result carries the text under 'assessment'; the lookup always yields `{}`, whose text "{}" reads as level 5 | a successful assessment whose text says "TRIAGE_LEVEL: 1" is routed to the standard pathway | read the assessment text the triage agent returns, so that levels 1 and 2 reach the emergency pathway | not executed | AdmissionWorkflow.AsWrittenAlwaysFive | AdmissionWorkflow.ExtractTriageLevelFromResult |
| src/workflows/monitoring_workflow.py:403-423 | `_generate_alerts_if_needed` calls `self.monitoring_agent.create_alert`, which MonitoringAgent does not define; the AttributeError is caught and the node answers with 0 alerts and the error | any vital-signs check with one critical abnormality | create the critical and high alerts and report their ids | not executed | MonitoringWorkflow.GenerateAlertsAsWritten | MonitoringWorkflow.GenerateAlertsIfNeeded |
| src/workflows/emergency_response_workflow.py:146-155 | `_activate_emergency_protocols` calls `create_emergency_alert` and `activate_protocol`, which EmergencyAgent does not define; the outer `except` answers with no alert and no protocol | any emergency, for example type 'cardiac' at level code_blue | create the alert and report one activation entry per protocol | not executed | EmergencyWorkflow.ActivationAsWritten | EmergencyWorkflow.ActivateEmergencyProtocols |
| src/workflows/patient_admission_workflow.py:107-136 | the pathway nodes call `setup_emergency_monitoring`, `setup_standard_monitoring` and `schedule_emergency_appointment`, which the agents do not define; each node only records the AttributeError | any admission with a patient id | store the monitoring and appointment results and name the pathway | not executed | AdmissionWorkflow.RunPathwayAsWritten | AdmissionWorkflow.RunPathway |
| src/api/patient_entry_form.py:379-393 | `Patient(...)` is called with `emergency_contact_name`, `emergency_contact_relationship`, `emergency_contact_phone`, `insurance_provider` and `insurance_policy_number`, which the Patient table does not have; the constructor raises TypeError | a complete form with a valid e-mail and gender, a new MRN and a parseable date of birth | register the patient | not executed | PatientEntryForm.ProcessPatientEntryAsWritten | PatientEntryForm.ProcessPatientEntry |
| src/api/routes.py:352-353 | `submit_vital_signs` reads `validation.is_valid`, but `validate_vital_signs` returns a `(bool, errors)` tuple (src/utils/validators.py:104, 539-540); the AttributeError is caught and the route answers 500 | any vital-signs submission, for example heart rate 45 for a known patient | answer 400 on failed validation, otherwise store the record and create the alerts of the three rules | not executed | Routes.SubmitVitalSignsAsWritten | Routes.SubmitVitalAlerts |
