/** The decisions of the monitoring workflow: the fallback vital-sign validation,
    bucketing abnormalities by severity, the alerts raised for the critical and high
    buckets, the escalation level, and which action that level dispatches. The calls into
    the monitoring and emergency agents are parameters or are named by the action they
    select. */
module MonitoringWorkflow {
  import opened Common

  // ---------------------------------------------------------------------------
  // _validate_vital_signs, fallback branch

  const NumericFields: seq<string> := ["heart_rate", "systolic_bp", "diastolic_bp", "temperature", "oxygen_saturation"]

  datatype Validation = Validation(isValid: bool, errors: seq<string>, warnings: seq<string>)

  /** A numeric field that is present, not None, and that float() rejects. */
  predicate BadNumber(vitals: Dict, field: string)
  {
    HasNonNull(vitals, field) && ToFloat(Get(vitals, field).value).None?
  }

  /** The numeric-field errors among the first n numeric fields, in field order. */
  function NumericErrors(vitals: Dict, n: nat): (r: seq<string>)
    requires n <= |NumericFields|
    ensures |r| <= n
  {
    if n == 0 then []
    else
      var field := NumericFields[n - 1];
      NumericErrors(vitals, n - 1) + (if BadNumber(vitals, field) then ["Invalid " + field + ": must be numeric"] else [])
  }

  function FallbackErrors(vitals: Dict): seq<string>
  {
    (if !Has(vitals, "patient_id") then ["Missing required field: patient_id"] else []) +
    NumericErrors(vitals, |NumericFields|)
  }

  /** The basic validation used when no validation tool is configured. */
  method ValidateVitalSignsFallback(vitals: Dict) returns (v: Validation)
    ensures v.errors == FallbackErrors(vitals)
    ensures v.isValid <==> v.errors == []
    ensures v.warnings == []
  {
    var head: seq<string> := [];
    if !Has(vitals, "patient_id") {
      head := ["Missing required field: patient_id"];
    }
    var errors := head;
    var i := 0;
    while i < |NumericFields|
      invariant 0 <= i <= |NumericFields|
      invariant errors == head + NumericErrors(vitals, i)
    {
      var e := NumericError(vitals, i);
      AppendAssoc(head, NumericErrors(vitals, i), e);
      errors := errors + e;
      i := i + 1;
    }
    v := Validation(errors == [], errors, []);
  }

  /** The error, if any, for the i-th numeric field. */
  method NumericError(vitals: Dict, i: nat) returns (e: seq<string>)
    requires i < |NumericFields|
    ensures NumericErrors(vitals, i + 1) == NumericErrors(vitals, i) + e
  {
    var field := NumericFields[i];
    e := [];
    if HasNonNull(vitals, field) {
      var parsed := ToFloat(Get(vitals, field).value);
      if parsed.None? {
        e := ["Invalid " + field + ": must be numeric"];
      }
    }
  }

  lemma {:induction false} NumericErrorsEmpty(vitals: Dict, n: nat)
    requires n <= |NumericFields|
    ensures NumericErrors(vitals, n) == [] <==> forall k :: 0 <= k < n ==> !BadNumber(vitals, NumericFields[k])
  {
    if n > 0 {
      NumericErrorsEmpty(vitals, n - 1);
    }
  }

  /** The fallback passes exactly when patient_id is present (even if falsy) and every
      present, non-None numeric field reads as a float. */
  lemma FallbackValidIff(vitals: Dict)
    ensures FallbackErrors(vitals) == [] <==>
      Has(vitals, "patient_id") && forall k :: 0 <= k < |NumericFields| ==> !BadNumber(vitals, NumericFields[k])
  {
    NumericErrorsEmpty(vitals, |NumericFields|);
  }

  // ---------------------------------------------------------------------------
  // _check_abnormalities

  datatype Bucket = CriticalBucket | HighBucket | ModerateBucket | LowBucket

  /** `abnormality.get('severity', 'low')` compared with the three names; anything
      else, including a missing severity, is low. */
  function BucketOf(abnormality: Dict): Bucket
  {
    var severity := if Has(abnormality, "severity") then Get(abnormality, "severity").value else VStr("low");
    if severity == VStr("critical") then CriticalBucket
    else if severity == VStr("high") then HighBucket
    else if severity == VStr("moderate") then ModerateBucket
    else LowBucket
  }

  /** The abnormalities of one bucket, in their order. */
  function InBucket(abnormalities: seq<Dict>, b: Bucket): seq<Dict>
    decreases |abnormalities|
  {
    if abnormalities == [] then []
    else
      var last := abnormalities[|abnormalities| - 1];
      InBucket(abnormalities[..|abnormalities| - 1], b) + (if BucketOf(last) == b then [last] else [])
  }

  datatype AbnormalityCheck = AbnormalityCheck(total: nat, critical: seq<Dict>, high: seq<Dict>,
                                               moderate: seq<Dict>, low: seq<Dict>)

  method CheckAbnormalities(abnormalities: seq<Dict>) returns (r: AbnormalityCheck)
    ensures r.total == |abnormalities|
    ensures r.critical == InBucket(abnormalities, CriticalBucket)
    ensures r.high == InBucket(abnormalities, HighBucket)
    ensures r.moderate == InBucket(abnormalities, ModerateBucket)
    ensures r.low == InBucket(abnormalities, LowBucket)
  {
    var critical, high, moderate, low := [], [], [], [];
    var i := 0;
    while i < |abnormalities|
      invariant 0 <= i <= |abnormalities|
      invariant critical == InBucket(abnormalities[..i], CriticalBucket)
      invariant high == InBucket(abnormalities[..i], HighBucket)
      invariant moderate == InBucket(abnormalities[..i], ModerateBucket)
      invariant low == InBucket(abnormalities[..i], LowBucket)
    {
      assert abnormalities[..i + 1][..i] == abnormalities[..i];
      var abnormality := abnormalities[i];
      var b := BucketOf(abnormality);
      if b == CriticalBucket {
        critical := critical + [abnormality];
      } else if b == HighBucket {
        high := high + [abnormality];
      } else if b == ModerateBucket {
        moderate := moderate + [abnormality];
      } else {
        low := low + [abnormality];
      }
      i := i + 1;
    }
    assert abnormalities[..i] == abnormalities;
    r := AbnormalityCheck(|abnormalities|, critical, high, moderate, low);
  }

  /** Every abnormality lands in exactly one bucket, so the four counts add up to the
      total. */
  lemma {:induction false} BucketsPartition(abnormalities: seq<Dict>)
    ensures |InBucket(abnormalities, CriticalBucket)| + |InBucket(abnormalities, HighBucket)| +
            |InBucket(abnormalities, ModerateBucket)| + |InBucket(abnormalities, LowBucket)| == |abnormalities|
    decreases |abnormalities|
  {
    if abnormalities != [] {
      BucketsPartition(abnormalities[..|abnormalities| - 1]);
    }
  }

  /** A bucket holds exactly the abnormalities of its severity. */
  lemma {:induction false} InBucketMembers(abnormalities: seq<Dict>, b: Bucket, a: Dict)
    ensures a in InBucket(abnormalities, b) <==> a in abnormalities && BucketOf(a) == b
    decreases |abnormalities|
  {
    if abnormalities != [] {
      var init := abnormalities[..|abnormalities| - 1];
      InBucketMembers(init, b, a);
      assert abnormalities == init + [abnormalities[|abnormalities| - 1]];
    }
  }

  /** A missing or unrecognised severity goes into the low bucket. */
  lemma UnknownSeverityIsLow(abnormality: Dict)
    requires !Has(abnormality, "severity") ||
      Get(abnormality, "severity").value !in {VStr("critical"), VStr("high"), VStr("moderate")}
    ensures BucketOf(abnormality) == LowBucket
  {
  }

  // ---------------------------------------------------------------------------
  // _generate_alerts_if_needed

  datatype GeneratedAlert = GeneratedAlert(alertId: Value, severity: string)

  datatype AlertSummary = AlertSummary(alertsGenerated: nat, details: seq<GeneratedAlert>,
                                       criticalAlerts: nat, highAlerts: nat)

  function CountSeverity(alerts: seq<GeneratedAlert>, severity: string): (n: nat)
    ensures n <= |alerts|
  {
    if alerts == [] then 0
    else CountSeverity(alerts[..|alerts| - 1], severity) + (if alerts[|alerts| - 1].severity == severity then 1 else 0)
  }

  /** One critical alert when the critical bucket is non-empty and one high alert when
      the high bucket is; `criticalCreated` and `highCreated` stand for the agent's
      create_alert answers, the id on success and None on failure. */
  method GenerateAlertsIfNeeded(check: AbnormalityCheck, criticalCreated: Option<Value>, highCreated: Option<Value>)
    returns (r: AlertSummary)
    ensures r.alertsGenerated == |r.details| <= 2
    ensures r.criticalAlerts == CountSeverity(r.details, "critical") <= 1
    ensures r.highAlerts == CountSeverity(r.details, "high") <= 1
    ensures r.criticalAlerts + r.highAlerts == r.alertsGenerated
    ensures r.criticalAlerts == 1 <==> check.critical != [] && criticalCreated.Some?
    ensures r.highAlerts == 1 <==> check.high != [] && highCreated.Some?
    ensures check.critical != [] && criticalCreated.Some? ==> r.details[0] == GeneratedAlert(criticalCreated.value, "critical")
    ensures check.high != [] && highCreated.Some? ==> r.details[|r.details| - 1] == GeneratedAlert(highCreated.value, "high")
    ensures r.details == (if check.critical != [] && criticalCreated.Some? then [GeneratedAlert(criticalCreated.value, "critical")] else [])
                         + (if check.high != [] && highCreated.Some? then [GeneratedAlert(highCreated.value, "high")] else [])
  {
    var alerts: seq<GeneratedAlert> := [];
    if check.critical != [] && criticalCreated.Some? {
      alerts := alerts + [GeneratedAlert(criticalCreated.value, "critical")];
    }
    if check.high != [] && highCreated.Some? {
      alerts := alerts + [GeneratedAlert(highCreated.value, "high")];
    }
    assert alerts == [] || alerts[..|alerts| - 1] == [] || alerts[..|alerts| - 1] == [alerts[0]];
    r := AlertSummary(|alerts|, alerts, CountSeverity(alerts, "critical"), CountSeverity(alerts, "high"));
  }

  /** What `_generate_alerts_if_needed` returns as written: the alerts it built, or
      its `except` answer, no alert and the error text. */
  datatype AlertsAsWritten = AlertsReturned(summary: AlertSummary) | AlertsFailed(alertsGenerated: nat, error: string)

  /** `_generate_alerts_if_needed` as the source stands. MonitoringAgent defines no
      `create_alert`, so a non-empty critical or high bucket raises AttributeError at
      the first call, before any alert is recorded; only two empty buckets get through,
      with nothing to report. */
  function GenerateAlertsAsWritten(check: AbnormalityCheck): (r: AlertsAsWritten)
    ensures r.AlertsFailed? <==> check.critical != [] || check.high != []
    ensures r.AlertsReturned? ==> r.summary == AlertSummary(0, [], 0, 0)
    ensures r.AlertsFailed? ==> r.alertsGenerated == 0 && r.error == NoAttribute("MonitoringAgent", "create_alert")
  {
    if check.critical != [] || check.high != [] then
      AlertsFailed(0, NoAttribute("MonitoringAgent", "create_alert"))
    else
      AlertsReturned(AlertSummary(0, [], 0, 0))
  }

  /** As written, no abnormality ever yields an alert: one critical abnormality, which
      `GenerateAlertsIfNeeded` turns into a critical alert once the agent answers, ends
      in the error answer with no alert generated. */
  lemma AsWrittenNeverAlerts(a: Dict)
    ensures var check := AbnormalityCheck(1, [a], [], [], []);
      GenerateAlertsAsWritten(check) == AlertsFailed(0, NoAttribute("MonitoringAgent", "create_alert"))
  {
  }

  // ---------------------------------------------------------------------------
  // _assess_escalation_needs and _escalate_monitoring

  datatype EscalationLevel = NoEscalation | Attention | Urgent | Emergency

  function LevelName(l: EscalationLevel): string
  {
    match l
    case NoEscalation => "none"
    case Attention => "attention"
    case Urgent => "urgent"
    case Emergency => "emergency"
  }

  function LevelRank(l: EscalationLevel): nat
  {
    match l
    case NoEscalation => 0
    case Attention => 1
    case Urgent => 2
    case Emergency => 3
  }

  datatype Escalation = Escalation(needed: bool, level: EscalationLevel, criticalAlerts: int,
                                   highAlerts: int, reason: string)

  function AssessEscalation(criticalAlerts: int, highAlerts: int): (e: Escalation)
    ensures e.needed <==> e.level != NoEscalation
    ensures e.reason == IntToString(criticalAlerts) + " critical, " + IntToString(highAlerts) + " high priority alerts"
  {
    var level :=
      if criticalAlerts > 0 then Emergency
      else if highAlerts >= 2 then Urgent
      else if highAlerts == 1 then Attention
      else NoEscalation;
    Escalation(level != NoEscalation, level, criticalAlerts, highAlerts,
               IntToString(criticalAlerts) + " critical, " + IntToString(highAlerts) + " high priority alerts")
  }

  /** Any critical alert means emergency whatever the high count; otherwise two or more
      high alerts are urgent, one is attention, none is no escalation. */
  lemma EscalationLevels(criticalAlerts: int, highAlerts: int)
    ensures criticalAlerts > 0 ==> AssessEscalation(criticalAlerts, highAlerts).level == Emergency
    ensures criticalAlerts <= 0 ==>
      (AssessEscalation(criticalAlerts, highAlerts).level == Urgent <==> highAlerts >= 2) &&
      (AssessEscalation(criticalAlerts, highAlerts).level == Attention <==> highAlerts == 1) &&
      (AssessEscalation(criticalAlerts, highAlerts).level == NoEscalation <==> highAlerts < 1)
  {
  }

  /** More alerts never lower the escalation level. */
  lemma EscalationMonotone(c1: int, h1: int, c2: int, h2: int)
    requires c1 <= c2 && h1 <= h2
    ensures LevelRank(AssessEscalation(c1, h1).level) <= LevelRank(AssessEscalation(c2, h2).level)
  {
  }

  /** The action `_escalate_monitoring` takes for a level name. */
  datatype EscalationAction =
    | AssessEmergency(emergencyType: string, severity: string, description: string)
    | EscalateMonitoring(level: string)
    | NotifyMedicalStaff(reason: string)
    | NoAction(message: string)

  function Dispatch(levelName: string): (a: EscalationAction)
    ensures a.NoAction? <==> levelName !in {"emergency", "urgent", "attention"}
  {
    if levelName == "emergency" then
      AssessEmergency("vital_signs_critical", "critical", "Critical vital signs abnormalities detected")
    else if levelName == "urgent" then EscalateMonitoring("urgent")
    else if levelName == "attention" then NotifyMedicalStaff("attention_needed")
    else NoAction("No escalation needed")
  }

  /** Escalating an assessment: emergency goes to the emergency agent, urgent raises the
      monitoring level, attention notifies staff, and no escalation does nothing. */
  lemma DispatchOfAssessment(criticalAlerts: int, highAlerts: int)
    ensures var a := Dispatch(LevelName(AssessEscalation(criticalAlerts, highAlerts).level));
      (a.AssessEmergency? <==> criticalAlerts > 0) &&
      (a.EscalateMonitoring? <==> criticalAlerts <= 0 && highAlerts >= 2) &&
      (a.NotifyMedicalStaff? <==> criticalAlerts <= 0 && highAlerts == 1) &&
      (a.NoAction? <==> !AssessEscalation(criticalAlerts, highAlerts).needed)
  {
  }
}
