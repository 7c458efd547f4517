/** The rules inside three API handlers: the alerts raised when vital signs are
    submitted, the pagination arithmetic of the patient list, and the field update of an
    alert acknowledgement. Requests, the database and the clock are parameters. */
module Routes {
  import opened Common

  // ---------------------------------------------------------------------------
  // submit_vital_signs: the inline alert rule

  /** One signal's rule: an alert outside [low, high], of medium severity inside
      [mediumLow, mediumHigh] and high severity beyond. */
  datatype Rule = Rule(name: string, title: string, low: real, high: real, mediumLow: real, mediumHigh: real)

  const HeartRateRule := Rule("heart_rate", "Abnormal Heart Rate", 60.0, 100.0, 50.0, 110.0)
  const BloodPressureRule := Rule("blood_pressure", "Abnormal Blood Pressure", 90.0, 140.0, 80.0, 160.0)
  const TemperatureRule := Rule("temperature", "Abnormal Temperature", 97.0, 99.5, 96.0, 100.5)

  datatype AlertSeverity = Medium | High

  /** A stored column value is truthy when it is present and not zero. */
  predicate Present(v: Option<real>)
  {
    v.Some? && v.value != 0.0
  }

  /** The severity of the alert a rule raises for a value, if it raises one. */
  function RuleAlert(rule: Rule, v: Option<real>): Option<AlertSeverity>
  {
    if Present(v) && (v.value < rule.low || v.value > rule.high) then
      Some(if rule.mediumLow <= v.value <= rule.mediumHigh then Medium else High)
    else None
  }

  /** The medium band of each rule contains its normal band. */
  predicate WellFormed(rule: Rule)
  {
    rule.mediumLow <= rule.low <= rule.high <= rule.mediumHigh
  }

  /** A value inside the normal band, or a missing or zero value, raises nothing; a
      value outside raises a medium alert up to the medium band's edge and a high alert
      beyond it. */
  lemma RuleAlertMeaning(rule: Rule, x: real)
    requires WellFormed(rule) && x != 0.0
    ensures rule.low <= x <= rule.high ==> RuleAlert(rule, Some(x)).None?
    ensures (x < rule.mediumLow || x > rule.mediumHigh) ==> RuleAlert(rule, Some(x)) == Some(High)
    ensures (rule.mediumLow <= x < rule.low || rule.high < x <= rule.mediumHigh) ==>
      RuleAlert(rule, Some(x)) == Some(Medium)
  {
  }

  lemma RulesWellFormed()
    ensures WellFormed(HeartRateRule) && WellFormed(BloodPressureRule) && WellFormed(TemperatureRule)
  {
  }

  /** heart rate 55 is a medium alert, 45 a high one, 80 none. */
  lemma HeartRateExamples()
    ensures RuleAlert(HeartRateRule, Some(55.0)) == Some(Medium)
    ensures RuleAlert(HeartRateRule, Some(45.0)) == Some(High)
    ensures RuleAlert(HeartRateRule, Some(80.0)).None?
    ensures RuleAlert(HeartRateRule, Some(0.0)).None?
  {
  }

  datatype NewAlert = NewAlert(patientId: Value, signal: string, severity: AlertSeverity, title: string)

  /** The alerts a submission creates, in the order heart rate, blood pressure,
      temperature. */
  function SubmissionAlerts(patientId: Value, heartRate: Option<real>, systolic: Option<real>,
                            temperature: Option<real>): seq<NewAlert>
  {
    AlertFor(patientId, HeartRateRule, heartRate) + AlertFor(patientId, BloodPressureRule, systolic) +
    AlertFor(patientId, TemperatureRule, temperature)
  }

  function AlertFor(patientId: Value, rule: Rule, v: Option<real>): (r: seq<NewAlert>)
    ensures |r| <= 1
    ensures |r| == 1 <==> RuleAlert(rule, v).Some?
    ensures |r| == 1 ==> r[0] == NewAlert(patientId, rule.name, RuleAlert(rule, v).value, rule.title)
  {
    match RuleAlert(rule, v)
    case None => []
    case Some(severity) => [NewAlert(patientId, rule.name, severity, rule.title)]
  }

  function Signals(alerts: seq<NewAlert>): (r: seq<string>)
    ensures |r| == |alerts| && forall k :: 0 <= k < |alerts| ==> r[k] == alerts[k].signal
  {
    seq(|alerts|, k requires 0 <= k < |alerts| => alerts[k].signal)
  }

  /** One of the three alert blocks: test the value against the rule and, when it is
      truthy and outside the band, add an alert and record the signal's name. */
  method RaiseIfAbnormal(patientId: Value, rule: Rule, v: Option<real>, alerts: seq<NewAlert>, created: seq<string>)
    returns (alerts': seq<NewAlert>, created': seq<string>)
    ensures alerts' == alerts + AlertFor(patientId, rule, v)
    ensures created' == created + Signals(AlertFor(patientId, rule, v))
  {
    alerts', created' := alerts, created;
    if Present(v) && (v.value < rule.low || v.value > rule.high) {
      var severity := if rule.mediumLow <= v.value <= rule.mediumHigh then Medium else High;
      alerts' := alerts' + [NewAlert(patientId, rule.name, severity, rule.title)];
      created' := created' + [rule.name];
    }
  }

  /** The alert part of `submit_vital_signs`, after the record is stored. */
  method SubmitVitalAlerts(patientId: Value, heartRate: Option<real>, systolic: Option<real>,
                           temperature: Option<real>) returns (alerts: seq<NewAlert>, alertsCreated: seq<string>)
    ensures alerts == SubmissionAlerts(patientId, heartRate, systolic, temperature)
    ensures alertsCreated == Signals(alerts)
  {
    alerts, alertsCreated := [], [];
    alerts, alertsCreated := RaiseIfAbnormal(patientId, HeartRateRule, heartRate, alerts, alertsCreated);
    alerts, alertsCreated := RaiseIfAbnormal(patientId, BloodPressureRule, systolic, alerts, alertsCreated);
    alerts, alertsCreated := RaiseIfAbnormal(patientId, TemperatureRule, temperature, alerts, alertsCreated);
    var h := AlertFor(patientId, HeartRateRule, heartRate);
    var b := AlertFor(patientId, BloodPressureRule, systolic);
    var t := AlertFor(patientId, TemperatureRule, temperature);
    SignalsAppend(h, b);
    SignalsAppend(h + b, t);
  }

  /** The handler's answer: success, status code, message and the alerts it created. */
  datatype RouteResponse = RouteResponse(success: bool, status: int, message: string, alertsCreated: seq<string>)

  /** `submit_vital_signs` as written, for any JSON object body: `validate_vital_signs`
      returns a `(bool, errors)` tuple, so reading `.is_valid` on it raises
      AttributeError inside the try, and the handler answers 500 before any record or
      alert is stored. */
  function SubmitVitalSignsAsWritten(data: Dict): (r: RouteResponse)
    ensures !r.success && r.status == 500 && r.alertsCreated == []
    ensures r.message == "Failed to submit vital signs: " + NoAttribute("tuple", "is_valid")
  {
    RouteResponse(false, 500, "Failed to submit vital signs: " + NoAttribute("tuple", "is_valid"), [])
  }

  /** A heart rate of 45 should raise a high heart-rate alert, yet the route as written
      creates none. */
  lemma AsWrittenVitalsCreateNoAlert(data: Dict, patientId: Value)
    ensures Signals(SubmissionAlerts(patientId, Some(45.0), None, None)) == ["heart_rate"]
    ensures SubmissionAlerts(patientId, Some(45.0), None, None)[0].severity == High
    ensures SubmitVitalSignsAsWritten(data).alertsCreated == []
  {
    AlertSignals(patientId, HeartRateRule, Some(45.0));
    assert SubmissionAlerts(patientId, Some(45.0), None, None) == AlertFor(patientId, HeartRateRule, Some(45.0));
  }

  /** At most one alert per signal and three in all, named in signal order. */
  lemma SubmissionAlertsShape(patientId: Value, heartRate: Option<real>, systolic: Option<real>, temperature: Option<real>)
    ensures var names := Signals(SubmissionAlerts(patientId, heartRate, systolic, temperature));
      |names| <= 3 && NoDuplicates(names) &&
      (forall k :: 0 <= k < |names| ==> names[k] in {"heart_rate", "blood_pressure", "temperature"}) &&
      ("heart_rate" in names <==> RuleAlert(HeartRateRule, heartRate).Some?) &&
      ("blood_pressure" in names <==> RuleAlert(BloodPressureRule, systolic).Some?) &&
      ("temperature" in names <==> RuleAlert(TemperatureRule, temperature).Some?) &&
      ("heart_rate" in names ==> names[0] == "heart_rate") &&
      ("temperature" in names ==> names[|names| - 1] == "temperature")
  {
    var h := AlertFor(patientId, HeartRateRule, heartRate);
    var b := AlertFor(patientId, BloodPressureRule, systolic);
    var t := AlertFor(patientId, TemperatureRule, temperature);
    SignalsAppend(h, b);
    SignalsAppend(h + b, t);
    AlertSignals(patientId, HeartRateRule, heartRate);
    AlertSignals(patientId, BloodPressureRule, systolic);
    AlertSignals(patientId, TemperatureRule, temperature);
    ThreeNames(Signals(h), Signals(b), Signals(t), "heart_rate", "blood_pressure", "temperature");
  }

  lemma SignalsAppend(a: seq<NewAlert>, b: seq<NewAlert>)
    ensures Signals(a + b) == Signals(a) + Signals(b)
  {
  }

  /** One block records its rule's name exactly when it raises an alert. */
  lemma AlertSignals(patientId: Value, rule: Rule, v: Option<real>)
    ensures Signals(AlertFor(patientId, rule, v)) == if RuleAlert(rule, v).Some? then [rule.name] else []
  {
  }

  /** Three optional, distinct names in a row. */
  lemma ThreeNames(a: seq<string>, b: seq<string>, c: seq<string>, x: string, y: string, z: string)
    requires a in {[], [x]} && b in {[], [y]} && c in {[], [z]}
    requires x != y && y != z && x != z
    ensures var names := a + b + c;
      |names| <= 3 && NoDuplicates(names) &&
      (forall k :: 0 <= k < |names| ==> names[k] in {x, y, z}) &&
      (x in names <==> a != []) && (y in names <==> b != []) && (z in names <==> c != []) &&
      (x in names ==> names[0] == x) &&
      (z in names ==> names[|names| - 1] == z)
  {
  }

  // ---------------------------------------------------------------------------
  // get_patients: pagination

  /** Python's floor division `a // b`. */
  function FloorDiv(a: int, b: int): (q: int)
    requires b != 0
    ensures b > 0 ==> q * b <= a < q * b + b
  {
    if b > 0 then a / b else (-a) / (-b)
  }

  /** `request.args.get(name, default, type=int)`: the default when the argument is
      missing or is not an integer. */
  function IntArg(arg: Option<string>, default: int): (r: int)
    ensures arg.None? ==> r == default
    ensures arg.Some? && ParseInt(arg.value).Some? ==> r == ParseInt(arg.value).value
    ensures arg.Some? && ParseInt(arg.value).None? ==> r == default
  {
    match arg
    case None => default
    case Some(s) => match ParseInt(s) case Some(i) => i case None => default
  }

  const MaxPerPage := 100

  datatype Pagination = Pagination(page: int, perPage: int, offset: int, total: nat, pages: int)

  /** The numbers `get_patients` computes; a per_page of 0 makes the page count divide by
      zero, which the handler reports as a server error. */
  function Paginate(pageArg: Option<string>, perPageArg: Option<string>, total: nat): (r: Result<Pagination>)
    ensures var perPage := if IntArg(perPageArg, 20) < MaxPerPage then IntArg(perPageArg, 20) else MaxPerPage;
      (r.Err? <==> perPage == 0) &&
      (r.Ok? ==> r.value.perPage == perPage && r.value.page == IntArg(pageArg, 1) && r.value.total == total &&
                 r.value.offset == (r.value.page - 1) * perPage)
  {
    var page := IntArg(pageArg, 1);
    var given := IntArg(perPageArg, 20);
    var perPage := if given < MaxPerPage then given else MaxPerPage;
    if perPage == 0 then Err("division by zero")
    else Ok(Pagination(page, perPage, (page - 1) * perPage, total, FloorDiv(total + perPage - 1, perPage)))
  }

  /** The facts of a ceiling division q = (total + n - 1) // n by a positive n. */
  lemma CeilingFacts(total: nat, n: int, q: int)
    requires n > 0 && q * n <= total + n - 1 < q * n + n
    ensures q >= 0 && total <= q * n && (total == 0 <==> q == 0) && (total > 0 ==> (q - 1) * n < total)
  {
    assert (q - 1) * n == q * n - n;
    if q > 0 {
      assert q * n >= n;
    }
  }

  /** With a positive page size, pages is the ceiling of total / per_page: enough pages
      for every row, and no empty page at the end. */
  lemma PagesIsCeiling(pageArg: Option<string>, perPageArg: Option<string>, total: nat)
    requires Paginate(pageArg, perPageArg, total).Ok?
    requires Paginate(pageArg, perPageArg, total).value.perPage > 0
    ensures var p := Paginate(pageArg, perPageArg, total).value;
      p.pages >= 0 && total <= p.pages * p.perPage &&
      (total == 0 <==> p.pages == 0) &&
      (total > 0 ==> (p.pages - 1) * p.perPage < total)
  {
    var p := Paginate(pageArg, perPageArg, total).value;
    CeilingFacts(total, p.perPage, p.pages);
  }

  /** The page size never exceeds 100 whatever the request asks. */
  lemma PerPageCapped(pageArg: Option<string>, perPageArg: Option<string>, total: nat)
    requires Paginate(pageArg, perPageArg, total).Ok?
    ensures Paginate(pageArg, perPageArg, total).value.perPage <= MaxPerPage
    ensures IntArg(perPageArg, 20) >= MaxPerPage ==> Paginate(pageArg, perPageArg, total).value.perPage == MaxPerPage
  {
  }

  // ---------------------------------------------------------------------------
  // acknowledge_alert

  class Alert {
    var patientId: Value
    var severity: string
    var title: string
    var acknowledged: bool
    var acknowledgedBy: Value
    var acknowledgedAt: Option<int>
    var resolved: bool

    constructor (patientId: Value, severity: string, title: string)
      ensures this.patientId == patientId && this.severity == severity && this.title == title
      ensures !acknowledged && acknowledgedBy == VNone && acknowledgedAt.None? && !resolved
    {
      this.patientId := patientId;
      this.severity := severity;
      this.title := title;
      acknowledged := false;
      acknowledgedBy := VNone;
      acknowledgedAt := None;
      resolved := false;
    }
  }

  /** `data.get('acknowledged_by', 'system')`. */
  function Acknowledger(data: Dict): (v: Value)
    ensures !Has(data, "acknowledged_by") ==> v == VStr("system")
    ensures Has(data, "acknowledged_by") ==> Some(v) == Get(data, "acknowledged_by")
  {
    if Has(data, "acknowledged_by") then Get(data, "acknowledged_by").value else VStr("system")
  }

  /** `acknowledge_alert`: 404 for an unknown id, which changes nothing; otherwise 200,
      with the three acknowledgement fields overwritten (also on a second
      acknowledgement) and everything else, resolved included, left as it was. */
  method AcknowledgeAlert(store: map<string, Alert>, id: string, data: Dict, now: int) returns (status: int)
    modifies if id in store then {store[id]} else {}
    ensures id !in store ==> status == 404
    ensures id in store ==>
      status == 200 &&
      store[id].acknowledged && store[id].acknowledgedBy == Acknowledger(data) &&
      store[id].acknowledgedAt == Some(now) &&
      store[id].resolved == old(store[id].resolved) && store[id].patientId == old(store[id].patientId) &&
      store[id].severity == old(store[id].severity) && store[id].title == old(store[id].title)
  {
    var acknowledgedBy := Acknowledger(data);
    if id !in store {
      return 404;
    }
    var alert := store[id];
    alert.acknowledged := true;
    alert.acknowledgedBy := acknowledgedBy;
    alert.acknowledgedAt := Some(now);
    status := 200;
  }
}
