/** The deterministic rules of the medical tools: the vital-sign band classifier and its
    severity breakpoints, the drug interaction and contraindication check, medical code
    lookup, and the symptom-to-condition aggregation. The drug, code and symptom tables
    are parameters; the tables the tools fall back to are given as constants. */
module MedicalTools {
  import opened Common

  // ===========================================================================
  // VitalSignsAnalysisTool

  /** The severity of one abnormality, ordered low < moderate < high < critical. */
  datatype Severity = SevLow | SevModerate | SevHigh | SevCritical

  function Rank(s: Severity): nat
  {
    match s
    case SevLow => 1
    case SevModerate => 2
    case SevHigh => 3
    case SevCritical => 4
  }

  function SeverityName(s: Severity): string
  {
    match s
    case SevLow => "low"
    case SevModerate => "moderate"
    case SevHigh => "high"
    case SevCritical => "critical"
  }

  /** The side of the normal band a value lies on: status 'low' or 'high'. */
  datatype Direction = Below | Above

  /** The normal band of each analysed vital sign, inclusive at both ends, with the
      text the tool reports for it. */
  datatype Band = Band(min: real, max: real, text: string)

  function NormalRange(vital: string): Option<Band>
  {
    if vital == "heart_rate" then Some(Band(60.0, 100.0, "60-100"))
    else if vital == "systolic_bp" then Some(Band(90.0, 140.0, "90-140"))
    else if vital == "diastolic_bp" then Some(Band(60.0, 90.0, "60-90"))
    else if vital == "temperature" then Some(Band(97.0, 99.5, "97.0-99.5"))
    else if vital == "oxygen_saturation" then Some(Band(95.0, 100.0, "95.0-100.0"))
    else if vital == "respiratory_rate" then Some(Band(12.0, 20.0, "12-20"))
    else if vital == "blood_glucose" then Some(Band(70.0, 140.0, "70-140"))
    else None
  }

  /** The three breakpoints of one side of a vital sign. */
  datatype Breakpoints = Breakpoints(moderate: real, high: real, critical: real)

  function SeverityTable(vital: string, dir: Direction): Option<Breakpoints>
  {
    match dir
    case Below =>
      if vital == "heart_rate" then Some(Breakpoints(50.0, 40.0, 30.0))
      else if vital == "systolic_bp" then Some(Breakpoints(80.0, 70.0, 60.0))
      else if vital == "diastolic_bp" then Some(Breakpoints(50.0, 40.0, 30.0))
      else if vital == "temperature" then Some(Breakpoints(96.0, 95.0, 94.0))
      else if vital == "oxygen_saturation" then Some(Breakpoints(92.0, 90.0, 88.0))
      else None
    case Above =>
      if vital == "heart_rate" then Some(Breakpoints(110.0, 130.0, 150.0))
      else if vital == "systolic_bp" then Some(Breakpoints(160.0, 180.0, 200.0))
      else if vital == "diastolic_bp" then Some(Breakpoints(100.0, 110.0, 120.0))
      else if vital == "temperature" then Some(Breakpoints(100.5, 102.0, 104.0))
      else if vital == "oxygen_saturation" then Some(Breakpoints(100.0, 100.0, 100.0))
      else None
  }

  /** Breakpoints lie further from the normal band the more severe they are. */
  predicate Ordered(b: Breakpoints, dir: Direction)
  {
    match dir
    case Below => b.critical <= b.high <= b.moderate
    case Above => b.moderate <= b.high <= b.critical
  }

  /** One side's test chain: critical first, then high, then moderate, else low. */
  function Classify(b: Breakpoints, dir: Direction, value: real): Severity
  {
    match dir
    case Below =>
      if value <= b.critical then SevCritical
      else if value <= b.high then SevHigh
      else if value <= b.moderate then SevModerate
      else SevLow
    case Above =>
      if value >= b.critical then SevCritical
      else if value >= b.high then SevHigh
      else if value >= b.moderate then SevModerate
      else SevLow
  }

  /** `_assess_vital_severity`. */
  function AssessVitalSeverity(vital: string, value: real, dir: Direction): Severity
  {
    match SeverityTable(vital, dir)
    case None => SevLow
    case Some(b) => Classify(b, dir, value)
  }

  /** Every side of the table is ordered away from the normal band. */
  lemma TableOrdered(vital: string, dir: Direction)
    ensures SeverityTable(vital, dir).Some? ==> Ordered(SeverityTable(vital, dir).value, dir)
  {
  }

  /** With ordered breakpoints the severity is the deepest breakpoint crossed: it is at
      least moderate, high or critical exactly when the value is at or past that
      breakpoint. */
  lemma ClassifyDeepest(b: Breakpoints, dir: Direction, value: real)
    requires Ordered(b, dir)
    ensures Rank(Classify(b, dir, value)) >= 2 <==>
      (if dir == Below then value <= b.moderate else value >= b.moderate)
    ensures Rank(Classify(b, dir, value)) >= 3 <==>
      (if dir == Below then value <= b.high else value >= b.high)
    ensures Rank(Classify(b, dir, value)) == 4 <==>
      (if dir == Below then value <= b.critical else value >= b.critical)
  {
  }

  /** A value further from the normal band never gets a lower severity. */
  lemma SeverityMonotone(vital: string, dir: Direction, near: real, far: real)
    requires if dir == Below then far <= near else near <= far
    ensures Rank(AssessVitalSeverity(vital, near, dir)) <= Rank(AssessVitalSeverity(vital, far, dir))
  {
    TableOrdered(vital, dir);
    if SeverityTable(vital, dir).Some? {
      var b := SeverityTable(vital, dir).value;
      ClassifyDeepest(b, dir, near);
      ClassifyDeepest(b, dir, far);
    }
  }

  /** Heart rate 145 is high and 150 critical; any oxygen saturation above 100 is
      critical; respiratory rate and blood glucose abnormalities are always low. */
  lemma SeverityExamples(value: real)
    ensures AssessVitalSeverity("heart_rate", 145.0, Above) == SevHigh
    ensures AssessVitalSeverity("heart_rate", 150.0, Above) == SevCritical
    ensures value > 100.0 ==> AssessVitalSeverity("oxygen_saturation", value, Above) == SevCritical
    ensures AssessVitalSeverity("respiratory_rate", value, Below) == SevLow
    ensures AssessVitalSeverity("respiratory_rate", value, Above) == SevLow
    ensures AssessVitalSeverity("blood_glucose", value, Below) == SevLow
    ensures AssessVitalSeverity("blood_glucose", value, Above) == SevLow
  {
  }

  datatype Abnormality = Abnormality(vital: string, value: Value, status: Direction,
                                     normalRange: string, severity: Severity)

  /** What one entry of the vital-sign dictionary contributes: nothing, an abnormality,
      or a TypeError from comparing a non-number with the band. */
  datatype Outcome = Skip | Abnormal(a: Abnormality) | Raises

  function Check(vital: string, v: Value): (o: Outcome)
    ensures NormalRange(vital).None? || v == VNone ==> o == Skip
    ensures o.Raises? <==> NormalRange(vital).Some? && v != VNone && Numeric(v).None?
    ensures o.Abnormal? ==> o.a.vital == vital && o.a.value == v && Numeric(v).Some?
    ensures NormalRange(vital).Some? && Numeric(v).Some? && v != VNone ==>
      (o.Abnormal? <==> Numeric(v).value < NormalRange(vital).value.min || Numeric(v).value > NormalRange(vital).value.max)
    ensures o.Abnormal? ==>
      (o.a.status == Below <==> Numeric(v).value < NormalRange(vital).value.min) &&
      o.a.severity == AssessVitalSeverity(vital, Numeric(v).value, o.a.status)
  {
    match NormalRange(vital)
    case None => Skip
    case Some(band) =>
      if v == VNone then Skip
      else match Numeric(v)
        case None => Raises
        case Some(x) =>
          if x < band.min then Abnormal(Abnormality(vital, v, Below, band.text, AssessVitalSeverity(vital, x, Below)))
          else if x > band.max then Abnormal(Abnormality(vital, v, Above, band.text, AssessVitalSeverity(vital, x, Above)))
          else Skip
  }

  /** The abnormalities of a dictionary in its order, or None when a comparison raises. */
  function Scan(vitals: Dict): Option<seq<Abnormality>>
    decreases |vitals|
  {
    if vitals == [] then Some([])
    else match Scan(vitals[..|vitals| - 1])
      case None => None
      case Some(found) =>
        match Check(vitals[|vitals| - 1].0, vitals[|vitals| - 1].1)
        case Skip => Some(found)
        case Abnormal(a) => Some(found + [a])
        case Raises => None
  }

  /** Once the scan of a prefix has raised, so has the scan of the whole. */
  lemma {:induction false} ScanRaisedStays(vitals: Dict, k: nat)
    requires k <= |vitals| && Scan(vitals[..k]).None?
    ensures Scan(vitals).None?
    decreases |vitals| - k
  {
    if k < |vitals| {
      assert vitals[..k + 1][..k] == vitals[..k];
      ScanRaisedStays(vitals, k + 1);
    } else {
      assert vitals[..k] == vitals;
    }
  }

  /** The scan raises exactly when some analysed entry holds a non-number. */
  lemma {:induction false} ScanRaisesIff(vitals: Dict)
    ensures Scan(vitals).None? <==> exists i :: 0 <= i < |vitals| && Check(vitals[i].0, vitals[i].1).Raises?
    decreases |vitals|
  {
    if vitals != [] {
      var init := vitals[..|vitals| - 1];
      ScanRaisesIff(init);
      if Scan(vitals).None? && Scan(init).Some? {
        assert Check(vitals[|vitals| - 1].0, vitals[|vitals| - 1].1).Raises?;
      }
      if Scan(init).None? {
        var i :| 0 <= i < |init| && Check(init[i].0, init[i].1).Raises?;
        assert vitals[i] == init[i];
      }
      if exists i :: 0 <= i < |vitals| && Check(vitals[i].0, vitals[i].1).Raises? {
        var i :| 0 <= i < |vitals| && Check(vitals[i].0, vitals[i].1).Raises?;
        if i < |vitals| - 1 {
          assert init[i] == vitals[i];
        }
      }
    }
  }

  /** Without a raise, the abnormalities are exactly the entries whose value is outside
      the inclusive normal band: values inside it, vitals outside the table and None
      values are never reported. */
  lemma {:induction false} ScanMembers(vitals: Dict, a: Abnormality)
    requires Scan(vitals).Some?
    ensures a in Scan(vitals).value <==> exists i :: 0 <= i < |vitals| && Check(vitals[i].0, vitals[i].1) == Abnormal(a)
    decreases |vitals|
  {
    if vitals != [] {
      var init := vitals[..|vitals| - 1];
      var last := Check(vitals[|vitals| - 1].0, vitals[|vitals| - 1].1);
      ScanMembers(init, a);
      assert Scan(vitals).value == Scan(init).value + (if last.Abnormal? then [last.a] else []);
      if a in Scan(vitals).value && a !in Scan(init).value {
        assert last == Abnormal(a);
        assert 0 <= |vitals| - 1 < |vitals| && Check(vitals[|vitals| - 1].0, vitals[|vitals| - 1].1) == Abnormal(a);
      }
      if exists i :: 0 <= i < |init| && Check(init[i].0, init[i].1) == Abnormal(a) {
        var i :| 0 <= i < |init| && Check(init[i].0, init[i].1) == Abnormal(a);
        assert vitals[i] == init[i];
      }
      if exists i :: 0 <= i < |vitals| && Check(vitals[i].0, vitals[i].1) == Abnormal(a) {
        var i :| 0 <= i < |vitals| && Check(vitals[i].0, vitals[i].1) == Abnormal(a);
        if i < |vitals| - 1 {
          assert init[i] == vitals[i];
        }
      }
    }
  }

  /** The most severe abnormality's severity. */
  function MaxSeverity(found: seq<Abnormality>): (s: Severity)
    requires found != []
    ensures forall k :: 0 <= k < |found| ==> Rank(found[k].severity) <= Rank(s)
    ensures exists k :: 0 <= k < |found| && found[k].severity == s
    decreases |found|
  {
    if |found| == 1 then found[0].severity
    else
      var rest := MaxSeverity(found[..|found| - 1]);
      assert found[..|found| - 1][0] == found[0];
      var last := found[|found| - 1].severity;
      var s := if Rank(last) > Rank(rest) then last else rest;
      assert forall k :: 0 <= k < |found| - 1 ==> found[k] == found[..|found| - 1][k];
      s
  }

  /** overall_severity: 'normal' without abnormalities, otherwise the worst one; a
      failed analysis reports 'unknown'. */
  datatype Overall = Normal | Worst(severity: Severity) | Unknown

  function OverallOf(found: seq<Abnormality>): Overall
  {
    if found == [] then Normal else Worst(MaxSeverity(found))
  }

  function VitalRecommendations(overall: Overall): seq<string>
  {
    match overall
    case Worst(SevCritical) => ["Immediate medical attention required", "Consider emergency response"]
    case Worst(SevHigh) => ["Urgent medical evaluation needed", "Monitor closely"]
    case Worst(SevModerate) => ["Schedule medical appointment", "Continue monitoring"]
    case _ => ["Vital signs within normal range", "Continue routine monitoring"]
  }

  datatype VitalReport =
    | Analysed(abnormalities: seq<Abnormality>, overall: Overall, recommendations: seq<string>,
               abnormalCount: nat)
    | AnalysisFailed

  /** The overall severity reported with a report; 'unknown' for a failed analysis. */
  function ReportedOverall(r: VitalReport): Overall
  {
    if r.Analysed? then r.overall else Unknown
  }

  /** `VitalSignsAnalysisTool._run`: scan the dictionary, then grade the findings. */
  method AnalyzeVitalSigns(vitals: Dict) returns (report: VitalReport)
    ensures Scan(vitals).None? ==> report == AnalysisFailed
    ensures Scan(vitals).Some? ==>
      report == Analysed(Scan(vitals).value, OverallOf(Scan(vitals).value),
                         VitalRecommendations(OverallOf(Scan(vitals).value)), |Scan(vitals).value|)
  {
    var abnormalities: seq<Abnormality> := [];
    var i := 0;
    while i < |vitals|
      invariant 0 <= i <= |vitals|
      invariant Scan(vitals[..i]) == Some(abnormalities)
    {
      var (vital, value) := vitals[i];
      assert vitals[..i + 1][..i] == vitals[..i];
      var o := Check(vital, value);
      if o.Raises? {
        ScanRaisedStays(vitals, i + 1);
        return AnalysisFailed;
      }
      if o.Abnormal? {
        abnormalities := abnormalities + [o.a];
      }
      i := i + 1;
    }
    assert vitals[..i] == vitals;
    var overall := Normal;
    if abnormalities != [] {
      var severities := seq(|abnormalities|, k requires 0 <= k < |abnormalities| => abnormalities[k].severity);
      var worst := MaxSeverity(abnormalities);
      if SevCritical in severities {
        overall := Worst(SevCritical);
      } else if SevHigh in severities {
        overall := Worst(SevHigh);
      } else if SevModerate in severities {
        overall := Worst(SevModerate);
      } else {
        overall := Worst(SevLow);
      }
      assert severities[0] == abnormalities[0].severity;
      assert overall == Worst(worst) by {
        var k :| 0 <= k < |abnormalities| && abnormalities[k].severity == worst;
        assert severities[k] == worst;
        if SevCritical in severities {
          var q :| 0 <= q < |severities| && severities[q] == SevCritical;
          assert Rank(abnormalities[q].severity) <= Rank(worst);
        } else if SevHigh in severities {
          var q :| 0 <= q < |severities| && severities[q] == SevHigh;
          assert Rank(abnormalities[q].severity) <= Rank(worst);
        } else if SevModerate in severities {
          var q :| 0 <= q < |severities| && severities[q] == SevModerate;
          assert Rank(abnormalities[q].severity) <= Rank(worst);
        }
      }
    }
    report := Analysed(abnormalities, overall, VitalRecommendations(overall), |abnormalities|);
  }

  /** The overall severity of a successful analysis ranks every abnormality and is the
      severity of one of them; without abnormalities it is 'normal'. */
  lemma OverallIsWorst(found: seq<Abnormality>)
    ensures found == [] <==> OverallOf(found) == Normal
    ensures found != [] ==>
      (forall k :: 0 <= k < |found| ==> Rank(found[k].severity) <= Rank(OverallOf(found).severity)) &&
      (exists k :: 0 <= k < |found| && found[k].severity == OverallOf(found).severity)
  {
  }

  // ===========================================================================
  // DrugInteractionTool

  /** The interaction and contraindication tables, keyed by lower-case drug name. */
  datatype DrugData = DrugData(interactions: map<string, seq<string>>, contraindications: map<string, seq<string>>)

  /** The table the tool falls back to when no data file is present. */
  const BasicDrugData := DrugData(
    map["warfarin" := ["aspirin", "ibuprofen", "heparin"],
        "aspirin" := ["warfarin", "ibuprofen", "heparin"],
        "ibuprofen" := ["warfarin", "aspirin"],
        "heparin" := ["warfarin", "aspirin"],
        "metformin" := ["insulin", "glipizide"],
        "insulin" := ["metformin", "glipizide"],
        "glipizide" := ["metformin", "insulin"]],
    map["warfarin" := ["pregnancy", "bleeding_disorders"],
        "aspirin" := ["bleeding_disorders", "stomach_ulcers"],
        "ibuprofen" := ["kidney_disease", "stomach_ulcers"],
        "metformin" := ["kidney_disease", "heart_failure"],
        "insulin" := ["hypoglycemia"]])

  /** Every interaction is a 'drug_drug' interaction of 'moderate' severity with the same
      recommendation; the medications keep the caller's spelling. */
  datatype Interaction = Interaction(medication1: string, medication2: string, description: string)

  const InteractionRecommendation := "Monitor closely and consider alternative medications"

  /** The table lists b (lower-cased) among the interactions of a (lower-cased). */
  predicate Lists(data: DrugData, a: string, b: string)
  {
    Lower(a) in data.interactions && Lower(b) in data.interactions[Lower(a)]
  }

  /** `_check_medication_pair`: the pair interacts when either drug's entry lists the
      other; the drug whose entry lists the other is named first. */
  function CheckPair(med1: string, med2: string, data: DrugData): (r: Option<Interaction>)
    ensures r.Some? <==> Lists(data, med1, med2) || Lists(data, med2, med1)
    ensures r.Some? ==>
      (r.value.medication1, r.value.medication2) in {(med1, med2), (med2, med1)} &&
      Lists(data, r.value.medication1, r.value.medication2) &&
      r.value.description == r.value.medication1 + " may interact with " + r.value.medication2
    ensures Lists(data, med1, med2) ==> r.value.medication1 == med1
  {
    if Lists(data, med1, med2) then Some(Interaction(med1, med2, med1 + " may interact with " + med2))
    else if Lists(data, med2, med1) then Some(Interaction(med2, med1, med2 + " may interact with " + med1))
    else None
  }

  /** Whether a pair interacts does not depend on the order of the two drugs nor on
      their letter case. */
  lemma PairSymmetricCaseInsensitive(med1: string, med2: string, data: DrugData)
    ensures CheckPair(med1, med2, data).Some? <==> CheckPair(med2, med1, data).Some?
    ensures CheckPair(med1, med2, data).Some? <==> CheckPair(Lower(med1), Lower(med2), data).Some?
  {
    LowerIdempotent(med1);
    LowerIdempotent(med2);
  }

  /** The interactions found in row i of the pair loop, among the first n columns:
      only columns j with i < j are checked. */
  function Row(meds: seq<string>, data: DrugData, i: nat, n: nat): seq<Interaction>
    requires i < |meds| && n <= |meds|
  {
    if n == 0 then []
    else
      var found := CheckPair(meds[i], meds[n - 1], data);
      Row(meds, data, i, n - 1) + (if i < n - 1 && found.Some? then [found.value] else [])
  }

  /** The interactions found in the first m rows. */
  function PairInteractions(meds: seq<string>, data: DrugData, m: nat): seq<Interaction>
    requires m <= |meds|
  {
    if m == 0 then [] else PairInteractions(meds, data, m - 1) + Row(meds, data, m - 1, |meds|)
  }

  lemma {:induction false} RowMembers(meds: seq<string>, data: DrugData, i: nat, n: nat, x: Interaction)
    requires i < |meds| && n <= |meds|
    ensures x in Row(meds, data, i, n) <==> exists j :: i < j < n && CheckPair(meds[i], meds[j], data) == Some(x)
  {
    if n > 0 {
      RowMembers(meds, data, i, n - 1, x);
    }
  }

  /** The pair loop reports exactly the interacting pairs i < j: each unordered pair is
      examined once. */
  lemma PairInteractionsMembers(meds: seq<string>, data: DrugData, m: nat, x: Interaction)
    requires m <= |meds|
    ensures x in PairInteractions(meds, data, m) <==>
      exists i, j :: 0 <= i < m && i < j < |meds| && CheckPair(meds[i], meds[j], data) == Some(x)
  {
    PairRows(meds, data, m, x);
    if x in PairInteractions(meds, data, m) {
      var i :| 0 <= i < m && x in Row(meds, data, i, |meds|);
      RowMembers(meds, data, i, |meds|, x);
      var j :| i < j < |meds| && CheckPair(meds[i], meds[j], data) == Some(x);
    }
    if exists i, j :: 0 <= i < m && i < j < |meds| && CheckPair(meds[i], meds[j], data) == Some(x) {
      var i, j :| 0 <= i < m && i < j < |meds| && CheckPair(meds[i], meds[j], data) == Some(x);
      RowMembers(meds, data, i, |meds|, x);
      assert x in Row(meds, data, i, |meds|);
    }
  }

  /** The first m rows hold exactly what their rows hold. */
  lemma {:induction false} PairRows(meds: seq<string>, data: DrugData, m: nat, x: Interaction)
    requires m <= |meds|
    ensures x in PairInteractions(meds, data, m) <==> exists i :: 0 <= i < m && x in Row(meds, data, i, |meds|)
  {
    if m > 0 {
      PairRows(meds, data, m - 1, x);
      var earlier := PairInteractions(meds, data, m - 1);
      var row := Row(meds, data, m - 1, |meds|);
      assert PairInteractions(meds, data, m) == earlier + row;
      if x in earlier {
        var i :| 0 <= i < m - 1 && x in Row(meds, data, i, |meds|);
        assert 0 <= i < m && x in Row(meds, data, i, |meds|);
      } else if x in row {
        assert 0 <= m - 1 < m && x in Row(meds, data, m - 1, |meds|);
      }
      if exists i :: 0 <= i < m && x in Row(meds, data, i, |meds|) {
        var i :| 0 <= i < m && x in Row(meds, data, i, |meds|);
        if i < m - 1 {
          assert 0 <= i < m - 1 && x in Row(meds, data, i, |meds|);
        } else {
          assert x in row;
        }
      }
    }
  }

  lemma {:induction false} RowBound(meds: seq<string>, data: DrugData, i: nat, n: nat)
    requires i < |meds| && n <= |meds|
    ensures |Row(meds, data, i, n)| <= if n > i then n - i - 1 else 0
  {
    if n > 0 {
      RowBound(meds, data, i, n - 1);
    }
  }

  /** At most one interaction per unordered pair: twice the count is at most
      m * (2 |meds| - m - 1), which for m = |meds| is |meds| * (|meds| - 1). */
  lemma {:induction false} PairInteractionsBound(meds: seq<string>, data: DrugData, m: nat)
    requires m <= |meds|
    ensures 2 * |PairInteractions(meds, data, m)| <= m * (2 * |meds| - m - 1)
  {
    if m > 0 {
      PairInteractionsBound(meds, data, m - 1);
      RowBound(meds, data, m - 1, |meds|);
      var n := |meds|;
      assert (m - 1) * (2 * n - (m - 1) - 1) + 2 * (n - m) == m * (2 * n - m - 1);
    }
  }

  /** A contraindication carries the caller's spelling and the listed conditions; its
      severity is always 'high'. */
  datatype Contraindication = Contraindication(medication: string, conditions: seq<string>, description: string)

  /** `_check_contraindications`. */
  function CheckContraindications(med: string, data: DrugData): (r: Option<Contraindication>)
    ensures r.Some? <==> Lower(med) in data.contraindications
    ensures r.Some? ==>
      r.value.medication == med && r.value.conditions == data.contraindications[Lower(med)] &&
      r.value.description == med + " has contraindications: " + JoinWith(r.value.conditions, ", ")
  {
    if Lower(med) in data.contraindications then
      var conditions := data.contraindications[Lower(med)];
      Some(Contraindication(med, conditions, med + " has contraindications: " + JoinWith(conditions, ", ")))
    else None
  }

  /** The contraindications of the medications, in their order. */
  function Contraindicated(meds: seq<string>, data: DrugData): (r: seq<Contraindication>)
    ensures |r| <= |meds|
    ensures forall c :: c in r ==> exists k :: 0 <= k < |meds| && CheckContraindications(meds[k], data) == Some(c)
    decreases |meds|
  {
    if meds == [] then []
    else
      var init := Contraindicated(meds[..|meds| - 1], data);
      assert forall k :: 0 <= k < |meds| - 1 ==> meds[..|meds| - 1][k] == meds[k];
      match CheckContraindications(meds[|meds| - 1], data)
      case Some(c) => init + [c]
      case None => init
  }

  /** Every contraindicated medication is reported. */
  lemma {:induction false} ContraindicatedComplete(meds: seq<string>, data: DrugData, k: nat)
    requires k < |meds| && CheckContraindications(meds[k], data).Some?
    ensures CheckContraindications(meds[k], data).value in Contraindicated(meds, data)
    decreases |meds|
  {
    if k < |meds| - 1 {
      assert meds[..|meds| - 1][k] == meds[k];
      ContraindicatedComplete(meds[..|meds| - 1], data, k);
    }
  }

  /** `_generate_recommendations`. */
  function DrugRecommendations(interactions: seq<Interaction>, contraindications: seq<Contraindication>): (r: seq<string>)
    ensures interactions == [] && contraindications == [] <==>
      r == ["No known interactions or contraindications identified"]
    ensures |r| == if interactions == [] && contraindications == [] then 1
                   else (if interactions != [] then 2 else 0) + (if contraindications != [] then 2 else 0)
  {
    (if interactions != [] then
      ["Monitor for drug interactions and adjust dosages as needed",
       "Consider alternative medications if interactions are severe"] else []) +
    (if contraindications != [] then
      ["Review contraindications before prescribing", "Consider patient-specific risk factors"] else []) +
    (if interactions == [] && contraindications == [] then
      ["No known interactions or contraindications identified"] else [])
  }

  datatype DrugReport = DrugReport(medications: seq<string>, interactions: seq<Interaction>,
                                   contraindications: seq<Contraindication>, safeToPrescribe: bool,
                                   recommendations: seq<string>)

  /** One row of the pair loop: every column is visited, only j > i is checked. */
  method CheckRow(meds: seq<string>, data: DrugData, i: nat) returns (row: seq<Interaction>)
    requires i < |meds|
    ensures row == Row(meds, data, i, |meds|)
  {
    row := [];
    var j := 0;
    while j < |meds|
      invariant 0 <= j <= |meds|
      invariant row == Row(meds, data, i, j)
    {
      if i < j {
        var interaction := CheckPair(meds[i], meds[j], data);
        if interaction.Some? {
          row := row + [interaction.value];
        }
      }
      j := j + 1;
    }
  }

  /** `DrugInteractionTool._run`: the pair loop, the contraindication loop, and the
      verdict. */
  method CheckDrugInteractions(meds: seq<string>, data: DrugData) returns (report: DrugReport)
    ensures report.medications == meds
    ensures report.interactions == PairInteractions(meds, data, |meds|)
    ensures report.contraindications == Contraindicated(meds, data)
    ensures report.safeToPrescribe <==> report.interactions == [] && report.contraindications == []
    ensures report.recommendations == DrugRecommendations(report.interactions, report.contraindications)
  {
    var interactions: seq<Interaction> := [];
    var i := 0;
    while i < |meds|
      invariant 0 <= i <= |meds|
      invariant interactions == PairInteractions(meds, data, i)
    {
      var row := CheckRow(meds, data, i);
      interactions := interactions + row;
      i := i + 1;
    }
    var contraindications: seq<Contraindication> := [];
    var k := 0;
    while k < |meds|
      invariant 0 <= k <= |meds|
      invariant contraindications == Contraindicated(meds[..k], data)
    {
      assert meds[..k + 1][..k] == meds[..k];
      var c := CheckContraindications(meds[k], data);
      if c.Some? {
        contraindications := contraindications + [c.value];
      }
      k := k + 1;
    }
    assert meds[..k] == meds;
    report := DrugReport(meds, interactions, contraindications,
                         |interactions| == 0 && |contraindications| == 0,
                         DrugRecommendations(interactions, contraindications));
  }

  /** Safe to prescribe exactly when no pair i < j interacts and no medication has a
      contraindication entry. */
  lemma SafeIffNothingFound(meds: seq<string>, data: DrugData)
    ensures PairInteractions(meds, data, |meds|) == [] && Contraindicated(meds, data) == [] <==>
      (forall i, j :: 0 <= i < j < |meds| ==> CheckPair(meds[i], meds[j], data).None?) &&
      (forall k :: 0 <= k < |meds| ==> Lower(meds[k]) !in data.contraindications)
  {
    if PairInteractions(meds, data, |meds|) == [] {
      forall i, j | 0 <= i < j < |meds|
        ensures CheckPair(meds[i], meds[j], data).None?
      {
        if CheckPair(meds[i], meds[j], data).Some? {
          PairInteractionsMembers(meds, data, |meds|, CheckPair(meds[i], meds[j], data).value);
        }
      }
    } else {
      var x := PairInteractions(meds, data, |meds|)[0];
      PairInteractionsMembers(meds, data, |meds|, x);
    }
    if Contraindicated(meds, data) == [] {
      forall k | 0 <= k < |meds|
        ensures Lower(meds[k]) !in data.contraindications
      {
        if Lower(meds[k]) in data.contraindications {
          ContraindicatedComplete(meds, data, k);
        }
      }
    }
  }

  /** With the fallback table, warfarin and aspirin interact, warfarin named first. */
  lemma BasicTableExamples()
    ensures CheckPair("warfarin", "aspirin", BasicDrugData).Some?
    ensures CheckPair("warfarin", "aspirin", BasicDrugData).value.medication1 == "warfarin"
  {
    LowerNoUpper("warfarin");
    LowerNoUpper("aspirin");
    var listed := BasicDrugData.interactions["warfarin"];
    assert listed[0] == "aspirin";
    assert Lists(BasicDrugData, "warfarin", "aspirin");
  }

  // ===========================================================================
  // MedicalCodeLookupTool

  /** A code table: code to description, in the table's order. */
  type CodeTable = seq<(string, string)>

  /** The value of the first entry with key k, as a dictionary lookup. */
  function LookupKey<V>(t: seq<(string, V)>, k: string): (r: Option<V>)
    ensures r.None? <==> forall i :: 0 <= i < |t| ==> t[i].0 != k
    ensures r.Some? ==> (k, r.value) in t
  {
    if t == [] then None else if t[0].0 == k then Some(t[0].1) else LookupKey(t[1..], k)
  }

  /** `code_upper in c or c in code_upper`. */
  predicate PartialMatch(code: string, c: string)
  {
    Contains(c, code) || Contains(code, c)
  }

  /** The entries whose code partially matches, in table order. */
  function PartialMatchesOf(codes: CodeTable, code: string): (r: CodeTable)
    ensures forall e :: e in r <==> e in codes && PartialMatch(code, e.0)
    ensures |r| <= |codes|
    decreases |codes|
  {
    if codes == [] then []
    else
      var init := PartialMatchesOf(codes[..|codes| - 1], code);
      var last := codes[|codes| - 1];
      assert codes == codes[..|codes| - 1] + [last];
      if PartialMatch(code, last.0) then init + [last] else init
  }

  datatype CodeLookup =
    | UnsupportedType(codeType: string, supportedTypes: seq<string>)
    | ExactMatch(code: string, codeType: string, description: string)
    | PartialMatches(code: string, codeType: string, matches: CodeTable)
    | CodeNotFound(code: string, codeType: string)

  /** `MedicalCodeLookupTool._run`: the type is looked up lower-cased and the code
      upper-cased; an exact code wins over partial matches, which are collected in
      table order. */
  method LookupMedicalCode(code: string, codeType: string, data: seq<(string, CodeTable)>) returns (r: CodeLookup)
    ensures LookupKey(data, Lower(codeType)).None? ==> r == UnsupportedType(codeType, KeysOf(data))
    ensures LookupKey(data, Lower(codeType)).Some? && LookupKey(LookupKey(data, Lower(codeType)).value, Upper(code)).Some? ==>
      r == ExactMatch(Upper(code), codeType, LookupKey(LookupKey(data, Lower(codeType)).value, Upper(code)).value)
    ensures LookupKey(data, Lower(codeType)).Some? && LookupKey(LookupKey(data, Lower(codeType)).value, Upper(code)).None? ==>
      var partial := PartialMatchesOf(LookupKey(data, Lower(codeType)).value, Upper(code));
      r == if partial != [] then PartialMatches(Upper(code), codeType, partial) else CodeNotFound(Upper(code), codeType)
  {
    var codeUpper := Upper(code);
    var typeLower := Lower(codeType);
    var table := LookupKey(data, typeLower);
    if table.None? {
      return UnsupportedType(codeType, KeysOf(data));
    }
    var codes := table.value;
    var exact := LookupKey(codes, codeUpper);
    if exact.Some? {
      return ExactMatch(codeUpper, codeType, exact.value);
    }
    var partial: CodeTable := [];
    var i := 0;
    while i < |codes|
      invariant 0 <= i <= |codes|
      invariant partial == PartialMatchesOf(codes[..i], codeUpper)
    {
      assert codes[..i + 1][..i] == codes[..i];
      var (c, desc) := codes[i];
      if Contains(c, codeUpper) || Contains(codeUpper, c) {
        partial := partial + [(c, desc)];
      }
      i := i + 1;
    }
    assert codes[..i] == codes;
    if partial != [] {
      r := PartialMatches(codeUpper, codeType, partial);
    } else {
      r := CodeNotFound(codeUpper, codeType);
    }
  }

  /** A code that is not in the table is reported as not found exactly when no table
      code contains it or is contained in it. */
  lemma NotFoundIffNoOverlap(codes: CodeTable, code: string)
    ensures PartialMatchesOf(codes, code) == [] <==> forall i :: 0 <= i < |codes| ==> !PartialMatch(code, codes[i].0)
  {
    if PartialMatchesOf(codes, code) != [] {
      var e := PartialMatchesOf(codes, code)[0];
      assert e in codes;
    } else {
      forall i | 0 <= i < |codes|
        ensures !PartialMatch(code, codes[i].0)
      {
        assert codes[i] in codes;
      }
    }
  }

  // ===========================================================================
  // SymptomAnalysisTool

  /** A condition entry of the symptom table; a missing description reads as '' and a
      missing severity as 'low'. */
  datatype Condition = Condition(description: Option<string>, symptoms: seq<string>, severity: Option<string>)

  function DescriptionOf(c: Condition): string
  {
    if c.description.Some? then c.description.value else ""
  }

  function ConditionSeverity(c: Condition): string
  {
    if c.severity.Some? then c.severity.value else "low"
  }

  datatype Found = Found(condition: string, description: string, severity: string, matchingSymptoms: seq<string>)

  /** The conditions among the given table entries that list the lower-cased symptom. */
  function MatchesIn(symptom: string, data: seq<(string, Condition)>): (r: seq<Found>)
    ensures forall f :: f in r ==>
      f.matchingSymptoms == [symptom] &&
      exists k :: 0 <= k < |data| && data[k].0 == f.condition && Lower(symptom) in data[k].1.symptoms
    decreases |data|
  {
    if data == [] then []
    else
      var init := MatchesIn(symptom, data[..|data| - 1]);
      assert forall k :: 0 <= k < |data| - 1 ==> data[..|data| - 1][k] == data[k];
      var (name, c) := data[|data| - 1];
      if Lower(symptom) in c.symptoms
      then init + [Found(name, DescriptionOf(c), ConditionSeverity(c), [symptom])]
      else init
  }

  /** Every (symptom, condition) hit, symptom by symptom. */
  function AllMatches(symptoms: seq<string>, data: seq<(string, Condition)>): seq<Found>
    decreases |symptoms|
  {
    if symptoms == [] then []
    else AllMatches(symptoms[..|symptoms| - 1], data) + MatchesIn(symptoms[|symptoms| - 1], data)
  }

  function IndexOfCondition(merged: seq<Found>, name: string): (r: Option<nat>)
    ensures r.None? <==> forall k :: 0 <= k < |merged| ==> merged[k].condition != name
    ensures r.Some? ==> r.value < |merged| && merged[r.value].condition == name
  {
    if merged == [] then None
    else if merged[0].condition == name then Some(0)
    else match IndexOfCondition(merged[1..], name)
      case None => None
      case Some(k) => Some(k + 1)
  }

  /** One step of the de-duplicating dictionary: a new condition is appended, a known one
      has the new matching symptoms added to its list. */
  function MergeStep(merged: seq<Found>, f: Found): seq<Found>
  {
    match IndexOfCondition(merged, f.condition)
    case None => merged + [f]
    case Some(k) => merged[k := merged[k].(matchingSymptoms := merged[k].matchingSymptoms + f.matchingSymptoms)]
  }

  function Merge(found: seq<Found>): seq<Found>
    decreases |found|
  {
    if found == [] then [] else MergeStep(Merge(found[..|found| - 1]), found[|found| - 1])
  }

  /** All the symptoms found for one condition, in the order they were found. */
  function SymptomsFor(found: seq<Found>, name: string): (r: seq<string>)
    ensures (forall i :: 0 <= i < |found| ==> found[i].condition != name) ==> r == []
    decreases |found|
  {
    if found == [] then []
    else
      var last := found[|found| - 1];
      assert forall i :: 0 <= i < |found| - 1 ==> found[..|found| - 1][i] == found[i];
      SymptomsFor(found[..|found| - 1], name) + (if last.condition == name then last.matchingSymptoms else [])
  }

  function Names(found: seq<Found>): (r: seq<string>)
    ensures |r| == |found| && forall k :: 0 <= k < |found| ==> r[k] == found[k].condition
  {
    seq(|found|, k requires 0 <= k < |found| => found[k].condition)
  }

  /** One merge step keeps the names, adding the new one at the end when it is new. */
  lemma MergeStepNames(merged: seq<Found>, f: Found)
    ensures Names(MergeStep(merged, f)) ==
      if f.condition in Names(merged) then Names(merged) else Names(merged) + [f.condition]
  {
    var r := MergeStep(merged, f);
    if f.condition in Names(merged) {
      var k :| 0 <= k < |merged| && Names(merged)[k] == f.condition;
      assert IndexOfCondition(merged, f.condition).Some?;
    } else {
      assert IndexOfCondition(merged, f.condition).None?;
    }
  }

  /** The merged list names exactly the conditions found. */
  lemma {:induction false} MergeNames(found: seq<Found>, name: string)
    ensures name in Names(Merge(found)) <==> name in Names(found)
    decreases |found|
  {
    if found != [] {
      var init := found[..|found| - 1];
      MergeNames(init, name);
      MergeStepNames(Merge(init), found[|found| - 1]);
      assert Names(found) == Names(init) + [found[|found| - 1].condition];
    }
  }

  /** Each condition appears once in the merged list. */
  lemma {:induction false} MergeDistinct(found: seq<Found>)
    ensures NoDuplicates(Names(Merge(found)))
    decreases |found|
  {
    if found != [] {
      var init := found[..|found| - 1];
      MergeDistinct(init);
      MergeStepNames(Merge(init), found[|found| - 1]);
    }
  }

  /** Each merged condition carries all of its matching symptoms, in the order found. */
  lemma {:induction false} MergeSymptoms(found: seq<Found>, k: nat)
    requires k < |Merge(found)|
    ensures Merge(found)[k].matchingSymptoms == SymptomsFor(found, Merge(found)[k].condition)
    decreases |found|
  {
    var init := found[..|found| - 1];
    var f := found[|found| - 1];
    var m := Merge(init);
    MergeStepNames(m, f);
    assert |Names(Merge(found))| == |Merge(found)|;
    match IndexOfCondition(m, f.condition)
    case None =>
      if k < |m| {
        MergeSymptoms(init, k);
      } else {
        MergeNames(init, f.condition);
        assert forall i :: 0 <= i < |init| ==> init[i].condition == Names(init)[i];
      }
    case Some(q) =>
      if k == q {
        MergeSymptoms(init, q);
      } else {
        MergeDistinct(init);
        assert Names(m)[k] != Names(m)[q];
        MergeSymptoms(init, k);
      }
  }

  /** The rank the assessment gives a condition severity: unknown strings rank as low. */
  function SeverityRank(s: string): nat
  {
    if s == "critical" then 4 else if s == "high" then 3 else if s == "moderate" then 2 else 1
  }

  /** severity_assessment: the worst condition severity, 'low' when there is none. */
  function SymptomSeverity(conditions: seq<Found>): (r: string)
    ensures r in {"low", "moderate", "high", "critical"}
    ensures forall k :: 0 <= k < |conditions| ==> SeverityRank(conditions[k].severity) <= SeverityRank(r)
    ensures r != "low" ==> exists k :: 0 <= k < |conditions| && conditions[k].severity == r
  {
    if exists k :: 0 <= k < |conditions| && conditions[k].severity == "critical" then "critical"
    else if exists k :: 0 <= k < |conditions| && conditions[k].severity == "high" then "high"
    else if exists k :: 0 <= k < |conditions| && conditions[k].severity == "moderate" then "moderate"
    else "low"
  }

  function SymptomRecommendations(assessment: string): seq<string>
  {
    if assessment in {"critical", "high"} then
      ["Seek immediate medical attention", "Consider emergency department evaluation"]
    else if assessment == "moderate" then
      ["Schedule appointment with healthcare provider", "Monitor symptoms closely"]
    else
      ["Consider scheduling routine appointment", "Monitor for symptom changes"]
  }

  datatype SymptomReport = SymptomReport(symptoms: seq<string>, patientAge: Option<int>,
                                         patientGender: Option<string>, conditions: seq<Found>,
                                         severityAssessment: string, recommendations: seq<string>,
                                         totalConditionsFound: nat)

  /** `SymptomAnalysisTool._run`: collect every hit, merge hits of the same condition,
      and grade the result. */
  method AnalyzeSymptoms(symptoms: seq<string>, age: Option<int>, gender: Option<string>,
                         data: seq<(string, Condition)>) returns (report: SymptomReport)
    ensures report.conditions == Merge(AllMatches(symptoms, data))
    ensures report.severityAssessment == SymptomSeverity(report.conditions)
    ensures report.recommendations == SymptomRecommendations(report.severityAssessment)
    ensures report.totalConditionsFound == |report.conditions|
    ensures report.symptoms == symptoms && report.patientAge == age && report.patientGender == gender
  {
    var possible: seq<Found> := [];
    var i := 0;
    while i < |symptoms|
      invariant 0 <= i <= |symptoms|
      invariant possible == AllMatches(symptoms[..i], data)
    {
      assert symptoms[..i + 1][..i] == symptoms[..i];
      var row := SymptomMatches(symptoms[i], data);
      possible := possible + row;
      i := i + 1;
    }
    assert symptoms[..i] == symptoms;
    var unique := MergeAll(possible);
    var assessment := SymptomSeverity(unique);
    report := SymptomReport(symptoms, age, gender, unique, assessment,
                            SymptomRecommendations(assessment), |unique|);
  }

  /** The inner loop of `_run`: the conditions whose symptom list holds the
      lower-cased symptom, in table order. */
  method SymptomMatches(symptom: string, data: seq<(string, Condition)>) returns (row: seq<Found>)
    ensures row == MatchesIn(symptom, data)
  {
    var symptomLower := Lower(symptom);
    var j := 0;
    row := [];
    while j < |data|
      invariant 0 <= j <= |data|
      invariant row == MatchesIn(symptom, data[..j])
    {
      assert data[..j + 1][..j] == data[..j];
      var (name, c) := data[j];
      if symptomLower in c.symptoms {
        row := row + [Found(name, DescriptionOf(c), ConditionSeverity(c), [symptom])];
      }
      j := j + 1;
    }
    assert data[..j] == data;
  }

  /** The merging loop of `_run`: each hit folded into the list of conditions. */
  method MergeAll(possible: seq<Found>) returns (unique: seq<Found>)
    ensures unique == Merge(possible)
  {
    unique := [];
    var k := 0;
    while k < |possible|
      invariant 0 <= k <= |possible|
      invariant unique == Merge(possible[..k])
    {
      assert possible[..k + 1][..k] == possible[..k];
      unique := MergeStep(unique, possible[k]);
      k := k + 1;
    }
    assert possible[..k] == possible;
  }
}
