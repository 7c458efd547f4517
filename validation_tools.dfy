/** The validation tools: a patient, a vital-signs and a medical-record validator that
    accumulate errors, warnings and the fields they accepted, and a data-quality checker
    that deducts from a score of 100. Each tool body runs inside a try block, so a string
    method called on a value that is not a string ends the call with the failure record.
    The date-of-birth verdict and the computed age need today's date and are parameters. */
module ValidationTools {
  import opened Common
  import Validators

  /** A validator's result dictionary; `Failed` is the record the except branch returns
      (is_valid false, an error text, no errors and no warnings). */
  datatype Report<W> = Report(isValid: bool, errors: seq<string>, warnings: seq<W>, validated: seq<string>) | Failed

  /** The verdict of a format check on an optional field: skipped or passed, flagged, or
      raised because the value is truthy but not a string. */
  datatype Verdict = Fine | Flagged | Raises

  function TextVerdict(data: Dict, f: string, ok: string -> bool): (v: Verdict)
    ensures v == Raises <==> Validators.NonString(data, f)
    ensures v == Flagged <==> HasTruthy(data, f) && Get(data, f).value.VStr? && !ok(Get(data, f).value.s)
  {
    if !HasTruthy(data, f) then Fine
    else match Get(data, f).value
      case VStr(s) => if ok(s) then Fine else Flagged
      case _ => Raises
  }

  /** A field that is present, a string, and passes the check. */
  predicate TextOk(data: Dict, f: string, ok: string -> bool)
  {
    HasTruthy(data, f) && Get(data, f).value.VStr? && ok(Get(data, f).value.s)
  }

  /** The message of a flagged check, or nothing. */
  function Flag(v: Verdict, msg: string): seq<string>
  {
    if v == Flagged then [msg] else []
  }

  /** The required fields that are present and truthy, in order: `validated_fields`. */
  function PresentFields(data: Dict, fields: seq<string>): (r: seq<string>)
    ensures |r| <= |fields|
  {
    if fields == [] then []
    else
      var last := fields[|fields| - 1];
      PresentFields(data, fields[..|fields| - 1]) + (if HasTruthy(data, last) then [last] else [])
  }

  /** Each required field is either reported missing or accepted. */
  lemma {:induction false} PresentOrMissing(data: Dict, fields: seq<string>)
    ensures |PresentFields(data, fields)| + |Validators.MissingFields(data, fields)| == |fields|
    ensures |PresentFields(data, fields)| == |fields| <==> forall f :: f in fields ==> HasTruthy(data, f)
  {
    if fields != [] {
      var init := fields[..|fields| - 1];
      PresentOrMissing(data, init);
      assert fields == init + [fields[|fields| - 1]];
      if |PresentFields(data, fields)| == |fields| {
        forall f | f in fields
          ensures HasTruthy(data, f)
        {
          if f in init {
            assert |PresentFields(data, init)| == |init| by {
              assert |PresentFields(data, init)| <= |init|;
            }
          }
        }
      }
    }
  }

  /** Accepting required fields one at a time, as the tools' loops do. */
  method AcceptRequired(data: Dict, fields: seq<string>) returns (errors: seq<string>, validated: seq<string>)
    ensures errors == Validators.MissingFields(data, fields)
    ensures validated == PresentFields(data, fields)
  {
    errors := [];
    validated := [];
    for i := 0 to |fields|
      invariant errors == Validators.MissingFields(data, fields[..i])
      invariant validated == PresentFields(data, fields[..i])
    {
      assert fields[..i + 1][..i] == fields[..i];
      if !HasTruthy(data, fields[i]) {
        errors := errors + [Validators.MissingMessage(fields[i])];
      } else {
        validated := validated + [fields[i]];
      }
    }
    assert fields[..|fields|] == fields;
  }

  // ---------------------------------------------------------------------------
  // Format predicates

  predicate LocalChar(c: char) { IsAlnum(c) || c in "._%+-" }

  predicate DomainChar(c: char) { IsAlnum(c) || c == '.' || c == '-' }

  /** The e-mail pattern on the stripped text: a local part of letters, digits and
      `._%+-`, an '@', a domain of letters, digits, '.' and '-', then a final '.' and two
      or more letters. */
  predicate EmailShape(t: string)
  {
    exists i, j | 0 <= i < |t| && 0 <= j < |t| ::
      1 <= i && i + 2 <= j && j + 3 <= |t| && t[i] == '@' && t[j] == '.' &&
      (forall k :: 0 <= k < i ==> LocalChar(t[k])) &&
      (forall k :: i < k < j ==> DomainChar(t[k])) &&
      (forall k :: j < k < |t| ==> IsLetter(t[k]))
  }

  /** `_validate_email`. */
  predicate ValidEmail(email: string) { EmailShape(Strip(email)) }

  lemma EmailExamples()
    ensures EmailShape("a@b.co")
    ensures !EmailShape("a@b.c")
    ensures !EmailShape("@b.co")
  {
    var t := "a@b.co";
    assert t[1] == '@' && t[3] == '.';
  }

  /** `_validate_icd_code` on the stripped, upper-cased code: a letter, two digits, and
      optionally '.' with one to four digits or letters. */
  predicate IcdShape(t: string)
  {
    3 <= |t| && IsUpperAscii(t[0]) && IsDigit(t[1]) && IsDigit(t[2]) &&
    (|t| == 3 || (t[3] == '.' && 5 <= |t| <= 8 && forall k :: 4 <= k < |t| ==> IsDigit(t[k]) || IsUpperAscii(t[k])))
  }

  predicate ValidIcdCode(code: string) { IcdShape(Upper(Strip(code))) }

  /** An accepted code is three to eight characters long once stripped. */
  lemma IcdLength(code: string)
    requires ValidIcdCode(code)
    ensures 3 <= |Strip(code)| <= 8
  {
  }

  lemma IcdExamples()
    ensures IcdShape("I10") && IcdShape("E11.9") && IcdShape("J45.9091")
    ensures !IcdShape("I1") && !IcdShape("I10.") && !IcdShape("I10.12345") && !IcdShape("110")
  {
  }

  /** `_validate_medication_name`: after stripping, one or more letters, digits,
      whitespace, hyphens and dots. */
  predicate ValidMedicationName(med: string)
  {
    var t := Strip(med);
    |t| >= 1 && forall k :: 0 <= k < |t| ==> IsAlnum(t[k]) || IsSpace(t[k]) || t[k] == '-' || t[k] == '.'
  }

  // ---------------------------------------------------------------------------
  // PatientDataValidationTool

  /** Raised by the format checks: a truthy non-string name, gender, MRN, e-mail or phone. */
  predicate PatientToolRaises(data: Dict)
  {
    Validators.NonString(data, "first_name") || Validators.NonString(data, "last_name") ||
    Validators.NonString(data, "gender") || Validators.NonString(data, "mrn") ||
    Validators.NonString(data, "email") || Validators.NonString(data, "phone")
  }

  /** The format errors after the required-field loop; `dobError` is the date-of-birth
      verdict (None when the date is valid). */
  function PatientFormatErrors(data: Dict, dobError: Option<string>): seq<string>
  {
    Flag(TextVerdict(data, "first_name", Validators.ValidName), "Invalid first name format") +
    Flag(TextVerdict(data, "last_name", Validators.ValidName), "Invalid last name format") +
    (if HasTruthy(data, "date_of_birth") && dobError.Some? then [dobError.value] else []) +
    Flag(TextVerdict(data, "gender", Validators.ValidGender), "Invalid gender value") +
    Flag(TextVerdict(data, "mrn", Validators.ValidMrn), "Invalid MRN format")
  }

  /** An age is unusual when it is computed, non-zero and outside 0..150. */
  predicate UnusualAge(data: Dict, age: Option<int>)
  {
    HasTruthy(data, "date_of_birth") && age.Some? && age.value != 0 && (age.value < 0 || age.value > 150)
  }

  function PatientWarnings(data: Dict, age: Option<int>): seq<string>
  {
    Flag(TextVerdict(data, "email", ValidEmail), "Invalid email format") +
    Flag(TextVerdict(data, "phone", Validators.ValidPhone), "Invalid phone number format") +
    (if UnusualAge(data, age) then ["Unusual age: " + IntToString(age.value) + " years"] else [])
  }

  /** The name, date-of-birth, gender and MRN checks, in that order. */
  method PatientFormatChecks(data: Dict, dobError: Option<string>) returns (raised: bool, errors: seq<string>)
    ensures raised <==>
              Validators.NonString(data, "first_name") || Validators.NonString(data, "last_name") ||
              Validators.NonString(data, "gender") || Validators.NonString(data, "mrn")
    ensures !raised ==> errors == PatientFormatErrors(data, dobError)
  {
    raised, errors := true, [];
    var v := TextVerdict(data, "first_name", Validators.ValidName);
    if v == Raises { return; }
    errors := Flag(v, "Invalid first name format");
    v := TextVerdict(data, "last_name", Validators.ValidName);
    if v == Raises { return; }
    errors := errors + Flag(v, "Invalid last name format");
    if HasTruthy(data, "date_of_birth") && dobError.Some? {
      errors := errors + [dobError.value];
    }
    v := TextVerdict(data, "gender", Validators.ValidGender);
    if v == Raises { return; }
    errors := errors + Flag(v, "Invalid gender value");
    v := TextVerdict(data, "mrn", Validators.ValidMrn);
    if v == Raises { return; }
    errors := errors + Flag(v, "Invalid MRN format");
    raised := false;
  }

  /** The e-mail, phone and age checks, which only warn. */
  method PatientContactChecks(data: Dict, age: Option<int>) returns (raised: bool, warnings: seq<string>)
    ensures raised <==> Validators.NonString(data, "email") || Validators.NonString(data, "phone")
    ensures !raised ==> warnings == PatientWarnings(data, age)
  {
    raised, warnings := true, [];
    var v := TextVerdict(data, "email", ValidEmail);
    if v == Raises { return; }
    warnings := Flag(v, "Invalid email format");
    v := TextVerdict(data, "phone", Validators.ValidPhone);
    if v == Raises { return; }
    warnings := warnings + Flag(v, "Invalid phone number format");
    if UnusualAge(data, age) {
      warnings := warnings + ["Unusual age: " + IntToString(age.value) + " years"];
    }
    raised := false;
  }

  method ValidatePatientData(data: Dict, dobError: Option<string>, age: Option<int>) returns (r: Report<string>)
    ensures r.Failed? <==> PatientToolRaises(data)
    ensures r.Report? ==>
              && r.errors == Validators.MissingFields(data, Validators.PatientRequired) + PatientFormatErrors(data, dobError)
              && r.warnings == PatientWarnings(data, age)
              && r.validated == PresentFields(data, Validators.PatientRequired)
              && (r.isValid <==> r.errors == [])
  {
    var missing, validated := AcceptRequired(data, Validators.PatientRequired);
    var raised, formatErrors := PatientFormatChecks(data, dobError);
    if raised { return Failed; }
    var errors := missing + formatErrors;
    var warnings;
    raised, warnings := PatientContactChecks(data, age);
    if raised { return Failed; }
    r := Report(errors == [], errors, warnings, validated);
  }

  /** Only required-field, name, date-of-birth, gender and MRN failures invalidate a
      patient; e-mail, phone and age problems are warnings. */
  lemma PatientToolValidIff(data: Dict, dobError: Option<string>)
    requires !PatientToolRaises(data)
    ensures Validators.MissingFields(data, Validators.PatientRequired) + PatientFormatErrors(data, dobError) == [] <==>
              && TextOk(data, "first_name", Validators.ValidName)
              && TextOk(data, "last_name", Validators.ValidName)
              && HasTruthy(data, "date_of_birth") && dobError.None?
              && TextOk(data, "gender", Validators.ValidGender)
              && TextOk(data, "mrn", Validators.ValidMrn)
  {
    var fields := Validators.PatientRequired;
    PresentOrMissing(data, fields);
    assert fields[0] == "first_name" && fields[1] == "last_name" && fields[2] == "date_of_birth" &&
      fields[3] == "gender" && fields[4] == "mrn";
  }

  // ---------------------------------------------------------------------------
  // VitalSignsValidationTool

  /** The tool's own ranges and units, inclusive, in the source's order. */
  const ToolRanges: seq<(string, real, real, string)> := [
    ("heart_rate", 30.0, 200.0, "bpm"), ("systolic_bp", 60.0, 250.0, "mmHg"),
    ("diastolic_bp", 40.0, 150.0, "mmHg"), ("temperature", 90.0, 110.0, "°F"),
    ("oxygen_saturation", 70.0, 100.0, "%"), ("respiratory_rate", 6.0, 50.0, "breaths/min"),
    ("blood_glucose", 20.0, 600.0, "mg/dL"), ("pain_level", 0.0, 10.0, "scale")]

  function RangeIn(table: seq<(string, real, real, string)>, vital: string): (r: Option<(real, real, string)>)
    ensures r.Some? <==> exists k :: 0 <= k < |table| && table[k].0 == vital
  {
    if table == [] then None
    else if table[0].0 == vital then Some((table[0].1, table[0].2, table[0].3))
    else
      var r := RangeIn(table[1..], vital);
      assert forall k :: 1 <= k < |table| ==> table[k] == table[1..][k - 1];
      r
  }

  function RangeFor(vital: string): Option<(real, real, string)> { RangeIn(ToolRanges, vital) }

  /** A warning carries the converted value; the text Python renders from it
      (`str(float)`) is not modelled. */
  datatype VitalWarning =
    | BelowRange(vital: string, value: real, unit: string, low: real, high: real)
    | AboveRange(vital: string, value: real, unit: string, low: real, high: real)
    | LowPulsePressure

  /** What one (vital, value) item of the input does: unknown vitals and None values are
      ignored, a value float() rejects is an error, any other value is accepted and may
      warn. */
  datatype EntryCheck = Ignored | NonNumeric | Accepted(warnings: seq<VitalWarning>)

  function CheckEntry(vital: string, value: Value): (c: EntryCheck)
    ensures c.Accepted? ==> |c.warnings| <= 1
  {
    match RangeFor(vital)
    case None => Ignored
    case Some((low, high, unit)) =>
      if value == VNone then Ignored
      else match ToFloat(value)
        case None => NonNumeric
        case Some(x) =>
          Accepted(if x < low then [BelowRange(vital, x, unit, low, high)]
                   else if x > high then [AboveRange(vital, x, unit, low, high)]
                   else [])
  }

  function NumericMessage(vital: string): string { "Invalid " + vital + ": must be numeric" }

  datatype Scan = Scan(errors: seq<string>, warnings: seq<VitalWarning>, validated: seq<string>)

  function AddEntry(s: Scan, vital: string, c: EntryCheck): Scan
  {
    match c
    case Ignored => s
    case NonNumeric => s.(errors := s.errors + [NumericMessage(vital)])
    case Accepted(w) => s.(warnings := s.warnings + w, validated := s.validated + [vital])
  }

  /** The loop over the input's items, in dictionary order. */
  function ScanVitals(items: Dict): Scan
  {
    if items == [] then Scan([], [], [])
    else
      var last := items[|items| - 1];
      AddEntry(ScanVitals(items[..|items| - 1]), last.0, CheckEntry(last.0, last.1))
  }

  /** Both pressures present, not None and converted by float(). */
  function PressurePair(data: Dict): Option<(real, real)>
  {
    if Has(data, "systolic_bp") && Has(data, "diastolic_bp") then
      var s := Get(data, "systolic_bp").value;
      var d := Get(data, "diastolic_bp").value;
      if s != VNone && d != VNone && ToFloat(s).Some? && ToFloat(d).Some? then Some((ToFloat(s).value, ToFloat(d).value))
      else None
    else None
  }

  function PressureErrors(data: Dict): seq<string>
  {
    match PressurePair(data)
    case Some((s, d)) => if s <= d then ["Systolic BP must be greater than diastolic BP"] else []
    case None => []
  }

  function PressureWarnings(data: Dict): seq<VitalWarning>
  {
    match PressurePair(data)
    case Some((s, d)) => if s - d < 20.0 then [LowPulsePressure] else []
    case None => []
  }

  method ValidateVitalSignsTool(data: Dict) returns (r: Report<VitalWarning>)
    ensures r.Report?
    ensures r.errors ==
              (if HasTruthy(data, "patient_id") then [] else [Validators.MissingMessage("patient_id")]) +
              ScanVitals(data).errors + PressureErrors(data)
    ensures r.warnings == ScanVitals(data).warnings + PressureWarnings(data)
    ensures r.validated == (if HasTruthy(data, "patient_id") then ["patient_id"] else []) + ScanVitals(data).validated
    ensures r.isValid <==> r.errors == []
  {
    var errors: seq<string> := [];
    var warnings: seq<VitalWarning> := [];
    var validated: seq<string> := [];
    if !HasTruthy(data, "patient_id") {
      errors := errors + [Validators.MissingMessage("patient_id")];
    } else {
      validated := validated + ["patient_id"];
    }
    errors, warnings, validated := ScanItems(data, errors, validated);
    var pe, pw := PressureChecks(data);
    errors, warnings := errors + pe, warnings + pw;
    r := Report(errors == [], errors, warnings, validated);
  }

  /** The cross-check of the two pressures, when both read as numbers. */
  method PressureChecks(data: Dict) returns (errors: seq<string>, warnings: seq<VitalWarning>)
    ensures errors == PressureErrors(data)
    ensures warnings == PressureWarnings(data)
  {
    errors, warnings := [], [];
    var pair := PressurePair(data);
    if pair.Some? {
      var (systolic, diastolic) := pair.value;
      if systolic <= diastolic {
        errors := errors + ["Systolic BP must be greater than diastolic BP"];
      }
      if systolic - diastolic < 20.0 {
        warnings := warnings + [LowPulsePressure];
      }
    }
  }

  /** The loop over the input's items, appending to the lists the patient_id check began. */
  method ScanItems(data: Dict, e0: seq<string>, v0: seq<string>)
      returns (errors: seq<string>, warnings: seq<VitalWarning>, validated: seq<string>)
    ensures errors == e0 + ScanVitals(data).errors
    ensures warnings == ScanVitals(data).warnings
    ensures validated == v0 + ScanVitals(data).validated
  {
    errors, warnings, validated := e0, [], v0;
    for i := 0 to |data|
      invariant errors == e0 + ScanVitals(data[..i]).errors
      invariant warnings == ScanVitals(data[..i]).warnings
      invariant validated == v0 + ScanVitals(data[..i]).validated
    {
      var (vital, value) := data[i];
      ghost var before := ScanVitals(data[..i]);
      assert data[..i + 1][..i] == data[..i];
      var c := CheckEntry(vital, value);
      assert ScanVitals(data[..i + 1]) == AddEntry(before, vital, c);
      if c.NonNumeric? {
        AppendAssoc(e0, before.errors, [NumericMessage(vital)]);
        errors := errors + [NumericMessage(vital)];
      } else if c.Accepted? {
        AppendAssoc(v0, before.validated, [vital]);
        warnings := warnings + c.warnings;
        validated := validated + [vital];
      }
    }
    assert data[..|data|] == data;
  }

  lemma NumericMessageInjective(a: string, b: string)
    requires NumericMessage(a) == NumericMessage(b)
    ensures a == b
  {
    var p := "Invalid ";
    var n := |NumericMessage(a)|;
    assert a == NumericMessage(a)[|p|..n - |": must be numeric"|];
    assert b == NumericMessage(b)[|p|..n - |": must be numeric"|];
  }

  /** The loop reports a vital as non-numeric exactly when some item of that vital is
      a known vital whose value is not None and float() rejects. */
  lemma {:induction false} ScanErrorsMembers(items: Dict, vital: string)
    ensures NumericMessage(vital) in ScanVitals(items).errors <==>
      exists k :: 0 <= k < |items| && items[k].0 == vital && CheckEntry(items[k].0, items[k].1).NonNumeric?
  {
    if items != [] {
      var n := |items|;
      var init := items[..n - 1];
      ScanErrorsMembers(init, vital);
      if CheckEntry(items[n - 1].0, items[n - 1].1).NonNumeric? && NumericMessage(vital) == NumericMessage(items[n - 1].0) {
        NumericMessageInjective(vital, items[n - 1].0);
      }
      if exists k :: 0 <= k < n && items[k].0 == vital && CheckEntry(items[k].0, items[k].1).NonNumeric? {
        var k :| 0 <= k < n && items[k].0 == vital && CheckEntry(items[k].0, items[k].1).NonNumeric?;
        if k < n - 1 {
          assert init[k] == items[k];
        }
      }
      if exists k :: 0 <= k < n - 1 && init[k].0 == vital && CheckEntry(init[k].0, init[k].1).NonNumeric? {
        var k :| 0 <= k < n - 1 && init[k].0 == vital && CheckEntry(init[k].0, init[k].1).NonNumeric?;
        assert items[k] == init[k];
      }
    }
  }

  /** The loop reports no error exactly when no item is non-numeric. */
  lemma {:induction false} ScanErrorsEmpty(items: Dict)
    ensures ScanVitals(items).errors == [] <==>
      forall k :: 0 <= k < |items| ==> !CheckEntry(items[k].0, items[k].1).NonNumeric?
  {
    if items != [] {
      var n := |items|;
      var init := items[..n - 1];
      ScanErrorsEmpty(init);
      AddEntryErrors(ScanVitals(init), items[n - 1].0, CheckEntry(items[n - 1].0, items[n - 1].1));
      if ScanVitals(items).errors == [] {
        forall k | 0 <= k < n ensures !CheckEntry(items[k].0, items[k].1).NonNumeric? {
          if k < n - 1 {
            assert init[k] == items[k];
          }
        }
      } else if ScanVitals(init).errors != [] {
        var k :| 0 <= k < n - 1 && CheckEntry(init[k].0, init[k].1).NonNumeric?;
        assert items[k] == init[k];
      }
    }
  }

  lemma AddEntryErrors(s: Scan, vital: string, c: EntryCheck)
    ensures AddEntry(s, vital, c).errors == [] <==> s.errors == [] && !c.NonNumeric?
  {
  }

  /** A vital is accepted exactly when some item of it is a known vital whose value
      float() converts. */
  lemma {:induction false} ScanValidatedMembers(items: Dict, vital: string)
    ensures vital in ScanVitals(items).validated <==>
      exists k :: 0 <= k < |items| && items[k].0 == vital && CheckEntry(items[k].0, items[k].1).Accepted?
  {
    if items != [] {
      var n := |items|;
      var init := items[..n - 1];
      ScanValidatedMembers(init, vital);
      if exists k :: 0 <= k < n && items[k].0 == vital && CheckEntry(items[k].0, items[k].1).Accepted? {
        var k :| 0 <= k < n && items[k].0 == vital && CheckEntry(items[k].0, items[k].1).Accepted?;
        if k < n - 1 {
          assert init[k] == items[k];
        }
      }
      if exists k :: 0 <= k < n - 1 && init[k].0 == vital && CheckEntry(init[k].0, init[k].1).Accepted? {
        var k :| 0 <= k < n - 1 && init[k].0 == vital && CheckEntry(init[k].0, init[k].1).Accepted?;
        assert items[k] == init[k];
      }
    }
  }

  /** Validity depends only on the patient id, numeric conversion and the pressure
      order: a value out of its range only warns. */
  lemma VitalsToolValidIff(data: Dict)
    ensures (if HasTruthy(data, "patient_id") then [] else [Validators.MissingMessage("patient_id")]) +
              ScanVitals(data).errors + PressureErrors(data) == [] <==>
            && HasTruthy(data, "patient_id")
            && (forall k :: 0 <= k < |data| ==> !CheckEntry(data[k].0, data[k].1).NonNumeric?)
            && !(PressurePair(data).Some? && PressurePair(data).value.0 <= PressurePair(data).value.1)
  {
    ScanErrorsEmpty(data);
    EmptyConcat((if HasTruthy(data, "patient_id") then [] else [Validators.MissingMessage("patient_id")]),
      ScanVitals(data).errors, PressureErrors(data));
  }

  /** In a dictionary (keys distinct), a non-numeric known vital is reported and is not
      among the validated fields. */
  lemma NonNumericVitalRejected(data: Dict, k: nat)
    requires UniqueKeys(data)
    requires k < |data| && CheckEntry(data[k].0, data[k].1).NonNumeric?
    ensures NumericMessage(data[k].0) in ScanVitals(data).errors
    ensures data[k].0 !in ScanVitals(data).validated
  {
    var key := data[k].0;
    ScanErrorsMembers(data, key);
    ScanValidatedMembers(data, key);
    assert 0 <= k < |data| && data[k].0 == key && CheckEntry(data[k].0, data[k].1).NonNumeric?;
    assert forall j :: 0 <= j < |data| && data[j].0 == key ==> j == k;
  }

  /** A Python dictionary holds each key once. */
  predicate UniqueKeys(data: Dict)
  {
    forall i, j :: 0 <= i < j < |data| ==> data[i].0 != data[j].0
  }

  /** Equal pressures are both an error and a low pulse pressure warning. */
  lemma PressureExamples()
    ensures PressureErrors([("systolic_bp", VInt(100)), ("diastolic_bp", VInt(100))]) ==
      ["Systolic BP must be greater than diastolic BP"]
    ensures PressureWarnings([("systolic_bp", VInt(100)), ("diastolic_bp", VInt(100))]) == [LowPulsePressure]
  {
    var d := [("systolic_bp", VInt(100)), ("diastolic_bp", VInt(100))];
    assert Get(d, "systolic_bp") == Some(VInt(100));
    assert d[1..] == [("diastolic_bp", VInt(100))];
    assert Get(d, "diastolic_bp") == Some(VInt(100));
  }

  /** A heart rate of 250 is accepted with an above-range warning. */
  lemma HeartRateExample()
    ensures CheckEntry("heart_rate", VInt(250)) == Accepted([AboveRange("heart_rate", 250.0, "bpm", 30.0, 200.0)])
  {
    var t := ToolRanges;
    assert t[0] == ("heart_rate", 30.0, 200.0, "bpm");
    assert RangeFor("heart_rate") == Some((30.0, 200.0, "bpm"));
  }

  /** A vital outside the range table is ignored. */
  lemma UnknownVitalExample()
    ensures CheckEntry("pulse", VStr("fast")) == Ignored
  {
    var t := ToolRanges;
    assert |t| == 8;
    assert t[0].0[0] == 'h' && t[1].0[0] == 's' && t[2].0[0] == 'd' && t[3].0[0] == 't';
    assert t[4].0[0] == 'o' && t[5].0[0] == 'r' && t[6].0[0] == 'b' && t[7].0[1] == 'a';
    assert RangeFor("pulse") == None;
  }

  // ---------------------------------------------------------------------------
  // MedicalRecordValidationTool

  /** No required field is missing exactly when all are present and truthy. */
  lemma NoMissingIff(data: Dict, fields: seq<string>)
    ensures Validators.MissingFields(data, fields) == [] <==> forall f :: f in fields ==> HasTruthy(data, f)
  {
    PresentOrMissing(data, fields);
  }

  /** A flagged check whose message names the offending string. */
  function FlagValue(data: Dict, f: string, ok: string -> bool, prefix: string): seq<string>
  {
    if TextVerdict(data, f, ok) == Flagged then [prefix + Get(data, f).value.s] else []
  }

  /** A present string too short once stripped, or too long as given; both can warn. */
  function LengthWarnings(data: Dict, f: string, minLen: nat, maxLen: nat, short: string, long: string): seq<string>
  {
    if HasTruthy(data, f) && Get(data, f).value.VStr? then
      var v := Get(data, f).value.s;
      (if |Strip(v)| < minLen then [short] else []) + (if |v| > maxLen then [long] else [])
    else []
  }

  /** Python's str() of a falsy value, as an f-string renders it. */
  function FalsyRepr(v: Value): string
    requires !Truthy(v)
  {
    match v
    case VNone => "None"
    case VBool(_) => "False"
    case VInt(_) => "0"
    case VReal(_) => "0.0"
    case VStr(_) => ""
    case VList(_) => "[]"
    case VDict(_) => "{}"
  }

  /** One list item: a falsy item fails the check, a string is checked, anything else
      raises (None). */
  function ItemWarning(item: Value, ok: string -> bool, prefix: string): (r: Option<seq<string>>)
    ensures r.None? <==> Truthy(item) && !item.VStr?
  {
    if !Truthy(item) then Some([prefix + FalsyRepr(item)])
    else match item
      case VStr(s) => Some(if ok(s) then [] else [prefix + s])
      case _ => None
  }

  function ItemWarnings(items: seq<Value>, ok: string -> bool, prefix: string): (r: Option<seq<string>>)
    ensures r.None? <==> exists k :: 0 <= k < |items| && Truthy(items[k]) && !items[k].VStr?
  {
    if items == [] then Some([])
    else
      var init := items[..|items| - 1];
      var last := items[|items| - 1];
      assert forall k :: 0 <= k < |init| ==> init[k] == items[k];
      match ItemWarnings(init, ok, prefix)
      case None => None
      case Some(w) =>
        match ItemWarning(last, ok, prefix)
        case None => None
        case Some(x) => Some(w + x)
  }

  lemma ItemWarningsSnoc(items: seq<Value>, x: Value, ok: string -> bool, prefix: string)
    requires ItemWarnings(items, ok, prefix).Some? && ItemWarning(x, ok, prefix).Some?
    ensures ItemWarnings(items + [x], ok, prefix) ==
      Some(ItemWarnings(items, ok, prefix).value + ItemWarning(x, ok, prefix).value)
  {
    assert (items + [x])[..|items|] == items;
  }

  /** A list field: absent or falsy passes, a non-list warns once, a list is checked
      item by item. */
  function ListCheck(data: Dict, f: string, ok: string -> bool, prefix: string, notList: string): Option<seq<string>>
  {
    if !HasTruthy(data, f) then Some([])
    else match Get(data, f).value
      case VList(items) => ItemWarnings(items, ok, prefix)
      case _ => Some([notList])
  }

  function Warned(o: Option<seq<string>>): seq<string> { if o.Some? then o.value else [] }

  function CodeCheck(data: Dict): Option<seq<string>>
  {
    ListCheck(data, "diagnosis_codes", ValidIcdCode, "Invalid ICD code format: ", "Diagnosis codes should be a list")
  }

  function MedicationCheck(data: Dict): Option<seq<string>>
  {
    ListCheck(data, "medications", ValidMedicationName, "Unusual medication name: ", "Medications should be a list")
  }

  predicate KnownRecordType(t: string) { Lower(t) in Validators.RecordTypes }

  predicate KnownDepartment(d: string) { Lower(d) in Validators.Departments }

  predicate RecordToolRaises(data: Dict)
  {
    Validators.NonString(data, "record_type") || Validators.NonString(data, "content") ||
    Validators.NonString(data, "title") || Validators.NonString(data, "doctor_id") ||
    Validators.NonString(data, "department") || CodeCheck(data).None? || MedicationCheck(data).None?
  }

  /** The warnings in source order: record type, content, title, doctor id, department,
      diagnosis codes, medications. */
  function RecordWarnings(data: Dict): seq<string>
  {
    FlagValue(data, "record_type", KnownRecordType, "Unusual record type: ") +
    LengthWarnings(data, "content", 10, 10000, "Medical record content seems too short", "Medical record content seems very long") +
    LengthWarnings(data, "title", 3, 200, "Medical record title seems too short", "Medical record title seems too long") +
    Flag(TextVerdict(data, "doctor_id", Validators.ValidDoctorId), "Invalid doctor ID format") +
    FlagValue(data, "department", KnownDepartment, "Unusual department: ") +
    Warned(CodeCheck(data)) + Warned(MedicationCheck(data))
  }

  /** The loop over a list field's items; the first item that raises ends it. */
  method CheckItems(items: seq<Value>, ok: string -> bool, prefix: string) returns (raised: bool, warnings: seq<string>)
    ensures raised <==> ItemWarnings(items, ok, prefix).None?
    ensures !raised ==> warnings == ItemWarnings(items, ok, prefix).value
  {
    warnings := [];
    for i := 0 to |items|
      invariant ItemWarnings(items[..i], ok, prefix) == Some(warnings)
    {
      assert items[..i + 1][..i] == items[..i];
      var w := ItemWarning(items[i], ok, prefix);
      if w.None? {
        assert ItemWarnings(items[..i + 1], ok, prefix).None?;
        assert items[..i + 1] <= items;
        return true, warnings;
      }
      warnings := warnings + w.value;
    }
    assert items[..|items|] == items;
    raised := false;
  }

  method CheckList(data: Dict, f: string, ok: string -> bool, prefix: string, notList: string)
    returns (raised: bool, warnings: seq<string>)
    ensures raised <==> ListCheck(data, f, ok, prefix, notList).None?
    ensures !raised ==> warnings == ListCheck(data, f, ok, prefix, notList).value
  {
    if !HasTruthy(data, f) {
      return false, [];
    }
    match Get(data, f).value {
      case VList(items) =>
        raised, warnings := CheckItems(items, ok, prefix);
      case _ =>
        raised, warnings := false, [notList];
    }
  }

  /** The text checks of a medical record, up to the list fields. */
  method RecordTextChecks(data: Dict) returns (raised: bool, warnings: seq<string>)
    ensures raised <==>
              Validators.NonString(data, "record_type") || Validators.NonString(data, "content") ||
              Validators.NonString(data, "title") || Validators.NonString(data, "doctor_id") ||
              Validators.NonString(data, "department")
    ensures !raised ==>
              warnings ==
              FlagValue(data, "record_type", KnownRecordType, "Unusual record type: ") +
              LengthWarnings(data, "content", 10, 10000, "Medical record content seems too short", "Medical record content seems very long") +
              LengthWarnings(data, "title", 3, 200, "Medical record title seems too short", "Medical record title seems too long") +
              Flag(TextVerdict(data, "doctor_id", Validators.ValidDoctorId), "Invalid doctor ID format") +
              FlagValue(data, "department", KnownDepartment, "Unusual department: ")
  {
    raised, warnings := true, [];
    if Validators.NonString(data, "record_type") { return; }
    warnings := FlagValue(data, "record_type", KnownRecordType, "Unusual record type: ");
    if Validators.NonString(data, "content") { return; }
    warnings := warnings +
      LengthWarnings(data, "content", 10, 10000, "Medical record content seems too short", "Medical record content seems very long");
    if Validators.NonString(data, "title") { return; }
    warnings := warnings +
      LengthWarnings(data, "title", 3, 200, "Medical record title seems too short", "Medical record title seems too long");
    var v := TextVerdict(data, "doctor_id", Validators.ValidDoctorId);
    if v == Raises { return; }
    warnings := warnings + Flag(v, "Invalid doctor ID format");
    if Validators.NonString(data, "department") { return; }
    warnings := warnings + FlagValue(data, "department", KnownDepartment, "Unusual department: ");
    raised := false;
  }

  method ValidateMedicalRecordTool(data: Dict) returns (r: Report<string>)
    ensures r.Failed? <==> RecordToolRaises(data)
    ensures r.Report? ==>
              && r.errors == Validators.MissingFields(data, Validators.MedicalRecordRequired)
              && r.warnings == RecordWarnings(data)
              && r.validated == PresentFields(data, Validators.MedicalRecordRequired)
              && (r.isValid <==> r.errors == [])
  {
    var errors, validated := AcceptRequired(data, Validators.MedicalRecordRequired);
    var raised, warnings := RecordTextChecks(data);
    if raised { return Failed; }
    var codeWarnings, medWarnings;
    raised, codeWarnings := CheckList(data, "diagnosis_codes", ValidIcdCode, "Invalid ICD code format: ", "Diagnosis codes should be a list");
    if raised { return Failed; }
    raised, medWarnings := CheckList(data, "medications", ValidMedicationName, "Unusual medication name: ", "Medications should be a list");
    if raised { return Failed; }
    r := Report(errors == [], errors, warnings + codeWarnings + medWarnings, validated);
  }

  /** A medical record is invalid only for a missing required field; every other
      problem is a warning. */
  lemma RecordToolValidIff(data: Dict)
    ensures Validators.MissingFields(data, Validators.MedicalRecordRequired) == [] <==>
      HasTruthy(data, "patient_id") && HasTruthy(data, "record_type") && HasTruthy(data, "title") && HasTruthy(data, "content")
  {
    var fields := Validators.MedicalRecordRequired;
    NoMissingIff(data, fields);
    assert fields[0] == "patient_id" && fields[1] == "record_type" && fields[2] == "title" && fields[3] == "content";
  }

  /** Diagnosis codes that are not a list warn once; in a list, a falsy code is reported
      by its Python rendering, and a truthy non-string code raises. */
  lemma DiagnosisCodeExamples()
    ensures ListCheck([("diagnosis_codes", VStr("I10"))], "diagnosis_codes", ValidIcdCode, "Invalid ICD code format: ",
      "Diagnosis codes should be a list") == Some(["Diagnosis codes should be a list"])
    ensures ItemWarnings([VNone, VStr("")], ValidIcdCode, "Invalid ICD code format: ") ==
      Some(["Invalid ICD code format: None", "Invalid ICD code format: "])
    ensures ItemWarnings([VStr("I10"), VInt(7)], ValidIcdCode, "Invalid ICD code format: ").None?
  {
    var p := "Invalid ICD code format: ";
    var xs := [VNone, VStr("")];
    assert xs[..1] == [VNone] && xs[1] == VStr("");
    assert [VNone][..0] == [];
    assert ItemWarnings([], ValidIcdCode, p) == Some([]);
    assert ItemWarning(VNone, ValidIcdCode, p) == Some([p + "None"]);
    assert ItemWarnings([VNone], ValidIcdCode, p) == Some([] + [p + "None"]);
    assert ItemWarning(VStr(""), ValidIcdCode, p) == Some([p + ""]);
    ItemWarningsSnoc([VNone], VStr(""), ValidIcdCode, p);
    assert xs == [VNone] + [VStr("")];
    assert p + "None" == "Invalid ICD code format: None";
    assert [] + [p + "None"] == [p + "None"];
    var both := [p + "None"] + [p + ""];
    assert both[0] == "Invalid ICD code format: None" && both[1] == p && |both| == 2;
    assert both == ["Invalid ICD code format: None", "Invalid ICD code format: "];
    assert p + "" == p;
    assert [VStr("I10"), VInt(7)][1] == VInt(7);
  }

  // ---------------------------------------------------------------------------
  // DataQualityCheckTool

  /** A quality result; `QualityFailed` is the record the except branch returns
      (overall score 0, an error text, no issues and no recommendations). */
  datatype Quality =
    | Quality(overallScore: int, issues: seq<string>, recommendations: seq<string>,
              completeness: real, accuracy: int, consistency: int)
    | QualityFailed

  function Max0(x: int): (r: int)
    ensures r >= 0 && r >= x && (r == x || r == 0)
  {
    if x < 0 then 0 else x
  }

  predicate BadEmail(data: Dict) { TextVerdict(data, "email", ValidEmail) == Flagged }

  predicate BadPhone(data: Dict) { TextVerdict(data, "phone", Validators.ValidPhone) == Flagged }

  function Indicator(b: bool): nat { if b then 1 else 0 }

  /** What `_check_patient_data_quality` answers for `data`: it raises exactly when the
      e-mail or the phone is truthy but not a string; otherwise the score is 100, 20 off
      when a required field is missing, 10 per contact-detail problem and 10 for an
      unreasonable age. */
  predicate PatientQualityOf(data: Dict, age: Option<int>, q: Quality)
  {
    && (q.QualityFailed? <==> Validators.NonString(data, "email") || Validators.NonString(data, "phone"))
    && (q.Quality? ==>
          && q.completeness == 20.0 * |PresentFields(data, Validators.PatientRequired)| as real
          && (q.completeness < 100.0 <==> exists f :: f in Validators.PatientRequired && !HasTruthy(data, f))
          && q.accuracy == 100 - 20 * (Indicator(BadEmail(data)) + Indicator(BadPhone(data)))
          && q.overallScore ==
               100 - 20 * Indicator(q.completeness < 100.0)
               - 10 * (Indicator(BadEmail(data)) + Indicator(BadPhone(data)))
               - 10 * Indicator(UnusualAge(data, age))
          && 50 <= q.overallScore <= 100
          && (q.overallScore == 100 <==> q.issues == []))
  }

  method CheckPatientQuality(data: Dict, age: Option<int>) returns (q: Quality)
    ensures PatientQualityOf(data, age, q)
  {
    var present := |PresentFields(data, Validators.PatientRequired)|;
    PresentOrMissing(data, Validators.PatientRequired);
    var score := 100;
    var issues: seq<string> := [];
    var recommendations: seq<string> := [];
    var completeness := present as real / 5.0 * 100.0;
    if completeness < 100.0 {
      issues := issues + ["Missing required fields: " + NatToString(100 - 20 * present) + "%"];
      score := score - 20;
    }
    var raised, accuracyIssues, contactIssues := ContactAccuracy(data);
    if raised { return QualityFailed; }
    issues := issues + contactIssues;
    var accuracy := Max0(100 - accuracyIssues * 20);
    score := score - accuracyIssues * 10;
    var consistencyIssues := 0;
    if UnusualAge(data, age) {
      consistencyIssues := consistencyIssues + 1;
      issues := issues + ["Unreasonable age"];
    }
    var consistency := Max0(100 - consistencyIssues * 20);
    score := score - consistencyIssues * 10;
    if completeness < 100.0 {
      recommendations := recommendations + ["Complete missing required fields"];
    }
    if accuracyIssues > 0 {
      recommendations := recommendations + ["Verify contact information accuracy"];
    }
    if consistencyIssues > 0 {
      recommendations := recommendations + ["Review data consistency"];
    }
    q := Quality(Max0(score), issues, recommendations, completeness, accuracy, consistency);
  }

  /** The e-mail check, then the phone check: either raises when its value is truthy but
      not a string; otherwise each flagged format counts once and adds its issue. */
  method ContactAccuracy(data: Dict) returns (raised: bool, flagged: nat, issues: seq<string>)
    ensures raised <==> Validators.NonString(data, "email") || Validators.NonString(data, "phone")
    ensures !raised ==> flagged == Indicator(BadEmail(data)) + Indicator(BadPhone(data))
    ensures !raised ==> issues == Flag(TextVerdict(data, "email", ValidEmail), "Invalid email format") +
                                  Flag(TextVerdict(data, "phone", Validators.ValidPhone), "Invalid phone format")
    ensures !raised ==> (issues == [] <==> flagged == 0)
  {
    raised, flagged, issues := false, 0, [];
    var v := TextVerdict(data, "email", ValidEmail);
    if v == Raises { return true, 0, []; }
    if v == Flagged {
      flagged := flagged + 1;
      issues := issues + ["Invalid email format"];
    }
    v := TextVerdict(data, "phone", Validators.ValidPhone);
    if v == Raises { return true, 0, []; }
    if v == Flagged {
      flagged := flagged + 1;
      issues := issues + ["Invalid phone format"];
    }
  }

  const QualityVitals: seq<string> := ["heart_rate", "systolic_bp", "diastolic_bp", "temperature", "oxygen_saturation"]

  /** How many of the fields are present and not None. */
  function NonNullCount(data: Dict, fields: seq<string>): (n: nat)
    ensures n <= |fields|
  {
    if fields == [] then 0 else Indicator(HasNonNull(data, fields[0])) + NonNullCount(data, fields[1..])
  }

  /** The keys, over all items and not only vitals, whose value is not None and that
      float() rejects. */
  function NonNumericKeys(items: Dict): seq<string>
  {
    if items == [] then []
    else
      var last := items[|items| - 1];
      NonNumericKeys(items[..|items| - 1]) + (if last.1 != VNone && ToFloat(last.1).None? then [last.0] else [])
  }

  function NonNumericIssue(k: string): string { "Non-numeric " + k + " value" }

  function NonNumericIssues(keys: seq<string>): (r: seq<string>)
    ensures |r| == |keys|
  {
    seq(|keys|, i requires 0 <= i < |keys| => NonNumericIssue(keys[i]))
  }

  /** Systolic not above diastolic, when both keys are present and both convert. */
  predicate QualityPressureInverted(data: Dict)
  {
    Has(data, "systolic_bp") && Has(data, "diastolic_bp") &&
    ToFloat(Get(data, "systolic_bp").value).Some? && ToFloat(Get(data, "diastolic_bp").value).Some? &&
    ToFloat(Get(data, "systolic_bp").value).value <= ToFloat(Get(data, "diastolic_bp").value).value
  }

  function CompletenessIssue(present: nat): seq<string>
  {
    if present <= 2 then ["Very few vital signs recorded"] else if present == 3 then ["Some vital signs missing"] else []
  }

  function CompletenessPenalty(present: nat): nat
  {
    if present <= 2 then 30 else if present == 3 then 15 else 0
  }

  /** What `_check_vital_signs_quality` answers for `data`: 30 off below half the five
      vitals, 15 off below four fifths, 15 per non-numeric value anywhere in the input
      and 20 for an inverted pressure, floored at 0; it never raises. */
  predicate VitalQualityOf(data: Dict, q: Quality)
  {
    && q.Quality?
    && q.completeness == 20.0 * NonNullCount(data, QualityVitals) as real
    && q.accuracy == Max0(100 - 25 * |NonNumericKeys(data)|)
    && q.overallScore ==
         Max0(100 - CompletenessPenalty(NonNullCount(data, QualityVitals)) - 15 * |NonNumericKeys(data)|
              - 20 * Indicator(QualityPressureInverted(data)))
    && 0 <= q.overallScore <= 100 && (q.overallScore == 100 <==> q.issues == [])
    && q.issues ==
         CompletenessIssue(NonNullCount(data, QualityVitals)) + NonNumericIssues(NonNumericKeys(data)) +
         (if QualityPressureInverted(data) then ["Systolic BP should be greater than diastolic BP"] else [])
  }

  method CheckVitalSignsQuality(data: Dict) returns (q: Quality)
    ensures VitalQualityOf(data, q)
  {
    var present := NonNullCount(data, QualityVitals);
    var completeness, issues, penalty := VitalCompleteness(present);
    var score := 100 - penalty;
    var recommendations: seq<string> := [];
    var keys, keyIssues := CollectNonNumeric(data);
    var accuracyIssues := |keys|;
    var accuracy := Max0(100 - accuracyIssues * 25);
    score := score - accuracyIssues * 15;
    var consistencyIssues := 0;
    var pressureIssue: seq<string> := [];
    if QualityPressureInverted(data) {
      consistencyIssues := 1;
      pressureIssue := ["Systolic BP should be greater than diastolic BP"];
    }
    EmptyConcat(issues, keyIssues, pressureIssue);
    issues := issues + keyIssues + pressureIssue;
    var consistency := Max0(100 - consistencyIssues * 50);
    score := score - consistencyIssues * 20;
    if completeness < 80.0 {
      recommendations := recommendations + ["Record more complete vital signs"];
    }
    if accuracyIssues > 0 {
      recommendations := recommendations + ["Verify vital signs data accuracy"];
    }
    if consistencyIssues > 0 {
      recommendations := recommendations + ["Review blood pressure consistency"];
    }
    q := Quality(Max0(score), issues, recommendations, completeness, accuracy, consistency);
  }

  /** The completeness share of the five vitals present and the issue and deduction it
      brings: below half, or else below four fifths. */
  method VitalCompleteness(present: nat) returns (completeness: real, issues: seq<string>, penalty: nat)
    requires present <= 5
    ensures completeness == 20.0 * present as real
    ensures issues == CompletenessIssue(present) && penalty == CompletenessPenalty(present)
    ensures completeness < 80.0 <==> present <= 3
  {
    completeness := present as real / 5.0 * 100.0;
    issues, penalty := [], 0;
    if completeness < 50.0 {
      issues, penalty := ["Very few vital signs recorded"], 30;
    } else if completeness < 80.0 {
      issues, penalty := ["Some vital signs missing"], 15;
    }
  }

  /** The loop over all items, counting the values float() rejects. */
  method CollectNonNumeric(data: Dict) returns (keys: seq<string>, issues: seq<string>)
    ensures keys == NonNumericKeys(data)
    ensures issues == NonNumericIssues(keys)
  {
    keys, issues := [], [];
    for i := 0 to |data|
      invariant keys == NonNumericKeys(data[..i])
      invariant issues == NonNumericIssues(keys)
    {
      assert data[..i + 1][..i] == data[..i];
      var (vital, value) := data[i];
      if value != VNone && ToFloat(value).None? {
        keys := keys + [vital];
        issues := issues + [NonNumericIssue(vital)];
      }
    }
    assert data[..|data|] == data;
  }

  /** A key is reported non-numeric exactly when some item with it holds a value other
      than None that float() rejects. */
  lemma {:induction false} NonNumericKeysMembers(items: Dict, k: string)
    ensures k in NonNumericKeys(items) <==>
      exists i :: 0 <= i < |items| && items[i].0 == k && items[i].1 != VNone && ToFloat(items[i].1).None?
  {
    if items != [] {
      var n := |items|;
      var init := items[..n - 1];
      NonNumericKeysMembers(init, k);
      if exists i :: 0 <= i < n && items[i].0 == k && items[i].1 != VNone && ToFloat(items[i].1).None? {
        var i :| 0 <= i < n && items[i].0 == k && items[i].1 != VNone && ToFloat(items[i].1).None?;
        if i < n - 1 {
          assert init[i] == items[i];
        }
      }
      if exists i :: 0 <= i < n - 1 && init[i].0 == k && init[i].1 != VNone && ToFloat(init[i].1).None? {
        var i :| 0 <= i < n - 1 && init[i].0 == k && init[i].1 != VNone && ToFloat(init[i].1).None?;
        assert items[i] == init[i];
      }
    }
  }

  const MissingRecordFieldsIssue := "Missing required medical record fields"
  const BriefContentIssue := "Medical record content too brief"
  const LongContentIssue := "Medical record content very long"

  /** The content issue of a truthy string content: too brief once stripped, or else
      very long; an absent or falsy content has none. */
  function RecordContentIssues(data: Dict): (r: seq<string>)
    ensures |r| <= 1
    ensures r == [BriefContentIssue] <==>
              HasTruthy(data, "content") && Get(data, "content").value.VStr? &&
              |Strip(Get(data, "content").value.s)| < 20
    ensures r == [LongContentIssue] <==>
              HasTruthy(data, "content") && Get(data, "content").value.VStr? &&
              |Strip(Get(data, "content").value.s)| >= 20 && |Get(data, "content").value.s| > 5000
  {
    if HasTruthy(data, "content") && Get(data, "content").value.VStr? then
      var content := Get(data, "content").value.s;
      if |Strip(content)| < 20 then [BriefContentIssue]
      else if |content| > 5000 then [LongContentIssue]
      else []
    else []
  }

  /** The deduction each medical-record issue carries. */
  function RecordIssueWeight(issue: string): nat
  {
    if issue == MissingRecordFieldsIssue then 30
    else if issue == BriefContentIssue then 20
    else if issue == LongContentIssue then 10
    else 0
  }

  function RecordIssueWeights(issues: seq<string>): nat
  {
    if issues == [] then 0 else RecordIssueWeight(issues[0]) + RecordIssueWeights(issues[1..])
  }

  /** What `_check_medical_record_quality` answers for `data`: it raises exactly when a
      present content is not a string (`.strip()` fails); otherwise the score is 100,
      30 off when a required field is missing, then 20 off for content under 20
      characters once stripped, or else 10 off for content over 5000 — which is 100
      minus the weights of the issues it reports. */
  predicate RecordQualityOf(data: Dict, q: Quality)
  {
    var incomplete := |PresentFields(data, Validators.MedicalRecordRequired)| < 4;
    && (q.QualityFailed? <==> Has(data, "content") && !Get(data, "content").value.VStr?)
    && (q.Quality? ==>
          && q.completeness == 25.0 * |PresentFields(data, Validators.MedicalRecordRequired)| as real
          && q.accuracy == 100 && q.consistency == 100
          && q.issues == (if incomplete then [MissingRecordFieldsIssue] else []) + RecordContentIssues(data)
          && q.overallScore ==
               100 - 30 * Indicator(incomplete) - RecordIssueWeights(RecordContentIssues(data))
          && q.overallScore == 100 - RecordIssueWeights(q.issues)
          && 50 <= q.overallScore <= 100
          && (q.overallScore == 100 <==> q.issues == [])
          && q.recommendations ==
               (if incomplete then ["Complete all required medical record fields"] else []) +
               (if Has(data, "content") && |Strip(Get(data, "content").value.s)| < 20
                then ["Provide more detailed medical record content"] else []))
  }

  method CheckMedicalRecordQuality(data: Dict) returns (q: Quality)
    ensures RecordQualityOf(data, q)
  {
    var present := |PresentFields(data, Validators.MedicalRecordRequired)|;
    var score := 100;
    var issues: seq<string> := [];
    var recommendations: seq<string> := [];
    var completeness := present as real / 4.0 * 100.0;
    assert completeness == 25.0 * present as real;
    ghost var missing := if present < 4 then [MissingRecordFieldsIssue] else [];
    if completeness < 100.0 {
      issues := issues + [MissingRecordFieldsIssue];
      score := score - 30;
    }
    assert issues == missing && score == 100 - 30 * Indicator(present < 4);
    var raised, contentIssues, penalty := RecordContentCheck(data);
    if raised { return QualityFailed; }
    issues := issues + contentIssues;
    score := score - penalty;
    RecordWeightsSplit(missing, data);
    assert issues == missing + RecordContentIssues(data);
    assert score == 100 - RecordIssueWeights(issues);
    var raisedAgain;
    raisedAgain, recommendations := RecordRecommendations(data, completeness < 100.0);
    if raisedAgain { return QualityFailed; }
    q := Quality(Max0(score), issues, recommendations, completeness, 100, 100);
  }

  /** The recommendations: complete the fields when some are missing, and give more
      detail when a present content is brief once stripped; `.strip()` raises on a
      present content that is not a string, even a falsy one. */
  method RecordRecommendations(data: Dict, incomplete: bool) returns (raised: bool, recommendations: seq<string>)
    ensures raised <==> Has(data, "content") && !Get(data, "content").value.VStr?
    ensures !raised ==>
              recommendations ==
                (if incomplete then ["Complete all required medical record fields"] else []) +
                (if Has(data, "content") && |Strip(Get(data, "content").value.s)| < 20
                 then ["Provide more detailed medical record content"] else [])
  {
    raised, recommendations := false, [];
    if incomplete {
      recommendations := recommendations + ["Complete all required medical record fields"];
    }
    if Has(data, "content") {
      match Get(data, "content").value {
        case VStr(content) =>
          if |Strip(content)| < 20 {
            recommendations := recommendations + ["Provide more detailed medical record content"];
          }
        case _ =>
          raised := true;
      }
    }
  }

  /** The content check on a truthy content: `.strip()` raises on a value that is not a
      string; otherwise too brief once stripped, or else very long, with its deduction. */
  method RecordContentCheck(data: Dict) returns (raised: bool, issues: seq<string>, penalty: nat)
    ensures raised <==> HasTruthy(data, "content") && !Get(data, "content").value.VStr?
    ensures !raised ==> issues == RecordContentIssues(data) && penalty == RecordIssueWeights(issues)
  {
    raised, issues, penalty := false, [], 0;
    if HasTruthy(data, "content") {
      match Get(data, "content").value {
        case VStr(content) =>
          if |Strip(content)| < 20 {
            issues, penalty := [BriefContentIssue], 20;
          } else if |content| > 5000 {
            issues, penalty := [LongContentIssue], 10;
          }
        case _ =>
          raised := true;
      }
    }
  }

  /** The weights of the record issues add up: the missing-fields issue brings 30 and
      the content issue at most 20. */
  lemma RecordWeightsSplit(missing: seq<string>, data: Dict)
    requires missing == [] || missing == [MissingRecordFieldsIssue]
    ensures RecordIssueWeights(missing + RecordContentIssues(data)) ==
              30 * |missing| + RecordIssueWeights(RecordContentIssues(data))
    ensures RecordIssueWeights(RecordContentIssues(data)) <= 20
    ensures RecordIssueWeights(RecordContentIssues(data)) == 0 <==> RecordContentIssues(data) == []
  {
    var c := RecordContentIssues(data);
    if missing != [] {
      assert (missing + c)[1..] == c;
    }
  }

  /** A record with brief string content loses the 20 for brevity, and the 30 as well
      exactly when a required field is missing. */
  lemma BriefRecordScore(data: Dict, q: Quality)
    requires RecordQualityOf(data, q)
    requires HasTruthy(data, "content") && Get(data, "content").value.VStr?
    requires |Strip(Get(data, "content").value.s)| < 20
    ensures q.Quality?
    ensures (forall f :: f in Validators.MedicalRecordRequired ==> HasTruthy(data, f)) ==>
              q.overallScore == 80 && q.issues == [BriefContentIssue]
    ensures (exists f :: f in Validators.MedicalRecordRequired && !HasTruthy(data, f)) ==>
              q.overallScore == 50 && q.issues == [MissingRecordFieldsIssue, BriefContentIssue]
  {
    PresentOrMissing(data, Validators.MedicalRecordRequired);
    assert RecordContentIssues(data) == [BriefContentIssue];
    assert RecordIssueWeights([BriefContentIssue]) == 20;
  }

  /** How many values are None or the empty string. */
  function EmptyCount(data: Dict): (n: nat)
    ensures n <= |data|
  {
    if data == [] then 0 else Indicator(data[0].1 == VNone || data[0].1 == VStr("")) + EmptyCount(data[1..])
  }

  /** Python's `{x:.0f}` on an exact value: round half to even. */
  function RoundHalfEven(x: real): (r: int)
    ensures x - 0.5 <= r as real <= x + 0.5
  {
    var f := x.Floor;
    var frac := x - f as real;
    if frac < 0.5 then f else if frac > 0.5 then f + 1 else if f % 2 == 0 then f else f + 1
  }

  lemma MulStrict(a: real, b: real, t: real)
    requires t > 0.0 && a < b
    ensures a * t < b * t
  {
  }

  lemma ShareBelow(tr: real, er: real)
    requires tr > 0.0
    ensures (tr - er) / tr < 0.8 <==> tr - er < 0.8 * tr
  {
    var share := (tr - er) / tr;
    assert share * tr == tr - er;
    if share < 0.8 {
      MulStrict(share, 0.8, tr);
    } else if share > 0.8 {
      MulStrict(0.8, share, tr);
    }
  }

  /** The completeness share is below 80 percent exactly when more than a fifth of
      the values are empty. */
  lemma CompletenessBelowEighty(t: nat, e: nat)
    requires 0 < t && e <= t
    ensures ((t - e) as real / t as real) * 100.0 < 80.0 <==> t < 5 * e
  {
    ShareBelow(t as real, e as real);
    assert (t - e) as real == t as real - e as real;
  }

  /** What `_check_general_data_quality` answers for `data`: an empty dictionary scores 0;
      otherwise 20 off when more than a fifth of the values are None or empty strings. */
  predicate GeneralQualityOf(data: Dict, q: Quality)
  {
    && q.Quality?
    && q.overallScore == (if data == [] then 0 else if |data| < 5 * EmptyCount(data) then 80 else 100)
    && (data == [] ==> q.issues == ["Empty data"] && q.recommendations == [])
    && (data != [] ==> q.completeness == ((|data| - EmptyCount(data)) as real / |data| as real) * 100.0)
  }

  method CheckGeneralQuality(data: Dict) returns (q: Quality)
    ensures GeneralQualityOf(data, q)
  {
    if data == [] {
      return Quality(0, ["Empty data"], [], 0.0, 0, 0);
    }
    var score := 100;
    var issues: seq<string> := [];
    var recommendations: seq<string> := [];
    var emptyFields := EmptyCount(data);
    var totalFields := |data|;
    var completeness := ((totalFields - emptyFields) as real / totalFields as real) * 100.0;
    CompletenessBelowEighty(totalFields, emptyFields);
    if completeness < 80.0 {
      issues := issues + ["Many empty fields: " + IntToString(RoundHalfEven(100.0 - completeness)) + "%"];
      score := score - 20;
    }
    if completeness < 80.0 {
      recommendations := recommendations + ["Fill in missing data fields"];
    }
    q := Quality(Max0(score), issues, recommendations, completeness, 100, 100);
  }

  /** `_run`: the check named by the data type, the general one for any other name. */
  method RunQualityCheck(data: Dict, dataType: string, age: Option<int>) returns (q: Quality)
    ensures dataType == "patient" ==> PatientQualityOf(data, age, q)
    ensures dataType == "vital_signs" ==> VitalQualityOf(data, q)
    ensures dataType == "medical_record" ==> RecordQualityOf(data, q)
    ensures dataType !in ["patient", "vital_signs", "medical_record"] ==>
              GeneralQualityOf(data, q) && (q.overallScore == 0 <==> data == [])
  {
    if dataType == "patient" {
      q := CheckPatientQuality(data, age);
    } else if dataType == "vital_signs" {
      q := CheckVitalSignsQuality(data);
    } else if dataType == "medical_record" {
      q := CheckMedicalRecordQuality(data);
    } else {
      q := CheckGeneralQuality(data);
    }
  }
}
