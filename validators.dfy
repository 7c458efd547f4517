/** `HealthcareValidators`: each validate_* function runs its checks in a fixed order
    and returns (ok, errors) with ok exactly when no check failed. A check that calls a
    string method on a value that is not a string raises, and the exception escapes.
    The date and e-mail checks (a clock and a library) are given as their verdicts. */
module Validators {
  import opened Common

  // ---------------------------------------------------------------------------
  // The character-pattern helpers

  /** `_validate_name`: after stripping, one or more of letters, whitespace, apostrophes
      and hyphens. */
  predicate ValidName(name: string)
  {
    var t := Strip(name);
    |t| >= 1 && forall i :: 0 <= i < |t| ==> NameChar(t[i])
  }

  /** A character of the name pattern `[a-zA-Z\s'-]`. */
  predicate NameChar(c: char) {
    IsLetter(c) || IsSpace(c) || c == '\'' || c == '-'
  }

  predicate AllAlnum(s: string)
  {
    forall i :: 0 <= i < |s| ==> IsAlnum(s[i])
  }

  /** The stripped value is lo..hi ASCII letters and digits. */
  predicate AlnumOfLength(s: string, lo: nat, hi: nat)
  {
    var t := Strip(s);
    lo <= |t| <= hi && AllAlnum(t)
  }

  /** `_validate_mrn`: 3 to 20 letters and digits. */
  predicate ValidMrn(mrn: string) { AlnumOfLength(mrn, 3, 20) }

  /** `_validate_doctor_id`: 3 to 10 letters and digits. */
  predicate ValidDoctorId(doctorId: string) { AlnumOfLength(doctorId, 3, 10) }

  /** `_validate_license_number`: 6 to 15 letters and digits. */
  predicate ValidLicense(license: string) { AlnumOfLength(license, 6, 15) }

  const Genders: seq<string> := ["male", "female", "other", "unknown"]

  predicate ValidGender(gender: string) { Lower(gender) in Genders }

  /** `re.sub(r'\D', '', s)`: the digits of s, in order. */
  function DigitsOnly(s: string): (r: string)
    ensures AllDigits(r) && |r| <= |s|
    ensures forall i :: 0 <= i < |s| && IsDigit(s[i]) ==> s[i] in r
  {
    if s == [] then []
    else (if IsDigit(s[0]) then [s[0]] else []) + DigitsOnly(s[1..])
  }

  /** `_validate_phone`: 7 to 15 digits once everything else is removed. */
  predicate ValidPhone(phone: string)
  {
    7 <= |DigitsOnly(phone)| <= 15
  }

  /** Keeping the digits of a digit string changes nothing. */
  lemma {:induction false} DigitsOnlyIdempotent(s: string)
    requires AllDigits(s)
    ensures DigitsOnly(s) == s
  {
    if s != [] {
      DigitsOnlyIdempotent(s[1..]);
    }
  }

  /** A phone number is valid exactly when its digits alone are: the sanitizer's
      digit-only form keeps validity. */
  lemma PhoneValidAfterSanitizing(phone: string)
    ensures ValidPhone(DigitsOnly(phone)) <==> ValidPhone(phone)
  {
    DigitsOnlyIdempotent(DigitsOnly(phone));
  }

  /** A phone number with too few digits is rejected, whatever else it holds. */
  lemma ShortPhoneRejected(phone: string)
    requires |DigitsOnly(phone)| < 7
    ensures !ValidPhone(phone)
  {
  }

  /** Upper-casing keeps a character's class: space stays space, letters stay letters,
      digits stay digits. */
  lemma UpperKeepsClasses(s: string)
    ensures forall i :: 0 <= i < |s| ==>
      (IsSpace(Upper(s)[i]) <==> IsSpace(s[i])) && (IsAlnum(Upper(s)[i]) <==> IsAlnum(s[i]))
  {
    forall i | 0 <= i < |s| {
      CaseKeepsClass(s[i]);
    }
  }

  /** The sanitized MRN (stripped, upper-cased) is valid exactly when the raw one is. */
  lemma MrnValidAfterSanitizing(mrn: string)
    ensures ValidMrn(Upper(Strip(mrn))) <==> ValidMrn(mrn)
  {
    var t := Strip(mrn);
    var u := Upper(t);
    UpperKeepsClasses(t);
    StripNoop(u);
  }

  // ---------------------------------------------------------------------------
  // Checks and their outcome

  /** One check of a validate_* function: it passes, reports messages, or raises. */
  datatype Step = Pass | Fail(msgs: seq<string>) | Crash

  /** What a validate_* call gives: (ok, errors), or an exception escaping it. */
  datatype Checked = Checked(ok: bool, errors: seq<string>) | Raised

  function Messages(steps: seq<Step>): seq<string>
  {
    if steps == [] then [] else (if steps[0].Fail? then steps[0].msgs else []) + Messages(steps[1..])
  }

  predicate Crashes(steps: seq<Step>)
  {
    exists i :: 0 <= i < |steps| && steps[i].Crash?
  }

  /** Checks run in order; the first that raises ends the call, otherwise the errors
      are all failed checks' messages in order and ok means there are none. */
  function Outcome(steps: seq<Step>): (c: Checked)
    ensures c.Raised? <==> Crashes(steps)
    ensures c.Checked? ==> (c.ok <==> c.errors == [])
  {
    if Crashes(steps) then Raised else var errors := Messages(steps); Checked(errors == [], errors)
  }

  /** The messages of a leading step come first. */
  lemma MessagesPrefix(first: seq<string>, rest: seq<Step>)
    ensures Messages([Fail(first)] + rest) == first + Messages(rest)
  {
    assert ([Fail(first)] + rest)[1..] == rest;
  }

  /** The messages of a leading failed step open the errors of a call that does not raise. */
  lemma OutcomeLeads(first: seq<string>, steps: seq<Step>)
    requires steps != [] && steps[0] == Fail(first)
    ensures Outcome(steps).Checked? ==> first <= Outcome(steps).errors
  {
    MessagesPrefix(first, steps[1..]);
    assert steps == [steps[0]] + steps[1..];
  }

  /** `f in data and data[f]` is a string whose check gives `ok`: a falsy or missing
      value passes, a string is judged, any other value raises on the string method. */
  function StrStep(data: Dict, f: string, ok: string -> bool, msg: string -> string): (s: Step)
    ensures s.Crash? <==> NonString(data, f)
  {
    if !HasTruthy(data, f) then Pass
    else match Get(data, f).value
      case VStr(v) => if ok(v) then Pass else Fail([msg(v)])
      case _ => Crash
  }

  /** The field is present and truthy but not a string. */
  predicate NonString(data: Dict, f: string)
  {
    HasTruthy(data, f) && !Get(data, f).value.VStr?
  }

  /** A date check whose verdict comes from outside: `error` is None when the date is valid. */
  function DateStep(data: Dict, f: string, error: Option<string>): (s: Step)
    ensures !s.Crash?
  {
    if HasTruthy(data, f) && error.Some? then Fail([error.value]) else Pass
  }

  // ---------------------------------------------------------------------------
  // Required fields

  function MissingMessage(f: string): string { "Missing required field: " + f }

  /** One message per required field that is missing or falsy, in field order. */
  function MissingFields(data: Dict, fields: seq<string>): (r: seq<string>)
    ensures |r| <= |fields|
  {
    if fields == [] then []
    else
      var last := fields[|fields| - 1];
      MissingFields(data, fields[..|fields| - 1]) + (if HasTruthy(data, last) then [] else [MissingMessage(last)])
  }

  method RequiredFieldErrors(data: Dict, fields: seq<string>) returns (errors: seq<string>)
    ensures errors == MissingFields(data, fields)
  {
    errors := [];
    for i := 0 to |fields|
      invariant errors == MissingFields(data, fields[..i])
    {
      assert fields[..i + 1][..i] == fields[..i];
      if !HasTruthy(data, fields[i]) {
        errors := errors + [MissingMessage(fields[i])];
      }
    }
    assert fields[..|fields|] == fields;
  }

  lemma MissingMessageInjective(f: string, g: string)
    requires MissingMessage(f) == MissingMessage(g)
    ensures f == g
  {
    var p := "Missing required field: ";
    assert f == MissingMessage(f)[|p|..];
    assert g == MissingMessage(g)[|p|..];
  }

  /** A field is reported exactly when it is required and missing or falsy. */
  lemma {:induction false} MissingFieldsMembers(data: Dict, fields: seq<string>, f: string)
    ensures MissingMessage(f) in MissingFields(data, fields) <==> f in fields && !HasTruthy(data, f)
  {
    if fields != [] {
      var last := fields[|fields| - 1];
      MissingFieldsMembers(data, fields[..|fields| - 1], f);
      if MissingMessage(f) == MissingMessage(last) {
        MissingMessageInjective(f, last);
      }
      assert fields == fields[..|fields| - 1] + [last];
    }
  }

  /** With distinct required fields, each missing one is reported once. */
  lemma {:induction false} MissingFieldsOnce(data: Dict, fields: seq<string>, f: string)
    requires NoDuplicates(fields)
    requires f in fields && !HasTruthy(data, f)
    ensures Count(MissingFields(data, fields), MissingMessage(f)) == 1
  {
    var n := |fields|;
    var init := fields[..n - 1];
    var last := fields[n - 1];
    assert fields == init + [last];
    CountAppend(MissingFields(data, init), if HasTruthy(data, last) then [] else [MissingMessage(last)], MissingMessage(f));
    if f == last {
      assert f !in init;
      MissingFieldsMembers(data, init, f);
      CountAbsent(MissingFields(data, init), MissingMessage(f));
    } else {
      assert f in init;
      MissingFieldsOnce(data, init, f);
      if MissingMessage(f) == MissingMessage(last) {
        MissingMessageInjective(f, last);
      }
    }
  }

  // ---------------------------------------------------------------------------
  // validate_patient_data

  const PatientRequired: seq<string> := ["first_name", "last_name", "date_of_birth", "gender", "mrn"]

  /** The checks in source order. `dobError` is the date-of-birth verdict (it needs
      today's date) and `emailValid` the e-mail library's. */
  function PatientSteps(data: Dict, dobError: Option<string>, emailValid: bool): seq<Step>
  {
    [Fail(MissingFields(data, PatientRequired)),
     StrStep(data, "first_name", ValidName, _ => "Invalid first name format"),
     StrStep(data, "last_name", ValidName, _ => "Invalid last name format"),
     DateStep(data, "date_of_birth", dobError),
     StrStep(data, "gender", ValidGender, _ => "Invalid gender value"),
     StrStep(data, "mrn", ValidMrn, _ => "Invalid MRN format"),
     StrStep(data, "email", _ => emailValid, _ => "Invalid email format"),
     StrStep(data, "phone", ValidPhone, _ => "Invalid phone number format")]
  }

  function ValidatePatientData(data: Dict, dobError: Option<string>, emailValid: bool): (c: Checked)
    ensures c.Checked? ==> (c.ok <==> c.errors == [])
    ensures c.Checked? ==> MissingFields(data, PatientRequired) <= c.errors
  {
    var steps := PatientSteps(data, dobError, emailValid);
    OutcomeLeads(MissingFields(data, PatientRequired), steps);
    Outcome(steps)
  }

  /** The call raises exactly when a checked text field holds a truthy non-string. */
  lemma PatientRaisesIff(data: Dict, dobError: Option<string>, emailValid: bool)
    ensures ValidatePatientData(data, dobError, emailValid).Raised? <==>
      NonString(data, "first_name") || NonString(data, "last_name") || NonString(data, "gender") ||
      NonString(data, "mrn") || NonString(data, "email") || NonString(data, "phone")
  {
    var steps := PatientSteps(data, dobError, emailValid);
    forall i | 0 <= i < |steps| && steps[i].Crash?
      ensures NonString(data, "first_name") || NonString(data, "last_name") || NonString(data, "gender") ||
        NonString(data, "mrn") || NonString(data, "email") || NonString(data, "phone")
    {
      assert i in {1, 2, 4, 5, 6, 7};
    }
    if NonString(data, "first_name") { assert steps[1].Crash?; }
    if NonString(data, "last_name") { assert steps[2].Crash?; }
    if NonString(data, "gender") { assert steps[4].Crash?; }
    if NonString(data, "mrn") { assert steps[5].Crash?; }
    if NonString(data, "email") { assert steps[6].Crash?; }
    if NonString(data, "phone") { assert steps[7].Crash?; }
  }

  /** Each missing required patient field is reported exactly once. */
  lemma PatientMissingReportedOnce(data: Dict, f: string)
    requires f in PatientRequired && !HasTruthy(data, f)
    ensures Count(MissingFields(data, PatientRequired), MissingMessage(f)) == 1
  {
    MissingFieldsOnce(data, PatientRequired, f);
  }

  /** An MRN check fails exactly for a present string that is not 3-20 letters and digits. */
  lemma MrnStepMeaning(data: Dict)
    requires HasTruthy(data, "mrn") && Get(data, "mrn").value.VStr?
    ensures PatientSteps(data, None, true)[5] == Pass <==> ValidMrn(Get(data, "mrn").value.s)
  {
  }

  // ---------------------------------------------------------------------------
  // validate_vital_signs

  datatype VitalError =
    | MissingPatientId
    | OutOfRange(vital: string, value: real, low: real, high: real)
    | NotNumeric(vital: string)
    | SystolicNotAboveDiastolic

  /** The physiological ranges, inclusive, in the source's order. */
  const VitalRanges: seq<(string, real, real)> := [
    ("heart_rate", 30.0, 200.0), ("systolic_bp", 60.0, 250.0), ("diastolic_bp", 40.0, 150.0),
    ("temperature", 90.0, 110.0), ("oxygen_saturation", 70.0, 100.0), ("respiratory_rate", 6.0, 50.0),
    ("blood_glucose", 20.0, 600.0), ("pain_level", 0.0, 10.0)]

  /** The check of one vital: absent or None passes, a non-number is reported, and a
      number outside [low, high] is reported with its value. */
  function RangeError(data: Dict, vital: string, low: real, high: real): (r: seq<VitalError>)
    ensures |r| <= 1
  {
    if !HasNonNull(data, vital) then []
    else match ToFloat(Get(data, vital).value)
      case None => [NotNumeric(vital)]
      case Some(x) => if x < low || x > high then [OutOfRange(vital, x, low, high)] else []
  }

  function RangeErrors(data: Dict, ranges: seq<(string, real, real)>): seq<VitalError>
  {
    if ranges == [] then []
    else
      var r := ranges[|ranges| - 1];
      RangeErrors(data, ranges[..|ranges| - 1]) + RangeError(data, r.0, r.1, r.2)
  }

  /** Systolic must exceed diastolic when both are present and both convert. */
  function PressureError(data: Dict): seq<VitalError>
  {
    if Has(data, "systolic_bp") && Has(data, "diastolic_bp") then
      var s := ToFloat(Get(data, "systolic_bp").value);
      var d := ToFloat(Get(data, "diastolic_bp").value);
      if s.Some? && d.Some? && s.value <= d.value then [SystolicNotAboveDiastolic] else []
    else []
  }

  method ValidateVitalSigns(data: Dict) returns (ok: bool, errors: seq<VitalError>)
    ensures errors == (if HasTruthy(data, "patient_id") then [] else [MissingPatientId]) +
      RangeErrors(data, VitalRanges) + PressureError(data)
    ensures ok <==> errors == []
  {
    errors := [];
    if !HasTruthy(data, "patient_id") {
      errors := errors + [MissingPatientId];
    }
    var rangeErrors := CheckRanges(data, VitalRanges);
    errors := errors + rangeErrors;
    errors := errors + PressureError(data);
    ok := |errors| == 0;
  }

  /** The loop over the range table, one vital at a time in table order. */
  method CheckRanges(data: Dict, ranges: seq<(string, real, real)>) returns (errors: seq<VitalError>)
    ensures errors == RangeErrors(data, ranges)
  {
    errors := [];
    for i := 0 to |ranges|
      invariant errors == RangeErrors(data, ranges[..i])
    {
      assert ranges[..i + 1][..i] == ranges[..i];
      var (vital, low, high) := ranges[i];
      if HasNonNull(data, vital) {
        var value := ToFloat(Get(data, vital).value);
        if value.None? {
          errors := errors + [NotNumeric(vital)];
        } else if value.value < low || value.value > high {
          errors := errors + [OutOfRange(vital, value.value, low, high)];
        }
      }
    }
    assert ranges[..|ranges|] == ranges;
  }

  /** One error per vital at most: a present, non-None value that is not a number, or
      one outside its inclusive range; nothing for the others. */
  lemma {:induction false} RangeErrorsMembers(data: Dict, ranges: seq<(string, real, real)>, e: VitalError)
    ensures e in RangeErrors(data, ranges) <==>
      exists k :: 0 <= k < |ranges| && e in RangeError(data, ranges[k].0, ranges[k].1, ranges[k].2)
  {
    if ranges != [] {
      var init := ranges[..|ranges| - 1];
      RangeErrorsMembers(data, init, e);
      if e in RangeErrors(data, ranges) && e !in RangeErrors(data, init) {
        var k := |ranges| - 1;
        assert e in RangeError(data, ranges[k].0, ranges[k].1, ranges[k].2);
      }
      if exists k :: 0 <= k < |ranges| && e in RangeError(data, ranges[k].0, ranges[k].1, ranges[k].2) {
        var k :| 0 <= k < |ranges| && e in RangeError(data, ranges[k].0, ranges[k].1, ranges[k].2);
        if k < |ranges| - 1 {
          assert init[k] == ranges[k];
        }
      }
    }
  }

  lemma {:induction false} RangeErrorsBound(data: Dict, ranges: seq<(string, real, real)>)
    ensures |RangeErrors(data, ranges)| <= |ranges|
  {
    if ranges != [] {
      RangeErrorsBound(data, ranges[..|ranges| - 1]);
    }
  }

  /** At most ten errors: the patient id, one per vital, the pressure consistency. */
  lemma VitalErrorsBound(data: Dict)
    ensures |(if HasTruthy(data, "patient_id") then [] else [MissingPatientId]) +
      RangeErrors(data, VitalRanges) + PressureError(data)| <= 10
  {
    RangeErrorsBound(data, VitalRanges);
  }

  /** A heart rate of 30 or 200 is in range, 201 is not, and a list is not a number. */
  lemma HeartRateBoundsInclusive()
    ensures RangeError([("heart_rate", VInt(30))], "heart_rate", 30.0, 200.0) == []
    ensures RangeError([("heart_rate", VInt(200))], "heart_rate", 30.0, 200.0) == []
    ensures RangeError([("heart_rate", VInt(201))], "heart_rate", 30.0, 200.0) ==
      [OutOfRange("heart_rate", 201.0, 30.0, 200.0)]
    ensures RangeError([("heart_rate", VList([]))], "heart_rate", 30.0, 200.0) == [NotNumeric("heart_rate")]
  {
  }

  // ---------------------------------------------------------------------------
  // validate_medical_record

  const MedicalRecordRequired: seq<string> := ["patient_id", "record_type", "title", "content"]

  const RecordTypes: seq<string> := ["diagnosis", "treatment", "lab_result", "procedure", "consultation",
    "note", "prescription", "imaging", "progress_note", "discharge_summary"]

  const Departments: seq<string> := ["cardiology", "pulmonology", "neurology", "orthopedics", "emergency",
    "internal_medicine", "pediatrics", "surgery", "radiology", "laboratory", "pharmacy", "nursing"]

  /** A text field with a minimum stripped length and a maximum raw length; both
      messages can be reported together. */
  function LengthStep(data: Dict, f: string, minLen: nat, maxLen: nat, short: string, long: string): (s: Step)
    ensures s.Crash? <==> NonString(data, f)
  {
    if !HasTruthy(data, f) then Pass
    else match Get(data, f).value
      case VStr(v) =>
        var msgs := (if |Strip(v)| < minLen then [short] else []) + (if |v| > maxLen then [long] else []);
        if msgs == [] then Pass else Fail(msgs)
      case _ => Crash
  }

  function MedicalRecordSteps(data: Dict): seq<Step>
  {
    [Fail(MissingFields(data, MedicalRecordRequired)),
     StrStep(data, "record_type", s => Lower(s) in RecordTypes, s => "Invalid record type: " + s),
     LengthStep(data, "content", 10, 10000, "Medical record content too short (minimum 10 characters)",
                "Medical record content too long (maximum 10,000 characters)"),
     LengthStep(data, "title", 3, 200, "Medical record title too short (minimum 3 characters)",
                "Medical record title too long (maximum 200 characters)"),
     StrStep(data, "doctor_id", ValidDoctorId, _ => "Invalid doctor ID format"),
     StrStep(data, "department", s => Lower(s) in Departments, s => "Invalid department: " + s)]
  }

  function ValidateMedicalRecord(data: Dict): (c: Checked)
    ensures c.Checked? ==> (c.ok <==> c.errors == [])
    ensures c.Checked? ==>
      MissingFields(data, MedicalRecordRequired) <= c.errors
  {
    var steps := MedicalRecordSteps(data);
    OutcomeLeads(MissingFields(data, MedicalRecordRequired), steps);
    Outcome(steps)
  }

  /** The call raises exactly when a checked field holds a truthy value of the wrong type. */
  lemma MedicalRecordRaisesIff(data: Dict)
    ensures ValidateMedicalRecord(data).Raised? <==>
      NonString(data, "record_type") || NonString(data, "content") || NonString(data, "title") || NonString(data, "doctor_id") || NonString(data, "department")
  {
    var steps := MedicalRecordSteps(data);
    forall i | 0 <= i < |steps| && steps[i].Crash?
      ensures NonString(data, "record_type") || NonString(data, "content") || NonString(data, "title") || NonString(data, "doctor_id") || NonString(data, "department")
    {
      assert i in {1, 2, 3, 4, 5};
    }
    if NonString(data, "record_type") { assert steps[1].Crash?; }
    if NonString(data, "content") { assert steps[2].Crash?; }
    if NonString(data, "title") { assert steps[3].Crash?; }
    if NonString(data, "doctor_id") { assert steps[4].Crash?; }
    if NonString(data, "department") { assert steps[5].Crash?; }
  }

  /** Content that is both blank-padded short and over-long is reported twice. */
  lemma ContentTooShortAndTooLong(v: string)
    requires |Strip(v)| < 10 && |v| > 10000
    ensures LengthStep([("content", VStr(v))], "content", 10, 10000, "short", "long") == Fail(["short", "long"])
  {
  }

  // ---------------------------------------------------------------------------
  // validate_appointment

  const AppointmentRequired: seq<string> := ["patient_id", "doctor_id", "scheduled_date"]

  const AppointmentTypes: seq<string> := ["consultation", "follow_up", "procedure", "emergency", "routine_check"]

  const DurationRangeMessage := "Duration must be between 15 and 240 minutes"
  const DurationNumericMessage := "Duration must be a numeric value"

  /** `int(data['duration'])`, and 15..240 inclusive; conversion failures are reported,
      not raised. */
  function DurationStep(data: Dict): (s: Step)
    ensures !s.Crash?
    ensures s == Fail([DurationRangeMessage]) <==>
      HasTruthy(data, "duration") && ToInt(Get(data, "duration").value).Some? &&
      (ToInt(Get(data, "duration").value).value < 15 || ToInt(Get(data, "duration").value).value > 240)
    ensures s == Fail([DurationNumericMessage]) <==>
      HasTruthy(data, "duration") && ToInt(Get(data, "duration").value).None?
  {
    if !HasTruthy(data, "duration") then Pass
    else match ToInt(Get(data, "duration").value)
      case None => Fail([DurationNumericMessage])
      case Some(n) => if n < 15 || n > 240 then Fail([DurationRangeMessage]) else Pass
  }

  function AppointmentSteps(data: Dict, scheduledError: Option<string>): seq<Step>
  {
    [Fail(MissingFields(data, AppointmentRequired)),
     DateStep(data, "scheduled_date", scheduledError),
     DurationStep(data),
     StrStep(data, "appointment_type", s => Lower(s) in AppointmentTypes, s => "Invalid appointment type: " + s)]
  }

  /** `scheduledError` is the future-date verdict (it needs the current time). */
  function ValidateAppointment(data: Dict, scheduledError: Option<string>): (c: Checked)
    ensures c.Checked? ==> (c.ok <==> c.errors == [])
    ensures c.Checked? ==>
      MissingFields(data, AppointmentRequired) <= c.errors
  {
    var steps := AppointmentSteps(data, scheduledError);
    OutcomeLeads(MissingFields(data, AppointmentRequired), steps);
    Outcome(steps)
  }

  /** The call raises exactly when a checked field holds a truthy value of the wrong type. */
  lemma AppointmentRaisesIff(data: Dict, scheduledError: Option<string>)
    ensures ValidateAppointment(data, scheduledError).Raised? <==>
      NonString(data, "appointment_type")
  {
    var steps := AppointmentSteps(data, scheduledError);
    forall i | 0 <= i < |steps| && steps[i].Crash?
      ensures NonString(data, "appointment_type")
    {
      assert i in {3};
    }
    if NonString(data, "appointment_type") { assert steps[3].Crash?; }
  }

  /** 15 and 240 minutes are accepted, 14 and 241 rejected, and a float is truncated
      first, so 14.9 is rejected and 240.9 accepted. */
  lemma DurationExamples()
    ensures DurationStep([("duration", VInt(15))]) == Pass
    ensures DurationStep([("duration", VInt(240))]) == Pass
    ensures DurationStep([("duration", VInt(14))]) == Fail([DurationRangeMessage])
    ensures DurationStep([("duration", VInt(241))]) == Fail([DurationRangeMessage])
    ensures DurationStep([("duration", VReal(14.9))]) == Fail([DurationRangeMessage])
    ensures DurationStep([("duration", VReal(240.9))]) == Pass
  {
    assert (14.9 as real).Floor == 14;
    assert (240.9 as real).Floor == 240;
  }

  // ---------------------------------------------------------------------------
  // validate_alert

  const AlertRequired: seq<string> := ["patient_id", "alert_type", "severity", "title", "message"]
  const AlertSeverities: seq<string> := ["low", "medium", "high", "critical"]
  const AlertTypes: seq<string> := ["vital_signs", "medication", "appointment", "emergency", "system"]

  function AlertSteps(data: Dict): seq<Step>
  {
    [Fail(MissingFields(data, AlertRequired)),
     StrStep(data, "severity", s => Lower(s) in AlertSeverities, s => "Invalid severity: " + s),
     StrStep(data, "alert_type", s => Lower(s) in AlertTypes, s => "Invalid alert type: " + s)]
  }

  function ValidateAlert(data: Dict): (c: Checked)
    ensures c.Checked? ==> (c.ok <==> c.errors == [])
    ensures c.Checked? ==> MissingFields(data, AlertRequired) <= c.errors
  {
    var steps := AlertSteps(data);
    OutcomeLeads(MissingFields(data, AlertRequired), steps);
    Outcome(steps)
  }

  /** The call raises exactly when a checked field holds a truthy value of the wrong type. */
  lemma AlertRaisesIff(data: Dict)
    ensures ValidateAlert(data).Raised? <==>
      NonString(data, "severity") || NonString(data, "alert_type")
  {
    var steps := AlertSteps(data);
    forall i | 0 <= i < |steps| && steps[i].Crash?
      ensures NonString(data, "severity") || NonString(data, "alert_type")
    {
      assert i in {1, 2};
    }
    if NonString(data, "severity") { assert steps[1].Crash?; }
    if NonString(data, "alert_type") { assert steps[2].Crash?; }
  }

  /** Severity is matched without regard to case. */
  lemma AlertSeverityIgnoresCase(data: Dict, v: string)
    requires HasTruthy(data, "severity") && Get(data, "severity").value == VStr(v)
    ensures AlertSteps(data)[1] == Pass <==> Lower(v) in AlertSeverities
  {
  }

  // ---------------------------------------------------------------------------
  // validate_treatment

  const TreatmentRequired: seq<string> := ["patient_id", "doctor_id", "treatment_type", "description"]
  const TreatmentTypes: seq<string> := ["medication", "procedure", "therapy", "surgery", "lifestyle"]

  /** The start/end order check. It runs when both dates are present and truthy. The
      start date is read first: a non-string start raises on `replace`, and a start
      string that does not parse raises ValueError, which the check catches, so the end
      date is then never read. Only after a start that parses does a non-string end
      raise. `startError` is the verdict of that same parse of the start date (None
      when it parses); `startNotBefore` is the parsed comparison (None when the end date
      does not parse or the two cannot be compared, both passed over). */
  function DateRangeStep(data: Dict, startError: Option<string>, startNotBefore: Option<bool>): (s: Step)
    ensures s.Crash? <==>
      HasTruthy(data, "start_date") && HasTruthy(data, "end_date") &&
      (NonString(data, "start_date") || (startError.None? && NonString(data, "end_date")))
    ensures s.Fail? ==> startError.None? && startNotBefore == Some(true)
  {
    if !(HasTruthy(data, "start_date") && HasTruthy(data, "end_date")) then Pass
    else if !Get(data, "start_date").value.VStr? then Crash
    else if startError.Some? then Pass
    else if !Get(data, "end_date").value.VStr? then Crash
    else if startNotBefore == Some(true) then Fail(["End date must be after start date"])
    else Pass
  }

  function TreatmentSteps(data: Dict, startError: Option<string>, endError: Option<string>,
                          startNotBefore: Option<bool>): seq<Step>
  {
    [Fail(MissingFields(data, TreatmentRequired)),
     StrStep(data, "treatment_type", s => Lower(s) in TreatmentTypes, s => "Invalid treatment type: " + s),
     DateStep(data, "start_date", startError),
     DateStep(data, "end_date", endError),
     DateRangeStep(data, startError, startNotBefore)]
  }

  function ValidateTreatment(data: Dict, startError: Option<string>, endError: Option<string>,
                             startNotBefore: Option<bool>): (c: Checked)
    ensures c.Checked? ==> (c.ok <==> c.errors == [])
    ensures c.Checked? ==>
      MissingFields(data, TreatmentRequired) <= c.errors
  {
    var steps := TreatmentSteps(data, startError, endError, startNotBefore);
    OutcomeLeads(MissingFields(data, TreatmentRequired), steps);
    Outcome(steps)
  }

  /** The range check reaches the end date only after the start date has parsed. */
  predicate RangeRaises(data: Dict, startError: Option<string>)
  {
    HasTruthy(data, "start_date") && HasTruthy(data, "end_date") &&
    (NonString(data, "start_date") || (startError.None? && NonString(data, "end_date")))
  }

  /** The call raises exactly when treatment_type is a truthy non-string, or both dates
      are truthy and the start date is a non-string, or the start date parses and the
      end date is a non-string. */
  lemma TreatmentRaisesIff(data: Dict, startError: Option<string>, endError: Option<string>, startNotBefore: Option<bool>)
    ensures ValidateTreatment(data, startError, endError, startNotBefore).Raised? <==>
      NonString(data, "treatment_type") || RangeRaises(data, startError)
  {
    var steps := TreatmentSteps(data, startError, endError, startNotBefore);
    forall i | 0 <= i < |steps| && steps[i].Crash?
      ensures NonString(data, "treatment_type") || RangeRaises(data, startError)
    {
      assert i in {1, 4};
    }
    if NonString(data, "treatment_type") { assert steps[1].Crash?; }
    if RangeRaises(data, startError) { assert steps[4].Crash?; }
  }

  /** A start date that does not parse shields a non-string end date: the ValueError is
      caught before the end date is read, and validation passes the range check. */
  lemma UnparsedStartShieldsEnd(err: string)
    ensures DateRangeStep([("start_date", VStr("x")), ("end_date", VInt(5))], Some(err), None) == Pass
    ensures DateRangeStep([("start_date", VStr("2024-01-01")), ("end_date", VInt(5))], None, None) == Crash
  {
  }

  // ---------------------------------------------------------------------------
  // validate_doctor_data

  const DoctorRequired: seq<string> := ["first_name", "last_name", "specialty", "license_number"]

  const Specialties: seq<string> := ["cardiology", "pulmonology", "neurology", "orthopedics",
    "emergency_medicine", "internal_medicine", "pediatrics", "surgery", "radiology", "laboratory",
    "pharmacy", "nursing"]

  function DoctorSteps(data: Dict, emailValid: bool): seq<Step>
  {
    [Fail(MissingFields(data, DoctorRequired)),
     StrStep(data, "first_name", ValidName, _ => "Invalid first name format"),
     StrStep(data, "last_name", ValidName, _ => "Invalid last name format"),
     StrStep(data, "specialty", s => Lower(s) in Specialties, s => "Invalid specialty: " + s),
     StrStep(data, "license_number", ValidLicense, _ => "Invalid license number format"),
     StrStep(data, "email", _ => emailValid, _ => "Invalid email format"),
     StrStep(data, "phone", ValidPhone, _ => "Invalid phone number format")]
  }

  function ValidateDoctorData(data: Dict, emailValid: bool): (c: Checked)
    ensures c.Checked? ==> (c.ok <==> c.errors == [])
    ensures c.Checked? ==> MissingFields(data, DoctorRequired) <= c.errors
  {
    var steps := DoctorSteps(data, emailValid);
    OutcomeLeads(MissingFields(data, DoctorRequired), steps);
    Outcome(steps)
  }

  /** The call raises exactly when a checked field holds a truthy value of the wrong type. */
  lemma DoctorRaisesIff(data: Dict, emailValid: bool)
    ensures ValidateDoctorData(data, emailValid).Raised? <==>
      NonString(data, "first_name") || NonString(data, "last_name") || NonString(data, "specialty") || NonString(data, "license_number") || NonString(data, "email") || NonString(data, "phone")
  {
    var steps := DoctorSteps(data, emailValid);
    forall i | 0 <= i < |steps| && steps[i].Crash?
      ensures NonString(data, "first_name") || NonString(data, "last_name") || NonString(data, "specialty") || NonString(data, "license_number") || NonString(data, "email") || NonString(data, "phone")
    {
      assert i in {1, 2, 3, 4, 5, 6};
    }
    if NonString(data, "first_name") { assert steps[1].Crash?; }
    if NonString(data, "last_name") { assert steps[2].Crash?; }
    if NonString(data, "specialty") { assert steps[3].Crash?; }
    if NonString(data, "license_number") { assert steps[4].Crash?; }
    if NonString(data, "email") { assert steps[5].Crash?; }
    if NonString(data, "phone") { assert steps[6].Crash?; }
  }
}
