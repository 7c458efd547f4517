/** `DataSanitizer` and `ValidationResult`. The sanitizers work on a copy of the
    dictionary (here a value), normalise a few text fields and convert the vital signs
    to numbers; a text field holding something other than a string makes the string
    method raise, modelled as None. */
module Sanitizer {
  import opened Common
  import Validators

  // ---------------------------------------------------------------------------
  // str.title()

  /** Python's str.title() over ASCII, given whether the previous character was a
      letter: a letter right after a letter is lower-cased, any other letter is
      upper-cased, and every other character is kept. */
  function TitleFrom(s: string, afterLetter: bool): (r: string)
    ensures |r| == |s|
    ensures forall i :: 0 <= i < |s| ==> (IsLetter(r[i]) <==> IsLetter(s[i])) && (IsSpace(r[i]) <==> IsSpace(s[i]))
    ensures forall i :: 0 <= i < |s| && !IsLetter(s[i]) ==> r[i] == s[i]
    ensures forall i :: 0 <= i < |s| && IsLetter(s[i]) ==>
      r[i] == if (if i == 0 then afterLetter else IsLetter(s[i - 1])) then LowerChar(s[i]) else UpperChar(s[i])
  {
    if s == [] then []
    else
      var c := if IsLetter(s[0]) then (if afterLetter then LowerChar(s[0]) else UpperChar(s[0])) else s[0];
      [c] + TitleFrom(s[1..], IsLetter(s[0]))
  }

  function Title(s: string): (r: string)
    ensures |r| == |s|
  {
    TitleFrom(s, false)
  }

  /** Title-casing twice is title-casing once. */
  lemma TitleIdempotent(s: string)
    ensures Title(Title(s)) == Title(s)
  {
    var r := Title(s);
    var rr := Title(r);
    forall i | 0 <= i < |s|
      ensures rr[i] == r[i]
    {
      if IsLetter(s[i]) && i > 0 {
        assert IsLetter(r[i - 1]) == IsLetter(s[i - 1]);
      }
    }
    assert rr == r;
  }

  /** Title-casing a stripped string leaves it stripped. */
  lemma TitleKeepsStripped(u: string)
    requires u == [] || (!IsSpace(u[0]) && !IsSpace(u[|u| - 1]))
    ensures Strip(Title(u)) == Title(u)
  {
    var t := Title(u);
    if t != [] {
      assert !IsSpace(t[0]) && !IsSpace(t[|t| - 1]);
    }
    StripNoop(t);
  }

  /** Case mappings keep whether a character is whitespace. */
  lemma CaseKeepsSpaces(s: string)
    ensures forall i :: 0 <= i < |s| ==> (IsSpace(Lower(s)[i]) <==> IsSpace(s[i]))
    ensures forall i :: 0 <= i < |s| ==> (IsSpace(Upper(s)[i]) <==> IsSpace(s[i]))
  {
    forall i | 0 <= i < |s| {
      CaseKeepsClass(s[i]);
    }
  }

  // ---------------------------------------------------------------------------
  // The normal forms of the sanitized text fields

  function NameForm(s: string): string { Title(Strip(s)) }
  function EmailForm(s: string): string { Lower(Strip(s)) }
  function MrnForm(s: string): string { Upper(Strip(s)) }
  function LowerForm(s: string): string { Lower(Strip(s)) }

  lemma NameFormIdempotent(s: string)
    ensures NameForm(NameForm(s)) == NameForm(s)
  {
    TitleKeepsStripped(Strip(s));
    TitleIdempotent(Strip(s));
  }

  lemma LowerFormIdempotent(s: string)
    ensures LowerForm(LowerForm(s)) == LowerForm(s)
  {
    var t := Lower(Strip(s));
    CaseKeepsSpaces(Strip(s));
    StripNoop(t);
    LowerIdempotent(Strip(s));
  }

  lemma MrnFormIdempotent(s: string)
    ensures MrnForm(MrnForm(s)) == MrnForm(s)
  {
    var t := Upper(Strip(s));
    CaseKeepsSpaces(Strip(s));
    StripNoop(t);
    assert Upper(t) == t;
  }

  /** A name is valid after sanitizing exactly when it was valid before. */
  lemma NameValidAfterSanitizing(s: string)
    ensures Validators.ValidName(NameForm(s)) <==> Validators.ValidName(s)
  {
    var u := Strip(s);
    var t := Title(u);
    TitleKeepsStripped(u);
    forall i | 0 <= i < |u|
      ensures Validators.NameChar(t[i]) <==> Validators.NameChar(u[i])
    {
      if !IsLetter(u[i]) {
        assert t[i] == u[i];
      }
    }
  }

  // ---------------------------------------------------------------------------
  // Field-wise sanitizing

  /** `d[f] = g(d[f])` when f is a key; a present non-string raises. */
  function SanitizeField(d: Option<Dict>, f: string, g: string -> string): (r: Option<Dict>)
    ensures d.Some? && !Has(d.value, f) ==> r == d
    ensures d.Some? && Has(d.value, f) && Get(d.value, f).value.VStr? ==>
      r == Some(Put(d.value, f, VStr(g(Get(d.value, f).value.s))))
    ensures r.None? <==> d.None? || (Has(d.value, f) && !Get(d.value, f).value.VStr?)
  {
    if d.None? || !Has(d.value, f) then d
    else match Get(d.value, f).value
      case VStr(v) => Some(Put(d.value, f, VStr(g(v))))
      case _ => None
  }

  /** Assigning a key the value it already has changes nothing. */
  lemma {:induction false} PutSame(d: Dict, k: string, v: Value)
    requires Get(d, k) == Some(v)
    ensures Put(d, k, v) == d
  {
    if d[0].0 != k {
      PutSame(d[1..], k, v);
    }
  }

  /** Re-sanitizing a field already in normal form changes nothing. */
  lemma SanitizeFieldStable(d: Dict, f: string, g: string -> string)
    requires Has(d, f) ==> Get(d, f).value.VStr? && g(Get(d, f).value.s) == Get(d, f).value.s
    ensures SanitizeField(Some(d), f, g) == Some(d)
  {
    if Has(d, f) {
      PutSame(d, f, Get(d, f).value);
    }
  }

  /** A field and the normal form its string is put into. */
  type Form = (string, string -> string)

  /** The forms applied in order, each a `d[f] = g(d[f])` on a present key. */
  function SanitizeAll(data: Dict, forms: seq<Form>): Option<Dict>
  {
    if forms == [] then Some(data)
    else
      var last := forms[|forms| - 1];
      SanitizeField(SanitizeAll(data, forms[..|forms| - 1]), last.0, last.1)
  }

  predicate DistinctFields(forms: seq<Form>)
  {
    forall i, j :: 0 <= i < j < |forms| ==> forms[i].0 != forms[j].0
  }

  predicate FieldOf(forms: seq<Form>, k: string)
  {
    exists i :: 0 <= i < |forms| && forms[i].0 == k
  }

  /** A present field of the wrong type (None included) raises. */
  predicate WrongType(data: Dict, f: string)
  {
    Has(data, f) && !Get(data, f).value.VStr?
  }

  /** What a successful sanitizing leaves at key k: the normal form of a sanitized
      field, the old value of any other key. */
  function Sanitized(data: Dict, forms: seq<Form>, k: string): (r: Option<Value>)
    ensures r.None? <==> !Has(data, k)
  {
    if forms == [] then Get(data, k)
    else
      var last := forms[|forms| - 1];
      if last.0 == k && Has(data, k) && Get(data, k).value.VStr? then Some(VStr(last.1(Get(data, k).value.s)))
      else if last.0 == k then Get(data, k)
      else Sanitized(data, forms[..|forms| - 1], k)
  }

  lemma {:induction false} SanitizedElsewhere(data: Dict, forms: seq<Form>, k: string)
    requires !FieldOf(forms, k)
    ensures Sanitized(data, forms, k) == Get(data, k)
  {
    if forms != [] {
      SanitizedElsewhere(data, forms[..|forms| - 1], k);
    }
  }

  /** The last field of distinct ones is not among the others. */
  lemma LastFieldFresh(forms: seq<Form>)
    requires DistinctFields(forms) && forms != []
    ensures DistinctFields(forms[..|forms| - 1])
    ensures !FieldOf(forms[..|forms| - 1], forms[|forms| - 1].0)
  {
  }

  /** A successful sanitizing holds at every key what `Sanitized` says. */
  lemma {:induction false} SanitizeAllGet(data: Dict, forms: seq<Form>, k: string)
    requires DistinctFields(forms) && SanitizeAll(data, forms).Some?
    ensures Get(SanitizeAll(data, forms).value, k) == Sanitized(data, forms, k)
  {
    if forms != [] {
      var n := |forms|;
      var init := forms[..n - 1];
      var last := forms[n - 1];
      LastFieldFresh(forms);
      SanitizeAllGet(data, init, k);
      SanitizeAllGet(data, init, last.0);
      SanitizedElsewhere(data, init, last.0);
    }
  }

  /** Sanitizing raises exactly when a sanitized field is present with a non-string. */
  lemma {:induction false} SanitizeAllRaises(data: Dict, forms: seq<Form>)
    requires DistinctFields(forms)
    ensures SanitizeAll(data, forms).None? <==> exists i :: 0 <= i < |forms| && WrongType(data, forms[i].0)
  {
    if forms != [] {
      var n := |forms|;
      var init := forms[..n - 1];
      var last := forms[n - 1];
      LastFieldFresh(forms);
      SanitizeAllRaises(data, init);
      var prev := SanitizeAll(data, init);
      assert SanitizeAll(data, forms) == SanitizeField(prev, last.0, last.1);
      if prev.Some? {
        SanitizeAllGet(data, init, last.0);
        SanitizedElsewhere(data, init, last.0);
        assert Get(prev.value, last.0) == Get(data, last.0);
      }
      WrongTypeSplit(data, forms, init);
    }
  }

  /** Some field of the forms is of the wrong type iff one of the earlier ones or the
      last one is. */
  lemma WrongTypeSplit(data: Dict, forms: seq<Form>, init: seq<Form>)
    requires forms != [] && init == forms[..|forms| - 1]
    ensures (exists i :: 0 <= i < |forms| && WrongType(data, forms[i].0)) <==>
      (exists i :: 0 <= i < |init| && WrongType(data, init[i].0)) || WrongType(data, forms[|forms| - 1].0)
  {
    var n := |forms|;
    if exists i :: 0 <= i < n && WrongType(data, forms[i].0) {
      var i :| 0 <= i < n && WrongType(data, forms[i].0);
      if i < n - 1 {
        assert init[i] == forms[i];
      }
    }
    if exists i :: 0 <= i < n - 1 && WrongType(data, init[i].0) {
      var i :| 0 <= i < n - 1 && WrongType(data, init[i].0);
      assert forms[i] == init[i];
    }
  }

  /** At a sanitized field, a successful sanitizing holds the field's normal form. */
  lemma {:induction false} SanitizedAt(data: Dict, forms: seq<Form>, i: nat)
    requires DistinctFields(forms) && i < |forms|
    requires Has(data, forms[i].0) && Get(data, forms[i].0).value.VStr?
    ensures Sanitized(data, forms, forms[i].0) == Some(VStr(forms[i].1(Get(data, forms[i].0).value.s)))
  {
    var n := |forms|;
    if i < n - 1 {
      var init := forms[..n - 1];
      assert init[i] == forms[i];
      SanitizedAt(data, init, i);
    }
  }

  /** Sanitizing an already sanitized dictionary changes nothing. */
  lemma {:induction false} SanitizeAllStable(d: Dict, forms: seq<Form>)
    requires forall i :: 0 <= i < |forms| && Has(d, forms[i].0) ==>
      Get(d, forms[i].0).value.VStr? && forms[i].1(Get(d, forms[i].0).value.s) == Get(d, forms[i].0).value.s
    ensures SanitizeAll(d, forms) == Some(d)
  {
    if forms != [] {
      var n := |forms|;
      SanitizeAllStable(d, forms[..n - 1]);
      SanitizeFieldStable(d, forms[n - 1].0, forms[n - 1].1);
    }
  }

  ghost predicate Idempotent(forms: seq<Form>)
  {
    forall i, x :: 0 <= i < |forms| ==> forms[i].1(forms[i].1(x)) == forms[i].1(x)
  }

  /** With distinct fields and idempotent forms, sanitizing twice is sanitizing once. */
  lemma SanitizeAllIdempotent(data: Dict, forms: seq<Form>)
    requires DistinctFields(forms) && Idempotent(forms)
    requires SanitizeAll(data, forms).Some?
    ensures SanitizeAll(SanitizeAll(data, forms).value, forms) == SanitizeAll(data, forms)
  {
    var r := SanitizeAll(data, forms).value;
    SanitizeAllRaises(data, forms);
    forall i | 0 <= i < |forms| && Has(r, forms[i].0)
      ensures Get(r, forms[i].0).value.VStr? && forms[i].1(Get(r, forms[i].0).value.s) == Get(r, forms[i].0).value.s
    {
      var f := forms[i].0;
      SanitizeAllGet(data, forms, f);
      assert !WrongType(data, forms[i].0);
      SanitizedAt(data, forms, i);
    }
    SanitizeAllStable(r, forms);
  }

  // ---------------------------------------------------------------------------
  // sanitize_patient_data

  /** Names title-cased, e-mail lower-cased, phone reduced to digits and MRN upper-cased,
      each stripped first (except the phone), in that order. */
  const PatientForms: seq<Form> := [("first_name", NameForm), ("last_name", NameForm), ("email", EmailForm),
    ("phone", Validators.DigitsOnly), ("mrn", MrnForm)]

  function SanitizePatientData(data: Dict): Option<Dict>
  {
    SanitizeAll(data, PatientForms)
  }

  lemma PatientFormsWellFormed()
    ensures DistinctFields(PatientForms) && Idempotent(PatientForms)
  {
    var f := PatientForms;
    assert f[0] == ("first_name", NameForm) && f[1] == ("last_name", NameForm) && f[2] == ("email", EmailForm);
    assert f[3] == ("phone", Validators.DigitsOnly) && f[4] == ("mrn", MrnForm);
    assert f[0].0[0] == 'f' && f[1].0[0] == 'l' && f[2].0[0] == 'e' && f[3].0[0] == 'p' && f[4].0[0] == 'm';
    forall i, x | 0 <= i < |f| ensures f[i].1(f[i].1(x)) == f[i].1(x) {
      if i <= 1 {
        NameFormIdempotent(x);
      } else if i == 2 {
        LowerFormIdempotent(x);
      } else if i == 3 {
        Validators.DigitsOnlyIdempotent(Validators.DigitsOnly(x));
      } else {
        MrnFormIdempotent(x);
      }
    }
  }

  /** Sanitizing raises exactly when one of the five text fields is present but not a
      string (None included). */
  lemma SanitizePatientRaises(data: Dict)
    ensures SanitizePatientData(data).None? <==>
      WrongType(data, "first_name") || WrongType(data, "last_name") || WrongType(data, "email") ||
      WrongType(data, "phone") || WrongType(data, "mrn")
  {
    PatientFormsWellFormed();
    SanitizeAllRaises(data, PatientForms);
    if exists i :: 0 <= i < 5 && WrongType(data, PatientForms[i].0) {
      var i :| 0 <= i < 5 && WrongType(data, PatientForms[i].0);
      assert i in {0, 1, 2, 3, 4};
    }
    if WrongType(data, "first_name") { assert WrongType(data, PatientForms[0].0); }
    if WrongType(data, "last_name") { assert WrongType(data, PatientForms[1].0); }
    if WrongType(data, "email") { assert WrongType(data, PatientForms[2].0); }
    if WrongType(data, "phone") { assert WrongType(data, PatientForms[3].0); }
    if WrongType(data, "mrn") { assert WrongType(data, PatientForms[4].0); }
  }

  /** Keys other than the five keep their values. */
  lemma SanitizePatientKeepsOthers(data: Dict, k: string)
    requires SanitizePatientData(data).Some?
    requires k !in ["first_name", "last_name", "email", "phone", "mrn"]
    ensures Get(SanitizePatientData(data).value, k) == Get(data, k)
  {
    var forms := PatientForms;
    PatientFormsWellFormed();
    forall i | 0 <= i < |forms|
      ensures forms[i].0 != k
    {
      assert forms[i].0 in ["first_name", "last_name", "email", "phone", "mrn"];
    }
    SanitizeAllGet(data, forms, k);
    SanitizedElsewhere(data, forms, k);
  }

  /** A present MRN ends up stripped and upper-cased, a present phone as its digits. */
  lemma SanitizePatientMrnAndPhone(data: Dict)
    requires SanitizePatientData(data).Some?
    ensures Has(data, "mrn") ==>
              Get(data, "mrn").value.VStr? &&
              Get(SanitizePatientData(data).value, "mrn") == Some(VStr(MrnForm(Get(data, "mrn").value.s)))
    ensures Has(data, "phone") ==>
              Get(data, "phone").value.VStr? &&
              Get(SanitizePatientData(data).value, "phone") == Some(VStr(Validators.DigitsOnly(Get(data, "phone").value.s)))
  {
    PatientFormsWellFormed();
    SanitizeAllRaises(data, PatientForms);
    if Has(data, "mrn") {
      assert !WrongType(data, PatientForms[4].0);
      SanitizeAllGet(data, PatientForms, "mrn");
      SanitizedAt(data, PatientForms, 4);
    }
    if Has(data, "phone") {
      assert !WrongType(data, PatientForms[3].0);
      SanitizeAllGet(data, PatientForms, "phone");
      SanitizedAt(data, PatientForms, 3);
    }
  }

  /** Sanitizing patient data twice is sanitizing it once. */
  lemma SanitizePatientIdempotent(data: Dict)
    requires SanitizePatientData(data).Some?
    ensures SanitizePatientData(SanitizePatientData(data).value) == SanitizePatientData(data)
  {
    PatientFormsWellFormed();
    SanitizeAllIdempotent(data, PatientForms);
  }

  /** Sanitizing does not change whether the MRN, phone and names pass their checks. */
  lemma SanitizingKeepsPatientValidity(mrn: string, phone: string, name: string)
    ensures Validators.ValidMrn(MrnForm(mrn)) <==> Validators.ValidMrn(mrn)
    ensures Validators.ValidPhone(Validators.DigitsOnly(phone)) <==> Validators.ValidPhone(phone)
    ensures Validators.ValidName(NameForm(name)) <==> Validators.ValidName(name)
  {
    Validators.MrnValidAfterSanitizing(mrn);
    Validators.PhoneValidAfterSanitizing(phone);
    NameValidAfterSanitizing(name);
  }

  // ---------------------------------------------------------------------------
  // sanitize_medical_record

  /** Title and content stripped, record type and department stripped and lower-cased. */
  const MedicalRecordForms: seq<Form> :=
    [("title", Strip), ("content", Strip), ("record_type", LowerForm), ("department", LowerForm)]

  function SanitizeMedicalRecord(data: Dict): Option<Dict>
  {
    SanitizeAll(data, MedicalRecordForms)
  }

  lemma StripIdempotent(s: string)
    ensures Strip(Strip(s)) == Strip(s)
  {
    StripNoop(Strip(s));
  }

  /** Sanitizing a medical record twice is sanitizing it once. */
  lemma SanitizeMedicalRecordIdempotent(data: Dict)
    requires SanitizeMedicalRecord(data).Some?
    ensures SanitizeMedicalRecord(SanitizeMedicalRecord(data).value) == SanitizeMedicalRecord(data)
  {
    MedicalRecordFormsWellFormed();
    SanitizeAllIdempotent(data, MedicalRecordForms);
  }

  lemma MedicalRecordFormsWellFormed()
    ensures DistinctFields(MedicalRecordForms) && Idempotent(MedicalRecordForms)
  {
    var f := MedicalRecordForms;
    assert f[0] == ("title", Strip) && f[1] == ("content", Strip);
    assert f[2] == ("record_type", LowerForm) && f[3] == ("department", LowerForm);
    assert f[0].0[0] == 't' && f[1].0[0] == 'c' && f[2].0[0] == 'r' && f[3].0[0] == 'd';
    forall i, x | 0 <= i < |f| ensures f[i].1(f[i].1(x)) == f[i].1(x) {
      if i <= 1 {
        StripIdempotent(x);
      } else {
        LowerFormIdempotent(x);
      }
    }
  }

  /** The record-type check lower-cases but does not strip, so a padded valid type is
      rejected raw and accepted once sanitized. */
  lemma SanitizingRepairsPaddedRecordType()
    ensures Lower(" note") !in Validators.RecordTypes
    ensures Lower(LowerForm(" note")) in Validators.RecordTypes
  {
    assert Strip(" note") == "note";
    LowerNoUpper("note");
  }

  // ---------------------------------------------------------------------------
  // sanitize_vital_signs

  const NumericFields: seq<string> := ["heart_rate", "systolic_bp", "diastolic_bp", "temperature",
    "oxygen_saturation", "respiratory_rate", "blood_glucose", "pain_level"]

  /** `float(v)`, or None when it raises. */
  function FloatOrNone(v: Value): (r: Value)
    ensures r == VNone || r.VReal?
  {
    match ToFloat(v)
    case Some(x) => VReal(x)
    case None => VNone
  }

  /** What the sanitized dictionary holds at key k. */
  function SanitizedVital(data: Dict, k: string): Option<Value>
  {
    if k in NumericFields && HasNonNull(data, k) then Some(FloatOrNone(Get(data, k).value)) else Get(data, k)
  }

  method SanitizeVitalSigns(data: Dict) returns (r: Dict)
    ensures forall k :: Get(r, k) == SanitizedVital(data, k)
    ensures KeysOf(r) == KeysOf(data)
  {
    NumericFieldsDistinct();
    r := SanitizeFields(data, NumericFields);
  }

  lemma NumericFieldsDistinct()
    ensures NoDuplicates(NumericFields)
  {
    var f := NumericFields;
    assert f[0][0] == 'h' && f[1][0] == 's' && f[2][0] == 'd' && f[3][0] == 't';
    assert f[4][0] == 'o' && f[5][0] == 'r' && f[6][0] == 'b' && f[7][0] == 'p';
  }

  /** The loop over the numeric fields: each one present and not None is replaced by
      its float() value, or None when that raises. */
  method SanitizeFields(data: Dict, fields: seq<string>) returns (r: Dict)
    requires NoDuplicates(fields)
    ensures forall k :: Get(r, k) ==
                        if k in fields && HasNonNull(data, k) then Some(FloatOrNone(Get(data, k).value)) else Get(data, k)
    ensures KeysOf(r) == KeysOf(data)
  {
    r := data;
    for i := 0 to |fields|
      invariant forall k ::
        Get(r, k) == if k in fields[..i] && HasNonNull(data, k) then Some(FloatOrNone(Get(data, k).value)) else Get(data, k)
      invariant KeysOf(r) == KeysOf(data)
    {
      var field := fields[i];
      assert field !in fields[..i];
      assert fields[..i + 1] == fields[..i] + [field];
      if Has(r, field) && Get(r, field).value != VNone {
        var v := FloatOrNone(Get(r, field).value);
        PutKeys(r, field, v);
        r := Put(r, field, v);
      }
    }
    assert fields[..|fields|] == fields;
  }

  /** Sanitized vitals are numbers or None, and sanitizing them again changes nothing. */
  lemma SanitizedVitalsStable(data: Dict, k: string)
    requires k in NumericFields && HasNonNull(data, k)
    ensures SanitizedVital(data, k).value == VNone || SanitizedVital(data, k).value.VReal?
    ensures FloatOrNone(SanitizedVital(data, k).value) == SanitizedVital(data, k).value ||
      SanitizedVital(data, k).value == VNone
  {
  }

  // ---------------------------------------------------------------------------
  // ValidationResult

  /** `to_dict()`. */
  datatype ResultDict = ResultDict(isValid: bool, errors: seq<string>, warnings: seq<string>,
                                   errorCount: nat, warningCount: nat)

  /** The lines `  - item` of a list. */
  function Bullets(items: seq<string>): string
  {
    if items == [] then "" else Bullets(items[..|items| - 1]) + "  - " + items[|items| - 1] + "\n"
  }

  class ValidationResult {
    var isValid: bool
    var errors: seq<string>
    var warnings: seq<string>

    /** `errors or []`: a missing list is an empty one. */
    constructor (isValid: bool, errors: Option<seq<string>>, warnings: Option<seq<string>>)
      ensures this.isValid == isValid
      ensures this.errors == (if errors.Some? then errors.value else [])
      ensures this.warnings == (if warnings.Some? then warnings.value else [])
    {
      this.isValid := isValid;
      this.errors := if errors.Some? then errors.value else [];
      this.warnings := if warnings.Some? then warnings.value else [];
    }

    /** An error is appended and the result becomes invalid. */
    method AddError(error: string)
      modifies this
      ensures errors == old(errors) + [error] && !isValid && warnings == old(warnings)
    {
      errors := errors + [error];
      isValid := false;
    }

    /** A warning is appended; validity is untouched. */
    method AddWarning(warning: string)
      modifies this
      ensures warnings == old(warnings) + [warning] && isValid == old(isValid) && errors == old(errors)
    {
      warnings := warnings + [warning];
    }

    function ToDict(): (d: ResultDict)
      reads this
      ensures d.errorCount == |d.errors| && d.warningCount == |d.warnings|
      ensures d.isValid == isValid && d.errors == errors && d.warnings == warnings
    {
      ResultDict(isValid, errors, warnings, |errors|, |warnings|)
    }

    /** `__str__`. */
    function Render(): (r: string)
      reads this
      ensures StartsWith(r, "Validation Result: " + (if isValid then "VALID" else "INVALID") + "\n")
      ensures r == Lines(RenderLines(isValid, errors, warnings))
    {
      RenderText(isValid, errors, warnings)
    }
  }

  /** A counted heading and its bullet lines. */
  function Block(title: string, items: seq<string>): string
  {
    title + NatToString(|items|) + "):\n" + Bullets(items)
  }

  /** A status line, then the errors and the warnings, each block only when non-empty. */
  function RenderText(isValid: bool, errors: seq<string>, warnings: seq<string>): (r: string)
    ensures StartsWith(r, "Validation Result: " + (if isValid then "VALID" else "INVALID") + "\n")
    ensures r == Lines(RenderLines(isValid, errors, warnings))
  {
    var head := "Validation Result: " + (if isValid then "VALID" else "INVALID") + "\n";
    var eb := if errors == [] then "" else Block("Errors (", errors);
    var wb := if warnings == [] then "" else Block("Warnings (", warnings);
    var r := head + eb + wb;
    assert r[..|head|] == head;
    BlockAsLines("Errors (", errors);
    BlockAsLines("Warnings (", warnings);
    var el := if errors == [] then [] else BlockLineList("Errors (", errors);
    var wl := if warnings == [] then [] else BlockLineList("Warnings (", warnings);
    LinesAppend(["Validation Result: " + (if isValid then "VALID" else "INVALID")], el);
    LinesAppend(["Validation Result: " + (if isValid then "VALID" else "INVALID")] + el, wl);
    r
  }

  /** Lines, each ended by a line break. */
  function Lines(ls: seq<string>): string
  {
    if ls == [] then "" else ls[0] + "\n" + Lines(ls[1..])
  }

  /** The item lines of a block: `  - item` for each item, in order. */
  function BulletItems(items: seq<string>): (r: seq<string>)
    ensures |r| == |items| && forall i :: 0 <= i < |items| ==> r[i] == "  - " + items[i]
  {
    seq(|items|, i requires 0 <= i < |items| => "  - " + items[i])
  }

  /** A block's lines: its counted heading and its item lines. */
  function BlockLineList(title: string, items: seq<string>): seq<string>
  {
    [title + NatToString(|items|) + "):"] + BulletItems(items)
  }

  /** The lines `__str__` prints, without their line breaks: the status, then
      "Errors (n):" and one "  - e" per error when there are errors, then the same for
      the warnings. */
  function RenderLines(isValid: bool, errors: seq<string>, warnings: seq<string>): seq<string>
  {
    ["Validation Result: " + (if isValid then "VALID" else "INVALID")] +
    (if errors == [] then [] else BlockLineList("Errors (", errors)) +
    (if warnings == [] then [] else BlockLineList("Warnings (", warnings))
  }

  lemma {:induction false} LinesAppend(a: seq<string>, b: seq<string>)
    ensures Lines(a + b) == Lines(a) + Lines(b)
  {
    if a != [] {
      assert (a + b)[0] == a[0] && (a + b)[1..] == a[1..] + b;
      LinesAppend(a[1..], b);
      assert Lines(a + b) == a[0] + "\n" + (Lines(a[1..]) + Lines(b));
    } else {
      assert a + b == b;
    }
  }

  /** The bullet text is the item lines, each ended by a line break. */
  lemma {:induction false} BulletsAsLines(items: seq<string>)
    ensures Bullets(items) == Lines(BulletItems(items))
  {
    if items != [] {
      var init := items[..|items| - 1];
      BulletsAsLines(init);
      assert BulletItems(items) == BulletItems(init) + ["  - " + items[|items| - 1]];
      LinesAppend(BulletItems(init), ["  - " + items[|items| - 1]]);
    }
  }

  lemma BlockAsLines(title: string, items: seq<string>)
    ensures Block(title, items) == Lines(BlockLineList(title, items))
  {
    BulletsAsLines(items);
    LinesAppend([title + NatToString(|items|) + "):"], BulletItems(items));
  }

  /** Splitting lines that hold no line break on '\n' gives them back, followed by
      the empty piece after the last break. */
  lemma {:induction false} SplitLines(ls: seq<string>)
    requires forall i :: 0 <= i < |ls| ==> '\n' !in ls[i]
    ensures Split(Lines(ls), '\n') == ls + [""]
  {
    if ls != [] {
      var s := Lines(ls);
      var i := |ls[0]|;
      assert s == ls[0] + "\n" + Lines(ls[1..]);
      assert s[i] == '\n' && s[..i] == ls[0];
      assert IndexOf(s, '\n') == Some(i);
      assert s[i + 1..] == Lines(ls[1..]);
      SplitLines(ls[1..]);
      assert ls + [""] == [ls[0]] + (ls[1..] + [""]);
    }
  }

  /** When no message spans lines, `__str__` splits on '\n' into exactly the status
      line, the counted headings and one "  - " line per error and warning, in order. */
  lemma RenderSplits(isValid: bool, errors: seq<string>, warnings: seq<string>)
    requires OneLine(errors) && OneLine(warnings)
    ensures Split(RenderText(isValid, errors, warnings), '\n') == RenderLines(isValid, errors, warnings) + [""]
  {
    var ls := RenderLines(isValid, errors, warnings);
    forall i | 0 <= i < |ls| ensures '\n' !in ls[i] {
      NoBreakInLine(isValid, errors, warnings, i);
    }
    SplitLines(ls);
  }

  lemma NoBreakInLine(isValid: bool, errors: seq<string>, warnings: seq<string>, i: int)
    requires OneLine(errors) && OneLine(warnings)
    requires 0 <= i < |RenderLines(isValid, errors, warnings)|
    ensures '\n' !in RenderLines(isValid, errors, warnings)[i]
  {
    var head := ["Validation Result: " + (if isValid then "VALID" else "INVALID")];
    var el := if errors == [] then [] else BlockLineList("Errors (", errors);
    var wl := if warnings == [] then [] else BlockLineList("Warnings (", warnings);
    assert RenderLines(isValid, errors, warnings) == head + el + wl;
    if i == 0 {
    } else if i < 1 + |el| {
      BlockLineNoBreak("Errors (", errors, i - 1);
    } else {
      BlockLineNoBreak("Warnings (", warnings, i - 1 - |el|);
    }
  }

  lemma BlockLineNoBreak(title: string, items: seq<string>, k: int)
    requires '\n' !in title && OneLine(items) && 0 <= k < 1 + |items|
    ensures '\n' !in BlockLineList(title, items)[k]
  {
    if k == 0 {
      assert '\n' !in NatToString(|items|);
    } else {
      assert BlockLineList(title, items)[k] == "  - " + items[k - 1];
    }
  }

  predicate OneLine(items: seq<string>)
  {
    forall i :: 0 <= i < |items| ==> '\n' !in items[i]
  }

  /** Each single-line item renders as exactly one line. */
  lemma {:induction false} BulletsLines(items: seq<string>)
    requires OneLine(items)
    ensures Count(Bullets(items), '\n') == |items|
  {
    if items != [] {
      var init := items[..|items| - 1];
      var last := items[|items| - 1];
      BulletsLines(init);
      assert Bullets(items) == Bullets(init) + ("  - " + last + "\n");
      CountAppend(Bullets(init), "  - " + last + "\n", '\n');
      CountAppend("  - " + last, "\n", '\n');
      CountAppend("  - ", last, '\n');
      CountAbsent(last, '\n');
    }
  }

  /** Renders as one status line, plus a heading and a line per item for each
      non-empty block, when no message spans lines. */
  lemma RenderLineCount(isValid: bool, errors: seq<string>, warnings: seq<string>)
    requires OneLine(errors) && OneLine(warnings)
    ensures Count(RenderText(isValid, errors, warnings), '\n') ==
      1 + (if errors == [] then 0 else 1 + |errors|) + (if warnings == [] then 0 else 1 + |warnings|)
  {
    var status := "Validation Result: " + (if isValid then "VALID" else "INVALID");
    var head := status + "\n";
    var eb := if errors == [] then "" else Block("Errors (", errors);
    var wb := if warnings == [] then "" else Block("Warnings (", warnings);
    assert '\n' !in status;
    CountAbsent(status, '\n');
    CountAppend(status, "\n", '\n');
    CountAppend(head + eb, wb, '\n');
    CountAppend(head, eb, '\n');
    if errors != [] {
      BlockLines("Errors (", errors);
    }
    if warnings != [] {
      BlockLines("Warnings (", warnings);
    }
  }

  lemma BlockLines(title: string, items: seq<string>)
    requires '\n' !in title && OneLine(items)
    ensures Count(Block(title, items), '\n') == 1 + |items|
  {
    var pre := title + NatToString(|items|) + "):";
    assert '\n' !in pre;
    assert Block(title, items) == (pre + "\n") + Bullets(items);
    BulletsLines(items);
    CountAbsent(pre, '\n');
    CountAppend(pre, "\n", '\n');
    CountAppend(pre + "\n", Bullets(items), '\n');
  }
}
