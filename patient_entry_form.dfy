/** The patient registration form: the chain of checks `process_patient_entry`
    runs on a submitted form before it stores the patient. The database lookup for
    an existing patient and the date parse are parameters; rendering the page is
    not part of the model. */
module PatientEntryForm {
  import opened Common

  /** The fields that must be filled in, in the order they are declared. The two
      insurance fields and the MRN are not among them. */
  const RequiredFields: seq<string> := [
    "first_name", "last_name", "date_of_birth", "gender", "phone", "email", "address",
    "emergency_contact_name", "emergency_contact_relationship", "emergency_contact_phone"
  ]

  const Genders: seq<string> := ["Male", "Female", "Other"]

  /** A submitted form: `request.form.get(k)` is `form[k]` when present, else None. */
  type Form = map<string, string>

  predicate Filled(form: Form, k: string) { k in form && form[k] != "" }

  /** The required fields left empty or absent, in declaration order. */
  function MissingFields(form: Form, fields: seq<string>): (r: seq<string>)
    ensures forall k :: k in r <==> k in fields && !Filled(form, k)
    ensures |r| <= |fields|
  {
    if fields == [] then []
    else (if Filled(form, fields[0]) then [] else [fields[0]]) + MissingFields(form, fields[1..])
  }

  /** The page the form returns: the first check that fails, or the registration. */
  datatype Outcome =
    | Missing(fields: seq<string>)
    | InvalidEmail
    | InvalidGender
    | AlreadyExists
    | DateError
    | KeywordRejected
    | Registered(message: string)

  /** The message shown on the page for each outcome. */
  function OutcomeMessage(o: Outcome): string {
    match o
    case Missing(fields) => "Missing required fields: " + JoinWith(fields, ", ")
    case InvalidEmail => "Invalid email format"
    case InvalidGender => "Invalid gender selection"
    case AlreadyExists => "Patient with this MRN or email already exists"
    case DateError => "Error registering patient: invalid date_of_birth"
    case KeywordRejected => "Error registering patient: " + PatientKeywordError
    case Registered(m) => m
  }

  predicate EmailLooksValid(email: string) { '@' in email && '.' in email }

  /** The text a field shows: Python formats a missing field as "None". */
  function Shown(form: Form, k: string): string { if k in form then form[k] else "None" }

  /** `process_patient_entry`: missing fields first, then the email, then the gender,
      then an existing patient with the same MRN or email (`duplicate`), then the date
      of birth (`dateParses`); the first failure is the answer. */
  function ProcessPatientEntry(form: Form, duplicate: bool, dateParses: bool): (r: Outcome)
    ensures r.Missing? <==> MissingFields(form, RequiredFields) != []
    ensures r.InvalidEmail? <==> MissingFields(form, RequiredFields) == [] && !EmailLooksValid(Shown(form, "email"))
    ensures r.InvalidGender? <==>
              MissingFields(form, RequiredFields) == [] && EmailLooksValid(Shown(form, "email")) && Shown(form, "gender") !in Genders
    ensures r.AlreadyExists? <==>
              MissingFields(form, RequiredFields) == [] && EmailLooksValid(Shown(form, "email")) && Shown(form, "gender") in Genders && duplicate
    ensures r.Registered? <==>
              MissingFields(form, RequiredFields) == [] && EmailLooksValid(Shown(form, "email")) && Shown(form, "gender") in Genders
              && !duplicate && dateParses
  {
    var missing := MissingFields(form, RequiredFields);
    if missing != [] then Missing(missing)
    else
      var email, gender := Shown(form, "email"), Shown(form, "gender");
      if '@' !in email || '.' !in email then InvalidEmail
      else if gender !in Genders then InvalidGender
      else if duplicate then AlreadyExists
      else if !dateParses then DateError
      else Registered("Patient " + Shown(form, "first_name") + " " + Shown(form, "last_name")
                      + " registered successfully with MRN: " + Shown(form, "mrn"))
  }

  /** The TypeError of the `Patient(...)` call: its keyword arguments are checked in
      order, and the first one the Patient table has no column for is
      'emergency_contact_name' (the table has `emergency_contact` and `insurance_info`). */
  const PatientKeywordError := "'emergency_contact_name' is an invalid keyword argument for Patient"

  /** `process_patient_entry` as the source stands. The date of birth is parsed while
      the arguments of `Patient(...)` are evaluated, so a bad date still gives its own
      error; past that, the constructor rejects the five emergency-contact and
      insurance keywords, and the page shows that error instead of the registration. */
  function ProcessPatientEntryAsWritten(form: Form, duplicate: bool, dateParses: bool): (r: Outcome)
    ensures !r.Registered?
    ensures r.KeywordRejected? <==> ProcessPatientEntry(form, duplicate, dateParses).Registered?
    ensures !r.KeywordRejected? ==> r == ProcessPatientEntry(form, duplicate, dateParses)
  {
    var intended := ProcessPatientEntry(form, duplicate, dateParses);
    if intended.Registered? then KeywordRejected else intended
  }

  /** A field outside the required list never affects which fields are missing. */
  lemma {:induction false} MissingIgnoresOthers(form: Form, fields: seq<string>, k: string, v: string)
    requires k !in fields
    ensures MissingFields(form[k := v], fields) == MissingFields(form, fields)
  {
    if fields != [] {
      MissingIgnoresOthers(form, fields[1..], k, v);
    }
  }

  /** The insurance fields are optional: whatever they hold, the outcome is the same. */
  lemma InsuranceOptional(form: Form, duplicate: bool, dateParses: bool, k: string, v: string)
    requires k == "insurance_provider" || k == "insurance_policy_number"
    ensures ProcessPatientEntry(form[k := v], duplicate, dateParses) == ProcessPatientEntry(form, duplicate, dateParses)
  {
    MissingIgnoresOthers(form, RequiredFields, k, v);
  }

  /** Gender is compared exactly: 'male' is refused even when everything else is valid. */
  lemma GenderCaseSensitive(form: Form, duplicate: bool, dateParses: bool)
    requires MissingFields(form, RequiredFields) == [] && EmailLooksValid(Shown(form, "email"))
    requires Shown(form, "gender") == "male"
    ensures ProcessPatientEntry(form, duplicate, dateParses) == InvalidGender
  {
  }
}
