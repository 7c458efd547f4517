/** The enumerations of the data model (alert severity, appointment and patient status,
    triage level) as plain datatypes with their stored string values. */
module Models {
  import opened Common

  datatype AlertSeverity = Low | Medium | High | Critical

  function SeverityValue(s: AlertSeverity): string
  {
    match s
    case Low => "low"
    case Medium => "medium"
    case High => "high"
    case Critical => "critical"
  }

  /** `severity_map.get(key, AlertSeverity.MEDIUM)`: the exact stored value names
      its severity, and any other key falls back to MEDIUM. */
  function SeverityFromKey(key: string): (r: AlertSeverity)
    ensures r != Medium ==> SeverityValue(r) == key
    ensures key !in {"low", "medium", "high", "critical"} ==> r == Medium
  {
    if key == "low" then Low
    else if key == "high" then High
    else if key == "critical" then Critical
    else Medium
  }

  /** Every severity is recovered from its stored value. */
  lemma SeverityRoundTrip(s: AlertSeverity)
    ensures SeverityFromKey(SeverityValue(s)) == s
  {
  }

  datatype AppointmentStatus = Scheduled | Confirmed | Cancelled | Completed | NoShow

  function AppointmentStatusValue(s: AppointmentStatus): string
  {
    match s
    case Scheduled => "scheduled"
    case Confirmed => "confirmed"
    case Cancelled => "cancelled"
    case Completed => "completed"
    case NoShow => "no_show"
  }

  datatype PatientStatus = Admitted | Discharged | Transferred | Deceased | Pending

  function PatientStatusValue(s: PatientStatus): string
  {
    match s
    case Admitted => "admitted"
    case Discharged => "discharged"
    case Transferred => "transferred"
    case Deceased => "deceased"
    case Pending => "pending"
  }

  /** The triage level enumeration stores the strings "1" to "5". */
  function TriageLevelFromValue(v: string): (r: Option<nat>)
    ensures r.Some? ==> 1 <= r.value <= 5 && v == [('0' as int + r.value) as char]
    ensures r.None? <==> v !in {"1", "2", "3", "4", "5"}
  {
    if v == "1" then Some(1) else if v == "2" then Some(2) else if v == "3" then Some(3)
    else if v == "4" then Some(4) else if v == "5" then Some(5) else None
  }
}
