/** The notification tools: the alert severity lookup, the choice of emergency,
    staff and patient recipients or channels, and the notifications fanned out
    to them. Sending, logging, the message texts and the timestamps are not part
    of the model. */
module NotificationTools {
  import opened Common
  import opened Models

  // ---------------------------------------------------------------------------
  // CreateAlertTool: severity string to AlertSeverity

  /** `severity_map.get(severity.lower(), AlertSeverity.MEDIUM)`. */
  function AlertSeverityOf(severity: string): (r: AlertSeverity)
    ensures r != Medium ==> SeverityValue(r) == Lower(severity)
    ensures Lower(severity) !in {"low", "medium", "high", "critical"} ==> r == Medium
  {
    SeverityFromKey(Lower(severity))
  }

  /** Case does not matter: a string and its lower-cased form map alike, and every
      severity is found from its stored value in any mixture of case. */
  lemma AlertSeverityIgnoresCase(severity: string, s: AlertSeverity)
    ensures AlertSeverityOf(Lower(severity)) == AlertSeverityOf(severity)
    ensures Lower(severity) == SeverityValue(s) ==> AlertSeverityOf(severity) == s
  {
    LowerIdempotent(severity);
    SeverityRoundTrip(s);
  }

  /** Two spellings of the stored values, and an unknown word. */
  lemma UpperCaseSeverityExample()
    ensures AlertSeverityOf("CRITICAL") == Critical
  {
    assert Lower("CRITICAL") == "critical";
  }

  lemma MixedCaseSeverityExample()
    ensures AlertSeverityOf("High") == High
  {
    assert Lower("High") == "high";
  }

  lemma UnknownSeverityExample()
    ensures AlertSeverityOf("severe") == Medium
  {
    assert Lower("severe") == "severe";
  }

  // ---------------------------------------------------------------------------
  // Notifications fanned out to a recipient list

  datatype Notification = Notification(recipient: string, messageType: Value, priority: Value)

  /** The result of an emergency or staff notification tool: the recipients, the
      notifications and their count, or the error of the except branch. */
  datatype Dispatch =
    | Dispatched(recipients: seq<string>, notifications: seq<Notification>, sent: nat)
    | DispatchFailed

  /** The `for recipient in recipients` loop: one notification per recipient, in order. */
  method FanOut(recipients: seq<string>, messageType: Value, priority: Value) returns (sent: seq<Notification>)
    ensures |sent| == |recipients|
    ensures forall i :: 0 <= i < |sent| ==> sent[i] == Notification(recipients[i], messageType, priority)
  {
    sent := [];
    for i := 0 to |recipients|
      invariant |sent| == i
      invariant forall j :: 0 <= j < i ==> sent[j] == Notification(recipients[j], messageType, priority)
    {
      sent := sent + [Notification(recipients[i], messageType, priority)];
    }
  }

  // ---------------------------------------------------------------------------
  // EmergencyNotificationTool

  const CoreTeam: seq<string> := ["emergency_team", "charge_nurse", "attending_physician"]
  const GeneralTeam: seq<string> := ["general_medical_team", "hospitalist"]

  /** The emergency kinds, each with the words that name it and the team it calls. */
  const EmergencyGroups: seq<(seq<string>, seq<string>)> := [
    (["cardiac", "heart attack", "chest pain"], ["cardiology_team", "cardiologist"]),
    (["respiratory", "breathing", "asthma"], ["respiratory_team", "pulmonologist"]),
    (["neurological", "stroke", "seizure"], ["neurology_team", "neurologist"]),
    (["trauma", "injury"], ["trauma_team", "surgeon"])
  ]

  /** `severity in ['critical', 'high']`. */
  predicate IsUrgent(severity: Value) {
    severity == VStr("critical") || severity == VStr("high")
  }

  /** The team of the first group naming the (lower-cased) emergency type, else the
      general medical team. */
  function TeamFor(groups: seq<(seq<string>, seq<string>)>, kind: string): (team: seq<string>)
    ensures (exists g :: 0 <= g < |groups| && kind in groups[g].0) ==>
              exists g :: 0 <= g < |groups| && team == groups[g].1 && kind in groups[g].0
    ensures (forall g :: 0 <= g < |groups| ==> kind !in groups[g].0) ==> team == GeneralTeam
  {
    if groups == [] then GeneralTeam
    else if kind in groups[0].0 then groups[0].1
    else
      var rest := TeamFor(groups[1..], kind);
      assert forall g :: 1 <= g < |groups| ==> groups[g] == groups[1..][g - 1];
      rest
  }

  function TypeTeam(kind: string): seq<string> { TeamFor(EmergencyGroups, kind) }

  /** Every team has two members, shares none with the core team, and is one of the
      five teams: exactly one kind-specific group or the general fallback. */
  lemma TypeTeamShape(kind: string)
    ensures |TypeTeam(kind)| == 2 && TypeTeam(kind)[0] != TypeTeam(kind)[1]
    ensures forall x :: x in TypeTeam(kind) ==> x !in CoreTeam
    ensures TypeTeam(kind) in [EmergencyGroups[0].1, EmergencyGroups[1].1, EmergencyGroups[2].1,
                               EmergencyGroups[3].1, GeneralTeam]
    ensures TypeTeam(kind) == GeneralTeam <==>
              kind !in EmergencyGroups[0].0 + EmergencyGroups[1].0 + EmergencyGroups[2].0 + EmergencyGroups[3].0
  {
    var groups := EmergencyGroups;
    if kind in groups[0].0 {
    } else if kind in groups[1].0 {
    } else if kind in groups[2].0 {
    } else if kind in groups[3].0 {
    } else {
      assert TypeTeam(kind) == GeneralTeam;
    }
  }

  /** The core team and any of the five teams share no member. */
  lemma RecipientsDistinct(urgent: bool, team: seq<string>)
    requires |team| == 2 && team[0] != team[1]
    requires forall x :: x in team ==> x !in CoreTeam
    ensures NoDuplicates((if urgent then CoreTeam else []) + team)
    ensures forall x :: x in (if urgent then CoreTeam else []) + team <==> (urgent && x in CoreTeam) || x in team
    ensures |(if urgent then CoreTeam else []) + team| == if urgent then 5 else 2
  {
    var all := (if urgent then CoreTeam else []) + team;
    forall i, j | 0 <= i < j < |all|
      ensures all[i] != all[j]
    {
      if urgent && j >= 3 && i < 3 {
        assert all[i] in CoreTeam && all[j] in team;
      }
    }
  }

  /** `_get_emergency_recipients`: the core team for a critical or high severity,
      then the team of the emergency type, with repeats removed. */
  method EmergencyRecipients(emergencyType: string, severity: Value) returns (recipients: seq<string>)
    ensures NoDuplicates(recipients)
    ensures forall x :: x in recipients <==> (IsUrgent(severity) && x in CoreTeam) || x in TypeTeam(Lower(emergencyType))
    ensures |recipients| == (if IsUrgent(severity) then 5 else 2)
  {
    recipients := [];
    if severity in [VStr("critical"), VStr("high")] {
      recipients := recipients + CoreTeam;
    }
    assert recipients == if IsUrgent(severity) then CoreTeam else [];
    var kind := Lower(emergencyType);
    var team := KindRecipients(kind);
    recipients := recipients + team;
    TypeTeamShape(kind);
    RecipientsDistinct(IsUrgent(severity), team);
    DedupNoop(recipients);
    recipients := Dedup(recipients);
  }

  /** The emergency type's branch of `_get_emergency_recipients`. */
  method KindRecipients(kind: string) returns (team: seq<string>)
    ensures team == TypeTeam(kind)
  {
    var groups := EmergencyGroups;
    if kind in ["cardiac", "heart attack", "chest pain"] {
      assert kind in groups[0].0;
      team := ["cardiology_team", "cardiologist"];
    } else if kind in ["respiratory", "breathing", "asthma"] {
      assert kind !in groups[0].0 && kind in groups[1].0;
      team := ["respiratory_team", "pulmonologist"];
    } else if kind in ["neurological", "stroke", "seizure"] {
      assert kind !in groups[0].0 && kind !in groups[1].0 && kind in groups[2].0;
      team := ["neurology_team", "neurologist"];
    } else if kind in ["trauma", "injury"] {
      assert kind !in groups[0].0 && kind !in groups[1].0 && kind !in groups[2].0 && kind in groups[3].0;
      team := ["trauma_team", "surgeon"];
    } else {
      TypeTeamShape(kind);
      team := ["general_medical_team", "hospitalist"];
    }
  }

  function EmergencyTypeOf(data: Dict): Value { GetOr(data, "emergency_type", VStr("unknown")) }
  function EmergencySeverityOf(data: Dict): Value { GetOr(data, "severity", VStr("high")) }

  /** `EmergencyNotificationTool._run`: fails when the type or the severity is not a
      string (`.lower()` and `.upper()` raise); otherwise one notification per
      recipient, all of priority 'critical' for a critical or high severity and
      'high' for any other. */
  method SendEmergencyNotification(data: Dict) returns (r: Dispatch)
    ensures r.DispatchFailed? <==> !EmergencyTypeOf(data).VStr? || !EmergencySeverityOf(data).VStr?
    ensures r.Dispatched? ==>
      var urgent := IsUrgent(EmergencySeverityOf(data));
      && NoDuplicates(r.recipients)
      && (forall x :: x in r.recipients <==>
            (urgent && x in CoreTeam) || x in TypeTeam(Lower(EmergencyTypeOf(data).s)))
      && r.sent == |r.notifications| == |r.recipients| == (if urgent then 5 else 2)
      && forall i :: 0 <= i < |r.notifications| ==>
           r.notifications[i] == Notification(r.recipients[i], VStr("emergency"),
                                              VStr(if urgent then "critical" else "high"))
  {
    var kind := EmergencyTypeOf(data);
    var severity := EmergencySeverityOf(data);
    if !kind.VStr? || !severity.VStr? {
      return DispatchFailed;
    }
    var recipients := EmergencyRecipients(kind.s, severity);
    var priority := if severity in [VStr("critical"), VStr("high")] then "critical" else "high";
    var sent := FanOut(recipients, VStr("emergency"), VStr(priority));
    r := Dispatched(recipients, sent, |sent|);
  }

  /** A missing severity counts as 'high': five recipients, all notified as critical. */
  lemma DefaultSeverityIsUrgent(data: Dict)
    requires !Has(data, "severity")
    ensures IsUrgent(EmergencySeverityOf(data))
  {
  }

  // ---------------------------------------------------------------------------
  // StaffNotificationTool

  /** The roles with a team of their own; any other role reaches the general staff. */
  const RoleTeams: seq<(string, seq<string>)> := [
    ("nurse", ["charge_nurse", "floor_nurses"]),
    ("doctor", ["attending_physician", "resident_physicians"]),
    ("specialist", ["specialist_team", "consulting_physicians"])
  ]
  const GeneralStaff: seq<string> := ["general_staff", "healthcare_team"]

  /** The notification types that add a pair of recipients; other types add none. */
  const TypeExtras: seq<(string, seq<string>)> := [
    ("patient_alert", ["patient_care_team", "monitoring_staff"]),
    ("schedule_change", ["scheduling_staff", "department_heads"]),
    ("emergency", ["emergency_team", "rapid_response_team"])
  ]

  function RoleTeam(role: Value): seq<string> {
    if role.VStr? && LookupTable(RoleTeams, role.s).Some? then LookupTable(RoleTeams, role.s).value
    else GeneralStaff
  }

  function TypeExtra(kind: Value): seq<string> {
    if kind.VStr? && LookupTable(TypeExtras, kind.s).Some? then LookupTable(TypeExtras, kind.s).value
    else []
  }

  function LookupTable(t: seq<(string, seq<string>)>, k: string): (r: Option<seq<string>>)
    ensures r.Some? <==> exists i :: 0 <= i < |t| && t[i].0 == k
    ensures r.Some? ==> exists i :: 0 <= i < |t| && t[i] == (k, r.value)
  {
    if t == [] then None
    else if t[0].0 == k then Some(t[0].1)
    else
      var rest := LookupTable(t[1..], k);
      assert forall i :: 1 <= i < |t| ==> t[i] == t[1..][i - 1];
      rest
  }

  /** The role always contributes exactly one of the four teams; the type adds at
      most one pair; and the two never share a member. */
  lemma StaffGroupsShape(role: Value, kind: Value)
    ensures RoleTeam(role) in [RoleTeams[0].1, RoleTeams[1].1, RoleTeams[2].1, GeneralStaff]
    ensures TypeExtra(kind) in [[], TypeExtras[0].1, TypeExtras[1].1, TypeExtras[2].1]
    ensures NoDuplicates(RoleTeam(role) + TypeExtra(kind))
  {
    RoleTeamIn(role);
    TypeExtraIn(kind);
    TeamsDisjoint(RoleTeam(role), TypeExtra(kind));
  }

  lemma RoleTeamIn(role: Value)
    ensures RoleTeam(role) in [RoleTeams[0].1, RoleTeams[1].1, RoleTeams[2].1, GeneralStaff]
  {
    var roles := RoleTeams;
    if role.VStr? && LookupTable(roles, role.s).Some? {
      var i :| 0 <= i < |roles| && roles[i] == (role.s, LookupTable(roles, role.s).value);
      assert i == 0 || i == 1 || i == 2;
    }
  }

  lemma TypeExtraIn(kind: Value)
    ensures TypeExtra(kind) in [[], TypeExtras[0].1, TypeExtras[1].1, TypeExtras[2].1]
  {
    var extras := TypeExtras;
    if kind.VStr? && LookupTable(extras, kind.s).Some? {
      var i :| 0 <= i < |extras| && extras[i] == (kind.s, LookupTable(extras, kind.s).value);
      assert i == 0 || i == 1 || i == 2;
    }
  }

  /** No role team shares a member with a type's pair. */
  lemma TeamsDisjoint(team: seq<string>, extra: seq<string>)
    requires team in [RoleTeams[0].1, RoleTeams[1].1, RoleTeams[2].1, GeneralStaff]
    requires extra in [[], TypeExtras[0].1, TypeExtras[1].1, TypeExtras[2].1]
    ensures NoDuplicates(team + extra)
  {
    var roles, extras := RoleTeams, TypeExtras;
    assert roles[0].1 == ["charge_nurse", "floor_nurses"];
    assert roles[1].1 == ["attending_physician", "resident_physicians"];
    assert roles[2].1 == ["specialist_team", "consulting_physicians"];
    assert extras[0].1 == ["patient_care_team", "monitoring_staff"];
    assert extras[1].1 == ["scheduling_staff", "department_heads"];
    assert extras[2].1 == ["emergency_team", "rapid_response_team"];
  }

  /** The role tables read out: one team per named role, the general staff otherwise. */
  lemma RoleTeamCases(role: Value)
    ensures role == VStr("nurse") ==> RoleTeam(role) == ["charge_nurse", "floor_nurses"]
    ensures role == VStr("doctor") ==> RoleTeam(role) == ["attending_physician", "resident_physicians"]
    ensures role == VStr("specialist") ==> RoleTeam(role) == ["specialist_team", "consulting_physicians"]
    ensures role !in [VStr("nurse"), VStr("doctor"), VStr("specialist")] ==> RoleTeam(role) == GeneralStaff
  {
    var t := RoleTeams;
    assert t[0].0 == "nurse" && t[1].0 == "doctor" && t[2].0 == "specialist";
    if role.VStr? && LookupTable(t, role.s).Some? {
      var i :| 0 <= i < |t| && t[i] == (role.s, LookupTable(t, role.s).value);
      assert i == 0 || i == 1 || i == 2;
    }
  }

  /** The type table read out: a pair for each of the three types, nothing otherwise. */
  lemma TypeExtraCases(kind: Value)
    ensures kind == VStr("patient_alert") ==> TypeExtra(kind) == ["patient_care_team", "monitoring_staff"]
    ensures kind == VStr("schedule_change") ==> TypeExtra(kind) == ["scheduling_staff", "department_heads"]
    ensures kind == VStr("emergency") ==> TypeExtra(kind) == ["emergency_team", "rapid_response_team"]
    ensures kind !in [VStr("patient_alert"), VStr("schedule_change"), VStr("emergency")] ==> TypeExtra(kind) == []
  {
    var t := TypeExtras;
    assert t[0].0 == "patient_alert" && t[1].0 == "schedule_change" && t[2].0 == "emergency";
    if kind.VStr? && LookupTable(t, kind.s).Some? {
      var i :| 0 <= i < |t| && t[i] == (kind.s, LookupTable(t, kind.s).value);
      assert i == 0 || i == 1 || i == 2;
    }
  }

  /** `_get_staff_recipients`: the team of the role, then the pair of the
      notification type, with repeats removed. */
  method StaffRecipients(role: Value, kind: Value) returns (recipients: seq<string>)
    ensures NoDuplicates(recipients)
    ensures forall x :: x in recipients <==> x in RoleTeam(role) || x in TypeExtra(kind)
    ensures |recipients| == 2 + |TypeExtra(kind)|
  {
    recipients := [];
    var team := RoleRecipients(role);
    recipients := recipients + team;
    var extra := TypeRecipients(kind);
    recipients := recipients + extra;
    assert recipients == RoleTeam(role) + TypeExtra(kind);
    StaffGroupsShape(role, kind);
    DedupNoop(recipients);
    recipients := Dedup(recipients);
  }

  /** The role's branch of `_get_staff_recipients`. */
  method RoleRecipients(role: Value) returns (team: seq<string>)
    ensures team == RoleTeam(role) && |team| == 2
  {
    RoleTeamCases(role);
    if role == VStr("nurse") {
      team := ["charge_nurse", "floor_nurses"];
    } else if role == VStr("doctor") {
      team := ["attending_physician", "resident_physicians"];
    } else if role == VStr("specialist") {
      team := ["specialist_team", "consulting_physicians"];
    } else {
      team := ["general_staff", "healthcare_team"];
    }
  }

  /** The notification type's branch of `_get_staff_recipients`. */
  method TypeRecipients(kind: Value) returns (extra: seq<string>)
    ensures extra == TypeExtra(kind)
  {
    TypeExtraCases(kind);
    if kind == VStr("patient_alert") {
      extra := ["patient_care_team", "monitoring_staff"];
    } else if kind == VStr("schedule_change") {
      extra := ["scheduling_staff", "department_heads"];
    } else if kind == VStr("emergency") {
      extra := ["emergency_team", "rapid_response_team"];
    } else {
      extra := [];
    }
  }

  function StaffRoleOf(data: Dict): Value { GetOr(data, "staff_role", VStr("general")) }
  function StaffTypeOf(data: Dict): Value { GetOr(data, "notification_type", VStr("general")) }
  function StaffPriorityOf(data: Dict): Value { GetOr(data, "priority", VStr("normal")) }

  /** `StaffNotificationTool._run`: fails only for a patient alert whose priority is
      not a string (the alert text calls `.upper()` on it); otherwise every recipient
      gets one notification carrying the request's type and priority. */
  method SendStaffNotification(data: Dict) returns (r: Dispatch)
    ensures r.DispatchFailed? <==> StaffTypeOf(data) == VStr("patient_alert") && !StaffPriorityOf(data).VStr?
    ensures r.Dispatched? ==>
      && NoDuplicates(r.recipients)
      && (forall x :: x in r.recipients <==> x in RoleTeam(StaffRoleOf(data)) || x in TypeExtra(StaffTypeOf(data)))
      && r.sent == |r.notifications| == |r.recipients|
      && forall i :: 0 <= i < |r.notifications| ==>
           r.notifications[i] == Notification(r.recipients[i], StaffTypeOf(data), StaffPriorityOf(data))
  {
    var role, kind, priority := StaffRoleOf(data), StaffTypeOf(data), StaffPriorityOf(data);
    var recipients := StaffRecipients(role, kind);
    if kind == VStr("patient_alert") && !priority.VStr? {
      return DispatchFailed;
    }
    var sent := FanOut(recipients, kind, priority);
    r := Dispatched(recipients, sent, |sent|);
  }

  /** A nurse receiving an emergency notice reaches four distinct recipients. */
  lemma NurseEmergencyExample()
    ensures RoleTeam(VStr("nurse")) + TypeExtra(VStr("emergency")) ==
            ["charge_nurse", "floor_nurses", "emergency_team", "rapid_response_team"]
  {
    RoleTeamCases(VStr("nurse"));
    TypeExtraCases(VStr("emergency"));
  }

  // ---------------------------------------------------------------------------
  // PatientNotificationTool

  datatype PatientSend = PatientSent(channels: seq<Value>) | NoContact(patientId: Value)

  /** The contact record read from the patient table: the stored email and phone,
      the full name and the fixed preference 'email'. */
  function StoredContact(email: Value, phone: Value, name: string): Dict
  {
    [("email", email), ("phone", phone), ("name", VStr(name)), ("preferred_contact", VStr("email"))]
  }

  function Bit(b: bool): nat { if b then 1 else 0 }

  /** The channels chosen for a contact record: 'email' when the email is truthy,
      'sms' when the phone is, then the preferred channel when it is, in that order. */
  ghost predicate ChannelsFit(contact: Dict, channels: seq<Value>) {
    var e, p, q := HasTruthy(contact, "email"), HasTruthy(contact, "phone"), HasTruthy(contact, "preferred_contact");
    && |channels| == Bit(e) + Bit(p) + Bit(q)
    && (e ==> channels[0] == VStr("email"))
    && (p ==> channels[Bit(e)] == VStr("sms"))
    && (q ==> channels[Bit(e) + Bit(p)] == Get(contact, "preferred_contact").value)
  }

  /** `PatientNotificationTool._run` given the contact record the database lookup
      returned (None when the patient is unknown): no record, or an empty one, is the
      "No contact information found" error; otherwise the channels in order. */
  method SendPatientNotification(data: Dict, contact: Option<Dict>) returns (r: PatientSend)
    ensures r.NoContact? <==> contact.None? || contact.value == []
    ensures r.NoContact? ==> r.patientId == GetOr(data, "patient_id", VStr("unknown"))
    ensures r.PatientSent? ==> ChannelsFit(contact.value, r.channels)
  {
    if contact.None? || contact.value == [] {
      return NoContact(GetOr(data, "patient_id", VStr("unknown")));
    }
    var info := contact.value;
    var channels := [];
    if HasTruthy(info, "email") {
      channels := channels + [VStr("email")];
    }
    if HasTruthy(info, "phone") {
      channels := channels + [VStr("sms")];
    }
    if HasTruthy(info, "preferred_contact") {
      channels := channels + [Get(info, "preferred_contact").value];
    }
    r := PatientSent(channels);
  }

  /** With the stored preference 'email', a patient who has an email address is
      sent on the email channel twice: once for the address, once for the preference. */
  lemma {:induction false} StoredContactRepeatsEmail(email: Value, phone: Value, name: string, channels: seq<Value>)
    requires Truthy(email)
    requires ChannelsFit(StoredContact(email, phone, name), channels)
    ensures Count(channels, VStr("email")) == 2
    ensures |channels| == 2 + Bit(Truthy(phone))
  {
    var c := StoredContact(email, phone, name);
    assert Get(c, "email") == Some(email);
    assert Get(c, "phone") == Some(phone);
    assert Get(c[3..], "preferred_contact") == Some(VStr("email"));
    assert Get(c[2..], "preferred_contact") == Get(c[3..], "preferred_contact");
    assert Get(c[1..], "preferred_contact") == Get(c[2..], "preferred_contact");
    assert Get(c, "preferred_contact") == Get(c[1..], "preferred_contact");
    if Truthy(phone) {
      assert channels == [VStr("email"), VStr("sms"), VStr("email")];
      CountAppend([VStr("email")], [VStr("sms"), VStr("email")], VStr("email"));
      CountAppend([VStr("sms")], [VStr("email")], VStr("email"));
    } else {
      assert channels == [VStr("email"), VStr("email")];
      CountAppend([VStr("email")], [VStr("email")], VStr("email"));
    }
  }
}
