/** The deterministic part of the scheduling agent: the parse of the model's scheduling
    answer, the grid of free half-hour slots on one day, and the state change of a
    cancellation. Times are whole minutes since midnight of the requested day. */
module SchedulingAgent {
  import opened Common
  import opened Models
  import opened SectionParser

  const SchedulingHeaders: seq<Header> := [
    Header("RECOMMENDED_DATE:", SetText("recommended_date", false)),
    Header("RECOMMENDED_TIME:", SetText("recommended_time", false)),
    Header("ASSIGNED_DOCTOR:", SetText("assigned_doctor", false)),
    Header("ASSIGNED_ROOM:", SetText("assigned_room", false)),
    Header("DURATION:", SetInt("duration")),
    Header("PRIORITY:", SetText("priority", true)),
    Header("ALTERNATIVES:", OpenList("alternatives")),
    Header("NOTES:", SetText("notes", false))
  ]

  const SchedulingDefaults: Record := Record(
    map["recommended_date" := "", "recommended_time" := "", "assigned_doctor" := "",
        "assigned_room" := "", "priority" := "medium", "notes" := ""],
    map["duration" := 30],
    map["alternatives" := []])

  method ParseSchedulingResult(result: string) returns (scheduling: Record)
    ensures scheduling == Parse(SchedulingHeaders, SchedulingDefaults, result)
  {
    scheduling := ParseText(SchedulingHeaders, SchedulingDefaults, result);
  }

  lemma SchedulingTableFacts()
    ensures Targets(SchedulingHeaders, SchedulingDefaults)
    ensures SchedulingDefaults.texts.Keys ==
      {"recommended_date", "recommended_time", "assigned_doctor", "assigned_room", "priority", "notes"}
    ensures SchedulingDefaults.ints.Keys == {"duration"}
    ensures SchedulingDefaults.lists.Keys == {"alternatives"}
  {
  }

  lemma SchedulingLowerFacts()
    ensures LowersText(SchedulingHeaders, "priority")
    ensures Lower(SchedulingDefaults.texts["priority"]) == SchedulingDefaults.texts["priority"]
  {
    var d := SchedulingDefaults.texts;
    assert d["priority"] == "medium";
    LowerNoUpper(d["priority"]);
    var hs := SchedulingHeaders;
    assert hs[5].action == SetText("priority", true);
    assert hs[0].action.field == "recommended_date" && hs[1].action.field == "recommended_time";
    assert hs[2].action.field == "assigned_doctor" && hs[3].action.field == "assigned_room";
    assert !hs[4].action.SetText? && !hs[6].action.SetText? && hs[7].action.field == "notes";
    LowersTextAt(hs, "priority");
  }

  /** ALTERNATIVES is the only list; every other header is a scalar. */
  lemma SchedulingShape(result: string)
    ensures Parse(SchedulingHeaders, SchedulingDefaults, result).texts.Keys ==
      {"recommended_date", "recommended_time", "assigned_doctor", "assigned_room", "priority", "notes"}
    ensures Parse(SchedulingHeaders, SchedulingDefaults, result).ints.Keys == {"duration"}
    ensures Parse(SchedulingHeaders, SchedulingDefaults, result).lists.Keys == {"alternatives"}
  {
    SchedulingTableFacts();
    ParseKeepsFields(SchedulingHeaders, SchedulingDefaults, result);
  }

  /** The priority is always lower case, and the duration is 30 unless a line reads as an int. */
  lemma PriorityAndDuration(result: string)
    ensures Lower(TextOf(Parse(SchedulingHeaders, SchedulingDefaults, result), "priority")) ==
      TextOf(Parse(SchedulingHeaders, SchedulingDefaults, result), "priority")
    ensures IntOf(Parse(SchedulingHeaders, SchedulingDefaults, result), "duration") == 30 ||
      IntOnSomeLine(Split(result, '\n'), IntOf(Parse(SchedulingHeaders, SchedulingDefaults, result), "duration"))
  {
    SchedulingLowerFacts();
    ParseLowered(SchedulingHeaders, SchedulingDefaults, result, "priority");
    ParseIntDefaultOrLine(SchedulingHeaders, SchedulingDefaults, result, "duration");
  }

  // ---------------------------------------------------------------------------
  // _generate_available_slots

  const StartHour := 9
  const EndHour := 17
  const SlotDuration := 30

  /** An existing appointment, as its start and length in minutes. */
  datatype Booking = Booking(start: int, duration: int)

  datatype Slot = Slot(time: string, start: int, duration: int, available: bool)

  /** The k-th candidate start: 9:00, 9:30, ..., 16:30. */
  function CandidateStart(k: nat): int
  {
    StartHour * 60 + SlotDuration * k
  }

  const CandidateCount := (EndHour - StartHour) * 2

  /** The half-open overlap test of the source: slot_start < appt_end and slot_end > appt_start. */
  predicate Conflicts(slotStart: int, b: Booking)
  {
    slotStart < b.start + b.duration && slotStart + SlotDuration > b.start
  }

  predicate IsFree(slotStart: int, bookings: seq<Booking>)
  {
    forall j :: 0 <= j < |bookings| ==> !Conflicts(slotStart, bookings[j])
  }

  function TwoDigits(n: nat): string
    requires n < 100
  {
    [('0' as int + n / 10) as char, ('0' as int + n % 10) as char]
  }

  /** strftime('%H:%M') of a start within the day. */
  function TimeLabel(minutes: nat): string
    requires minutes < 24 * 60
  {
    TwoDigits(minutes / 60) + ":" + TwoDigits(minutes % 60)
  }

  function SlotAt(k: nat): Slot
    requires k < CandidateCount
  {
    Slot(TimeLabel(CandidateStart(k)), CandidateStart(k), SlotDuration, true)
  }

  /** The free slots among the first n candidates, in candidate order. */
  function FreeSlots(bookings: seq<Booking>, n: nat): seq<Slot>
    requires n <= CandidateCount
  {
    if n == 0 then []
    else FreeSlots(bookings, n - 1) + (if IsFree(CandidateStart(n - 1), bookings) then [SlotAt(n - 1)] else [])
  }

  /** The inner loop: scan the bookings, stopping at the first conflict. */
  method HasConflict(slotStart: int, bookings: seq<Booking>) returns (conflict: bool)
    ensures conflict <==> !IsFree(slotStart, bookings)
  {
    conflict := false;
    var j := 0;
    while j < |bookings|
      invariant 0 <= j <= |bookings|
      invariant forall q :: 0 <= q < j ==> !Conflicts(slotStart, bookings[q])
    {
      var appointmentEnd := bookings[j].start + bookings[j].duration;
      if slotStart < appointmentEnd && slotStart + SlotDuration > bookings[j].start {
        conflict := true;
        break;
      }
      j := j + 1;
    }
  }

  method GenerateAvailableSlots(bookings: seq<Booking>) returns (slots: seq<Slot>)
    ensures slots == FreeSlots(bookings, CandidateCount)
  {
    slots := [];
    var hour := StartHour;
    while hour < EndHour
      invariant StartHour <= hour <= EndHour
      invariant slots == FreeSlots(bookings, (hour - StartHour) * 2)
    {
      var minutes := [0, 30];
      var m := 0;
      var k := (hour - StartHour) * 2;
      while m < |minutes|
        invariant 0 <= m <= 2 && k == (hour - StartHour) * 2 + m
        invariant slots == FreeSlots(bookings, k)
      {
        var slot := SlotIfFree(bookings, hour * 60 + minutes[m], k);
        slots := slots + slot;
        m, k := m + 1, k + 1;
      }
      hour := hour + 1;
    }
  }

  /** One pass of the inner loop: the candidate at slotStart, the k-th, when no
      booking conflicts with it. */
  method SlotIfFree(bookings: seq<Booking>, slotStart: int, k: nat) returns (slot: seq<Slot>)
    requires k < CandidateCount && slotStart == CandidateStart(k)
    ensures slot == if IsFree(CandidateStart(k), bookings) then [SlotAt(k)] else []
  {
    var conflict := HasConflict(slotStart, bookings);
    if !conflict {
      slot := [Slot(TimeLabel(slotStart), slotStart, SlotDuration, true)];
    } else {
      slot := [];
    }
  }

  /** Every returned slot is one of the candidates, is free, lasts 30 minutes and is
      marked available. */
  lemma {:induction false} FreeSlotsSound(bookings: seq<Booking>, n: nat, s: Slot)
    requires n <= CandidateCount
    requires s in FreeSlots(bookings, n)
    ensures exists k :: 0 <= k < n && s.start == CandidateStart(k)
    ensures IsFree(s.start, bookings) && s.duration == SlotDuration && s.available
  {
    if n > 0 {
      if s in FreeSlots(bookings, n - 1) {
        FreeSlotsSound(bookings, n - 1, s);
      } else {
        assert s == SlotAt(n - 1);
      }
    }
  }

  /** Every free candidate is returned. */
  lemma {:induction false} FreeSlotsComplete(bookings: seq<Booking>, n: nat, k: nat)
    requires k < n <= CandidateCount
    requires IsFree(CandidateStart(k), bookings)
    ensures SlotAt(k) in FreeSlots(bookings, n)
  {
    if k < n - 1 {
      FreeSlotsComplete(bookings, n - 1, k);
    }
  }

  /** Slots come in strictly ascending start order. */
  lemma {:induction false} FreeSlotsAscending(bookings: seq<Booking>, n: nat)
    requires n <= CandidateCount
    ensures forall i, j :: 0 <= i < j < |FreeSlots(bookings, n)| ==>
      FreeSlots(bookings, n)[i].start < FreeSlots(bookings, n)[j].start
    ensures forall i :: 0 <= i < |FreeSlots(bookings, n)| ==> FreeSlots(bookings, n)[i].start < CandidateStart(n)
  {
    if n > 0 {
      FreeSlotsAscending(bookings, n - 1);
    }
  }

  /** With no appointments, all sixteen slots 9:00 ... 16:30 are free. */
  lemma {:induction false} NoBookingsAllFree(n: nat)
    requires n <= CandidateCount
    ensures |FreeSlots([], n)| == n
    ensures forall k :: 0 <= k < n ==> FreeSlots([], n)[k] == SlotAt(k)
  {
    if n > 0 {
      NoBookingsAllFree(n - 1);
    }
  }

  /** Intervals that merely touch do not conflict: a booking ending exactly at a slot's
      start, or starting exactly at its end, leaves the slot free. */
  lemma TouchingIsNoConflict(slotStart: int, b: Booking)
    requires b.start + b.duration == slotStart || b.start == slotStart + SlotDuration
    ensures !Conflicts(slotStart, b)
  {
  }

  // ---------------------------------------------------------------------------
  // cancel_appointment

  const DefaultCancelReason := "Patient request"

  class Appointment {
    var status: AppointmentStatus
    var notes: Option<string>
    var updatedAt: int

    constructor (status: AppointmentStatus, notes: Option<string>, createdAt: int)
      ensures this.status == status && this.notes == notes && this.updatedAt == createdAt
    {
      this.status := status;
      this.notes := notes;
      this.updatedAt := createdAt;
    }
  }

  /** The notes after cancelling: the reason first, then a blank line, then the old
      notes (or nothing). */
  function CancelledNotes(reason: string, notes: Option<string>): (r: string)
    ensures StartsWith(r, "Cancelled: " + reason + "\n\n")
    ensures notes.Some? ==> EndsWith(r, notes.value)
    ensures |r| == 13 + |reason| + (if notes.Some? then |notes.value| else 0)
  {
    var rest := if notes.Some? then notes.value else "";
    var r := "Cancelled: " + reason + "\n\n" + rest;
    assert r[..|"Cancelled: " + reason + "\n\n"|] == "Cancelled: " + reason + "\n\n";
    assert r[|r| - |rest|..] == rest;
    r
  }

  /** `cancel_appointment`: an unknown id is an error and changes nothing; otherwise the
      status becomes CANCELLED, the reason is put in front of the notes and updated_at
      is the current time. */
  method CancelAppointment(store: map<string, Appointment>, id: string, reason: string, now: int)
    returns (r: Result<string>)
    modifies if id in store then {store[id]} else {}
    ensures id !in store ==> r == Err("Appointment not found")
    ensures id in store ==>
      r == Ok(reason) &&
      store[id].status == Cancelled &&
      store[id].notes == Some(CancelledNotes(reason, old(store[id].notes))) &&
      store[id].updatedAt == now
  {
    if id !in store {
      return Err("Appointment not found");
    }
    var a := store[id];
    a.status := Cancelled;
    a.notes := Some(CancelledNotes(reason, a.notes));
    a.updatedAt := now;
    r := Ok(reason);
  }
}
