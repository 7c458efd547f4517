/** The healthcare chatbot agent: cleaning and reading the intent analysis the
    language model returns (with a keyword fallback when it is not JSON), routing
    the analysis to a handler, the emergency handler's response, and the
    conversation context with its ten-entry history. The language model, the
    database and the other handlers' tool calls are not part of the model. */
module ChatbotAgent {
  import opened Common

  // ---------------------------------------------------------------------------
  // Cleaning the model's reply

  const Fence := "```"
  const JsonFence := "```json"

  /** The reply stripped, a leading "```json" and a trailing "```" cut off, and the
      rest stripped again. */
  function StripFences(reply: string): (r: string)
    ensures r == [] || (!IsSpace(r[0]) && !IsSpace(r[|r| - 1]))
    ensures |r| <= |reply|
  {
    var c := Strip(reply);
    var c1 := if StartsWith(c, JsonFence) then c[7..] else c;
    var c2 := if EndsWith(c1, Fence) then c1[..|c1| - 3] else c1;
    Strip(c2)
  }

  /** A fenced JSON text comes back as it was put in. */
  lemma FencedRoundTrip(t: string)
    requires t == [] || (!IsSpace(t[0]) && !IsSpace(t[|t| - 1]))
    ensures StripFences(JsonFence + t + Fence) == t
  {
    var raw := JsonFence + t + Fence;
    StripNoop(raw);
    assert raw[..7] == JsonFence;
    var c1 := raw[7..];
    assert c1 == t + Fence;
    assert c1[|c1| - 3..] == Fence;
    assert c1[..|c1| - 3] == t;
    StripNoop(t);
  }

  // ---------------------------------------------------------------------------
  // The keyword fallback

  /** The keyword groups, checked in this order, with the intent each one names. */
  const KeywordGroups: seq<(seq<string>, string)> := [
    (["patient", "lookup", "find", "search"], "patient_lookup"),
    (["appointment", "schedule", "book"], "appointment_scheduling"),
    (["medical", "record", "history"], "medical_records"),
    (["emergency", "urgent", "critical"], "emergency"),
    (["vital", "signs", "heart", "blood", "temperature"], "vital_signs")
  ]

  /** `any(word in text for word in words)`. */
  predicate AnyIn(words: seq<string>, text: string) {
    exists w :: w in words && Contains(text, w)
  }

  /** The intent of the first group with a word in the text, else general_help. */
  function FirstIntent(groups: seq<(seq<string>, string)>, text: string): (intent: string)
    ensures (forall g :: 0 <= g < |groups| ==> !AnyIn(groups[g].0, text)) ==> intent == "general_help"
    ensures (exists g :: 0 <= g < |groups| && AnyIn(groups[g].0, text)) ==>
              exists g :: 0 <= g < |groups| && intent == groups[g].1 && AnyIn(groups[g].0, text)
                          && forall h :: 0 <= h < g ==> !AnyIn(groups[h].0, text)
  {
    if groups == [] then "general_help"
    else if AnyIn(groups[0].0, text) then groups[0].1
    else
      var rest := FirstIntent(groups[1..], text);
      assert forall g :: 1 <= g < |groups| ==> groups[g] == groups[1..][g - 1];
      rest
  }

  /** The keyword intent of a message, matched case-insensitively. */
  function KeywordIntent(message: string): string { FirstIntent(KeywordGroups, Lower(message)) }

  /** The analysis built when the reply is not JSON, around the keyword intent. */
  function KeywordAnalysis(intent: string): (r: Dict)
    ensures forall k :: k in AnalysisKeys ==> Has(r, k)
    ensures Get(r, "intent") == Some(VStr(intent)) && Get(r, "urgency") == Some(VStr("low"))
    ensures Get(r, "confidence") == Some(VReal(0.6)) && Get(r, "entities") == Some(VDict([]))
  {
    var a := [("intent", VStr(intent)), ("confidence", VReal(0.6)),
              ("entities", VDict([])), ("urgency", VStr("low"))];
    GetFirst(a, "intent", 0);
    GetFirst(a, "confidence", 1);
    GetFirst(a, "entities", 2);
    GetFirst(a, "urgency", 3);
    a
  }

  const AnalysisKeys: seq<string> := ["intent", "confidence", "entities", "urgency"]

  /** The analysis returned when anything else goes wrong. */
  const DefaultAnalysis: Dict := [("intent", VStr("general_help")), ("confidence", VReal(0.5)),
                                  ("entities", VDict([])), ("urgency", VStr("low"))]

  /** The default analysis has every analysis key, and only those. */
  lemma DefaultAnalysisComplete()
    ensures forall k :: k in AnalysisKeys ==> Has(DefaultAnalysis, k)
    ensures forall k :: Has(DefaultAnalysis, k) ==> k in AnalysisKeys
  {
    var a := DefaultAnalysis;
    GetFirst(a, "intent", 0);
    GetFirst(a, "confidence", 1);
    GetFirst(a, "entities", 2);
    GetFirst(a, "urgency", 3);
  }

  /** `d.setdefault(k, v)`: a missing key is added at the end; nothing else changes. */
  function SetDefault(d: Dict, k: string, v: Value): (r: Dict)
    ensures Get(r, k) == if Has(d, k) then Get(d, k) else Some(v)
    ensures forall j :: j != k ==> Get(r, j) == Get(d, j)
  {
    if Has(d, k) then d
    else
      assert forall j :: j != k ==> Get(d + [(k, v)], j) == Get(d, j) by {
        forall j | j != k ensures Get(d + [(k, v)], j) == Get(d, j) {
          GetAppend(d, k, v, j);
        }
      }
      GetAppend(d, k, v, k);
      d + [(k, v)]
  }

  lemma {:induction false} GetAppend(d: Dict, k: string, v: Value, j: string)
    ensures Get(d + [(k, v)], j) == if Has(d, j) then Get(d, j) else if j == k then Some(v) else None
  {
    if d != [] {
      assert (d + [(k, v)])[1..] == d[1..] + [(k, v)];
      GetAppend(d[1..], k, v, j);
    }
  }

  /** The value each setdefault call supplies, keyed by name. */
  function DefaultFor(k: string): Option<Value>
  {
    if k == "intent" then Some(VStr("general_help"))
    else if k == "confidence" then Some(VReal(0.5))
    else if k == "entities" then Some(VDict([]))
    else if k == "urgency" then Some(VStr("low"))
    else None
  }

  /** The setdefault calls, one per entry of `defaults`, in order. */
  function SetDefaultsOf(d: Dict, defaults: Dict): Dict
    decreases |defaults|
  {
    if defaults == [] then d
    else SetDefaultsOf(SetDefault(d, defaults[0].0, defaults[0].1), defaults[1..])
  }

  /** After the calls a key keeps its value when it was present and otherwise holds
      the value of its first entry among the defaults. */
  lemma {:induction false} SetDefaultsAt(d: Dict, defaults: Dict, k: string)
    ensures Get(SetDefaultsOf(d, defaults), k) == if Has(d, k) then Get(d, k) else Get(defaults, k)
    decreases |defaults|
  {
    if defaults != [] {
      var d1 := SetDefault(d, defaults[0].0, defaults[0].1);
      SetDefaultsAt(d1, defaults[1..], k);
    }
  }

  /** The default analysis holds exactly the values the setdefault calls supply. */
  lemma DefaultAnalysisGet(k: string)
    ensures Get(DefaultAnalysis, k) == DefaultFor(k)
  {
    var a := DefaultAnalysis;
    assert a[1..][1..][1..][1..] == [];
  }

  /** The four setdefault calls of the source, in the order of the default analysis:
      the keys that were present keep their values, and a missing key takes the
      default analysis's value for it (intent 'general_help', confidence 0.5, no
      entities, urgency 'low'); no other key is added. */
  function WithDefaults(d: Dict): (r: Dict)
    ensures forall k :: Get(r, k) == if Has(d, k) then Get(d, k) else Get(DefaultAnalysis, k)
    ensures forall k :: k in AnalysisKeys ==> Has(r, k)
  {
    var r := SetDefaultsOf(d, DefaultAnalysis);
    assert forall k :: Get(r, k) == if Has(d, k) then Get(d, k) else Get(DefaultAnalysis, k) by {
      forall k ensures Get(r, k) == if Has(d, k) then Get(d, k) else Get(DefaultAnalysis, k) {
        SetDefaultsAt(d, DefaultAnalysis, k);
      }
    }
    DefaultAnalysisComplete();
    r
  }

  /** `_analyze_intent` given the model's reply (None when the call raised) and the
      JSON reader for the cleaned text (None when it is not JSON): a JSON object has
      its missing fields filled in without touching present ones; text that is not
      JSON gets the keyword analysis; anything else the default analysis. */
  function AnalyzeIntent(message: string, reply: Option<string>, parse: string -> Option<Value>): (r: Dict)
    ensures forall k :: k in AnalysisKeys ==> Has(r, k)
    ensures reply.None? ==> r == DefaultAnalysis
    ensures reply.Some? && parse(StripFences(reply.value)).None? ==> r == KeywordAnalysis(KeywordIntent(message))
    ensures reply.Some? && parse(StripFences(reply.value)).Some? && !parse(StripFences(reply.value)).value.VDict? ==>
              r == DefaultAnalysis
    ensures reply.Some? && parse(StripFences(reply.value)).Some? && parse(StripFences(reply.value)).value.VDict? ==>
              forall k :: Get(r, k) ==
                if Has(parse(StripFences(reply.value)).value.entries, k)
                then Get(parse(StripFences(reply.value)).value.entries, k)
                else Get(DefaultAnalysis, k)
  {
    var intent := KeywordIntent(message);
    DefaultAnalysisComplete();
    if reply.None? then DefaultAnalysis
    else match parse(StripFences(reply.value))
      case None => KeywordAnalysis(intent)
      case Some(VDict(d)) => WithDefaults(d)
      case Some(_) => DefaultAnalysis
  }

  /** The keyword fallback tries the groups in order: a message that mentions a
      patient is a lookup, whatever else (an appointment, an emergency) it mentions. */
  lemma PatientKeywordWins(message: string)
    requires Contains(Lower(message), "patient")
    ensures KeywordIntent(message) == "patient_lookup"
  {
    var groups := KeywordGroups;
    assert "patient" in groups[0].0;
    assert AnyIn(groups[0].0, Lower(message));
  }

  // ---------------------------------------------------------------------------
  // Routing

  datatype Handler =
    | EmergencyHandler | PatientLookup | AppointmentScheduling | MedicalRecords
    | VitalSigns | TriageAssessment | GeneralHelp

  /** The intents with a handler of their own. */
  const IntentHandlers: seq<(string, Handler)> := [
    ("patient_lookup", PatientLookup), ("appointment_scheduling", AppointmentScheduling),
    ("medical_records", MedicalRecords), ("vital_signs", VitalSigns),
    ("triage_assessment", TriageAssessment)
  ]

  function IntentOf(analysis: Dict): Value { GetOr(analysis, "intent", VStr("general_help")) }
  function UrgencyOf(analysis: Dict): Value { GetOr(analysis, "urgency", VStr("low")) }

  /** `_generate_response`: a critical urgency goes to the emergency handler whatever
      the intent; otherwise the intent's own handler, and general help for any
      other intent. */
  function Route(analysis: Dict): (h: Handler)
    ensures h == EmergencyHandler <==> UrgencyOf(analysis) == VStr("critical")
    ensures UrgencyOf(analysis) != VStr("critical") ==>
              forall i :: 0 <= i < |IntentHandlers| && IntentOf(analysis) == VStr(IntentHandlers[i].0) ==>
                h == IntentHandlers[i].1
    ensures h == GeneralHelp <==>
              UrgencyOf(analysis) != VStr("critical") &&
              forall i :: 0 <= i < |IntentHandlers| ==> IntentOf(analysis) != VStr(IntentHandlers[i].0)
  {
    var intent := IntentOf(analysis);
    assert IntentHandlers[0].0 == "patient_lookup" && IntentHandlers[1].0 == "appointment_scheduling";
    assert IntentHandlers[2].0 == "medical_records" && IntentHandlers[3].0 == "vital_signs";
    assert IntentHandlers[4].0 == "triage_assessment";
    if UrgencyOf(analysis) == VStr("critical") then EmergencyHandler
    else if intent == VStr("patient_lookup") then PatientLookup
    else if intent == VStr("appointment_scheduling") then AppointmentScheduling
    else if intent == VStr("medical_records") then MedicalRecords
    else if intent == VStr("vital_signs") then VitalSigns
    else if intent == VStr("triage_assessment") then TriageAssessment
    else GeneralHelp
  }

  /** A JSON reply that names neither an intent nor an urgency is answered by general
      help: the defaults fill in 'general_help' and 'low'. */
  lemma ObjectWithoutIntentIsGeneralHelp(message: string, reply: string, parse: string -> Option<Value>)
    requires parse(StripFences(reply)).Some? && parse(StripFences(reply)).value.VDict?
    requires !Has(parse(StripFences(reply)).value.entries, "intent")
    requires !Has(parse(StripFences(reply)).value.entries, "urgency")
    ensures Route(AnalyzeIntent(message, Some(reply), parse)) == GeneralHelp
  {
    var r := AnalyzeIntent(message, Some(reply), parse);
    DefaultAnalysisGet("intent");
    DefaultAnalysisGet("urgency");
    assert Get(r, "intent") == Some(VStr("general_help"));
    assert Get(r, "urgency") == Some(VStr("low"));
    DefaultsGoToGeneralHelp(r);
  }

  /** An analysis holding the default intent and urgency goes to general help. */
  lemma DefaultsGoToGeneralHelp(a: Dict)
    requires Get(a, "intent") == Some(VStr("general_help")) && Get(a, "urgency") == Some(VStr("low"))
    ensures Route(a) == GeneralHelp
  {
    assert IntentOf(a) == VStr("general_help") && UrgencyOf(a) == VStr("low");
  }

  /** The keyword fallback always reports urgency 'low', so it never reaches the
      emergency handler; and its 'emergency' intent has no handler of its own, so a
      message the fallback reads as an emergency is answered by general help. */
  lemma KeywordFallbackNeverEscalates(intent: string)
    ensures Route(KeywordAnalysis(intent)) != EmergencyHandler
    ensures intent == "emergency" ==> Route(KeywordAnalysis(intent)) == GeneralHelp
  {
  }

  // ---------------------------------------------------------------------------
  // The emergency handler

  datatype Action = Action(kind: string, data: Dict)

  datatype ChatbotResponse = ChatbotResponse(
    message: string, intent: string, confidence: real, entities: Dict,
    actions: seq<Action>, contextUpdate: Dict, suggestions: seq<string>)

  const EmergencyReply := "\U{1F6A8} EMERGENCY DETECTED! I've immediately alerted the emergency response team. Please stay calm and provide any additional details about the situation. Medical staff will respond immediately."

  function AlertBase(message: string): Dict {
    [("alert_type", VStr("emergency")), ("severity", VStr("critical")),
     ("title", VStr("Emergency Situation Detected")),
     ("message", VStr("Emergency situation reported: " + message)),
     ("source", VStr("chatbot"))]
  }

  /** The alert's fixed fields, and no patient id among them. */
  lemma AlertBaseFields(message: string)
    ensures Get(AlertBase(message), "severity") == Some(VStr("critical"))
    ensures Get(AlertBase(message), "alert_type") == Some(VStr("emergency"))
    ensures Get(AlertBase(message), "message") == Some(VStr("Emergency situation reported: " + message))
    ensures !Has(AlertBase(message), "patient_id")
  {
    var base := AlertBase(message);
    GetFirst(base, "severity", 1);
    GetFirst(base, "alert_type", 0);
    GetFirst(base, "message", 3);
  }

  /** The alert data: a critical 'emergency' alert quoting the message, carrying the
      context's patient id exactly when the context has a truthy one. */
  function EmergencyAlert(message: string, context: Dict): (r: Dict)
    ensures Get(r, "severity") == Some(VStr("critical"))
    ensures Get(r, "alert_type") == Some(VStr("emergency"))
    ensures Get(r, "message") == Some(VStr("Emergency situation reported: " + message))
    ensures Has(r, "patient_id") <==> HasTruthy(context, "patient_id")
    ensures Has(r, "patient_id") ==> Get(r, "patient_id") == Get(context, "patient_id")
  {
    var base := AlertBase(message);
    AlertBaseFields(message);
    if HasTruthy(context, "patient_id") then Put(base, "patient_id", Get(context, "patient_id").value)
    else base
  }

  /** `_handle_emergency`: one 'emergency_alert' action carrying the alert, full
      confidence and the system state 'emergency_mode'. */
  function HandleEmergency(message: string, context: Dict): (r: ChatbotResponse)
    ensures r.intent == "emergency" && r.confidence == 1.0 && r.entities == []
    ensures |r.actions| == 1 && r.actions[0].kind == "emergency_alert"
    ensures r.actions[0].data == EmergencyAlert(message, context)
    ensures Get(r.contextUpdate, "system_state") == Some(VStr("emergency_mode"))
  {
    ChatbotResponse(
      EmergencyReply, "emergency", 1.0, [], [Action("emergency_alert", EmergencyAlert(message, context))],
      [("system_state", VStr("emergency_mode"))],
      ["Describe the emergency in detail", "Provide patient information if available"])
  }

  // ---------------------------------------------------------------------------
  // The conversation context

  const HistoryCap: nat := 10

  datatype Exchange = Exchange(timestamp: string, userMessage: string, botResponse: string, intent: string)

  /** The last n entries of s, or all of s when it is shorter: `s[-n:]`. */
  function LastN<T>(s: seq<T>, n: nat): (r: seq<T>)
    ensures |r| == if |s| < n then |s| else n
    ensures forall i :: 0 <= i < |r| ==> r[i] == s[|s| - |r| + i]
  {
    if |s| <= n then s else s[|s| - n..]
  }

  /** A stored conversation context: its entries and its conversation history. */
  class ChatContext {
    var data: Dict
    var history: seq<Exchange>

    ghost predicate Valid()
      reads this
    {
      |history| <= HistoryCap
    }

    constructor(data: Dict)
      ensures this.data == data && history == []
      ensures Valid()
    {
      this.data := data;
      history := [];
    }

    /** `_update_context`: the response's context update is merged into the entries,
        the exchange is appended to the history, and the history is cut back to its
        ten most recent entries. The time of the exchange is a parameter. */
    method UpdateContext(timestamp: string, userMessage: string, response: ChatbotResponse)
      modifies this
      ensures data == UpdateDict(old(data), response.contextUpdate)
      ensures history == LastN(old(history) + [Exchange(timestamp, userMessage, response.message, response.intent)], HistoryCap)
      ensures Valid()
      ensures history[|history| - 1] == Exchange(timestamp, userMessage, response.message, response.intent)
    {
      data := UpdateDict(data, response.contextUpdate);
      history := history + [Exchange(timestamp, userMessage, response.message, response.intent)];
      if |history| > HistoryCap {
        history := history[|history| - HistoryCap..];
      }
    }
  }

  /** The capped history keeps the most recent exchanges in order: it is what the
      full history ends with. */
  lemma {:induction false} CappedHistoryIsSuffix<T>(s: seq<T>, n: nat)
    ensures |s| >= n ==> |LastN(s, n)| == n
    ensures LastN(s, n) == s[|s| - |LastN(s, n)|..]
  {
    var r := LastN(s, n);
    assert forall i :: 0 <= i < |r| ==> r[i] == s[|s| - |r|..][i];
  }
}
