/** The deterministic part of the treatment agent: the parses of the model's treatment
    plan and interaction check, and the field update of a stored treatment. */
module TreatmentAgent {
  import opened Common
  import opened SectionParser

  const PlanHeaders: seq<Header> := [
    Header("TREATMENT_TYPE:", SetText("treatment_type", false)),
    Header("MEDICATIONS:", OpenList("medications")),
    Header("INTERVENTIONS:", OpenList("interventions")),
    Header("MONITORING:", OpenList("monitoring")),
    Header("TIMELINE:", SetText("timeline", false)),
    Header("SIDE_EFFECTS:", OpenList("side_effects")),
    Header("FOLLOW_UP:", OpenList("follow_up")),
    Header("EDUCATION:", OpenList("education")),
    Header("ASSESSMENT:", SetText("assessment", false))
  ]

  const PlanDefaults: Record := Record(
    map["treatment_type" := "", "timeline" := "", "assessment" := ""],
    map[],
    map["medications" := [], "interventions" := [], "monitoring" := [],
        "side_effects" := [], "follow_up" := [], "education" := []])

  method ParseTreatmentPlan(result: string) returns (plan: Record)
    ensures plan == Parse(PlanHeaders, PlanDefaults, result)
  {
    plan := ParseText(PlanHeaders, PlanDefaults, result);
  }

  lemma PlanTableFacts()
    ensures Targets(PlanHeaders, PlanDefaults)
    ensures PlanDefaults.texts.Keys == {"treatment_type", "timeline", "assessment"}
    ensures PlanDefaults.ints.Keys == {}
    ensures PlanDefaults.lists.Keys ==
      {"medications", "interventions", "monitoring", "side_effects", "follow_up", "education"}
  {
  }

  /** Whatever the text, the plan has the three scalar and six list fields. */
  lemma PlanShape(result: string)
    ensures Parse(PlanHeaders, PlanDefaults, result).texts.Keys == {"treatment_type", "timeline", "assessment"}
    ensures Parse(PlanHeaders, PlanDefaults, result).ints.Keys == {}
    ensures Parse(PlanHeaders, PlanDefaults, result).lists.Keys ==
      {"medications", "interventions", "monitoring", "side_effects", "follow_up", "education"}
  {
    PlanTableFacts();
    ParseKeepsFields(PlanHeaders, PlanDefaults, result);
  }

  /** A later TREATMENT_TYPE, TIMELINE or ASSESSMENT line overwrites an earlier one:
      the field holds the stripped text after the first ':' of the last such line. */
  lemma LastScalarHeaderWins(pre: seq<string>, line: string, post: seq<string>, f: string)
    requires f in {"treatment_type", "timeline", "assessment"}
    requires SetsText(PlanHeaders, line, f)
    requires forall i :: 0 <= i < |post| ==> !SetsText(PlanHeaders, post[i], f)
    ensures TextOf(Run(PlanHeaders, State(PlanDefaults, None), pre + [line] + post).rec, f) ==
            HeaderText(PlanHeaders, line)
  {
    LastTextWins(PlanHeaders, State(PlanDefaults, None), pre, line, post, f);
  }

  /** Bullets before the first list header are dropped. */
  lemma BulletsBeforeListHeaderDropped(lines: seq<string>)
    requires NoListHeader(PlanHeaders, lines)
    ensures Run(PlanHeaders, State(PlanDefaults, None), lines).rec.lists == PlanDefaults.lists
  {
    BulletsBeforeSectionDropped(PlanHeaders, State(PlanDefaults, None), lines);
  }

  const InteractionHeaders: seq<Header> := [
    Header("INTERACTIONS:", OpenList("interactions")),
    Header("SIDE_EFFECTS:", OpenList("side_effects")),
    Header("MONITORING:", OpenList("monitoring")),
    Header("ALTERNATIVES:", OpenList("alternatives")),
    Header("SAFETY:", SetText("safety", false))
  ]

  const InteractionDefaults: Record := Record(
    map["safety" := "unknown"],
    map[],
    map["interactions" := [], "side_effects" := [], "monitoring" := [], "alternatives" := []])

  method ParseInteractionResult(result: string) returns (data: Record)
    ensures data == Parse(InteractionHeaders, InteractionDefaults, result)
  {
    data := ParseText(InteractionHeaders, InteractionDefaults, result);
  }

  lemma InteractionTableFacts()
    ensures Targets(InteractionHeaders, InteractionDefaults)
    ensures InteractionDefaults.texts.Keys == {"safety"}
    ensures InteractionDefaults.ints.Keys == {}
    ensures InteractionDefaults.lists.Keys == {"interactions", "side_effects", "monitoring", "alternatives"}
  {
  }

  /** Four list sections and one scalar. */
  lemma InteractionShape(result: string)
    ensures Parse(InteractionHeaders, InteractionDefaults, result).texts.Keys == {"safety"}
    ensures Parse(InteractionHeaders, InteractionDefaults, result).ints.Keys == {}
    ensures Parse(InteractionHeaders, InteractionDefaults, result).lists.Keys ==
      {"interactions", "side_effects", "monitoring", "alternatives"}
  {
    InteractionTableFacts();
    ParseKeepsFields(InteractionHeaders, InteractionDefaults, result);
  }

  /** Without a SAFETY line the safety stays 'unknown'. */
  lemma SafetyDefaultsToUnknown(result: string)
    requires forall i :: 0 <= i < |Split(result, '\n')| ==> !SetsText(InteractionHeaders, Split(result, '\n')[i], "safety")
    ensures TextOf(Parse(InteractionHeaders, InteractionDefaults, result), "safety") == "unknown"
  {
    var lines := Split(result, '\n');
    TextUntouched(InteractionHeaders, State(InteractionDefaults, None), lines, "safety");
    var d := Run(InteractionHeaders, State(InteractionDefaults, None), lines).rec;
    assert TextOf(d, "safety") == d.texts["safety"];
  }

  // ---------------------------------------------------------------------------
  // update_treatment_plan

  /** The attributes of a stored treatment that `hasattr` finds: its columns. */
  const TreatmentColumns: set<string> := {
    "id", "patient_id", "treatment_type", "diagnosis", "treatment_plan", "medications",
    "procedures", "start_date", "end_date", "status", "doctor_id", "notes", "created_at", "updated_at"}

  class Treatment {
    var attrs: map<string, Value>

    predicate Valid()
      reads this
    {
      attrs.Keys == TreatmentColumns
    }

    constructor (initial: map<string, Value>)
      requires initial.Keys == TreatmentColumns
      ensures Valid() && attrs == initial
    {
      attrs := initial;
    }
  }

  /** The `setattr` loop: each update naming an existing attribute overwrites it, in
      order; the others are skipped. */
  function ApplyUpdates(attrs: map<string, Value>, updates: Dict): map<string, Value>
    decreases |updates|
  {
    if updates == [] then attrs
    else
      var (f, v) := updates[|updates| - 1];
      var prev := ApplyUpdates(attrs, updates[..|updates| - 1]);
      if f in prev then prev[f := v] else prev
  }

  /** Updates never add or remove attributes. */
  lemma {:induction false} ApplyUpdatesKeepsKeys(attrs: map<string, Value>, updates: Dict)
    ensures ApplyUpdates(attrs, updates).Keys == attrs.Keys
    decreases |updates|
  {
    if updates != [] {
      ApplyUpdatesKeepsKeys(attrs, updates[..|updates| - 1]);
    }
  }

  /** An attribute that no update names keeps its value. */
  lemma {:induction false} ApplyUpdatesUntouched(attrs: map<string, Value>, updates: Dict, f: string)
    requires f in attrs
    requires forall i :: 0 <= i < |updates| ==> updates[i].0 != f
    ensures f in ApplyUpdates(attrs, updates) && ApplyUpdates(attrs, updates)[f] == attrs[f]
    decreases |updates|
  {
    if updates != [] {
      ApplyUpdatesUntouched(attrs, updates[..|updates| - 1], f);
    }
  }

  /** The last update naming an existing attribute decides its value. */
  lemma ApplyUpdatesLastWins(attrs: map<string, Value>, pre: Dict, f: string, v: Value, post: Dict)
    requires f in attrs
    requires forall i :: 0 <= i < |post| ==> post[i].0 != f
    ensures f in ApplyUpdates(attrs, pre + [(f, v)] + post)
    ensures ApplyUpdates(attrs, pre + [(f, v)] + post)[f] == v
  {
    ApplyUpdatesAppend(attrs, pre + [(f, v)], post);
    var mid := ApplyUpdates(attrs, pre + [(f, v)]);
    assert (pre + [(f, v)])[..|pre + [(f, v)]| - 1] == pre;
    ApplyUpdatesKeepsKeys(attrs, pre);
    ApplyUpdatesUntouched(mid, post, f);
  }

  lemma {:induction false} ApplyUpdatesAppend(attrs: map<string, Value>, a: Dict, b: Dict)
    ensures ApplyUpdates(attrs, a + b) == ApplyUpdates(ApplyUpdates(attrs, a), b)
    decreases |b|
  {
    if b == [] {
      assert a + b == a;
    } else {
      assert (a + b)[..|a + b| - 1] == a + b[..|b| - 1];
      ApplyUpdatesAppend(attrs, a, b[..|b| - 1]);
    }
  }

  /** `update_treatment_plan`: an unknown id is an error and changes nothing; otherwise
      the updates naming existing attributes are applied in order and updated_at is set
      to the current time. */
  method UpdateTreatmentPlan(store: map<string, Treatment>, id: string, updates: Dict, now: Value)
    returns (r: Result<string>)
    requires forall k :: k in store ==> store[k].Valid()
    modifies if id in store then {store[id]} else {}
    ensures id !in store ==> r == Err("Treatment not found")
    ensures id in store ==>
      r == Ok(id) &&
      store[id].attrs == ApplyUpdates(old(store[id].attrs), updates)["updated_at" := now] &&
      store[id].Valid()
  {
    if id !in store {
      return Err("Treatment not found");
    }
    var t := store[id];
    ghost var start := t.attrs;
    var i := 0;
    while i < |updates|
      invariant 0 <= i <= |updates|
      invariant t.attrs == ApplyUpdates(start, updates[..i])
      modifies t
    {
      var (f, v) := updates[i];
      assert updates[..i + 1][..i] == updates[..i];
      if f in t.attrs {
        t.attrs := t.attrs[f := v];
      }
      i := i + 1;
    }
    assert updates[..i] == updates;
    ApplyUpdatesKeepsKeys(start, updates);
    t.attrs := t.attrs["updated_at" := now];
    r := Ok(id);
  }
}
