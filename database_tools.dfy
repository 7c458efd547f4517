/** The database tools: the SQL text and parameter list the patient search builds,
    and which vital-sign measurements are recorded with which unit. The database
    itself is a function parameter standing for `execute_query`. */
module DatabaseTools {
  import opened Common

  // ---------------------------------------------------------------------------
  // PatientSearchTool

  /** A query parameter: `Like(v)` is the pattern f"%{v}%", `Exact(v)` the value itself. */
  datatype Param = Like(inner: Value) | Exact(value: Value)

  /** SQL text with no '%' in it. */
  type SqlText = s: string | '%' !in s

  /** A piece of query text: literal SQL, or a "%s" placeholder. */
  datatype Fragment = Sql(text: SqlText) | Slot

  function FragmentText(f: Fragment): string {
    match f
    case Sql(t) => t
    case Slot => "%s"
  }

  function Render(frags: seq<Fragment>): string {
    if frags == [] then [] else FragmentText(frags[0]) + Render(frags[1..])
  }

  function Slots(frags: seq<Fragment>): nat {
    if frags == [] then 0 else (if frags[0].Slot? then 1 else 0) + Slots(frags[1..])
  }

  const SearchHead: seq<Fragment> := [Sql("SELECT * FROM patients WHERE 1=1")]
  const NameClause: seq<Fragment> := [Sql(" AND (first_name ILIKE "), Slot, Sql(" OR last_name ILIKE "), Slot, Sql(")")]
  const PhoneClause: seq<Fragment> := [Sql(" AND phone LIKE "), Slot]
  const EmailClause: seq<Fragment> := [Sql(" AND email ILIKE "), Slot]
  const IdClause: seq<Fragment> := [Sql(" AND patient_id = "), Slot]
  const SearchTail: seq<Fragment> := [Sql(" ORDER BY last_name, first_name LIMIT 20")]

  /** The number of "%s" placeholders in a query text. */
  function Placeholders(s: string): nat
    decreases |s|
  {
    if |s| < 2 then 0 else (if s[0] == '%' && s[1] == 's' then 1 else 0) + Placeholders(s[1..])
  }

  /** Placeholders add up across a join that does not glue a '%' to an 's'. */
  lemma {:induction false} PlaceholdersAppend(a: string, b: string)
    requires a == [] || b == [] || a[|a| - 1] != '%' || b[0] != 's'
    ensures Placeholders(a + b) == Placeholders(a) + Placeholders(b)
    decreases |a|
  {
    if a == [] {
      assert a + b == b;
    } else if |a| == 1 {
      if b != [] {
        assert (a + b)[1..] == b;
      }
    } else {
      assert (a + b)[1..] == a[1..] + b;
      PlaceholdersAppend(a[1..], b);
    }
  }

  /** A text without '%' has no placeholder. */
  lemma {:induction false} NoPercent(s: string)
    requires '%' !in s
    ensures Placeholders(s) == 0
    decreases |s|
  {
    if |s| >= 2 {
      assert s[0] in s;
      assert forall c :: c in s[1..] ==> c in s;
      NoPercent(s[1..]);
    }
  }

  /** The text of SQL pieces and placeholders has exactly one "%s" per placeholder. */
  lemma {:induction false} RenderPlaceholders(frags: seq<Fragment>)
    ensures Placeholders(Render(frags)) == Slots(frags)
  {
    if frags != [] {
      RenderPlaceholders(frags[1..]);
      var a := FragmentText(frags[0]);
      if frags[0].Sql? {
        NoPercent(a);
        if a != [] {
          assert a[|a| - 1] in a;
        }
      } else {
        assert a == "%s";
        assert Placeholders(a) == 1;
      }
      PlaceholdersAppend(a, Render(frags[1..]));
    }
  }

  lemma {:induction false} RenderAppend(a: seq<Fragment>, b: seq<Fragment>)
    ensures Render(a + b) == Render(a) + Render(b)
    ensures Slots(a + b) == Slots(a) + Slots(b)
  {
    if a == [] {
      assert a + b == b;
    } else {
      assert (a + b)[1..] == a[1..] + b;
      RenderAppend(a[1..], b);
    }
  }

  function Bit(b: bool): nat { if b then 1 else 0 }

  /** The pieces when the criterion is present, nothing otherwise. */
  function When<T>(present: bool, xs: seq<T>): seq<T> {
    if present then xs else []
  }

  /** The pieces of the query for the criteria present: one clause per criterion, in
      the order name, phone, email, patient_id, then the fixed ordering and limit. */
  function QueryPieces(name: bool, phone: bool, email: bool, id: bool): seq<Fragment> {
    SearchHead + When(name, NameClause) + When(phone, PhoneClause) + When(email, EmailClause)
    + When(id, IdClause) + SearchTail
  }

  /** The parameters in the same order: the name pattern twice, the phone and e-mail
      patterns, and the patient id itself. */
  function QueryParams(name: bool, phone: bool, email: bool, id: bool, n: Value, p: Value, e: Value, i: Value): seq<Param> {
    When(name, [Like(n), Like(n)]) + When(phone, [Like(p)]) + When(email, [Like(e)]) + When(id, [Exact(i)])
  }

  /** The query `PatientSearchTool._run` builds: a clause per truthy criterion. */
  function SearchFragments(criteria: Dict): seq<Fragment> {
    QueryPieces(HasTruthy(criteria, "name"), HasTruthy(criteria, "phone"),
                HasTruthy(criteria, "email"), HasTruthy(criteria, "patient_id"))
  }

  /** The parameters `PatientSearchTool._run` passes with it. */
  function SearchParams(criteria: Dict): seq<Param> {
    QueryParams(HasTruthy(criteria, "name"), HasTruthy(criteria, "phone"),
                HasTruthy(criteria, "email"), HasTruthy(criteria, "patient_id"),
                GetOr(criteria, "name", VNone), GetOr(criteria, "phone", VNone),
                GetOr(criteria, "email", VNone), GetOr(criteria, "patient_id", VNone))
  }

  lemma ClauseSlots()
    ensures Slots(SearchHead) == 0 && Slots(SearchTail) == 0 && Slots([]) == 0
    ensures Slots(NameClause) == 2 && Slots(PhoneClause) == 1 && Slots(EmailClause) == 1 && Slots(IdClause) == 1
  {
    assert NameClause[1..][1..][1..] == [Slot, Sql(")")];
    assert PhoneClause[1..] == [Slot];
    assert EmailClause[1..] == [Slot];
    assert IdClause[1..] == [Slot];
  }

  /** Text and slots add up over a head, four optional clauses and a tail. */
  lemma {:induction false} PiecesSlots(head: seq<Fragment>, c1: seq<Fragment>, c2: seq<Fragment>, c3: seq<Fragment>,
                                       c4: seq<Fragment>, tail: seq<Fragment>, b1: bool, b2: bool, b3: bool, b4: bool)
    ensures Render(head + When(b1, c1) + When(b2, c2) + When(b3, c3) + When(b4, c4) + tail)
            == Render(head) + Render(When(b1, c1)) + Render(When(b2, c2)) + Render(When(b3, c3)) + Render(When(b4, c4)) + Render(tail)
    ensures Slots(head + When(b1, c1) + When(b2, c2) + When(b3, c3) + When(b4, c4) + tail)
            == Slots(head) + Bit(b1) * Slots(c1) + Bit(b2) * Slots(c2) + Bit(b3) * Slots(c3) + Bit(b4) * Slots(c4) + Slots(tail)
  {
    var a := head + When(b1, c1);
    var b := a + When(b2, c2);
    var c := b + When(b3, c3);
    var d := c + When(b4, c4);
    RenderAppend(head, When(b1, c1));
    RenderAppend(a, When(b2, c2));
    RenderAppend(b, When(b3, c3));
    RenderAppend(c, When(b4, c4));
    RenderAppend(d, tail);
  }

  /** Every clause carries as many parameters as it has placeholders, so the query
      has one "%s" per parameter whatever criteria are present. */
  lemma PiecesPlaceholders(name: bool, phone: bool, email: bool, id: bool, n: Value, p: Value, e: Value, i: Value)
    ensures Placeholders(Render(QueryPieces(name, phone, email, id))) == |QueryParams(name, phone, email, id, n, p, e, i)|
    ensures |QueryParams(name, phone, email, id, n, p, e, i)| == 2 * Bit(name) + Bit(phone) + Bit(email) + Bit(id)
  {
    var ps := QueryParams(name, phone, email, id, n, p, e, i);
    assert |ps| == |When(name, [Like(n), Like(n)])| + |When(phone, [Like(p)])| + |When(email, [Like(e)])| + |When(id, [Exact(i)])|;
    ClauseSlots();
    PiecesSlots(SearchHead, NameClause, PhoneClause, EmailClause, IdClause, SearchTail, name, phone, email, id);
    RenderPlaceholders(QueryPieces(name, phone, email, id));
  }

  /** The built query has one "%s" per parameter: two for a name, one for each other
      criterion present. */
  lemma SearchPlaceholdersMatch(criteria: Dict)
    ensures Placeholders(Render(SearchFragments(criteria))) == |SearchParams(criteria)|
    ensures |SearchParams(criteria)| == 2 * Bit(HasTruthy(criteria, "name")) + Bit(HasTruthy(criteria, "phone"))
                                       + Bit(HasTruthy(criteria, "email")) + Bit(HasTruthy(criteria, "patient_id"))
  {
    PiecesPlaceholders(HasTruthy(criteria, "name"), HasTruthy(criteria, "phone"),
                       HasTruthy(criteria, "email"), HasTruthy(criteria, "patient_id"),
                       GetOr(criteria, "name", VNone), GetOr(criteria, "phone", VNone),
                       GetOr(criteria, "email", VNone), GetOr(criteria, "patient_id", VNone));
  }

  lemma HeadTailText()
    ensures Render(SearchHead) == "SELECT * FROM patients WHERE 1=1"
    ensures Render(SearchTail) == " ORDER BY last_name, first_name LIMIT 20"
  {
    assert Render(SearchHead) == "SELECT * FROM patients WHERE 1=1" + Render([]);
    assert Render(SearchTail) == " ORDER BY last_name, first_name LIMIT 20" + Render([]);
  }

  lemma ConcatEnds(h: string, m: string, t: string)
    ensures StartsWith(h + m + t, h) && EndsWith(h + m + t, t)
  {
    var q := h + m + t;
    assert q[..|h|] == h;
    assert q[|q| - |t|..] == t;
  }

  /** The rendered query opens with the head's text and closes with the tail's. */
  lemma PiecesEnds(name: bool, phone: bool, email: bool, id: bool)
    ensures StartsWith(Render(QueryPieces(name, phone, email, id)), Render(SearchHead))
    ensures EndsWith(Render(QueryPieces(name, phone, email, id)), Render(SearchTail))
  {
    PiecesSlots(SearchHead, NameClause, PhoneClause, EmailClause, IdClause, SearchTail, name, phone, email, id);
    ConcatEnds(Render(SearchHead),
               Render(When(name, NameClause)) + Render(When(phone, PhoneClause))
               + Render(When(email, EmailClause)) + Render(When(id, IdClause)),
               Render(SearchTail));
  }

  /** Whatever criteria are present, the query starts with the SELECT head and ends
      with the fixed ordering and limit. */
  lemma SearchQueryEnds(criteria: Dict)
    ensures StartsWith(Render(SearchFragments(criteria)), "SELECT * FROM patients WHERE 1=1")
    ensures EndsWith(Render(SearchFragments(criteria)), " ORDER BY last_name, first_name LIMIT 20")
  {
    HeadTailText();
    PiecesEnds(HasTruthy(criteria, "name"), HasTruthy(criteria, "phone"),
               HasTruthy(criteria, "email"), HasTruthy(criteria, "patient_id"));
  }

  /** The parameters lead with the name pattern twice when a name is given, end with
      the patient id itself when one is given, and only that last one is exact. */
  lemma ParamsEnds(name: bool, phone: bool, email: bool, id: bool, n: Value, p: Value, e: Value, i: Value)
    ensures var ps := QueryParams(name, phone, email, id, n, p, e, i);
      name ==> |ps| >= 2 && ps[0] == Like(n) && ps[1] == Like(n)
    ensures var ps := QueryParams(name, phone, email, id, n, p, e, i);
      id ==> ps != [] && ps[|ps| - 1] == Exact(i)
    ensures var ps := QueryParams(name, phone, email, id, n, p, e, i);
      forall k :: 0 <= k < |ps| ==> (ps[k].Exact? <==> id && k == |ps| - 1)
  {
    var front := When(name, [Like(n), Like(n)]) + When(phone, [Like(p)]) + When(email, [Like(e)]);
    var ps := QueryParams(name, phone, email, id, n, p, e, i);
    assert ps == front + When(id, [Exact(i)]);
    assert forall k :: 0 <= k < |front| ==> front[k].Like?;
    if name {
      assert front == [Like(n), Like(n)] + (When(phone, [Like(p)]) + When(email, [Like(e)]));
    }
  }

  /** `ParamsEnds` for the parameters of a criteria dict. */
  lemma SearchParamsEnds(criteria: Dict)
    ensures HasTruthy(criteria, "name") ==>
      |SearchParams(criteria)| >= 2 &&
      SearchParams(criteria)[0] == Like(GetOr(criteria, "name", VNone)) &&
      SearchParams(criteria)[1] == Like(GetOr(criteria, "name", VNone))
    ensures HasTruthy(criteria, "patient_id") ==>
      SearchParams(criteria) != [] &&
      SearchParams(criteria)[|SearchParams(criteria)| - 1] == Exact(GetOr(criteria, "patient_id", VNone))
    ensures forall k :: 0 <= k < |SearchParams(criteria)| ==>
      (SearchParams(criteria)[k].Exact? <==> HasTruthy(criteria, "patient_id") && k == |SearchParams(criteria)| - 1)
  {
    ParamsEnds(HasTruthy(criteria, "name"), HasTruthy(criteria, "phone"),
               HasTruthy(criteria, "email"), HasTruthy(criteria, "patient_id"),
               GetOr(criteria, "name", VNone), GetOr(criteria, "phone", VNone),
               GetOr(criteria, "email", VNone), GetOr(criteria, "patient_id", VNone));
  }

  /** A phone and an e-mail criterion give the phone clause before the e-mail clause,
      each with its own pattern. */
  lemma PhoneEmailExample(phone: string, email: string)
    requires phone != [] && email != []
    ensures SearchParams([("phone", VStr(phone)), ("email", VStr(email))]) == [Like(VStr(phone)), Like(VStr(email))]
    ensures SearchFragments([("phone", VStr(phone)), ("email", VStr(email))])
            == SearchHead + PhoneClause + EmailClause + SearchTail
  {
    var d := [("phone", VStr(phone)), ("email", VStr(email))];
    assert d[0].0[0] == 'p' && d[1].0[0] == 'e';
    assert Get(d, "phone") == Some(VStr(phone));
    assert Get(d, "email") == Some(VStr(email));
    assert !Has(d, "name") && !Has(d, "patient_id");
  }

  /** One step of the builder: when the criterion is present, the clause's text
      joins the query and its values the parameters. */
  method AddClause(present: bool, query: string, params: seq<Param>, clause: seq<Fragment>, values: seq<Param>)
    returns (query': string, params': seq<Param>)
    ensures query' == query + Render(When(present, clause))
    ensures params' == params + When(present, values)
  {
    query', params' := query, params;
    if present {
      query' := query + Render(clause);
      params' := params + values;
    }
  }

  /** `PatientSearchTool._run`'s query builder: the query is the text of the search
      pieces of the criteria and the parameters are theirs. */
  method BuildSearchQuery(criteria: Dict) returns (query: string, params: seq<Param>)
    ensures query == Render(SearchFragments(criteria)) && params == SearchParams(criteria)
  {
    var name := Like(GetOr(criteria, "name", VNone));
    query, params := BuildClauses(
      [HasTruthy(criteria, "name"), HasTruthy(criteria, "phone"), HasTruthy(criteria, "email"), HasTruthy(criteria, "patient_id")],
      SearchHead, NameClause, PhoneClause, EmailClause, IdClause,
      [name, name], [Like(GetOr(criteria, "phone", VNone))], [Like(GetOr(criteria, "email", VNone))],
      [Exact(GetOr(criteria, "patient_id", VNone))]);
    query := FinishQuery(query);
    PiecesSlots(SearchHead, NameClause, PhoneClause, EmailClause, IdClause, SearchTail,
                HasTruthy(criteria, "name"), HasTruthy(criteria, "phone"), HasTruthy(criteria, "email"), HasTruthy(criteria, "patient_id"));
  }

  /** The four criterion steps in order: each present clause adds its text and values. */
  method BuildClauses(present: seq<bool>, head: seq<Fragment>, c1: seq<Fragment>, c2: seq<Fragment>,
                      c3: seq<Fragment>, c4: seq<Fragment>, v1: seq<Param>, v2: seq<Param>, v3: seq<Param>, v4: seq<Param>)
    returns (query: string, params: seq<Param>)
    requires |present| == 4
    ensures query == Render(head) + Render(When(present[0], c1)) + Render(When(present[1], c2))
                     + Render(When(present[2], c3)) + Render(When(present[3], c4))
    ensures params == When(present[0], v1) + When(present[1], v2) + When(present[2], v3) + When(present[3], v4)
  {
    query := Render(head);
    params := [];
    assert params + When(present[0], v1) == When(present[0], v1);
    query, params := AddClause(present[0], query, params, c1, v1);
    query, params := AddClause(present[1], query, params, c2, v2);
    query, params := AddClause(present[2], query, params, c3, v3);
    query, params := AddClause(present[3], query, params, c4, v4);
  }

  /** The fixed ordering and limit close the query. */
  method FinishQuery(query: string) returns (query': string)
    ensures query' == query + Render(SearchTail)
  {
    query' := query + Render(SearchTail);
  }

  /** The rows `execute_query` returns, or None when it raises. */
  type Executor = (string, seq<Param>) -> Option<seq<Dict>>

  /** `PatientSearchTool._run`: the rows of the built query, and [] on any failure. */
  method SearchPatients(criteria: Dict, execute: Executor) returns (query: string, params: seq<Param>, rows: seq<Dict>)
    ensures query == Render(SearchFragments(criteria)) && params == SearchParams(criteria)
    ensures execute(query, params).None? ==> rows == []
    ensures execute(query, params).Some? ==> rows == execute(query, params).value
  {
    query, params := BuildSearchQuery(criteria);
    var result := execute(query, params);
    rows := if result.Some? then result.value else [];
  }

  // ---------------------------------------------------------------------------
  // RecordVitalSignsTool

  /** The recorded measurement types with their units. */
  const VitalUnits: seq<(string, string)> := [
    ("heart_rate", "bpm"), ("systolic_bp", "mmHg"), ("diastolic_bp", "mmHg"),
    ("temperature", "F"), ("oxygen_saturation", "%"), ("respiratory_rate", "breaths/min")
  ]

  /** `unit_map.get(t, '')`. */
  function UnitFor(t: string): (unit: string)
    ensures unit != "" <==> Recordable(t)
    ensures Recordable(t) ==> (t, unit) in VitalUnits
  {
    if t == "heart_rate" then "bpm"
    else if t == "systolic_bp" || t == "diastolic_bp" then "mmHg"
    else if t == "temperature" then "F"
    else if t == "oxygen_saturation" then "%"
    else if t == "respiratory_rate" then "breaths/min"
    else ""
  }

  predicate Recordable(t: string) {
    t in ["heart_rate", "systolic_bp", "diastolic_bp", "temperature", "oxygen_saturation", "respiratory_rate"]
  }

  /** What one INSERT gives back: the new row's id, no row, or an error. */
  datatype Insert = Row(monitoringId: int) | NoRow | Raised

  datatype Recorded = Recorded(measurementType: string, value: Value, monitoringId: int)

  datatype Recording = RecordedAll(measurements: seq<Recorded>) | RecordFailed

  /** The INSERT for (patient, device 'Manual Entry', type, value, unit). */
  type Inserter = (string, Value, string) -> Insert

  /** The measurements recorded from the items, in order: the recordable ones whose
      insert returned a row. None when an insert raised. */
  function RecordedFrom(items: Dict, insert: Inserter): (r: Option<seq<Recorded>>)
    ensures r.Some? ==> forall m :: m in r.value ==> Recordable(m.measurementType)
    ensures r.Some? ==> |r.value| <= |items|
  {
    if items == [] then Some([])
    else
      var (t, v) := items[|items| - 1];
      match RecordedFrom(items[..|items| - 1], insert)
      case None => None
      case Some(prev) =>
        if !Recordable(t) then Some(prev)
        else match insert(t, v, UnitFor(t))
          case Raised => None
          case NoRow => Some(prev)
          case Row(id) => Some(prev + [Recorded(t, v, id)])
  }

  /** `RecordVitalSignsTool._run`: the loop over the vital signs. */
  method RecordVitalSigns(vitals: Dict, insert: Inserter) returns (r: Recording)
    ensures r.RecordFailed? <==> RecordedFrom(vitals, insert).None?
    ensures r.RecordedAll? ==> r.measurements == RecordedFrom(vitals, insert).value
  {
    var results := [];
    for i := 0 to |vitals|
      invariant RecordedFrom(vitals[..i], insert) == Some(results)
    {
      assert vitals[..i + 1][..i] == vitals[..i];
      var (t, v) := vitals[i];
      if Recordable(t) {
        var outcome := insert(t, v, UnitFor(t));
        if outcome.Raised? {
          assert RecordedFrom(vitals[..i + 1], insert).None?;
          RecordedPrefixFails(vitals, insert, i + 1);
          assert vitals[..|vitals|] == vitals;
          return RecordFailed;
        }
        if outcome.Row? {
          results := results + [Recorded(t, v, outcome.monitoringId)];
        }
      }
    }
    assert vitals[..|vitals|] == vitals;
    r := RecordedAll(results);
  }

  /** Once an insert has raised, the whole recording fails. */
  lemma {:induction false} RecordedPrefixFails(items: Dict, insert: Inserter, n: nat)
    requires n <= |items| && RecordedFrom(items[..n], insert).None?
    ensures RecordedFrom(items, insert).None?
    decreases |items| - n
  {
    if n < |items| {
      assert items[..n + 1][..n] == items[..n];
      RecordedPrefixFails(items, insert, n + 1);
    } else {
      assert items[..n] == items;
    }
  }

  /** When every insert returns a row, exactly the recordable measurements are
      recorded, each unit taken from the fixed map. */
  lemma {:induction false} AllRowsRecordAllRecordable(items: Dict, insert: Inserter)
    requires forall t, v, u :: insert(t, v, u).Row?
    ensures RecordedFrom(items, insert).Some?
    ensures |RecordedFrom(items, insert).value| == |Filtered(items)|
    ensures forall i :: 0 <= i < |Filtered(items)| ==>
              RecordedFrom(items, insert).value[i].measurementType == Filtered(items)[i].0
  {
    if items != [] {
      var init := items[..|items| - 1];
      var (t, v) := items[|items| - 1];
      AllRowsRecordAllRecordable(init, insert);
      var prev := RecordedFrom(init, insert).value;
      if Recordable(t) {
        var id := insert(t, v, UnitFor(t)).monitoringId;
        assert RecordedFrom(items, insert) == Some(prev + [Recorded(t, v, id)]);
        assert Filtered(items) == Filtered(init) + [(t, v)];
      } else {
        assert RecordedFrom(items, insert) == Some(prev);
        assert Filtered(items) == Filtered(init);
      }
    }
  }

  /** The recordable items, in order. */
  function Filtered(items: Dict): (r: Dict)
    ensures forall e :: e in r ==> Recordable(e.0) && e in items
  {
    if items == [] then []
    else
      var rest := Filtered(items[..|items| - 1]);
      assert forall e :: e in items[..|items| - 1] ==> e in items;
      rest + (if Recordable(items[|items| - 1].0) then [items[|items| - 1]] else [])
  }
}
