/** The request middleware: masking of sensitive fields in request and response
    bodies, the placeholder token check, the required-field check of the request
    validator and the placeholder rate limiter. */
module Middleware {
  import opened Common

  const SensitiveFields: seq<string> := [
    "password", "token", "api_key", "secret", "ssn", "credit_card",
    "insurance_number", "medical_record_number"
  ]

  function Stars(n: nat): (r: string)
    ensures |r| == n && forall i :: 0 <= i < n ==> r[i] == '*'
  {
    seq(n, _ => '*')
  }

  /** What a sensitive field's value becomes: a string is starred out letter for
      letter, anything else (a dict included) becomes '***'. */
  function SensitiveMask(v: Value): (r: Value)
    ensures r.VStr? && forall i :: 0 <= i < |r.s| ==> r.s[i] == '*'
    ensures v.VStr? ==> |r.s| == |v.s|
    ensures !v.VStr? ==> r == VStr("***")
  {
    if v.VStr? then VStr(Stars(|v.s|)) else VStr("***")
  }

  // ---------------------------------------------------------------------------
  // The masking relation

  /** `res` is `mask_sensitive_data(orig)`: anything but a dict is returned as it
      is; a dict keeps its keys in order and each value is masked as its key says. */
  ghost predicate MaskedFrom(orig: Value, res: Value)
    decreases orig, 1
  {
    match orig
    case VDict(es) =>
      && res.VDict? && |res.entries| == |es|
      && forall i :: 0 <= i < |es| ==>
           res.entries[i].0 == es[i].0 && EntryMasked(es[i].0, es[i].1, res.entries[i].1)
    case _ => res == orig
  }

  /** A sensitive key's value is masked and not looked into; otherwise a dict is
      masked recursively, a list has its dict items masked and its other items
      kept, and any other value is kept. */
  ghost predicate EntryMasked(k: string, v: Value, res: Value)
    decreases v, 2
  {
    if k in SensitiveFields then res == SensitiveMask(v)
    else match v
      case VDict(_) => MaskedFrom(v, res)
      case VList(items) =>
        && res.VList? && |res.items| == |items|
        && forall j :: 0 <= j < |items| ==> ItemMasked(items[j], res.items[j])
      case _ => res == v
  }

  ghost predicate ItemMasked(item: Value, res: Value)
    decreases item, 2
  {
    if item.VDict? then MaskedFrom(item, res) else res == item
  }

  // ---------------------------------------------------------------------------
  // mask_sensitive_data

  /** The first pass over the copy: every sensitive key's value is masked. */
  method MaskFirstPass(es: Dict) returns (masked: Dict)
    ensures |masked| == |es|
    ensures forall i :: 0 <= i < |es| ==> masked[i].0 == es[i].0
    ensures forall i :: 0 <= i < |es| ==>
              masked[i].1 == (if es[i].0 in SensitiveFields then SensitiveMask(es[i].1) else es[i].1)
  {
    masked := es;
    for i := 0 to |masked|
      invariant |masked| == |es|
      invariant forall j :: 0 <= j < |es| ==> masked[j].0 == es[j].0
      invariant forall j :: 0 <= j < i ==>
                  masked[j].1 == (if es[j].0 in SensitiveFields then SensitiveMask(es[j].1) else es[j].1)
      invariant forall j :: i <= j < |es| ==> masked[j] == es[j]
    {
      if masked[i].0 in SensitiveFields {
        masked := masked[i := (masked[i].0, SensitiveMask(masked[i].1))];
      }
    }
  }

  /** `mask_sensitive_data`: a shallow copy of the dict has its sensitive values
      masked, then each dict value is replaced by its masked copy and each list
      value by a list whose dict items are masked. The input is a value and is
      therefore never changed. */
  method MaskSensitiveData(data: Value) returns (r: Value)
    ensures MaskedFrom(data, r)
    decreases data, 0
  {
    if !data.VDict? {
      return data;
    }
    var es := data.entries;
    var masked := MaskFirstPass(es);
    for i := 0 to |masked|
      invariant |masked| == |es|
      invariant forall j :: 0 <= j < |es| ==> masked[j].0 == es[j].0
      invariant forall j :: 0 <= j < i ==> EntryMasked(es[j].0, es[j].1, masked[j].1)
      invariant forall j :: i <= j < |es| ==>
                  masked[j].1 == (if es[j].0 in SensitiveFields then SensitiveMask(es[j].1) else es[j].1)
    {
      assert es[i] in es;
      var v := masked[i].1;
      if v.VDict? {
        var m := MaskSensitiveData(es[i].1);
        masked := masked[i := (masked[i].0, m)];
      } else if v.VList? {
        var items := MaskItems(es[i].1);
        masked := masked[i := (masked[i].0, items)];
      }
    }
    r := VDict(masked);
  }

  /** The list comprehension: dict items are masked, other items kept. */
  method MaskItems(list: Value) returns (r: Value)
    requires list.VList?
    ensures r.VList? && |r.items| == |list.items|
    ensures forall j :: 0 <= j < |list.items| ==> ItemMasked(list.items[j], r.items[j])
    decreases list, 0
  {
    var out := [];
    for j := 0 to |list.items|
      invariant |out| == j
      invariant forall k :: 0 <= k < j ==> ItemMasked(list.items[k], out[k])
    {
      var item := list.items[j];
      assert item in list.items;
      if item.VDict? {
        var m := MaskSensitiveData(item);
        out := out + [m];
      } else {
        out := out + [item];
      }
    }
    r := VList(out);
  }

  // ---------------------------------------------------------------------------
  // Properties of the masking

  /** The masking relation is a function: one input has one masked form. */
  lemma {:induction false} MaskedUnique(orig: Value, a: Value, b: Value)
    requires MaskedFrom(orig, a) && MaskedFrom(orig, b)
    ensures a == b
    decreases orig, 1
  {
    if orig.VDict? {
      var es := orig.entries;
      forall i | 0 <= i < |es|
        ensures a.entries[i] == b.entries[i]
      {
        assert es[i] in es;
        EntryUnique(es[i].0, es[i].1, a.entries[i].1, b.entries[i].1);
      }
      assert a.entries == b.entries;
    }
  }

  lemma {:induction false} EntryUnique(k: string, v: Value, a: Value, b: Value)
    requires EntryMasked(k, v, a) && EntryMasked(k, v, b)
    ensures a == b
    decreases v, 2
  {
    if k !in SensitiveFields {
      match v
      case VDict(_) => MaskedUnique(v, a, b);
      case VList(items) =>
        forall j | 0 <= j < |items|
          ensures a.items[j] == b.items[j]
        {
          assert items[j] in items;
          if items[j].VDict? {
            MaskedUnique(items[j], a.items[j], b.items[j]);
          }
        }
        assert a.items == b.items;
      case _ =>
    }
  }

  /** Masking is idempotent: a masked body is its own masked form (stars stay
      stars, '***' is three stars, and nested values were already masked). */
  lemma {:induction false} MaskIdempotent(orig: Value, res: Value)
    requires MaskedFrom(orig, res)
    ensures MaskedFrom(res, res)
    decreases orig, 1
  {
    if orig.VDict? {
      var es := orig.entries;
      forall i | 0 <= i < |res.entries|
        ensures EntryMasked(res.entries[i].0, res.entries[i].1, res.entries[i].1)
      {
        assert es[i] in es;
        EntryIdempotent(es[i].0, es[i].1, res.entries[i].1);
      }
    }
  }

  lemma {:induction false} EntryIdempotent(k: string, v: Value, res: Value)
    requires EntryMasked(k, v, res)
    ensures EntryMasked(k, res, res)
    decreases v, 2
  {
    if k in SensitiveFields {
      assert Stars(|res.s|) == res.s;
    } else {
      match v
      case VDict(_) => MaskIdempotent(v, res);
      case VList(items) =>
        forall j | 0 <= j < |items|
          ensures ItemMasked(res.items[j], res.items[j])
        {
          assert items[j] in items;
          if items[j].VDict? {
            MaskIdempotent(items[j], res.items[j]);
          }
        }
      case _ =>
    }
  }

  /** No string of length n under a sensitive key survives: it becomes n stars. */
  lemma MaskedPasswordExample()
    ensures MaskedFrom(VDict([("password", VStr("hunter2")), ("name", VStr("Ann"))]),
                       VDict([("password", VStr("*******")), ("name", VStr("Ann"))]))
  {
    assert Stars(7) == "*******";
  }

  // ---------------------------------------------------------------------------
  // Tokens, required fields, rate limiting

  /** `validate_token`: a non-empty token of at least ten characters. */
  function ValidateToken(token: Option<string>): (ok: bool)
    ensures ok <==> token.Some? && |token.value| >= 10
  {
    if token.None? || token.value == [] then false else |token.value| >= 10
  }

  /** The required fields that are absent or falsy, in the order given. */
  function AbsentFields(data: Dict, fields: seq<string>): (r: seq<string>)
    ensures forall f :: f in r <==> f in fields && !HasTruthy(data, f)
  {
    if fields == [] then []
    else
      var last := fields[|fields| - 1];
      AbsentFields(data, fields[..|fields| - 1]) + (if HasTruthy(data, last) then [] else [last])
  }

  /** `RequestValidator.validate_required_fields`: for a JSON request with absent
      or falsy fields, the 400 error naming them joined by ", "; otherwise None. */
  function ValidateRequiredFields(isJson: bool, data: Dict, fields: seq<string>): (r: Option<string>)
    ensures r.Some? <==> isJson && exists f :: f in fields && !HasTruthy(data, f)
    ensures r.Some? ==> r.value == "Missing required fields: " + JoinWith(AbsentFields(data, fields), ", ")
  {
    if !isJson then None
    else
      var missing := AbsentFields(data, fields);
      if missing == [] then None
      else
        assert missing[0] in missing;
        Some("Missing required fields: " + JoinWith(missing, ", "))
  }

  /** What `validate_required_fields` does with whatever JSON body it is sent. */
  datatype BodyCheck = BodyPasses | BodyMissing(message: string) | BodyRaises

  /** `validate_required_fields` on any JSON body. An object is checked as above. For
      a list, `field not in data` is list membership and for a string a substring
      test; a field that passes it is then indexed with a string, which raises
      TypeError, and when none passes every field is reported missing. For null, a
      boolean or a number, the `in` test itself raises. */
  function ValidateRequiredFieldsOfBody(isJson: bool, body: Value, fields: seq<string>): (r: BodyCheck)
    ensures !isJson ==> r == BodyPasses
    ensures isJson && body.VDict? ==>
      !r.BodyRaises? &&
      (r.BodyMissing? <==> ValidateRequiredFields(true, body.entries, fields).Some?) &&
      (r.BodyMissing? ==> r.message == ValidateRequiredFields(true, body.entries, fields).value)
    ensures isJson && !body.VDict? && fields != [] ==> !r.BodyPasses?
    ensures isJson && fields != [] && (body.VNone? || body.VBool? || body.VInt? || body.VReal?) ==> r.BodyRaises?
    ensures isJson && body.VList? ==> (r.BodyRaises? <==> exists f :: f in fields && VStr(f) in body.items)
    ensures isJson && body.VStr? ==> (r.BodyRaises? <==> exists f :: f in fields && Contains(body.s, f))
    ensures !body.VDict? && r.BodyMissing? ==> r.message == "Missing required fields: " + JoinWith(fields, ", ")
  {
    if !isJson || fields == [] then BodyPasses
    else match body
      case VDict(d) =>
        var m := ValidateRequiredFields(true, d, fields);
        if m.Some? then BodyMissing(m.value) else BodyPasses
      case VList(items) =>
        if exists f :: f in fields && VStr(f) in items then BodyRaises
        else BodyMissing("Missing required fields: " + JoinWith(fields, ", "))
      case VStr(t) =>
        if exists f :: f in fields && Contains(t, f) then BodyRaises
        else BodyMissing("Missing required fields: " + JoinWith(fields, ", "))
      case _ => BodyRaises
  }

  /** A JSON array that happens to hold a required field's name raises, and one that
      does not is reported as missing every field. */
  lemma ListBodyExamples()
    ensures ValidateRequiredFieldsOfBody(true, VList([VStr("name")]), ["name"]) == BodyRaises
    ensures ValidateRequiredFieldsOfBody(true, VList([]), ["name", "age"]) ==
      BodyMissing("Missing required fields: " + JoinWith(["name", "age"], ", "))
  {
    assert "name" in ["name"] && VStr("name") in [VStr("name")];
  }

  /** The field order of the error message follows the order the fields were listed in. */
  lemma {:induction false} AbsentFieldsInOrder(data: Dict, fields: seq<string>)
    ensures AbsentFields(data, fields) == Filter(fields, data)
  {
    if fields != [] {
      AbsentFieldsInOrder(data, fields[..|fields| - 1]);
      FilterSnoc(fields[..|fields| - 1], fields[|fields| - 1], data);
      assert fields[..|fields| - 1] + [fields[|fields| - 1]] == fields;
    }
  }

  /** The comprehension read front to back. */
  function Filter(fields: seq<string>, data: Dict): seq<string>
  {
    if fields == [] then []
    else (if HasTruthy(data, fields[0]) then [] else [fields[0]]) + Filter(fields[1..], data)
  }

  lemma {:induction false} FilterSnoc(fields: seq<string>, f: string, data: Dict)
    ensures Filter(fields + [f], data) == Filter(fields, data) + (if HasTruthy(data, f) then [] else [f])
  {
    if fields != [] {
      assert (fields + [f])[1..] == fields[1..] + [f];
      FilterSnoc(fields[1..], f, data);
    }
  }

  /** `is_rate_limited`: the placeholder never limits a client. */
  function IsRateLimited(clientIp: string, maxRequests: int, window: int): (limited: bool)
    ensures !limited
  {
    false
  }
}
