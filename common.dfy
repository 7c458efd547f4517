/** Shared vocabulary for the model: optional and error results, the Python string
    operations the repository relies on (strip, lower, upper, split, startswith,
    the `in` substring test, int() and float() conversions), and a dynamically
    typed value with an insertion-ordered dictionary, standing for the JSON-like
    dicts that flow through the services. Whitespace is Python's full set; case
    mapping, letters and digits are modelled over ASCII (A-Z, a-z, 0-9). */
module Common {

  datatype Option<+T> = None | Some(value: T)

  datatype Result<+T> = Ok(value: T) | Err(msg: string)

  /** The text of the AttributeError Python raises when code calls a method that the
      object's class does not define. */
  function NoAttribute(className: string, attribute: string): string
  {
    "'" + className + "' object has no attribute '" + attribute + "'"
  }

  // ---------------------------------------------------------------------------
  // Characters

  /** Python's `str.isspace()`, which is what `strip()` removes and what `\s`
      matches: the ASCII controls 0x09-0x0D and 0x1C-0x1F, the space, 0x85, 0xA0
      and the Unicode spaces and separators. */
  predicate IsSpace(c: char) {
    || c == ' ' || '\t' <= c <= '\r' || '\U{1C}' <= c <= '\U{1F}' || c == '\U{85}' || c == '\U{A0}'
    || c == '\U{1680}' || '\U{2000}' <= c <= '\U{200A}' || c == '\U{2028}' || c == '\U{2029}'
    || c == '\U{202F}' || c == '\U{205F}' || c == '\U{3000}'
  }

  predicate IsDigit(c: char) { '0' <= c <= '9' }

  predicate IsUpperAscii(c: char) { 'A' <= c <= 'Z' }

  predicate IsLowerAscii(c: char) { 'a' <= c <= 'z' }

  predicate IsLetter(c: char) { IsUpperAscii(c) || IsLowerAscii(c) }

  predicate IsAlnum(c: char) { IsLetter(c) || IsDigit(c) }

  function LowerChar(c: char): char {
    if IsUpperAscii(c) then (c as int + 32) as char else c
  }

  function UpperChar(c: char): char {
    if IsLowerAscii(c) then (c as int - 32) as char else c
  }

  /** ASCII case mapping keeps whether a character is whitespace, a letter or a digit. */
  lemma CaseKeepsClass(c: char)
    ensures IsSpace(UpperChar(c)) <==> IsSpace(c)
    ensures IsSpace(LowerChar(c)) <==> IsSpace(c)
    ensures IsAlnum(UpperChar(c)) <==> IsAlnum(c)
  {
    if IsLowerAscii(c) {
      assert 'A' <= UpperChar(c) <= 'Z';
    }
    if IsUpperAscii(c) {
      assert 'a' <= LowerChar(c) <= 'z';
    }
  }

  function DigitValue(c: char): nat
    requires IsDigit(c)
  {
    c as int - '0' as int
  }

  // ---------------------------------------------------------------------------
  // str.lower() / str.upper()

  function Lower(s: string): (r: string)
    ensures |r| == |s|
    ensures forall i :: 0 <= i < |s| ==> r[i] == LowerChar(s[i])
  {
    if s == [] then [] else [LowerChar(s[0])] + Lower(s[1..])
  }

  /** Lower-casing twice is lower-casing once. */
  lemma {:induction false} LowerIdempotent(s: string)
    ensures Lower(Lower(s)) == Lower(s)
  {
    var l := Lower(s);
    assert forall i :: 0 <= i < |s| ==> LowerChar(l[i]) == l[i];
  }

  /** A string without upper-case ASCII letters is its own lower-casing. */
  lemma LowerNoUpper(s: string)
    requires forall i :: 0 <= i < |s| ==> !IsUpperAscii(s[i])
    ensures Lower(s) == s
  {
  }

  function Upper(s: string): (r: string)
    ensures |r| == |s|
    ensures forall i :: 0 <= i < |s| ==> r[i] == UpperChar(s[i])
  {
    if s == [] then [] else [UpperChar(s[0])] + Upper(s[1..])
  }

  // ---------------------------------------------------------------------------
  // str.strip()

  function LStrip(s: string): (r: string)
    ensures |r| <= |s|
    ensures r == [] || !IsSpace(r[0])
  {
    if s != [] && IsSpace(s[0]) then LStrip(s[1..]) else s
  }

  function RStrip(s: string): (r: string)
    ensures |r| <= |s|
    ensures r == [] || !IsSpace(r[|r| - 1])
    ensures r == [] || r[0] == s[0]
  {
    if s != [] && IsSpace(s[|s| - 1]) then RStrip(s[..|s| - 1]) else s
  }

  /** Python's str.strip(): the result has no leading or trailing whitespace;
      StripIsMiddle shows it is a middle slice of the input with only whitespace
      removed around it. */
  function Strip(s: string): (r: string)
    ensures |r| <= |s|
    ensures r == [] || (!IsSpace(r[0]) && !IsSpace(r[|r| - 1]))
  {
    RStrip(LStrip(s))
  }

  /** Every character of `s` before `i` and from `j` on is whitespace. */
  predicate OnlySpaceOutside(s: string, i: int, j: int)
    requires 0 <= i <= j <= |s|
  {
    (forall k :: 0 <= k < i ==> IsSpace(s[k])) && (forall k :: j <= k < |s| ==> IsSpace(s[k]))
  }

  /** The left strip drops a whitespace prefix and keeps the rest. */
  lemma {:induction false} LStripSuffix(s: string)
    ensures LStrip(s) == s[|s| - |LStrip(s)|..]
    ensures forall k :: 0 <= k < |s| - |LStrip(s)| ==> IsSpace(s[k])
  {
    if s != [] && IsSpace(s[0]) {
      LStripSuffix(s[1..]);
    }
  }

  /** The right strip drops a whitespace suffix and keeps the rest. */
  lemma {:induction false} RStripPrefix(s: string)
    ensures RStrip(s) == s[..|RStrip(s)|]
    ensures forall k :: |RStrip(s)| <= k < |s| ==> IsSpace(s[k])
  {
    if s != [] && IsSpace(s[|s| - 1]) {
      RStripPrefix(s[..|s| - 1]);
    }
  }

  /** The stripped string is the slice s[i..j] of the input, and everything outside
      that slice is whitespace. */
  lemma StripIsMiddle(s: string)
    ensures exists i, j :: 0 <= i <= j <= |s| && Strip(s) == s[i..j] && OnlySpaceOutside(s, i, j)
  {
    var l := LStrip(s);
    var i := |s| - |l|;
    LStripSuffix(s);
    RStripPrefix(l);
    assert Strip(s) == s[i..i + |RStrip(l)|];
    assert OnlySpaceOutside(s, i, i + |RStrip(l)|);
  }

  /** Stripping a string with no whitespace at either end leaves it as it is. */
  lemma StripNoop(s: string)
    requires s == [] || (!IsSpace(s[0]) && !IsSpace(s[|s| - 1]))
    ensures Strip(s) == s
  {
  }

  /** Stripping only removes characters: whatever the result holds, the input held. */
  lemma StripKeeps(s: string)
    ensures forall c :: c in Strip(s) ==> c in s
    ensures forall i :: 0 <= i < |Strip(s)| ==> Strip(s)[i] in s
  {
    LStripKeeps(s);
    RStripKeeps(LStrip(s));
  }

  lemma {:induction false} LStripKeeps(s: string)
    ensures forall c :: c in LStrip(s) ==> c in s
  {
    if s != [] && IsSpace(s[0]) {
      LStripKeeps(s[1..]);
    }
  }

  lemma {:induction false} RStripKeeps(s: string)
    ensures forall c :: c in RStrip(s) ==> c in s
  {
    if s != [] && IsSpace(s[|s| - 1]) {
      RStripKeeps(s[..|s| - 1]);
    }
  }

  // ---------------------------------------------------------------------------
  // Prefixes, suffixes and substrings

  predicate StartsWith(s: string, p: string) {
    |p| <= |s| && s[..|p|] == p
  }

  predicate EndsWith(s: string, p: string) {
    |p| <= |s| && s[|s| - |p|..] == p
  }

  /** Python's `t in s` for strings. */
  predicate Contains(s: string, t: string)
    decreases |s|
  {
    StartsWith(s, t) || (s != [] && Contains(s[1..], t))
  }

  lemma ContainsAt(s: string, t: string, i: nat)
    requires i + |t| <= |s| && s[i..i + |t|] == t
    ensures Contains(s, t)
    decreases i
  {
    if i > 0 {
      assert s[1..][i - 1..i - 1 + |t|] == t;
      ContainsAt(s[1..], t, i - 1);
    }
  }

  // ---------------------------------------------------------------------------
  // str.split(sep) and str.find(sep) for a one-character separator

  function IndexOf(s: string, c: char): (r: Option<nat>)
    ensures r.Some? ==> r.value < |s| && s[r.value] == c && c !in s[..r.value]
    ensures r.None? ==> c !in s
  {
    if s == [] then None
    else if s[0] == c then Some(0)
    else match IndexOf(s[1..], c)
      case None => None
      case Some(i) => Some(i + 1)
  }

  /** Python's s.split(c): the pieces between occurrences of c, at least one piece. */
  function Split(s: string, c: char): (r: seq<string>)
    ensures |r| >= 1
    ensures forall k :: 0 <= k < |r| ==> c !in r[k]
    decreases |s|
  {
    match IndexOf(s, c)
    case None => [s]
    case Some(i) => [s[..i]] + Split(s[i + 1..], c)
  }

  function Join(parts: seq<string>, c: char): string
  {
    if parts == [] then ""
    else if |parts| == 1 then parts[0]
    else parts[0] + [c] + Join(parts[1..], c)
  }

  /** Splitting and joining back with the same separator restores the string. */
  lemma {:induction false} JoinSplit(s: string, c: char)
    ensures Join(Split(s, c), c) == s
    decreases |s|
  {
    match IndexOf(s, c)
    case None =>
    case Some(i) =>
      var rest := Split(s[i + 1..], c);
      var parts := [s[..i]] + rest;
      assert Split(s, c) == parts;
      assert parts[1..] == rest;
      JoinSplit(s[i + 1..], c);
      assert Join(parts, c) == s[..i] + [c] + s[i + 1..];
      assert s == s[..i] + [c] + s[i + 1..];
  }

  /** Joining pieces that do not contain the separator and splitting again gives
      the pieces back. */
  lemma {:induction false} SplitJoin(parts: seq<string>, c: char)
    requires parts != []
    requires forall k :: 0 <= k < |parts| ==> c !in parts[k]
    ensures Split(Join(parts, c), c) == parts
  {
    if |parts| > 1 {
      var s := Join(parts, c);
      var i := |parts[0]|;
      assert s == parts[0] + [c] + Join(parts[1..], c);
      assert s[i] == c && s[..i] == parts[0];
      assert IndexOf(s, c) == Some(i);
      assert s[i + 1..] == Join(parts[1..], c);
      SplitJoin(parts[1..], c);
    }
  }

  /** Python's sep.join(parts) for a string separator. */
  function JoinWith(parts: seq<string>, sep: string): (r: string)
    ensures parts == [] ==> r == ""
    ensures |parts| == 1 ==> r == parts[0]
  {
    if parts == [] then ""
    else if |parts| == 1 then parts[0]
    else parts[0] + sep + JoinWith(parts[1..], sep)
  }

  /** The text after the first `c`, i.e. Python's s.split(c, 1)[1]; None when
      there is no `c` (the source would raise IndexError). */
  function AfterFirst(s: string, c: char): (r: Option<string>)
    ensures r.Some? <==> c in s
  {
    match IndexOf(s, c)
    case None => None
    case Some(i) => Some(s[i + 1..])
  }

  // ---------------------------------------------------------------------------
  // int() and float() on strings

  predicate AllDigits(s: string) {
    forall i :: 0 <= i < |s| ==> IsDigit(s[i])
  }

  function DigitsValue(s: string): nat
    requires AllDigits(s)
  {
    if s == [] then 0 else DigitsValue(s[..|s| - 1]) * 10 + DigitValue(s[|s| - 1])
  }

  /** Python's int(s) for a string: optional surrounding whitespace, an optional
      sign, then one or more ASCII digits. None stands for ValueError. */
  function ParseInt(s: string): (r: Option<int>)
  {
    var t := Strip(s);
    if |t| > 0 && (t[0] == '+' || t[0] == '-') then
      var d := t[1..];
      if |d| > 0 && AllDigits(d) then Some(if t[0] == '-' then -(DigitsValue(d) as int) else DigitsValue(d) as int)
      else None
    else if |t| > 0 && AllDigits(t) then Some(DigitsValue(t) as int)
    else None
  }

  function Pow10(n: nat): (r: nat)
    ensures r >= 1
  {
    if n == 0 then 1 else 10 * Pow10(n - 1)
  }

  /** Decimal digits with an optional fractional part, at least one digit. */
  function ParseUnsignedDecimal(t: string): Option<real>
  {
    match IndexOf(t, '.')
    case None =>
      if |t| > 0 && AllDigits(t) then Some(DigitsValue(t) as real) else None
    case Some(i) =>
      var whole, frac := t[..i], t[i + 1..];
      if |whole| + |frac| > 0 && AllDigits(whole) && AllDigits(frac) then
        Some(DigitsValue(whole) as real + DigitsValue(frac) as real / Pow10(|frac|) as real)
      else None
  }

  /** Python's float(s) for a string, restricted to plain decimal notation. */
  function ParseFloat(s: string): Option<real>
  {
    var t := Strip(s);
    if |t| > 0 && (t[0] == '+' || t[0] == '-') then
      match ParseUnsignedDecimal(t[1..])
      case None => None
      case Some(x) => Some(if t[0] == '-' then -x else x)
    else ParseUnsignedDecimal(t)
  }

  // ---------------------------------------------------------------------------
  // Dynamically typed values and insertion-ordered dictionaries

  datatype Value =
    | VNone
    | VBool(b: bool)
    | VInt(i: int)
    | VReal(r: real)
    | VStr(s: string)
    | VList(items: seq<Value>)
    | VDict(entries: seq<(string, Value)>)

  type Dict = seq<(string, Value)>

  /** Python truthiness: None, False, zero, and empty strings, lists and dicts are false. */
  predicate Truthy(v: Value) {
    match v
    case VNone => false
    case VBool(b) => b
    case VInt(i) => i != 0
    case VReal(r) => r != 0.0
    case VStr(s) => s != ""
    case VList(l) => l != []
    case VDict(d) => d != []
  }

  function Get(d: Dict, k: string): (r: Option<Value>)
    ensures r.None? <==> forall i :: 0 <= i < |d| ==> d[i].0 != k
  {
    if d == [] then None else if d[0].0 == k then Some(d[0].1) else Get(d[1..], k)
  }

  /** The value of a key is the one at its first occurrence. */
  lemma {:induction false} GetFirst(d: Dict, k: string, i: nat)
    requires i < |d| && d[i].0 == k && forall j :: 0 <= j < i ==> d[j].0 != k
    ensures Get(d, k) == Some(d[i].1)
  {
    if i > 0 {
      GetFirst(d[1..], k, i - 1);
    }
  }

  predicate Has(d: Dict, k: string) { Get(d, k).Some? }

  /** `k in d and d[k]`: the key is present with a truthy value. */
  predicate HasTruthy(d: Dict, k: string) { Has(d, k) && Truthy(Get(d, k).value) }

  /** `k in d and d[k] is not None`. */
  predicate HasNonNull(d: Dict, k: string) { Has(d, k) && Get(d, k).value != VNone }

  /** The keys of a dictionary (or any table of string keys), in order. */
  /** `d.get(k, default)`: the stored value when the key is present, else the default. */
  function GetOr(d: Dict, k: string, default: Value): (r: Value)
    ensures Has(d, k) ==> r == Get(d, k).value
    ensures !Has(d, k) ==> r == default
  {
    match Get(d, k)
    case Some(v) => v
    case None => default
  }

  function KeysOf<V>(t: seq<(string, V)>): (r: seq<string>)
    ensures |r| == |t| && forall i :: 0 <= i < |t| ==> r[i] == t[i].0
  {
    seq(|t|, i requires 0 <= i < |t| => t[i].0)
  }

  /** `d[k] = v`: an existing key keeps its place and takes the new value; a new key
      goes at the end. No other key changes. */
  function Put(d: Dict, k: string, v: Value): (r: Dict)
    ensures Get(r, k) == Some(v)
    ensures forall j :: j != k ==> Get(r, j) == Get(d, j)
  {
    if d == [] then [(k, v)]
    else if d[0].0 == k then [(k, v)] + d[1..]
    else [d[0]] + Put(d[1..], k, v)
  }

  /** `d.update(u)`: each entry of `u` assigned in turn. Keys `u` lacks keep their
      values; a key of `u` ends with one of the values `u` gives it. */
  function UpdateDict(d: Dict, u: Dict): (r: Dict)
    ensures forall k :: !Has(u, k) ==> Get(r, k) == Get(d, k)
    ensures forall k :: Has(u, k) ==> exists i :: 0 <= i < |u| && u[i].0 == k && Get(r, k) == Some(u[i].1)
  {
    if u == [] then d
    else
      var prev := UpdateDict(d, u[..|u| - 1]);
      UpdateStep(d, u, u[..|u| - 1], prev);
      Put(prev, u[|u| - 1].0, u[|u| - 1].1)
  }

  /** Assigning the last entry of u after the others keeps the two promises of
      `UpdateDict`. */
  lemma UpdateStep(d: Dict, u: Dict, init: Dict, prev: Dict)
    requires u != [] && init == u[..|u| - 1]
    requires forall k :: !Has(init, k) ==> Get(prev, k) == Get(d, k)
    requires forall k :: Has(init, k) ==> exists i :: 0 <= i < |init| && init[i].0 == k && Get(prev, k) == Some(init[i].1)
    ensures var r := Put(prev, u[|u| - 1].0, u[|u| - 1].1);
      forall k :: !Has(u, k) ==> Get(r, k) == Get(d, k)
    ensures var r := Put(prev, u[|u| - 1].0, u[|u| - 1].1);
      forall k :: Has(u, k) ==> exists i :: 0 <= i < |u| && u[i].0 == k && Get(r, k) == Some(u[i].1)
  {
    var last := u[|u| - 1];
    var r := Put(prev, last.0, last.1);
    assert forall k :: Has(init, k) ==> Has(u, k) by {
      forall k | Has(init, k) ensures Has(u, k) {
        var i :| 0 <= i < |init| && init[i].0 == k;
        assert u[i].0 == k;
      }
    }
    assert Has(u, last.0) by { assert u[|u| - 1].0 == last.0; }
    forall k | Has(u, k) ensures exists i :: 0 <= i < |u| && u[i].0 == k && Get(r, k) == Some(u[i].1) {
      if k == last.0 {
        assert u[|u| - 1].0 == k && Get(r, k) == Some(u[|u| - 1].1);
      } else {
        var j :| 0 <= j < |u| && u[j].0 == k;
        assert init[j].0 == k;
        var i :| 0 <= i < |init| && init[i].0 == k && Get(prev, k) == Some(init[i].1);
        assert u[i] == init[i];
      }
    }
  }

  /** Assignment keeps the keys and their order, adding a new key at the end. */
  lemma {:induction false} PutKeys(d: Dict, k: string, v: Value)
    ensures |Put(d, k, v)| == if Has(d, k) then |d| else |d| + 1
    ensures forall i :: 0 <= i < |d| ==> Put(d, k, v)[i].0 == d[i].0
  {
    if d != [] && d[0].0 != k {
      PutKeys(d[1..], k, v);
      var r := Put(d, k, v);
      assert r == [d[0]] + Put(d[1..], k, v);
      forall i | 1 <= i < |d|
        ensures r[i].0 == d[i].0
      {
        assert r[i] == Put(d[1..], k, v)[i - 1];
      }
    }
  }

  /** Python's float(v): booleans, integers and floats convert, strings are parsed,
      anything else (None, lists, dicts) raises TypeError, here None. */
  function ToFloat(v: Value): Option<real>
  {
    match v
    case VBool(b) => Some(if b then 1.0 else 0.0)
    case VInt(i) => Some(i as real)
    case VReal(r) => Some(r)
    case VStr(s) => ParseFloat(s)
    case _ => None
  }

  /** Truncation toward zero, as Python's int() does to a float. */
  function TruncReal(r: real): int
  {
    if r >= 0.0 then r.Floor else -((-r).Floor)
  }

  /** Python's int(v): booleans, integers, floats (truncated) and integer strings. */
  function ToInt(v: Value): Option<int>
  {
    match v
    case VBool(b) => Some(if b then 1 else 0)
    case VInt(i) => Some(i)
    case VReal(r) => Some(TruncReal(r))
    case VStr(s) => ParseInt(s)
    case _ => None
  }

  /** The numeric reading used by Python comparisons such as `value < 60`:
      booleans, integers and floats compare; other types raise TypeError. */
  function Numeric(v: Value): Option<real>
  {
    match v
    case VBool(b) => Some(if b then 1.0 else 0.0)
    case VInt(i) => Some(i as real)
    case VReal(r) => Some(r)
    case _ => None
  }

  function Count<T(==)>(s: seq<T>, x: T): nat
  {
    if s == [] then 0 else (if s[0] == x then 1 else 0) + Count(s[1..], x)
  }

  lemma {:induction false} CountAppend<T>(a: seq<T>, b: seq<T>, x: T)
    ensures Count(a + b, x) == Count(a, x) + Count(b, x)
  {
    if a == [] {
      assert a + b == b;
    } else {
      assert (a + b)[1..] == a[1..] + b;
      CountAppend(a[1..], b, x);
    }
  }

  lemma {:induction false} CountAbsent<T>(a: seq<T>, x: T)
    requires x !in a
    ensures Count(a, x) == 0
  {
    if a != [] {
      CountAbsent(a[1..], x);
    }
  }

  lemma EmptyConcat<T>(a: seq<T>, b: seq<T>, c: seq<T>)
    ensures a + b + c == [] <==> a == [] && b == [] && c == []
  {
    assert |a + b + c| == |a| + |b| + |c|;
  }

  lemma AppendAssoc<T>(a: seq<T>, b: seq<T>, c: seq<T>)
    ensures (a + b) + c == a + (b + c)
  {
  }

  predicate NoDuplicates<T(==)>(s: seq<T>) {
    forall i, j :: 0 <= i < j < |s| ==> s[i] != s[j]
  }

  /** Keeps one copy of each element (its last occurrence): the model's reading of
      Python's list(set(xs)), whose order Python leaves unspecified. */
  function Dedup<T(==,!new)>(s: seq<T>): (r: seq<T>)
    ensures NoDuplicates(r)
    ensures forall x :: x in r <==> x in s
    decreases |s|
  {
    if s == [] then []
    else
      var rest := Dedup(s[1..]);
      if s[0] in rest then rest else [s[0]] + rest
  }

  /** A list without repeats comes through deduplication unchanged. */
  lemma {:induction false} DedupNoop<T(!new)>(s: seq<T>)
    requires NoDuplicates(s)
    ensures Dedup(s) == s
  {
    if s != [] {
      DedupNoop(s[1..]);
      assert s[0] !in s[1..];
    }
  }

  // ---------------------------------------------------------------------------
  // str() of an integer

  function DigitChar(d: nat): char
    requires d < 10
  {
    ('0' as int + d) as char
  }

  /** The decimal digits of n, as str(n). */
  function NatToString(n: nat): (r: string)
    ensures |r| >= 1 && AllDigits(r)
  {
    if n < 10 then [DigitChar(n)] else NatToString(n / 10) + [DigitChar(n % 10)]
  }

  /** Reading back a written number gives the number. */
  lemma {:induction false} NatToStringRoundTrip(n: nat)
    ensures DigitsValue(NatToString(n)) == n
  {
    if n >= 10 {
      NatToStringRoundTrip(n / 10);
      var s := NatToString(n);
      assert s[..|s| - 1] == NatToString(n / 10);
    }
  }

  /** str(i) for any integer: a '-' in front of the digits of a negative one. */
  function IntToString(i: int): string
  {
    if i >= 0 then NatToString(i) else "-" + NatToString(-i)
  }
}
