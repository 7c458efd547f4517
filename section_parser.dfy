/** The line-prefix parser shared by the agents' `_parse_*` methods. A result text is
    split on newlines; every line is stripped; the first header whose prefix the line
    starts with either sets a scalar field (to the stripped text after the first ':',
    optionally lower-cased, or to its int() reading when that succeeds) or makes a list
    field the current section; any other line starting with '-' is appended, without
    its dash and stripped, to the current section. Each agent supplies its own header
    table and default record. */
module SectionParser {
  import opened Common

  datatype Action =
    | SetText(field: string, lower: bool)   // scalar string field, lower-cased or not
    | SetInt(field: string)                 // scalar int field, kept when int() fails
    | OpenList(field: string)               // switch the current list section

  datatype Header = Header(prefix: string, action: Action)

  datatype Record = Record(texts: map<string, string>, ints: map<string, int>, lists: map<string, seq<string>>)

  datatype State = State(rec: Record, current: Option<string>)

  /** The header chosen by the if/elif chain: the first one whose prefix matches. */
  function FindHeader(hs: seq<Header>, line: string): (r: Option<Header>)
    ensures r.Some? ==> r.value in hs && StartsWith(line, r.value.prefix)
    ensures r.None? <==> forall h :: h in hs ==> !StartsWith(line, h.prefix)
  {
    if hs == [] then None
    else if StartsWith(line, hs[0].prefix) then Some(hs[0])
    else FindHeader(hs[1..], line)
  }

  /** `line.split(':', 1)[1].strip()`; every header prefix ends in ':', so a header
      line always has a colon. */
  function FieldText(line: string): string
  {
    match AfterFirst(line, ':')
    case Some(t) => Strip(t)
    case None => ""
  }

  /** True when the stripped line is a bullet to be appended to the current section. */
  predicate IsBullet(hs: seq<Header>, line: string)
  {
    FindHeader(hs, line).None? && |line| > 0 && line[0] == '-'
  }

  function Apply(a: Action, line: string, st: State): State
  {
    match a
    case SetText(f, lower) =>
      var v := FieldText(line);
      st.(rec := st.rec.(texts := st.rec.texts[f := if lower then Lower(v) else v]))
    case SetInt(f) =>
      (match ParseInt(FieldText(line))
       case Some(n) => st.(rec := st.rec.(ints := st.rec.ints[f := n]))
       case None => st)
    case OpenList(f) => st.(current := Some(f))
  }

  /** One iteration of the loop over lines. */
  function Step(hs: seq<Header>, st: State, raw: string): State
  {
    var line := Strip(raw);
    match FindHeader(hs, line)
    case Some(h) => Apply(h.action, line, st)
    case None =>
      if |line| > 0 && line[0] == '-' && st.current.Some? && st.current.value in st.rec.lists then
        var f := st.current.value;
        st.(rec := st.rec.(lists := st.rec.lists[f := st.rec.lists[f] + [Strip(line[1..])]]))
      else st
  }

  /** The loop over `lines`, as a left fold from state `st`. */
  function Run(hs: seq<Header>, st: State, lines: seq<string>): State
    decreases |lines|
  {
    if lines == [] then st
    else Step(hs, Run(hs, st, lines[..|lines| - 1]), lines[|lines| - 1])
  }

  /** Field readers; a field the record lacks reads as empty or zero. */
  function TextOf(r: Record, f: string): string { if f in r.texts then r.texts[f] else "" }

  function IntOf(r: Record, f: string): int { if f in r.ints then r.ints[f] else 0 }

  function ListOf(r: Record, f: string): seq<string> { if f in r.lists then r.lists[f] else [] }

  /** The parse of a whole result text from the default record, no section open. */
  function Parse(hs: seq<Header>, defaults: Record, text: string): Record
  {
    Run(hs, State(defaults, None), Split(text, '\n')).rec
  }

  /** The parser loop itself: a mutable record and current section, updated line by line. */
  method ParseLines(hs: seq<Header>, defaults: Record, lines: seq<string>) returns (r: Record)
    ensures r == Run(hs, State(defaults, None), lines).rec
  {
    var texts, ints, lists := defaults.texts, defaults.ints, defaults.lists;
    var current: Option<string> := None;
    var i := 0;
    while i < |lines|
      invariant 0 <= i <= |lines|
      invariant State(Record(texts, ints, lists), current) == Run(hs, State(defaults, None), lines[..i])
    {
      RunSnoc(hs, State(defaults, None), lines, i);
      ghost var next := Step(hs, State(Record(texts, ints, lists), current), lines[i]);
      var line := Strip(lines[i]);
      var h := FindHeader(hs, line);
      if h.Some? {
        match h.value.action {
          case SetText(f, lower) =>
            var v := FieldText(line);
            if lower {
              v := Lower(v);
            }
            texts := texts[f := v];
          case SetInt(f) =>
            var n := ParseInt(FieldText(line));
            if n.Some? {
              ints := ints[f := n.value];
            }
          case OpenList(f) =>
            current := Some(f);
        }
      } else if |line| > 0 && line[0] == '-' && current.Some? && current.value in lists {
        lists := lists[current.value := lists[current.value] + [Strip(line[1..])]];
      }
      assert State(Record(texts, ints, lists), current) == next;
      i := i + 1;
    }
    assert lines[..i] == lines;
    r := Record(texts, ints, lists);
  }

  /** Parsing a text is running the loop over its lines. */
  method ParseText(hs: seq<Header>, defaults: Record, text: string) returns (r: Record)
    ensures r == Parse(hs, defaults, text)
  {
    r := ParseLines(hs, defaults, Split(text, '\n'));
  }

  // ---------------------------------------------------------------------------
  // Properties of the loop

  lemma RunSnoc(hs: seq<Header>, st: State, lines: seq<string>, i: nat)
    requires i < |lines|
    ensures Run(hs, st, lines[..i + 1]) == Step(hs, Run(hs, st, lines[..i]), lines[i])
  {
    assert lines[..i + 1][..i] == lines[..i];
  }

  lemma UpdateKeepsKeys<V>(m: map<string, V>, k: string, v: V)
    requires k in m
    ensures m[k := v].Keys == m.Keys
  {
  }

  lemma StepKeepsFields(hs: seq<Header>, st: State, raw: string)
    requires Targets(hs, st.rec)
    ensures var r := Step(hs, st, raw).rec;
      r.texts.Keys == st.rec.texts.Keys && r.ints.Keys == st.rec.ints.Keys && r.lists.Keys == st.rec.lists.Keys
  {
    var line := Strip(raw);
    match FindHeader(hs, line) {
      case Some(h) =>
        assert h in hs;
        match h.action {
          case SetText(f, lower) =>
            var v := FieldText(line);
            assert f in st.rec.texts;
            UpdateKeepsKeys(st.rec.texts, f, if lower then Lower(v) else v);
            assert Step(hs, st, raw).rec == st.rec.(texts := st.rec.texts[f := if lower then Lower(v) else v]);
          case SetInt(f) =>
            match ParseInt(FieldText(line)) {
              case Some(n) =>
                assert f in st.rec.ints;
                UpdateKeepsKeys(st.rec.ints, f, n);
                assert Step(hs, st, raw).rec == st.rec.(ints := st.rec.ints[f := n]);
              case None => assert Step(hs, st, raw) == st;
            }
          case OpenList(f) =>
            assert Step(hs, st, raw).rec == st.rec;
        }
      case None =>
        StepListsGrow(hs, st, raw);
        assert Step(hs, st, raw).rec.texts == st.rec.texts && Step(hs, st, raw).rec.ints == st.rec.ints;
    }
  }

  lemma StepListsGrow(hs: seq<Header>, st: State, raw: string)
    ensures var r := Step(hs, st, raw).rec;
      r.lists.Keys == st.rec.lists.Keys && forall f :: f in st.rec.lists ==> st.rec.lists[f] <= r.lists[f]
  {
    var line := Strip(raw);
    match FindHeader(hs, line) {
      case Some(h) =>
        assert Step(hs, st, raw).rec.lists == st.rec.lists;
      case None =>
        if |line| > 0 && line[0] == '-' && st.current.Some? && st.current.value in st.rec.lists {
          var f := st.current.value;
          var ls := st.rec.lists[f := st.rec.lists[f] + [Strip(line[1..])]];
          assert Step(hs, st, raw).rec.lists == ls;
          assert ls.Keys == st.rec.lists.Keys;
        } else {
          assert Step(hs, st, raw) == st;
        }
    }
  }

  lemma StepTextUntouched(hs: seq<Header>, st: State, raw: string, f: string)
    requires f in st.rec.texts && !SetsText(hs, raw, f)
    ensures f in Step(hs, st, raw).rec.texts && Step(hs, st, raw).rec.texts[f] == st.rec.texts[f]
  {
    var line := Strip(raw);
    match FindHeader(hs, line) {
      case Some(h) =>
        match h.action {
          case SetText(g, lower) =>
            var v := FieldText(line);
            assert g != f;
            assert Step(hs, st, raw).rec.texts == st.rec.texts[g := if lower then Lower(v) else v];
          case SetInt(g) =>
            assert Step(hs, st, raw).rec.texts == st.rec.texts;
          case OpenList(g) =>
            assert Step(hs, st, raw).rec.texts == st.rec.texts;
        }
      case None =>
        assert Step(hs, st, raw).rec.texts == st.rec.texts;
    }
  }

  /** Running over a concatenation is running over each part in turn. */
  lemma {:induction false} RunAppend(hs: seq<Header>, st: State, a: seq<string>, b: seq<string>)
    ensures Run(hs, st, a + b) == Run(hs, Run(hs, st, a), b)
    decreases |b|
  {
    if b == [] {
      assert a + b == a;
    } else {
      assert (a + b)[..|a + b| - 1] == a + b[..|b| - 1];
      RunAppend(hs, st, a, b[..|b| - 1]);
    }
  }

  /** The record keeps its set of fields: scalar headers only overwrite fields the
      defaults already hold, and bullets only go to existing list fields. */
  predicate Targets(hs: seq<Header>, r: Record)
  {
    forall h :: h in hs ==>
      match h.action
      case SetText(f, _) => f in r.texts
      case SetInt(f) => f in r.ints
      case OpenList(_) => true
  }

  lemma {:induction false} RunKeepsFields(hs: seq<Header>, st: State, lines: seq<string>)
    requires Targets(hs, st.rec)
    ensures var r := Run(hs, st, lines).rec;
      r.texts.Keys == st.rec.texts.Keys && r.ints.Keys == st.rec.ints.Keys && r.lists.Keys == st.rec.lists.Keys
    decreases |lines|
  {
    if lines != [] {
      var prev := Run(hs, st, lines[..|lines| - 1]);
      RunKeepsFields(hs, st, lines[..|lines| - 1]);
      assert Targets(hs, prev.rec);
      StepKeepsFields(hs, prev, lines[|lines| - 1]);
    }
  }

  /** A parsed text has the fields of the defaults. */
  lemma ParseKeepsFields(hs: seq<Header>, defaults: Record, text: string)
    requires Targets(hs, defaults)
    ensures var r := Parse(hs, defaults, text);
      r.texts.Keys == defaults.texts.Keys && r.ints.Keys == defaults.ints.Keys && r.lists.Keys == defaults.lists.Keys
  {
    RunKeepsFields(hs, State(defaults, None), Split(text, '\n'));
  }

  /** A lower-cased field with a lower-case default is lower case after parsing any text. */
  lemma ParseLowered(hs: seq<Header>, defaults: Record, text: string, f: string)
    requires LowersText(hs, f)
    requires f in defaults.texts && Lower(defaults.texts[f]) == defaults.texts[f]
    ensures Lower(TextOf(Parse(hs, defaults, text), f)) == TextOf(Parse(hs, defaults, text), f)
  {
    LoweredStaysLower(hs, State(defaults, None), Split(text, '\n'), f);
  }

  /** An int field parses to its default or to the int() reading of one of the lines. */
  lemma ParseIntDefaultOrLine(hs: seq<Header>, defaults: Record, text: string, f: string)
    requires f in defaults.ints
    ensures var v := IntOf(Parse(hs, defaults, text), f);
      v == defaults.ints[f] || IntOnSomeLine(Split(text, '\n'), v)
  {
    IntFromSomeLine(hs, State(defaults, None), Split(text, '\n'), f);
  }

  /** A text in which no line is a header parses to the defaults. */
  lemma ParseHeaderless(hs: seq<Header>, defaults: Record, text: string)
    requires forall i :: 0 <= i < |Split(text, '\n')| ==> FindHeader(hs, Strip(Split(text, '\n')[i])).None?
    ensures Parse(hs, defaults, text) == defaults
  {
    NoHeaderKeepsDefaults(hs, State(defaults, None), Split(text, '\n'));
  }

  /** Lists only grow: every list field ends with its starting items as a prefix. */
  lemma {:induction false} RunListsGrow(hs: seq<Header>, st: State, lines: seq<string>)
    ensures var r := Run(hs, st, lines).rec;
      r.lists.Keys == st.rec.lists.Keys && forall f :: f in st.rec.lists ==> st.rec.lists[f] <= r.lists[f]
    decreases |lines|
  {
    if lines != [] {
      RunListsGrow(hs, st, lines[..|lines| - 1]);
      StepListsGrow(hs, Run(hs, st, lines[..|lines| - 1]), lines[|lines| - 1]);
    }
  }

  /** No line opens a list section. */
  predicate NoListHeader(hs: seq<Header>, lines: seq<string>)
  {
    forall i :: 0 <= i < |lines| ==>
      match FindHeader(hs, Strip(lines[i]))
      case Some(h) => !h.action.OpenList?
      case None => true
  }

  /** Bullets before any list header are dropped: while no section is open,
      the lists stay exactly as they were. */
  lemma {:induction false} BulletsBeforeSectionDropped(hs: seq<Header>, st: State, lines: seq<string>)
    requires st.current.None? && NoListHeader(hs, lines)
    ensures Run(hs, st, lines).rec.lists == st.rec.lists
    ensures Run(hs, st, lines).current.None?
    decreases |lines|
  {
    if lines != [] {
      BulletsBeforeSectionDropped(hs, st, lines[..|lines| - 1]);
      var prev := Run(hs, st, lines[..|lines| - 1]);
      assert match FindHeader(hs, Strip(lines[|lines| - 1]))
        case Some(h) => !h.action.OpenList?
        case None => true;
    }
  }

  /** Text with no header line at all leaves the defaults untouched. */
  lemma {:induction false} NoHeaderKeepsDefaults(hs: seq<Header>, st: State, lines: seq<string>)
    requires st.current.None?
    requires forall i :: 0 <= i < |lines| ==> FindHeader(hs, Strip(lines[i])).None?
    ensures Run(hs, st, lines) == st
    decreases |lines|
  {
    if lines != [] {
      NoHeaderKeepsDefaults(hs, st, lines[..|lines| - 1]);
      assert FindHeader(hs, Strip(lines[|lines| - 1])).None?;
    }
  }

  /** The header writes string field f. */
  predicate SetsText(hs: seq<Header>, line: string, f: string)
  {
    match FindHeader(hs, Strip(line))
    case Some(h) => h.action.SetText? && h.action.field == f
    case None => false
  }

  /** A scalar field no line names keeps its value. */
  lemma {:induction false} TextUntouched(hs: seq<Header>, st: State, lines: seq<string>, f: string)
    requires f in st.rec.texts
    requires forall i :: 0 <= i < |lines| ==> !SetsText(hs, lines[i], f)
    ensures f in Run(hs, st, lines).rec.texts
    ensures Run(hs, st, lines).rec.texts[f] == st.rec.texts[f]
    decreases |lines|
  {
    if lines != [] {
      TextUntouched(hs, st, lines[..|lines| - 1], f);
      StepTextUntouched(hs, Run(hs, st, lines[..|lines| - 1]), lines[|lines| - 1], f);
    }
  }

  /** The value a scalar header line gives to its field. */
  function HeaderText(hs: seq<Header>, line: string): string
  {
    var l := Strip(line);
    match FindHeader(hs, l)
    case Some(Header(_, SetText(_, true))) => Lower(FieldText(l))
    case _ => FieldText(l)
  }

  /** A later header of the same name overwrites an earlier one: the field ends
      with the value of the last line that names it. */
  lemma {:induction false} LastTextWins(hs: seq<Header>, st: State, pre: seq<string>, line: string, post: seq<string>, f: string)
    requires SetsText(hs, line, f)
    requires forall i :: 0 <= i < |post| ==> !SetsText(hs, post[i], f)
    ensures f in Run(hs, st, pre + [line] + post).rec.texts
    ensures Run(hs, st, pre + [line] + post).rec.texts[f] == HeaderText(hs, line)
  {
    RunAppend(hs, st, pre + [line], post);
    var mid := Run(hs, st, pre + [line]);
    assert (pre + [line])[..|pre + [line]| - 1] == pre;
    TextUntouched(hs, mid, post, f);
  }

  /** Every header naming field f lower-cases its value. */
  predicate LowersText(hs: seq<Header>, f: string)
  {
    forall h :: h in hs && h.action.SetText? && h.action.field == f ==> h.action.lower
  }

  /** LowersText checked header by header. */
  lemma LowersTextAt(hs: seq<Header>, f: string)
    requires forall i :: 0 <= i < |hs| && hs[i].action.SetText? && hs[i].action.field == f ==> hs[i].action.lower
    ensures LowersText(hs, f)
  {
    forall h | h in hs && h.action.SetText? && h.action.field == f ensures h.action.lower {
      var i :| 0 <= i < |hs| && hs[i] == h;
    }
  }

  /** A field whose header lower-cases its value, and whose default is lower case,
      is lower case after any text. */
  lemma {:induction false} LoweredStaysLower(hs: seq<Header>, st: State, lines: seq<string>, f: string)
    requires LowersText(hs, f)
    requires f in st.rec.texts && Lower(st.rec.texts[f]) == st.rec.texts[f]
    ensures f in Run(hs, st, lines).rec.texts
    ensures var v := Run(hs, st, lines).rec.texts[f]; Lower(v) == v
    decreases |lines|
  {
    if lines != [] {
      LoweredStaysLower(hs, st, lines[..|lines| - 1], f);
      var prev := Run(hs, st, lines[..|lines| - 1]);
      var line := Strip(lines[|lines| - 1]);
      match FindHeader(hs, line) {
        case Some(h) =>
          if h.action.SetText? && h.action.field == f {
            LowerIdempotent(FieldText(line));
          }
        case None =>
      }
    }
  }

  lemma StepIntSource(hs: seq<Header>, st: State, raw: string, f: string)
    requires f in st.rec.ints
    ensures f in Step(hs, st, raw).rec.ints
    ensures var v := Step(hs, st, raw).rec.ints[f];
      v == st.rec.ints[f] || ParseInt(FieldText(Strip(raw))) == Some(v)
  {
    var line := Strip(raw);
    match FindHeader(hs, line) {
      case Some(h) =>
        match h.action {
          case SetText(g, lower) =>
            assert Step(hs, st, raw).rec.ints == st.rec.ints;
          case SetInt(g) =>
            match ParseInt(FieldText(line)) {
              case Some(n) =>
                assert Step(hs, st, raw).rec.ints == st.rec.ints[g := n];
                if g == f {
                  assert Step(hs, st, raw).rec.ints[f] == n;
                } else {
                  assert Step(hs, st, raw).rec.ints[f] == st.rec.ints[f];
                }
              case None => assert Step(hs, st, raw) == st;
            }
          case OpenList(g) =>
            assert Step(hs, st, raw).rec.ints == st.rec.ints;
        }
      case None =>
        StepKeepsOthers(hs, st, raw);
    }
  }

  lemma StepKeepsOthers(hs: seq<Header>, st: State, raw: string)
    requires FindHeader(hs, Strip(raw)).None?
    ensures Step(hs, st, raw).rec.texts == st.rec.texts && Step(hs, st, raw).rec.ints == st.rec.ints
  {
  }

  /** Some line's header text reads as the int v. */
  predicate IntOnSomeLine(lines: seq<string>, v: int)
  {
    exists i :: 0 <= i < |lines| && ParseInt(FieldText(Strip(lines[i]))) == Some(v)
  }

  lemma IntOnLongerText(init: seq<string>, lines: seq<string>, v: int)
    requires init <= lines && IntOnSomeLine(init, v)
    ensures IntOnSomeLine(lines, v)
  {
    var i :| 0 <= i < |init| && ParseInt(FieldText(Strip(init[i]))) == Some(v);
    assert lines[i] == init[i];
  }

  /** An int field either keeps its value or takes the int() reading of one of the lines. */
  lemma {:induction false} IntFromSomeLine(hs: seq<Header>, st: State, lines: seq<string>, f: string)
    requires f in st.rec.ints
    ensures f in Run(hs, st, lines).rec.ints
    ensures var v := Run(hs, st, lines).rec.ints[f];
      v == st.rec.ints[f] || IntOnSomeLine(lines, v)
    decreases |lines|
  {
    if lines != [] {
      var init := lines[..|lines| - 1];
      IntFromSomeLine(hs, st, init, f);
      var prev := Run(hs, st, init);
      var last := lines[|lines| - 1];
      var next := Step(hs, prev, last);
      assert Run(hs, st, lines) == next;
      StepIntSource(hs, prev, last, f);
      var v := next.rec.ints[f];
      if v != prev.rec.ints[f] {
        assert ParseInt(FieldText(Strip(lines[|lines| - 1]))) == Some(v);
        assert IntOnSomeLine(lines, v);
      } else if v != st.rec.ints[f] {
        IntOnLongerText(init, lines, v);
      }
    }
  }

  /** A bullet under an open list section is appended to that section, dash removed. */
  lemma BulletAppended(hs: seq<Header>, st: State, raw: string)
    requires IsBullet(hs, Strip(raw))
    requires st.current.Some? && st.current.value in st.rec.lists
    ensures var f := st.current.value; var l := Strip(raw);
      Step(hs, st, raw).rec.lists == st.rec.lists[f := st.rec.lists[f] + [Strip(l[1..])]]
    ensures Step(hs, st, raw).rec.texts == st.rec.texts && Step(hs, st, raw).rec.ints == st.rec.ints
  {
  }

  /** Scalar headers do not change the current section. */
  lemma ScalarKeepsSection(hs: seq<Header>, st: State, raw: string)
    requires FindHeader(hs, Strip(raw)).Some? && !FindHeader(hs, Strip(raw)).value.action.OpenList?
    ensures Step(hs, st, raw).current == st.current
  {
  }
}
