/** The project tree printer: which icon a file gets, the order of a directory's
    items, the connector and prefix each line is drawn with, and the counters the
    generator keeps. The file system is a value (`Node`); which names the exclude
    patterns match is a parameter, since glob matching is not part of the model. */
module TreeGenerator {
  import opened Common

  // ---------------------------------------------------------------------------
  // File icons

  datatype Icon =
    | Snake | Page | Memo | Clipboard | Gear | Globe | Palette | Scroll | Cabinet
    | RedBook | Picture | Chart | Package | NoEntry | Lock | Wrench | OpenBook | Target

  /** The emoji each icon is drawn as. */
  function Glyph(i: Icon): string {
    match i
    case Snake => "\U{1F40D}"
    case Page => "\U{1F4C4}"
    case Memo => "\U{1F4DD}"
    case Clipboard => "\U{1F4CB}"
    case Gear => "\U{2699}\U{FE0F}"
    case Globe => "\U{1F310}"
    case Palette => "\U{1F3A8}"
    case Scroll => "\U{1F4DC}"
    case Cabinet => "\U{1F5C4}\U{FE0F}"
    case RedBook => "\U{1F4D5}"
    case Picture => "\U{1F5BC}\U{FE0F}"
    case Chart => "\U{1F4CA}"
    case Package => "\U{1F4E6}"
    case NoEntry => "\U{1F6AB}"
    case Lock => "\U{1F510}"
    case Wrench => "\U{1F527}"
    case OpenBook => "\U{1F4D6}"
    case Target => "\U{1F3AF}"
  }

  /** The icon of each known extension. */
  const ExtensionIcons: seq<(string, Icon)> := [
    (".py", Snake), (".txt", Page), (".md", Memo), (".json", Clipboard),
    (".yml", Gear), (".yaml", Gear), (".xml", Page), (".html", Globe),
    (".css", Palette), (".js", Scroll), (".sql", Cabinet), (".pdf", RedBook),
    (".png", Picture), (".jpg", Picture), (".jpeg", Picture), (".gif", Picture),
    (".ico", Picture), (".csv", Chart), (".xlsx", Chart), (".requirements", Package),
    (".gitignore", NoEntry), (".env", Lock), (".ini", Gear), (".cfg", Gear),
    (".conf", Gear)
  ]

  /** The names with an icon of their own: the readme files, the two requirements
      files, `setup.py` and `manage.py`. */
  const FixedIcons: seq<(string, Icon)> := [
    ("README.md", OpenBook), ("README.txt", OpenBook), ("README", OpenBook),
    ("requirements.txt", Package), ("requirements-dev.txt", Package),
    ("setup.py", Wrench), ("manage.py", Target)
  ]

  /** The icon of the first entry with that key, if any. */
  function Lookup(table: seq<(string, Icon)>, key: string): (r: Option<Icon>)
    ensures r.None? <==> forall i :: 0 <= i < |table| ==> table[i].0 != key
    ensures forall i :: 0 <= i < |table| && table[i].0 == key && (forall j :: 0 <= j < i ==> table[j].0 != key) ==> r == Some(table[i].1)
  {
    if table == [] then None
    else if table[0].0 == key then Some(table[0].1)
    else Lookup(table[1..], key)
  }

  /** `icons.get(ext, default)`: the extension's icon, a page when the table does not know it. */
  function IconFor(ext: string): (r: Icon)
    ensures (forall i :: 0 <= i < |ExtensionIcons| ==> ExtensionIcons[i].0 != ext) ==> r == Page
  {
    match Lookup(ExtensionIcons, ext)
    case Some(i) => i
    case None => Page
  }

  function LastIndexOf(s: string, c: char): (r: Option<nat>)
    ensures r.Some? ==> r.value < |s| && s[r.value] == c && c !in s[r.value + 1..]
    ensures r.None? ==> c !in s
  {
    if s == [] then None
    else if s[|s| - 1] == c then Some(|s| - 1)
    else LastIndexOf(s[..|s| - 1], c)
  }

  /** `os.path.splitext(name)[1]`: from the last dot to the end, provided some
      character before that dot is not a dot itself; otherwise empty, so that
      '.bashrc' and '..' have no extension. */
  function Ext(name: string): (r: string)
    ensures r != [] ==> r[0] == '.' && EndsWith(name, r) && '.' !in r[1..]
  {
    match LastIndexOf(name, '.')
    case None => []
    case Some(i) =>
      if exists j :: 0 <= j < i && name[j] != '.' then
        assert name[i..][1..] == name[i + 1..];
        name[i..]
      else []
  }

  /** A name has an extension exactly when some dot in it follows a character
      that is not a dot. */
  lemma ExtPresent(name: string)
    ensures Ext(name) != [] <==> exists i, j :: 0 <= j < i < |name| && name[i] == '.' && name[j] != '.'
  {
  }

  /** A name none of the fixed rules catches: its icon comes from its extension. */
  predicate Ordinary(name: string) {
    !StartsWith(name, ".") && forall i :: 0 <= i < |FixedIcons| ==> FixedIcons[i].0 != name
  }

  /** `get_file_icon`: a hidden name first, then the names with an icon of their
      own, then a name without extension, then the extension in lower case. */
  function FileIcon(name: string): Icon {
    if StartsWith(name, ".") then Wrench
    else match Lookup(FixedIcons, name)
      case Some(i) => i
      case None =>
        var ext := Lower(Ext(name));
        if ext == [] then Page else IconFor(ext)
  }

  /** The order of the rules: a hidden name is a wrench whatever else holds; a name
      no fixed rule catches is a page without an extension and otherwise gets the
      icon of its lower-cased extension, a page when the table does not know it. */
  lemma FileIconRules(name: string)
    ensures StartsWith(name, ".") ==> FileIcon(name) == Wrench
    ensures Ordinary(name) && Ext(name) == [] ==> FileIcon(name) == Page
    ensures Ordinary(name) && Ext(name) != [] ==> FileIcon(name) == IconFor(Lower(Ext(name)))
    ensures Ordinary(name) && (forall i :: 0 <= i < |ExtensionIcons| ==> ExtensionIcons[i].0 != Lower(Ext(name))) ==> FileIcon(name) == Page
  {
  }

  /** The readme files, the requirements files, `setup.py` and `manage.py` get their
      own icon whatever their extension says ('README.md' is a book, not a memo). */
  lemma FixedNamesWin(k: nat)
    requires k < |FixedIcons|
    ensures FileIcon(FixedIcons[k].0) == FixedIcons[k].1
  {
    var name := FixedIcons[k].0;
    assert name[0] != '.' by {
      assert forall i :: 0 <= i < |FixedIcons| ==> FixedIcons[i].0[0] != '.';
    }
    assert name[..1] != ".";
    assert forall j :: 0 <= j < k ==> FixedIcons[j].0 != FixedIcons[k].0;
  }

  /** Only the extension counts for an ordinary name, and its case does not. */
  lemma ExtensionDecides(a: string, b: string)
    requires Ordinary(a) && Ordinary(b) && Lower(Ext(a)) == Lower(Ext(b))
    ensures FileIcon(a) == FileIcon(b)
  {
  }

  /** A hidden file is a wrench even when the table has its name as an extension
      ('.env'); the same extension after a stem gets the table's icon. */
  lemma HiddenBeatsTable(name: string)
    requires Ordinary(name) && Lower(Ext(name)) == ".env"
    ensures FileIcon(".env") == Wrench
    ensures FileIcon(name) == Lock
  {
    assert Lookup(FixedIcons, name).None?;
    EnvIconIsLock();
  }

  /** The table gives '.env' the lock. */
  lemma EnvIconIsLock()
    ensures IconFor(".env") == Lock
  {
    var t := ExtensionIcons;
    assert t[21] == (".env", Lock);
    NoEarlierE(t);
    LookupSkip(t, ".env", 21);
    assert t[21..][0] == (".env", Lock);
  }

  lemma NoEarlierE(t: seq<(string, Icon)>)
    requires t == ExtensionIcons
    ensures forall j :: 0 <= j < 21 ==> t[j].0 != ".env"
  {
    NoEarlierE0(t);
    NoEarlierE1(t);
    NoEarlierE2(t);
  }

  lemma NoEarlierE0(t: seq<(string, Icon)>)
    requires t == ExtensionIcons
    ensures forall j :: 0 <= j < 7 ==> t[j].0[1] != 'e'
  {
    assert t[0].0[1] != 'e' && t[1].0[1] != 'e' && t[2].0[1] != 'e' && t[3].0[1] != 'e';
    assert t[4].0[1] != 'e' && t[5].0[1] != 'e' && t[6].0[1] != 'e';
  }

  lemma NoEarlierE1(t: seq<(string, Icon)>)
    requires t == ExtensionIcons
    ensures forall j :: 7 <= j < 14 ==> t[j].0[1] != 'e'
  {
    assert t[7].0[1] != 'e' && t[8].0[1] != 'e' && t[9].0[1] != 'e' && t[10].0[1] != 'e';
    assert t[11].0[1] != 'e' && t[12].0[1] != 'e' && t[13].0[1] != 'e';
  }

  lemma NoEarlierE2(t: seq<(string, Icon)>)
    requires t == ExtensionIcons
    ensures forall j :: 14 <= j < 21 ==> t[j].0[1] != 'e'
  {
    assert t[14].0[1] != 'e' && t[15].0[1] != 'e' && t[16].0[1] != 'e' && t[17].0[1] != 'e';
    assert t[18].0[1] != 'e' && t[19].0[1] != 'e' && t[20].0[1] != 'e';
  }

  lemma {:induction false} LookupSkip(t: seq<(string, Icon)>, k: string, n: nat)
    requires n <= |t| && forall j :: 0 <= j < n ==> t[j].0 != k
    ensures Lookup(t, k) == Lookup(t[n..], k)
  {
    if n > 0 {
      assert t[1..][n - 1..] == t[n..];
      LookupSkip(t[1..], k, n - 1);
    }
  }

  // ---------------------------------------------------------------------------
  // Sort order

  /** A directory entry as listed: a directory with its listing (`readable` is
      false when listing it raises PermissionError), or a file. */
  datatype Node =
    | Dir(name: string, readable: bool, children: seq<Node>)
    | File(name: string)

  /** Python's `<=` on strings: code point by code point, a proper prefix first. */
  predicate StrLe(a: string, b: string) {
    a == [] || (b != [] && (a[0] < b[0] || (a[0] == b[0] && StrLe(a[1..], b[1..]))))
  }

  lemma {:induction false} StrLeTotal(a: string, b: string)
    ensures StrLe(a, b) || StrLe(b, a)
  {
    if a != [] && b != [] && a[0] == b[0] {
      StrLeTotal(a[1..], b[1..]);
    }
  }

  lemma {:induction false} StrLeTrans(a: string, b: string, c: string)
    requires StrLe(a, b) && StrLe(b, c)
    ensures StrLe(a, c)
  {
    if a != [] && a[0] == b[0] && b[0] == c[0] {
      StrLeTrans(a[1..], b[1..], c[1..]);
    }
  }

  /** The sort key `(not is_dir, name.lower())`, compared as Python compares tuples. */
  predicate KeyLe(a: Node, b: Node) {
    (a.Dir? && !b.Dir?) || (a.Dir? == b.Dir? && StrLe(Lower(a.name), Lower(b.name)))
  }

  lemma KeyLeTotal(a: Node, b: Node)
    ensures KeyLe(a, b) || KeyLe(b, a)
  {
    StrLeTotal(Lower(a.name), Lower(b.name));
  }

  lemma KeyLeTrans(a: Node, b: Node, c: Node)
    requires KeyLe(a, b) && KeyLe(b, c)
    ensures KeyLe(a, c)
  {
    if a.Dir? == b.Dir? && b.Dir? == c.Dir? {
      StrLeTrans(Lower(a.name), Lower(b.name), Lower(c.name));
    }
  }

  predicate SortedByKey(s: seq<Node>) {
    forall i, j :: 0 <= i < j < |s| ==> KeyLe(s[i], s[j])
  }

  /** Places x after every item that does not sort after it. */
  function Insert(x: Node, s: seq<Node>): (r: seq<Node>)
    requires SortedByKey(s)
    ensures SortedByKey(r)
    ensures multiset(r) == multiset(s) + multiset{x}
  {
    if s == [] then [x]
    else if !KeyLe(s[0], x) then
      PrependSorted(x, s);
      [x] + s
    else
      var rest := Insert(x, s[1..]);
      HeadBelowRest(s, x, rest);
      [s[0]] + rest
  }

  /** An item that sorts before the head of a sorted list may go in front of it. */
  lemma PrependSorted(x: Node, s: seq<Node>)
    requires SortedByKey(s) && s != [] && !KeyLe(s[0], x)
    ensures SortedByKey([x] + s)
    ensures multiset([x] + s) == multiset(s) + multiset{x}
  {
    KeyLeTotal(s[0], x);
    forall j | 0 <= j < |s| ensures KeyLe(x, s[j]) {
      if j > 0 { KeyLeTrans(x, s[0], s[j]); }
    }
    ConsSorted(x, s);
  }

  /** The head of a sorted list stays in front of the rest with x inserted. */
  lemma HeadBelowRest(s: seq<Node>, x: Node, rest: seq<Node>)
    requires SortedByKey(s) && s != [] && KeyLe(s[0], x)
    requires SortedByKey(rest) && multiset(rest) == multiset(s[1..]) + multiset{x}
    ensures SortedByKey([s[0]] + rest)
    ensures multiset([s[0]] + rest) == multiset(s) + multiset{x}
  {
    forall j | 0 <= j < |rest| ensures KeyLe(s[0], rest[j]) {
      HeadBelowMember(s, x, rest, rest[j]);
    }
    ConsSorted(s[0], rest);
    assert s == [s[0]] + s[1..];
  }

  lemma HeadBelowMember(s: seq<Node>, x: Node, rest: seq<Node>, y: Node)
    requires SortedByKey(s) && s != [] && KeyLe(s[0], x)
    requires multiset(rest) == multiset(s[1..]) + multiset{x}
    requires y in rest
    ensures KeyLe(s[0], y)
  {
    assert y in multiset(rest);
    if y != x {
      var tail := s[1..];
      assert y in multiset(tail);
      var i :| 0 <= i < |tail| && tail[i] == y;
      assert s[i + 1] == y;
    }
  }

  /** An item at or before every item of a sorted list may lead it. */
  lemma ConsSorted(h: Node, s: seq<Node>)
    requires SortedByKey(s) && forall j :: 0 <= j < |s| ==> KeyLe(h, s[j])
    ensures SortedByKey([h] + s)
  {
    var r := [h] + s;
    forall i, j | 0 <= i < j < |r| ensures KeyLe(r[i], r[j]) {
      if i > 0 { assert r[i] == s[i - 1] && r[j] == s[j - 1]; }
      else { assert r[j] == s[j - 1]; }
    }
  }

  /** `items.sort(key=...)`: the same items, directories first, each group in
      case-insensitive name order. */
  function SortItems(s: seq<Node>): (r: seq<Node>)
    ensures SortedByKey(r)
    ensures multiset(r) == multiset(s)
    ensures |r| == |s|
    ensures forall i, j :: 0 <= i < j < |r| && r[j].Dir? ==> r[i].Dir?
  {
    if s == [] then []
    else
      var init := s[..|s| - 1];
      assert s == init + [s[|s| - 1]];
      var r := Insert(s[|s| - 1], SortItems(init));
      assert |r| == |multiset(r)|;
      r
  }

  lemma SortKeepsItems(s: seq<Node>, x: Node)
    requires x in SortItems(s)
    ensures x in s
  {
    assert x in multiset(SortItems(s));
  }

  // ---------------------------------------------------------------------------
  // Walking the tree

  /** What a walk consults: whether the exclude patterns match a directory name
      or a file name, and the icon a file name is drawn with. */
  datatype Settings = Settings(dir: string -> bool, file: string -> bool, icon: string -> Icon)

  /** The generator's settings: its patterns and `get_file_icon`. */
  function Standard(excludeDir: string -> bool, excludeFile: string -> bool): Settings {
    Settings(excludeDir, excludeFile, FileIcon)
  }

  predicate Excluded(ex: Settings, n: Node) {
    if n.Dir? then ex.dir(n.name) else ex.file(n.name)
  }

  /** The items of a listing that are not excluded, in listing order. */
  function Kept(ex: Settings, s: seq<Node>): (r: seq<Node>)
    ensures forall x :: x in r ==> x in s && !Excluded(ex, x)
  {
    if s == [] then []
    else
      var last := s[|s| - 1];
      Kept(ex, s[..|s| - 1]) + (if Excluded(ex, last) then [] else [last])
  }

  /** Every item the patterns do not match is kept. */
  lemma {:induction false} KeptComplete(ex: Settings, s: seq<Node>, x: Node)
    requires x in s && !Excluded(ex, x)
    ensures x in Kept(ex, s)
  {
    if x != s[|s| - 1] {
      var i :| 0 <= i < |s| && s[i] == x;
      assert s[..|s| - 1][i] == x;
      KeptComplete(ex, s[..|s| - 1], x);
    }
  }

  /** How many items of a listing are excluded. */
  function Dropped(ex: Settings, s: seq<Node>): (r: nat)
    ensures r + |Kept(ex, s)| == |s|
  {
    if s == [] then 0
    else Dropped(ex, s[..|s| - 1]) + (if Excluded(ex, s[|s| - 1]) then 1 else 0)
  }

  const Pipe: string := "\U{2502}   "
  const Tee: string := "\U{251C}\U{2500}\U{2500} "
  const Last: string := "\U{2514}\U{2500}\U{2500} "
  const Blank: string := "    "
  const FolderGlyph: string := "\U{1F4C1}"

  function Connector(last: bool): string { if last then Last else Tee }
  function Extension(last: bool): string { if last then Blank else Pipe }

  /** The text after the connector: a directory with a trailing '/', a file after its icon. */
  function Label(ex: Settings, n: Node): string {
    if n.Dir? then FolderGlyph + " " + n.name + "/" else Glyph(ex.icon(n.name)) + " " + n.name
  }

  /** The lines a walk draws and the counts it adds. */
  datatype Walked = Walked(lines: seq<string>, dirs: nat, files: nat, excluded: nat)

  function Then(a: Walked, b: Walked): Walked {
    Walked(a.lines + b.lines, a.dirs + b.dirs, a.files + b.files, a.excluded + b.excluded)
  }

  const Nothing: Walked := Walked([], 0, 0, 0)

  /** `_build_tree(n, prefix)`: nothing for an unreadable directory; otherwise the
      excluded items are counted and the others, sorted, are drawn one after the other. */
  function Walk(ex: Settings, n: Node, prefix: string): (w: Walked)
    requires n.Dir?
    ensures |w.lines| == w.dirs + w.files
    decreases n, 1
  {
    if !n.readable then Nothing
    else
      var items := SortItems(Kept(ex, n.children));
      assert forall x :: x in items ==> x in n.children by {
        forall x | x in items ensures x in n.children { SortKeepsItems(Kept(ex, n.children), x); }
      }
      var w := ItemsWalk(ex, n, items, |items|, prefix);
      Walked(w.lines, w.dirs, w.files, Dropped(ex, n.children) + w.excluded)
  }

  /** The first k of the sorted items, drawn. */
  function ItemsWalk(ex: Settings, n: Node, items: seq<Node>, k: nat, prefix: string): (w: Walked)
    requires n.Dir? && k <= |items|
    requires forall x :: x in items ==> x in n.children
    ensures |w.lines| == w.dirs + w.files
    decreases n, 0, k
  {
    if k == 0 then Nothing
    else
      assert items[k - 1] in items;
      Then(ItemsWalk(ex, n, items, k - 1, prefix), ItemWalk(ex, items[k - 1], prefix, k == |items|))
  }

  /** One item: its own line, then for a directory its subtree under the extended prefix. */
  function ItemWalk(ex: Settings, item: Node, prefix: string, last: bool): (w: Walked)
    ensures |w.lines| == w.dirs + w.files
    decreases item, 2
  {
    var line := prefix + Connector(last) + Label(ex, item);
    if item.Dir? then Then(Walked([line], 1, 0, 0), Walk(ex, item, prefix + Extension(last)))
    else Walked([line], 0, 1, 0)
  }

  /** Every line drawn below a directory starts with the prefix it was given. */
  lemma {:induction false} WalkUnderPrefix(ex: Settings, n: Node, prefix: string)
    requires n.Dir?
    ensures forall l :: l in Walk(ex, n, prefix).lines ==> StartsWith(l, prefix)
    decreases n, 1
  {
    if n.readable {
      var items := SortItems(Kept(ex, n.children));
      forall x | x in items ensures x in n.children { SortKeepsItems(Kept(ex, n.children), x); }
      ItemsUnderPrefix(ex, n, items, |items|, prefix);
    }
  }

  lemma {:induction false} ItemsUnderPrefix(ex: Settings, n: Node, items: seq<Node>, k: nat, prefix: string)
    requires n.Dir? && k <= |items|
    requires forall x :: x in items ==> x in n.children
    ensures forall l :: l in ItemsWalk(ex, n, items, k, prefix).lines ==> StartsWith(l, prefix)
    decreases n, 0, k
  {
    if k > 0 {
      assert items[k - 1] in items;
      var a := ItemsWalk(ex, n, items, k - 1, prefix).lines;
      var b := ItemWalk(ex, items[k - 1], prefix, k == |items|).lines;
      ItemsUnderPrefix(ex, n, items, k - 1, prefix);
      ItemUnderPrefix(ex, items[k - 1], prefix, k == |items|);
      assert ItemsWalk(ex, n, items, k, prefix).lines == a + b;
      PrefixedAppend(a, b, prefix);
    }
  }

  lemma {:induction false} ItemUnderPrefix(ex: Settings, item: Node, prefix: string, last: bool)
    ensures forall l :: l in ItemWalk(ex, item, prefix, last).lines ==> StartsWith(l, prefix)
    decreases item, 2
  {
    var head := prefix + Connector(last);
    var line := head + Label(ex, item);
    assert line[..|head|] == head;
    StartsWithLonger(line, prefix, Connector(last));
    if item.Dir? {
      var ext := prefix + Extension(last);
      WalkUnderPrefix(ex, item, ext);
      var sub := Walk(ex, item, ext).lines;
      assert ItemWalk(ex, item, prefix, last).lines == [line] + sub;
      forall l | l in sub ensures StartsWith(l, prefix) {
        StartsWithLonger(l, prefix, Extension(last));
      }
      PrefixedAppend([line], sub, prefix);
    }
  }

  /** The connector and the children's prefix: an item's line is the prefix, then
      '└── ' for the last item and '├── ' for the others; every line of its subtree
      starts with the prefix followed by four blanks under the last item and by
      '│   ' under the others. */
  lemma ItemShape(ex: Settings, item: Node, prefix: string, last: bool)
    ensures var w := ItemWalk(ex, item, prefix, last);
            && w.lines != []
            && StartsWith(w.lines[0], prefix + (if last then Last else Tee))
            && forall i :: 1 <= i < |w.lines| ==> StartsWith(w.lines[i], prefix + (if last then Blank else Pipe))
  {
    var head := prefix + Connector(last);
    var line := head + Label(ex, item);
    var ext := prefix + Extension(last);
    assert line[..|head|] == head;
    if item.Dir? {
      WalkUnderPrefix(ex, item, ext);
      var sub := Walk(ex, item, ext).lines;
      assert ItemWalk(ex, item, prefix, last).lines == [line] + sub;
      ShapeOf(line, head, sub, ext);
    } else {
      assert ItemWalk(ex, item, prefix, last).lines == [line] + [];
      ShapeOf(line, head, [], ext);
    }
  }

  /** A head line followed by lines under another prefix. */
  lemma ShapeOf(line: string, head: string, sub: seq<string>, ext: string)
    requires StartsWith(line, head)
    requires forall l :: l in sub ==> StartsWith(l, ext)
    ensures var ls := [line] + sub;
            && StartsWith(ls[0], head)
            && forall i :: 1 <= i < |ls| ==> StartsWith(ls[i], ext)
  {
    var ls := [line] + sub;
    forall i | 1 <= i < |ls| ensures StartsWith(ls[i], ext) {
      assert ls[i] == sub[i - 1];
      assert sub[i - 1] in sub;
    }
  }

  /** Lines under a prefix, appended, stay under it. */
  lemma PrefixedAppend(a: seq<string>, b: seq<string>, p: string)
    requires forall l :: l in a ==> StartsWith(l, p)
    requires forall l :: l in b ==> StartsWith(l, p)
    ensures forall l :: l in a + b ==> StartsWith(l, p)
  {
  }

  /** A line under a longer prefix is under the shorter one too. */
  lemma StartsWithLonger(l: string, p: string, e: string)
    requires StartsWith(l, p + e)
    ensures StartsWith(l, p)
  {
    assert l[..|p|] == l[..|p + e|][..|p|];
  }

  // ---------------------------------------------------------------------------
  // The generator

  /** The directory patterns listed in the report. */
  const ExcludeDirs: seq<string> := [
    "venv", "env", ".venv", ".env", "build", "dist", "*.egg-info",
    "healthcare_management_system.egg-info", "__pycache__", ".git", ".pytest_cache",
    "node_modules", ".idea", ".vscode", ".mypy_cache"
  ]

  /** The file patterns listed in the report. */
  const ExcludeFiles: seq<string> := [
    "*.pyc", "*.pyo", "*.pyd", ".DS_Store", "Thumbs.db", "*.log", "*.tmp", "*.swp", "*.swo"
  ]

  function Rule(c: char, n: nat): (r: string)
    ensures |r| == n && forall i :: 0 <= i < n ==> r[i] == c
  {
    seq(n, _ => c)
  }

  /** `PIPE[:-1]`: the stem every tree line is indented by in the report. */
  const Stem: string := "\U{2502}  "

  class TreeGenerator {
    var fileCount: nat
    var dirCount: nat
    var excludedCount: nat

    constructor()
      ensures fileCount == 0 && dirCount == 0 && excludedCount == 0
    {
      fileCount, dirCount, excludedCount := 0, 0, 0;
    }

    /** The listing loop of `_build_tree`: excluded items are counted, the others kept. */
    method KeepItems(ex: Settings, children: seq<Node>) returns (items: seq<Node>)
      modifies this
      ensures items == Kept(ex, children)
      ensures excludedCount == old(excludedCount) + Dropped(ex, children)
      ensures fileCount == old(fileCount) && dirCount == old(dirCount)
    {
      items := [];
      for i := 0 to |children|
        invariant items == Kept(ex, children[..i])
        invariant excludedCount == old(excludedCount) + Dropped(ex, children[..i])
        invariant fileCount == old(fileCount) && dirCount == old(dirCount)
      {
        assert children[..i + 1][..i] == children[..i];
        var item := children[i];
        if Excluded(ex, item) {
          excludedCount := excludedCount + 1;
        } else {
          items := items + [item];
        }
      }
      assert children[..|children|] == children;
    }

    /** `_build_tree`: appends the lines of n's subtree to `lines` and adds its
        directories, files and excluded items to the counters. */
    method BuildTree(ex: Settings, n: Node, prefix: string, lines: seq<string>) returns (out: seq<string>)
      requires n.Dir?
      modifies this
      ensures out == lines + Walk(ex, n, prefix).lines
      ensures dirCount == old(dirCount) + Walk(ex, n, prefix).dirs
      ensures fileCount == old(fileCount) + Walk(ex, n, prefix).files
      ensures excludedCount == old(excludedCount) + Walk(ex, n, prefix).excluded
      decreases n, 2
    {
      if !n.readable {
        return lines;
      }
      var kept := KeepItems(ex, n.children);
      var items := SortItems(kept);
      forall x | x in items ensures x in n.children { SortKeepsItems(kept, x); }
      out := DrawItems(ex, n, items, prefix, lines);
    }

    /** The drawing loop of `_build_tree`: one line per item, with the last item's
        connector, and each directory's subtree under the extended prefix. */
    method DrawItems(ex: Settings, n: Node, items: seq<Node>, prefix: string, lines: seq<string>) returns (out: seq<string>)
      requires n.Dir?
      requires forall x :: x in items ==> x in n.children
      modifies this
      ensures out == lines + ItemsWalk(ex, n, items, |items|, prefix).lines
      ensures dirCount == old(dirCount) + ItemsWalk(ex, n, items, |items|, prefix).dirs
      ensures fileCount == old(fileCount) + ItemsWalk(ex, n, items, |items|, prefix).files
      ensures excludedCount == old(excludedCount) + ItemsWalk(ex, n, items, |items|, prefix).excluded
      decreases n, 1
    {
      out := lines;
      for i := 0 to |items|
        invariant out == lines + ItemsWalk(ex, n, items, i, prefix).lines
        invariant dirCount == old(dirCount) + ItemsWalk(ex, n, items, i, prefix).dirs
        invariant fileCount == old(fileCount) + ItemsWalk(ex, n, items, i, prefix).files
        invariant excludedCount == old(excludedCount) + ItemsWalk(ex, n, items, i, prefix).excluded
      {
        assert items[i] in items;
        ghost var before := ItemsWalk(ex, n, items, i, prefix);
        assert ItemsWalk(ex, n, items, i + 1, prefix) == Then(before, ItemWalk(ex, items[i], prefix, i == |items| - 1));
        out := DrawItem(ex, n, items[i], prefix, i == |items| - 1, out);
        AppendAssoc(lines, before.lines, ItemWalk(ex, items[i], prefix, i == |items| - 1).lines);
      }
    }

    /** One turn of the drawing loop: the item's line, and for a directory the
        count and its subtree. */
    method DrawItem(ex: Settings, ghost n: Node, item: Node, prefix: string, last: bool, lines: seq<string>)
      returns (out: seq<string>)
      requires n.Dir? && item in n.children
      modifies this
      ensures out == lines + ItemWalk(ex, item, prefix, last).lines
      ensures dirCount == old(dirCount) + ItemWalk(ex, item, prefix, last).dirs
      ensures fileCount == old(fileCount) + ItemWalk(ex, item, prefix, last).files
      ensures excludedCount == old(excludedCount) + ItemWalk(ex, item, prefix, last).excluded
      decreases n, 0
    {
      var line := prefix + Connector(last) + Label(ex, item);
      out := lines + [line];
      if item.Dir? {
        ghost var sub := Walk(ex, item, prefix + Extension(last));
        dirCount := dirCount + 1;
        out := BuildTree(ex, item, prefix + Extension(last), out);
        AppendAssoc(lines, [line], sub.lines);
      } else {
        fileCount := fileCount + 1;
      }
    }

    /** `generate_tree`: resets the counters, walks the tree from the root and
        assembles the report: the header, the tree lines under the stem, the
        summary and the exclude patterns. The absolute path, the project name and
        the timestamp are parameters. */
    method GenerateTree(excludeDir: string -> bool, excludeFile: string -> bool, root: Node,
                        rootPath: string, projectName: string, timestamp: string)
      returns (content: seq<string>)
      requires root.Dir?
      modifies this
      ensures dirCount == Walk(Standard(excludeDir, excludeFile), root, "").dirs
      ensures fileCount == Walk(Standard(excludeDir, excludeFile), root, "").files
      ensures excludedCount == Walk(Standard(excludeDir, excludeFile), root, "").excluded
      ensures |content| == 8 + |Walk(Standard(excludeDir, excludeFile), root, "").lines| + 11 + |ExcludeDirs| + 1 + |ExcludeFiles|
      ensures content[..8] == Header(projectName, rootPath, timestamp)
      ensures forall i :: 0 <= i < |Walk(Standard(excludeDir, excludeFile), root, "").lines| ==>
                content[8 + i] == Stem + Walk(Standard(excludeDir, excludeFile), root, "").lines[i]
      ensures content[8 + |Walk(Standard(excludeDir, excludeFile), root, "").lines| + 6]
                == TotalLine(|Walk(Standard(excludeDir, excludeFile), root, "").lines|)
      ensures var w := Walk(Standard(excludeDir, excludeFile), root, "");
              content[8 + |w.lines|..8 + |w.lines| + 11] == Summary(w.dirs, w.files, w.excluded)
      ensures var n := |Walk(Standard(excludeDir, excludeFile), root, "").lines|;
              PatternLines(content[8 + n + 11..])
    {
      fileCount, dirCount, excludedCount := 0, 0, 0;
      var ex := Standard(excludeDir, excludeFile);
      var tree := BuildTree(ex, root, "", []);
      assert tree == Walk(ex, root, "").lines;
      content := Report(Header(projectName, rootPath, timestamp), tree, dirCount, fileCount, excludedCount);
    }

    /** The report after the header: the tree lines under the stem, the summary
        and the exclude patterns. */
    static method Report(header: seq<string>, tree: seq<string>, dirs: nat, files: nat, excluded: nat)
      returns (content: seq<string>)
      requires |header| == 8
      ensures |content| == 8 + |tree| + 11 + |ExcludeDirs| + 1 + |ExcludeFiles|
      ensures content[..8] == header
      ensures forall i :: 0 <= i < |tree| ==> content[8 + i] == Stem + tree[i]
      ensures content[8 + |tree| + 6] == TotalLine(dirs + files)
      ensures content[8 + |tree|..8 + |tree| + 11] == Summary(dirs, files, excluded)
      ensures PatternLines(content[8 + |tree| + 11..])
    {
      var body := AppendLines(header, Stem, tree);
      var tail := Summary(dirs, files, excluded);
      var withDirs := AppendLines(body + tail, Bullet, ExcludeDirs);
      content := AppendLines(withDirs + ["Files:"], Bullet, ExcludeFiles);
      Prefixed(body, tail);
      Prefixed(withDirs, ["Files:"]);
      assert content[8 + |tree| + 6] == tail[6];
      assert content[8 + |tree|..8 + |tree| + 11] == tail;
      var patterns := content[8 + |tree| + 11..];
      assert |patterns| == |ExcludeDirs| + 1 + |ExcludeFiles|;
      assert forall i :: 0 <= i < |ExcludeDirs| ==> patterns[i] == content[|body + tail| + i];
      assert patterns[|ExcludeDirs|] == content[|withDirs|];
    }

    /** Appends each of `more` after `lead`. */
    static method AppendLines(content: seq<string>, lead: string, more: seq<string>) returns (r: seq<string>)
      ensures |r| == |content| + |more|
      ensures forall i :: 0 <= i < |content| ==> r[i] == content[i]
      ensures forall i :: 0 <= i < |more| ==> r[|content| + i] == lead + more[i]
    {
      r := content;
      for i := 0 to |more|
        invariant |r| == |content| + i
        invariant forall j :: 0 <= j < |content| ==> r[j] == content[j]
        invariant forall j :: 0 <= j < i ==> r[|content| + j] == lead + more[j]
      {
        r := r + [lead + more[i]];
      }
    }
  }

  const Bullet: string := "  \U{2022} "

  /** The pattern lists that close the report: a bullet per excluded directory
      pattern, the "Files:" heading, then a bullet per excluded file pattern. */
  predicate PatternLines(lines: seq<string>) {
    && |lines| == |ExcludeDirs| + 1 + |ExcludeFiles|
    && (forall i :: 0 <= i < |ExcludeDirs| ==> lines[i] == Bullet + ExcludeDirs[i])
    && lines[|ExcludeDirs|] == "Files:"
    && (forall i :: 0 <= i < |ExcludeFiles| ==> lines[|ExcludeDirs| + 1 + i] == Bullet + ExcludeFiles[i])
  }

  /** The report's first eight lines, the last naming the project as the tree's root. */
  function Header(projectName: string, rootPath: string, timestamp: string): (r: seq<string>)
    ensures |r| == 8 && r[7] == FolderGlyph + " " + projectName + "/"
  {
    [ "PROJECT TREE STRUCTURE", Rule('=', 60), "Project: " + projectName,
      "Path: " + rootPath, "Generated: " + timestamp, Rule('=', 60), "",
      FolderGlyph + " " + projectName + "/" ]
  }

  function TotalLine(total: nat): string {
    "\U{1F4CA} Total items: " + NatToString(total)
  }

  /** The summary block and the heading of the pattern lists; its seventh line is
      the total of directories and files. */
  function Summary(dirs: nat, files: nat, excluded: nat): (r: seq<string>)
    ensures |r| == 11 && r[6] == TotalLine(dirs + files)
  {
    [ "", "SUMMARY", Rule('-', 20),
      FolderGlyph + " Directories: " + NatToString(dirs),
      "\U{1F4C4} Files: " + NatToString(files),
      "\U{1F6AB} Excluded items: " + NatToString(excluded),
      TotalLine(dirs + files),
      "", "EXCLUDED PATTERNS", Rule('-', 20), "Directories:" ]
  }

  lemma Prefixed(a: seq<string>, b: seq<string>)
    ensures forall i :: 0 <= i < |a| ==> (a + b)[i] == a[i]
    ensures forall j :: 0 <= j < |b| ==> (a + b)[|a| + j] == b[j]
  {
  }
}
