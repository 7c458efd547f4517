/** The deterministic part of the triage agent: reading the triage level out of the
    model's answer, and the wait-time table. */
module TriageAgent {
  import opened Common

  const DefaultLevel := 3

  /** `max(1, min(5, level))`. */
  function Clamp(level: int): (r: int)
    ensures 1 <= r <= 5
    ensures 1 <= level <= 5 ==> r == level
    ensures level < 1 ==> r == 1
    ensures level > 5 ==> r == 5
  {
    if level < 1 then 1 else if level > 5 then 5 else level
  }

  /** The index of the first digit of s. */
  function FirstDigit(s: string): (r: Option<nat>)
    ensures r.Some? ==> r.value < |s| && IsDigit(s[r.value]) && forall k :: 0 <= k < r.value ==> !IsDigit(s[k])
    ensures r.None? ==> forall k :: 0 <= k < |s| ==> !IsDigit(s[k])
  {
    if s == [] then None
    else if IsDigit(s[0]) then Some(0)
    else match FirstDigit(s[1..])
      case None => None
      case Some(i) => Some(i + 1)
  }

  /** The longest run of digits at the front of s. */
  function DigitPrefix(s: string): (r: string)
    ensures r <= s && AllDigits(r)
    ensures |r| < |s| ==> !IsDigit(s[|r|])
  {
    if s != [] && IsDigit(s[0]) then [s[0]] + DigitPrefix(s[1..]) else []
  }

  /** `re.search(r'\d+', s)`: the first maximal run of digits, if any. */
  function FirstNumber(s: string): (r: Option<string>)
    ensures r.None? <==> forall k :: 0 <= k < |s| ==> !IsDigit(s[k])
    ensures r.Some? ==> r.value != [] && AllDigits(r.value)
  {
    match FirstDigit(s)
    case None => None
    case Some(i) => Some(DigitPrefix(s[i..]))
  }

  /** `line.split(':')[1]`: the text between the first and the second colon. */
  function SecondField(line: string): string
  {
    var parts := Split(line, ':');
    if |parts| >= 2 then parts[1] else ""
  }

  /** The level a line decides, if it is a TRIAGE_LEVEL line with a number in it. */
  function LineLevel(line: string): (r: Option<int>)
    ensures r.Some? ==> 1 <= r.value <= 5
  {
    if !StartsWith(Strip(line), "TRIAGE_LEVEL:") then None
    else match FirstNumber(SecondField(line))
      case None => None
      case Some(digits) => Some(Clamp(DigitsValue(digits)))
  }

  /** The level read from a list of lines: the first line that decides one, else 3. */
  function LevelOf(lines: seq<string>): (level: int)
    ensures 1 <= level <= 5
  {
    if lines == [] then DefaultLevel
    else match LineLevel(lines[0])
      case Some(l) => l
      case None => LevelOf(lines[1..])
  }

  /** `_parse_triage_level`: scan the lines and return at the first TRIAGE_LEVEL line
      holding a number; a TRIAGE_LEVEL line without a number does not stop the scan. */
  method ParseTriageLevel(result: string) returns (level: int)
    ensures level == LevelOf(Split(result, '\n'))
  {
    var lines := Split(result, '\n');
    var i := 0;
    while i < |lines|
      invariant 0 <= i <= |lines|
      invariant LevelOf(lines[i..]) == LevelOf(lines)
    {
      var line := lines[i];
      if StartsWith(Strip(line), "TRIAGE_LEVEL:") {
        var levelText := SecondField(line);
        var found := FirstNumber(levelText);
        if found.Some? {
          level := Clamp(DigitsValue(found.value));
          return;
        }
      }
      assert lines[i..][1..] == lines[i + 1..];
      i := i + 1;
    }
    level := DefaultLevel;
  }

  /** The level is the one of the first deciding line. */
  lemma {:induction false} FirstDecidingLineWins(lines: seq<string>, k: nat)
    requires k < |lines| && LineLevel(lines[k]).Some?
    requires forall j :: 0 <= j < k ==> LineLevel(lines[j]).None?
    ensures LevelOf(lines) == LineLevel(lines[k]).value
  {
    if k > 0 {
      assert LineLevel(lines[0]).None?;
      FirstDecidingLineWins(lines[1..], k - 1);
    }
  }

  /** Without a TRIAGE_LEVEL line that holds a digit, the level is 3. */
  lemma {:induction false} NoDecidingLineDefaults(lines: seq<string>)
    requires forall j :: 0 <= j < |lines| ==> LineLevel(lines[j]).None?
    ensures LevelOf(lines) == DefaultLevel
  {
    if lines != [] {
      NoDecidingLineDefaults(lines[1..]);
    }
  }

  /** `_get_wait_time_estimate`, in minutes. */
  function WaitTime(level: int): (minutes: nat)
  {
    if level == 1 then 0
    else if level == 2 then 15
    else if level == 3 then 30
    else if level == 4 then 60
    else if level == 5 then 120
    else 30
  }

  /** Less urgent levels never wait less, and levels outside the table wait 30 minutes. */
  lemma WaitTimeMonotone(a: int, b: int)
    requires 1 <= a <= b <= 5
    ensures WaitTime(a) <= WaitTime(b)
  {
  }

  lemma WaitTimeDefault(level: int)
    requires level < 1 || level > 5
    ensures WaitTime(level) == 30
  {
  }

  datatype Assessment = Assessment(triageLevel: int, assessment: string, waitTimeEstimate: nat)

  /** `assess_patient` after a successful model call: the parsed level and its wait time. */
  method AssessPatient(result: string) returns (a: Assessment)
    ensures 1 <= a.triageLevel <= 5
    ensures a.triageLevel == LevelOf(Split(result, '\n'))
    ensures a.waitTimeEstimate == WaitTime(a.triageLevel)
    ensures a.assessment == result
  {
    var level := ParseTriageLevel(result);
    a := Assessment(level, result, WaitTime(level));
  }
}
