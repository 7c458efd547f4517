/** The command-line patient entry chat: how an answer is turned into a list
    (`comma_list`) and how `ask` keeps asking until it gets an answer it can use.
    The console is a parameter: the answers the user types, in order. */
module PatientEntryChat {
  import opened Common

  /** A list item as `comma_list` keeps it: non-empty, nothing to strip at either end. */
  predicate Tidy(item: string) {
    item != [] && !IsSpace(item[0]) && !IsSpace(item[|item| - 1])
  }

  /** The comprehension over the pieces: each piece stripped, empty ones dropped,
      the order kept. */
  function StripNonEmpty(pieces: seq<string>): (r: seq<string>)
    ensures |r| <= |pieces|
    ensures forall i :: 0 <= i < |r| ==> Tidy(r[i])
  {
    if pieces == [] then []
    else
      var item := Strip(pieces[0]);
      (if item == [] then [] else [item]) + StripNonEmpty(pieces[1..])
  }

  /** A character none of the pieces holds is in none of the items. */
  lemma {:induction false} StripNonEmptyAvoids(pieces: seq<string>, c: char)
    requires forall k :: 0 <= k < |pieces| ==> c !in pieces[k]
    ensures forall i :: 0 <= i < |StripNonEmpty(pieces)| ==> c !in StripNonEmpty(pieces)[i]
  {
    if pieces != [] {
      StripKeeps(pieces[0]);
      StripNonEmptyAvoids(pieces[1..], c);
    }
  }

  /** `comma_list`: 'none' in any case and with any surrounding whitespace means
      the empty list; otherwise the comma-separated items, stripped, without empty
      ones. No item holds a comma. */
  function CommaList(answer: string): (r: seq<string>)
    ensures Lower(Strip(answer)) == "none" ==> r == []
    ensures forall i :: 0 <= i < |r| ==> Tidy(r[i]) && ',' !in r[i]
    ensures |r| <= |Split(answer, ',')|
  {
    if Lower(Strip(answer)) == "none" then []
    else
      StripNonEmptyAvoids(Split(answer, ','), ',');
      StripNonEmpty(Split(answer, ','))
  }

  /** Tidy items are kept as they are. */
  lemma {:induction false} StripNonEmptyTidy(items: seq<string>)
    requires forall i :: 0 <= i < |items| ==> Tidy(items[i])
    ensures StripNonEmpty(items) == items
  {
    if items != [] {
      StripNoop(items[0]);
      StripNonEmptyTidy(items[1..]);
    }
  }

  /** The round trip: a list of tidy items without commas, written out with commas,
      reads back as the same list unless the text is the word 'none' itself. */
  lemma CommaListJoin(items: seq<string>)
    requires items != []
    requires forall i :: 0 <= i < |items| ==> Tidy(items[i]) && ',' !in items[i]
    requires Lower(Strip(Join(items, ','))) != "none"
    ensures CommaList(Join(items, ',')) == items
  {
    SplitJoin(items, ',');
    StripNonEmptyTidy(items);
  }

  /** Blank pieces vanish: an answer of only commas and spaces is the empty list. */
  lemma {:induction false} BlankPiecesVanish(pieces: seq<string>)
    requires forall k :: 0 <= k < |pieces| ==> forall j :: 0 <= j < |pieces[k]| ==> IsSpace(pieces[k][j])
    ensures StripNonEmpty(pieces) == []
  {
    if pieces != [] {
      BlankStrips(pieces[0]);
      BlankPiecesVanish(pieces[1..]);
    }
  }

  lemma BlankStrips(s: string)
    requires forall j :: 0 <= j < |s| ==> IsSpace(s[j])
    ensures Strip(s) == []
  {
    StripKeeps(s);
  }

  // ---------------------------------------------------------------------------
  // ask

  /** What `ask` makes of one typed answer: None when it asks again (an empty
      answer where empty ones are not allowed, or an answer the validator rejects
      by raising), otherwise the value it returns. Without a validator the
      validator is `s => Some(s)`. */
  function Attempt<T>(answer: string, validate: string -> Option<T>, allowEmpty: bool): (r: Option<T>)
    ensures answer == [] && !allowEmpty ==> r.None?
    ensures r.Some? ==> validate(answer) == r
  {
    if answer == [] && !allowEmpty then None else validate(answer)
  }

  /** `ask`: reads answers until one is accepted. The result is the value made of
      the first accepted answer and `used` the number of answers read; every earlier
      answer was refused. None when the answers run out first (the source would
      keep waiting for input). */
  method Ask<T>(answers: seq<string>, validate: string -> Option<T>, allowEmpty: bool) returns (r: Option<T>, used: nat)
    ensures used <= |answers|
    ensures r.Some? ==> 1 <= used && Attempt(answers[used - 1], validate, allowEmpty) == r
    ensures r.Some? ==> forall i :: 0 <= i < used - 1 ==> Attempt(answers[i], validate, allowEmpty).None?
    ensures r.None? ==> used == |answers| && forall i :: 0 <= i < |answers| ==> Attempt(answers[i], validate, allowEmpty).None?
  {
    used := 0;
    while used < |answers|
      invariant used <= |answers|
      invariant forall i :: 0 <= i < used ==> Attempt(answers[i], validate, allowEmpty).None?
    {
      var answer := answers[used];
      used := used + 1;
      if answer == [] && !allowEmpty {
        continue;
      }
      var value := validate(answer);
      if value.Some? {
        return value, used;
      }
    }
    return None, used;
  }
}
