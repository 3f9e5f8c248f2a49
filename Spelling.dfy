/** Choosing among candidate spellings: the `find`-by-letter of
    `getSpelledNote`, the tables of candidate spellings per pitch class that
    it searches, and the facts about such tables the engines rely on, all
    parameterised by the table of the file that uses them. */
module Spelling {
  import opened Strings
  import opened Theory

  /** No spelling in the list is the empty string. */
  predicate NonEmptyNames(names: seq<string>) {
    forall k :: 0 <= k < |names| ==> names[k] != ""
  }

  /** `names.find(n => n.startsWith(letter))` as a position: the first name
      starting with `letter`, or -1. */
  function FirstMatch(names: seq<string>, letter: string): (i: int)
    ensures -1 <= i < |names|
    ensures i >= 0 ==> StartsWith(names[i], letter)
  {
    if |names| == 0 then -1
    else if StartsWith(names[0], letter) then 0
    else var j := FirstMatch(names[1..], letter); if j == -1 then -1 else j + 1
  }

  /** No name before the match starts with `letter`: a name that does start
      with it is found, at its own position or earlier. */
  lemma {:induction false} FirstMatchIsFirst(names: seq<string>, letter: string, k: int)
    requires 0 <= k < |names| && StartsWith(names[k], letter)
    ensures 0 <= FirstMatch(names, letter) <= k
  {
    if k > 0 && !StartsWith(names[0], letter) {
      FirstMatchIsFirst(names[1..], letter, k - 1);
    }
  }

  /** JavaScript `a || b` on strings: the empty string is falsy. */
  function Or(a: string, b: string): string {
    if a != "" then a else b
  }

  /** `getSpelledNote` over a list of candidate spellings:
      `names.find(n => n.startsWith(letter)) || names[0] || '?'`. */
  function FindSpelling(names: seq<string>, letter: string): (r: string)
    ensures r == "?" || r in names
    ensures NonEmptyNames(names) && names != [] ==> r in names
    ensures NonEmptyNames(names) && FirstMatch(names, letter) >= 0 ==>
              r == names[FirstMatch(names, letter)] && StartsWith(r, letter)
    ensures NonEmptyNames(names) && FirstMatch(names, letter) == -1 ==>
              r == (if names == [] then "?" else names[0])
  {
    var i := FirstMatch(names, letter);
    var found := if i >= 0 then names[i] else "";
    Or(Or(found, if |names| > 0 then names[0] else ""), "?")
  }

  /** The leading letters of a candidate list are pairwise different. */
  predicate DistinctLetters(names: seq<string>) {
    forall j, k :: 0 <= j < k < |names| && |names[j]| > 0 && |names[k]| > 0 ==> names[j][0] != names[k][0]
  }

  /** With pairwise different leading letters, the spelling that starts with a
      one-letter target is the only candidate that does, wherever it stands. */
  lemma FindSpellingUnique(names: seq<string>, letter: string, k: int)
    requires NonEmptyNames(names) && DistinctLetters(names)
    requires |letter| == 1 && 0 <= k < |names| && StartsWith(names[k], letter)
    ensures FindSpelling(names, letter) == names[k]
  {
    FirstMatchIsFirst(names, letter, k);
    var i := FirstMatch(names, letter);
    assert names[i][0] == letter[0] == names[k][0];
  }

  /** Candidates with pairwise different leading letters are pairwise
      different spellings. */
  lemma {:induction false} DistinctLettersCount(names: seq<string>)
    requires NonEmptyNames(names) && DistinctLetters(names)
    ensures |set n | n in names| == |names|
  {
    if |names| > 0 {
      var tail := names[1..];
      assert NonEmptyNames(tail) && DistinctLetters(tail);
      DistinctLettersCount(tail);
      assert (set n | n in names) == {names[0]} + (set n | n in tail);
    }
  }

  /** `midiToNoteNames[v] || []` for a table of candidate spellings. */
  function ListedAt(table: map<int, seq<string>>, v: int): seq<string> {
    if v in table then table[v] else []
  }

  /** The spellings listed under pitch classes v..11, in table order. */
  function ListedFrom(table: map<int, seq<string>>, v: nat): seq<string>
    decreases 12 - v
  {
    if v >= 12 then [] else ListedAt(table, v) + ListedFrom(table, v + 1)
  }

  /** Every pitch class 0..11 has a non-empty list of non-empty spellings
      with pairwise different leading letters. */
  predicate SpellingTable(table: map<int, seq<string>>) {
    forall v | 0 <= v < 12 :: |ListedAt(table, v)| > 0 && NonEmptyNames(ListedAt(table, v)) && DistinctLetters(ListedAt(table, v))
  }

  /** No spelling is listed under two pitch classes. */
  predicate DisjointPitches(table: map<int, seq<string>>) {
    forall v, w, n | 0 <= v < w < 12 && n in ListedAt(table, v) :: n !in ListedAt(table, w)
  }

  lemma {:induction false} ListedFromMember(table: map<int, seq<string>>, v: nat, n: string) returns (w: int)
    requires n in ListedFrom(table, v)
    ensures v <= w < 12 && n in ListedAt(table, w)
    decreases 12 - v
  {
    if n in ListedAt(table, v) {
      w := v;
    } else {
      w := ListedFromMember(table, v + 1, n);
    }
  }

  /** In such a table the lists hold pairwise different spellings, so the
      number of spellings is the total length of the lists. */
  lemma {:induction false} ListedFromCount(table: map<int, seq<string>>, v: nat)
    requires SpellingTable(table) && DisjointPitches(table)
    ensures |set n | n in ListedFrom(table, v)| == |ListedFrom(table, v)|
    decreases 12 - v
  {
    if v < 12 {
      var here := ListedAt(table, v);
      var next := ListedFrom(table, v + 1);
      DistinctLettersCount(here);
      ListedFromCount(table, v + 1);
      var hereSet := set n | n in here;
      var nextSet := set n | n in next;
      assert (set n | n in ListedFrom(table, v)) == hereSet + nextSet;
      forall n | n in hereSet && n in nextSet ensures false {
        var w := ListedFromMember(table, v + 1, n);
      }
      assert hereSet * nextSet == {};
    }
  }

  /** Every spelling in `names` is a key of `values` mapped to v. */
  predicate AllValued(values: map<string, int>, names: seq<string>, v: int) {
    |names| == 0 || (names[0] in values && values[names[0]] == v && AllValued(values, names[1..], v))
  }

  lemma {:induction false} AllValuedAt(values: map<string, int>, names: seq<string>, v: int, k: int)
    requires AllValued(values, names, v) && 0 <= k < |names|
    ensures names[k] in values && values[names[k]] == v
  {
    if k > 0 {
      AllValuedAt(values, names[1..], v, k - 1);
    }
  }

  /** Every spelling in `names` denotes pitch class v. */
  predicate AllDenote(names: seq<string>, v: int) {
    |names| == 0 || (SpelledPitch(names[0]) == Some(v) && AllDenote(names[1..], v))
  }

  lemma {:induction false} AllDenoteAt(names: seq<string>, v: int, k: int)
    requires AllDenote(names, v) && 0 <= k < |names|
    ensures SpelledPitch(names[k]) == Some(v)
  {
    if k > 0 {
      AllDenoteAt(names[1..], v, k - 1);
    }
  }

  /** What the engines need of the candidate list of pitch class v: it is
      non-empty, holds neither an empty spelling nor `?`, no two candidates
      share a leading letter, and `firsts[v]` is its first candidate. */
  predicate ClassListed(table: map<int, seq<string>>, firsts: seq<string>, v: int) {
    && 0 <= v < |firsts| && v in table
    && |ListedAt(table, v)| > 0 && NonEmptyNames(ListedAt(table, v)) && DistinctLetters(ListedAt(table, v))
    && "?" !in ListedAt(table, v) && firsts[v] == ListedAt(table, v)[0]
  }

  /** A complete table of candidate spellings for the twelve pitch classes,
      with `firsts` its preferred spelling per class. */
  ghost predicate Spellings(table: map<int, seq<string>>, firsts: seq<string>) {
    && (forall v :: v in table <==> 0 <= v < 12)
    && SpellingTable(table) && |firsts| == 12
    && (forall v | 0 <= v < 12 :: "?" !in ListedAt(table, v) && firsts[v] == ListedAt(table, v)[0])
  }

  /** Every spelling listed under a pitch class maps back to it in `values`. */
  predicate RoundTrip(table: map<int, seq<string>>, values: map<string, int>) {
    forall v, k | 0 <= v < 12 && 0 <= k < |ListedAt(table, v)| :: ListedAt(table, v)[k] in values && values[ListedAt(table, v)[k]] == v
  }

  /** Every spelling listed under a pitch class denotes it. */
  predicate DenotingTable(table: map<int, seq<string>>) {
    forall v, k | 0 <= v < 12 && 0 <= k < |ListedAt(table, v)| :: SpelledPitch(ListedAt(table, v)[k]) == Some(v)
  }

  /** `ClassListed` for every pitch class from v up to 11. */
  predicate ClassesFrom(table: map<int, seq<string>>, firsts: seq<string>, v: nat)
    decreases 12 - v
  {
    v >= 12 || (ClassListed(table, firsts, v) && ClassesFrom(table, firsts, v + 1))
  }

  /** `AllValued` for the lists of every pitch class from v up to 11. */
  predicate ValuedFrom(table: map<int, seq<string>>, values: map<string, int>, v: nat)
    decreases 12 - v
  {
    v >= 12 || (AllValued(values, ListedAt(table, v), v) && ValuedFrom(table, values, v + 1))
  }

  /** `AllDenote` for the lists of every pitch class from v up to 11. */
  predicate DenoteFrom(table: map<int, seq<string>>, v: nat)
    decreases 12 - v
  {
    v >= 12 || (AllDenote(ListedAt(table, v), v) && DenoteFrom(table, v + 1))
  }

  lemma {:induction false} ClassesFromAt(table: map<int, seq<string>>, firsts: seq<string>, v: nat, w: int)
    requires ClassesFrom(table, firsts, v) && v <= w < 12
    ensures ClassListed(table, firsts, w)
    decreases 12 - v
  {
    if v < w {
      ClassesFromAt(table, firsts, v + 1, w);
    }
  }

  lemma {:induction false} ValuedFromAt(table: map<int, seq<string>>, values: map<string, int>, v: nat, w: int)
    requires ValuedFrom(table, values, v) && v <= w < 12
    ensures AllValued(values, ListedAt(table, w), w)
    decreases 12 - v
  {
    if v < w {
      ValuedFromAt(table, values, v + 1, w);
    }
  }

  lemma {:induction false} DenoteFromAt(table: map<int, seq<string>>, v: nat, w: int)
    requires DenoteFrom(table, v) && v <= w < 12
    ensures AllDenote(ListedAt(table, w), w)
    decreases 12 - v
  {
    if v < w {
      DenoteFromAt(table, v + 1, w);
    }
  }

  /** Checking the twelve pitch classes one by one establishes `Spellings`. */
  lemma TwelveClasses(table: map<int, seq<string>>, firsts: seq<string>)
    requires |firsts| == 12 && (forall v :: v in table ==> 0 <= v < 12)
    requires ClassesFrom(table, firsts, 0)
    ensures Spellings(table, firsts)
  {
    forall v | 0 <= v < 12
      ensures v in table && |ListedAt(table, v)| > 0 && NonEmptyNames(ListedAt(table, v)) && DistinctLetters(ListedAt(table, v))
      ensures "?" !in ListedAt(table, v) && firsts[v] == ListedAt(table, v)[0]
    {
      ClassesFromAt(table, firsts, 0, v);
    }
  }

  /** Checking the twelve lists one by one establishes `RoundTrip`. */
  lemma TwelveValued(table: map<int, seq<string>>, values: map<string, int>)
    requires ValuedFrom(table, values, 0)
    ensures RoundTrip(table, values)
  {
    forall v, k | 0 <= v < 12 && 0 <= k < |ListedAt(table, v)|
      ensures ListedAt(table, v)[k] in values && values[ListedAt(table, v)[k]] == v
    {
      ValuedFromAt(table, values, 0, v);
      AllValuedAt(values, ListedAt(table, v), v, k);
    }
  }

  /** Checking the twelve lists one by one establishes `DenotingTable`. */
  lemma TwelveDenote(table: map<int, seq<string>>)
    requires DenoteFrom(table, 0)
    ensures DenotingTable(table)
  {
    forall v, k | 0 <= v < 12 && 0 <= k < |ListedAt(table, v)|
      ensures SpelledPitch(ListedAt(table, v)[k]) == Some(v)
    {
      DenoteFromAt(table, 0, v);
      AllDenoteAt(ListedAt(table, v), v, k);
    }
  }

  /** A spelling listed under pitch class w maps to w. */
  lemma ListedValue(table: map<int, seq<string>>, values: map<string, int>, w: int, n: string)
    requires RoundTrip(table, values) && 0 <= w < 12
    ensures n in ListedAt(table, w) ==> n in values && values[n] == w
  {
    if n in ListedAt(table, w) {
      var k :| 0 <= k < |ListedAt(table, w)| && ListedAt(table, w)[k] == n;
    }
  }

  /** A spelling listed under pitch class w denotes w. */
  lemma ListedDenotes(table: map<int, seq<string>>, w: int, n: string)
    requires DenotingTable(table) && 0 <= w < 12
    ensures n in ListedAt(table, w) ==> SpelledPitch(n) == Some(w)
  {
    if n in ListedAt(table, w) {
      var k :| 0 <= k < |ListedAt(table, w)| && ListedAt(table, w)[k] == n;
    }
  }

  /** A table whose spellings map back to their class in a table of spellings
      that denote their values is itself denoting. */
  lemma RoundTripDenotes(table: map<int, seq<string>>, values: map<string, int>)
    requires RoundTrip(table, values) && SpelledValues(values)
    ensures DenotingTable(table)
  {
  }

  /** The preferred spelling of each class maps back to it. */
  lemma FirstsMapBack(table: map<int, seq<string>>, values: map<string, int>, firsts: seq<string>)
    requires Spellings(table, firsts) && RoundTrip(table, values)
    ensures forall k | 0 <= k < 12 :: firsts[k] in values && values[firsts[k]] == k
  {
    forall k | 0 <= k < 12 ensures firsts[k] in values && values[firsts[k]] == k {
      ListedValue(table, values, k, firsts[k]);
    }
  }

  /** A denoting table lists a spelling under one class only. */
  lemma DenotingDisjoint(table: map<int, seq<string>>)
    requires DenotingTable(table)
    ensures DisjointPitches(table)
  {
    forall v, w, n | 0 <= v < w < 12 && n in ListedAt(table, v)
      ensures n !in ListedAt(table, w)
    {
      ListedDenotes(table, v, n);
      ListedDenotes(table, w, n);
    }
  }

  /** The spellings of a complete denoting table are pairwise different. */
  lemma SpellingsCount(table: map<int, seq<string>>, firsts: seq<string>)
    requires Spellings(table, firsts) && DenotingTable(table)
    ensures |set n | n in ListedFrom(table, 0)| == |ListedFrom(table, 0)|
  {
    DenotingDisjoint(table);
    ListedFromCount(table, 0);
  }

  /** Every key of `values` is listed in `table` under its own pitch class. */
  predicate KeysListed(table: map<int, seq<string>>, values: map<string, int>) {
    forall n | n in values :: n in ListedAt(table, values[n])
  }

  lemma {:induction false} ListedFromHas(table: map<int, seq<string>>, v: nat, w: int, n: string)
    requires v <= w < 12 && n in ListedAt(table, w)
    ensures n in ListedFrom(table, v)
    decreases 12 - v
  {
    if v < w {
      ListedFromHas(table, v + 1, w, n);
    }
  }

  /** When every key is listed under its pitch class and every listed
      spelling is a key, the keys are exactly the listed spellings. */
  lemma KeysAreListed(table: map<int, seq<string>>, values: map<string, int>)
    requires RoundTrip(table, values) && KeysListed(table, values) && PitchTable(values)
    ensures values.Keys == set n | n in ListedFrom(table, 0)
  {
    forall n | n in values ensures n in ListedFrom(table, 0) {
      ListedFromHas(table, 0, values[n], n);
    }
    forall n | n in ListedFrom(table, 0) ensures n in values {
      var w := ListedFromMember(table, 0, n);
      ListedValue(table, values, w, n);
    }
  }

  /** ... and there are as many keys as the table lists spellings. */
  lemma SameSpellings(table: map<int, seq<string>>, values: map<string, int>, firsts: seq<string>)
    requires Spellings(table, firsts) && DenotingTable(table) && RoundTrip(table, values)
    requires KeysListed(table, values) && PitchTable(values)
    ensures values.Keys == set n | n in ListedFrom(table, 0)
    ensures |values| == |ListedFrom(table, 0)|
  {
    SpellingsCount(table, firsts);
    KeysAreListed(table, values);
    assert |values| == |values.Keys|;
  }

  /** `getSpelledNote(midiValue, targetLetter)` over a table of candidate
      spellings: `(table[midiValue] || []).find(n => n.startsWith(letter))
      || table[midiValue][0] || '?'`. */
  function SpellNote(table: map<int, seq<string>>, midiValue: int, targetLetter: string): (r: string)
    ensures r == "?" || r in ListedAt(table, midiValue)
  {
    FindSpelling(ListedAt(table, midiValue), targetLetter)
  }

  /** Over a complete table: `?` exactly outside 0..11; otherwise a listed
      spelling, the one on the target letter when there is one, and the
      preferred spelling when there is none. */
  lemma SpellNoteFacts(table: map<int, seq<string>>, firsts: seq<string>, midiValue: int, targetLetter: string)
    requires Spellings(table, firsts)
    ensures var r := SpellNote(table, midiValue, targetLetter);
            && (r == "?" <==> !(0 <= midiValue < 12))
            && (0 <= midiValue < 12 ==> r in ListedAt(table, midiValue))
            && (0 <= midiValue < 12 && FirstMatch(ListedAt(table, midiValue), targetLetter) >= 0 ==> StartsWith(r, targetLetter))
            && (0 <= midiValue < 12 && FirstMatch(ListedAt(table, midiValue), targetLetter) == -1 ==> r == firsts[midiValue])
  {
  }

  /** The `.map` callback shared by `calculateScale` and
      `calculateChordTones`: offset i spelled as `(startValue + offset) % 12`
      on the letter `stride * i` steps above `letterIndex`. */
  function SpellOffsets(table: map<int, seq<string>>, offsets: seq<int>, startValue: int, letterIndex: int, stride: int): (r: seq<string>)
    ensures |r| == |offsets|
  {
    seq(|offsets|, i requires 0 <= i < |offsets| =>
      SpellNote(table, (startValue + offsets[i]) % 12, BaseNotes[(letterIndex + stride * i) % 7]))
  }

  /** Entry i of `SpellOffsets` is listed under its pitch class, and is on
      the expected letter whenever that class has a spelling on it. */
  lemma SpellOffsetsAt(table: map<int, seq<string>>, firsts: seq<string>, offsets: seq<int>, startValue: int, letterIndex: int, stride: int, i: int)
    requires Spellings(table, firsts) && 0 <= i < |offsets|
    ensures var note := SpellOffsets(table, offsets, startValue, letterIndex, stride)[i];
            var pitch := (startValue + offsets[i]) % 12;
            var letter := BaseNotes[(letterIndex + stride * i) % 7];
            && note in ListedAt(table, pitch)
            && (StartsWith(note, letter) || FirstMatch(ListedAt(table, pitch), letter) == -1)
  {
    var pitch := (startValue + offsets[i]) % 12;
    var letter := BaseNotes[(letterIndex + stride * i) % 7];
    assert SpellOffsets(table, offsets, startValue, letterIndex, stride)[i] == SpellNote(table, pitch, letter);
    SpellNoteFacts(table, firsts, pitch, letter);
  }

  /** With no candidate of `pitch` on `letter`, `note` is the preferred
      spelling `firsts[pitch]`. */
  predicate PreferredIn(table: map<int, seq<string>>, firsts: seq<string>, note: string, pitch: int, letter: string) {
    FirstMatch(ListedAt(table, pitch), letter) == -1 ==> 0 <= pitch < |firsts| && note == firsts[pitch]
  }

  /** Entry i of `SpellOffsets` falls back to the preferred spelling of its
      pitch class when that class has no candidate on the expected letter. */
  lemma SpellOffsetsFallback(table: map<int, seq<string>>, firsts: seq<string>, offsets: seq<int>, startValue: int, letterIndex: int, stride: int,
                             i: int, pitch: int, letter: string)
    requires Spellings(table, firsts) && 0 <= i < |offsets|
    requires pitch == (startValue + offsets[i]) % 12 && letter == BaseNotes[(letterIndex + stride * i) % 7]
    ensures PreferredIn(table, firsts, SpellOffsets(table, offsets, startValue, letterIndex, stride)[i], pitch, letter)
  {
    assert SpellOffsets(table, offsets, startValue, letterIndex, stride)[i] == SpellNote(table, pitch, letter);
    SpellNoteFacts(table, firsts, pitch, letter);
  }

  /** The first entry, at offset 0, is the start value spelled on the start
      letter. */
  lemma SpellOffsetsFirst(table: map<int, seq<string>>, offsets: seq<int>, startValue: int, letterIndex: int, stride: int)
    requires |offsets| > 0 && offsets[0] == 0 && 0 <= startValue < 12 && 0 <= letterIndex < 7
    ensures SpellOffsets(table, offsets, startValue, letterIndex, stride)[0] == SpellNote(table, startValue, BaseNotes[letterIndex])
  {
    assert (startValue + offsets[0]) % 12 == startValue && (letterIndex + stride * 0) % 7 == letterIndex;
  }

  /** Over a complete table, entry i is the candidate of its pitch class
      that starts with its letter, whichever one that is. */
  lemma SpellOffsetsNamed(table: map<int, seq<string>>, firsts: seq<string>, offsets: seq<int>, startValue: int, letterIndex: int, stride: int,
                          i: int, pitch: int, letter: string, k: int)
    requires Spellings(table, firsts) && 0 <= i < |offsets|
    requires pitch == (startValue + offsets[i]) % 12 && letter == BaseNotes[(letterIndex + stride * i) % 7]
    requires 0 <= k < |ListedAt(table, pitch)| && StartsWith(ListedAt(table, pitch)[k], letter)
    ensures SpellOffsets(table, offsets, startValue, letterIndex, stride)[i] == ListedAt(table, pitch)[k]
  {
    assert SpellOffsets(table, offsets, startValue, letterIndex, stride)[i] == SpellNote(table, pitch, letter);
    FindSpellingUnique(ListedAt(table, pitch), letter, k);
  }

  /** What a spelled entry promises over a denoting table: it is listed under
      `pitch` and denotes it, and it is on `letter` whenever `pitch` has a
      candidate there. */
  predicate SpelledIn(table: map<int, seq<string>>, note: string, pitch: int, letter: string) {
    && note in ListedAt(table, pitch) && SpelledPitch(note) == Some(pitch)
    && (StartsWith(note, letter) || FirstMatch(ListedAt(table, pitch), letter) == -1)
  }

  /** The same over a value table: `note` is a key mapped to `pitch`. */
  predicate ValuedIn(table: map<int, seq<string>>, values: map<string, int>, note: string, pitch: int, letter: string) {
    && note in values && values[note] == pitch
    && (StartsWith(note, letter) || FirstMatch(ListedAt(table, pitch), letter) == -1)
  }

  /** Entry i is a listed candidate denoting its pitch class, on its letter
      when it can be, and the table's first name when it cannot. */
  lemma SpellOffsetsPreferred(table: map<int, seq<string>>, firsts: seq<string>, offsets: seq<int>, startValue: int, letterIndex: int, stride: int,
                              i: int, pitch: int, letter: string)
    requires Spellings(table, firsts) && DenotingTable(table) && 0 <= i < |offsets|
    requires pitch == (startValue + offsets[i]) % 12 && letter == BaseNotes[(letterIndex + stride * i) % 7]
    ensures SpelledIn(table, SpellOffsets(table, offsets, startValue, letterIndex, stride)[i], pitch, letter)
    ensures PreferredIn(table, firsts, SpellOffsets(table, offsets, startValue, letterIndex, stride)[i], pitch, letter)
  {
    SpellOffsetsSpelled(table, firsts, offsets, startValue, letterIndex, stride, i, pitch, letter);
    SpellOffsetsFallback(table, firsts, offsets, startValue, letterIndex, stride, i, pitch, letter);
  }

  /** Entry i of the spelled offsets over a complete denoting table. */
  lemma SpellOffsetsSpelled(table: map<int, seq<string>>, firsts: seq<string>, offsets: seq<int>, startValue: int, letterIndex: int, stride: int,
                            i: int, pitch: int, letter: string)
    requires Spellings(table, firsts) && DenotingTable(table) && 0 <= i < |offsets|
    requires pitch == (startValue + offsets[i]) % 12 && letter == BaseNotes[(letterIndex + stride * i) % 7]
    ensures SpelledIn(table, SpellOffsets(table, offsets, startValue, letterIndex, stride)[i], pitch, letter)
  {
    SpellOffsetsAt(table, firsts, offsets, startValue, letterIndex, stride, i);
    ListedDenotes(table, pitch, SpellOffsets(table, offsets, startValue, letterIndex, stride)[i]);
  }

  /** Entry i of the spelled offsets over a complete table whose spellings
      map back to their class in `values`. */
  lemma SpellOffsetsValued(table: map<int, seq<string>>, firsts: seq<string>, values: map<string, int>, offsets: seq<int>,
                           startValue: int, letterIndex: int, stride: int, i: int, pitch: int, letter: string)
    requires Spellings(table, firsts) && RoundTrip(table, values) && 0 <= i < |offsets|
    requires pitch == (startValue + offsets[i]) % 12 && letter == BaseNotes[(letterIndex + stride * i) % 7]
    ensures ValuedIn(table, values, SpellOffsets(table, offsets, startValue, letterIndex, stride)[i], pitch, letter)
  {
    SpellOffsetsAt(table, firsts, offsets, startValue, letterIndex, stride, i);
    ListedValue(table, values, pitch, SpellOffsets(table, offsets, startValue, letterIndex, stride)[i]);
  }

  /** The pitch class of letter l moved by `shift` semitones. */
  function NearPitch(l: int, shift: int): (p: int)
    requires 0 <= l < 7
    ensures 0 <= p < 12
  {
    (NaturalPitch[l] + shift) % 12
  }

  /** Every letter moved by at most a double accidental has a candidate on
      that letter: the table lists every such spelling. */
  predicate CoversNear(table: map<int, seq<string>>) {
    forall l, shift | 0 <= l < 7 && -2 <= shift <= 2 :: FirstMatch(ListedAt(table, NearPitch(l, shift)), BaseNotes[l]) >= 0
  }

  /** Note i starts with the letter i steps above letter l: the alphabet
      rotated to start at l. */
  predicate OnRotatedLetters(notes: seq<string>, l: int) {
    0 <= l < 7 && forall i | 0 <= i < |notes| :: StartsWith(notes[i], BaseNotes[(l + i) % 7])
  }

  /** Note k of such notes is on the letter k steps above l. */
  lemma RotatedAt(notes: seq<string>, l: int, k: int)
    requires OnRotatedLetters(notes, l) && 0 <= k < |notes|
    ensures StartsWith(notes[k], BaseNotes[(l + k) % 7])
  {
  }

  /** The first such note is on letter l itself. */
  lemma RotatedFirst(notes: seq<string>, l: int)
    requires OnRotatedLetters(notes, l) && |notes| > 0
    ensures StartsWith(notes[0], BaseNotes[l])
  {
    assert (l + 0) % 7 == l;
  }

  /** Notes on the rotated alphabet, at most seven of them, have pairwise
      different leading letters. */
  lemma RotatedLettersDistinct(notes: seq<string>, l: int)
    requires OnRotatedLetters(notes, l) && |notes| <= 7
    ensures NonEmptyNames(notes) && DistinctLetters(notes)
  {
    forall i | 0 <= i < |notes|
      ensures notes[i] != ""
    {
      assert StartsWith(notes[i], BaseNotes[(l + i) % 7]);
    }
    forall i, j | 0 <= i < j < |notes| && |notes[i]| > 0 && |notes[j]| > 0
      ensures notes[i][0] != notes[j][0]
    {
      RotatedPairDistinct(l, i, j);
      assert StartsWith(notes[i], BaseNotes[(l + i) % 7]) && StartsWith(notes[j], BaseNotes[(l + j) % 7]);
    }
  }

  /** Two different steps under seven land on letters with different
      characters. */
  lemma RotatedPairDistinct(l: int, i: int, j: int)
    requires 0 <= l < 7 && 0 <= i < j < 7
    ensures BaseNotes[(l + i) % 7][0] != BaseNotes[(l + j) % 7][0]
  {
    assert (l + i) % 7 != (l + j) % 7;
  }

  /** Over a table that covers every near spelling, offsets that stay near
      the natural letters, spelled one letter per degree from a tonic on
      letter l with at most one accidental `shift`, put degree i on the
      letter i steps up. */
  lemma SpellOffsetsOnLetter(table: map<int, seq<string>>, firsts: seq<string>, offsets: seq<int>, l: int, shift: int, i: int)
    requires Spellings(table, firsts) && CoversNear(table) && NearNatural(offsets)
    requires 0 <= l < 7 && -1 <= shift <= 1 && 0 <= i < 7
    ensures StartsWith(SpellOffsets(table, offsets, (NaturalPitch[l] + shift) % 12, l, 1)[i], BaseNotes[(l + i) % 7])
  {
    var v := (NaturalPitch[l] + shift) % 12;
    var x := NaturalPitch[l] + shift + offsets[i];
    var m := (l + i) % 7;
    var e := LetterDeviation(offsets, l, i);
    assert e == (x - shift - NaturalPitch[m]) % 12;
    ModuloSum(NaturalPitch[l] + shift, offsets[i]);
    var d := DeviationNear(x, NaturalPitch[m], shift, e);
    var pitch := (v + offsets[i]) % 12;
    assert pitch == x % 12 == NearPitch(m, d);
    assert FirstMatch(ListedAt(table, pitch), BaseNotes[m]) >= 0;
    assert BaseNotes[(l + 1 * i) % 7] == BaseNotes[m];
    SpellOffsetsAt(table, firsts, offsets, v, l, 1, i);
  }

  /** `((a % 12) + b) % 12 == (a + b) % 12` */
  lemma ModuloSum(a: int, b: int)
    ensures ((a % 12) + b) % 12 == (a + b) % 12
  {
    var q := a / 12;
    assert a == 12 * q + a % 12;
    assert a + b == ((a % 12) + b) + 12 * q;
  }

  /** A pitch one accidental off a degree that deviates by at most a
      semitone from its natural letter is that letter moved by at most a
      double accidental. */
  lemma DeviationNear(x: int, natural: int, shift: int, e: int) returns (d: int)
    requires -1 <= shift <= 1 && e == (x - shift - natural) % 12 && (e <= 1 || e == 11)
    ensures -2 <= d <= 2 && x % 12 == (natural + d) % 12
  {
    var q := (x - shift - natural) / 12;
    assert x - shift - natural == 12 * q + e;
    d := if e == 11 then shift - 1 else shift + e;
    var k := if e == 11 then q + 1 else q;
    assert x == natural + d + 12 * k;
    ModuloSum(natural + d, 12 * k);
  }
}
