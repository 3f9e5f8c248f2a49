/** Vocabulary shared by the three engines: the natural letters, the letter of
    a spelling, choosing a spelling by letter, and naming the interval between
    two spellings, each parameterised by the lookup tables of the file that
    uses it. */
module Theory {
  import opened Strings

  datatype Option<T> = None | Some(value: T)

  /** `baseNotes`: the seven natural letters, in order from C. */
  const BaseNotes: seq<string> := ["C", "D", "E", "F", "G", "A", "B"]

  /** The position of a character among the natural letters, -1 for any
      other character. */
  function LetterPosition(c: char): (i: int)
    ensures -1 <= i < 7
    ensures i >= 0 ==> BaseNotes[i] == [c]
    ensures i == -1 <==> [c] !in BaseNotes
  {
    if c == 'C' then 0 else if c == 'D' then 1 else if c == 'E' then 2
    else if c == 'F' then 3 else if c == 'G' then 4 else if c == 'A' then 5
    else if c == 'B' then 6 else -1
  }

  /** `baseNotes.indexOf(note[0])` (also `baseNotes.indexOf(note.charAt(0))`):
      the position of the spelling's first character among the letters, -1
      for an empty note or one that does not start with a natural letter. */
  function LetterIndex(note: string): (i: int)
    ensures -1 <= i < 7
    ensures i >= 0 <==> |note| > 0 && [note[0]] in BaseNotes
    ensures i >= 0 ==> StartsWith(note, BaseNotes[i])
  {
    if |note| == 0 then -1 else LetterPosition(note[0])
  }

  /** `LetterIndex` is `indexOf` on the letters. */
  lemma LetterIndexIsIndexOf(note: string)
    ensures |note| > 0 ==> LetterIndex(note) == IndexOf(BaseNotes, [note[0]])
  {
    if |note| > 0 {
      var i := IndexOf(BaseNotes, [note[0]]);
      if i >= 0 {
        assert BaseNotes[LetterIndex(note)] == BaseNotes[i];
      }
    }
  }

  /** `baseNotes.indexOf(note.charAt(0).toUpperCase())` */
  function UpperLetterIndex(note: string): (i: int)
    ensures -1 <= i < 7
    ensures |note| > 0 ==> i == LetterIndex([UpperChar(note[0])])
    ensures |note| > 0 && !('a' <= note[0] <= 'z') ==> i == LetterIndex(note)
  {
    if |note| == 0 then -1 else LetterPosition(UpperChar(note[0]))
  }

  /** The pitch classes of the natural letters C D E F G A B. */
  const NaturalPitch: seq<int> := [0, 2, 4, 5, 7, 9, 11]

  /** The semitone shift written by the accidental part of a spelling:
      none, `#`, `b`, a double sharp `x` or `##`, or `bb`. */
  function AccidentalShift(acc: string): (r: Option<int>)
    ensures r.Some? ==> -2 <= r.value <= 2
  {
    if acc == "" then Some(0)
    else if acc == "#" then Some(1)
    else if acc == "b" then Some(-1)
    else if acc == "x" || acc == "##" then Some(2)
    else if acc == "bb" then Some(-2)
    else None
  }

  /** The pitch class a spelling denotes by the rules of notation: its
      letter's natural pitch class moved by its accidental, modulo 12. This is
      the reference the lookup tables are checked against. */
  function SpelledPitch(n: string): (r: Option<int>)
    ensures r.Some? ==> 0 <= r.value < 12 && LetterIndex(n) >= 0
  {
    var i := LetterIndex(n);
    if i < 0 then None
    else match AccidentalShift(n[1..])
      case None => None
      case Some(shift) => Some((NaturalPitch[i] + shift) % 12)
  }

  /** Every spelling of `values` starts with an upper-case natural letter and
      is mapped to the pitch class it denotes. */
  predicate SpelledValues(values: map<string, int>) {
    forall n | n in values :: SpelledPitch(n) == Some(values[n]) && !('a' <= n[0] <= 'z')
  }

  lemma SpelledValuesInRange(values: map<string, int>)
    requires SpelledValues(values)
    ensures PitchTable(values)
  {
  }

  /** Offsets that are 0 first, strictly increasing, and below `bound`. */
  predicate IncreasingFromZero(offsets: seq<int>, bound: int) {
    && |offsets| > 0 && offsets[0] == 0
    && (forall k :: 0 < k < |offsets| ==> offsets[k - 1] < offsets[k])
    && offsets[|offsets| - 1] < bound
  }

  /** Such offsets all lie in 0..bound-1. */
  lemma IncreasingBounds(offsets: seq<int>, bound: int)
    requires IncreasingFromZero(offsets, bound)
    ensures forall k | 0 <= k < |offsets| :: 0 <= offsets[k] < bound
  {
    forall k | 0 <= k < |offsets| ensures 0 <= offsets[k] < bound {
      IncreasingBetween(offsets, bound, k);
    }
  }

  lemma {:induction false} IncreasingBetween(offsets: seq<int>, bound: int, k: nat)
    requires IncreasingFromZero(offsets, bound) && k < |offsets|
    ensures k <= offsets[k] <= offsets[|offsets| - 1]
    decreases |offsets| - k
  {
    IncreasingFromBelow(offsets, bound, k);
    if k + 1 < |offsets| {
      IncreasingBetween(offsets, bound, k + 1);
    }
  }

  lemma {:induction false} IncreasingFromBelow(offsets: seq<int>, bound: int, k: nat)
    requires IncreasingFromZero(offsets, bound) && k < |offsets|
    ensures k <= offsets[k]
  {
    if k > 0 {
      IncreasingFromBelow(offsets, bound, k - 1);
    }
  }

  /** A spelling whose accidental moves its letter by at most one
      semitone: a natural, a single sharp or a single flat. */
  predicate SingleAccidental(n: string) {
    |n| > 0 && var shift := AccidentalShift(n[1..]); shift.Some? && -1 <= shift.value <= 1
  }

  /** A spelling with at most one accidental denotes its letter's natural
      pitch class moved by -1, 0 or 1. */
  lemma SpelledShift(n: string, value: int) returns (shift: int)
    requires SpelledPitch(n) == Some(value) && SingleAccidental(n)
    ensures 0 <= LetterIndex(n) < 7 && -1 <= shift <= 1
    ensures value == (NaturalPitch[LetterIndex(n)] + shift) % 12
  {
    shift := AccidentalShift(n[1..]).value;
  }

  /** How far degree i of `offsets`, counted from the natural pitch of letter
      l, lies above the natural pitch of the letter i steps up, modulo 12. */
  function LetterDeviation(offsets: seq<int>, l: int, i: int): (e: int)
    requires 0 <= l < 7 && 0 <= i < |offsets|
    ensures 0 <= e < 12
  {
    (NaturalPitch[l] + offsets[i] - NaturalPitch[(l + i) % 7]) % 12
  }

  /** From every natural letter, each of the first seven degrees lies within
      a semitone of the natural letter it is written on. */
  predicate NearNatural(offsets: seq<int>) {
    && |offsets| >= 7
    && forall l, i | 0 <= l < 7 && 0 <= i < 7 ::
         LetterDeviation(offsets, l, i) <= 1 || LetterDeviation(offsets, l, i) == 11
  }

  /** `NearNatural` checked pair by pair, letter l and degree i onwards. */
  predicate NearFrom(offsets: seq<int>, l: nat, i: nat)
    requires |offsets| >= 7
    decreases 7 - l, 7 - i
  {
    if l >= 7 then true
    else if i >= 7 then NearFrom(offsets, l + 1, 0)
    else (LetterDeviation(offsets, l, i) <= 1 || LetterDeviation(offsets, l, i) == 11) && NearFrom(offsets, l, i + 1)
  }

  lemma {:induction false} NearFromAt(offsets: seq<int>, l0: nat, i0: nat, l: int, i: int)
    requires |offsets| >= 7 && NearFrom(offsets, l0, i0)
    requires 0 <= l < 7 && 0 <= i < 7 && (l0 < l || (l0 == l && i0 <= i))
    ensures LetterDeviation(offsets, l, i) <= 1 || LetterDeviation(offsets, l, i) == 11
    decreases 7 - l0, 7 - i0
  {
    if i0 >= 7 {
      NearFromAt(offsets, l0 + 1, 0, l, i);
    } else if l0 < l || i0 < i {
      NearFromAt(offsets, l0, i0 + 1, l, i);
    }
  }

  /** The pair-by-pair check establishes `NearNatural`. */
  lemma NearFromNatural(offsets: seq<int>)
    requires |offsets| >= 7 && NearFrom(offsets, 0, 0)
    ensures NearNatural(offsets)
  {
    forall l, i | 0 <= l < 7 && 0 <= i < 7
      ensures LetterDeviation(offsets, l, i) <= 1 || LetterDeviation(offsets, l, i) == 11
    {
      NearFromAt(offsets, 0, 0, l, i);
    }
  }

  /** Only the first seven offsets matter. */
  lemma NearNaturalTake(offsets: seq<int>)
    requires NearNatural(offsets)
    ensures NearNatural(Take(offsets, 7))
  {
    var t := Take(offsets, 7);
    forall l, i | 0 <= l < 7 && 0 <= i < 7
      ensures LetterDeviation(t, l, i) <= 1 || LetterDeviation(t, l, i) == 11
    {
      assert t[i] == offsets[i];
      assert LetterDeviation(t, l, i) == LetterDeviation(offsets, l, i);
    }
  }

  /** A table of pitch classes: every value in 0..11. */
  predicate PitchTable(values: map<string, int>) {
    forall n | n in values :: 0 <= values[n] < 12
  }

  /** An interval-name table covering at least the distances 0..11. */
  predicate LabelTable(labels: map<int, string>) {
    forall k | 0 <= k < 12 :: k in labels
  }

  /** `noteValueMap[note] || 0`: an absent spelling counts as pitch class 0. */
  function PitchOrZero(values: map<string, int>, note: string): int {
    if note in values then values[note] else 0
  }

  /** `(v2 - v1 + 12) % 12` with both pitch classes read by `PitchOrZero`. */
  function Semitones(values: map<string, int>, a: string, b: string): (d: int)
    requires PitchTable(values)
    ensures 0 <= d < 12
    ensures (d + PitchOrZero(values, a) - PitchOrZero(values, b)) % 12 == 0
  {
    (PitchOrZero(values, b) - PitchOrZero(values, a) + 12) % 12
  }

  /** `(note2Index - note1Index + 7) % 7 + 1`: the 1-based letter step count
      from `a`'s letter up to `b`'s. */
  function LetterDistance(a: string, b: string): (d: int)
    ensures 1 <= d <= 7
  {
    (LetterIndex(b) - LetterIndex(a) + 7) % 7 + 1
  }

  /** `calculateInterval` of the letter-aware engines: `P1/P8` at distance 0
      (the same note, or two spellings of one pitch class), the tritone split
      by letter distance, every other distance from `labels`. */
  function LetterAwareInterval(values: map<string, int>, labels: map<int, string>, a: string, b: string): (r: string)
    requires PitchTable(values) && LabelTable(labels)
    ensures a == b ==> r == "P1/P8"
    ensures Semitones(values, a, b) == 0 ==> r == "P1/P8"
    ensures Semitones(values, a, b) == 6 ==> r in {"A4", "d5", "A4/d5"}
    ensures Semitones(values, a, b) == 6 ==>
              (r == "A4" <==> LetterDistance(a, b) == 4) && (r == "d5" <==> LetterDistance(a, b) == 5)
    ensures Semitones(values, a, b) !in {0, 6} ==> r == labels[Semitones(values, a, b)]
  {
    var semitones := Semitones(values, a, b);
    if semitones == 6 then
      var letterDistance := LetterDistance(a, b);
      if letterDistance == 4 then "A4" else if letterDistance == 5 then "d5" else "A4/d5"
    else if semitones == 0 then "P1/P8"
    else labels[semitones]
  }

  /** The interval depends on the tables only through the two pitch
      classes read and the label table. */
  lemma LetterAwareSamePitches(values1: map<string, int>, values2: map<string, int>, labels: map<int, string>, a: string, b: string)
    requires PitchTable(values1) && PitchTable(values2) && LabelTable(labels)
    requires PitchOrZero(values1, a) == PitchOrZero(values2, a) && PitchOrZero(values1, b) == PitchOrZero(values2, b)
    ensures LetterAwareInterval(values1, labels, a, b) == LetterAwareInterval(values2, labels, a, b)
  {
  }

  /** `calculateInterval` of the older inline engine: a bare lookup. */
  function PlainInterval(values: map<string, int>, labels: map<int, string>, a: string, b: string): (r: string)
    requires PitchTable(values) && LabelTable(labels)
    ensures a == b ==> r == labels[0]
    ensures Semitones(values, a, b) == 0 ==> r == labels[0]
    ensures r in labels.Values
  {
    labels[Semitones(values, a, b)]
  }

  /** The first key in k..12 that `labels` maps to `name`. */
  function ReverseFrom(labels: map<int, string>, name: string, k: nat): (r: Option<int>)
    decreases 13 - k
    ensures r.Some? ==> k <= r.value <= 12 && r.value in labels && labels[r.value] == name
  {
    if k > 12 then None
    else if k in labels && labels[k] == name then Some(k)
    else ReverseFrom(labels, name, k + 1)
  }

  /** The semitone distance an interval name stands for: its first key in the
      table, with `A4` and `d5` read as the tritone. */
  function NameSemitones(labels: map<int, string>, name: string): Option<int> {
    if name == "A4" || name == "d5" then Some(6) else ReverseFrom(labels, name, 0)
  }

  /** A table whose distances 0..11 carry pairwise different names, with
      `P1/P8` at 0 and `A4/d5` at 6, and never the bare `A4` or `d5`. */
  predicate CanonicalLabels(labels: map<int, string>) {
    && LabelTable(labels)
    && labels[0] == "P1/P8" && labels[6] == "A4/d5"
    && (forall j, k | 0 <= j < k < 12 :: labels[j] != labels[k])
    && (forall k | 0 <= k < 12 :: labels[k] != "A4" && labels[k] != "d5")
  }

  /** A table that agrees entry by entry on 0..11 with a canonical one is
      canonical. */
  lemma CanonicalAgrees(labels: map<int, string>, canonical: map<int, string>)
    requires CanonicalLabels(canonical) && LabelTable(labels)
    requires forall k | 0 <= k < 12 :: labels[k] == canonical[k]
    ensures CanonicalLabels(labels)
  {
    assert labels[0] == canonical[0] && labels[6] == canonical[6];
  }

  lemma {:induction false} ReverseFromFinds(labels: map<int, string>, k: nat, j: nat)
    requires CanonicalLabels(labels) && j <= k < 12
    ensures ReverseFrom(labels, labels[k], j) == Some(k)
    decreases k - j
  {
    if j < k {
      assert labels[j] != labels[k];
      ReverseFromFinds(labels, k, j + 1);
    }
  }

  /** Looking the name back up recovers the semitone distance: the
      letter-aware interval loses nothing about the distance. */
  lemma LetterAwareRecoversSemitones(values: map<string, int>, labels: map<int, string>, a: string, b: string)
    requires PitchTable(values) && CanonicalLabels(labels)
    ensures NameSemitones(labels, LetterAwareInterval(values, labels, a, b)) == Some(Semitones(values, a, b))
  {
    var d := Semitones(values, a, b);
    ReverseFromFinds(labels, d, 0);
  }

  /** The same for the plain lookup. */
  lemma PlainRecoversSemitones(values: map<string, int>, labels: map<int, string>, a: string, b: string)
    requires PitchTable(values) && CanonicalLabels(labels)
    ensures NameSemitones(labels, PlainInterval(values, labels, a, b)) == Some(Semitones(values, a, b))
  {
    var d := Semitones(values, a, b);
    ReverseFromFinds(labels, d, 0);
  }
}
