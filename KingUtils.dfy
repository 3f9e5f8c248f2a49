/** The sharps-only engine of `music-theory-king/docs/utils.ts`: the same
    interval rule as the letter-aware engine, but scales and chord tones read
    straight from the sharp spelling of each pitch class, with no letter
    constraint. */
module KingUtils {
  import opened Strings
  import opened Theory
  import opened KingConstants
  import Constants
  import MusicLogic

  /** `calculateInterval(note1, note2)` */
  function CalculateInterval(note1: string, note2: string): (r: string)
    ensures note1 == note2 ==> r == "P1/P8"
    ensures r != "P8"
  {
    NoteValueSpelled();
    SemitoneToIntervalShape();
    LetterAwareInterval(NoteValueMap, SemitoneToInterval, note1, note2)
  }

  /** Distance 0 is the unison whichever spellings give it: `C#` to `Db`
      is `P1/P8` as much as `C` to `C`. */
  lemma CalculateIntervalUnison(note1: string, note2: string)
    ensures PitchTable(NoteValueMap)
    ensures Semitones(NoteValueMap, note1, note2) == 0 ==> CalculateInterval(note1, note2) == "P1/P8"
  {
    NoteValueSpelled();
    SemitoneToIntervalShape();
  }

  /** The interval name determines the semitone distance, an absent
      spelling read as pitch class 0. */
  lemma CalculateIntervalRecovers(note1: string, note2: string)
    ensures PitchTable(NoteValueMap)
    ensures NameSemitones(SemitoneToInterval, CalculateInterval(note1, note2)) == Some(Semitones(NoteValueMap, note1, note2))
  {
    NoteValueSpelled();
    SemitoneToIntervalShape();
    LetterAwareRecoversSemitones(NoteValueMap, SemitoneToInterval, note1, note2);
  }

  /** On spellings both tables know, the two engines name the same
      interval. */
  lemma CalculateIntervalAgrees(note1: string, note2: string)
    requires note1 in NoteValueMap && note1 in Constants.NoteValueMap
    requires note2 in NoteValueMap && note2 in Constants.NoteValueMap
    ensures CalculateInterval(note1, note2) == MusicLogic.CalculateInterval(note1, note2)
  {
    NoteValueAgrees(note1);
    NoteValueAgrees(note2);
    SameAsMainTables();
    NoteValueSpelled();
    Constants.NoteValuesInRange();
    SemitoneToIntervalShape();
    LetterAwareSamePitches(NoteValueMap, Constants.NoteValueMap, SemitoneToInterval, note1, note2);
  }

  /** The `.map` of `calculateScale` and `calculateChordTones`: each offset
      added to the start value and spelled by `valueNoteMap`. Every entry is
      a natural or a sharp, and a spelling of its pitch class. */
  function SharpsFrom(offsets: seq<int>, startValue: int): (r: seq<string>)
    requires 0 <= startValue && forall k | 0 <= k < |offsets| :: 0 <= offsets[k]
    ensures |r| == |offsets|
    ensures forall i | 0 <= i < |r| ::
              Sharp(r[i]) && r[i] in NoteValueMap && NoteValueMap[r[i]] == (startValue + offsets[i]) % 12
  {
    ValueNoteMapInverse();
    seq(|offsets|, i requires 0 <= i < |offsets| => ValueNoteMap[(startValue + offsets[i]) % 12])
  }

  /** `calculateScale(mode, tonic)`: `[]` for an unknown mode, otherwise the
      sharp spelling of the tonic's pitch class moved by each of the mode's
      first seven offsets. */
  function CalculateScale(mode: string, tonic: string): (r: seq<string>)
    requires mode in ScaleIntervals ==> tonic in NoteValueMap
    ensures mode !in ScaleIntervals ==> r == []
    ensures mode in ScaleIntervals ==> |r| == 7
  {
    if mode !in ScaleIntervals then []
    else
      ScaleIntervalsShape(mode);
      NoteValuesInRange();
      SharpsFrom(Take(ScaleIntervals[mode], 7), NoteValueMap[tonic])
  }

  /** On a known mode and tonic the scale is the sharp spelling of the
      tonic's pitch class moved by the mode's first seven offsets. */
  lemma ScaleIsSharpsFrom(mode: string, tonic: string, tonicValue: int, intervals: seq<int>)
    requires mode in ScaleIntervals && tonic in NoteValueMap
    requires tonicValue == NoteValueMap[tonic] && intervals == ScaleIntervals[mode]
    ensures |intervals| == 8 && intervals[0] == 0 && 0 <= tonicValue
    ensures forall k | 0 <= k < 8 :: 0 <= intervals[k]
    ensures CalculateScale(mode, tonic) == SharpsFrom(intervals[..7], tonicValue)
  {
    ScaleIntervalsShape(mode);
    NoteValuesInRange();
  }

  /** Enharmonic tonics (`C#` and `Db`, say) give the same scale: the
      engine spells every scale in sharps. */
  lemma CalculateScaleEnharmonic(mode: string, tonic1: string, tonic2: string)
    requires mode in ScaleIntervals && tonic1 in NoteValueMap && tonic2 in NoteValueMap
    requires NoteValueMap[tonic1] == NoteValueMap[tonic2]
    ensures CalculateScale(mode, tonic1) == CalculateScale(mode, tonic2)
  {
    ScaleIsSharpsFrom(mode, tonic1, NoteValueMap[tonic1], ScaleIntervals[mode]);
    ScaleIsSharpsFrom(mode, tonic2, NoteValueMap[tonic2], ScaleIntervals[mode]);
  }

  /** The provisional type of this engine's `extractChordType`: the main
      engine's deletions and replacements (here replacing `째`, U+C9F8, by
      itself), then one more replacement of the `VII$\text{dim7}$` suffix,
      whose `\t` is a TAB, by `dim7`. */
  function StrippedNumeral(roman: string): (t: string)
  {
    var t := RemoveChars(roman, {'I', 'V', 'X'});
    var t := ReplaceFirst(ReplaceFirst(ReplaceFirst(t, "$\\text{dim7}$", "dim7"), "째", "째"), "+", "+");
    ReplaceFirst(t, "$\text{dim7}$", "dim7")
  }

  /** `extractChordType(roman)`: the same chain of substring tests and the
      same bare-triad fallback as the main engine, over the provisional type
      above. */
  function ExtractChordType(roman: string): (r: string)
  {
    var t := StrippedNumeral(roman);
    if Contains(roman, "maj7") then "Maj7"
    else if Contains(roman, "m7(b5)") then "m7(b5)"
    else if Contains(roman, "m7") then "m7"
    else if Contains(roman, "7") then "7"
    else if Contains(roman, "dim7") then "dim7"
    else if Contains(roman, "mM7") then "mM7"
    else if Contains(roman, "Maj7#5") then "Maj7#5"
    else if t == "" then
      if roman in ["I", "IV", "V"] then "I"
      else if roman in ["i", "iv", "v", "vi"] then "i"
      else t
    else t
  }

  /** Without a `7` in the token none of the four replacements changes
      anything. */
  lemma StrippedWithoutSeventh(roman: string)
    requires '7' !in roman
    ensures StrippedNumeral(roman) == RemoveChars(roman, {'I', 'V', 'X'})
  {
    var t := RemoveChars(roman, {'I', 'V', 'X'});
    if Contains(t, "$\\text{dim7}$") {
      ContainsChar(t, "$\\text{dim7}$", '7');
      assert false;
    }
    ReplaceAbsent(t, "$\\text{dim7}$", "dim7");
    ReplaceSelf(t, "째");
    ReplaceSelf(t, "+");
    if Contains(t, "$\text{dim7}$") {
      ContainsChar(t, "$\text{dim7}$", '7');
      assert false;
    }
    ReplaceAbsent(t, "$\text{dim7}$", "dim7");
  }

  /** The extra replacement and the different self-replaced character make no
      difference: both engines extract the same type from every token. */
  lemma ExtractChordTypeAgrees(roman: string)
    ensures ExtractChordType(roman) == MusicLogic.ExtractChordType(roman)
  {
    if '7' in roman {
      ContainsSingle(roman, '7');
    } else {
      MusicLogic.NoSeventhNoSuffix(roman);
      MusicLogic.StrippedWithoutSeventh(roman);
      StrippedWithoutSeventh(roman);
    }
  }

  /** `chordOffsetMap[type] || [0, 4, 7]`: a known type's offsets, the major
      triad for any other. */
  function ChordOffsets(chordType: string): (r: seq<int>)
    ensures chordType !in ChordOffsetMap ==> r == [0, 4, 7]
    ensures |r| == 3 || |r| == 4
    ensures IncreasingFromZero(r, 12)
    ensures forall k | 0 <= k < |r| :: 0 <= r[k] < 12
  {
    if chordType in ChordOffsetMap then
      ChordOffsetsShape(chordType);
      ChordOffsetMap[chordType]
    else [0, 4, 7]
  }

  /** The two engines give every type the same offsets. */
  lemma ChordOffsetsAgree(chordType: string)
    ensures ChordOffsets(chordType) == MusicLogic.ChordOffsets(chordType)
  {
    SameAsMainTables();
  }

  /** `calculateChordTones(root, type)`: the sharp spelling of the root's
      pitch class moved by each of the type's offsets. */
  function CalculateChordTones(root: string, chordType: string): (r: seq<string>)
    requires root in NoteValueMap
    ensures |r| == 3 || |r| == 4
    ensures chordType !in ChordOffsetMap ==> |r| == 3
  {
    NoteValuesInRange();
    SharpsFrom(ChordOffsets(chordType), NoteValueMap[root])
  }

  /** Tone i of the chord is the sharp spelling of the root's pitch class
      moved by offset i; offset 0 comes first, so the first tone is the
      root's pitch class. */
  lemma ChordTonesAreSharpsFrom(root: string, chordType: string, rootValue: int, offsets: seq<int>)
    requires root in NoteValueMap && rootValue == NoteValueMap[root] && offsets == ChordOffsets(chordType)
    ensures 0 <= rootValue && offsets[0] == 0 && forall k | 0 <= k < |offsets| :: 0 <= offsets[k]
    ensures CalculateChordTones(root, chordType) == SharpsFrom(offsets, rootValue)
  {
    NoteValuesInRange();
  }

  /** Enharmonic roots give the same tones. */
  lemma ChordTonesEnharmonic(root1: string, root2: string, chordType: string)
    requires root1 in NoteValueMap && root2 in NoteValueMap && NoteValueMap[root1] == NoteValueMap[root2]
    ensures CalculateChordTones(root1, chordType) == CalculateChordTones(root2, chordType)
  {
    ChordTonesAreSharpsFrom(root1, chordType, NoteValueMap[root1], ChordOffsets(chordType));
    ChordTonesAreSharpsFrom(root2, chordType, NoteValueMap[root2], ChordOffsets(chordType));
  }

  /** The suffix of `formatChordDisplay`: `Maj7` to `maj7`, `m7` to `min7`,
      `7` to itself, the TAB spelling of the diminished-seventh suffix and
      then `dim7` to `째7`, and `+` deleted, each first occurrence only and in
      that order. */
  function ChordSuffix(chordType: string): (r: string)
  {
    var s := ReplaceFirst(ReplaceFirst(chordType, "Maj7", "maj7"), "m7", "min7");
    var s := ReplaceFirst(ReplaceFirst(s, "7", "7"), "$\text{dim7}$", "째7");
    ReplaceFirst(ReplaceFirst(s, "dim7", "째7"), "+", "")
  }

  /** `formatChordDisplay(roman, type, note)`: the note followed by the
      type's suffix; the numeral is not read. */
  function FormatChordDisplay(roman: string, chordType: string, note: string): (r: string)
    ensures StartsWith(r, note) && |r| == |note| + |ChordSuffix(chordType)|
    ensures r[|note|..] == ChordSuffix(chordType)
  {
    assert (note + ChordSuffix(chordType))[..|note|] == note;
    assert (note + ChordSuffix(chordType))[|note|..] == ChordSuffix(chordType);
    note + ChordSuffix(chordType)
  }

  /** A type without a `7` only loses its first `+`. */
  lemma ChordSuffixWithoutSeventh(chordType: string)
    requires '7' !in chordType
    ensures ChordSuffix(chordType) == ReplaceFirst(chordType, "+", "")
  {
    var t := chordType;
    if Contains(t, "Maj7") { ContainsChar(t, "Maj7", '7'); }
    if Contains(t, "m7") { ContainsChar(t, "m7", '7'); }
    if Contains(t, "$\text{dim7}$") { ContainsChar(t, "$\text{dim7}$", '7'); }
    if Contains(t, "dim7") { ContainsChar(t, "dim7", '7'); }
    ReplaceAbsent(t, "Maj7", "maj7");
    ReplaceAbsent(t, "m7", "min7");
    ReplaceSelf(t, "7");
    ReplaceAbsent(t, "$\text{dim7}$", "째7");
    ReplaceAbsent(t, "dim7", "째7");
  }

  /** The first occurrences the suffix chain meets in the seventh codes:
      each code's first replacement, at the front or inside. */
  lemma ReplaceMajorSeventh()
    ensures ReplaceFirst("Maj7", "Maj7", "maj7") == "maj7"
  {
  }

  lemma ReplaceMinorSeventh()
    ensures ReplaceFirst("m7", "m7", "min7") == "min7"
  {
  }

  lemma ReplaceHalfDiminished()
    ensures ReplaceFirst("m7(b5)", "m7", "min7") == "min7(b5)"
  {
  }

  lemma ReplaceDiminished()
    ensures ReplaceFirst("dim7", "m7", "min7") == "dimin7"
  {
    assert "dim7"[1..] == "im7" && "im7"[1..] == "m7";
  }

  /** `maj7` holds no `m7`, and `dimin7` no `dim7`. */
  lemma NoMinorInMajor()
    ensures ReplaceFirst("maj7", "m7", "min7") == "maj7"
  {
    assert "maj7"[1..] == "aj7";
    ReplaceMissingChar("aj7", "m7", "min7", 'm');
  }

  lemma NoDiminishedInDimin()
    ensures ReplaceFirst("dimin7", "dim7", "째7") == "dimin7"
  {
    assert "dimin7"[1..] == "imin7" && "dimin7"[1..][1..] == "min7";
    ReplaceMissingChar("imin7", "dim7", "째7", 'd');
  }

  /** The last three replacements leave a string without `$`, `d` and `+`
      as it is. */
  lemma TailUnchanged(s: string)
    requires '$' !in s && 'd' !in s && '+' !in s
    ensures ReplaceFirst(ReplaceFirst(ReplaceFirst(s, "$\text{dim7}$", "째7"), "dim7", "째7"), "+", "") == s
  {
    ReplaceMissingChar(s, "$\text{dim7}$", "째7", '$');
    ReplaceMissingChar(s, "dim7", "째7", 'd');
    ReplaceMissingChar(s, "+", "", '+');
  }

  /** The same for `min7(b5)`, stated on the literal. */
  lemma HalfDiminishedTail()
    ensures ReplaceFirst(ReplaceFirst(ReplaceFirst("min7(b5)", "$\text{dim7}$", "째7"), "dim7", "째7"), "+", "") == "min7(b5)"
  {
    TailUnchanged("min7(b5)");
  }

  /** The four seventh codes the chord-type chain produces are displayed as
      `maj7`, `min7(b5)`, `min7` and `7`. */
  lemma ChordSuffixMajorSeventh()
    ensures ChordSuffix("Maj7") == "maj7"
  {
    ReplaceMajorSeventh();
    NoMinorInMajor();
    ReplaceSelf("maj7", "7");
    TailUnchanged("maj7");
  }

  lemma ChordSuffixHalfDiminished()
    ensures ChordSuffix("m7(b5)") == "min7(b5)"
  {
    ReplaceMissingChar("m7(b5)", "Maj7", "maj7", 'M');
    ReplaceHalfDiminished();
    ReplaceSelf("min7(b5)", "7");
    HalfDiminishedTail();
  }

  lemma ChordSuffixMinorSeventh()
    ensures ChordSuffix("m7") == "min7"
  {
    ReplaceMissingChar("m7", "Maj7", "maj7", 'M');
    ReplaceMinorSeventh();
    ReplaceSelf("min7", "7");
    TailUnchanged("min7");
  }

  lemma ChordSuffixDominant()
    ensures ChordSuffix("7") == "7"
  {
    ReplaceMissingChar("7", "Maj7", "maj7", 'M');
    ReplaceMissingChar("7", "m7", "min7", 'm');
    ReplaceSelf("7", "7");
    TailUnchanged("7");
  }

  /** `dim7` meets the `m7` replacement before its own, so it is displayed
      `dimin7`, never `째7`. */
  lemma ChordSuffixDiminished()
    ensures ChordSuffix("dim7") == "dimin7"
  {
    ReplaceMissingChar("dim7", "Maj7", "maj7", 'M');
    ReplaceDiminished();
    ReplaceSelf("dimin7", "7");
    ReplaceMissingChar("dimin7", "$\text{dim7}$", "째7", '$');
    NoDiminishedInDimin();
    ReplaceMissingChar("dimin7", "+", "", '+');
  }

  /** The augmented triad's `+` is dropped, and the bare-triad code `I` is
      kept. */
  lemma ChordSuffixTriads()
    ensures ChordSuffix("+") == "" && ChordSuffix("I") == "I"
  {
    ChordSuffixWithoutSeventh("+");
    ChordSuffixWithoutSeventh("I");
  }

  /** The chord name of a numeral with a `7` is the note followed by one of
      the four seventh suffixes; of any other numeral, the note followed by
      its extracted type with the first `+` removed. */
  lemma ChordNameOfNumeral(roman: string, note: string)
    ensures var name := FormatChordDisplay(roman, ExtractChordType(roman), note);
            if '7' in roman then name in [note + "maj7", note + "min7(b5)", note + "min7", note + "7"]
            else name == note + ReplaceFirst(ExtractChordType(roman), "+", "")
  {
    ExtractChordTypeAgrees(roman);
    if '7' in roman {
      MusicLogic.ExtractChordTypeSeventh(roman);
      ChordSuffixMajorSeventh();
      ChordSuffixHalfDiminished();
      ChordSuffixMinorSeventh();
      ChordSuffixDominant();
    } else {
      MusicLogic.ExtractChordTypeTriad(roman);
      ChordSuffixWithoutSeventh(ExtractChordType(roman));
    }
  }
}
