/** The older engine written inline in `index.tsx`: spelling a pitch class
    from the flats-first candidate lists, the letter-aware scale, the
    secondary dominant of a degree, the plain interval lookup, and the
    rotation of a parent scale into the mode on each of its degrees. */
module InlineEngine {
  import opened Strings
  import opened Theory
  import opened Spelling
  import opened InlineConstants
  import MusicLogic
  import KingUtils
  import KingConstants

  /** `getSpelledNote(midiValue, targetLetter)`: `?` outside 0..11;
      otherwise a candidate of the pitch class that denotes it, the one on
      the target letter when there is one, and else the flat-first
      `valueNoteMap` spelling. */
  function GetSpelledNote(midiValue: int, targetLetter: string): (r: string)
    ensures r == "?" <==> !(0 <= midiValue < 12)
  {
    MidiSpellings();
    SpellNoteFacts(MidiToNoteNames, ValueNoteMap, midiValue, targetLetter);
    SpellNote(MidiToNoteNames, midiValue, targetLetter)
  }

  /** Inside 0..11 the spelling is a candidate denoting the pitch class, on
      the target letter when it can be, and else the flat-first
      `valueNoteMap` spelling. */
  lemma GetSpelledNoteSpelled(midiValue: int, targetLetter: string)
    requires 0 <= midiValue < 12
    ensures SpelledAs(GetSpelledNote(midiValue, targetLetter), midiValue, targetLetter)
    ensures FirstMatch(NamesAt(midiValue), targetLetter) == -1 ==> GetSpelledNote(midiValue, targetLetter) == ValueNoteMap[midiValue]
  {
    MidiSpellings();
    SpellNoteFacts(MidiToNoteNames, ValueNoteMap, midiValue, targetLetter);
    ListedDenotes(MidiToNoteNames, midiValue, GetSpelledNote(midiValue, targetLetter));
  }

  /** With an empty target letter every candidate matches, so the first one,
      the flat-first spelling, is returned. */
  lemma GetSpelledNoteAnyLetter(midiValue: int)
    requires 0 <= midiValue < 12
    ensures GetSpelledNote(midiValue, "") == ValueNoteMap[midiValue]
  {
    MidiSpellings();
    ValueNoteMapFirsts();
    assert StartsWith(NamesAt(midiValue)[0], "");
    assert FirstMatch(NamesAt(midiValue), "") == 0;
  }

  /** With a one-letter target the letter match is unique. */
  lemma GetSpelledNoteUnique(midiValue: int, targetLetter: string, k: int)
    requires 0 <= midiValue < 12 && |targetLetter| == 1
    requires 0 <= k < |NamesAt(midiValue)| && StartsWith(NamesAt(midiValue)[k], targetLetter)
    ensures GetSpelledNote(midiValue, targetLetter) == NamesAt(midiValue)[k]
  {
    MidiSpellings();
    FindSpellingUnique(NamesAt(midiValue), targetLetter, k);
  }

  /** Pitch class 5 on the letter E is spelled `E#`; it has no candidate on
      D, so there the flat-first `F` is returned. */
  lemma GetSpelledNoteExamples()
    ensures GetSpelledNote(5, "E") == "E#" && GetSpelledNote(5, "D") == "F"
  {
    assert NamesAt(5) == ["F", "E#", "Gbb"];
    GetSpelledNoteUnique(5, "E", 1);
    assert ["Gbb"][1..] == [] && ["E#", "Gbb"][1..] == ["Gbb"];
    assert !StartsWith("Gbb", "D") by { assert "Gbb"[..1][0] != "D"[0]; }
    assert !StartsWith("E#", "D") by { assert "E#"[..1][0] != "D"[0]; }
    assert FirstMatch(["Gbb"], "D") == -1;
    assert FirstMatch(["E#", "Gbb"], "D") == -1;
  }

  /** `noteValueMap[note]`, absent (`undefined`) for an unknown spelling. */
  function ValueOf(note: string): (r: Option<int>)
    ensures r.Some? <==> note in NoteValueMap
    ensures r.Some? ==> 0 <= r.value < 12 && r.value == NoteValueMap[note]
  {
    SameNoteValues();
    if note in NoteValueMap then Some(NoteValueMap[note]) else None
  }

  /** `calculateScale(mode, tonic)`: the first seven offsets of the mode
      spelled from the tonic's pitch class, degree i on the letter i steps
      above the tonic's first character. An unknown tonic makes every pitch
      `NaN`, so every degree is `?`. The source reads `scaleIntervals[mode]`
      without a check and fails on an unknown mode. */
  function CalculateScale(mode: string, tonic: string): (r: seq<string>)
    requires mode in ScaleIntervals
    ensures |r| == 7
    ensures tonic !in NoteValueMap ==> forall i | 0 <= i < 7 :: r[i] == "?"
  {
    ScaleIntervalsShape(mode);
    var offsets := Take(ScaleIntervals[mode], 7);
    match ValueOf(tonic)
    case None => seq(7, i => "?")
    case Some(v) => SpellOffsets(MidiToNoteNames, offsets, v, LetterIndex(tonic), MusicLogic.ScaleStride)
  }

  /** What each spelled degree or tone promises: `note` is a candidate of
      `pitch` denoting it, on `letter` whenever `pitch` has a candidate on
      that letter, and the flat-first `valueNoteMap` name when it has none. */
  predicate SpelledAs(note: string, pitch: int, letter: string) {
    && SpelledIn(MidiToNoteNames, note, pitch, letter)
    && PreferredIn(MidiToNoteNames, ValueNoteMap, note, pitch, letter)
  }

  /** Entry i spelled with the scale's stride is a candidate of its pitch
      class `(v + offsets[i]) % 12` on the letter i steps above
      `letterIndex`. */
  lemma ScaleToneAt(offsets: seq<int>, v: int, letterIndex: int, i: int, pitch: int)
    requires 0 <= i < |offsets| && pitch == (v + offsets[i]) % 12
    ensures SpelledAs(SpellOffsets(MidiToNoteNames, offsets, v, letterIndex, MusicLogic.ScaleStride)[i],
                      pitch, BaseNotes[(letterIndex + i) % 7])
  {
    assert MusicLogic.ScaleStride * i == i;
    MidiSpellings();
    SpellOffsetsPreferred(MidiToNoteNames, ValueNoteMap, offsets, v, letterIndex, MusicLogic.ScaleStride, i,
                          pitch, BaseNotes[(letterIndex + i) % 7]);
  }

  /** Degree i of a mode spelled from pitch class v and letter index
      `letterIndex`. */
  lemma ModeDegreeAt(mode: string, v: int, letterIndex: int, i: int)
    requires mode in ScaleIntervals && 0 <= i < 7
    ensures |ScaleIntervals[mode]| == 8
    ensures SpelledAs(SpellOffsets(MidiToNoteNames, Take(ScaleIntervals[mode], 7), v, letterIndex, MusicLogic.ScaleStride)[i],
                      (v + ScaleIntervals[mode][i]) % 12, BaseNotes[(letterIndex + i) % 7])
  {
    ScaleIntervalsLength(mode);
    assert Take(ScaleIntervals[mode], 7)[i] == ScaleIntervals[mode][i];
    ScaleToneAt(Take(ScaleIntervals[mode], 7), v, letterIndex, i, (v + ScaleIntervals[mode][i]) % 12);
  }

  /** On a known tonic, degree i is the mode's offsets spelled from the
      tonic's pitch class and letter. */
  lemma ScaleOnTonicAt(mode: string, tonic: string, i: int)
    requires mode in ScaleIntervals && tonic in NoteValueMap && 0 <= i < 7
    ensures |ScaleIntervals[mode]| == 8 && 0 <= NoteValueMap[tonic]
    ensures CalculateScale(mode, tonic)[i] ==
              SpellOffsets(MidiToNoteNames, Take(ScaleIntervals[mode], 7), NoteValueMap[tonic], LetterIndex(tonic), MusicLogic.ScaleStride)[i]
  {
    assert |ScaleIntervals[mode]| == 8 by { ScaleIntervalsShape(mode); }
    assert 0 <= NoteValueMap[tonic] by { assert ValueOf(tonic).Some?; }
  }

  /** Degree i of the scale on a known tonic (pitch class `tonicValue`,
      letter index `tonicLetter`) is a spelling of
      `(tonicValue + intervals[i]) % 12`, on the letter i steps above the
      tonic's whenever that pitch class has a candidate on it. */
  lemma CalculateScaleDegree(mode: string, tonic: string, i: int, tonicValue: int, tonicLetter: int)
    requires mode in ScaleIntervals && tonic in NoteValueMap && 0 <= i < 7
    requires tonicValue == NoteValueMap[tonic] && tonicLetter == LetterIndex(tonic)
    ensures |ScaleIntervals[mode]| == 8 && |CalculateScale(mode, tonic)| == 7
    ensures SpelledAs(CalculateScale(mode, tonic)[i], (tonicValue + ScaleIntervals[mode][i]) % 12, BaseNotes[(tonicLetter + i) % 7])
  {
    ScaleOnTonicAt(mode, tonic, i);
    ModeDegreeAt(mode, tonicValue, tonicLetter, i);
  }

  /** Degree i of offsets near the natural letters, spelled one letter per
      degree from letter l moved by at most one accidental, is on the letter
      i steps up. */
  lemma ScaleToneOnLetter(offsets: seq<int>, v: int, l: int, shift: int, i: int)
    requires NearNatural(offsets) && 0 <= l < 7 && -1 <= shift <= 1 && 0 <= i < 7
    requires v == (NaturalPitch[l] + shift) % 12
    ensures StartsWith(SpellOffsets(MidiToNoteNames, offsets, v, l, MusicLogic.ScaleStride)[i], BaseNotes[(l + i) % 7])
  {
    MidiSpellings();
    MidiCoversNear();
    SpellOffsetsOnLetter(MidiToNoteNames, ValueNoteMap, offsets, l, shift, i);
  }

  /** The same for the first seven offsets of a mode. */
  lemma ModeToneOnLetter(mode: string, v: int, l: int, shift: int, i: int)
    requires mode in ScaleIntervals && 0 <= l < 7 && -1 <= shift <= 1 && 0 <= i < 7
    requires v == (NaturalPitch[l] + shift) % 12
    ensures StartsWith(SpellOffsets(MidiToNoteNames, Take(ScaleIntervals[mode], 7), v, l, MusicLogic.ScaleStride)[i], BaseNotes[(l + i) % 7])
  {
    ScaleIntervalsNearNatural(mode);
    NearNaturalTake(ScaleIntervals[mode]);
    ScaleToneOnLetter(Take(ScaleIntervals[mode], 7), v, l, shift, i);
  }

  /** Degree i of the scale starts with whatever its spelled offset starts
      with. */
  lemma ScaleOnTonicStarts(mode: string, tonic: string, i: int, letter: string)
    requires mode in ScaleIntervals && tonic in NoteValueMap && 0 <= i < 7
    requires StartsWith(SpellOffsets(MidiToNoteNames, Take(ScaleIntervals[mode], 7), NoteValueMap[tonic], LetterIndex(tonic), MusicLogic.ScaleStride)[i], letter)
    ensures |CalculateScale(mode, tonic)| == 7 && StartsWith(CalculateScale(mode, tonic)[i], letter)
  {
    ScaleOnTonicAt(mode, tonic, i);
  }

  /** Degree i of the scale on a key is on the letter i steps above the
      key's. */
  lemma ScaleDegreeOnLetter(mode: string, tonic: string, i: int, v: int, l: int, shift: int)
    requires mode in ScaleIntervals && tonic in NoteValueMap && 0 <= i < 7
    requires v == NoteValueMap[tonic] && l == LetterIndex(tonic)
    requires 0 <= l < 7 && -1 <= shift <= 1 && v == (NaturalPitch[l] + shift) % 12
    ensures |CalculateScale(mode, tonic)| == 7
    ensures StartsWith(CalculateScale(mode, tonic)[i], BaseNotes[(l + i) % 7])
  {
    ModeToneOnLetter(mode, v, l, shift, i);
    ScaleOnTonicStarts(mode, tonic, i, BaseNotes[(l + i) % 7]);
  }

  /** Every key of `noteValueMap` has at most one accidental, so on every
      key (letter index `tonicLetter`) and in every mode the scale's letters
      are the alphabet rotated to the key's letter, one degree per letter. */
  lemma CalculateScaleLetters(mode: string, tonic: string, tonicLetter: int)
    requires mode in ScaleIntervals && tonic in NoteValueMap && tonicLetter == LetterIndex(tonic)
    ensures |CalculateScale(mode, tonic)| == 7
    ensures OnRotatedLetters(CalculateScale(mode, tonic), tonicLetter)
  {
    var shift := KeyShift(tonic);
    forall i | 0 <= i < 7
      ensures StartsWith(CalculateScale(mode, tonic)[i], BaseNotes[(tonicLetter + i) % 7])
    {
      ScaleDegreeOnLetter(mode, tonic, i, NoteValueMap[tonic], tonicLetter, shift);
    }
    ScaleDegreeOnLetter(mode, tonic, 0, NoteValueMap[tonic], tonicLetter, shift);
  }

  /** So no two degrees of such a scale share a letter. */
  lemma CalculateScaleDistinctLetters(mode: string, tonic: string, tonicLetter: int)
    requires mode in ScaleIntervals && tonic in NoteValueMap && tonicLetter == LetterIndex(tonic)
    ensures |CalculateScale(mode, tonic)| == 7
    ensures NonEmptyNames(CalculateScale(mode, tonic)) && DistinctLetters(CalculateScale(mode, tonic))
  {
    CalculateScaleLetters(mode, tonic, tonicLetter);
    RotatedLettersDistinct(CalculateScale(mode, tonic), tonicLetter);
  }

  /** The scale can spell a degree with a name `noteValueMap` does not know:
      the third degree of C# major is `E#`. */
  lemma CalculateScaleLeavesTable()
    ensures CalculateScale("Major", "C#")[2] == "E#" && "E#" !in NoteValueMap
  {
    CSharpMajorThird();
    SpelledOnE(CalculateScale("Major", "C#")[2]);
    ESharpUnknown();
  }

  lemma ESharpUnknown()
    ensures "E#" !in NoteValueMap
  {
    assert ValueOf("E#") == None;
  }

  lemma CSharpMajorThird()
    ensures |CalculateScale("Major", "C#")| == 7
    ensures SpelledAs(CalculateScale("Major", "C#")[2], 5, "E")
  {
    ScaleDegreeSpelledAs("Major", "C#", 2, 1, 0, 5, "E");
  }

  /** `CalculateScaleDegree` with the pitch class and the letter named. */
  lemma ScaleDegreeSpelledAs(mode: string, tonic: string, i: int, tonicValue: int, tonicLetter: int, pitch: int, letter: string)
    requires mode in ScaleIntervals && tonic in NoteValueMap && 0 <= i < 7
    requires tonicValue == NoteValueMap[tonic] && tonicLetter == LetterIndex(tonic)
    requires pitch == (tonicValue + ScaleIntervals[mode][i]) % 12 && letter == BaseNotes[(tonicLetter + i) % 7]
    ensures |CalculateScale(mode, tonic)| == 7 && SpelledAs(CalculateScale(mode, tonic)[i], pitch, letter)
  {
    CalculateScaleDegree(mode, tonic, i, tonicValue, tonicLetter);
  }

  /** The only candidate of pitch class 5 on E is `E#`. */
  lemma SpelledOnE(note: string)
    requires SpelledAs(note, 5, "E")
    ensures note == "E#"
  {
    assert NamesAt(5) == ["F", "E#", "Gbb"];
    assert FirstMatch(NamesAt(5), "E") == 1;
  }

  /** What `getSecondaryDominantInfo` returns: the label, the chord name,
      the four chord tones, the mode to play over it, its root, its seven
      scale tones and the scale positions to avoid. */
  datatype SecondaryDominant = SecondaryDominant(
    abbr: string, name: string, tones: seq<string>, modal: string,
    root: string, scaleTones: seq<string>, avoidIdxs: seq<int>)

  /** The scale over the dominant of a minor target (`Mixolydian ♭9 ♭13`)
      and of a major one (`Mixolydian`). */
  const MinorTargetOffsets: seq<int> := [0, 1, 4, 5, 7, 8, 10]
  const MajorTargetOffsets: seq<int> := [0, 2, 4, 5, 7, 9, 10]

  /** The dominant seventh chord. */
  const DominantSeventh: seq<int> := [0, 4, 7, 10]

  /** `targetRoman.toLowerCase() === targetRoman`: a lower-case numeral marks
      a minor target. */
  predicate MinorNumeral(roman: string) {
    LowerCase(roman) == roman
  }

  /** The offsets of the secondary dominant's scale, chosen by the numeral's
      case. */
  function DominantScaleOffsets(targetRoman: string): (r: seq<int>)
    ensures |r| == 7
  {
    if MinorNumeral(targetRoman) then MinorTargetOffsets else MajorTargetOffsets
  }

  /** `getSecondaryDominantInfo(targetNote, targetRoman)`: the dominant
      seventh a fifth above the target, its root on the letter four steps
      above the target's, its scale chosen by the numeral's case. An unknown
      target has no pitch (`NaN`), so every spelling is `?`. */
  function GetSecondaryDominantInfo(targetNote: string, targetRoman: string): (r: SecondaryDominant)
    ensures r.abbr == "V/" + targetRoman && r.name == r.root + "7" && r.avoidIdxs == [3]
    ensures r.modal == (if MinorNumeral(targetRoman) then "Mixolydian ♭9 ♭13" else "Mixolydian")
    ensures |r.tones| == 4 && |r.scaleTones| == 7
    ensures ValueOf(targetNote).None? ==>
              r.root == "?" && (forall k | 0 <= k < 4 :: r.tones[k] == "?") && (forall k | 0 <= k < 7 :: r.scaleTones[k] == "?")
  {
    var letterIndex := RootLetter(targetNote);
    match ValueOf(targetNote)
    case None =>
      var modal := if MinorNumeral(targetRoman) then "Mixolydian ♭9 ♭13" else "Mixolydian";
      SecondaryDominant("V/" + targetRoman, "?" + "7", seq(4, k => "?"), modal, "?", seq(7, k => "?"), [3])
    case Some(t) => DominantOn(targetRoman, DominantScaleOffsets(targetRoman), FifthAbove(t), letterIndex)
  }

  /** `(baseNotes.indexOf(targetNote[0]) + 4) % 7`: the letter four steps
      above the target's first character (from F, index 3, when that is not
      a natural letter). */
  function RootLetter(targetNote: string): (i: int)
    ensures 0 <= i < 7 && (i - LetterIndex(targetNote) - 4) % 7 == 0
  {
    (LetterIndex(targetNote) + 4) % 7
  }

  /** `(noteValueMap[targetNote] + 7) % 12`: the pitch class a perfect fifth
      above `t`. */
  function FifthAbove(t: int): (r: int)
    ensures 0 <= r < 12 && (r - t - 7) % 12 == 0
  {
    (t + 7) % 12
  }

  /** The record for a dominant on pitch class `value` with its root on
      letter `letterIndex` and scale `offsets`: the root spelled by
      `getSpelledNote`, the scale tones on successive letters from the
      root's, the chord tones on the empty letter. */
  function DominantOn(targetRoman: string, offsets: seq<int>, value: int, letterIndex: int): (r: SecondaryDominant)
    requires 0 <= letterIndex < 7
    ensures r.abbr == "V/" + targetRoman && r.name == r.root + "7" && r.avoidIdxs == [3]
    ensures r.modal == (if MinorNumeral(targetRoman) then "Mixolydian ♭9 ♭13" else "Mixolydian")
    ensures |r.tones| == 4 && |r.scaleTones| == |offsets|
  {
    var modal := if MinorNumeral(targetRoman) then "Mixolydian ♭9 ♭13" else "Mixolydian";
    var root := GetSpelledNote(value, BaseNotes[letterIndex]);
    var scaleTones := SpellOffsets(MidiToNoteNames, offsets, value, letterIndex, MusicLogic.ScaleStride);
    var tones := SpellOnLetter(DominantSeventh, value, "");
    SecondaryDominant("V/" + targetRoman, root + "7", tones, modal, root, scaleTones, [3])
  }

  /** Every offset above `value` spelled on the one letter `letter`. */
  function SpellOnLetter(offsets: seq<int>, value: int, letter: string): (r: seq<string>)
    ensures |r| == |offsets|
  {
    seq(|offsets|, k requires 0 <= k < |offsets| => GetSpelledNote((value + offsets[k]) % 12, letter))
  }

  /** On a known target, the record is the dominant on the pitch class a
      fifth above it, rooted four letters above the target's letter. */
  lemma SecondaryDominantOnValue(targetNote: string, targetRoman: string, t: int)
    requires ValueOf(targetNote) == Some(t)
    ensures GetSecondaryDominantInfo(targetNote, targetRoman) ==
              DominantOn(targetRoman, DominantScaleOffsets(targetRoman), FifthAbove(t), RootLetter(targetNote))
  {
  }

  /** The root is a spelling of `value` on the root letter whenever it has
      a candidate there and else the flat-first one, and it is the first
      scale tone. */
  lemma DominantRoot(targetRoman: string, offsets: seq<int>, value: int, letterIndex: int)
    requires 0 <= value < 12 && 0 <= letterIndex < 7 && |offsets| > 0 && offsets[0] == 0
    ensures SpelledAs(DominantOn(targetRoman, offsets, value, letterIndex).root, value, BaseNotes[letterIndex])
    ensures DominantOn(targetRoman, offsets, value, letterIndex).root == DominantOn(targetRoman, offsets, value, letterIndex).scaleTones[0]
  {
    GetSpelledNoteSpelled(value, BaseNotes[letterIndex]);
    DominantRootFirst(targetRoman, offsets, value, letterIndex);
  }

  /** The root is the first scale tone: both spell `value` on the root
      letter. */
  lemma DominantRootFirst(targetRoman: string, offsets: seq<int>, value: int, letterIndex: int)
    requires 0 <= value < 12 && 0 <= letterIndex < 7 && |offsets| > 0 && offsets[0] == 0
    ensures DominantOn(targetRoman, offsets, value, letterIndex).root == DominantOn(targetRoman, offsets, value, letterIndex).scaleTones[0]
  {
    var r := DominantOn(targetRoman, offsets, value, letterIndex);
    SpellOffsetsFirst(MidiToNoteNames, offsets, value, letterIndex, MusicLogic.ScaleStride);
    assert r.scaleTones == SpellOffsets(MidiToNoteNames, offsets, value, letterIndex, MusicLogic.ScaleStride);
    assert r.root == SpellNote(MidiToNoteNames, value, BaseNotes[letterIndex]);
  }

  /** Scale tone k is a spelling of the k-th offset above the root, on the
      k-th letter above the root's whenever it has a candidate there. */
  lemma DominantScaleTone(targetRoman: string, offsets: seq<int>, value: int, letterIndex: int, k: int)
    requires 0 <= value < 12 && 0 <= letterIndex < 7 && 0 <= k < |offsets| && 0 <= offsets[k]
    ensures SpelledAs(DominantOn(targetRoman, offsets, value, letterIndex).scaleTones[k],
                      (value + offsets[k]) % 12, BaseNotes[(letterIndex + k) % 7])
  {
    ScaleToneAt(offsets, value, letterIndex, k, (value + offsets[k]) % 12);
  }

  /** Tone k of the dominant seventh above `value`, spelled on no letter, is
      the flat-first spelling of its pitch class and denotes it. */
  lemma DominantSeventhTone(value: int, k: int)
    requires 0 <= value < 12 && 0 <= k < 4
    ensures SpellOnLetter(DominantSeventh, value, "")[k] == ValueNoteMap[(value + DominantSeventh[k]) % 12]
    ensures SpelledPitch(SpellOnLetter(DominantSeventh, value, "")[k]) == Some((value + DominantSeventh[k]) % 12)
  {
    var pitch := (value + DominantSeventh[k]) % 12;
    assert SpellOnLetter(DominantSeventh, value, "")[k] == GetSpelledNote(pitch, "");
    GetSpelledNoteAnyLetter(pitch);
    GetSpelledNoteSpelled(pitch, "");
  }

  /** Chord tone k is the flat-first spelling of the k-th offset of the
      dominant seventh above the root. */
  lemma DominantChordTone(targetRoman: string, offsets: seq<int>, value: int, letterIndex: int, k: int)
    requires 0 <= value < 12 && 0 <= letterIndex < 7 && 0 <= k < 4
    ensures DominantOn(targetRoman, offsets, value, letterIndex).tones[k] == ValueNoteMap[(value + DominantSeventh[k]) % 12]
    ensures SpelledPitch(DominantOn(targetRoman, offsets, value, letterIndex).tones[k]) == Some((value + DominantSeventh[k]) % 12)
  {
    assert DominantOn(targetRoman, offsets, value, letterIndex).tones == SpellOnLetter(DominantSeventh, value, "");
    DominantSeventhTone(value, k);
  }

  /** On a known target of pitch class t, the root is a candidate of the
      pitch class a fifth above, denoting it, and the first scale tone. It is
      on the letter four steps above the target's: every key of
      `noteValueMap` has a candidate there, so the flat-first fallback is
      never taken. */
  lemma SecondaryDominantRoot(targetNote: string, targetRoman: string, t: int)
    requires ValueOf(targetNote) == Some(t)
    ensures var r := GetSecondaryDominantInfo(targetNote, targetRoman);
            && SpelledAs(r.root, FifthAbove(t), BaseNotes[RootLetter(targetNote)])
            && StartsWith(r.root, BaseNotes[RootLetter(targetNote)])
            && r.root == r.scaleTones[0]
  {
    DominantScaleOffsetsShape(targetRoman);
    DominantRoot(targetRoman, DominantScaleOffsets(targetRoman), FifthAbove(t), RootLetter(targetNote));
    SecondaryDominantOnValue(targetNote, targetRoman, t);
    SecondaryDominantLetters(targetNote, targetRoman, RootLetter(targetNote));
  }

  /** On a known target of pitch class t, scale tone k is a candidate of the
      k-th chosen offset above the fifth, denoting it, on the letter k steps
      above the root's: there is always a candidate on that letter. */
  lemma SecondaryDominantScaleTone(targetNote: string, targetRoman: string, t: int, k: int)
    requires ValueOf(targetNote) == Some(t) && 0 <= k < 7
    ensures |DominantScaleOffsets(targetRoman)| == 7 && |GetSecondaryDominantInfo(targetNote, targetRoman).scaleTones| == 7
    ensures SpelledAs(GetSecondaryDominantInfo(targetNote, targetRoman).scaleTones[k],
                      (FifthAbove(t) + DominantScaleOffsets(targetRoman)[k]) % 12, BaseNotes[(RootLetter(targetNote) + k) % 7])
    ensures StartsWith(GetSecondaryDominantInfo(targetNote, targetRoman).scaleTones[k], BaseNotes[(RootLetter(targetNote) + k) % 7])
  {
    SecondaryDominantScaleLetter(targetNote, targetRoman, RootLetter(targetNote), k);
    SecondaryDominantScaleSpelled(targetNote, targetRoman, t, k);
  }

  /** The spelling half of scale tone k, on any known target. */
  lemma SecondaryDominantScaleSpelled(targetNote: string, targetRoman: string, t: int, k: int)
    requires ValueOf(targetNote) == Some(t) && 0 <= k < 7
    ensures |DominantScaleOffsets(targetRoman)| == 7 && |GetSecondaryDominantInfo(targetNote, targetRoman).scaleTones| == 7
    ensures SpelledAs(GetSecondaryDominantInfo(targetNote, targetRoman).scaleTones[k],
                      (FifthAbove(t) + DominantScaleOffsets(targetRoman)[k]) % 12, BaseNotes[(RootLetter(targetNote) + k) % 7])
  {
    DominantScaleOffsetsShape(targetRoman);
    DominantScaleTone(targetRoman, DominantScaleOffsets(targetRoman), FifthAbove(t), RootLetter(targetNote), k);
    SecondaryDominantOnValue(targetNote, targetRoman, t);
  }

  /** Scale tone k on its own, on a key with root letter index `rootLetter`. */
  lemma SecondaryDominantScaleLetter(targetNote: string, targetRoman: string, rootLetter: int, k: int)
    requires targetNote in NoteValueMap && rootLetter == RootLetter(targetNote) && 0 <= k < 7
    ensures |GetSecondaryDominantInfo(targetNote, targetRoman).scaleTones| == 7
    ensures StartsWith(GetSecondaryDominantInfo(targetNote, targetRoman).scaleTones[k], BaseNotes[(rootLetter + k) % 7])
  {
    SecondaryDominantLetters(targetNote, targetRoman, rootLetter);
    RotatedAt(GetSecondaryDominantInfo(targetNote, targetRoman).scaleTones, rootLetter, k);
  }

  /** Chord tone k is the flat-first spelling of the k-th offset of the
      dominant seventh above the root. */
  lemma SecondaryDominantChordTone(targetNote: string, targetRoman: string, t: int, k: int)
    requires ValueOf(targetNote) == Some(t) && 0 <= k < 4
    ensures GetSecondaryDominantInfo(targetNote, targetRoman).tones[k] == ValueNoteMap[(FifthAbove(t) + DominantSeventh[k]) % 12]
  {
    DominantChordTone(targetRoman, DominantScaleOffsets(targetRoman), FifthAbove(t), RootLetter(targetNote), k);
    SecondaryDominantOnValue(targetNote, targetRoman, t);
  }

  /** Both candidate scales start on the root and never go below it. */
  lemma DominantScaleOffsetsShape(targetRoman: string)
    ensures |DominantScaleOffsets(targetRoman)| == 7 && DominantScaleOffsets(targetRoman)[0] == 0
    ensures forall k | 0 <= k < 7 :: 0 <= DominantScaleOffsets(targetRoman)[k] < 12
  {
  }

  /** The pitch class a fifth above letter k moved by `s` is the letter four
      steps up moved by the same amount, and by one more from B to F, a step of
      six semitones where the others take seven. */
  lemma FifthOnLetter(k: int, s: int) returns (shift: int)
    requires 0 <= k < 7 && -1 <= s <= 1 && (k == 6 ==> s <= 0)
    ensures -1 <= shift <= 1
    ensures ((NaturalPitch[k] + s) % 12 + 7) % 12 == (NaturalPitch[(k + 4) % 7] + shift) % 12
  {
    shift := if k == 6 then s + 1 else s;
  }

  /** Above a key of `noteValueMap` the fifth lies within one accidental of
      the root letter: the keys on B are `Bb` and `B`, never B sharp. */
  lemma FifthShift(targetNote: string, l: int) returns (shift: int)
    requires targetNote in NoteValueMap && l == RootLetter(targetNote)
    ensures -1 <= shift <= 1 && FifthAbove(NoteValueMap[targetNote]) == (NaturalPitch[l] + shift) % 12
  {
    var s := KeyShift(targetNote);
    var k := LetterIndex(targetNote);
    if k == 6 {
      assert targetNote[0] == 'B' by { assert StartsWith(targetNote, BaseNotes[6]); }
      SameNoteValues();
      KingConstants.KeyOnB(targetNote);
    }
    shift := FifthOnLetter(k, s);
  }

  /** Both candidate scales stay within one semitone of the natural letters
      from every starting letter. */
  lemma DominantScaleNearNatural(targetRoman: string)
    ensures NearNatural(DominantScaleOffsets(targetRoman))
  {
    if MinorNumeral(targetRoman) {
      MinorTargetNearNatural(MinorTargetOffsets);
    } else {
      MajorTargetNearNatural(MajorTargetOffsets);
    }
  }

  lemma MinorTargetNearNatural(offsets: seq<int>)
    requires offsets == [0, 1, 4, 5, 7, 8, 10]
    ensures NearNatural(offsets)
  {
    assert NearFrom([0, 1, 4, 5, 7, 8, 10], 0, 0);
    NearFromNatural(offsets);
  }

  lemma MajorTargetNearNatural(offsets: seq<int>)
    requires offsets == [0, 2, 4, 5, 7, 9, 10]
    ensures NearNatural(offsets)
  {
    assert NearFrom([0, 2, 4, 5, 7, 9, 10], 0, 0);
    NearFromNatural(offsets);
  }

  /** Offsets near the natural letters, spelled from letter l moved by at
      most one accidental, land on the rotated alphabet. */
  lemma ScaleOnRotatedLetters(offsets: seq<int>, v: int, l: int, shift: int)
    requires NearNatural(offsets) && |offsets| == 7 && 0 <= l < 7 && -1 <= shift <= 1
    requires v == (NaturalPitch[l] + shift) % 12
    ensures OnRotatedLetters(SpellOffsets(MidiToNoteNames, offsets, v, l, MusicLogic.ScaleStride), l)
  {
    forall i | 0 <= i < 7
      ensures StartsWith(SpellOffsets(MidiToNoteNames, offsets, v, l, MusicLogic.ScaleStride)[i], BaseNotes[(l + i) % 7])
    {
      ScaleToneOnLetter(offsets, v, l, shift, i);
    }
  }

  /** So the dominant's scale tones do, and its root, the first of them, is
      on letter l. */
  lemma DominantOnLetters(targetRoman: string, offsets: seq<int>, v: int, l: int, shift: int)
    requires NearNatural(offsets) && |offsets| == 7 && offsets[0] == 0
    requires 0 <= l < 7 && -1 <= shift <= 1 && v == (NaturalPitch[l] + shift) % 12
    ensures var r := DominantOn(targetRoman, offsets, v, l);
            && |r.scaleTones| == 7 && OnRotatedLetters(r.scaleTones, l) && StartsWith(r.root, BaseNotes[l])
  {
    var r := DominantOn(targetRoman, offsets, v, l);
    assert r.scaleTones == SpellOffsets(MidiToNoteNames, offsets, v, l, MusicLogic.ScaleStride);
    ScaleOnRotatedLetters(offsets, v, l, shift);
    DominantRootFirst(targetRoman, offsets, v, l);
    RotatedFirst(r.scaleTones, l);
  }

  /** On every key of `noteValueMap` (root letter index `rootLetter`) the
      letter lookup always succeeds: the root is on the letter four steps
      above the target's and the scale tones run up the alphabet from it. */
  lemma SecondaryDominantLetters(targetNote: string, targetRoman: string, rootLetter: int)
    requires targetNote in NoteValueMap && rootLetter == RootLetter(targetNote)
    ensures var r := GetSecondaryDominantInfo(targetNote, targetRoman);
            && |r.scaleTones| == 7 && OnRotatedLetters(r.scaleTones, rootLetter) && StartsWith(r.root, BaseNotes[rootLetter])
  {
    var t := NoteValueMap[targetNote];
    assert ValueOf(targetNote) == Some(t);
    var shift := FifthShift(targetNote, rootLetter);
    DominantScaleOffsetsShape(targetRoman);
    DominantScaleNearNatural(targetRoman);
    DominantOnLetters(targetRoman, DominantScaleOffsets(targetRoman), FifthAbove(t), rootLetter, shift);
    SecondaryDominantOnValue(targetNote, targetRoman, t);
  }

  /** The interval of the candidate mode from degree d of a scale: the
      seven offsets above that degree, reduced to the octave. */
  function ModeFrom(intervals: seq<int>, d: int): (r: seq<int>)
    requires |intervals| >= 7 && 0 <= d < 7
    ensures |r| == 7
  {
    seq(7, k requires 0 <= k < 7 => (intervals[(d + k) % 7] - intervals[d] + 12) % 12)
  }

  /** The scale over the dominant of a major target is the fifth mode of the
      major scale, Mixolydian, as `modalDataMap` names it. */
  lemma MajorTargetScaleIsMixolydian()
    ensures MajorTargetOffsets == ModeFrom(ScaleIntervals["Major"], 4)
    ensures ModalDataMap["Major"].names[4] == "Mixolydian"
  {
  }

  /** The scale over the dominant of a minor target is the fifth mode of the
      harmonic minor scale (the Phrygian dominant). */
  lemma MinorTargetScaleIsPhrygianDominant()
    ensures MinorTargetOffsets == ModeFrom(ScaleIntervals["Harmonic Minor"], 4)
    ensures ModalDataMap["Harmonic Minor"].names[4] == "Phrygian Dom"
  {
  }

  /** The chord tones are those of the `7` chord of `chordOffsetMap`. */
  lemma DominantSeventhIsSevenChord()
    ensures DominantSeventh == ChordOffsetMap["7"]
  {
  }

  /** `calculateInterval(note1, note2)`: `semitoneToInterval` at the
      semitone distance, an unknown spelling read as pitch class 0. */
  function CalculateInterval(note1: string, note2: string): (r: string)
    ensures note1 == note2 ==> r == "P1/P8"
    ensures Semitones(NoteValueMap, note1, note2) == 6 ==> r == "A4/d5"
  {
    SameNoteValues();
    SemitoneToIntervalShape();
    SemitoneToIntervalEnds();
    PlainInterval(NoteValueMap, SemitoneToInterval, note1, note2)
  }

  /** Distance 0 is the unison whichever spellings give it. */
  lemma CalculateIntervalUnison(note1: string, note2: string)
    ensures PitchTable(NoteValueMap)
    ensures Semitones(NoteValueMap, note1, note2) == 0 ==> CalculateInterval(note1, note2) == "P1/P8"
  {
    SameNoteValues();
    SemitoneToIntervalShape();
  }

  /** The name determines the semitone distance. */
  lemma CalculateIntervalRecovers(note1: string, note2: string)
    ensures PitchTable(NoteValueMap)
    ensures NameSemitones(SemitoneToInterval, CalculateInterval(note1, note2)) == Some(Semitones(NoteValueMap, note1, note2))
  {
    SameNoteValues();
    SemitoneToIntervalShape();
    PlainRecoversSemitones(NoteValueMap, SemitoneToInterval, note1, note2);
  }

  /** Away from the tritone the plain lookup names every interval as the
      letter-aware one of `utils.ts` does; at the tritone it never tells
      `A4` from `d5`. */
  lemma CalculateIntervalAgrees(note1: string, note2: string)
    ensures PitchTable(NoteValueMap)
    ensures Semitones(NoteValueMap, note1, note2) != 6 ==> CalculateInterval(note1, note2) == KingUtils.CalculateInterval(note1, note2)
  {
    SameNoteValues();
    SemitoneToIntervalShape();
    SameAsKingTables();
    KingConstants.SemitoneToIntervalShape();
  }

  /** The seven notes of the parent scale read from degree i round to the
      start: the mode on degree i. */
  function Rotate<T>(parent: seq<T>, i: nat): (r: seq<T>)
    requires |parent| == 7 && i < 7
    ensures |r| == 7
  {
    parent[i..] + parent[..i]
  }

  /** Entry j of the rotation is entry `(i + j) % 7` of the parent. */
  lemma RotateAt<T>(parent: seq<T>, i: nat, j: int)
    requires |parent| == 7 && i < 7 && 0 <= j < 7
    ensures |Rotate(parent, i)| == 7
    ensures Rotate(parent, i)[j] == parent[(i + j) % 7]
  {
    if j < 7 - i {
      assert Rotate(parent, i)[j] == parent[i + j];
    } else {
      assert Rotate(parent, i)[j] == parent[j - (7 - i)];
    }
  }

  /** A rotation is a permutation of the parent scale. */
  lemma RotatePermutes<T>(parent: seq<T>, i: nat)
    requires |parent| == 7 && i < 7
    ensures multiset(Rotate(parent, i)) == multiset(parent)
  {
    assert parent == parent[..i] + parent[i..];
  }

  /** Rotating by 0 gives the parent back, and rotations compose. */
  lemma RotateCompose<T>(parent: seq<T>, i: nat, j: nat)
    requires |parent| == 7 && i < 7 && j < 7
    ensures Rotate(parent, 0) == parent
    ensures |Rotate(parent, i)| == 7
    ensures Rotate(Rotate(parent, i), j) == Rotate(parent, (i + j) % 7)
  {
    assert parent[0..] == parent && parent[..0] == [];
    var q := Rotate(parent, i);
    RotateAt(parent, i, 0);
    forall k | 0 <= k < 7 ensures Rotate(q, j)[k] == Rotate(parent, (i + j) % 7)[k] {
      RotateTwiceAt(parent, i, j, k);
    }
  }

  /** Entry k of the rotation by j of the rotation by i is entry k of the
      rotation by `(i + j) % 7`. */
  lemma RotateTwiceAt<T>(parent: seq<T>, i: nat, j: nat, k: int)
    requires |parent| == 7 && i < 7 && j < 7 && 0 <= k < 7
    ensures |Rotate(parent, i)| == 7
    ensures Rotate(Rotate(parent, i), j)[k] == Rotate(parent, (i + j) % 7)[k]
  {
    var jk := if j + k < 7 then j + k else j + k - 7;
    var ij := if i + j < 7 then i + j else i + j - 7;
    assert (j + k) % 7 == jk && (i + j) % 7 == ij;
    assert (i + jk) % 7 == (ij + k) % 7 by {
      var n := if i + j + k < 7 then i + j + k else if i + j + k < 14 then i + j + k - 7 else i + j + k - 14;
      assert (i + jk) % 7 == n && (ij + k) % 7 == n;
    }
    RotateAt(parent, i, j);
    RotateAt(Rotate(parent, i), j, k);
    RotateAt(parent, i, jk);
    RotateAt(parent, ij, k);
  }

  /** The `for` loop of the chord cards:
      `modalScale.push(parentScale[(i + j) % 7])` for j from 0 to 6. */
  method ModalScale(parentScale: seq<string>, i: nat) returns (modalScale: seq<string>)
    requires |parentScale| == 7 && i < 7
    ensures modalScale == Rotate(parentScale, i)
  {
    modalScale := [];
    var j := 0;
    while j < 7
      invariant 0 <= j <= 7 && |modalScale| == j
      invariant forall k | 0 <= k < j :: modalScale[k] == parentScale[(i + k) % 7]
    {
      modalScale := modalScale + [parentScale[(i + j) % 7]];
      j := j + 1;
    }
    forall k | 0 <= k < 7 ensures modalScale[k] == Rotate(parentScale, i)[k] {
      RotateAt(parentScale, i, k);
    }
  }
}
