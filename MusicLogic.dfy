/** The letter-aware engine of `services/musicLogic.ts`, reading the tables of
    `constants.ts`. */
module MusicLogic {
  import opened Strings
  import opened Theory
  import opened Spelling
  import opened Constants

  /** `calculateInterval(note1, note2)` */
  function CalculateInterval(note1: string, note2: string): (r: string)
    ensures note1 == note2 ==> r == "P1/P8"
    ensures r != "P8"
  {
    NoteValueKeys();
    SemitoneToIntervalShape();
    LetterAwareInterval(NoteValueMap, SemitoneToInterval, note1, note2)
  }

  /** Distance 0 is the unison whichever spellings give it: `C#` to `Db`
      is `P1/P8` as much as `C` to `C`. */
  lemma CalculateIntervalUnison(note1: string, note2: string)
    ensures PitchTable(NoteValueMap)
    ensures Semitones(NoteValueMap, note1, note2) == 0 ==> CalculateInterval(note1, note2) == "P1/P8"
  {
    NoteValueKeys();
    SemitoneToIntervalShape();
  }

  /** The interval name determines the semitone distance: looking it up in
      `semitoneToInterval` again gives `(v2 - v1 + 12) % 12` back, with an
      absent spelling read as pitch class 0. */
  lemma CalculateIntervalRecovers(note1: string, note2: string)
    ensures PitchTable(NoteValueMap)
    ensures NameSemitones(SemitoneToInterval, CalculateInterval(note1, note2)) == Some(Semitones(NoteValueMap, note1, note2))
  {
    NoteValueKeys();
    SemitoneToIntervalShape();
    LetterAwareRecoversSemitones(NoteValueMap, SemitoneToInterval, note1, note2);
  }

  /** C to F# is an augmented fourth, C to Gb a diminished fifth, C to G a
      perfect fifth. */
  lemma CalculateIntervalAugmentedFourth()
    ensures CalculateInterval("C", "F#") == "A4"
  {
    NoteValuesInRange();
    SemitoneLabels();
    assert PitchOrZero(NoteValueMap, "C") == 0 && PitchOrZero(NoteValueMap, "F#") == 6;
    assert Semitones(NoteValueMap, "C", "F#") == 6;
    assert LetterDistance("C", "F#") == 4;
  }

  lemma CalculateIntervalDiminishedFifth()
    ensures CalculateInterval("C", "Gb") == "d5"
  {
    NoteValuesInRange();
    SemitoneLabels();
    assert PitchOrZero(NoteValueMap, "C") == 0 && PitchOrZero(NoteValueMap, "Gb") == 6;
    assert Semitones(NoteValueMap, "C", "Gb") == 6;
    assert LetterDistance("C", "Gb") == 5;
  }

  lemma CalculateIntervalFifth()
    ensures CalculateInterval("C", "G") == "P5"
  {
    NoteValuesInRange();
    SemitoneLabels();
    assert PitchOrZero(NoteValueMap, "C") == 0 && PitchOrZero(NoteValueMap, "G") == 7;
    assert Semitones(NoteValueMap, "C", "G") == 7;
    assert SemitoneToInterval[7] == "P5";
  }

  /** `C#` to `Db` is a unison, though the two spellings differ. */
  lemma CalculateIntervalEnharmonicUnison()
    ensures CalculateInterval("C#", "Db") == "P1/P8"
  {
    CalculateIntervalUnison("C#", "Db");
    assert NoteValueMap["C#"] == 1;
    assert NoteValueMap["Db"] == 1;
  }

  /** `getSpelledNote(midiValue, targetLetter)`: `?` exactly outside 0..11;
      otherwise a spelling of `midiValue`, the one on the target letter when
      it has one, its preferred spelling when it has none. */
  function GetSpelledNote(midiValue: int, targetLetter: string): (r: string)
    ensures r == "?" <==> !(0 <= midiValue < 12)
    ensures 0 <= midiValue < 12 ==>
              r in NamesAt(midiValue) && r in NoteValueMap && NoteValueMap[r] == midiValue
    ensures 0 <= midiValue < 12 && FirstMatch(NamesAt(midiValue), targetLetter) >= 0 ==> StartsWith(r, targetLetter)
    ensures 0 <= midiValue < 12 && FirstMatch(NamesAt(midiValue), targetLetter) == -1 ==> r == ValueNoteMap[midiValue]
  {
    MidiSpellings();
    SpellNoteFacts(MidiToNoteNames, ValueNoteMap, midiValue, targetLetter);
    var r := SpellNote(MidiToNoteNames, midiValue, targetLetter);
    if 0 <= midiValue < 12 then
      ListedValue(MidiToNoteNames, NoteValueMap, midiValue, r);
      r
    else
      r
  }

  /** With a one-letter target the letter match is unique: whichever
      candidate starts with it is the one returned. */
  lemma GetSpelledNoteUnique(midiValue: int, targetLetter: string, k: int)
    requires 0 <= midiValue < 12 && |targetLetter| == 1
    requires 0 <= k < |NamesAt(midiValue)| && StartsWith(NamesAt(midiValue)[k], targetLetter)
    ensures GetSpelledNote(midiValue, targetLetter) == NamesAt(midiValue)[k]
  {
    MidiSpellings();
    FindSpellingUnique(NamesAt(midiValue), targetLetter, k);
  }

  /** The letter stride of `calculateScale`: degree i is i letters up. */
  const ScaleStride: int := 1

  /** The letter stride of `calculateChordTones`: root, third, fifth and
      seventh are 0, 2, 4 and 6 letters up. */
  const ChordStride: int := 2

  /** The `.map` of `calculateScale` and `calculateChordTones` on a known
      start value: offset i spelled by `getSpelledNote` on the letter
      `stride * i` above `letterIndex`. An unknown tonic or root has no value
      (`undefined`, so every pitch is `NaN`), and each entry is then `?`. */
  function SpellFrom(offsets: seq<int>, startValue: Option<int>, letterIndex: int, stride: int): (r: seq<string>)
    ensures |r| == |offsets|
    ensures startValue.None? ==> forall i | 0 <= i < |r| :: r[i] == "?"
  {
    match startValue
    case None => seq(|offsets|, i => "?")
    case Some(v) => SpellOffsets(MidiToNoteNames, offsets, v, letterIndex, stride)
  }

  /** `noteValueMap[note]`, absent for an unknown spelling. */
  function ValueOf(note: string): (r: Option<int>)
    ensures r.Some? <==> note in NoteValueMap
    ensures r.Some? ==> 0 <= r.value < 12 && r.value == NoteValueMap[note]
  {
    NoteValuesInRange();
    if note in NoteValueMap then Some(NoteValueMap[note]) else None
  }

  /** `calculateScale(mode, tonic)`: `[]` for an unknown mode, otherwise the
      first seven offsets of the mode spelled from the tonic, all `?` when
      the tonic is not a known spelling. */
  function CalculateScale(mode: string, tonic: string): (r: seq<string>)
    ensures mode !in ScaleIntervals ==> r == []
    ensures mode in ScaleIntervals ==> |r| == 7
    ensures mode in ScaleIntervals && tonic !in NoteValueMap ==> forall i | 0 <= i < 7 :: r[i] == "?"
  {
    if mode !in ScaleIntervals then []
    else
      ScaleIntervalsShape(mode);
      SpellFrom(Take(ScaleIntervals[mode], 7), ValueOf(tonic), UpperLetterIndex(tonic), ScaleStride)
  }

  /** What each degree or tone promises: `note` is a spelling of `pitch`
      (a key of `noteValueMap` mapped to it), it is on `letter` whenever
      `midiToNoteNames` lists a spelling of `pitch` on that letter, and it is
      the preferred spelling `valueNoteMap[pitch]` when none is listed. */
  predicate SpelledAs(note: string, pitch: int, letter: string) {
    && ValuedIn(MidiToNoteNames, NoteValueMap, note, pitch, letter)
    && PreferredIn(MidiToNoteNames, ValueNoteMap, note, pitch, letter)
  }

  /** Degree i of any offset list spelled from pitch class v and letter
      index `letterIndex`, one letter per degree. */
  lemma ScaleToneAt(offsets: seq<int>, v: int, letterIndex: int, i: int)
    requires 0 <= i < |offsets|
    ensures SpelledAs(SpellOffsets(MidiToNoteNames, offsets, v, letterIndex, ScaleStride)[i],
                      (v + offsets[i]) % 12, BaseNotes[(letterIndex + i) % 7])
  {
    assert ScaleStride * i == i;
    MidiSpellings();
    SpellOffsetsValued(MidiToNoteNames, ValueNoteMap, NoteValueMap, offsets, v, letterIndex, ScaleStride, i,
                       (v + offsets[i]) % 12, BaseNotes[(letterIndex + i) % 7]);
    SpellOffsetsFallback(MidiToNoteNames, ValueNoteMap, offsets, v, letterIndex, ScaleStride, i,
                         (v + offsets[i]) % 12, BaseNotes[(letterIndex + i) % 7]);
  }

  /** Degree i of a mode spelled from pitch class v and letter index
      `letterIndex`. */
  lemma ModeDegreeAt(mode: string, v: int, letterIndex: int, i: int)
    requires mode in ScaleIntervals && 0 <= i < 7
    ensures |ScaleIntervals[mode]| == 8
    ensures SpelledAs(SpellOffsets(MidiToNoteNames, Take(ScaleIntervals[mode], 7), v, letterIndex, ScaleStride)[i],
                      (v + ScaleIntervals[mode][i]) % 12, BaseNotes[(letterIndex + i) % 7])
  {
    ScaleIntervalsLength(mode);
    assert Take(ScaleIntervals[mode], 7)[i] == ScaleIntervals[mode][i];
    ScaleToneAt(Take(ScaleIntervals[mode], 7), v, letterIndex, i);
  }

  /** On a known tonic, degree i is the mode's offsets spelled from the
      tonic's pitch class and letter. */
  lemma ScaleOnTonicAt(mode: string, tonic: string, i: int)
    requires mode in ScaleIntervals && tonic in NoteValueMap && 0 <= i < 7
    ensures |ScaleIntervals[mode]| == 8 && 0 <= NoteValueMap[tonic]
    ensures CalculateScale(mode, tonic)[i] ==
              SpellOffsets(MidiToNoteNames, Take(ScaleIntervals[mode], 7), NoteValueMap[tonic], LetterIndex(tonic), ScaleStride)[i]
  {
    assert |ScaleIntervals[mode]| == 8 by { ScaleIntervalsShape(mode); }
    assert UpperLetterIndex(tonic) == LetterIndex(tonic) by { KeyLetter(tonic); }
    assert 0 <= NoteValueMap[tonic] by { assert ValueOf(tonic).Some?; }
  }

  /** Degree i of the scale on a known tonic (pitch class `tonicValue`,
      letter index `tonicLetter`) is a spelling of
      `(tonicValue + intervals[i]) % 12`, on the letter i steps above the
      tonic's whenever that pitch class has a spelling on it. */
  lemma CalculateScaleDegree(mode: string, tonic: string, i: int, tonicValue: int, tonicLetter: int)
    requires mode in ScaleIntervals && tonic in NoteValueMap && 0 <= i < 7
    requires tonicValue == NoteValueMap[tonic] && tonicLetter == LetterIndex(tonic)
    ensures |ScaleIntervals[mode]| == 8 && |CalculateScale(mode, tonic)| == 7
    ensures SpelledAs(CalculateScale(mode, tonic)[i], (tonicValue + ScaleIntervals[mode][i]) % 12, BaseNotes[(tonicLetter + i) % 7])
  {
    ScaleOnTonicAt(mode, tonic, i);
    ModeDegreeAt(mode, tonicValue, tonicLetter, i);
  }

  /** Degree i of offsets near the natural letters, spelled one letter per
      degree from letter l moved by at most one accidental, is on the letter
      i steps up. */
  lemma ScaleToneOnLetter(offsets: seq<int>, v: int, l: int, shift: int, i: int)
    requires NearNatural(offsets) && 0 <= l < 7 && -1 <= shift <= 1 && 0 <= i < 7
    requires v == (NaturalPitch[l] + shift) % 12
    ensures StartsWith(SpellOffsets(MidiToNoteNames, offsets, v, l, ScaleStride)[i], BaseNotes[(l + i) % 7])
  {
    MidiSpellings();
    MidiCoversNear();
    SpellOffsetsOnLetter(MidiToNoteNames, ValueNoteMap, offsets, l, shift, i);
  }

  /** A key with at most one accidental is its letter moved by that
      accidental. */
  lemma KeyShift(tonic: string) returns (shift: int)
    requires tonic in NoteValueMap && SingleAccidental(tonic)
    ensures 0 <= LetterIndex(tonic) < 7 && -1 <= shift <= 1
    ensures NoteValueMap[tonic] == (NaturalPitch[LetterIndex(tonic)] + shift) % 12
  {
    KeyFactsHold(tonic);
    shift := AccidentalShift(tonic[1..]).value;
  }

  /** Degree i of the scale on a tonic with at most one accidental is on
      the letter i steps above the tonic's. */
  lemma ScaleDegreeOnLetter(mode: string, tonic: string, i: int, v: int, l: int, shift: int)
    requires mode in ScaleIntervals && tonic in NoteValueMap && 0 <= i < 7
    requires v == NoteValueMap[tonic] && l == LetterIndex(tonic)
    requires 0 <= l < 7 && -1 <= shift <= 1 && v == (NaturalPitch[l] + shift) % 12
    ensures |CalculateScale(mode, tonic)| == 7
    ensures StartsWith(CalculateScale(mode, tonic)[i], BaseNotes[(l + i) % 7])
  {
    ModeToneOnLetter(mode, v, l, shift, i);
    ScaleOnTonicStarts(mode, tonic, i, BaseNotes[(l + i) % 7]);
  }

  /** Degree i of the scale starts with whatever its spelled offset starts
      with. */
  lemma ScaleOnTonicStarts(mode: string, tonic: string, i: int, letter: string)
    requires mode in ScaleIntervals && tonic in NoteValueMap && 0 <= i < 7
    requires StartsWith(SpellOffsets(MidiToNoteNames, Take(ScaleIntervals[mode], 7), NoteValueMap[tonic], LetterIndex(tonic), ScaleStride)[i], letter)
    ensures |CalculateScale(mode, tonic)| == 7 && StartsWith(CalculateScale(mode, tonic)[i], letter)
  {
    ScaleOnTonicAt(mode, tonic, i);
  }

  /** The same for the first seven offsets of a mode. */
  lemma ModeToneOnLetter(mode: string, v: int, l: int, shift: int, i: int)
    requires mode in ScaleIntervals && 0 <= l < 7 && -1 <= shift <= 1 && 0 <= i < 7
    requires v == (NaturalPitch[l] + shift) % 12
    ensures StartsWith(SpellOffsets(MidiToNoteNames, Take(ScaleIntervals[mode], 7), v, l, ScaleStride)[i], BaseNotes[(l + i) % 7])
  {
    ScaleIntervalsNearNatural(mode);
    NearNaturalTake(ScaleIntervals[mode]);
    ScaleToneOnLetter(Take(ScaleIntervals[mode], 7), v, l, shift, i);
  }

  /** The letters of the scale on a tonic with at most one accidental (on
      the letter at `tonicLetter`) are the alphabet rotated to the tonic's
      letter, whatever accidentals the degrees need. */
  lemma CalculateScaleLetters(mode: string, tonic: string, tonicLetter: int)
    requires mode in ScaleIntervals && tonic in NoteValueMap && SingleAccidental(tonic)
    requires tonicLetter == LetterIndex(tonic)
    ensures |CalculateScale(mode, tonic)| == 7
    ensures OnRotatedLetters(CalculateScale(mode, tonic), tonicLetter)
  {
    var shift := KeyShift(tonic);
    forall i | 0 <= i < 7
      ensures StartsWith(CalculateScale(mode, tonic)[i], BaseNotes[(tonicLetter + i) % 7])
    {
      ScaleDegreeOnLetter(mode, tonic, i, NoteValueMap[tonic], tonicLetter, shift);
    }
    ScaleDegreeOnLetter(mode, tonic, 0, NoteValueMap[tonic], tonicLetter, shift);
  }

  /** So no two degrees of such a scale share a letter. */
  lemma CalculateScaleDistinctLetters(mode: string, tonic: string, tonicLetter: int)
    requires mode in ScaleIntervals && tonic in NoteValueMap && SingleAccidental(tonic)
    requires tonicLetter == LetterIndex(tonic)
    ensures |CalculateScale(mode, tonic)| == 7
    ensures NonEmptyNames(CalculateScale(mode, tonic)) && DistinctLetters(CalculateScale(mode, tonic))
  {
    CalculateScaleLetters(mode, tonic, tonicLetter);
    RotatedLettersDistinct(CalculateScale(mode, tonic), tonicLetter);
  }

  /** The letters rotate from every one of the twelve chromatic tonics of
      `valueNoteMap`, in every mode. */
  lemma CalculateScaleChromaticLetters(mode: string, k: int, tonicLetter: int)
    requires mode in ScaleIntervals && 0 <= k < 12 && tonicLetter == LetterIndex(ValueNoteMap[k])
    ensures |CalculateScale(mode, ValueNoteMap[k])| == 7
    ensures OnRotatedLetters(CalculateScale(mode, ValueNoteMap[k]), tonicLetter)
  {
    ValueNoteMapInverse();
    ValueNoteMapSingle(k);
    CalculateScaleLetters(mode, ValueNoteMap[k], tonicLetter);
  }

  /** `chordOffsetMap[type] || [0, 4, 7]`: the quality's offsets, a major
      triad for any other type. */
  function ChordOffsets(chordType: string): (r: seq<int>)
    ensures chordType !in ChordOffsetMap ==> r == [0, 4, 7]
    ensures (|r| == 3 || |r| == 4) && IncreasingFromZero(r, 12)
    ensures forall k | 0 <= k < |r| :: 0 <= r[k] < 12
  {
    if chordType in ChordOffsetMap then
      ChordOffsetsShape(chordType);
      ChordOffsetMap[chordType]
    else
      [0, 4, 7]
  }

  /** `calculateChordTones(root, type)`: one tone per offset of the
      quality, all `?` when the root is not a known spelling. */
  function CalculateChordTones(root: string, chordType: string): (r: seq<string>)
    ensures |r| == |ChordOffsets(chordType)| && (|r| == 3 || |r| == 4)
    ensures root !in NoteValueMap ==> forall i | 0 <= i < |r| :: r[i] == "?"
  {
    SpellFrom(ChordOffsets(chordType), ValueOf(root), UpperLetterIndex(root), ChordStride)
  }

  /** Tone i of a chord spelled from pitch class v and letter index
      `letterIndex`: root, third, fifth and seventh sit 0, 2, 4 and 6
      letters up. */
  lemma ChordToneAt(offsets: seq<int>, v: int, letterIndex: int, i: int)
    requires 0 <= i < |offsets|
    ensures SpelledAs(SpellOffsets(MidiToNoteNames, offsets, v, letterIndex, ChordStride)[i],
                      (v + offsets[i]) % 12, BaseNotes[(letterIndex + 2 * i) % 7])
  {
    MidiSpellings();
    SpellOffsetsValued(MidiToNoteNames, ValueNoteMap, NoteValueMap, offsets, v, letterIndex, ChordStride, i,
                       (v + offsets[i]) % 12, BaseNotes[(letterIndex + 2 * i) % 7]);
    SpellOffsetsFallback(MidiToNoteNames, ValueNoteMap, offsets, v, letterIndex, ChordStride, i,
                         (v + offsets[i]) % 12, BaseNotes[(letterIndex + 2 * i) % 7]);
  }

  /** On a known root, tone i is the quality's offsets spelled from the
      root's pitch class and letter. */
  lemma ChordOnRootAt(root: string, chordType: string, i: int)
    requires root in NoteValueMap && 0 <= i < |ChordOffsets(chordType)|
    ensures 0 <= NoteValueMap[root]
    ensures CalculateChordTones(root, chordType)[i] ==
              SpellOffsets(MidiToNoteNames, ChordOffsets(chordType), NoteValueMap[root], LetterIndex(root), ChordStride)[i]
  {
    assert UpperLetterIndex(root) == LetterIndex(root) by { KeyLetter(root); }
    assert 0 <= NoteValueMap[root] by { assert ValueOf(root).Some?; }
  }

  /** Tone i of a chord on a known root (pitch class `rootValue`, letter
      index `rootLetter`) whose quality has `offsets` is a spelling of
      `(rootValue + offsets[i]) % 12`, on the letter 2i steps above the
      root's whenever that pitch class has a spelling on it. */
  lemma CalculateChordTone(root: string, chordType: string, i: int, offsets: seq<int>, rootValue: int, rootLetter: int)
    requires root in NoteValueMap && offsets == ChordOffsets(chordType) && 0 <= i < |offsets|
    requires rootValue == NoteValueMap[root] && rootLetter == LetterIndex(root)
    ensures |CalculateChordTones(root, chordType)| == |offsets|
    ensures SpelledAs(CalculateChordTones(root, chordType)[i], (rootValue + offsets[i]) % 12, BaseNotes[(rootLetter + 2 * i) % 7])
  {
    ChordOnRootAt(root, chordType, i);
    ChordToneAt(offsets, rootValue, rootLetter, i);
  }

  /** Chord tone i named outright: when candidate k of its pitch class
      starts with its letter, tone i is that candidate. */
  lemma ChordToneNamed(offsets: seq<int>, v: int, letterIndex: int, i: int, pitch: int, letter: string, k: int)
    requires 0 <= i < |offsets| && pitch == (v + offsets[i]) % 12
    requires letter == BaseNotes[(letterIndex + 2 * i) % 7]
    requires 0 <= k < |NamesAt(pitch)| && StartsWith(NamesAt(pitch)[k], letter)
    ensures SpellOffsets(MidiToNoteNames, offsets, v, letterIndex, ChordStride)[i] == NamesAt(pitch)[k]
  {
    MidiSpellings();
    assert (letterIndex + ChordStride * i) % 7 == (letterIndex + 2 * i) % 7;
    SpellOffsetsNamed(MidiToNoteNames, ValueNoteMap, offsets, v, letterIndex, ChordStride, i, pitch, letter, k);
  }

  /** D half-diminished seventh is the offsets 0 3 6 10 spelled from pitch
      class 2 on the letter D. */
  lemma HalfDiminishedOnD()
    ensures CalculateChordTones("D", "m7(b5)") == SpellOffsets(MidiToNoteNames, [0, 3, 6, 10], 2, 1, ChordStride)
  {
    assert ChordOffsets("m7(b5)") == [0, 3, 6, 10];
    assert ValueOf("D") == Some(2) && UpperLetterIndex("D") == 1;
  }

  /** D half-diminished seventh is spelled D F Ab C. */
  lemma CalculateChordTonesHalfDiminished()
    ensures CalculateChordTones("D", "m7(b5)") == ["D", "F", "Ab", "C"]
  {
    HalfDiminishedOnD();
    HalfDiminishedTones([0, 3, 6, 10]);
  }

  lemma HalfDiminishedTones(offsets: seq<int>)
    requires offsets == [0, 3, 6, 10]
    ensures SpellOffsets(MidiToNoteNames, offsets, 2, 1, ChordStride) == ["D", "F", "Ab", "C"]
  {
    var tones := SpellOffsets(MidiToNoteNames, offsets, 2, 1, ChordStride);
    forall i | 0 <= i < 4
      ensures tones[i] == ["D", "F", "Ab", "C"][i]
    {
      HalfDiminishedTone(offsets, i);
    }
  }

  /** Tone i of D half-diminished, one candidate list at a time. */
  lemma HalfDiminishedTone(offsets: seq<int>, i: int)
    requires offsets == [0, 3, 6, 10] && 0 <= i < 4
    ensures SpellOffsets(MidiToNoteNames, offsets, 2, 1, ChordStride)[i] == ["D", "F", "Ab", "C"][i]
  {
    if i == 0 {
      assert NamesAt(2)[0] == "D";
      ChordToneNamed(offsets, 2, 1, 0, 2, "D", 0);
    } else if i == 1 {
      assert NamesAt(5)[0] == "F";
      ChordToneNamed(offsets, 2, 1, 1, 5, "F", 0);
    } else if i == 2 {
      assert NamesAt(8)[1] == "Ab";
      ChordToneNamed(offsets, 2, 1, 2, 8, "A", 1);
    } else {
      assert NamesAt(0)[0] == "C";
      ChordToneNamed(offsets, 2, 1, 3, 0, "C", 0);
    }
  }

  /** Pitch class 8 is spelled `Ab` on the letter A, `G#` on G, and falls
      back to its preferred spelling `G#` on a letter it has no spelling on. */
  lemma GetSpelledNoteOnLetter()
    ensures GetSpelledNote(8, "A") == "Ab" && GetSpelledNote(8, "G") == "G#"
  {
    GetSpelledNoteUnique(8, "A", 1);
    GetSpelledNoteUnique(8, "G", 0);
  }

  lemma GetSpelledNoteFallback()
    ensures GetSpelledNote(8, "F") == "G#"
  {
    assert NamesAt(8) == ["G#", "Ab"];
    assert "G#"[0] != "F"[0] && "Ab"[0] != "F"[0];
    assert FirstMatch(["Ab"], "F") == -1;
    assert FirstMatch(NamesAt(8), "F") == -1;
  }

  /** A degree pinned to one candidate: degree i of a scale is the k-th
      spelling of its pitch class when that one is on the letter i steps up. */
  lemma ScaleToneNamed(offsets: seq<int>, v: int, letterIndex: int, i: int, pitch: int, letter: string, k: int)
    requires 0 <= i < |offsets| && pitch == (v + offsets[i]) % 12
    requires letter == BaseNotes[(letterIndex + i) % 7]
    requires 0 <= k < |NamesAt(pitch)| && StartsWith(NamesAt(pitch)[k], letter)
    ensures SpellOffsets(MidiToNoteNames, offsets, v, letterIndex, ScaleStride)[i] == NamesAt(pitch)[k]
  {
    MidiSpellings();
    assert ScaleStride * i == i;
    SpellOffsetsNamed(MidiToNoteNames, ValueNoteMap, offsets, v, letterIndex, ScaleStride, i, pitch, letter, k);
  }

  /** C harmonic minor is the offsets 0 2 3 5 7 8 11 spelled from pitch
      class 0 on the letter C. */
  lemma HarmonicMinorOnC()
    ensures CalculateScale("Harmonic Minor", "C") == SpellOffsets(MidiToNoteNames, [0, 2, 3, 5, 7, 8, 11], 0, 0, ScaleStride)
  {
    assert Take(ScaleIntervals["Harmonic Minor"], 7) == [0, 2, 3, 5, 7, 8, 11];
    assert ValueOf("C") == Some(0) && UpperLetterIndex("C") == 0;
  }

  /** C harmonic minor is spelled C D Eb F G Ab B: one note per letter, the
      third and sixth flattened on their own letters. */
  lemma CalculateScaleHarmonicMinor()
    ensures CalculateScale("Harmonic Minor", "C") == ["C", "D", "Eb", "F", "G", "Ab", "B"]
  {
    HarmonicMinorOnC();
    HarmonicMinorTones([0, 2, 3, 5, 7, 8, 11]);
  }

  lemma HarmonicMinorTones(offsets: seq<int>)
    requires offsets == [0, 2, 3, 5, 7, 8, 11]
    ensures SpellOffsets(MidiToNoteNames, offsets, 0, 0, ScaleStride) == ["C", "D", "Eb", "F", "G", "Ab", "B"]
  {
    var tones := SpellOffsets(MidiToNoteNames, offsets, 0, 0, ScaleStride);
    forall i | 0 <= i < 7
      ensures tones[i] == ["C", "D", "Eb", "F", "G", "Ab", "B"][i]
    {
      HarmonicMinorTone(offsets, i);
    }
  }

  /** Degree i of C harmonic minor, one candidate list at a time. */
  lemma HarmonicMinorTone(offsets: seq<int>, i: int)
    requires offsets == [0, 2, 3, 5, 7, 8, 11] && 0 <= i < 7
    ensures SpellOffsets(MidiToNoteNames, offsets, 0, 0, ScaleStride)[i] == ["C", "D", "Eb", "F", "G", "Ab", "B"][i]
  {
    if i < 4 {
      HarmonicMinorLower(offsets, i);
    } else {
      HarmonicMinorUpper(offsets, i);
    }
  }

  lemma HarmonicMinorLower(offsets: seq<int>, i: int)
    requires offsets == [0, 2, 3, 5, 7, 8, 11] && 0 <= i < 4
    ensures SpellOffsets(MidiToNoteNames, offsets, 0, 0, ScaleStride)[i] == ["C", "D", "Eb", "F"][i]
  {
    if i == 0 {
      assert NamesAt(0)[0] == "C";
      ScaleToneNamed(offsets, 0, 0, 0, 0, "C", 0);
    } else if i == 1 {
      assert NamesAt(2)[0] == "D";
      ScaleToneNamed(offsets, 0, 0, 1, 2, "D", 0);
    } else if i == 2 {
      assert NamesAt(3)[1] == "Eb";
      ScaleToneNamed(offsets, 0, 0, 2, 3, "E", 1);
    } else {
      assert NamesAt(5)[0] == "F";
      ScaleToneNamed(offsets, 0, 0, 3, 5, "F", 0);
    }
  }

  lemma HarmonicMinorUpper(offsets: seq<int>, i: int)
    requires offsets == [0, 2, 3, 5, 7, 8, 11] && 4 <= i < 7
    ensures SpellOffsets(MidiToNoteNames, offsets, 0, 0, ScaleStride)[i] == ["G", "Ab", "B"][i - 4]
  {
    if i == 4 {
      assert NamesAt(7)[0] == "G";
      ScaleToneNamed(offsets, 0, 0, 4, 7, "G", 0);
    } else if i == 5 {
      assert NamesAt(8)[1] == "Ab";
      ScaleToneNamed(offsets, 0, 0, 5, 8, "A", 1);
    } else {
      assert NamesAt(11)[0] == "B";
      ScaleToneNamed(offsets, 0, 0, 6, 11, "B", 0);
    }
  }

  /** On the double-flat tonic `Dbb` (pitch class 0, letter D) the sixth
      degree of natural minor is pitch class 8, which has no spelling on the
      letter B six letters up: the degree falls back to `G#`, so the scale
      skips the letter B and repeats G. */
  lemma CalculateScaleDoubleFlatTonic()
    ensures CalculateScale("Natural Minor", "Dbb")[5] == "G#"
    ensures BaseNotes[(LetterIndex("Dbb") + 5) % 7] == "B" && !StartsWith(CalculateScale("Natural Minor", "Dbb")[5], "B")
  {
    DoubleFlatSixth();
    DegreeFallback("Natural Minor", "Dbb", 5, 0, 1, 8, "B");
  }

  /** The facts about `Dbb`, natural minor and pitch class 8 that the
      fallback needs. */
  lemma DoubleFlatSixth()
    ensures "Dbb" in NoteValueMap && NoteValueMap["Dbb"] == 0 && LetterIndex("Dbb") == 1
    ensures "Natural Minor" in ScaleIntervals && |ScaleIntervals["Natural Minor"]| == 8 && ScaleIntervals["Natural Minor"][5] == 8
    ensures BaseNotes[(1 + 5) % 7] == "B" && FirstMatch(NamesAt(8), "B") == -1 && ValueNoteMap[8] == "G#"
  {
    assert ScaleIntervals["Natural Minor"] == [0, 2, 3, 5, 7, 8, 10, 12];
    assert FirstMatch(NamesAt(8), "B") == -1 by {
      assert NamesAt(8) == ["G#", "Ab"];
      assert "G#"[0] != "B"[0] && "Ab"[0] != "B"[0];
      assert FirstMatch(["Ab"], "B") == -1;
    }
  }

  /** A degree whose pitch class has no spelling on its letter is the
      preferred spelling of that class. */
  lemma DegreeFallback(mode: string, tonic: string, i: int, tonicValue: int, tonicLetter: int, pitch: int, letter: string)
    requires mode in ScaleIntervals && tonic in NoteValueMap && 0 <= i < 7 && i < |ScaleIntervals[mode]|
    requires tonicValue == NoteValueMap[tonic] && tonicLetter == LetterIndex(tonic)
    requires pitch == (tonicValue + ScaleIntervals[mode][i]) % 12 && letter == BaseNotes[(tonicLetter + i) % 7]
    requires FirstMatch(NamesAt(pitch), letter) == -1
    ensures |CalculateScale(mode, tonic)| == 7 && CalculateScale(mode, tonic)[i] == ValueNoteMap[pitch]
  {
    CalculateScaleDegree(mode, tonic, i, tonicValue, tonicLetter);
  }

  /** C major seventh is the offsets 0 4 7 11 spelled from pitch class 0 on
      the letter C. */
  lemma MajorSeventhOnC()
    ensures CalculateChordTones("C", "Maj7") == SpellOffsets(MidiToNoteNames, [0, 4, 7, 11], 0, 0, ChordStride)
  {
    OnC();
    assert ChordOffsets("Maj7") == [0, 4, 7, 11];
  }

  /** The tonic or root `C` has pitch class 0 and letter index 0. */
  lemma OnC()
    ensures ValueOf("C") == Some(0) && UpperLetterIndex("C") == 0
  {
  }

  /** C major seventh is spelled C E G B. */
  lemma CalculateChordTonesMajorSeventh()
    ensures CalculateChordTones("C", "Maj7") == ["C", "E", "G", "B"]
  {
    MajorSeventhOnC();
    MajorSeventhTones([0, 4, 7, 11]);
  }

  lemma MajorSeventhTones(offsets: seq<int>)
    requires offsets == [0, 4, 7, 11]
    ensures SpellOffsets(MidiToNoteNames, offsets, 0, 0, ChordStride) == ["C", "E", "G", "B"]
  {
    var tones := SpellOffsets(MidiToNoteNames, offsets, 0, 0, ChordStride);
    forall i | 0 <= i < 4
      ensures tones[i] == ["C", "E", "G", "B"][i]
    {
      MajorSeventhTone(offsets, i);
    }
  }

  /** Tone i of C major seventh, one candidate list at a time. */
  lemma MajorSeventhTone(offsets: seq<int>, i: int)
    requires offsets == [0, 4, 7, 11] && 0 <= i < 4
    ensures SpellOffsets(MidiToNoteNames, offsets, 0, 0, ChordStride)[i] == ["C", "E", "G", "B"][i]
  {
    if i == 0 {
      assert NamesAt(0)[0] == "C";
      ChordToneNamed(offsets, 0, 0, 0, 0, "C", 0);
    } else if i == 1 {
      assert NamesAt(4)[0] == "E";
      ChordToneNamed(offsets, 0, 0, 1, 4, "E", 0);
    } else if i == 2 {
      assert NamesAt(7)[0] == "G";
      ChordToneNamed(offsets, 0, 0, 2, 7, "G", 0);
    } else {
      assert NamesAt(11)[0] == "B";
      ChordToneNamed(offsets, 0, 0, 3, 11, "B", 0);
    }
  }

  /** The quality codes the substring chain can assign, in the order it tests
      them. */
  const SeventhCodes: seq<string> := ["Maj7", "m7(b5)", "m7", "7"]

  /** The provisional type of `extractChordType`: the numeral's upper-case
      `I`, `V` and `X` deleted, then three first-occurrence replacements.
      The first pattern, the literal `'$\\text{dim7}$'`, holds a backslash
      (unlike the TAB of the `chordTypes7` token); the other two replace `°`
      and `+` by themselves. */
  function StrippedNumeral(roman: string): (t: string)
  {
    var t := RemoveChars(roman, {'I', 'V', 'X'});
    ReplaceFirst(ReplaceFirst(ReplaceFirst(t, "$\\text{dim7}$", "dim7"), "°", "°"), "+", "+")
  }

  /** `extractChordType(roman)`: the first of the substring tests `maj7`,
      `m7(b5)`, `m7`, `7`, `dim7`, `mM7`, `Maj7#5` that `roman` passes picks
      the code; with none, an empty provisional type of a bare `I`, `IV` or
      `V` becomes `I` (and of `i`, `iv`, `v` or `vi` becomes `i`), and any
      other provisional type is returned as it is. */
  function ExtractChordType(roman: string): (r: string)
  {
    var t := StrippedNumeral(roman);
    if Contains(roman, "maj7") then "Maj7"
    else if Contains(roman, "m7(b5)") then "m7(b5)"
    else if Contains(roman, "m7") then "m7"
    else if Contains(roman, "7") then "7"
    else if Contains(roman, "dim7") then "dim7"
    else if Contains(roman, "mM7") then "mM7"
    else if Contains(roman, "Maj7#5") then "Maj7#5"
    else if t == "" then
      if roman in ["I", "IV", "V"] then "I"
      else if roman in ["i", "iv", "v", "vi"] then "i"
      else t
    else t
  }

  /** Without a `7` in the token the three replacements change nothing: the
      provisional type is the token with `I`, `V` and `X` deleted. */
  lemma StrippedWithoutSeventh(roman: string)
    requires '7' !in roman
    ensures StrippedNumeral(roman) == RemoveChars(roman, {'I', 'V', 'X'})
  {
    var t := RemoveChars(roman, {'I', 'V', 'X'});
    if Contains(t, "$\\text{dim7}$") {
      ContainsChar(t, "$\\text{dim7}$", '7');
      assert false;
    }
    ReplaceAbsent(t, "$\\text{dim7}$", "dim7");
    ReplaceSelf(t, "°");
    ReplaceSelf(t, "+");
  }

  /** Every suffix the chain tests for contains a `7`, so a token without
      one passes none of the tests. */
  lemma NoSeventhNoSuffix(roman: string)
    requires '7' !in roman
    ensures !Contains(roman, "maj7") && !Contains(roman, "m7(b5)") && !Contains(roman, "m7") && !Contains(roman, "7")
    ensures !Contains(roman, "dim7") && !Contains(roman, "mM7") && !Contains(roman, "Maj7#5")
  {
    if Contains(roman, "maj7") { ContainsChar(roman, "maj7", '7'); }
    if Contains(roman, "m7(b5)") { ContainsChar(roman, "m7(b5)", '7'); }
    if Contains(roman, "m7") { ContainsChar(roman, "m7", '7'); }
    if Contains(roman, "7") { ContainsChar(roman, "7", '7'); }
    if Contains(roman, "dim7") { ContainsChar(roman, "dim7", '7'); }
    if Contains(roman, "mM7") { ContainsChar(roman, "mM7", '7'); }
    if Contains(roman, "Maj7#5") { ContainsChar(roman, "Maj7#5", '7'); }
  }

  /** A token without a `7`: a bare `I`, `IV` or `V` gives `I`, and every
      other token comes back with `I`, `V` and `X` deleted (so `III`, `VI`
      and `VII` give `""`, `III+` gives `+`, and a lower-case token is
      returned unchanged). The `i` branch is never taken. */
  lemma ExtractChordTypeTriad(roman: string)
    requires '7' !in roman
    ensures ExtractChordType(roman) == if roman in ["I", "IV", "V"] then "I" else RemoveChars(roman, {'I', 'V', 'X'})
  {
    NoSeventhNoSuffix(roman);
    StrippedWithoutSeventh(roman);
    if roman in ["I", "IV", "V"] {
      UpperNumeralsStripped(roman);
    } else if roman in ["i", "iv", "v", "vi"] {
      LowerNumeralsKept(roman);
    }
  }

  /** The bare upper-case numerals `I`, `IV` and `V` lose every letter. */
  lemma UpperNumeralsStripped(roman: string)
    requires roman in ["I", "IV", "V"]
    ensures RemoveChars(roman, {'I', 'V', 'X'}) == ""
  {
    if roman == "IV" {
      assert RemoveChars("IV", {'I', 'V', 'X'}) == RemoveChars("V", {'I', 'V', 'X'});
    }
  }

  /** The lower-case numerals of the `i` branch keep their letters. */
  lemma LowerNumeralsKept(roman: string)
    requires roman in ["i", "iv", "v", "vi"]
    ensures RemoveChars(roman, {'I', 'V', 'X'}) != ""
  {
    assert roman[0] in RemoveChars(roman, {'I', 'V', 'X'});
  }

  /** A token with a `7` always gets one of the four seventh codes, decided
      by the first test passed: `Maj7` exactly for a token containing `maj7`;
      `m7(b5)`, `m7` and `7` exactly when the token contains that suffix and
      none tested before it. */
  lemma ExtractChordTypeSeventh(roman: string)
    requires '7' in roman
    ensures ExtractChordType(roman) == (if Contains(roman, "maj7") then "Maj7"
                                        else if Contains(roman, "m7(b5)") then "m7(b5)"
                                        else if Contains(roman, "m7") then "m7" else "7")
  {
    ContainsSingle(roman, '7');
  }

  /** So the chain assigns a seventh code exactly to the tokens with a `7`,
      and `dim7`, `mM7` and `Maj7#5`, whose tests all need a `7`, are never
      returned. */
  lemma ExtractChordTypeSevenths(roman: string)
    ensures ExtractChordType(roman) in SeventhCodes <==> '7' in roman
    ensures ExtractChordType(roman) != "dim7" && ExtractChordType(roman) != "mM7" && ExtractChordType(roman) != "Maj7#5"
  {
    if '7' in roman {
      ExtractChordTypeSeventh(roman);
    } else {
      ExtractChordTypeTriad(roman);
      assert '7' !in ExtractChordType(roman);
      assert "Maj7"[3] == '7' && "m7(b5)"[1] == '7' && "m7"[1] == '7' && "7"[0] == '7';
      assert "dim7"[3] == '7' && "mM7"[2] == '7' && "Maj7#5"[3] == '7';
    }
  }

  /** The precedence as if-and-only-ifs. */
  lemma ExtractChordTypePrecedence(roman: string)
    ensures ExtractChordType(roman) == "Maj7" <==> Contains(roman, "maj7")
    ensures ExtractChordType(roman) == "m7(b5)" <==> !Contains(roman, "maj7") && Contains(roman, "m7(b5)")
    ensures ExtractChordType(roman) == "m7" <==>
              !Contains(roman, "maj7") && !Contains(roman, "m7(b5)") && Contains(roman, "m7")
    ensures ExtractChordType(roman) == "7" <==>
              !Contains(roman, "maj7") && !Contains(roman, "m7(b5)") && !Contains(roman, "m7") && '7' in roman
  {
    ExtractChordTypeSevenths(roman);
    if '7' in roman {
      ExtractChordTypeSeventh(roman);
    } else {
      NoSeventhNoSuffix(roman);
    }
  }

  /** The augmented and minor-major seventh tokens resolve to other
      qualities: `IIImaj7#5` to `Maj7` (not `Maj7#5`) and `ImM7` to `7` (not
      `mM7`). */
  lemma ExtractChordTypeAugmentedSeventh()
    ensures ExtractChordType("IIImaj7#5") == "Maj7"
  {
    ContainsAt("IIImaj7#5", "maj7", 3);
  }

  lemma ExtractChordTypeMinorMajorSeventh()
    ensures ExtractChordType("ImM7") == "7"
  {
    assert !Contains("ImM7", "maj7") by { if Contains("ImM7", "maj7") { ContainsChar("ImM7", "maj7", 'j'); } }
    assert !Contains("ImM7", "m7(b5)") by { if Contains("ImM7", "m7(b5)") { ContainsChar("ImM7", "m7(b5)", '('); } }
    assert !Contains("ImM7", "m7") by { if Contains("ImM7", "m7") { ContainsPair("ImM7", 'm', '7'); } }
    ContainsAt("ImM7", "7", 3);
  }

  /** A diminished-seventh token resolves to `m7`, since `dim7` contains
      `m7`: this is what becomes of the `chordTypes7` token
      `VII$\text{dim7}$`, whose `\t` is a TAB. */
  lemma ExtractChordTypeDiminished(roman: string)
    requires Contains(roman, "dim7") && !Contains(roman, "maj7") && !Contains(roman, "m7(b5)")
    ensures ExtractChordType(roman) == "m7"
  {
    ContainsInfix(roman, "dim7", 2, 4);
    assert "dim7"[2..4] == "m7";
    ContainsChar(roman, "dim7", '7');
    ExtractChordTypeSeventh(roman);
  }

  /** Bare upper-case triads other than `I`, `IV` and `V` lose every
      letter: `III`, `VI` and `VII` give `""`, and `III+` gives `+`. */
  lemma ExtractChordTypeBareNumerals()
    ensures ExtractChordType("III") == "" && ExtractChordType("VI") == "" && ExtractChordType("VII") == ""
    ensures ExtractChordType("III+") == "+"
    ensures ExtractChordType("IV") == "I"
  {
    ExtractChordTypeTriad("III");
    ExtractChordTypeTriad("VI");
    ExtractChordTypeTriad("VII");
    ExtractChordTypeTriad("III+");
    ExtractChordTypeTriad("IV");
  }

  /** A token with no `I`, `V`, `X` or `7` (a lower-case numeral with any
      suffix but a seventh) comes back unchanged. */
  lemma ExtractChordTypeUnchanged(roman: string)
    requires forall i | 0 <= i < |roman| :: roman[i] !in {'I', 'V', 'X', '7'}
    ensures ExtractChordType(roman) == roman
  {
    RemoveAbsent(roman, {'I', 'V', 'X'});
    ExtractChordTypeTriad(roman);
  }

  /** So `ii`, `vii°` and `iv` come back unchanged. */
  lemma ExtractChordTypeLowerNumerals()
    ensures ExtractChordType("ii") == "ii"
  {
    ExtractChordTypeUnchanged("ii");
  }

  lemma ExtractChordTypeDiminishedTriad()
    ensures ExtractChordType("vii°") == "vii°"
  {
    ExtractChordTypeUnchanged("vii°");
  }

  lemma ExtractChordTypeMinorFour()
    ensures ExtractChordType("iv") == "iv"
  {
    ExtractChordTypeUnchanged("iv");
  }

  /** `iv` is not a key of `chordOffsetMap`, so the minor triad on the
      fourth degree gets the major-triad default; so do `+` (from `III+`)
      and `""` (from `III`, `VI`, `VII`). */
  lemma ChordOffsetsDefaulted()
    ensures ChordOffsets("iv") == [0, 4, 7] && ChordOffsets("+") == [0, 4, 7] && ChordOffsets("") == [0, 4, 7]
  {
  }
}
