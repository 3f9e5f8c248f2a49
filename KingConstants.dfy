/** The static tables of `music-theory-king/docs/constants.ts`, read by the
    sharps-only engine, and the facts about them that engine relies on. */
module KingConstants {
  import opened Theory
  import Constants

  /** `semitoneToInterval` */
  const SemitoneToInterval: map<int, string> := map[
    0 := "P1/P8", 1 := "m2", 2 := "M2", 3 := "m3", 4 := "M3", 5 := "P4", 6 := "A4/d5",
    7 := "P5", 8 := "m6", 9 := "M6", 10 := "m7", 11 := "M7", 12 := "P8"
  ]

  /** `noteValueMap`: the twelve sharp-or-natural spellings and the five
      flats `Db`, `Eb`, `Gb`, `Ab`, `Bb`, each with its pitch class. */
  const NoteValueMap: map<string, int> := map[
    "C" := 0, "C#" := 1, "Db" := 1, "D" := 2, "D#" := 3, "Eb" := 3, "E" := 4, "F" := 5,
    "F#" := 6, "Gb" := 6, "G" := 7, "G#" := 8, "Ab" := 8, "A" := 9, "A#" := 10, "Bb" := 10, "B" := 11
  ]

  /** `valueNoteMap`: the sharp-or-natural spelling of each pitch class. */
  const ValueNoteMap: seq<string> := ["C", "C#", "D", "D#", "E", "F", "F#", "G", "G#", "A", "A#", "B"]

  /** `scaleIntervals` */
  const ScaleIntervals: map<string, seq<int>> := map[
    "Major" := [0, 2, 4, 5, 7, 9, 11, 12],
    "Natural Minor" := [0, 2, 3, 5, 7, 8, 10, 12],
    "Harmonic Minor" := [0, 2, 3, 5, 7, 8, 11, 12],
    "Melodic Minor" := [0, 2, 3, 5, 7, 9, 11, 12]
  ]

  /** `chordOffsetMap` */
  const ChordOffsetMap: map<string, seq<int>> := map[
    "Maj7" := [0, 4, 7, 11], "m7" := [0, 3, 7, 10], "7" := [0, 4, 7, 10],
    "m7(b5)" := [0, 3, 6, 10], "dim7" := [0, 3, 6, 9], "mM7" := [0, 3, 7, 11],
    "Maj7#5" := [0, 4, 8, 11], "I" := [0, 4, 7], "i" := [0, 3, 7],
    "ii" := [0, 3, 7], "iii" := [0, 3, 7], "IV" := [0, 4, 7], "V" := [0, 4, 7],
    "vi" := [0, 3, 7], "ii°" := [0, 3, 6], "vii°" := [0, 3, 6], "III+" := [0, 4, 8],
    "v" := [0, 3, 7], "vi°" := [0, 3, 6]
  ]

  /** `chordTypes7`; as in the main tables, `\t` in the last Harmonic Minor
      token is a TAB. */
  const ChordTypes7: map<string, seq<string>> := map[
    "Major" := ["Imaj7", "IIm7", "IIIm7", "IVmaj7", "V7", "VIm7", "VIIm7(b5)"],
    "Natural Minor" := ["Im7", "IIm7(b5)", "IIImaj7", "IVm7", "Vm7", "VImaj7", "VII7"],
    "Harmonic Minor" := ["ImM7", "IIm7(b5)", "IIImaj7#5", "IVm7", "V7", "VImaj7", "VII$\text{dim7}$"],
    "Melodic Minor" := ["ImM7", "IIm7", "IIImaj7#5", "IV7", "V7", "VIm7(b5)", "VIIm7(b5)"]
  ]

  /** `chordTypes3` */
  const ChordTypes3: map<string, seq<string>> := map[
    "Major" := ["I", "ii", "iii", "IV", "V", "vi", "vii°"],
    "Natural Minor" := ["i", "ii°", "III", "iv", "v", "VI", "VII"],
    "Harmonic Minor" := ["i", "ii°", "III+", "iv", "V", "VI", "vii°"],
    "Melodic Minor" := ["i", "ii", "III+", "iv", "V", "vi°", "vii°"]
  ]

  /** Apart from `noteValueMap`, which drops the double accidentals and the
      enharmonic naturals, every table is the one of `constants.ts`. */
  lemma SameAsMainTables()
    ensures SemitoneToInterval == Constants.SemitoneToInterval
    ensures ValueNoteMap == Constants.ValueNoteMap
    ensures ScaleIntervals == Constants.ScaleIntervals
    ensures ChordOffsetMap == Constants.ChordOffsetMap
    ensures ChordTypes7 == Constants.ChordTypes7 && ChordTypes3 == Constants.ChordTypes3
  {
  }

  /** A key of `noteValueMap` that denotes its pitch class and starts with
      an upper-case letter. */
  predicate Denotes(n: string) {
    n in NoteValueMap ==> SpelledPitch(n) == Some(NoteValueMap[n]) && !('a' <= n[0] <= 'z')
  }

  lemma DenotesC(n: string)
    requires n in ["C", "C#"]
    ensures Denotes(n)
  {
  }

  lemma DenotesD(n: string)
    requires n in ["Db", "D", "D#"]
    ensures Denotes(n)
  {
  }

  lemma DenotesE(n: string)
    requires n in ["Eb", "E"]
    ensures Denotes(n)
  {
  }

  lemma DenotesF(n: string)
    requires n in ["F", "F#"]
    ensures Denotes(n)
  {
  }

  lemma DenotesG(n: string)
    requires n in ["Gb", "G", "G#"]
    ensures Denotes(n)
  {
  }

  lemma DenotesA(n: string)
    requires n in ["Ab", "A", "A#"]
    ensures Denotes(n)
  {
  }

  lemma DenotesB(n: string)
    requires n in ["Bb", "B"]
    ensures Denotes(n)
  {
  }

  /** The 17 keys grouped by letter. */
  lemma KeyGroups(n: string)
    requires n in NoteValueMap
    ensures n in ["C", "C#"] || n in ["Db", "D", "D#"] || n in ["Eb", "E"] || n in ["F", "F#"] || n in ["Gb", "G", "G#"] || n in ["Ab", "A", "A#"] || n in ["Bb", "B"]
  {
  }

  /** Every spelling denotes its pitch class by the rules of notation, and
      so every value is a pitch class. */
  lemma NoteValueSpelled()
    ensures SpelledValues(NoteValueMap) && PitchTable(NoteValueMap)
  {
    forall n | n in NoteValueMap
      ensures SpelledPitch(n) == Some(NoteValueMap[n]) && !('a' <= n[0] <= 'z')
    {
      KeyGroups(n);
      if n in ["C", "C#"] { DenotesC(n); }
      else if n in ["Db", "D", "D#"] { DenotesD(n); }
      else if n in ["Eb", "E"] { DenotesE(n); }
      else if n in ["F", "F#"] { DenotesF(n); }
      else if n in ["Gb", "G", "G#"] { DenotesG(n); }
      else if n in ["Ab", "A", "A#"] { DenotesA(n); }
      else { DenotesB(n); }
      assert Denotes(n);
    }
    SpelledValuesInRange(NoteValueMap);
  }

  /** The keys on the letter B are `Bb` and `B`, so none of them is C. */
  lemma KeyOnB(n: string)
    requires n in NoteValueMap && |n| > 0 && n[0] == 'B'
    ensures NoteValueMap[n] != 0
  {
    KeyGroups(n);
  }

  /** Every key carries at most one accidental. */
  lemma KeySingleAccidental(n: string)
    requires n in NoteValueMap
    ensures SingleAccidental(n)
  {
    KeyGroups(n);
  }

  /** One key at a time: it denotes its value. */
  lemma KeySpelled(n: string)
    requires n in NoteValueMap
    ensures SpelledPitch(n) == Some(NoteValueMap[n])
  {
    NoteValueSpelled();
  }

  /** Every value of `noteValueMap` is a pitch class 0..11. */
  lemma NoteValuesInRange()
    ensures PitchTable(NoteValueMap)
  {
    NoteValueSpelled();
  }

  /** So the two `noteValueMap`s agree on every spelling they share. */
  lemma NoteValueAgrees(n: string)
    requires n in NoteValueMap && n in Constants.NoteValueMap
    ensures NoteValueMap[n] == Constants.NoteValueMap[n]
  {
    NoteValueSpelled();
    Constants.NoteValueSpelled();
  }

  /** `valueNoteMap` has 12 entries, each a natural or a sharp, and each maps
      back to its own position. */
  lemma ValueNoteMapInverse()
    ensures |ValueNoteMap| == 12
    ensures forall k | 0 <= k < 12 :: ValueNoteMap[k] in NoteValueMap && NoteValueMap[ValueNoteMap[k]] == k
    ensures forall k | 0 <= k < 12 :: Sharp(ValueNoteMap[k])
  {
  }

  /** A natural letter, alone or followed by `#`. */
  predicate Sharp(n: string) {
    && 1 <= |n| <= 2 && [n[0]] in BaseNotes
    && (|n| == 2 ==> n[1] == '#')
  }

  /** Every mode is 8 strictly increasing offsets from 0 to the octave. */
  lemma ScaleIntervalsShape(mode: string)
    requires mode in ScaleIntervals
    ensures |ScaleIntervals[mode]| == 8 && IncreasingFromZero(ScaleIntervals[mode], 13) && ScaleIntervals[mode][7] == 12
    ensures forall k | 0 <= k < 8 :: 0 <= ScaleIntervals[mode][k] <= 12
  {
    SameAsMainTables();
    Constants.ScaleIntervalsShape(mode);
  }

  /** Every chord quality is 3 or 4 strictly increasing offsets from 0 below
      12. */
  lemma ChordOffsetsShape(chordType: string)
    requires chordType in ChordOffsetMap
    ensures |ChordOffsetMap[chordType]| == 3 || |ChordOffsetMap[chordType]| == 4
    ensures IncreasingFromZero(ChordOffsetMap[chordType], 12)
    ensures forall k | 0 <= k < |ChordOffsetMap[chordType]| :: 0 <= ChordOffsetMap[chordType][k] < 12
  {
    SameAsMainTables();
    Constants.ChordOffsetsShape(chordType);
  }

  /** Both token tables give exactly 7 tokens for each mode. */
  lemma ChordTypesShape()
    ensures ChordTypes7.Keys == ScaleIntervals.Keys && ChordTypes3.Keys == ScaleIntervals.Keys
    ensures forall m | m in ChordTypes7 :: |ChordTypes7[m]| == 7 && |ChordTypes3[m]| == 7
  {
    SameAsMainTables();
    Constants.ChordTypesShape();
  }

  /** `semitoneToInterval` covers 0..12, `P1/P8` at 0 and `A4/d5` at 6, and
      names 0..11 canonically. */
  lemma SemitoneToIntervalShape()
    ensures forall k :: k in SemitoneToInterval <==> 0 <= k <= 12
    ensures SemitoneToInterval[0] == "P1/P8" && SemitoneToInterval[6] == "A4/d5" && SemitoneToInterval[12] == "P8"
    ensures CanonicalLabels(SemitoneToInterval)
    ensures forall k | 0 <= k < 12 :: SemitoneToInterval[k] != "P8"
  {
    SameAsMainTables();
    Constants.SemitoneToIntervalShape();
  }
}
