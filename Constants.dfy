/** The static tables of `constants.ts` read by the letter-aware engine, and
    the facts about them that the engine's guarantees rest on. */
module Constants {
  import opened Strings
  import opened Theory
  import opened Spelling

  /** `noteValueMap`: 35 spellings, each with its pitch class. */
  const NoteValueMap: map<string, int> := map[
    "C" := 0, "C#" := 1, "Db" := 1, "D" := 2, "D#" := 3, "Eb" := 3, "E" := 4, "F" := 5,
    "F#" := 6, "Gb" := 6, "G" := 7, "G#" := 8, "Ab" := 8, "A" := 9, "A#" := 10, "Bb" := 10, "B" := 11,
    "E#" := 5, "Fb" := 4, "B#" := 0, "Cb" := 11, "Bbb" := 9,
    "Cx" := 2, "Dx" := 4, "Ex" := 6, "Fx" := 7, "Gx" := 9, "Ax" := 11, "Bx" := 1,
    "Dbb" := 0, "Ebb" := 2, "Fbb" := 3, "Gbb" := 5, "Abb" := 7, "Cbb" := 10
  ]

  /** `valueNoteMap`: the sharp-or-natural spelling of each pitch class. */
  const ValueNoteMap: seq<string> := ["C", "C#", "D", "D#", "E", "F", "F#", "G", "G#", "A", "A#", "B"]

  /** `midiToNoteNames`: the spellings of each pitch class, preferred first. */
  const MidiToNoteNames: map<int, seq<string>> := map[
    0 := ["C", "B#", "Dbb"], 1 := ["C#", "Db", "Bx"], 2 := ["D", "Cx", "Ebb"],
    3 := ["D#", "Eb", "Fbb"], 4 := ["E", "Fb", "Dx"], 5 := ["F", "E#", "Gbb"],
    6 := ["F#", "Gb", "Ex"], 7 := ["G", "Fx", "Abb"], 8 := ["G#", "Ab"],
    9 := ["A", "Gx", "Bbb"], 10 := ["A#", "Bb", "Cbb"], 11 := ["B", "Ax", "Cb"]
  ]

  /** `semitoneToInterval` */
  const SemitoneToInterval: map<int, string> := map[
    0 := "P1/P8", 1 := "m2", 2 := "M2", 3 := "m3", 4 := "M3", 5 := "P4", 6 := "A4/d5",
    7 := "P5", 8 := "m6", 9 := "M6", 10 := "m7", 11 := "M7", 12 := "P8"
  ]

  /** `scaleIntervals`: the semitone offsets of each mode, octave included. */
  const ScaleIntervals: map<string, seq<int>> := map[
    "Major" := [0, 2, 4, 5, 7, 9, 11, 12],
    "Natural Minor" := [0, 2, 3, 5, 7, 8, 10, 12],
    "Harmonic Minor" := [0, 2, 3, 5, 7, 8, 11, 12],
    "Melodic Minor" := [0, 2, 3, 5, 7, 9, 11, 12]
  ]

  /** `chordOffsetMap`: the semitone offsets of each chord quality. */
  const ChordOffsetMap: map<string, seq<int>> := map[
    "Maj7" := [0, 4, 7, 11], "m7" := [0, 3, 7, 10], "7" := [0, 4, 7, 10],
    "m7(b5)" := [0, 3, 6, 10], "dim7" := [0, 3, 6, 9], "mM7" := [0, 3, 7, 11],
    "Maj7#5" := [0, 4, 8, 11], "I" := [0, 4, 7], "i" := [0, 3, 7],
    "ii" := [0, 3, 7], "iii" := [0, 3, 7], "IV" := [0, 4, 7], "V" := [0, 4, 7],
    "vi" := [0, 3, 7], "ii°" := [0, 3, 6], "vii°" := [0, 3, 6], "III+" := [0, 4, 8],
    "v" := [0, 3, 7], "vi°" := [0, 3, 6]
  ]

  /** `chordTypes7`: the roman-numeral seventh-chord token of each degree.
      The last Harmonic Minor token is written `'VII$\text{dim7}$'` in an
      ordinary string literal, so `\t` is a TAB character, as it is here. */
  const ChordTypes7: map<string, seq<string>> := map[
    "Major" := ["Imaj7", "IIm7", "IIIm7", "IVmaj7", "V7", "VIm7", "VIIm7(b5)"],
    "Natural Minor" := ["Im7", "IIm7(b5)", "IIImaj7", "IVm7", "Vm7", "VImaj7", "VII7"],
    "Harmonic Minor" := ["ImM7", "IIm7(b5)", "IIImaj7#5", "IVm7", "V7", "VImaj7", "VII$\text{dim7}$"],
    "Melodic Minor" := ["ImM7", "IIm7", "IIImaj7#5", "IV7", "V7", "VIm7(b5)", "VIIm7(b5)"]
  ]

  /** `chordTypes3`: the roman-numeral triad token of each degree. */
  const ChordTypes3: map<string, seq<string>> := map[
    "Major" := ["I", "ii", "iii", "IV", "V", "vi", "vii°"],
    "Natural Minor" := ["i", "ii°", "III", "iv", "v", "VI", "VII"],
    "Harmonic Minor" := ["i", "ii°", "III+", "iv", "V", "VI", "vii°"],
    "Melodic Minor" := ["i", "ii", "III+", "iv", "V", "vi°", "vii°"]
  ]

  /** `midiToNoteNames[v] || []` */
  function NamesAt(v: int): seq<string> {
    ListedAt(MidiToNoteNames, v)
  }


  /** The candidate list of pitch class v, checked one class at a time: its
      shape, and every spelling on it a key of `noteValueMap` mapped to v. */
  predicate PitchClassFacts(v: int) {
    ClassListed(MidiToNoteNames, ValueNoteMap, v) && AllValued(NoteValueMap, NamesAt(v), v)
  }

  /** The spellings listed under class 0 are keys mapped to 0: the literal list alone, split off so each check stays small. */
  lemma PitchValues0()
    ensures AllValued(NoteValueMap, ["C", "B#", "Dbb"], 0)
  {
  }

  /** `PitchClassFacts` for class 0 alone. */
  lemma PitchClass0()
    ensures PitchClassFacts(0)
  {
    PitchValues0();
    assert NamesAt(0) == ["C", "B#", "Dbb"];
  }

  /** The spellings listed under class 1 are keys mapped to 1: the literal list alone, split off so each check stays small. */
  lemma PitchValues1()
    ensures AllValued(NoteValueMap, ["C#", "Db", "Bx"], 1)
  {
  }

  /** `PitchClassFacts` for class 1 alone. */
  lemma PitchClass1()
    ensures PitchClassFacts(1)
  {
    PitchValues1();
    assert NamesAt(1) == ["C#", "Db", "Bx"];
  }

  /** The spellings listed under class 2 are keys mapped to 2: the literal list alone, split off so each check stays small. */
  lemma PitchValues2()
    ensures AllValued(NoteValueMap, ["D", "Cx", "Ebb"], 2)
  {
  }

  /** `PitchClassFacts` for class 2 alone. */
  lemma PitchClass2()
    ensures PitchClassFacts(2)
  {
    PitchValues2();
    assert NamesAt(2) == ["D", "Cx", "Ebb"];
  }

  /** The spellings listed under class 3 are keys mapped to 3: the literal list alone, split off so each check stays small. */
  lemma PitchValues3()
    ensures AllValued(NoteValueMap, ["D#", "Eb", "Fbb"], 3)
  {
  }

  /** `PitchClassFacts` for class 3 alone. */
  lemma PitchClass3()
    ensures PitchClassFacts(3)
  {
    PitchValues3();
    assert NamesAt(3) == ["D#", "Eb", "Fbb"];
  }

  /** The spellings listed under class 4 are keys mapped to 4: the literal list alone, split off so each check stays small. */
  lemma PitchValues4()
    ensures AllValued(NoteValueMap, ["E", "Fb", "Dx"], 4)
  {
  }

  /** `PitchClassFacts` for class 4 alone. */
  lemma PitchClass4()
    ensures PitchClassFacts(4)
  {
    PitchValues4();
    assert NamesAt(4) == ["E", "Fb", "Dx"];
  }

  /** The spellings listed under class 5 are keys mapped to 5: the literal list alone, split off so each check stays small. */
  lemma PitchValues5()
    ensures AllValued(NoteValueMap, ["F", "E#", "Gbb"], 5)
  {
  }

  /** `PitchClassFacts` for class 5 alone. */
  lemma PitchClass5()
    ensures PitchClassFacts(5)
  {
    PitchValues5();
    assert NamesAt(5) == ["F", "E#", "Gbb"];
  }

  /** The spellings listed under class 6 are keys mapped to 6: the literal list alone, split off so each check stays small. */
  lemma PitchValues6()
    ensures AllValued(NoteValueMap, ["F#", "Gb", "Ex"], 6)
  {
  }

  /** `PitchClassFacts` for class 6 alone. */
  lemma PitchClass6()
    ensures PitchClassFacts(6)
  {
    PitchValues6();
    assert NamesAt(6) == ["F#", "Gb", "Ex"];
  }

  /** The spellings listed under class 7 are keys mapped to 7: the literal list alone, split off so each check stays small. */
  lemma PitchValues7()
    ensures AllValued(NoteValueMap, ["G", "Fx", "Abb"], 7)
  {
  }

  /** `PitchClassFacts` for class 7 alone. */
  lemma PitchClass7()
    ensures PitchClassFacts(7)
  {
    PitchValues7();
    assert NamesAt(7) == ["G", "Fx", "Abb"];
  }

  /** The spellings listed under class 8 are keys mapped to 8: the literal list alone, split off so each check stays small. */
  lemma PitchValues8()
    ensures AllValued(NoteValueMap, ["G#", "Ab"], 8)
  {
  }

  /** `PitchClassFacts` for class 8 alone. */
  lemma PitchClass8()
    ensures PitchClassFacts(8)
  {
    PitchValues8();
    assert NamesAt(8) == ["G#", "Ab"];
  }

  /** The spellings listed under class 9 are keys mapped to 9: the literal list alone, split off so each check stays small. */
  lemma PitchValues9()
    ensures AllValued(NoteValueMap, ["A", "Gx", "Bbb"], 9)
  {
  }

  /** `PitchClassFacts` for class 9 alone. */
  lemma PitchClass9()
    ensures PitchClassFacts(9)
  {
    PitchValues9();
    assert NamesAt(9) == ["A", "Gx", "Bbb"];
  }

  /** The spellings listed under class 10 are keys mapped to 10: the literal list alone, split off so each check stays small. */
  lemma PitchValues10()
    ensures AllValued(NoteValueMap, ["A#", "Bb", "Cbb"], 10)
  {
  }

  /** `PitchClassFacts` for class 10 alone. */
  lemma PitchClass10()
    ensures PitchClassFacts(10)
  {
    PitchValues10();
    assert NamesAt(10) == ["A#", "Bb", "Cbb"];
  }

  /** The spellings listed under class 11 are keys mapped to 11: the literal list alone, split off so each check stays small. */
  lemma PitchValues11()
    ensures AllValued(NoteValueMap, ["B", "Ax", "Cb"], 11)
  {
  }

  /** `PitchClassFacts` for class 11 alone. */
  lemma PitchClass11()
    ensures PitchClassFacts(11)
  {
    PitchValues11();
    assert NamesAt(11) == ["B", "Ax", "Cb"];
  }

  /** Class 11 alone starts the chain of suffixes. */
  lemma ClassesFrom11()
    ensures ClassesFrom(MidiToNoteNames, ValueNoteMap, 11) && ValuedFrom(MidiToNoteNames, NoteValueMap, 11)
  {
    PitchClass11();
  }

  /** Classes 10..11: class 10 added to the classes above it. */
  lemma ClassesFrom10()
    ensures ClassesFrom(MidiToNoteNames, ValueNoteMap, 10) && ValuedFrom(MidiToNoteNames, NoteValueMap, 10)
  {
    ClassesFrom11(); PitchClass10();
  }

  /** Classes 9..11: class 9 added to the classes above it. */
  lemma ClassesFrom9()
    ensures ClassesFrom(MidiToNoteNames, ValueNoteMap, 9) && ValuedFrom(MidiToNoteNames, NoteValueMap, 9)
  {
    ClassesFrom10(); PitchClass9();
  }

  /** Classes 8..11: class 8 added to the classes above it. */
  lemma ClassesFrom8()
    ensures ClassesFrom(MidiToNoteNames, ValueNoteMap, 8) && ValuedFrom(MidiToNoteNames, NoteValueMap, 8)
  {
    ClassesFrom9(); PitchClass8();
  }

  /** Classes 7..11: class 7 added to the classes above it. */
  lemma ClassesFrom7()
    ensures ClassesFrom(MidiToNoteNames, ValueNoteMap, 7) && ValuedFrom(MidiToNoteNames, NoteValueMap, 7)
  {
    ClassesFrom8(); PitchClass7();
  }

  /** Classes 6..11: class 6 added to the classes above it. */
  lemma ClassesFrom6()
    ensures ClassesFrom(MidiToNoteNames, ValueNoteMap, 6) && ValuedFrom(MidiToNoteNames, NoteValueMap, 6)
  {
    ClassesFrom7(); PitchClass6();
  }

  /** Classes 5..11: class 5 added to the classes above it. */
  lemma ClassesFrom5()
    ensures ClassesFrom(MidiToNoteNames, ValueNoteMap, 5) && ValuedFrom(MidiToNoteNames, NoteValueMap, 5)
  {
    ClassesFrom6(); PitchClass5();
  }

  /** Classes 4..11: class 4 added to the classes above it. */
  lemma ClassesFrom4()
    ensures ClassesFrom(MidiToNoteNames, ValueNoteMap, 4) && ValuedFrom(MidiToNoteNames, NoteValueMap, 4)
  {
    ClassesFrom5(); PitchClass4();
  }

  /** Classes 3..11: class 3 added to the classes above it. */
  lemma ClassesFrom3()
    ensures ClassesFrom(MidiToNoteNames, ValueNoteMap, 3) && ValuedFrom(MidiToNoteNames, NoteValueMap, 3)
  {
    ClassesFrom4(); PitchClass3();
  }

  /** Classes 2..11: class 2 added to the classes above it. */
  lemma ClassesFrom2()
    ensures ClassesFrom(MidiToNoteNames, ValueNoteMap, 2) && ValuedFrom(MidiToNoteNames, NoteValueMap, 2)
  {
    ClassesFrom3(); PitchClass2();
  }

  /** Classes 1..11: class 1 added to the classes above it. */
  lemma ClassesFrom1()
    ensures ClassesFrom(MidiToNoteNames, ValueNoteMap, 1) && ValuedFrom(MidiToNoteNames, NoteValueMap, 1)
  {
    ClassesFrom2(); PitchClass1();
  }

  /** Classes 0..11: class 0 added to the classes above it. */
  lemma ClassesFrom0()
    ensures ClassesFrom(MidiToNoteNames, ValueNoteMap, 0) && ValuedFrom(MidiToNoteNames, NoteValueMap, 0)
  {
    ClassesFrom1(); PitchClass0();
  }

  lemma MidiKeys()
    ensures forall v :: v in MidiToNoteNames ==> 0 <= v < 12
  {
  }

  /** `midiToNoteNames` covers exactly 0..11; within one class no two
      spellings share a leading letter; `valueNoteMap[v]` is the first
      spelling of v; and every spelling it lists under v maps back to v in
      `noteValueMap`. */
  lemma MidiSpellings()
    ensures Spellings(MidiToNoteNames, ValueNoteMap) && RoundTrip(MidiToNoteNames, NoteValueMap)
  {
    ClassesFrom0();
    MidiKeys();
    TwelveClasses(MidiToNoteNames, ValueNoteMap);
    TwelveValued(MidiToNoteNames, NoteValueMap);
  }

  lemma MidiListedLength()
    ensures |ListedFrom(MidiToNoteNames, 0)| == 35
  {
  }

  /** Every spelling `midiToNoteNames` lists under a class denotes it. */
  lemma MidiDenotes()
    ensures DenotingTable(MidiToNoteNames)
  {
    MidiSpellings();
    NoteValueSpelled();
    RoundTripDenotes(MidiToNoteNames, NoteValueMap);
  }

  /** `midiToNoteNames` lists 35 pairwise different spellings, every one of
      them a key of `noteValueMap`, and no class lists a spelling of another. */
  lemma MidiSpellingCount()
    ensures |ListedFrom(MidiToNoteNames, 0)| == 35
    ensures |set n | n in ListedFrom(MidiToNoteNames, 0)| == 35
    ensures forall n | n in ListedFrom(MidiToNoteNames, 0) :: n in NoteValueMap
    ensures DisjointPitches(MidiToNoteNames)
  {
    MidiListedLength();
    MidiSpellings();
    MidiDenotes();
    SpellingsCount(MidiToNoteNames, ValueNoteMap);
    DenotingDisjoint(MidiToNoteNames);
    NoteValueKeys();
  }

  /** What `noteValueMap` promises of one spelling n: if it is a key, it
      is listed in `midiToNoteNames` under its pitch class, that pitch class
      is the one the spelling denotes, and it starts with an upper-case
      letter. */
  predicate KeyFacts(n: string) {
    n in NoteValueMap ==>
      n in NamesAt(NoteValueMap[n]) && SpelledPitch(n) == Some(NoteValueMap[n]) && !('a' <= n[0] <= 'z')
  }

  /** The 35 keys are the five spellings (natural, `#`, `b`, `x`, `bb`) of
      each of the seven letters. */
  lemma KeyGroups(n: string)
    requires n in NoteValueMap
    ensures n in ["C", "C#", "Cb", "Cx", "Cbb"] || n in ["D", "D#", "Db", "Dx", "Dbb"] || n in ["E", "E#", "Eb", "Ex", "Ebb"] || n in ["F", "F#", "Fb", "Fx", "Fbb"] || n in ["G", "G#", "Gb", "Gx", "Gbb"] || n in ["A", "A#", "Ab", "Ax", "Abb"] || n in ["B", "B#", "Bb", "Bx", "Bbb"]
  {
  }

  /** `KeyFacts` for the key `C` alone. */
  lemma KeyFactsC() ensures KeyFacts("C") { }
  /** `KeyFacts` for the key `C#` alone. */
  lemma KeyFactsCSharp() ensures KeyFacts("C#") { }
  /** `KeyFacts` for the key `Cb` alone. */
  lemma KeyFactsCFlat() ensures KeyFacts("Cb") { }
  /** `KeyFacts` for the key `Cx` alone. */
  lemma KeyFactsCDoubleSharp() ensures KeyFacts("Cx") { }
  /** `KeyFacts` for the key `Cbb` alone. */
  lemma KeyFactsCDoubleFlat() ensures KeyFacts("Cbb") { }

  /** `KeyFacts` for the spellings on the letter C, one literal key at a time. */
  lemma KeyFactsLetterC(n: string)
    requires n in ["C", "C#", "Cb", "Cx", "Cbb"]
    ensures KeyFacts(n)
  {
    KeyFactsC(); KeyFactsCSharp(); KeyFactsCFlat(); KeyFactsCDoubleSharp(); KeyFactsCDoubleFlat();
  }

  /** `KeyFacts` for the key `D` alone. */
  lemma KeyFactsD() ensures KeyFacts("D") { }
  /** `KeyFacts` for the key `D#` alone. */
  lemma KeyFactsDSharp() ensures KeyFacts("D#") { }
  /** `KeyFacts` for the key `Db` alone. */
  lemma KeyFactsDFlat() ensures KeyFacts("Db") { }
  /** `KeyFacts` for the key `Dx` alone. */
  lemma KeyFactsDDoubleSharp() ensures KeyFacts("Dx") { }
  /** `KeyFacts` for the key `Dbb` alone. */
  lemma KeyFactsDDoubleFlat() ensures KeyFacts("Dbb") { }

  /** `KeyFacts` for the spellings on the letter D, one literal key at a time. */
  lemma KeyFactsLetterD(n: string)
    requires n in ["D", "D#", "Db", "Dx", "Dbb"]
    ensures KeyFacts(n)
  {
    KeyFactsD(); KeyFactsDSharp(); KeyFactsDFlat(); KeyFactsDDoubleSharp(); KeyFactsDDoubleFlat();
  }

  /** `KeyFacts` for the key `E` alone. */
  lemma KeyFactsE() ensures KeyFacts("E") { }
  /** `KeyFacts` for the key `E#` alone. */
  lemma KeyFactsESharp() ensures KeyFacts("E#") { }
  /** `KeyFacts` for the key `Eb` alone. */
  lemma KeyFactsEFlat() ensures KeyFacts("Eb") { }
  /** `KeyFacts` for the key `Ex` alone. */
  lemma KeyFactsEDoubleSharp() ensures KeyFacts("Ex") { }
  /** `KeyFacts` for the key `Ebb` alone. */
  lemma KeyFactsEDoubleFlat() ensures KeyFacts("Ebb") { }

  /** `KeyFacts` for the spellings on the letter E, one literal key at a time. */
  lemma KeyFactsLetterE(n: string)
    requires n in ["E", "E#", "Eb", "Ex", "Ebb"]
    ensures KeyFacts(n)
  {
    KeyFactsE(); KeyFactsESharp(); KeyFactsEFlat(); KeyFactsEDoubleSharp(); KeyFactsEDoubleFlat();
  }

  /** `KeyFacts` for the key `F` alone. */
  lemma KeyFactsF() ensures KeyFacts("F") { }
  /** `KeyFacts` for the key `F#` alone. */
  lemma KeyFactsFSharp() ensures KeyFacts("F#") { }
  /** `KeyFacts` for the key `Fb` alone. */
  lemma KeyFactsFFlat() ensures KeyFacts("Fb") { }
  /** `KeyFacts` for the key `Fx` alone. */
  lemma KeyFactsFDoubleSharp() ensures KeyFacts("Fx") { }
  /** `KeyFacts` for the key `Fbb` alone. */
  lemma KeyFactsFDoubleFlat() ensures KeyFacts("Fbb") { }

  /** `KeyFacts` for the spellings on the letter F, one literal key at a time. */
  lemma KeyFactsLetterF(n: string)
    requires n in ["F", "F#", "Fb", "Fx", "Fbb"]
    ensures KeyFacts(n)
  {
    KeyFactsF(); KeyFactsFSharp(); KeyFactsFFlat(); KeyFactsFDoubleSharp(); KeyFactsFDoubleFlat();
  }

  /** `KeyFacts` for the key `G` alone. */
  lemma KeyFactsG() ensures KeyFacts("G") { }
  /** `KeyFacts` for the key `G#` alone. */
  lemma KeyFactsGSharp() ensures KeyFacts("G#") { }
  /** `KeyFacts` for the key `Gb` alone. */
  lemma KeyFactsGFlat() ensures KeyFacts("Gb") { }
  /** `KeyFacts` for the key `Gx` alone. */
  lemma KeyFactsGDoubleSharp() ensures KeyFacts("Gx") { }
  /** `KeyFacts` for the key `Gbb` alone. */
  lemma KeyFactsGDoubleFlat() ensures KeyFacts("Gbb") { }

  /** `KeyFacts` for the spellings on the letter G, one literal key at a time. */
  lemma KeyFactsLetterG(n: string)
    requires n in ["G", "G#", "Gb", "Gx", "Gbb"]
    ensures KeyFacts(n)
  {
    KeyFactsG(); KeyFactsGSharp(); KeyFactsGFlat(); KeyFactsGDoubleSharp(); KeyFactsGDoubleFlat();
  }

  /** `KeyFacts` for the key `A` alone. */
  lemma KeyFactsA() ensures KeyFacts("A") { }
  /** `KeyFacts` for the key `A#` alone. */
  lemma KeyFactsASharp() ensures KeyFacts("A#") { }
  /** `KeyFacts` for the key `Ab` alone. */
  lemma KeyFactsAFlat() ensures KeyFacts("Ab") { }
  /** `KeyFacts` for the key `Ax` alone. */
  lemma KeyFactsADoubleSharp() ensures KeyFacts("Ax") { }
  /** `KeyFacts` for the key `Abb` alone. */
  lemma KeyFactsADoubleFlat() ensures KeyFacts("Abb") { }

  /** `KeyFacts` for the spellings on the letter A, one literal key at a time. */
  lemma KeyFactsLetterA(n: string)
    requires n in ["A", "A#", "Ab", "Ax", "Abb"]
    ensures KeyFacts(n)
  {
    KeyFactsA(); KeyFactsASharp(); KeyFactsAFlat(); KeyFactsADoubleSharp(); KeyFactsADoubleFlat();
  }

  /** `KeyFacts` for the key `B` alone. */
  lemma KeyFactsB() ensures KeyFacts("B") { }
  /** `KeyFacts` for the key `B#` alone. */
  lemma KeyFactsBSharp() ensures KeyFacts("B#") { }
  /** `KeyFacts` for the key `Bb` alone. */
  lemma KeyFactsBFlat() ensures KeyFacts("Bb") { }
  /** `KeyFacts` for the key `Bx` alone. */
  lemma KeyFactsBDoubleSharp() ensures KeyFacts("Bx") { }
  /** `KeyFacts` for the key `Bbb` alone. */
  lemma KeyFactsBDoubleFlat() ensures KeyFacts("Bbb") { }

  /** `KeyFacts` for the spellings on the letter B, one literal key at a time. */
  lemma KeyFactsLetterB(n: string)
    requires n in ["B", "B#", "Bb", "Bx", "Bbb"]
    ensures KeyFacts(n)
  {
    KeyFactsB(); KeyFactsBSharp(); KeyFactsBFlat(); KeyFactsBDoubleSharp(); KeyFactsBDoubleFlat();
  }

  lemma KeyFactsHold(n: string)
    ensures KeyFacts(n)
  {
    if n in NoteValueMap {
      KeyGroups(n);
      if n in ["C", "C#", "Cb", "Cx", "Cbb"] { KeyFactsLetterC(n); }
      else if n in ["D", "D#", "Db", "Dx", "Dbb"] { KeyFactsLetterD(n); }
      else if n in ["E", "E#", "Eb", "Ex", "Ebb"] { KeyFactsLetterE(n); }
      else if n in ["F", "F#", "Fb", "Fx", "Fbb"] { KeyFactsLetterF(n); }
      else if n in ["G", "G#", "Gb", "Gx", "Gbb"] { KeyFactsLetterG(n); }
      else if n in ["A", "A#", "Ab", "Ax", "Abb"] { KeyFactsLetterA(n); }
      else { KeyFactsLetterB(n); }
    }
  }

  /** Every key of `noteValueMap` denotes its pitch class and is listed under
      it in `midiToNoteNames`. */
  lemma NoteValueSpelled()
    ensures SpelledValues(NoteValueMap) && PitchTable(NoteValueMap) && KeysListed(MidiToNoteNames, NoteValueMap)
  {
    forall n | n in NoteValueMap
      ensures n in NamesAt(NoteValueMap[n]) && SpelledPitch(n) == Some(NoteValueMap[n]) && !('a' <= n[0] <= 'z')
    {
      KeyFactsHold(n);
    }
    SpelledValuesInRange(NoteValueMap);
  }

  /** So the two tables hold the same 35 spellings. */
  lemma NoteValueKeys()
    ensures SpelledValues(NoteValueMap) && PitchTable(NoteValueMap) && KeysListed(MidiToNoteNames, NoteValueMap)
    ensures NoteValueMap.Keys == set n | n in ListedFrom(MidiToNoteNames, 0)
    ensures |NoteValueMap| == 35
  {
    NoteValueSpelled();
    MidiSpellings();
    MidiDenotes();
    MidiListedLength();
    SameSpellings(MidiToNoteNames, NoteValueMap, ValueNoteMap);
  }

  /** Every key of `noteValueMap` starts with an upper-case natural letter. */
  lemma KeyLetter(n: string)
    requires n in NoteValueMap
    ensures LetterIndex(n) >= 0 && UpperLetterIndex(n) == LetterIndex(n)
  {
    KeyFactsHold(n);
  }

  /** Every value of `noteValueMap` is a pitch class 0..11. */
  lemma NoteValuesInRange()
    ensures PitchTable(NoteValueMap)
  {
    NoteValueSpelled();
  }

  /** `semitoneToInterval` names every distance 0..11. */
  lemma SemitoneLabels()
    ensures LabelTable(SemitoneToInterval)
  {
  }

  /** `valueNoteMap` lists the first spelling of each pitch class, and each
      maps back to its position. */
  lemma ValueNoteMapInverse()
    ensures |ValueNoteMap| == 12
    ensures forall k | 0 <= k < 12 :: ValueNoteMap[k] in NoteValueMap && NoteValueMap[ValueNoteMap[k]] == k
    ensures forall k | 0 <= k < 12 :: |NamesAt(k)| > 0 && ValueNoteMap[k] == NamesAt(k)[0]
  {
    MidiSpellings();
    FirstsMapBack(MidiToNoteNames, NoteValueMap, ValueNoteMap);
  }

  /** Every mode is 8 strictly increasing offsets from 0 to the octave. */
  lemma ScaleIntervalsShape(mode: string)
    requires mode in ScaleIntervals
    ensures |ScaleIntervals[mode]| == 8 && IncreasingFromZero(ScaleIntervals[mode], 13) && ScaleIntervals[mode][7] == 12
    ensures forall k | 0 <= k < 8 :: 0 <= ScaleIntervals[mode][k] <= 12
  {
    IncreasingBounds(ScaleIntervals[mode], 13);
  }

  /** `midiToNoteNames` lists every spelling with at most a double
      accidental: each pitch class within two semitones of a natural letter
      has a candidate on that letter. */
  lemma MidiCoversNear()
    ensures CoversNear(MidiToNoteNames)
  {
    forall l, shift | 0 <= l < 7 && -2 <= shift <= 2
      ensures FirstMatch(ListedAt(MidiToNoteNames, NearPitch(l, shift)), BaseNotes[l]) >= 0
    {
      if l == 0 { CoversC(shift); }
      else if l == 1 { CoversD(shift); }
      else if l == 2 { CoversE(shift); }
      else if l == 3 { CoversF(shift); }
      else if l == 4 { CoversG(shift); }
      else if l == 5 { CoversA(shift); }
      else { CoversB(shift); }
    }
  }

  /** Letter by letter: the candidate on the letter for each shift. */
  lemma CoversC(shift: int)
    requires -2 <= shift <= 2
    ensures FirstMatch(NamesAt(NearPitch(0, shift)), "C") >= 0
  {
    if shift == -2 {
      assert NearPitch(0, shift) == 10;
      FirstMatchIsFirst(NamesAt(10), "C", 2);
    } else if shift == -1 {
      assert NearPitch(0, shift) == 11;
      FirstMatchIsFirst(NamesAt(11), "C", 2);
    } else if shift == 0 {
      assert NearPitch(0, shift) == 0;
      FirstMatchIsFirst(NamesAt(0), "C", 0);
    } else if shift == 1 {
      assert NearPitch(0, shift) == 1;
      FirstMatchIsFirst(NamesAt(1), "C", 0);
    } else {
      assert NearPitch(0, shift) == 2;
      FirstMatchIsFirst(NamesAt(2), "C", 1);
    }
  }

  lemma CoversD(shift: int)
    requires -2 <= shift <= 2
    ensures FirstMatch(NamesAt(NearPitch(1, shift)), "D") >= 0
  {
    if shift == -2 {
      assert NearPitch(1, shift) == 0;
      FirstMatchIsFirst(NamesAt(0), "D", 2);
    } else if shift == -1 {
      assert NearPitch(1, shift) == 1;
      FirstMatchIsFirst(NamesAt(1), "D", 1);
    } else if shift == 0 {
      assert NearPitch(1, shift) == 2;
      FirstMatchIsFirst(NamesAt(2), "D", 0);
    } else if shift == 1 {
      assert NearPitch(1, shift) == 3;
      FirstMatchIsFirst(NamesAt(3), "D", 0);
    } else {
      assert NearPitch(1, shift) == 4;
      FirstMatchIsFirst(NamesAt(4), "D", 2);
    }
  }

  lemma CoversE(shift: int)
    requires -2 <= shift <= 2
    ensures FirstMatch(NamesAt(NearPitch(2, shift)), "E") >= 0
  {
    if shift == -2 {
      assert NearPitch(2, shift) == 2;
      FirstMatchIsFirst(NamesAt(2), "E", 2);
    } else if shift == -1 {
      assert NearPitch(2, shift) == 3;
      FirstMatchIsFirst(NamesAt(3), "E", 1);
    } else if shift == 0 {
      assert NearPitch(2, shift) == 4;
      FirstMatchIsFirst(NamesAt(4), "E", 0);
    } else if shift == 1 {
      assert NearPitch(2, shift) == 5;
      FirstMatchIsFirst(NamesAt(5), "E", 1);
    } else {
      assert NearPitch(2, shift) == 6;
      FirstMatchIsFirst(NamesAt(6), "E", 2);
    }
  }

  lemma CoversF(shift: int)
    requires -2 <= shift <= 2
    ensures FirstMatch(NamesAt(NearPitch(3, shift)), "F") >= 0
  {
    if shift == -2 {
      assert NearPitch(3, shift) == 3;
      FirstMatchIsFirst(NamesAt(3), "F", 2);
    } else if shift == -1 {
      assert NearPitch(3, shift) == 4;
      FirstMatchIsFirst(NamesAt(4), "F", 1);
    } else if shift == 0 {
      assert NearPitch(3, shift) == 5;
      FirstMatchIsFirst(NamesAt(5), "F", 0);
    } else if shift == 1 {
      assert NearPitch(3, shift) == 6;
      FirstMatchIsFirst(NamesAt(6), "F", 0);
    } else {
      assert NearPitch(3, shift) == 7;
      FirstMatchIsFirst(NamesAt(7), "F", 1);
    }
  }

  lemma CoversG(shift: int)
    requires -2 <= shift <= 2
    ensures FirstMatch(NamesAt(NearPitch(4, shift)), "G") >= 0
  {
    if shift == -2 {
      assert NearPitch(4, shift) == 5;
      FirstMatchIsFirst(NamesAt(5), "G", 2);
    } else if shift == -1 {
      assert NearPitch(4, shift) == 6;
      FirstMatchIsFirst(NamesAt(6), "G", 1);
    } else if shift == 0 {
      assert NearPitch(4, shift) == 7;
      FirstMatchIsFirst(NamesAt(7), "G", 0);
    } else if shift == 1 {
      assert NearPitch(4, shift) == 8;
      FirstMatchIsFirst(NamesAt(8), "G", 0);
    } else {
      assert NearPitch(4, shift) == 9;
      FirstMatchIsFirst(NamesAt(9), "G", 1);
    }
  }

  lemma CoversA(shift: int)
    requires -2 <= shift <= 2
    ensures FirstMatch(NamesAt(NearPitch(5, shift)), "A") >= 0
  {
    if shift == -2 {
      assert NearPitch(5, shift) == 7;
      FirstMatchIsFirst(NamesAt(7), "A", 2);
    } else if shift == -1 {
      assert NearPitch(5, shift) == 8;
      FirstMatchIsFirst(NamesAt(8), "A", 1);
    } else if shift == 0 {
      assert NearPitch(5, shift) == 9;
      FirstMatchIsFirst(NamesAt(9), "A", 0);
    } else if shift == 1 {
      assert NearPitch(5, shift) == 10;
      FirstMatchIsFirst(NamesAt(10), "A", 0);
    } else {
      assert NearPitch(5, shift) == 11;
      FirstMatchIsFirst(NamesAt(11), "A", 1);
    }
  }

  lemma CoversB(shift: int)
    requires -2 <= shift <= 2
    ensures FirstMatch(NamesAt(NearPitch(6, shift)), "B") >= 0
  {
    if shift == -2 {
      assert NearPitch(6, shift) == 9;
      FirstMatchIsFirst(NamesAt(9), "B", 2);
    } else if shift == -1 {
      assert NearPitch(6, shift) == 10;
      FirstMatchIsFirst(NamesAt(10), "B", 1);
    } else if shift == 0 {
      assert NearPitch(6, shift) == 11;
      FirstMatchIsFirst(NamesAt(11), "B", 0);
    } else if shift == 1 {
      assert NearPitch(6, shift) == 0;
      FirstMatchIsFirst(NamesAt(0), "B", 1);
    } else {
      assert NearPitch(6, shift) == 1;
      FirstMatchIsFirst(NamesAt(1), "B", 2);
    }
  }

  /** Each chromatic tonic of `valueNoteMap` is a natural or a single
      sharp. */
  lemma ValueNoteMapSingle(k: int)
    requires 0 <= k < 12
    ensures SingleAccidental(ValueNoteMap[k])
  {
    assert ValueNoteMap[k] in ValueNoteMap;
  }

  /** Every mode stays within a semitone of the natural letters: from any
      natural tonic, each of its first seven degrees needs at most one
      accidental on the letter it is written on. */
  lemma ScaleIntervalsNearNatural(mode: string)
    requires mode in ScaleIntervals
    ensures NearNatural(ScaleIntervals[mode])
  {
    if mode == "Major" {
      MajorNearNatural(ScaleIntervals[mode]);
    } else if mode == "Natural Minor" {
      NaturalMinorNearNatural(ScaleIntervals[mode]);
    } else if mode == "Harmonic Minor" {
      HarmonicMinorNearNatural(ScaleIntervals[mode]);
    } else {
      MelodicMinorNearNatural(ScaleIntervals[mode]);
    }
  }

  lemma MajorNearNatural(offsets: seq<int>)
    requires offsets == [0, 2, 4, 5, 7, 9, 11, 12]
    ensures NearNatural(offsets)
  {
    assert NearFrom([0, 2, 4, 5, 7, 9, 11, 12], 0, 0);
    NearFromNatural(offsets);
  }

  lemma NaturalMinorNearNatural(offsets: seq<int>)
    requires offsets == [0, 2, 3, 5, 7, 8, 10, 12]
    ensures NearNatural(offsets)
  {
    assert NearFrom([0, 2, 3, 5, 7, 8, 10, 12], 0, 0);
    NearFromNatural(offsets);
  }

  lemma HarmonicMinorNearNatural(offsets: seq<int>)
    requires offsets == [0, 2, 3, 5, 7, 8, 11, 12]
    ensures NearNatural(offsets)
  {
    assert NearFrom([0, 2, 3, 5, 7, 8, 11, 12], 0, 0);
    NearFromNatural(offsets);
  }

  lemma MelodicMinorNearNatural(offsets: seq<int>)
    requires offsets == [0, 2, 3, 5, 7, 9, 11, 12]
    ensures NearNatural(offsets)
  {
    assert NearFrom([0, 2, 3, 5, 7, 9, 11, 12], 0, 0);
    NearFromNatural(offsets);
  }

  /** Just the length, for proofs that need no more. */
  lemma ScaleIntervalsLength(mode: string)
    requires mode in ScaleIntervals
    ensures |ScaleIntervals[mode]| == 8
  {
    ScaleIntervalsShape(mode);
  }

  /** Every chord quality is 3 or 4 strictly increasing offsets from 0, all
      within the octave. */
  lemma ChordOffsetsShape(chordType: string)
    requires chordType in ChordOffsetMap
    ensures |ChordOffsetMap[chordType]| == 3 || |ChordOffsetMap[chordType]| == 4
    ensures IncreasingFromZero(ChordOffsetMap[chordType], 12)
    ensures forall k | 0 <= k < |ChordOffsetMap[chordType]| :: 0 <= ChordOffsetMap[chordType][k] < 12
  {
    IncreasingBounds(ChordOffsetMap[chordType], 12);
  }

  /** Both token tables give exactly 7 tokens for each of the four modes. */
  lemma ChordTypesShape()
    ensures ChordTypes7.Keys == ScaleIntervals.Keys && ChordTypes3.Keys == ScaleIntervals.Keys
    ensures forall m | m in ChordTypes7 :: |ChordTypes7[m]| == 7 && |ChordTypes3[m]| == 7
  {
  }

  /** `semitoneToInterval` covers 0..12 with `P1/P8`, `A4/d5` and `P8` at 0, 6
      and 12, and names 0..11 canonically. */
  lemma SemitoneToIntervalShape()
    ensures forall k :: k in SemitoneToInterval <==> 0 <= k <= 12
    ensures SemitoneToInterval[0] == "P1/P8" && SemitoneToInterval[6] == "A4/d5" && SemitoneToInterval[12] == "P8"
    ensures CanonicalLabels(SemitoneToInterval)
    ensures forall k | 0 <= k < 12 :: SemitoneToInterval[k] != "P8"
  {
  }
}
