/** The tables of the older engine inline in `index.tsx` (its lines 17-74),
    and the facts about them that engine relies on. */
module InlineConstants {
  import opened Theory
  import opened Spelling
  import KingConstants
  import Constants

  /** `noteValueMap`: the same 17 spellings as the sharps-only engine's. */
  const NoteValueMap: map<string, int> := map[
    "C" := 0, "C#" := 1, "Db" := 1, "D" := 2, "D#" := 3, "Eb" := 3, "E" := 4, "F" := 5,
    "F#" := 6, "Gb" := 6, "G" := 7, "G#" := 8, "Ab" := 8, "A" := 9, "A#" := 10, "Bb" := 10, "B" := 11
  ]

  /** `valueNoteMap`: here the flat-or-natural spelling of each pitch class. */
  const ValueNoteMap: seq<string> := ["C", "Db", "D", "Eb", "E", "F", "Gb", "G", "Ab", "A", "Bb", "B"]

  /** `semitoneToInterval`: the distances 0..11 only. */
  const SemitoneToInterval: map<int, string> := map[
    0 := "P1/P8", 1 := "m2", 2 := "M2", 3 := "m3", 4 := "M3", 5 := "P4", 6 := "A4/d5",
    7 := "P5", 8 := "m6", 9 := "M6", 10 := "m7", 11 := "M7"
  ]

  /** `midiToNoteNames`: the spellings of each pitch class, flat or natural
      first, double sharps written `##`. */
  const MidiToNoteNames: map<int, seq<string>> := map[
    0 := ["C", "B#", "Dbb"], 1 := ["Db", "C#", "B##"], 2 := ["D", "C##", "Ebb"],
    3 := ["Eb", "D#", "Fbb"], 4 := ["E", "Fb", "D##"], 5 := ["F", "E#", "Gbb"],
    6 := ["Gb", "F#", "E##"], 7 := ["G", "F##", "Abb"], 8 := ["Ab", "G#"],
    9 := ["A", "G##", "Bbb"], 10 := ["Bb", "A#", "Cbb"], 11 := ["B", "Cb", "A##"]
  ]

  /** `chordOffsetMap`: the offsets of each quality code and triad token. */
  const ChordOffsetMap: map<string, seq<int>> := map[
    "maj7" := [0, 4, 7, 11], "m7" := [0, 3, 7, 10], "7" := [0, 4, 7, 10], "m7(b5)" := [0, 3, 6, 10],
    "dim7" := [0, 3, 6, 9], "mMaj7" := [0, 3, 7, 11], "maj7#5" := [0, 4, 8, 11],
    "I" := [0, 4, 7], "i" := [0, 3, 7], "ii" := [0, 3, 7], "iii" := [0, 3, 7], "IV" := [0, 4, 7], "V" := [0, 4, 7],
    "vi" := [0, 3, 7], "ii°" := [0, 3, 6], "vii°" := [0, 3, 6], "III+" := [0, 4, 8], "v" := [0, 3, 7],
    "vi°" := [0, 3, 6], "VI" := [0, 4, 7], "VII" := [0, 4, 7], "iv" := [0, 3, 7], "III" := [0, 4, 7]
  ]

  /** `scaleIntervals` */
  const ScaleIntervals: map<string, seq<int>> := map[
    "Major" := [0, 2, 4, 5, 7, 9, 11, 12],
    "Natural Minor" := [0, 2, 3, 5, 7, 8, 10, 12],
    "Harmonic Minor" := [0, 2, 3, 5, 7, 8, 11, 12],
    "Melodic Minor" := [0, 2, 3, 5, 7, 9, 11, 12]
  ]

  /** `chordTypes7`: here the quality code of each degree's seventh chord. */
  const ChordTypes7: map<string, seq<string>> := map[
    "Major" := ["maj7", "m7", "m7", "maj7", "7", "m7", "m7(b5)"],
    "Natural Minor" := ["m7", "m7(b5)", "maj7", "m7", "m7", "maj7", "7"],
    "Harmonic Minor" := ["mMaj7", "m7(b5)", "maj7#5", "m7", "7", "maj7", "dim7"],
    "Melodic Minor" := ["mMaj7", "m7", "maj7#5", "7", "7", "m7(b5)", "7"]
  ]

  /** `chordTypes3` */
  const ChordTypes3: map<string, seq<string>> := map[
    "Major" := ["I", "ii", "iii", "IV", "V", "vi", "vii°"],
    "Natural Minor" := ["i", "ii°", "III", "iv", "v", "VI", "VII"],
    "Harmonic Minor" := ["i", "ii°", "III+", "iv", "V", "VI", "vii°"],
    "Melodic Minor" := ["i", "ii", "III+", "iv", "V", "vi°", "vii°"]
  ]

  /** `modeRomans`: the roman numeral of each degree. */
  const ModeRomans: map<string, seq<string>> := map[
    "Major" := ["I", "ii", "iii", "IV", "V", "vi", "vii°"],
    "Natural Minor" := ["i", "ii°", "III", "iv", "v", "VI", "VII"],
    "Harmonic Minor" := ["i", "ii°", "III+", "iv", "V", "VI", "vii°"],
    "Melodic Minor" := ["i", "ii", "III+", "iv", "V", "vi°", "vii°"]
  ]

  /** `modeFunctions`: the harmonic function of each degree (tonic,
      predominant, dominant). */
  const ModeFunctions: map<string, seq<string>> := map[
    "Major" := ["T", "PD", "T", "PD", "D", "T", "D"],
    "Natural Minor" := ["T", "PD", "T", "PD", "D", "T", "PD"],
    "Harmonic Minor" := ["T", "PD", "T", "PD", "D", "PD/T", "D"],
    "Melodic Minor" := ["T", "PD", "T", "PD", "D", "PD", "D"]
  ]

  /** One entry of `modalDataMap`: the mode name on each degree and the
      scale positions to avoid in it. */
  datatype ModalData = ModalData(names: seq<string>, avoids: seq<seq<int>>)

  /** `modalDataMap` */
  const ModalDataMap: map<string, ModalData> := map[
    "Major" := ModalData(["Ionian", "Dorian", "Phrygian", "Lydian", "Mixolydian", "Aeolian", "Locrian"],
                         [[3], [], [1, 5], [], [3], [5], [1]]),
    "Natural Minor" := ModalData(["Aeolian", "Locrian", "Ionian", "Dorian", "Phrygian", "Lydian", "Mixolydian"],
                                 [[5], [1], [3], [], [1, 5], [], [3]]),
    "Harmonic Minor" := ModalData(["Harmonic Minor", "Locrian nat6", "Ionian #5", "Dorian #4", "Phrygian Dom", "Lydian #2", "Altered bb7"],
                                  [[5], [1], [3, 5], [], [1, 3, 5], [], [1, 2]]),
    "Melodic Minor" := ModalData(["Melodic Minor", "Dorian b2", "Lydian Aug", "Lydian Dom", "Mixolydian b6", "Locrian nat2", "Altered Scale"],
                                 [[], [1], [5], [], [3], [], [1, 3]])
  ]

  /** `midiToNoteNames[v] || []` */
  function NamesAt(v: int): seq<string> {
    ListedAt(MidiToNoteNames, v)
  }

  /** The candidate list of pitch class v, checked one class at a time: its
      shape, and every spelling on it denoting v. */
  predicate PitchClassFacts(v: int) {
    ClassListed(MidiToNoteNames, ValueNoteMap, v) && AllDenote(NamesAt(v), v)
  }

  /** The spellings listed under class 0 all denote 0: the literal list alone, split off so each check stays small. */
  lemma PitchDenotes0()
    ensures AllDenote(["C", "B#", "Dbb"], 0)
  {
  }

  /** `PitchClassFacts` for class 0 alone. */
  lemma PitchClass0()
    ensures PitchClassFacts(0)
  {
    PitchDenotes0();
    assert NamesAt(0) == ["C", "B#", "Dbb"];
  }

  /** The spellings listed under class 1 all denote 1: the literal list alone, split off so each check stays small. */
  lemma PitchDenotes1()
    ensures AllDenote(["Db", "C#", "B##"], 1)
  {
  }

  /** `PitchClassFacts` for class 1 alone. */
  lemma PitchClass1()
    ensures PitchClassFacts(1)
  {
    PitchDenotes1();
    assert NamesAt(1) == ["Db", "C#", "B##"];
  }

  /** The spellings listed under class 2 all denote 2: the literal list alone, split off so each check stays small. */
  lemma PitchDenotes2()
    ensures AllDenote(["D", "C##", "Ebb"], 2)
  {
  }

  /** `PitchClassFacts` for class 2 alone. */
  lemma PitchClass2()
    ensures PitchClassFacts(2)
  {
    PitchDenotes2();
    assert NamesAt(2) == ["D", "C##", "Ebb"];
  }

  /** The spellings listed under class 3 all denote 3: the literal list alone, split off so each check stays small. */
  lemma PitchDenotes3()
    ensures AllDenote(["Eb", "D#", "Fbb"], 3)
  {
  }

  /** `PitchClassFacts` for class 3 alone. */
  lemma PitchClass3()
    ensures PitchClassFacts(3)
  {
    PitchDenotes3();
    assert NamesAt(3) == ["Eb", "D#", "Fbb"];
  }

  /** The spellings listed under class 4 all denote 4: the literal list alone, split off so each check stays small. */
  lemma PitchDenotes4()
    ensures AllDenote(["E", "Fb", "D##"], 4)
  {
  }

  /** `PitchClassFacts` for class 4 alone. */
  lemma PitchClass4()
    ensures PitchClassFacts(4)
  {
    PitchDenotes4();
    assert NamesAt(4) == ["E", "Fb", "D##"];
  }

  /** The spellings listed under class 5 all denote 5: the literal list alone, split off so each check stays small. */
  lemma PitchDenotes5()
    ensures AllDenote(["F", "E#", "Gbb"], 5)
  {
  }

  /** `PitchClassFacts` for class 5 alone. */
  lemma PitchClass5()
    ensures PitchClassFacts(5)
  {
    PitchDenotes5();
    assert NamesAt(5) == ["F", "E#", "Gbb"];
  }

  /** The spellings listed under class 6 all denote 6: the literal list alone, split off so each check stays small. */
  lemma PitchDenotes6()
    ensures AllDenote(["Gb", "F#", "E##"], 6)
  {
  }

  /** `PitchClassFacts` for class 6 alone. */
  lemma PitchClass6()
    ensures PitchClassFacts(6)
  {
    PitchDenotes6();
    assert NamesAt(6) == ["Gb", "F#", "E##"];
  }

  /** The spellings listed under class 7 all denote 7: the literal list alone, split off so each check stays small. */
  lemma PitchDenotes7()
    ensures AllDenote(["G", "F##", "Abb"], 7)
  {
  }

  /** `PitchClassFacts` for class 7 alone. */
  lemma PitchClass7()
    ensures PitchClassFacts(7)
  {
    PitchDenotes7();
    assert NamesAt(7) == ["G", "F##", "Abb"];
  }

  /** The spellings listed under class 8 all denote 8: the literal list alone, split off so each check stays small. */
  lemma PitchDenotes8()
    ensures AllDenote(["Ab", "G#"], 8)
  {
  }

  /** `PitchClassFacts` for class 8 alone. */
  lemma PitchClass8()
    ensures PitchClassFacts(8)
  {
    PitchDenotes8();
    assert NamesAt(8) == ["Ab", "G#"];
  }

  /** The spellings listed under class 9 all denote 9: the literal list alone, split off so each check stays small. */
  lemma PitchDenotes9()
    ensures AllDenote(["A", "G##", "Bbb"], 9)
  {
  }

  /** `PitchClassFacts` for class 9 alone. */
  lemma PitchClass9()
    ensures PitchClassFacts(9)
  {
    PitchDenotes9();
    assert NamesAt(9) == ["A", "G##", "Bbb"];
  }

  /** The spellings listed under class 10 all denote 10: the literal list alone, split off so each check stays small. */
  lemma PitchDenotes10()
    ensures AllDenote(["Bb", "A#", "Cbb"], 10)
  {
  }

  /** `PitchClassFacts` for class 10 alone. */
  lemma PitchClass10()
    ensures PitchClassFacts(10)
  {
    PitchDenotes10();
    assert NamesAt(10) == ["Bb", "A#", "Cbb"];
  }

  /** The spellings listed under class 11 all denote 11: the literal list alone, split off so each check stays small. */
  lemma PitchDenotes11()
    ensures AllDenote(["B", "Cb", "A##"], 11)
  {
  }

  /** `PitchClassFacts` for class 11 alone. */
  lemma PitchClass11()
    ensures PitchClassFacts(11)
  {
    PitchDenotes11();
    assert NamesAt(11) == ["B", "Cb", "A##"];
  }

  /** Class 11 alone starts the chain of suffixes. */
  lemma ClassesFrom11()
    ensures ClassesFrom(MidiToNoteNames, ValueNoteMap, 11) && DenoteFrom(MidiToNoteNames, 11)
  {
    PitchClass11();
  }

  /** Classes 10..11: class 10 added to the classes above it. */
  lemma ClassesFrom10()
    ensures ClassesFrom(MidiToNoteNames, ValueNoteMap, 10) && DenoteFrom(MidiToNoteNames, 10)
  {
    ClassesFrom11(); PitchClass10();
  }

  /** Classes 9..11: class 9 added to the classes above it. */
  lemma ClassesFrom9()
    ensures ClassesFrom(MidiToNoteNames, ValueNoteMap, 9) && DenoteFrom(MidiToNoteNames, 9)
  {
    ClassesFrom10(); PitchClass9();
  }

  /** Classes 8..11: class 8 added to the classes above it. */
  lemma ClassesFrom8()
    ensures ClassesFrom(MidiToNoteNames, ValueNoteMap, 8) && DenoteFrom(MidiToNoteNames, 8)
  {
    ClassesFrom9(); PitchClass8();
  }

  /** Classes 7..11: class 7 added to the classes above it. */
  lemma ClassesFrom7()
    ensures ClassesFrom(MidiToNoteNames, ValueNoteMap, 7) && DenoteFrom(MidiToNoteNames, 7)
  {
    ClassesFrom8(); PitchClass7();
  }

  /** Classes 6..11: class 6 added to the classes above it. */
  lemma ClassesFrom6()
    ensures ClassesFrom(MidiToNoteNames, ValueNoteMap, 6) && DenoteFrom(MidiToNoteNames, 6)
  {
    ClassesFrom7(); PitchClass6();
  }

  /** Classes 5..11: class 5 added to the classes above it. */
  lemma ClassesFrom5()
    ensures ClassesFrom(MidiToNoteNames, ValueNoteMap, 5) && DenoteFrom(MidiToNoteNames, 5)
  {
    ClassesFrom6(); PitchClass5();
  }

  /** Classes 4..11: class 4 added to the classes above it. */
  lemma ClassesFrom4()
    ensures ClassesFrom(MidiToNoteNames, ValueNoteMap, 4) && DenoteFrom(MidiToNoteNames, 4)
  {
    ClassesFrom5(); PitchClass4();
  }

  /** Classes 3..11: class 3 added to the classes above it. */
  lemma ClassesFrom3()
    ensures ClassesFrom(MidiToNoteNames, ValueNoteMap, 3) && DenoteFrom(MidiToNoteNames, 3)
  {
    ClassesFrom4(); PitchClass3();
  }

  /** Classes 2..11: class 2 added to the classes above it. */
  lemma ClassesFrom2()
    ensures ClassesFrom(MidiToNoteNames, ValueNoteMap, 2) && DenoteFrom(MidiToNoteNames, 2)
  {
    ClassesFrom3(); PitchClass2();
  }

  /** Classes 1..11: class 1 added to the classes above it. */
  lemma ClassesFrom1()
    ensures ClassesFrom(MidiToNoteNames, ValueNoteMap, 1) && DenoteFrom(MidiToNoteNames, 1)
  {
    ClassesFrom2(); PitchClass1();
  }

  /** Classes 0..11: class 0 added to the classes above it. */
  lemma ClassesFrom0()
    ensures ClassesFrom(MidiToNoteNames, ValueNoteMap, 0) && DenoteFrom(MidiToNoteNames, 0)
  {
    ClassesFrom1(); PitchClass0();
  }

  lemma MidiKeys()
    ensures forall v :: v in MidiToNoteNames ==> 0 <= v < 12
  {
  }

  /** `midiToNoteNames` covers exactly 0..11; within one class no two
      spellings share a leading letter; `valueNoteMap[v]` is the first
      spelling of v; and every spelling listed under v denotes v. */
  lemma MidiSpellings()
    ensures Spellings(MidiToNoteNames, ValueNoteMap) && DenotingTable(MidiToNoteNames)
  {
    ClassesFrom0();
    MidiKeys();
    TwelveClasses(MidiToNoteNames, ValueNoteMap);
    TwelveDenote(MidiToNoteNames);
  }

  lemma MidiListedLength()
    ensures |ListedFrom(MidiToNoteNames, 0)| == 35
  {
  }

  /** The candidate lists hold 35 spellings, pairwise different. */
  lemma MidiSpellingCount()
    ensures |ListedFrom(MidiToNoteNames, 0)| == 35
    ensures |set n | n in ListedFrom(MidiToNoteNames, 0)| == 35
    ensures DisjointPitches(MidiToNoteNames)
  {
    MidiListedLength();
    MidiSpellings();
    SpellingsCount(MidiToNoteNames, ValueNoteMap);
    DenotingDisjoint(MidiToNoteNames);
  }

  /** Like the letter-aware engine's table, `midiToNoteNames` lists every
      spelling with at most a double accidental (`##` for the double sharp):
      each pitch class within two semitones of a natural letter has a
      candidate on that letter. */
  lemma MidiCoversNear()
    ensures CoversNear(MidiToNoteNames)
  {
    forall l, shift | 0 <= l < 7 && -2 <= shift <= 2
      ensures FirstMatch(ListedAt(MidiToNoteNames, NearPitch(l, shift)), BaseNotes[l]) >= 0
    {
      if l == 0 { CoversC(shift); }
      else if l == 1 { CoversD(shift); }
      else if l == 2 { CoversE(shift); }
      else if l == 3 { CoversF(shift); }
      else if l == 4 { CoversG(shift); }
      else if l == 5 { CoversA(shift); }
      else { CoversB(shift); }
    }
  }

  /** Letter by letter: the candidate on the letter for each shift. */
  lemma CoversC(shift: int)
    requires -2 <= shift <= 2
    ensures FirstMatch(NamesAt(NearPitch(0, shift)), "C") >= 0
  {
    if shift == -2 {
      assert NearPitch(0, shift) == 10;
      FirstMatchIsFirst(NamesAt(10), "C", 2);
    } else if shift == -1 {
      assert NearPitch(0, shift) == 11;
      FirstMatchIsFirst(NamesAt(11), "C", 1);
    } else if shift == 0 {
      assert NearPitch(0, shift) == 0;
      FirstMatchIsFirst(NamesAt(0), "C", 0);
    } else if shift == 1 {
      assert NearPitch(0, shift) == 1;
      FirstMatchIsFirst(NamesAt(1), "C", 1);
    } else {
      assert NearPitch(0, shift) == 2;
      FirstMatchIsFirst(NamesAt(2), "C", 1);
    }
  }

  lemma CoversD(shift: int)
    requires -2 <= shift <= 2
    ensures FirstMatch(NamesAt(NearPitch(1, shift)), "D") >= 0
  {
    if shift == -2 {
      assert NearPitch(1, shift) == 0;
      FirstMatchIsFirst(NamesAt(0), "D", 2);
    } else if shift == -1 {
      assert NearPitch(1, shift) == 1;
      FirstMatchIsFirst(NamesAt(1), "D", 0);
    } else if shift == 0 {
      assert NearPitch(1, shift) == 2;
      FirstMatchIsFirst(NamesAt(2), "D", 0);
    } else if shift == 1 {
      assert NearPitch(1, shift) == 3;
      FirstMatchIsFirst(NamesAt(3), "D", 1);
    } else {
      assert NearPitch(1, shift) == 4;
      FirstMatchIsFirst(NamesAt(4), "D", 2);
    }
  }

  lemma CoversE(shift: int)
    requires -2 <= shift <= 2
    ensures FirstMatch(NamesAt(NearPitch(2, shift)), "E") >= 0
  {
    if shift == -2 {
      assert NearPitch(2, shift) == 2;
      FirstMatchIsFirst(NamesAt(2), "E", 2);
    } else if shift == -1 {
      assert NearPitch(2, shift) == 3;
      FirstMatchIsFirst(NamesAt(3), "E", 0);
    } else if shift == 0 {
      assert NearPitch(2, shift) == 4;
      FirstMatchIsFirst(NamesAt(4), "E", 0);
    } else if shift == 1 {
      assert NearPitch(2, shift) == 5;
      FirstMatchIsFirst(NamesAt(5), "E", 1);
    } else {
      assert NearPitch(2, shift) == 6;
      FirstMatchIsFirst(NamesAt(6), "E", 2);
    }
  }

  lemma CoversF(shift: int)
    requires -2 <= shift <= 2
    ensures FirstMatch(NamesAt(NearPitch(3, shift)), "F") >= 0
  {
    if shift == -2 {
      assert NearPitch(3, shift) == 3;
      FirstMatchIsFirst(NamesAt(3), "F", 2);
    } else if shift == -1 {
      assert NearPitch(3, shift) == 4;
      FirstMatchIsFirst(NamesAt(4), "F", 1);
    } else if shift == 0 {
      assert NearPitch(3, shift) == 5;
      FirstMatchIsFirst(NamesAt(5), "F", 0);
    } else if shift == 1 {
      assert NearPitch(3, shift) == 6;
      FirstMatchIsFirst(NamesAt(6), "F", 1);
    } else {
      assert NearPitch(3, shift) == 7;
      FirstMatchIsFirst(NamesAt(7), "F", 1);
    }
  }

  lemma CoversG(shift: int)
    requires -2 <= shift <= 2
    ensures FirstMatch(NamesAt(NearPitch(4, shift)), "G") >= 0
  {
    if shift == -2 {
      assert NearPitch(4, shift) == 5;
      FirstMatchIsFirst(NamesAt(5), "G", 2);
    } else if shift == -1 {
      assert NearPitch(4, shift) == 6;
      FirstMatchIsFirst(NamesAt(6), "G", 0);
    } else if shift == 0 {
      assert NearPitch(4, shift) == 7;
      FirstMatchIsFirst(NamesAt(7), "G", 0);
    } else if shift == 1 {
      assert NearPitch(4, shift) == 8;
      FirstMatchIsFirst(NamesAt(8), "G", 1);
    } else {
      assert NearPitch(4, shift) == 9;
      FirstMatchIsFirst(NamesAt(9), "G", 1);
    }
  }

  lemma CoversA(shift: int)
    requires -2 <= shift <= 2
    ensures FirstMatch(NamesAt(NearPitch(5, shift)), "A") >= 0
  {
    if shift == -2 {
      assert NearPitch(5, shift) == 7;
      FirstMatchIsFirst(NamesAt(7), "A", 2);
    } else if shift == -1 {
      assert NearPitch(5, shift) == 8;
      FirstMatchIsFirst(NamesAt(8), "A", 0);
    } else if shift == 0 {
      assert NearPitch(5, shift) == 9;
      FirstMatchIsFirst(NamesAt(9), "A", 0);
    } else if shift == 1 {
      assert NearPitch(5, shift) == 10;
      FirstMatchIsFirst(NamesAt(10), "A", 1);
    } else {
      assert NearPitch(5, shift) == 11;
      FirstMatchIsFirst(NamesAt(11), "A", 2);
    }
  }

  lemma CoversB(shift: int)
    requires -2 <= shift <= 2
    ensures FirstMatch(NamesAt(NearPitch(6, shift)), "B") >= 0
  {
    if shift == -2 {
      assert NearPitch(6, shift) == 9;
      FirstMatchIsFirst(NamesAt(9), "B", 2);
    } else if shift == -1 {
      assert NearPitch(6, shift) == 10;
      FirstMatchIsFirst(NamesAt(10), "B", 0);
    } else if shift == 0 {
      assert NearPitch(6, shift) == 11;
      FirstMatchIsFirst(NamesAt(11), "B", 0);
    } else if shift == 1 {
      assert NearPitch(6, shift) == 0;
      FirstMatchIsFirst(NamesAt(0), "B", 1);
    } else {
      assert NearPitch(6, shift) == 1;
      FirstMatchIsFirst(NamesAt(1), "B", 2);
    }
  }

  /** `noteValueMap` is the sharps-only engine's table, so its spellings
      denote their values. */
  lemma SameNoteValues()
    ensures NoteValueMap == KingConstants.NoteValueMap
    ensures SpelledValues(NoteValueMap) && PitchTable(NoteValueMap)
  {
    KingConstants.NoteValueSpelled();
  }

  /** `valueNoteMap` has 12 entries, each a key of `noteValueMap` mapping
      back to its own position. */
  lemma ValueNoteMapInverse()
    ensures |ValueNoteMap| == 12
    ensures forall k | 0 <= k < 12 :: ValueNoteMap[k] in NoteValueMap && NoteValueMap[ValueNoteMap[k]] == k
  {
  }

  /** `valueNoteMap[v]` is the first candidate listed for v. */
  lemma ValueNoteMapFirsts()
    ensures forall k | 0 <= k < 12 :: ValueNoteMap[k] == NamesAt(k)[0]
  {
    MidiSpellings();
  }

  /** `scaleIntervals` and `chordTypes3` are the sharps-only engine's
      tables, and `modeRomans` repeats `chordTypes3`. */
  lemma SameAsKingTables()
    ensures ScaleIntervals == KingConstants.ScaleIntervals
    ensures ChordTypes3 == KingConstants.ChordTypes3
    ensures ModeRomans == ChordTypes3
    ensures forall k | 0 <= k < 12 :: SemitoneToInterval[k] == KingConstants.SemitoneToInterval[k]
  {
  }

  /** Every mode stays within one semitone of the natural letters from
      every starting letter, as the letter-aware engine's modes do. */
  lemma ScaleIntervalsNearNatural(mode: string)
    requires mode in ScaleIntervals
    ensures NearNatural(ScaleIntervals[mode])
  {
    SameAsKingTables();
    KingConstants.SameAsMainTables();
    Constants.ScaleIntervalsNearNatural(mode);
  }

  /** A key of `noteValueMap` is its letter moved by at most one
      accidental. */
  lemma KeyShift(tonic: string) returns (shift: int)
    requires tonic in NoteValueMap
    ensures 0 <= LetterIndex(tonic) < 7 && -1 <= shift <= 1
    ensures NoteValueMap[tonic] == (NaturalPitch[LetterIndex(tonic)] + shift) % 12
  {
    SameNoteValues();
    KingConstants.KeySingleAccidental(tonic);
    KingConstants.KeySpelled(tonic);
    shift := SpelledShift(tonic, NoteValueMap[tonic]);
  }

  /** `semitoneToInterval` covers exactly 0..11 and names them canonically;
      there is no entry for the octave. */
  lemma SemitoneToIntervalShape()
    ensures forall k :: k in SemitoneToInterval <==> 0 <= k < 12
    ensures CanonicalLabels(SemitoneToInterval)
  {
    SemitoneToIntervalKeys();
    SameAsKingTables();
    KingConstants.SemitoneToIntervalShape();
    CanonicalAgrees(SemitoneToInterval, KingConstants.SemitoneToInterval);
  }

  /** The keys of `semitoneToInterval` are exactly 0..11. */
  lemma SemitoneToIntervalKeys()
    ensures forall k :: k in SemitoneToInterval <==> 0 <= k < 12
  {
  }

  /** The unison and the tritone entries. */
  lemma SemitoneToIntervalEnds()
    ensures 0 in SemitoneToInterval && SemitoneToInterval[0] == "P1/P8"
    ensures 6 in SemitoneToInterval && SemitoneToInterval[6] == "A4/d5"
  {
  }

  /** Every mode is 8 strictly increasing offsets from 0 to the octave. */
  lemma ScaleIntervalsShape(mode: string)
    requires mode in ScaleIntervals
    ensures |ScaleIntervals[mode]| == 8 && IncreasingFromZero(ScaleIntervals[mode], 13) && ScaleIntervals[mode][7] == 12
    ensures forall k | 0 <= k < 8 :: 0 <= ScaleIntervals[mode][k] <= 12
  {
    SameAsKingTables();
    KingConstants.ScaleIntervalsShape(mode);
  }

  /** Just the length, for proofs that need no more. */
  lemma ScaleIntervalsLength(mode: string)
    requires mode in ScaleIntervals
    ensures |ScaleIntervals[mode]| == 8
  {
    ScaleIntervalsShape(mode);
  }

  /** Every entry of `chordOffsetMap` is 3 or 4 strictly increasing offsets
      from 0 below 12. */
  lemma ChordOffsetsShape(chordType: string)
    requires chordType in ChordOffsetMap
    ensures |ChordOffsetMap[chordType]| == 3 || |ChordOffsetMap[chordType]| == 4
    ensures IncreasingFromZero(ChordOffsetMap[chordType], 12)
    ensures forall k | 0 <= k < |ChordOffsetMap[chordType]| :: 0 <= ChordOffsetMap[chordType][k] < 12
  {
    IncreasingBounds(ChordOffsetMap[chordType], 12);
  }

  /** Every mode has 7 quality codes, 7 triad tokens, 7 functions, 7 mode
      names and 7 avoid lists. */
  lemma ModeTablesShape()
    ensures ChordTypes7.Keys == ScaleIntervals.Keys && ChordTypes3.Keys == ScaleIntervals.Keys
    ensures ModeFunctions.Keys == ScaleIntervals.Keys && ModalDataMap.Keys == ScaleIntervals.Keys
    ensures forall m | m in ScaleIntervals ::
              && |ChordTypes7[m]| == 7 && |ChordTypes3[m]| == 7 && |ModeFunctions[m]| == 7
              && |ModalDataMap[m].names| == 7 && |ModalDataMap[m].avoids| == 7
  {
  }

  /** Every avoid position of a mode is a scale degree 0..6. */
  lemma AvoidsAreDegrees(mode: string, d: int, k: int)
    requires mode in ModalDataMap && 0 <= d < |ModalDataMap[mode].avoids| && 0 <= k < |ModalDataMap[mode].avoids[d]|
    ensures 0 <= ModalDataMap[mode].avoids[d][k] < 7
  {
  }

  /** Every quality code and every triad token the tables use has offsets
      in `chordOffsetMap`. */
  lemma TokensHaveOffsets(mode: string, degree: int)
    requires mode in ScaleIntervals && 0 <= degree < 7
    ensures ChordTypes7[mode][degree] in ChordOffsetMap
    ensures ChordTypes3[mode][degree] in ChordOffsetMap
  {
  }
}
