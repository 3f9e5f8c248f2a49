# music-theory-king, the note-spelling and chord engine

music-theory-king is a music-theory trainer. Under its views sits a small
engine built on lookup tables. It:

- spells a pitch class (0..11) as a note name;
- builds the seven degrees of a scale from a tonic and a mode;
- names the interval between two notes;
- resolves a roman-numeral token such as `VIIm7(b5)` to a chord-quality code;
- spells that chord's tones on a root.

The repository carries three versions of the engine. This project models all three:

- **Letter-aware engine**: `services/musicLogic.ts` over the tables of
  `constants.ts`. Degree i of a scale is spelled on the letter i steps above
  the tonic's letter, and chord tone i on the letter 2i steps above the
  root's, whenever the pitch class has a spelling on that letter. The
  tritone is named `A4` or `d5` by the letter distance.
- **Sharps-only engine**: `music-theory-king/docs/utils.ts` over
  `music-theory-king/docs/constants.ts`. It uses the same interval rule and
  the same chord-type chain. Scales and chords are read straight from the
  sharp spelling of each pitch class, and `formatChordDisplay` renders a
  chord label.
- **Older inline engine** in `index.tsx`. Its helpers are the letter-aware
  `getSpelledNote` and `calculateScale` over flat-first tables, the
  secondary dominant of a degree, a bare interval lookup, and the rotation
  of a parent scale into the mode on each degree (the only loop, modelled as
  a `method` with a `while` loop).

Every operation of the engine is a pure computation over read-only tables. So
each is a Dafny `function`, and the properties are `ensures` clauses and
lemmas. The one exception is the rotation loop, which is a `method`.

## Layout

| file | module | models |
|---|---|---|
| `Strings.dfy` | `Strings` | the JavaScript string operations used: `startsWith`, `includes`, first-occurrence `replace`, `replace(/[IVX]/g, '')`, `indexOf`, `slice`, ASCII `toUpperCase`/`toLowerCase` |
| `Theory.dfy` | `Theory` | the natural letters, a spelling's letter, the pitch class a spelling denotes by the rules of notation (the reference the tables are checked against), and both interval rules, parameterised by the tables |
| `Spelling.dfy` | `Spelling` | `find(startsWith) \|\| names[0] \|\| '?'` over a candidate table, what a complete candidate table guarantees, and the `.map` that spells offsets on advancing letters |
| `Constants.dfy` | `Constants` | the tables of `constants.ts` |
| `MusicLogic.dfy` | `MusicLogic` | `services/musicLogic.ts` |
| `KingConstants.dfy` | `KingConstants` | the tables of `music-theory-king/docs/constants.ts` |
| `KingUtils.dfy` | `KingUtils` | `music-theory-king/docs/utils.ts` |
| `InlineConstants.dfy` | `InlineConstants` | the tables at `index.tsx` lines 17-74 |
| `InlineEngine.dfy` | `InlineEngine` | the helpers of `index.tsx` and the modal rotation |

## How the source's own semantics are written out

- A note missing from `noteValueMap` has value `undefined`. The engine then
  computes with `NaN`, and `getSpelledNote` yields `?`. The letter-aware and
  inline engines model this as `ValueOf` returning `None`, with every spelled
  entry then `?`. So there is no precondition on the tonic, root or target
  note.
- In the sharps-only engine, the same case indexes `valueNoteMap` with `NaN`
  and yields `undefined` entries. Its `CalculateScale` and
  `CalculateChordTones` therefore require the tonic or root to be a known
  spelling.
- The inline `calculateScale` reads `scaleIntervals[mode].slice` without a
  check, so an unknown mode throws. Its model requires a known mode.
- JavaScript `||` on strings treats `''` as false. This is modelled with
  `Spelling.Or`, so an empty letter match falls through.
- `(v2 - v1 + 12) % 12`, `(note2Index - note1Index + 7) % 7` and
  `(targetLetterIndex + 4) % 7` only see non-negative operands, so Dafny's
  `%` agrees with JavaScript's there. Two remainders can see `-1`:
  - `(tonicLetterIndex + index) % 7` in `calculateScale`
    (`services/musicLogic.ts:45`, `index.tsx:88`), for a tonic that does not
    start with a letter;
  - `(rootLetterIndex + step) % 7` in `calculateChordTones`
    (`services/musicLogic.ts:81`, with `rootLetterIndex` from line 70), at
    step 0 for a root that does not start with a letter, such as `""`.
  JavaScript gives `-1 % 7 == -1` and Dafny `6`. But no key of
  `noteValueMap` is such a tonic or root. So it then has no value, every
  entry is `?` whatever letter is asked for, and the difference never shows
  in a result.
- The letter rule holds only on tonics with at most one accidental. On a
  tonic with a double accidental, a degree's pitch class can lie three
  semitones from its letter, where `midiToNoteNames` has no spelling, and
  `getSpelledNote` then falls back to the preferred spelling on another
  letter. Of the 140 key and mode pairs of the letter-aware engine, 29 miss
  a letter this way. An example is natural minor on `Dbb`: its sixth degree
  is pitch class 8, which has no spelling on B, so it falls back to `G#` and
  the scale repeats G (`MusicLogic.CalculateScaleDoubleFlatTonic`).
- The string literal `'$\text{dim7}$'` in `constants.ts:95`,
  `music-theory-king/docs/constants.ts:35`, `music-theory-king/docs/utils.ts:33`
  and `:59` holds a TAB, because `\t` is an escape in an ordinary string. The
  literal `'$\\text{dim7}$'` in `services/musicLogic.ts:51` and
  `music-theory-king/docs/utils.ts:31` holds a backslash. The model keeps
  the two apart.
- In `music-theory-king/docs/utils.ts` the degree sign appears as `째`
  (U+C9F8). That is how the file's text reads, and the model uses that
  character.
- One would expect `extractChordType` to resolve each seventh-chord token
  to its own quality. The code's substring chain does not do that for all
  of them:
  - `IIImaj7#5` gives `Maj7`;
  - `ImM7` gives `7`;
  - every `dim7` token gives `m7`;
  - `III`, `VI` and `VII` give `""`.
  The model follows the code and proves these outcomes.

## Model

| member | source | states |
|---|---|---|
| `Theory.LetterIndex` | services/musicLogic.ts:17-18 | the letter position is -1 exactly when the note is empty or does not start with a natural letter; otherwise the note starts with that letter |
| `Theory.LetterIndexIsIndexOf` | services/musicLogic.ts:17-18 | the letter position is `baseNotes.indexOf(note[0])` |
| `Theory.UpperLetterIndex` | services/musicLogic.ts:40-41 | the letter position of the upper-cased first character; for a note not starting with a lower-case letter it equals the plain letter position |
| `Theory.SpelledPitch` | constants.ts:52-59 | the reference reading of a spelling (letter plus accidental, modulo 12), always a pitch class 0..11 |
| `Theory.PitchOrZero` | services/musicLogic.ts:12-13 | no contract of its own: `noteValueMap[note]`, with an unknown note read as 0; `Theory.Semitones` describes it |
| `Theory.LetterDistance` | services/musicLogic.ts:19 | the 1-based letter step count lies in 1..7; `MusicLogic.CalculateIntervalAugmentedFourth` and `MusicLogic.CalculateIntervalDiminishedFifth` use its values 4 and 5 |
| `Theory.Semitones` | services/musicLogic.ts:12-14 | the distance `(v2 - v1 + 12) % 12` lies in 0..11 and is congruent to v2 - v1, with an unknown note read as 0 |
| `Theory.LetterAwareInterval` | services/musicLogic.ts:11-27 | distance 0 gives `P1/P8`, for the same note and for two spellings of one pitch class alike; at 6 semitones the result is `A4` exactly for letter distance 4, `d5` exactly for 5, and otherwise `A4/d5`; every distance other than 0 and 6 is looked up in the table |
| `Theory.LetterAwareSamePitches` | music-theory-king/docs/utils.ts:5-7 | the interval depends on the value table only through the two values read |
| `Theory.LetterAwareRecoversSemitones` | services/musicLogic.ts:14-26 | looking the interval name back up recovers the semitone distance, so no two distances share a name |
| `Theory.PlainInterval` | index.tsx:453-458 | distance 0 (the same note or an enharmonic pair) gets the label of 0, and the result is always one of the table's labels |
| `Theory.PlainRecoversSemitones` | index.tsx:453-458 | the plain lookup also determines the semitone distance |
| `Theory.IncreasingBounds` | constants.ts:76-90 | strictly increasing offsets from 0 below a bound all lie between 0 and that bound |
| `Strings.StartsWith` | services/musicLogic.ts:31 | no contract of its own: the predicate is `startsWith` itself, and `Spelling.FindSpellingUnique` and `Spelling.SpellOffsetsNamed` use it |
| `Strings.Contains` | services/musicLogic.ts:52-58 | no contract of its own: `includes` at some position; `ContainsChar` and `ContainsSingle` describe it |
| `Strings.ReplaceFirst` | services/musicLogic.ts:51 | no contract of its own: a first-occurrence `replace`; `ReplaceAbsent` and `ReplaceSelf` describe it |
| `Strings.RemoveChars` | services/musicLogic.ts:51 | never longer than its input, and a character survives exactly when it occurs and is not deleted; `RemoveAbsent` adds that nothing changes when none occurs |
| `Strings.LowerCase` | index.tsx:99 | the same length, each character lowered on its own; `LowerCaseFixed` says when it changes nothing |
| `Strings.LowerCaseFixed` | index.tsx:99 | `toLowerCase` leaves a string unchanged exactly when it has no upper-case letter |
| `Strings.ReplaceAbsent` | services/musicLogic.ts:51 | `replace` of a pattern that does not occur changes nothing |
| `Strings.ReplaceSelf` | services/musicLogic.ts:51 | replacing a pattern by itself changes nothing |
| `Strings.ContainsChar` | services/musicLogic.ts:52-58 | a string containing a pattern contains every character of the pattern |
| `Strings.ContainsSingle` | services/musicLogic.ts:55 | `includes` of a one-character string is membership of that character |
| `Strings.RemoveAbsent` | services/musicLogic.ts:51 | deleting characters that do not occur changes nothing |
| `Strings.Take` | services/musicLogic.ts:43 | `slice(0, n)`: the first n elements, or all of them when there are fewer, in order |
| `Strings.IndexOf` | services/musicLogic.ts:41 | `indexOf`: -1 exactly when the element is absent, else a position holding it with none earlier |
| `Strings.UpperChar` | services/musicLogic.ts:40 | `toUpperCase` on one character: a lower-case ASCII letter moves 32 code points up, every other character is unchanged |
| `Strings.LowerChar` | index.tsx:99 | `toLowerCase` on one character: an upper-case ASCII letter moves 32 code points down, every other character is unchanged |
| `Spelling.FirstMatch` | services/musicLogic.ts:31 | the position `find` stops at: -1 or a candidate starting with the letter; `Spelling.FirstMatchIsFirst` adds that no earlier one does |
| `Spelling.ListedAt` | services/musicLogic.ts:30 | no contract of its own: `midiToNoteNames[v]`, or an empty list when v is not a key; `Spelling.SpellNoteFacts` describes it |
| `Spelling.FindSpelling` | services/musicLogic.ts:29-33 | the result is the first candidate starting with the letter when there is one, else the first candidate, else `?` |
| `Spelling.FirstMatchIsFirst` | services/musicLogic.ts:31 | `find` finds every candidate that matches, at its own position or earlier |
| `Spelling.FindSpellingUnique` | constants.ts:64-69 | with pairwise different leading letters, the candidate on a one-letter target is the unique one starting with it |
| `Spelling.SpellNote` | services/musicLogic.ts:29-33 | the result is `?` or a candidate listed under the value; `SpellNoteFacts` says which |
| `Spelling.SpellOffsets` | services/musicLogic.ts:43-47 | one entry per offset; `SpellOffsetsAt` and `SpellOffsetsNamed` say what each entry is |
| `Spelling.SpellNoteFacts` | services/musicLogic.ts:29-33 | over a complete candidate table: `?` exactly outside 0..11, otherwise a listed candidate, on the letter when possible, else the preferred one |
| `Spelling.SpellOffsetsAt` | services/musicLogic.ts:43-47 | entry i of the offsets spelled from a start value is listed under `(start + offsets[i]) % 12`, on the letter `stride * i` steps up when it has one |
| `Spelling.SpellOffsetsNamed` | services/musicLogic.ts:72-82 | entry i is the candidate of its pitch class that starts with its letter, whichever that is |
| `Spelling.SpellingsCount` | constants.ts:64-69 | a complete table whose classes list disjoint candidates holds as many distinct spellings as it lists |
| `Spelling.SameSpellings` | constants.ts:52-69 | a value table whose keys are all listed, over a table listing only its keys, has exactly the listed spellings as keys |
| `Spelling.FirstsMapBack` | constants.ts:62-69 | the preferred spelling of each class maps back to that class |
| `Spelling.SpellOffsetsFallback` | services/musicLogic.ts:29-33 | an entry whose pitch class has no candidate on its letter is the preferred spelling of that class |
| `Spelling.SpellOffsetsPreferred` | services/musicLogic.ts:29-33 | an entry is a listed candidate denoting its pitch class, on its letter when it can be and the preferred spelling when it cannot |
| `Spelling.SpellOffsetsOnLetter` | services/musicLogic.ts:43-47 | over a table listing every spelling with at most a double accidental, offsets within a semitone of the natural letters spelled from a start with at most one accidental put entry i on the letter i steps up |
| `Spelling.RotatedLettersDistinct` | services/musicLogic.ts:43-47 | up to seven notes on successive letters have pairwise different leading letters |
| `Constants.MidiSpellings` | constants.ts:62-69 | `midiToNoteNames` covers exactly 0..11; in each class no two spellings share a leading letter; `valueNoteMap[v]` is the first spelling of v; every spelling listed under v maps back to v |
| `Constants.MidiDenotes` | constants.ts:64-69 | every spelling listed under a class denotes it by the rules of notation |
| `Constants.MidiSpellingCount` | constants.ts:64-69 | 35 listed spellings, pairwise different, all keys of `noteValueMap`, no spelling under two classes |
| `Constants.NoteValueSpelled` | constants.ts:52-59 | every key of `noteValueMap` denotes its value and is listed under it in `midiToNoteNames` |
| `Constants.NoteValueKeys` | constants.ts:52-69 | `noteValueMap` and `midiToNoteNames` hold the same 35 spellings |
| `Constants.KeyLetter` | constants.ts:52-59 | every key starts with an upper-case natural letter, so upper-casing it does not change its letter |
| `Constants.ValueNoteMapInverse` | constants.ts:62-69 | 12 entries; `noteValueMap[valueNoteMap[k]] == k`; `valueNoteMap[k]` is the first spelling listed for k |
| `Constants.ScaleIntervalsShape` | constants.ts:76-81 | every mode is 8 strictly increasing offsets from 0 ending at 12 |
| `Constants.ChordOffsetsShape` | constants.ts:83-90 | every quality is 3 or 4 strictly increasing offsets from 0 below 12 |
| `Constants.ChordTypesShape` | constants.ts:92-104 | both token tables have the four modes and 7 tokens per mode |
| `Constants.SemitoneToIntervalShape` | constants.ts:71-74 | keys exactly 0..12; `P1/P8` at 0, `A4/d5` at 6, `P8` at 12; 0..11 carry distinct names and none is `P8` |
| `Constants.MidiCoversNear` | constants.ts:64-69 | every pitch class within two semitones of a natural letter has a spelling on that letter |
| `Constants.ScaleIntervalsNearNatural` | constants.ts:76-81 | from every starting letter, degree i of every mode lies within one semitone of the natural letter i steps up |
| `Constants.ValueNoteMapSingle` | constants.ts:62 | each `valueNoteMap` spelling has at most one accidental |
| `Constants.NamesAt` | services/musicLogic.ts:30 | no contract of its own: the candidate list of a pitch class; `Constants.MidiSpellings` and `Constants.MidiDenotes` describe it |
| `MusicLogic.CalculateInterval` | services/musicLogic.ts:11-27 | the same note gives `P1/P8`, and the result is never a bare `P8` |
| `MusicLogic.CalculateIntervalUnison` | services/musicLogic.ts:23-24 | distance 0 gives `P1/P8` whichever two spellings produce it |
| `MusicLogic.CalculateIntervalEnharmonicUnison` | services/musicLogic.ts:23-24 | `C#` to `Db` is `P1/P8` |
| `MusicLogic.CalculateIntervalRecovers` | services/musicLogic.ts:12-26 | the name determines the distance `(v2 - v1 + 12) % 12`, an unknown note read as 0 |
| `MusicLogic.CalculateIntervalAugmentedFourth` | services/musicLogic.ts:16-20 | C to F# is `A4` |
| `MusicLogic.CalculateIntervalDiminishedFifth` | services/musicLogic.ts:16-21 | C to Gb is `d5` |
| `MusicLogic.CalculateIntervalFifth` | services/musicLogic.ts:26 | C to G is `P5` |
| `MusicLogic.GetSpelledNote` | services/musicLogic.ts:29-33 | `?` exactly outside 0..11; otherwise a listed spelling mapped back to the value; the one on the target letter when there is one, else the `valueNoteMap` spelling |
| `MusicLogic.GetSpelledNoteUnique` | services/musicLogic.ts:29-33 | on a one-letter target, whichever candidate starts with it is returned |
| `MusicLogic.GetSpelledNoteOnLetter` | services/musicLogic.ts:31 | pitch class 8 is `Ab` on A and `G#` on G |
| `MusicLogic.GetSpelledNoteFallback` | services/musicLogic.ts:32 | pitch class 8 on F, a letter it has no spelling on, falls back to `G#` |
| `MusicLogic.ValueOf` | services/musicLogic.ts:36 | present exactly for a known spelling, and then a pitch class 0..11 |
| `MusicLogic.CalculateScale` | services/musicLogic.ts:35-48 | `[]` for an unknown mode, otherwise exactly 7 entries, all `?` for an unknown tonic |
| `MusicLogic.SpellFrom` | services/musicLogic.ts:43-47 | one entry per offset, all `?` when the start has no value; on a known start, `CalculateScaleDegree` and `CalculateChordTone` say what each is |
| `MusicLogic.ScaleOnTonicAt` | services/musicLogic.ts:40-47 | helper for `CalculateScaleDegree`: on a known tonic, degree i is the mode's offsets spelled from the tonic's value and its upper-cased letter |
| `MusicLogic.CalculateScaleDegree` | services/musicLogic.ts:43-47 | degree i on a known tonic is a spelling of `(tonic + intervals[i]) % 12`, on the letter i steps above the tonic's whenever that pitch class has a spelling there, and the preferred `valueNoteMap` spelling when it has none |
| `MusicLogic.KeyShift` | constants.ts:52-59 | a key with at most one accidental is its letter's natural pitch class moved by -1, 0 or 1 |
| `MusicLogic.CalculateScaleLetters` | services/musicLogic.ts:40-46 | on every key with at most one accidental and in every mode, degree i starts with the letter i steps above the tonic's |
| `MusicLogic.CalculateScaleDistinctLetters` | services/musicLogic.ts:40-46 | so the seven degrees of such a scale are non-empty and pairwise on different letters |
| `MusicLogic.CalculateScaleChromaticLetters` | services/musicLogic.ts:40-46 | the letters rotate from each of the twelve `valueNoteMap` tonics, in every mode |
| `MusicLogic.DegreeFallback` | services/musicLogic.ts:43-46 | a degree whose pitch class has no spelling on its letter is `valueNoteMap` of that class |
| `MusicLogic.CalculateScaleDoubleFlatTonic` | services/musicLogic.ts:35-48 | natural minor on `Dbb` spells its sixth degree `G#`, not on the letter B it asks for |
| `MusicLogic.CalculateScaleHarmonicMinor` | services/musicLogic.ts:35-48 | C harmonic minor is C D Eb F G Ab B |
| `MusicLogic.ChordOffsets` | services/musicLogic.ts:67 | the quality's offsets, `[0, 4, 7]` for an unknown type; always 3 or 4 increasing offsets from 0 below 12 |
| `MusicLogic.CalculateChordTones` | services/musicLogic.ts:66-84 | one tone per offset, 3 or 4 of them, all `?` for an unknown root |
| `MusicLogic.CalculateChordTone` | services/musicLogic.ts:72-82 | tone i on a known root is a spelling of `(root + offsets[i]) % 12`, on the letter 2i steps above the root's (steps 0/2/4/6) whenever it has a spelling there, and the preferred `valueNoteMap` spelling when it has none |
| `MusicLogic.CalculateChordTonesHalfDiminished` | services/musicLogic.ts:66-84 | D with `m7(b5)` gives D F Ab C |
| `MusicLogic.CalculateChordTonesMajorSeventh` | services/musicLogic.ts:66-84 | C with `Maj7` gives C E G B |
| `MusicLogic.StrippedNumeral` | services/musicLogic.ts:51 | no contract of its own; `StrippedWithoutSeventh` gives it for every token without a `7`; a token with a `7` gets a seventh code instead (`ExtractChordTypeSeventh`) |
| `MusicLogic.ExtractChordType` | services/musicLogic.ts:50-64 | no contract of its own; `ExtractChordTypePrecedence`, `ExtractChordTypeSeventh`, `ExtractChordTypeSevenths` and `ExtractChordTypeTriad` describe it for every token |
| `MusicLogic.StrippedWithoutSeventh` | services/musicLogic.ts:51 | without a `7` in the token, the provisional type is the token with `I`, `V`, `X` deleted |
| `MusicLogic.NoSeventhNoSuffix` | services/musicLogic.ts:52-58 | a token without a `7` passes none of the seven substring tests |
| `MusicLogic.ExtractChordTypeTriad` | services/musicLogic.ts:51-63 | without a `7`: `I`, `IV` and `V` give `I`, every other token the token with `I`, `V`, `X` deleted |
| `MusicLogic.LowerNumeralsKept` | services/musicLogic.ts:61 | the tokens of the `'i'` branch never reach it, since their provisional type is not empty |
| `MusicLogic.ExtractChordTypeSeventh` | services/musicLogic.ts:52-55 | a token with a `7` gets `Maj7`, `m7(b5)`, `m7` or `7` by the first test it passes |
| `MusicLogic.ExtractChordTypeSevenths` | services/musicLogic.ts:52-58 | a seventh code exactly when the token has a `7`; `dim7`, `mM7` and `Maj7#5` are never returned |
| `MusicLogic.ExtractChordTypePrecedence` | services/musicLogic.ts:52-55 | each of the four codes if and only if its test passes and no earlier one does |
| `MusicLogic.ExtractChordTypeAugmentedSeventh` | services/musicLogic.ts:52 | `IIImaj7#5` gives `Maj7` |
| `MusicLogic.ExtractChordTypeMinorMajorSeventh` | services/musicLogic.ts:55 | `ImM7` gives `7` |
| `MusicLogic.ExtractChordTypeDiminished` | services/musicLogic.ts:54 | a token containing `dim7` (and neither `maj7` nor `m7(b5)`) gives `m7` |
| `MusicLogic.ExtractChordTypeBareNumerals` | services/musicLogic.ts:51-63 | `III`, `VI`, `VII` give `""`, `III+` gives `+`, `IV` gives `I` |
| `MusicLogic.ExtractChordTypeUnchanged` | services/musicLogic.ts:51-63 | a token with no `I`, `V`, `X` or `7` comes back unchanged |
| `MusicLogic.ExtractChordTypeLowerNumerals` | services/musicLogic.ts:63 | `ii` comes back unchanged |
| `MusicLogic.ExtractChordTypeDiminishedTriad` | services/musicLogic.ts:63 | `vii°` comes back unchanged |
| `MusicLogic.ExtractChordTypeMinorFour` | services/musicLogic.ts:63 | `iv` comes back unchanged |
| `MusicLogic.ChordOffsetsDefaulted` | services/musicLogic.ts:67 | `iv`, `+` and `""` are not qualities and get `[0, 4, 7]` |
| `KingConstants.SameAsMainTables` | music-theory-king/docs/constants.ts:3-44 | every table but `noteValueMap` is the one in `constants.ts` |
| `KingConstants.NoteValueSpelled` | music-theory-king/docs/constants.ts:8-11 | each of the 17 keys denotes its value and starts with an upper-case letter |
| `KingConstants.NoteValueAgrees` | music-theory-king/docs/constants.ts:8-11 | on shared spellings the two `noteValueMap`s agree |
| `KingConstants.KeySingleAccidental` | music-theory-king/docs/constants.ts:8-11 | every one of the 17 keys has at most one accidental |
| `KingConstants.KeyOnB` | music-theory-king/docs/constants.ts:8-11 | no key on the letter B has pitch class 0: there is no `B#` key |
| `KingConstants.ValueNoteMapInverse` | music-theory-king/docs/constants.ts:8-13 | 12 entries, each a natural or a sharp, with `noteValueMap[valueNoteMap[k]] == k` |
| `KingConstants.ScaleIntervalsShape` | music-theory-king/docs/constants.ts:16-21 | every mode is 8 strictly increasing offsets from 0 ending at 12 |
| `KingConstants.ChordOffsetsShape` | music-theory-king/docs/constants.ts:23-30 | every quality is 3 or 4 strictly increasing offsets from 0 below 12 |
| `KingConstants.ChordTypesShape` | music-theory-king/docs/constants.ts:32-44 | 7 tokens per mode in both token tables |
| `KingConstants.SemitoneToIntervalShape` | music-theory-king/docs/constants.ts:3-6 | keys exactly 0..12, `P1/P8` at 0, `A4/d5` at 6, canonical names for 0..11 |
| `KingUtils.CalculateInterval` | music-theory-king/docs/utils.ts:4-18 | the same note gives `P1/P8`, never a bare `P8` |
| `KingUtils.CalculateIntervalUnison` | music-theory-king/docs/utils.ts:16 | distance 0 gives `P1/P8` whichever two spellings produce it |
| `KingUtils.CalculateIntervalRecovers` | music-theory-king/docs/utils.ts:5-17 | the name determines the semitone distance |
| `KingUtils.CalculateIntervalAgrees` | music-theory-king/docs/utils.ts:4-18 | on spellings both tables know, the same interval as the letter-aware engine |
| `KingUtils.SharpsFrom` | music-theory-king/docs/utils.ts:24-27 | one entry per offset, each a natural or a sharp mapped back to `(start + offset) % 12` |
| `KingUtils.CalculateScale` | music-theory-king/docs/utils.ts:20-28 | `[]` for an unknown mode, otherwise exactly 7 entries |
| `KingUtils.ScaleIsSharpsFrom` | music-theory-king/docs/utils.ts:24-27 | the scale is `valueNoteMap[(start + intervals[i]) % 12]` for i < 7, and the first offset is 0, so the first entry has the tonic's pitch class |
| `KingUtils.CalculateScaleEnharmonic` | music-theory-king/docs/utils.ts:21-27 | enharmonic tonics give the same scale |
| `KingUtils.StrippedNumeral` | music-theory-king/docs/utils.ts:31-33 | no contract of its own; `KingUtils.StrippedWithoutSeventh` gives it for every token without a `7` |
| `KingUtils.ExtractChordType` | music-theory-king/docs/utils.ts:30-47 | no contract of its own; `ExtractChordTypeAgrees` equates it with the letter-aware engine's for every token |
| `KingUtils.StrippedWithoutSeventh` | music-theory-king/docs/utils.ts:31-33 | without a `7`, all four replacements change nothing |
| `KingUtils.ExtractChordTypeAgrees` | music-theory-king/docs/utils.ts:30-47 | for every token the same type as the letter-aware engine, so its precedence and fallback lemmas carry over |
| `KingUtils.ChordOffsets` | music-theory-king/docs/utils.ts:50 | the quality's offsets, `[0, 4, 7]` for an unknown type |
| `KingUtils.ChordOffsetsAgree` | music-theory-king/docs/utils.ts:50 | the same offsets as the letter-aware engine for every type |
| `KingUtils.CalculateChordTones` | music-theory-king/docs/utils.ts:49-53 | 3 or 4 tones, 3 for an unknown type |
| `KingUtils.ChordTonesAreSharpsFrom` | music-theory-king/docs/utils.ts:51-52 | tone i is `valueNoteMap[(root + offsets[i]) % 12]` |
| `KingUtils.ChordTonesEnharmonic` | music-theory-king/docs/utils.ts:49-53 | enharmonic roots give the same tones |
| `KingUtils.FormatChordDisplay` | music-theory-king/docs/utils.ts:55-63 | the label is the note followed by the suffix: it starts with the note, and what follows the note is exactly `ChordSuffix(type)` |
| `KingUtils.ChordSuffix` | music-theory-king/docs/utils.ts:56-61 | no contract of its own; `ChordSuffixWithoutSeventh` gives it for every type without a `7`, and the `ChordSuffix*` lemmas below give it on each code |
| `KingUtils.ChordSuffixWithoutSeventh` | music-theory-king/docs/utils.ts:56-61 | a type without a `7` only loses its first `+` |
| `KingUtils.ChordSuffixMajorSeventh` | music-theory-king/docs/utils.ts:56 | `Maj7` displays as `maj7` |
| `KingUtils.ChordSuffixMinorSeventh` | music-theory-king/docs/utils.ts:57 | `m7` displays as `min7` |
| `KingUtils.ChordSuffixHalfDiminished` | music-theory-king/docs/utils.ts:57 | `m7(b5)` displays as `min7(b5)` |
| `KingUtils.ChordSuffixDominant` | music-theory-king/docs/utils.ts:58 | `7` displays as `7` |
| `KingUtils.ChordSuffixDiminished` | music-theory-king/docs/utils.ts:57-60 | `dim7` displays as `dimin7`, since the `m7` replacement comes first |
| `KingUtils.ChordSuffixTriads` | music-theory-king/docs/utils.ts:61 | `+` displays as `""`, `I` as `I` |
| `KingUtils.ChordNameOfNumeral` | music-theory-king/docs/utils.ts:30-63 | the label of a numeral with a `7` is the note plus one of `maj7`, `min7(b5)`, `min7`, `7`; of any other, the note plus its type without the first `+` |
| `InlineConstants.MidiSpellings` | index.tsx:18-25 | the candidate lists cover 0..11, no two candidates of a class share a letter, `valueNoteMap[v]` is the first candidate of v, every candidate denotes its class |
| `InlineConstants.MidiSpellingCount` | index.tsx:21-25 | 35 pairwise different candidates, none under two classes |
| `InlineConstants.NamesAt` | index.tsx:78 | no contract of its own: the candidate list of a pitch class; `InlineConstants.MidiSpellings` describes it |
| `InlineConstants.SameNoteValues` | index.tsx:17 | `noteValueMap` is the sharps-only engine's, so every key denotes its value |
| `InlineConstants.ValueNoteMapInverse` | index.tsx:17-18 | 12 entries, `noteValueMap[valueNoteMap[k]] == k` |
| `InlineConstants.ValueNoteMapFirsts` | index.tsx:18-25 | `valueNoteMap[k]` is the first candidate listed for k |
| `InlineConstants.MidiCoversNear` | index.tsx:21-25 | every pitch class within two semitones of a natural letter has a candidate on that letter (`##` for the double sharp) |
| `InlineConstants.ScaleIntervalsNearNatural` | index.tsx:34-39 | from every starting letter, degree i of every mode lies within one semitone of the natural letter i steps up |
| `InlineConstants.KeyShift` | index.tsx:17 | every key is its letter's natural pitch class moved by -1, 0 or 1 |
| `InlineConstants.SameAsKingTables` | index.tsx:20-60 | `scaleIntervals` and `chordTypes3` equal the sharps-only tables, `modeRomans` repeats `chordTypes3`, and 0..11 of `semitoneToInterval` agree |
| `InlineConstants.SemitoneToIntervalShape` | index.tsx:20 | keys exactly 0..11 (no octave), canonical names |
| `InlineConstants.ScaleIntervalsShape` | index.tsx:34-39 | every mode is 8 strictly increasing offsets from 0 ending at 12 |
| `InlineConstants.ChordOffsetsShape` | index.tsx:27-32 | every entry is 3 or 4 strictly increasing offsets from 0 below 12 |
| `InlineConstants.ModeTablesShape` | index.tsx:41-74 | the same four modes everywhere, with 7 codes, tokens, functions, mode names and avoid lists each |
| `InlineConstants.AvoidsAreDegrees` | index.tsx:69-74 | every avoid position is a scale degree 0..6 |
| `InlineConstants.TokensHaveOffsets` | index.tsx:27-53 | every quality code and triad token of the mode tables has offsets |
| `InlineEngine.GetSpelledNote` | index.tsx:77-80 | `?` exactly outside 0..11 |
| `InlineEngine.GetSpelledNoteSpelled` | index.tsx:77-80 | inside 0..11 a candidate denoting the value, on the target letter when it has one, else the flat-first spelling |
| `InlineEngine.GetSpelledNoteAnyLetter` | index.tsx:77-80 | with the empty target letter the flat-first spelling is returned |
| `InlineEngine.GetSpelledNoteUnique` | index.tsx:79 | on a one-letter target, whichever candidate starts with it is returned |
| `InlineEngine.GetSpelledNoteExamples` | index.tsx:77-80 | pitch class 5 is `E#` on E and falls back to `F` on D |
| `InlineEngine.ValueOf` | index.tsx:83 | present exactly for a known spelling, then a pitch class 0..11 |
| `InlineEngine.CalculateScale` | index.tsx:82-91 | exactly 7 entries, all `?` for an unknown tonic |
| `InlineEngine.ScaleOnTonicAt` | index.tsx:85-90 | helper for `CalculateScaleDegree`: on a known tonic, degree i is the mode's offsets spelled from the tonic's value and letter, without upper-casing |
| `InlineEngine.CalculateScaleDegree` | index.tsx:86-89 | degree i is a candidate of `(tonic + intervals[i]) % 12` denoting it, on the letter i steps above the tonic's whenever it has a candidate there, and the flat-first spelling when it has none |
| `InlineEngine.CalculateScaleLetters` | index.tsx:85-89 | on every key and in every mode, degree i starts with the letter i steps above the tonic's |
| `InlineEngine.CalculateScaleDistinctLetters` | index.tsx:85-89 | so the seven degrees are non-empty and pairwise on different letters |
| `InlineEngine.CalculateScaleLeavesTable` | index.tsx:82-91 | the third of C# major is `E#`, which `noteValueMap` does not know |
| `InlineEngine.GetSecondaryDominantInfo` | index.tsx:93-105 | `abbr` is `V/` plus the numeral; the name is the root plus `7`; `avoidIdxs` is `[3]`; the modal name follows the numeral's case; 4 chord tones and 7 scale tones, all `?` for an unknown target |
| `InlineEngine.RootLetter` | index.tsx:96-97 | the root letter is four letter steps above the target's |
| `InlineEngine.FifthAbove` | index.tsx:95 | the root's pitch class is 7 semitones above the target's |
| `InlineEngine.SecondaryDominantOnValue` | index.tsx:94-104 | helper for the per-tone lemmas below: on a known target, the record is the dominant on the pitch class a fifth above, rooted four letters up |
| `InlineEngine.DominantOn` | index.tsx:98-104 | `abbr` is `V/` plus the numeral, the name the root plus `7`, `avoidIdxs` `[3]`, the modal name by the numeral's case, 4 chord tones and one scale tone per offset |
| `InlineEngine.SpellOnLetter` | index.tsx:103 | one entry per offset; `DominantSeventhTone` says what each is for the dominant seventh |
| `InlineEngine.SecondaryDominantRoot` | index.tsx:94-102 | on a known target the root is a candidate of `(target + 7) % 12` denoting it, it is always on the letter four steps above the target's (so the flat-first fallback of `getSpelledNote` is never reached), and it is the first scale tone |
| `InlineEngine.SecondaryDominantScaleTone` | index.tsx:101-102 | on a known target, scale tone k is a candidate of `(target + 7 + offsets[k]) % 12` denoting it, and it is always on the letter k steps above the root's |
| `InlineEngine.SecondaryDominantScaleSpelled` | index.tsx:101-102 | on a known target, scale tone k is a candidate of `(target + 7 + offsets[k]) % 12` denoting it, on the letter k steps above the root's when it has a candidate there and the flat-first spelling when it has none |
| `InlineEngine.SecondaryDominantScaleLetter` | index.tsx:101-102 | on every key, scale tone k starts with the letter k steps above the root's |
| `InlineEngine.SecondaryDominantLetters` | index.tsx:94-102 | on every key of `noteValueMap` the seven scale tones run up the alphabet from the root letter and the root starts with that letter |
| `InlineEngine.FifthShift` | index.tsx:95-97 | the pitch class a fifth above a key is the root letter's natural pitch moved by at most one accidental |
| `InlineEngine.FifthOnLetter` | index.tsx:95-97 | a fifth above letter k moved by s is letter k + 4 moved by s, or by s + 1 from B, where the letter step is six semitones |
| `InlineEngine.DominantScaleNearNatural` | index.tsx:101 | both offset lists stay within one semitone of the natural letters from every starting letter |
| `InlineEngine.MinorTargetNearNatural` | index.tsx:101 | `[0, 1, 4, 5, 7, 8, 10]` stays within one semitone of the natural letters from every starting letter |
| `InlineEngine.MajorTargetNearNatural` | index.tsx:101 | `[0, 2, 4, 5, 7, 9, 10]` stays within one semitone of the natural letters from every starting letter |
| `InlineEngine.ScaleOnRotatedLetters` | index.tsx:102 | such offsets spelled from a letter moved by at most one accidental land one per letter on the rotated alphabet |
| `InlineEngine.DominantOnLetters` | index.tsx:98-102 | the dominant built on such a root has its scale tones on the rotated alphabet and its root on the root letter |
| `InlineEngine.DominantRootFirst` | index.tsx:98-102 | the root equals the first scale tone, both being `getSpelledNote` of the root value on the root letter |
| `InlineEngine.DominantScaleTone` | index.tsx:102 | scale tone k is a candidate of `(root + offsets[k]) % 12` on the k-th letter above the root's whenever it has one, and the flat-first spelling when it has none |
| `InlineEngine.SecondaryDominantChordTone` | index.tsx:103 | chord tone k is the flat-first spelling of `(root + [0, 4, 7, 10][k]) % 12` |
| `InlineEngine.DominantSeventhTone` | index.tsx:103 | tone k of `[0, 4, 7, 10]` above a pitch class, spelled on the empty letter, is the flat-first spelling of its class and denotes it |
| `InlineEngine.DominantChordTone` | index.tsx:103 | chord tone k is the flat-first spelling of its pitch class and denotes it |
| `InlineEngine.DominantScaleOffsetsShape` | index.tsx:101 | both offset lists have 7 entries, start at 0 and stay below 12 |
| `InlineEngine.MinorNumeral` | index.tsx:99 | no contract of its own: the numeral is unchanged by `toLowerCase`; `Strings.LowerCaseFixed` says when that holds |
| `InlineEngine.DominantScaleOffsets` | index.tsx:101 | seven offsets, the lowered-second list for a minor numeral and the major-second one otherwise; `InlineEngine.MajorTargetScaleIsMixolydian` and `InlineEngine.MinorTargetScaleIsPhrygianDominant` name them |
| `InlineEngine.MajorTargetScaleIsMixolydian` | index.tsx:100-101 | the major-target scale is the fifth mode of the major scale, named `Mixolydian` in `modalDataMap` |
| `InlineEngine.MinorTargetScaleIsPhrygianDominant` | index.tsx:100-101 | the minor-target scale is the fifth mode of harmonic minor, named `Phrygian Dom` in `modalDataMap` |
| `InlineEngine.DominantSeventhIsSevenChord` | index.tsx:103 | the chord tones follow the `7` entry of `chordOffsetMap` |
| `InlineEngine.CalculateInterval` | index.tsx:453-458 | the same note gives `P1/P8`, and the tritone is always `A4/d5` |
| `InlineEngine.CalculateIntervalUnison` | index.tsx:456-457 | distance 0 gives `P1/P8`, the label of 0, whichever two spellings produce it |
| `InlineEngine.CalculateIntervalRecovers` | index.tsx:453-458 | the name determines the semitone distance |
| `InlineEngine.CalculateIntervalAgrees` | index.tsx:453-458 | away from the tritone, the same name as `KingUtils.CalculateInterval`, the `utils.ts` engine, which reads letters only at the tritone |
| `InlineEngine.Rotate` | index.tsx:396 | 7 entries; `RotateAt`, `RotatePermutes` and `RotateCompose` say which |
| `InlineEngine.RotateAt` | index.tsx:396 | entry j of the rotation is `parentScale[(i + j) % 7]` |
| `InlineEngine.RotatePermutes` | index.tsx:394-396 | a modal scale is a permutation of its parent scale |
| `InlineEngine.RotateCompose` | index.tsx:394-396 | rotating by 0 is the identity, and rotations compose modulo 7 |
| `InlineEngine.ModalScale` | index.tsx:394-396 | the pushing loop builds exactly the rotation of the parent scale on degree i |

## Left out

- Audio: `services/audioEngine.ts`, the `AudioEngine` of `index.tsx` and
  `playChord`. They are Web Audio calls with floating-point frequencies. The
  inline `chordOffsetMap` is only read by `playChord` (`index.tsx:125`). The
  model keeps the table and proves its shape, but not the audio.
- Service workers (`service-worker.js`, `public/service-worker.js`): cache and
  fetch I/O.
- The React views and navigation (`App.tsx`, `music-theory-king/App.tsx`,
  and the view components). They are UI state, not engine logic.
- How the inline chord cards render `modalDataMap` and the mode functions.
  Only the tables and the rotation loop are modelled.
- Quiz generation and answer checking. They depend on `Math.random` and on
  component state.
- `LANGUAGES` and the type-only files: display data and types with no
  behaviour.
- JavaScript property lookups on inherited keys (such as
  `noteValueMap['toString']`). Tables are modelled as Dafny maps holding
  exactly their literal keys.
- Case conversion beyond ASCII. `toUpperCase` and `toLowerCase` are
  modelled on ASCII letters only, which covers every token the tables hold.
- `NaN` arithmetic. An unknown spelling is modelled as an absent value whose
  spelled entries are all `?`, which is what the source returns.
- InlineEngine.CalculateScale: requires a known mode. The source throws on
  an unknown one.
- KingUtils.CalculateScale: requires a known tonic whenever the mode is
  known. The source then returns `undefined` entries, which are not modelled.
- KingUtils.CalculateChordTones: requires a known root, for the same
  reason.
- Facts about how the app uses these results are proved as lemmas, but
  their consequences in the views are not modelled:
  - the inline scale can spell a degree `noteValueMap` lacks (`E#`), which a
    chord card would then pass on to `getSecondaryDominantInfo` as an
    unknown target;
  - `formatChordDisplay` shows `dim7` as `dimin7`, and the bare-triad code
    `I` as a trailing `I`;
  - `iv`, `+` and `""` fall back to the major-triad offsets.
