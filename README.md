# Music theory practice tool: the question engine and practice stores in Dafny

This project models the logic of a music-theory practice application: an enharmonic
interval quiz, a major-scale speller, a solfège sight-singing drill, a metronome and a
virtual piano. The model covers this logic, not the React views or the audio.

- **Enharmonic catalog and question engine** (`frontend/utils/enharmonic.js`):
  - A table of six register sections is flattened into 65 equivalence classes of
    spellings, one per line. Moving one class is moving one semitone.
  - A token→class index is built over the classes.
  - Helpers split a spelling into accidental, letter and register suffix, and render
    the suffix as sub- or superscript digits.
  - A question draws a prompt spelling and asks for the classes a semitone and a whole
    tone away.
  - An answer is accepted when its words form exactly the expected set of spellings.
- **Practice stores** (zustand):
  - the interval quiz;
  - the major-scale quiz with its `SCALE_MAP` grader;
  - the syllable drill and the older practice store, both built on the no-adjacent-repeat
    degree sequence;
  - the metronome settings.

  Each store is a Dafny `class` whose fields the actions update.
- **Pure helpers:** the solfège word→degree lookup, the `mm:ss` duration formatter, and
  the white-key MIDI offsets and octave labels of the piano engine.
- **Page logic:**
  - the metronome page's beat pattern, strength cycle and beat rotation;
  - the piano page's keyboard window, its octave shifts and its key bindings.

Modules:

| module | file | what it holds |
|---|---|---|
| `Wrappers` | wrappers.dfy | `Option`, and map lookup that yields `None` like `undefined` |
| `Text` | text.dfy | the `trim().split(/\s+/)` tokenizer, joining, ASCII case mapping |
| `Decimal` | decimal.dfy | decimal digits of a number, `padStart` |
| `JsNumber` | js_number.dfy | JavaScript numbers (NaN, ±Infinity, finite), `\|\|` and `Math.min`/`Math.max` |
| `Time` | time.dfy | `formatDuration` |
| `Solfege` | solfege.dfy | `solfegeToNumber`, `mapWordToNumber` |
| `Session` | session.dfy | stages, sequence presets, the persisted-key rule, the no-repeat generator |
| `Spelling` | spelling.dfy | `accidentalOf`, `letterOf`, `groupSuffixOf`, `formatDisplay`, and the intended reading of a spelling |
| `Catalog` | catalog.dfy | `SECTION_DATA` and the loops that build `CLASSES`, `TOKEN_TO_INDEX` and the base range |
| `CatalogFacts` | catalog_facts.dfy | facts about the concrete table: 65 classes, disjoint, each sounding one pitch |
| `Enharmonic` | enharmonic.dfy | lookups, the random pickers, `generateQuestion`, `checkAnswer` |
| `IntervalStore`, `MajorStore`, `SyllableStore`, `PracticeStore`, `MetronomeStore` | *_store.dfy | the stores |
| `PianoEngine` | piano.dfy | `OCTAVE_OPTIONS`, `whiteIndexToMidi`, `labelForWhite`, `BLACK_MAP` |
| `MetronomePage`, `PianoPage` | metronome_page.dfy, piano_page.dfy | the page logic |

Conventions:

- **Randomness.** Each `Math.random()` call site is a parameter `u` with
  `0.0 <= u < 1.0`, and `Math.floor(u * n)` is the index drawn. Each question's draws
  form an `Enharmonic.Draws` value.
- **Persistence.** A value read back with `getPref` is a parameter of the constructor;
  `None` stands for a missing entry.
- **Clock.** `Date.now()` is a parameter.
- **Shared logic across `src/` and `frontend/`.** Several files under `src/` repeat the
  logic of a `frontend/` file. Each is modelled once, and its table row cites the
  `frontend/` copy. The second copies map as follows:
  - `src/utils/time.js`: the guard at line 2 is `Time.FormatDurationZero`; lines 3-8 are
    `Time.ClockRoundTrip`.
  - `src/utils/solfege.js`:
    - lines 13-21 as written are `Solfege.MapWordToNumberAsWritten`, and their
      corrected reading, own keys only (see "Findings"), is `Solfege.MapWordToNumber`;
    - line 15 is `Solfege.CaseInsensitiveAsWritten` and, for the corrected lookup,
      `Solfege.CaseInsensitive`;
    - lines 18-19 are `Solfege.TrailingNonLettersIgnored`.
  - `src/store/useIntervalStore.js`:
    - the presets at 13-18 are `IntervalStore.IntervalPresetsOrdered`;
    - `setDifficulty` at 35-38, `start` at 40-45, `submitCurrent` at 47-56 and `reset`
      at 58 are the methods of the same name of `IntervalStore.IntervalStore`.
  - `src/store/useMajorStore.js`:
    - the tables at 17-35 are `MajorStore.ScaleTables`;
    - `start` at 59-63, `setAnswer` at 65, `submit` at 67-81 and `reset` at 83 are the
      methods of `MajorStore.MajorStore`.
  - `src/audio/pianoEngine.js`:
    - `OCTAVE_OPTIONS` at 96-102 is `PianoEngine.OctaveOptionsSpec`;
    - `whiteIndexToMidi` at 107-112 is `PianoEngine.WhiteKeysRise`;
    - `labelForWhite` at 114-120 is `PianoEngine.LabelForWhiteSpec`.
  - `src/store/usePracticeStore.js`:
    - its presets at 3-8 are `Session.SequencePresetsOrdered`;
    - `randomSequence` at 10-25 is `Session.NoRepeatSequence`, with the step at 19-21
      `Session.SkipPrevBijection`.
  - The `getInitialKey` functions of `frontend/store/useIntervalStore.js` (25-28) and
    `frontend/store/useMajorStore.js` (43-46) are `Session.InitialKey`.
- **Catalog size.** The base range is sections 1..5 of the table (frontend/utils/enharmonic.js:103).
  Section 0 holds only five lines, G to B, and each later section twelve, so the code
  builds 65 classes (`CatalogFacts.CatalogSize`) and a question range of 5..64
  (`Enharmonic.BaseRange`). Class 5 is `C-1`, and the class below it, 4, is `B-2`.

## Model

| member | source | states |
|---|---|---|
| Catalog.LineTokens | frontend/utils/enharmonic.js:96 | the tokens of a line are its whitespace-separated words; a blank line gives the single empty token |
| Catalog.SectionClasses | frontend/utils/enharmonic.js:95-98 | one class per line of a section, in order, holding that line's tokens and its section and line number |
| Catalog.ClassesCount | frontend/utils/enharmonic.js:94-101 | the flattened catalog has exactly one class per line of the table |
| Catalog.ClassOfLine | frontend/utils/enharmonic.js:94-98 | line `li` of section `si` becomes class `LinesBefore(si) + li`, carrying that line's tokens |
| Catalog.AddTokensSpec | frontend/utils/enharmonic.js:99 | after setting a line's tokens, the index has the old keys plus the tokens; each token maps to the new class and every other key keeps its class |
| Catalog.IndexOfSpec | frontend/utils/enharmonic.js:94-101 | a token is in `TOKEN_TO_INDEX` iff some class lists it, and it maps to the last class that lists it |
| Catalog.IndexOfDisjoint | frontend/utils/enharmonic.js:99 | when no token is in two classes, the index maps a token to `i` iff class `i` lists it |
| Catalog.IndexTokens | frontend/utils/enharmonic.js:99 | the `forEach` over a line's tokens leaves the index the specification function `AddTokens` describes |
| Catalog.AddSection | frontend/utils/enharmonic.js:95-100 | pushing a section's lines appends that section's classes, and the index stays the index of all classes pushed so far |
| Catalog.BuildCatalog | frontend/utils/enharmonic.js:94-101 | the nested loops produce exactly `Classes(sections)` and its index |
| Catalog.ComputeBaseStart | frontend/utils/enharmonic.js:104-109 | the accumulator is the line count of section 0, which indexes the first class of section 1 |
| Catalog.ComputeBaseEnd | frontend/utils/enharmonic.js:110-115 | the result indexes the last line of section 5; with six sections this is the last class of the catalog |
| CatalogFacts.SectionStarts | frontend/utils/enharmonic.js:8-86 | the sections hold 5, 12, 12, 12, 12 and 12 lines, starting at classes 0, 5, 17, 29, 41 and 53 |
| CatalogFacts.CatalogSize | frontend/utils/enharmonic.js:8-101 | the catalog has 65 classes |
| CatalogFacts.CatalogClassFacts | frontend/utils/enharmonic.js:8-86 | every class is non-empty; every token in it is a well-formed spelling without whitespace that sounds exactly `i` semitones above the lowest class; `accidentalOf` misreads exactly the tokens `b`, `b1`, `b2`, `bb`, `bb1`, `bb2` |
| Enharmonic.BaseRange | frontend/utils/enharmonic.js:104-115 | `BASE_START_INDEX` is 5 and `BASE_END_INDEX` is 64, which is `CLASSES.length - 1` |
| Enharmonic.CatalogDisjoint | frontend/utils/enharmonic.js:8-101 | no token is listed by two classes |
| Enharmonic.ClassIndexOfTokenSpec | frontend/utils/enharmonic.js:183-185 | `classIndexOfToken` is -1 iff no class lists the token, and `i` iff class `i` lists it |
| Enharmonic.ClassTokensByIndex | frontend/utils/enharmonic.js:192-195 | an index in range gives that class's tokens |
| Enharmonic.ClassTokensByIndexSpec | frontend/utils/enharmonic.js:192-195 | the result is empty iff the index is outside `[0, CLASSES.length)` |
| Enharmonic.StepIndex | frontend/utils/enharmonic.js:244-248 | the result is `idx + semitones` when that lies in the catalog, and -1 otherwise |
| Enharmonic.ParseUserInput | frontend/utils/enharmonic.js:171-176 | every token is non-empty and free of whitespace |
| Enharmonic.ParseJoin | frontend/utils/enharmonic.js:171-176 | parsing the space-join of non-empty, whitespace-free tokens gives the same list back |
| Enharmonic.RandomIndex | frontend/utils/enharmonic.js:208 | `Math.floor(u * n)` is a valid index below `n` |
| Enharmonic.RandomInt | frontend/utils/enharmonic.js:216-218 | the draw lies in `[min, max]` |
| Enharmonic.RandomDirection | frontend/utils/enharmonic.js:220-228 | the result is -1, 0 or 1, and never 0 without a base; -1 only if `base - step >= min`; 1 only if `base + step <= max`; 0 exactly when neither holds |
| Enharmonic.RandomDirectionNeverZero | frontend/utils/enharmonic.js:220-228 | for a base in range and `max - min >= 2 * step - 1` the direction is never 0 |
| Enharmonic.StepDirection | frontend/utils/enharmonic.js:259-263 | the direction, after the fallback, is ±1, and for a base in `[5, 64]` and a step of 1 or 2 it keeps the stepped index in `[5, 64]` |
| Enharmonic.StepDirectionIsDrawn | frontend/utils/enharmonic.js:259-263 | the fallback never fires: the direction is `randomDirection`'s own |
| Enharmonic.PresentIn | frontend/utils/enharmonic.js:235 | the filter keeps exactly the members of the order that some token has |
| Enharmonic.PresentAccidentalsSpec | frontend/utils/enharmonic.js:232-235 | the present list holds exactly the non-empty accidentals some token has, all from `#`, `X`, `b`, `bb` |
| Enharmonic.NoAccidentalPresent | frontend/utils/enharmonic.js:236 | an empty present list means every token is natural |
| Enharmonic.PickAccidentalPreferenceSpec | frontend/utils/enharmonic.js:230-238 | the preference is natural or an accidental some token has; a natural is kept on a draw below 0.5 when one exists; otherwise natural is returned only when every token is natural |
| Enharmonic.WithAccidentalSpec | frontend/utils/enharmonic.js:207 | the filter keeps exactly the tokens with the given accidental |
| Enharmonic.PickRepresentativeTokenSpec | frontend/utils/enharmonic.js:203-214 | the result is `''` for an empty class and otherwise a member; it has the preferred accidental when one is present, otherwise it is natural when a natural is present |
| Enharmonic.ClassNonEmpty | frontend/utils/enharmonic.js:94-101 | every class has at least one token |
| Enharmonic.GenerateQuestionIndices | frontend/utils/enharmonic.js:255-279 | the base is in `[5, 64]`; both directions are ±1; the semitone index is base + dir and the whole-tone index base + 2·dir, both in `[5, 64]` |
| Enharmonic.GenerateQuestionTokens | frontend/utils/enharmonic.js:265-278 | the expected lists are the classes at the two stepped indices; the prompt token is a member of the base class; the prompt display is `formatDisplay` of the prompt token |
| Enharmonic.GenerateQuestionPitches | frontend/utils/enharmonic.js:255-279 | every expected spelling sounds exactly `dir` (semitone) or `2·dir` (whole tone) semitones from the prompt |
| Enharmonic.GenerateQuestionAtEdges | frontend/utils/enharmonic.js:259-263 | at the lowest base both steps go up, and at the highest both go down |
| Enharmonic.SubsetOfSameSize | frontend/utils/enharmonic.js:290-293 | the expected set is contained in an answer set of equal size only if the two are equal |
| Enharmonic.CheckAnswer | frontend/utils/enharmonic.js:287-295 | the loop returns true iff the parsed input and the expected tokens form the same set |
| Enharmonic.AcceptsAnyArrangement | frontend/utils/enharmonic.js:287-295 | any arrangement of a class's tokens (any order, any repeats) is accepted for that class |
| Enharmonic.AcceptsOnlyOwnClass | frontend/utils/enharmonic.js:287-295 | the joined tokens of class `j` are accepted for class `i` iff `i == j`: no enharmonic leeway between classes |
| Spelling.AccidentalOf | frontend/utils/enharmonic.js:118-121 | the result is a prefix of the token and is one of `''`, `#`, `X`, `b`, `bb` |
| Spelling.LetterOf | frontend/utils/enharmonic.js:122-125 | the result is empty or one note letter taken from the token |
| Spelling.SuffixFrom | frontend/utils/enharmonic.js:126-129 | the result is empty or a whole `-\d+`/`\d+` register suffix, and it ends the token |
| Spelling.MapChars | frontend/utils/enharmonic.js:157-164 | the output has the same length, with each character replaced by its table entry when it has one |
| Spelling.Spell | frontend/utils/enharmonic.js:118-129 | reference reading: a spelling splits uniquely into accidental, letter and register suffix, and reassembles to the token |
| Spelling.LetterOfSpelling | frontend/utils/enharmonic.js:122-125 | on a spelling, `letterOf` gives its note letter |
| Spelling.GroupSuffixOfSpelling | frontend/utils/enharmonic.js:126-129 | on a spelling, `groupSuffixOf` gives its register suffix |
| Spelling.AccidentalOfSpelling | frontend/utils/enharmonic.js:118-121 | on a spelling, `accidentalOf` gives its accidental, except that the letter `b` after no accidental or a flat is absorbed as one more flat |
| Spelling.HelpersOnSpelling | frontend/utils/enharmonic.js:118-129 | the three helpers together, on a spelling |
| Spelling.DecompositionRoundTrip | frontend/utils/enharmonic.js:118-129 | accidental + letter + suffix reproduces a spelling iff its letter `b` is not absorbed |
| Spelling.GlyphOfDigit | frontend/utils/enharmonic.js:157-164 | each digit's sub- and superscript glyphs read back as the digit, the two are told apart, and neither is a note letter |
| Spelling.GroupDisplayRoundTrip | frontend/utils/enharmonic.js:144-153 | `-n` is shown as subscript `n` and `n` as superscript `n`, and the shown suffix reads back to the suffix |
| Spelling.AccidentalIntended | frontend/utils/enharmonic.js:118-121 | corrected helper: on a spelling it gives exactly the spelled accidental |
| Spelling.DisplayIntendedRoundTrip | frontend/utils/enharmonic.js:136-155 | corrected display: reading the display of a spelling back gives the spelling |
| Spelling.DisplayIntendedInjective | frontend/utils/enharmonic.js:136-155 | corrected display: two spellings share a display iff they are equal |
| Spelling.DisplayAsWritten | frontend/utils/enharmonic.js:136-155 | `formatDisplay` is the corrected display, with an extra leading `b` exactly for the absorbed-letter spellings |
| Spelling.DisplayAsWrittenReadsBack | frontend/utils/enharmonic.js:136-155 | as written, the display of an absorbed-letter spelling reads back as that spelling with one more flat |
| Spelling.ExtraFlatIsLower | frontend/utils/enharmonic.js:118-121 | that extra flat names a pitch one semitone lower |
| Spelling.DisplayCollision | frontend/utils/enharmonic.js:136-155 | `formatDisplay('bb')` and `formatDisplay('bbb')` are both `bbb`, while the two tokens are a semitone apart |
| Text.WordsAreWords | frontend/utils/enharmonic.js:96 | the tokenizer never yields an empty token or one containing whitespace |
| Text.WordsOfJoin | frontend/utils/enharmonic.js:96 | splitting the space-join of words gives the words back |
| Text.Lower | frontend/utils/solfege.js:27 | each character is mapped by ASCII lower-casing, and the length is kept |
| Text.LowerIdempotent | frontend/utils/solfege.js:27 | lower-casing twice is lower-casing once |
| Text.Upper | frontend/pages/PianoPage.jsx:134 | each character is mapped by ASCII upper-casing, and the length is kept |
| Decimal.NatToString | frontend/utils/time.js:11 | `String(n)` is digits only: one digit iff `n < 10`, two iff `10 <= n < 100` |
| Decimal.NatToStringRoundTrip | frontend/utils/time.js:11 | the digits read back as `n` |
| Decimal.IntToString | frontend/audio/pianoEngine.js:124 | a negative number is written as `-` followed by digits |
| Decimal.PadStart | frontend/utils/time.js:11-12 | `padStart` reaches the width, keeps the string as its tail and fills the rest |
| Decimal.PadTwoValue | frontend/utils/time.js:11-12 | padding a number's digits to two keeps its value |
| JsNumber.Or | frontend/store/useMetronomeStore.js:26 | `x \|\| d` is `x` when `x` is truthy and `d` otherwise |
| JsNumber.Max | frontend/store/useMetronomeStore.js:24 | `Math.max(lo, x)` is NaN iff `x` is, and otherwise at least `lo` |
| JsNumber.Min | frontend/store/useMetronomeStore.js:24 | `Math.min(hi, x)` is NaN iff `x` is, and otherwise at most `hi` |
| JsNumber.ClampSpec | frontend/store/useMetronomeStore.js:24 | `clamp` keeps NaN, puts any other number in `[lo, hi]` (infinities at the nearer bound), and leaves an in-range number unchanged |
| Time.TwoDigits | frontend/utils/time.js:11-12 | the padded field is digits with value `n`, at least two long, and exactly two iff `n < 100` |
| Time.ShownSeconds | frontend/utils/time.js:7-8 | a positive finite duration shows `floor(ms / 1000)` seconds; a falsy or negative one shows 0 |
| Time.ClockRoundTrip | frontend/utils/time.js:8-13 | the output is `mm:ss` with digit fields; parsing it back gives `totalSec`; the seconds field is below 60; the output is five long iff `totalSec < 6000` |
| Time.FormatDurationZero | frontend/utils/time.js:7 | a falsy or negative duration formats as `00:00` |
| Solfege.SyllableShape | frontend/utils/solfege.js:6-16 | every syllable is two or three lower-case letters naming a degree 1..7 |
| Solfege.EveryDegreeNamed | frontend/utils/solfege.js:6-16 | each degree 1..7 has a syllable that maps to it |
| Solfege.KeepLowerLetters | frontend/utils/solfege.js:30 | stripping keeps only lower-case letters and never lengthens the word |
| Solfege.PropertyOf | frontend/utils/solfege.js:28 | a property read of the table is `undefined` iff the word is neither a syllable nor an inherited `Object.prototype` member |
| Solfege.InheritedAnswered | frontend/utils/solfege.js:28 | as written, a word whose lower case names an inherited member is answered with that member |
| Solfege.ConstructorIsInherited | frontend/utils/solfege.js:28 | as written, `mapWordToNumber('constructor')` returns the inherited `constructor`, not a degree or `undefined` |
| Solfege.MapWordToNumberAsWritten | frontend/utils/solfege.js:25-33 | as written: a missing or empty word gives `undefined`; an answer is a degree in 1..7 or an inherited `Object.prototype` member |
| Solfege.CaseInsensitiveAsWritten | frontend/utils/solfege.js:27 | as written, words that differ only in ASCII case map the same |
| Solfege.MapWordToNumber | frontend/utils/solfege.js:25-33 | corrected, own keys only (see "Findings"): a missing or empty word gives nothing, and any answer is a degree in 1..7 |
| Solfege.SyllablesRecognised | frontend/utils/solfege.js:11-15 | every syllable, lower- or upper-case, maps to its own degree (`so`/`sol` to 5, `ti`/`si` to 7) |
| Solfege.CaseInsensitive | frontend/utils/solfege.js:27 | for the corrected lookup, words that differ only in ASCII case map the same |
| Solfege.TrailingNonLettersIgnored | frontend/utils/solfege.js:30-31 | for the corrected lookup, a syllable followed by non-letters (`do!`) maps to the syllable's degree |
| Solfege.LowerCaseInheritedMembers | frontend/utils/solfege.js:30-31 | stripping an inherited member's name never yields a syllable |
| Solfege.AsWrittenAgreesOnDegrees | frontend/utils/solfege.js:25-33 | the lookup as written and the corrected lookup agree on every degree they return; only inherited members separate them |
| Session.InitialKey | frontend/store/useSyllableStore.js:71-74 | the persisted key is kept iff it names a preset, otherwise the default; with a default preset the result is always a preset |
| Session.SequencePresetsOrdered | frontend/store/useSyllableStore.js:41-46 | four presets; harder ones ask for more items (6, 8, 10, 12) in less time each |
| Session.SkipPrevBijection | frontend/store/useSyllableStore.js:59-61 | for `prev` in 1..7 the step maps 0..5 one-to-one onto the six other degrees |
| Session.NoRepeat | frontend/store/useSyllableStore.js:53-65 | one degree per draw |
| Session.NoRepeatValid | frontend/store/useSyllableStore.js:56-62 | every degree is in 1..7 and no two adjacent degrees are equal |
| Session.NoRepeatPrefix | frontend/store/useSyllableStore.js:57-63 | later draws never change earlier degrees |
| Session.NoRepeatSequence | frontend/store/useSyllableStore.js:53-65 | the push loop gives `[]` for a count of at most 0, and otherwise `count` degrees in 1..7 with no adjacent repeat |
| IntervalStore.IntervalPresetsOrdered | frontend/store/useIntervalStore.js:18-23 | four presets, asking for 4, 6, 8 and 10 questions |
| IntervalStore.GenerateQuestions | frontend/store/useIntervalStore.js:56 | the push loop fills `count` questions, the i-th generated from the i-th draw |
| IntervalStore.IntervalStore.constructor | frontend/store/useIntervalStore.js:32-44 | starts in `select` with no questions or answers and the persisted or default difficulty |
| IntervalStore.IntervalStore.SetDifficulty | frontend/store/useIntervalStore.js:47-50 | sets the key and its preset; nothing else changes |
| IntervalStore.IntervalStore.Start | frontend/store/useIntervalStore.js:53-58 | `difficulty.count` questions from the draws, `idx` 0, no answers, stage `practice` |
| IntervalStore.IntervalStore.SubmitCurrent | frontend/store/useIntervalStore.js:61-70 | appends exactly one record, graded by `checkAnswer` against the current question; `idx` goes up by one; the questions are kept; the stage is `results` iff that was the last question; `answers.length == idx` is preserved |
| IntervalStore.IntervalStore.Reset | frontend/store/useIntervalStore.js:73 | back to `select` with `idx` 0 and empty lists |
| MajorStore.ScaleTables | frontend/store/useMajorStore.js:22-41 | every white tonic is among all tonics; every tonic has a scale; every scale has 8 tokens, starting and ending on its tonic |
| MajorStore.ScaleMapIsMajor | frontend/store/useMajorStore.js:26-41 | every `SCALE_MAP` entry steps whole, whole, half, whole, whole, whole, half over consecutive letters |
| MajorStore.GradeOfSpec | frontend/store/useMajorStore.js:89-95 | a tonic is correct iff it has a scale and the answer's words equal that scale, in order and with equal length |
| MajorStore.GradeOfScale | frontend/store/useMajorStore.js:88-96 | the scale itself, typed with spaces, is correct, and a missing answer is not |
| MajorStore.GradingSpec | frontend/store/useMajorStore.js:88-96 | the results have exactly the session's tonics as keys, each with that tonic's grade |
| MajorStore.MajorStore.constructor | frontend/store/useMajorStore.js:50-66 | starts in `select` with empty tonics, answers and results, no timing, and the persisted or default key |
| MajorStore.MajorStore.SetDifficulty | frontend/store/useMajorStore.js:69-72 | sets the key and its preset; nothing else changes |
| MajorStore.MajorStore.Start | frontend/store/useMajorStore.js:75-79 | uses the white tonics iff the key is `white`, else all tonics; clears answers and results; records the start time; stage `practice` |
| MajorStore.MajorStore.SetAnswer | frontend/store/useMajorStore.js:82 | only `answers[tonic]` changes; every other key and field is kept |
| MajorStore.MajorStore.Submit | frontend/store/useMajorStore.js:85-99 | the results are the grading of the session tonics; stage `results`; the duration is `now - startedAt` when a start time was recorded |
| MajorStore.MajorStore.Reset | frontend/store/useMajorStore.js:102 | back to `select` with empty tonics, answers and results and no timing |
| SyllableStore.SyllableStore.constructor | frontend/store/useSyllableStore.js:82-87 | starts in `select` with no sequence or attempts and the persisted or default preset |
| SyllableStore.SyllableStore.SetSelectedDifficulty | frontend/store/useSyllableStore.js:93-97 | sets the key and its preset; nothing else changes |
| SyllableStore.SyllableStore.StartSyllablePractice | frontend/store/useSyllableStore.js:100-104 | a no-repeat sequence of `selectedDifficulty.count` degrees, no attempts, stage `practice` |
| SyllableStore.SyllableStore.RecordAttempt | frontend/store/useSyllableStore.js:110 | appends exactly one attempt and keeps the earlier ones |
| SyllableStore.SyllableStore.CompletePractice | frontend/store/useSyllableStore.js:113 | changes only the stage, to `results` |
| SyllableStore.SyllableStore.ResetSyllableTraining | frontend/store/useSyllableStore.js:116 | back to `select` with no sequence or attempts |
| PracticeStore.PracticeStore.constructor | src/store/usePracticeStore.js:28-32 | starts in `select` on the `easy` preset with no sequence or results |
| PracticeStore.PracticeStore.SetDifficulty | src/store/usePracticeStore.js:34-35 | sets the key and its preset; nothing else changes |
| PracticeStore.PracticeStore.StartPractice | src/store/usePracticeStore.js:37-41 | a no-repeat sequence of `difficulty.count` degrees, no results, stage `practice` |
| PracticeStore.PracticeStore.AddResult | src/store/usePracticeStore.js:43 | appends exactly one result and keeps the others |
| PracticeStore.PracticeStore.FinishPractice | src/store/usePracticeStore.js:45 | changes only the stage, to `results` |
| PracticeStore.PracticeStore.Reset | src/store/usePracticeStore.js:47 | back to `select` with no sequence or results |
| MetronomeStore.SettleSpec | frontend/store/useMetronomeStore.js:37 | the setting lands in `[lo, hi]`; zero or NaN falls back; an in-range value is kept; values above or below clamp to the bound |
| MetronomeStore.SettleIdempotent | frontend/store/useMetronomeStore.js:36-40 | setting an already settled value again changes nothing |
| MetronomeStore.InitialSpec | frontend/store/useMetronomeStore.js:26-27 | a missing preference gives the default, and the initial value is in range |
| MetronomeStore.MetronomeStore.constructor | frontend/store/useMetronomeStore.js:26-33 | bpm starts at the settled preference in `[20, 240]`, and beats at the settled preference in `[2, 8]` |
| MetronomeStore.MetronomeStore.SetBpm | frontend/store/useMetronomeStore.js:36-40 | bpm becomes the settled value, falling back to the initial bpm; beats are kept |
| MetronomeStore.MetronomeStore.SetBeats | frontend/store/useMetronomeStore.js:43-47 | beats become the settled value, falling back to the initial beats; bpm is kept |
| PianoEngine.WhiteKeysRise | frontend/audio/pianoEngine.js:110-113 | the seven white keys rise strictly from the base to base + 11 |
| PianoEngine.OctaveNumber | frontend/audio/pianoEngine.js:123 | `Math.floor(baseMidi / 12 - 1)` is the octave whose C range holds the base |
| PianoEngine.LabelForWhiteSpec | frontend/audio/pianoEngine.js:121-125 | the label is the white note's name followed by `floor(base / 12) - 1` (so `C4` for 60) |
| PianoEngine.OctaveOptionsSpec | frontend/audio/pianoEngine.js:93-99 | five groups with distinct keys, based at 36, 48, 60, 72 and 84, in octaves 2 to 6 |
| PianoEngine.OctaveLabelsMatchKeys | frontend/audio/pianoEngine.js:93-99 | each group's name ends with its range as `labelForWhite` writes it, from C to B |
| PianoEngine.BlackKeysSpec | src/audio/pianoEngine.js:104-105 | the black keys sit between adjacent white keys a whole tone apart; white and black keys together name each of the 12 pitch classes exactly once |
| PianoPage.InitialGroupKeys | frontend/pages/PianoPage.jsx:31-35 | a saved array of three keys is kept, otherwise the default three |
| PianoPage.GroupKeysAreOptionKeys | frontend/pages/PianoPage.jsx:86 | the valid keys are exactly the groups' keys |
| PianoPage.SelectedOptsSpec | frontend/pages/PianoPage.jsx:85-89 | one group per key, a stale key replaced by the first group |
| PianoPage.ClampBase | frontend/pages/PianoPage.jsx:114-115 | the clamped base keeps the 24-key window inside `[36, 83]`, and a base already inside is kept |
| PianoPage.InitialBase | frontend/pages/PianoPage.jsx:111-117 | the initial base always keeps the window inside `[36, 83]` |
| PianoPage.InitialBaseSpec | frontend/pages/PianoPage.jsx:111-117 | a saved base in range is kept (floored), and a non-finite one gives 60 |
| PianoPage.ShiftsWalkOctaves | frontend/pages/PianoPage.jsx:136-150 | from 36, 48 or 60 a shift moves one octave unless at the edge, and a shift followed by the opposite shift returns to the base |
| PianoPage.AllBindingKeys | frontend/pages/PianoPage.jsx:128 | 24 keys: the lower row, then the upper row |
| PianoPage.BindingKeysDistinct | frontend/pages/PianoPage.jsx:120-121 | the 24 keys are distinct and each passes the `^[A-Z0-9]$` test |
| PianoPage.BuildKeyToOffset | frontend/pages/PianoPage.jsx:122-127 | the two loops map exactly the 24 keys, each to its position 0..23 |
| PianoPage.OffsetIsPosition | frontend/pages/PianoPage.jsx:122-127 | a key's offset is its position among the binding keys |
| PianoPage.BindingLabelRoundTrip | frontend/pages/PianoPage.jsx:174-178 | a note has a label iff it lies in the window, and the label's key offset reaches the note |
| PianoPage.KeyName | frontend/pages/PianoPage.jsx:134 | the key name keeps the length of the raw key |
| PianoPage.PianoPage.constructor | frontend/pages/PianoPage.jsx:111-117 | the saved groups and the initial base are taken, no key is held, and the binding map is built |
| PianoPage.PianoPage.HandleChangeGroup | frontend/pages/PianoPage.jsx:91-97 | only position `index` changes |
| PianoPage.PianoPage.MoveTo | frontend/pages/PianoPage.jsx:130-131 | moving the window starts a fresh set of held keys |
| PianoPage.PianoPage.OnKeyDown | frontend/pages/PianoPage.jsx:132-161 | `-` shifts the window down an octave and `+` up, with the clamp; a bound key not yet held is held and always plays a note in `[36, 83]` whose binding label is that key; any other key changes nothing |
| PianoPage.PianoPage.OnKeyUp | frontend/pages/PianoPage.jsx:162-165 | the released key is no longer held |
| MetronomePage.StrengthCycle | src/pages/MetronomePage.jsx:15-20 | a click always changes the accent |
| MetronomePage.StrengthCycleOrder | src/pages/MetronomePage.jsx:15-20 | three clicks restore the accent, two never do |
| MetronomePage.VoicesOrdered | src/pages/MetronomePage.jsx:146-152 | stronger accents click louder, and each accent has its own note |
| MetronomePage.InitialPatternIsFit | src/pages/MetronomePage.jsx:57 | the initial pattern is a strong beat then weak beats, the same as resizing an empty pattern |
| MetronomePage.FitIdempotent | src/pages/MetronomePage.jsx:62-73 | resizing twice to the same length is resizing once, and a pattern that already starts strong is unchanged |
| MetronomePage.FitShrinkGrow | src/pages/MetronomePage.jsx:62-73 | after shrinking then growing, the beats kept by both sizes survive and the rest are weak |
| MetronomePage.MetronomePage.constructor | src/pages/MetronomePage.jsx:57-59 | the initial pattern for the store's beats, stopped |
| MetronomePage.MetronomePage.BeatsChanged | src/pages/MetronomePage.jsx:62-196 | the resize effect (62-73): the pattern takes the new length, index 0 is strong, kept beats survive and new ones are weak; the rotation effect (192-196): while playing, the next beat is reduced modulo the new count, so it stays in `[0, beats)` |
| MetronomePage.MetronomePage.HandleBeatClick | src/pages/MetronomePage.jsx:177-183 | only the clicked beat changes, to its cycled accent |
| MetronomePage.MetronomePage.Start | src/pages/MetronomePage.jsx:134-159 | playing from beat 0 with no beat shown |
| MetronomePage.MetronomePage.Tick | src/pages/MetronomePage.jsx:142-155 | plays the voice of the current beat's accent, shows that beat and moves to the next beat modulo the bar |
| MetronomePage.MetronomePage.Stop | src/pages/MetronomePage.jsx:161-170 | stopped, the next beat is 0 and no beat is shown |

## Left out

- Randomness is not modelled as a distribution: each `Math.random()` draw is a parameter in `[0, 1)`, so uniformity is out of scope.
- Persistence (`getPref`/`setPref`, `window.prefs`, `localStorage`): values read back are constructor parameters; writes are not modelled.
- `Date.now()` is a parameter of the major store's `start` and `submit`.
- Audio (Tone.js synths and transport scheduling, the `PianoEngine` classes, `midiToFreq`), the fetched instrument manifest, the React rendering, the WebSocket client, the microphone and the backend recognizer are not modelled.
- `src/utils/enharmonic.js` is not part of this model. The `src/` interval store is modelled by the same `IntervalStore` class, with the question engine and answer check of `frontend/utils/enharmonic.js` standing in for the ones it imports.
- The metronome store read by `src/pages/MetronomePage.jsx` is not part of this model. The page takes its beat count, 2..8, as a parameter, as the store in `frontend/store/useMetronomeStore.js` guarantees.
- `formatToken` (frontend/utils/enharmonic.js:302-304) is the same function as `Spelling.FormatDisplay`.
- `generateBaseIndex` (frontend/utils/enharmonic.js:240-242) is `Enharmonic.RandomInt` over the base range, inlined in `GenerateQuestion`.
- Case mapping covers ASCII letters only; `toLowerCase`/`toUpperCase` of other scripts are not modelled.
- Store presets are looked up among their own keys; a persisted key naming an inherited `Object.prototype` member is not modelled.
- Text.Lower: ASCII-only, so `mapWordToNumber` on words with non-ASCII capitals is modelled only up to ASCII case.
- Time.ShownSeconds: `ms` is a number; `formatDuration` of a non-number (a string, an object) is not modelled, and minute counts large enough for JavaScript to write in exponent notation are written as plain digits.
- MetronomeStore.Settle: `Number(v)` of a non-number argument is not modelled; `v` is already a number.
- MetronomePage.MetronomePage.BeatsChanged: the beat count is an integer 2..8; fractional beat counts, which the store's clamp lets through, are not modelled.
- MetronomePage.MetronomePage.HandleBeatClick: clicks outside the pattern, which would leave a hole in the array, are excluded by its requires.
- PianoPage.KeyName: key names are strings of characters, and the binding map keys are characters; upper-casing is ASCII only.
- PianoPage.InitialBase: the saved preference is passed as the number `Number()` makes of it; that conversion is not modelled.
- IntervalStore.IntervalStore.Start: requires a selected preset. `setDifficulty` stores any key, and for a key that is not a preset the source reads `count` of `undefined` and throws a TypeError; the selector offers only preset keys.
- IntervalStore.IntervalStore.SubmitCurrent: requires a current question. With `idx` past the last question the source reads `semitone` of `undefined` and throws a TypeError; the runner submits only in the practice stage.
- SyllableStore.SyllableStore.StartSyllablePractice: requires a selected preset. For a stored key that is not a preset the source reads `count` of `undefined` and throws a TypeError; the selector offers only preset keys.
- PracticeStore.PracticeStore.StartPractice: requires a selected preset. For a stored key that is not a preset the source reads `count` of `undefined` and throws a TypeError; the selector offers only preset keys.
- Time.ShownSeconds: floors the exact rational `ms / 1000`, while the source floors `ms / 1000` computed in double precision, so the two can differ where rounding crosses a whole second.
- The accuracy percentages of the result views and the practice runners' timers are not modelled.

## Findings

| source | as written | input that shows it | evidently intended | confidence | as-written member | corrected member |
|---|---|---|---|---|---|---|
| frontend/utils/enharmonic.js:118-121, 136-155 | `accidentalOf` tries `bb` before the letter, so for the spellings `b`, `b1`, `b2`, `bb`, `bb1`, `bb2` the note letter `b` is read as one more flat and `formatDisplay` shows an extra `b` | `formatDisplay('bb')` and `formatDisplay('bbb')` are both `bbb`, although `bb` (B flat) and `bbb` (B double flat) are a semitone apart | the accidental is what precedes the note letter, so the display shows each spelling as written and reads back to it | high, not executed | Spelling.DisplayCollision | Spelling.DisplayIntendedRoundTrip |
| frontend/utils/solfege.js:28, 31 | `w in solfegeToNumber` also finds members inherited from `Object.prototype` | `mapWordToNumber('constructor')` returns the `Object` constructor function, not a degree or `undefined` | only the table's own syllables are looked up, so every answer is a degree 1..7 or `undefined` | high, not executed | Solfege.ConstructorIsInherited | Solfege.AsWrittenAgreesOnDegrees |

The question engine keeps `formatDisplay` as written: `Enharmonic.GenerateQuestionTokens` states that the prompt display is `Spelling.FormatDisplay` of the prompt token, and the extra `b` is part of the prompt the application shows. The corrected display `Spelling.FormatDisplayIntended` is proved injective and readable beside it. The lookup the model provides is the corrected `Solfege.MapWordToNumber`; its callers, the practice runners, are not modelled.
