/** The syllable (solfège) practice store: a difficulty preset chosen from the
    persisted preference, a generated sequence of scale degrees and the attempts
    recorded against it. Persistence and `Math.random()` are parameters. */
module SyllableStore {
  import opened Wrappers
  import opened Session

  class SyllableStore {
    var viewStage: Stage
    var selectedDifficultyKey: string
    /** `syllableDifficultyPresets[key]`; `None` when the key names no preset. */
    var selectedDifficulty: Option<Preset>
    var questionSequence: seq<int>
    var attemptResults: seq<AttemptResult>

    /** The preset matches its key and the sequence is one the generator can produce. */
    ghost predicate Valid()
      reads this
    {
      && selectedDifficulty == Get(SequencePresets, selectedDifficultyKey)
      && DegreeSequence(questionSequence)
    }

    /** The store as created: the persisted key if it names a preset, else `easy`. */
    constructor (saved: Option<string>)
      ensures Valid()
      ensures viewStage == Select && questionSequence == [] && attemptResults == []
      ensures selectedDifficultyKey == InitialKey(saved, SequencePresets, "easy")
      ensures selectedDifficulty.Some?
    {
      var key := InitialKey(saved, SequencePresets, "easy");
      viewStage := Select;
      selectedDifficultyKey := key;
      selectedDifficulty := Get(SequencePresets, key);
      questionSequence := [];
      attemptResults := [];
    }

    /** `setSelectedDifficulty(key)`: the key and its preset, or none for an unknown
        key; nothing else changes. */
    method SetSelectedDifficulty(key: string)
      requires Valid()
      modifies this
      ensures Valid()
      ensures selectedDifficultyKey == key && selectedDifficulty == Get(SequencePresets, key)
      ensures viewStage == old(viewStage) && questionSequence == old(questionSequence)
      ensures attemptResults == old(attemptResults)
    {
      selectedDifficultyKey := key;
      selectedDifficulty := Get(SequencePresets, key);
    }

    /** `startSyllablePractice()`: a fresh sequence of `count` degrees from the draws,
        no attempts, stage practice. The source reads `count` off the preset, so a
        preset must be selected. */
    method StartSyllablePractice(draws: seq<real>)
      requires Valid() && selectedDifficulty.Some?
      requires UnitDraws(draws) && |draws| >= selectedDifficulty.value.count
      modifies this
      ensures Valid()
      ensures viewStage == Practice && attemptResults == []
      ensures questionSequence == NoRepeat(draws[..old(selectedDifficulty).value.count])
      ensures |questionSequence| == old(selectedDifficulty).value.count
      ensures selectedDifficultyKey == old(selectedDifficultyKey) && selectedDifficulty == old(selectedDifficulty)
    {
      SequencePresetsOrdered();
      var s := NoRepeatSequence(selectedDifficulty.value.count, draws);
      questionSequence, attemptResults, viewStage := s, [], Practice;
    }

    /** `recordAttempt(r)`: `r` appended to the attempts, nothing else changes. */
    method RecordAttempt(r: AttemptResult)
      requires Valid()
      modifies this
      ensures Valid()
      ensures attemptResults == old(attemptResults) + [r]
      ensures viewStage == old(viewStage) && questionSequence == old(questionSequence)
      ensures selectedDifficultyKey == old(selectedDifficultyKey) && selectedDifficulty == old(selectedDifficulty)
    {
      attemptResults := attemptResults + [r];
    }

    /** `completePractice()`: the results stage, everything else kept. */
    method CompletePractice()
      requires Valid()
      modifies this
      ensures Valid()
      ensures viewStage == Results
      ensures questionSequence == old(questionSequence) && attemptResults == old(attemptResults)
      ensures selectedDifficultyKey == old(selectedDifficultyKey) && selectedDifficulty == old(selectedDifficulty)
    {
      viewStage := Results;
    }

    /** `resetSyllableTraining()`: back to selection with no sequence or attempts; the
        difficulty is kept. */
    method ResetSyllableTraining()
      requires Valid()
      modifies this
      ensures Valid()
      ensures viewStage == Select && questionSequence == [] && attemptResults == []
      ensures selectedDifficultyKey == old(selectedDifficultyKey) && selectedDifficulty == old(selectedDifficulty)
    {
      viewStage, attemptResults, questionSequence := Select, [], [];
    }
  }
}
