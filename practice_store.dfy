/** The practice store of the older front end: the same session as the syllable
    store, starting from the `easy` preset with no persisted preference. */
module PracticeStore {
  import opened Wrappers
  import opened Session

  class PracticeStore {
    var stage: Stage
    var difficultyKey: string
    /** `difficultyPresets[key]`; `None` when the key names no preset. */
    var difficulty: Option<Preset>
    var sequence: seq<int>
    var results: seq<AttemptResult>

    /** The preset matches its key and the sequence is one the generator can produce. */
    ghost predicate Valid()
      reads this
    {
      && difficulty == Get(SequencePresets, difficultyKey)
      && DegreeSequence(sequence)
    }

    /** The store as created: the `easy` preset, nothing generated. */
    constructor ()
      ensures Valid()
      ensures stage == Select && sequence == [] && results == []
      ensures difficultyKey == "easy" && difficulty == Some(SequencePresets["easy"])
    {
      stage := Select;
      difficultyKey := "easy";
      difficulty := Get(SequencePresets, "easy");
      sequence := [];
      results := [];
    }

    /** `setDifficulty(key)`: the key and its preset, or none for an unknown key. */
    method SetDifficulty(key: string)
      requires Valid()
      modifies this
      ensures Valid()
      ensures difficultyKey == key && difficulty == Get(SequencePresets, key)
      ensures stage == old(stage) && sequence == old(sequence) && results == old(results)
    {
      difficultyKey := key;
      difficulty := Get(SequencePresets, key);
    }

    /** `startPractice()`: a fresh sequence of `count` degrees from the draws, no
        results, stage practice. A preset must be selected. */
    method StartPractice(draws: seq<real>)
      requires Valid() && difficulty.Some?
      requires UnitDraws(draws) && |draws| >= difficulty.value.count
      modifies this
      ensures Valid()
      ensures stage == Practice && results == []
      ensures sequence == NoRepeat(draws[..old(difficulty).value.count])
      ensures |sequence| == old(difficulty).value.count
      ensures difficultyKey == old(difficultyKey) && difficulty == old(difficulty)
    {
      SequencePresetsOrdered();
      var s := NoRepeatSequence(difficulty.value.count, draws);
      sequence, results, stage := s, [], Practice;
    }

    /** `addResult(r)`: `r` appended to the results, nothing else changes. */
    method AddResult(r: AttemptResult)
      requires Valid()
      modifies this
      ensures Valid()
      ensures results == old(results) + [r]
      ensures stage == old(stage) && sequence == old(sequence)
      ensures difficultyKey == old(difficultyKey) && difficulty == old(difficulty)
    {
      results := results + [r];
    }

    /** `finishPractice()`: the results stage, everything else kept. */
    method FinishPractice()
      requires Valid()
      modifies this
      ensures Valid()
      ensures stage == Results
      ensures sequence == old(sequence) && results == old(results)
      ensures difficultyKey == old(difficultyKey) && difficulty == old(difficulty)
    {
      stage := Results;
    }

    /** `reset()`: back to selection with no sequence or results. */
    method Reset()
      requires Valid()
      modifies this
      ensures Valid()
      ensures stage == Select && sequence == [] && results == []
      ensures difficultyKey == old(difficultyKey) && difficulty == old(difficulty)
    {
      stage, results, sequence := Select, [], [];
    }
  }
}
