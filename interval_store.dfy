/** The interval practice store: difficulty selection, a session of generated
    questions, one graded submission per question, and the results stage. */
module IntervalStore {
  import opened Wrappers
  import opened Session
  import opened Enharmonic

  const IntervalPresets: map<string, Preset> := map[
    "easy" := Preset("简单", 48000, 4),
    "medium" := Preset("中等", 36000, 6),
    "hard" := Preset("困难", 26000, 8),
    "extreme" := Preset("极难", 20000, 10)]

  /** Every preset asks for at least one question, and harder ones for more. */
  lemma IntervalPresetsOrdered()
    ensures IntervalPresets.Keys == {"easy", "medium", "hard", "extreme"}
    ensures forall k :: k in IntervalPresets ==> IntervalPresets[k].count >= 4
    ensures IntervalPresets["easy"].count < IntervalPresets["medium"].count
            < IntervalPresets["hard"].count < IntervalPresets["extreme"].count
  {
  }

  /** The preset a key selects asks for at least four questions. */
  lemma SelectedPresetCount(key: string)
    requires key in IntervalPresets
    ensures IntervalPresets[key].count >= 4
  {
    IntervalPresetsOrdered();
  }

  predicate AllValidDraws(ds: seq<Draws>) {
    forall i :: 0 <= i < |ds| ==> ValidDraws(ds[i])
  }

  /** `xs.map(f)` for a function defined on every element. */
  function MapAll<T, U>(f: T --> U, xs: seq<T>): (ys: seq<U>)
    requires forall k :: 0 <= k < |xs| ==> f.requires(xs[k])
    ensures |ys| == |xs|
    ensures forall k :: 0 <= k < |xs| ==> ys[k] == f(xs[k])
  {
    seq(|xs|, k requires 0 <= k < |xs| => f(xs[k]))
  }

  /** Mapping one more element adds its image at the end. */
  lemma MapAllSnoc<T, U>(f: T --> U, xs: seq<T>, i: nat)
    requires i < |xs| && forall k :: 0 <= k < |xs| ==> f.requires(xs[k])
    ensures MapAll(f, xs[..i + 1]) == MapAll(f, xs[..i]) + [f(xs[i])]
  {
    var l, r := MapAll(f, xs[..i + 1]), MapAll(f, xs[..i]) + [f(xs[i])];
    forall k | 0 <= k < i + 1 ensures l[k] == r[k] {
      assert xs[..i + 1][k] == xs[k];
    }
  }

  /** The questions `start` generates, one per set of draws, in order: question `i`
      is the one generated from draw `i`. */
  function Questions(ds: seq<Draws>): (qs: seq<Question>)
    requires AllValidDraws(ds)
    ensures |qs| == |ds|
  {
    MapAll(GenerateQuestion, ds)
  }

  /** The push loop of `start`: `count` questions, one per set of draws. */
  method GenerateQuestions(draws: seq<Draws>, count: nat) returns (qs: seq<Question>)
    requires AllValidDraws(draws) && count <= |draws|
    ensures qs == Questions(draws[..count])
    ensures |qs| == count
  {
    qs := [];
    var i := 0;
    while i < count
      invariant 0 <= i <= count
      invariant qs == Questions(draws[..i])
    {
      var q := GenerateQuestion(draws[i]);
      MapAllSnoc(GenerateQuestion, draws, i);
      qs := qs + [q];
      i := i + 1;
    }
  }

  /** One submission: both inputs as typed and whether each was accepted. */
  datatype AnswerRecord = AnswerRecord(semiInput: string, semiCorrect: bool, wholeInput: string, wholeCorrect: bool)

  /** The record a submission for question `q` makes. */
  predicate Grades(rec: AnswerRecord, q: Question) {
    && rec.semiCorrect == Accepts(rec.semiInput, q.semitone.expected)
    && rec.wholeCorrect == Accepts(rec.wholeInput, q.whole.expected)
  }

  class IntervalStore {
    var stage: Stage
    var difficultyKey: string
    /** `intervalDifficultyPresets[key]`; `None` when the key names no preset. */
    var difficulty: Option<Preset>
    var questions: seq<Question>
    var idx: nat
    var answers: seq<AnswerRecord>

    /** The session invariant: one record per question answered so far, each grading
        its question; a practice session has a current question, and the results
        stage comes after the last one. */
    predicate Valid()
      reads this
    {
      && difficulty == Get(IntervalPresets, difficultyKey)
      && |answers| == idx <= |questions|
      && (forall k :: 0 <= k < idx ==> Grades(answers[k], questions[k]))
      && (stage == Select ==> questions == [] && idx == 0)
      && (stage == Practice ==> idx < |questions|)
      && (stage == Results ==> idx == |questions|)
    }

    /** The store as created: the persisted key if it names a preset, else `easy`. */
    constructor (saved: Option<string>)
      ensures Valid()
      ensures stage == Select && questions == [] && answers == [] && idx == 0
      ensures difficultyKey == InitialKey(saved, IntervalPresets, "easy")
      ensures difficulty.Some?
    {
      var key := InitialKey(saved, IntervalPresets, "easy");
      stage := Select;
      difficultyKey := key;
      difficulty := Get(IntervalPresets, key);
      questions := [];
      idx := 0;
      answers := [];
    }

    /** `setDifficulty(key)`: the key and its preset, or no preset for an unknown key;
        nothing else changes. */
    method SetDifficulty(key: string)
      requires Valid()
      modifies this
      ensures Valid()
      ensures difficultyKey == key && difficulty == Get(IntervalPresets, key)
      ensures stage == old(stage) && questions == old(questions)
      ensures idx == old(idx) && answers == old(answers)
    {
      difficultyKey := key;
      difficulty := Get(IntervalPresets, key);
    }

    /** `start()`: `difficulty.count` generated questions, no answers, stage practice.
        The source reads `count` off the preset, so a preset must be selected. */
    method Start(draws: seq<Draws>)
      requires Valid() && difficulty.Some?
      requires |draws| >= difficulty.value.count
      requires AllValidDraws(draws)
      modifies this
      ensures Valid()
      ensures stage == Practice && idx == 0 && answers == []
      ensures questions == Questions(draws[..old(difficulty).value.count])
      ensures difficultyKey == old(difficultyKey) && difficulty == old(difficulty)
    {
      SelectedPresetCount(difficultyKey);
      var count := difficulty.value.count;
      var qs := GenerateQuestions(draws, count);
      stage, questions, idx, answers := Practice, qs, 0, [];
    }

    /** `submitCurrent(semiInput, wholeInput)`: grade both inputs against the current
        question, append the record and advance; the stage becomes results exactly
        after the last question. The source reads `questions[idx]`, so there must be
        a current question. */
    method SubmitCurrent(semiInput: string, wholeInput: string)
      requires Valid() && idx < |questions|
      modifies this
      ensures Valid()
      ensures idx == old(idx) + 1 && questions == old(questions)
      ensures |answers| == |old(answers)| + 1 && answers[..|answers| - 1] == old(answers)
      ensures answers[|answers| - 1].semiInput == semiInput && answers[|answers| - 1].wholeInput == wholeInput
      ensures answers[|answers| - 1].semiCorrect == Accepts(semiInput, questions[old(idx)].semitone.expected)
      ensures answers[|answers| - 1].wholeCorrect == Accepts(wholeInput, questions[old(idx)].whole.expected)
      ensures stage == (if old(idx) + 1 >= |questions| then Results else Practice)
      ensures difficultyKey == old(difficultyKey) && difficulty == old(difficulty)
    {
      var q := questions[idx];
      var semiCorrect := CheckAnswer(semiInput, q.semitone.expected);
      var wholeCorrect := CheckAnswer(wholeInput, q.whole.expected);
      var rec := AnswerRecord(semiInput, semiCorrect, wholeInput, wholeCorrect);
      var isLast := idx + 1 >= |questions|;
      answers := answers + [rec];
      idx := idx + 1;
      stage := if isLast then Results else Practice;
    }

    /** `reset()`: back to selection with no questions or answers. */
    method Reset()
      requires Valid()
      modifies this
      ensures Valid()
      ensures stage == Select && idx == 0 && answers == [] && questions == []
      ensures difficultyKey == old(difficultyKey) && difficulty == old(difficulty)
    {
      stage, idx, answers, questions := Select, 0, [], [];
    }
  }
}
