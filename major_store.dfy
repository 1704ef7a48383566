/** The major-scale practice store: the tonic lists, the table of expected scales,
    answers typed per tonic, and grading by exact ordered token equality. Clock
    readings (`Date.now()`) are parameters. */
module MajorStore {
  import opened Wrappers
  import opened Text
  import opened Session
  import opened Spelling

  datatype MajorPreset = MajorPreset(key: string, name: string, description: string)

  const MajorPresets: map<string, MajorPreset> := map[
    "white" := MajorPreset("white", "仅白键出发", "C D E F G A B"),
    "all" := MajorPreset("all", "包含黑键出发", "含所有起始音（含 # / b）")]

  const WhiteTonics: seq<string> := ["C", "D", "E", "F", "G", "A", "B"]

  const AllTonics: seq<string> :=
    ["C", "#C", "bD", "D", "bE", "E", "F", "#F", "bG", "G", "bA", "A", "bB", "B"]

  /** The expected scale of each tonic, eight tokens from tonic to tonic. */
  const ScaleMap: map<string, seq<string>> := map[
    "C" := ["C", "D", "E", "F", "G", "A", "B", "C"],
    "#C" := ["#C", "#D", "#E", "#F", "#G", "#A", "#B", "#C"],
    "bD" := ["bD", "bE", "F", "bG", "bA", "bB", "C", "bD"],
    "D" := ["D", "E", "#F", "G", "A", "B", "#C", "D"],
    "bE" := ["bE", "F", "G", "bA", "bB", "C", "D", "bE"],
    "E" := ["E", "#F", "#G", "A", "B", "#C", "#D", "E"],
    "F" := ["F", "G", "A", "bB", "C", "D", "E", "F"],
    "#F" := ["#F", "#G", "#A", "B", "#C", "#D", "#E", "#F"],
    "bG" := ["bG", "bA", "bB", "bC", "bD", "bE", "F", "bG"],
    "G" := ["G", "A", "B", "C", "D", "E", "#F", "G"],
    "bA" := ["bA", "bB", "C", "bD", "bE", "F", "G", "bA"],
    "A" := ["A", "B", "#C", "D", "E", "#F", "#G", "A"],
    "bB" := ["bB", "C", "D", "bE", "F", "G", "A", "bB"],
    "B" := ["B", "#C", "#D", "E", "#F", "#G", "#A", "B"]]

  /** Every tonic a session can use has a scale of eight tokens that starts and ends
      on the tonic, and the white tonics are among all tonics. */
  lemma ScaleTables()
    ensures forall t :: t in WhiteTonics ==> t in AllTonics
    ensures forall t :: t in AllTonics ==> t in ScaleMap
    ensures forall t :: t in ScaleMap ==> |ScaleMap[t]| == 8 && ScaleMap[t][0] == t && ScaleMap[t][7] == t
  {
  }

  // ---------------------------------------------------------------------------
  // The scales are major scales

  /** A scale token: an optional `#` or `b` before an upper-case letter. */
  predicate IsNote(tok: string) {
    (|tok| == 1 && 'A' <= tok[0] <= 'G') || (|tok| == 2 && (tok[0] == '#' || tok[0] == 'b') && 'A' <= tok[1] <= 'G')
  }

  /** The pitch class of a scale token, 0 for C. */
  function PitchClass(tok: string): int
    requires IsNote(tok)
  {
    var raw := if |tok| == 1 then LetterStep(tok[0])
               else LetterStep(tok[1]) + (if tok[0] == '#' then 1 else -1);
    if raw < 0 then raw + 12 else if raw >= 12 then raw - 12 else raw
  }

  /** The position of a token's letter in C D E F G A B. */
  function LetterIndex(tok: string): int
    requires IsNote(tok)
  {
    match tok[|tok| - 1]
    case 'C' => 0 case 'D' => 1 case 'E' => 2 case 'F' => 3 case 'G' => 4 case 'A' => 5 case _ => 6
  }

  /** How many semitones pitch class `q` lies above pitch class `p`. */
  function Above(p: int, q: int): int {
    if q >= p then q - p else q - p + 12
  }

  /** Note `b` lies `step` semitones above note `a` and on the next letter. */
  predicate StepUp(a: string, b: string, step: int) {
    && IsNote(a) && IsNote(b)
    && Above(PitchClass(a), PitchClass(b)) == step
    && LetterIndex(b) == (if LetterIndex(a) == 6 then 0 else LetterIndex(a) + 1)
  }

  /** Whole, whole, half, whole, whole, whole, half. */
  const MajorSteps: seq<int> := [2, 2, 1, 2, 2, 2, 1]

  /** A major scale spelled correctly: eight notes, each a major-scale step above
      the last, on consecutive letters. */
  predicate IsMajorScale(s: seq<string>) {
    && |s| == 8
    && (forall i :: 0 <= i < 8 ==> IsNote(s[i]))
    && (forall i :: 0 <= i < 7 ==> StepUp(s[i], s[i + 1], MajorSteps[i]))
  }

  /** The seven steps, checked one by one, make a major scale. */
  lemma MajorBySteps(s: seq<string>)
    requires |s| == 8
    requires StepUp(s[0], s[1], 2) && StepUp(s[1], s[2], 2) && StepUp(s[2], s[3], 1)
    requires StepUp(s[3], s[4], 2) && StepUp(s[4], s[5], 2) && StepUp(s[5], s[6], 2)
    requires StepUp(s[6], s[7], 1)
    ensures IsMajorScale(s)
  {
    forall i | 0 <= i < 7
      ensures StepUp(s[i], s[i + 1], MajorSteps[i])
    {
      if i == 0 {
      } else if i == 1 {
      } else if i == 2 {
      } else if i == 3 {
      } else if i == 4 {
      } else if i == 5 {
      } else {
        assert i == 6;
      }
    }
    forall i | 0 <= i < 8
      ensures IsNote(s[i])
    {
      if i < 7 {
        assert StepUp(s[i], s[i + 1], MajorSteps[i]);
      } else {
        assert StepUp(s[6], s[7], 1);
      }
    }
  }

  lemma MajorOfC()
    ensures IsMajorScale(["C", "D", "E", "F", "G", "A", "B", "C"])
  {
    MajorBySteps(["C", "D", "E", "F", "G", "A", "B", "C"]);
  }

  lemma MajorOfCSharp()
    ensures IsMajorScale(["#C", "#D", "#E", "#F", "#G", "#A", "#B", "#C"])
  {
    MajorBySteps(["#C", "#D", "#E", "#F", "#G", "#A", "#B", "#C"]);
  }

  lemma MajorOfDFlat()
    ensures IsMajorScale(["bD", "bE", "F", "bG", "bA", "bB", "C", "bD"])
  {
    MajorBySteps(["bD", "bE", "F", "bG", "bA", "bB", "C", "bD"]);
  }

  lemma MajorOfD()
    ensures IsMajorScale(["D", "E", "#F", "G", "A", "B", "#C", "D"])
  {
    MajorBySteps(["D", "E", "#F", "G", "A", "B", "#C", "D"]);
  }

  lemma MajorOfEFlat()
    ensures IsMajorScale(["bE", "F", "G", "bA", "bB", "C", "D", "bE"])
  {
    MajorBySteps(["bE", "F", "G", "bA", "bB", "C", "D", "bE"]);
  }

  lemma MajorOfE()
    ensures IsMajorScale(["E", "#F", "#G", "A", "B", "#C", "#D", "E"])
  {
    MajorBySteps(["E", "#F", "#G", "A", "B", "#C", "#D", "E"]);
  }

  lemma MajorOfF()
    ensures IsMajorScale(["F", "G", "A", "bB", "C", "D", "E", "F"])
  {
    MajorBySteps(["F", "G", "A", "bB", "C", "D", "E", "F"]);
  }

  lemma MajorOfFSharp()
    ensures IsMajorScale(["#F", "#G", "#A", "B", "#C", "#D", "#E", "#F"])
  {
    MajorBySteps(["#F", "#G", "#A", "B", "#C", "#D", "#E", "#F"]);
  }

  lemma MajorOfGFlat()
    ensures IsMajorScale(["bG", "bA", "bB", "bC", "bD", "bE", "F", "bG"])
  {
    MajorBySteps(["bG", "bA", "bB", "bC", "bD", "bE", "F", "bG"]);
  }

  lemma MajorOfG()
    ensures IsMajorScale(["G", "A", "B", "C", "D", "E", "#F", "G"])
  {
    MajorBySteps(["G", "A", "B", "C", "D", "E", "#F", "G"]);
  }

  lemma MajorOfAFlat()
    ensures IsMajorScale(["bA", "bB", "C", "bD", "bE", "F", "G", "bA"])
  {
    MajorBySteps(["bA", "bB", "C", "bD", "bE", "F", "G", "bA"]);
  }

  lemma MajorOfA()
    ensures IsMajorScale(["A", "B", "#C", "D", "E", "#F", "#G", "A"])
  {
    MajorBySteps(["A", "B", "#C", "D", "E", "#F", "#G", "A"]);
  }

  lemma MajorOfBFlat()
    ensures IsMajorScale(["bB", "C", "D", "bE", "F", "G", "A", "bB"])
  {
    MajorBySteps(["bB", "C", "D", "bE", "F", "G", "A", "bB"]);
  }

  lemma MajorOfB()
    ensures IsMajorScale(["B", "#C", "#D", "E", "#F", "#G", "#A", "B"])
  {
    MajorBySteps(["B", "#C", "#D", "E", "#F", "#G", "#A", "B"]);
  }

  /** Every entry of the table is the major scale of its tonic. */
  lemma ScaleMapIsMajor(t: string)
    requires t in ScaleMap
    ensures IsMajorScale(ScaleMap[t])
  {
    if t == "C" {
      assert ScaleMap[t] == ["C", "D", "E", "F", "G", "A", "B", "C"];
      MajorOfC();
    } else if t == "#C" {
      assert ScaleMap[t] == ["#C", "#D", "#E", "#F", "#G", "#A", "#B", "#C"];
      MajorOfCSharp();
    } else if t == "bD" {
      assert ScaleMap[t] == ["bD", "bE", "F", "bG", "bA", "bB", "C", "bD"];
      MajorOfDFlat();
    } else if t == "D" {
      assert ScaleMap[t] == ["D", "E", "#F", "G", "A", "B", "#C", "D"];
      MajorOfD();
    } else if t == "bE" {
      assert ScaleMap[t] == ["bE", "F", "G", "bA", "bB", "C", "D", "bE"];
      MajorOfEFlat();
    } else if t == "E" {
      assert ScaleMap[t] == ["E", "#F", "#G", "A", "B", "#C", "#D", "E"];
      MajorOfE();
    } else if t == "F" {
      assert ScaleMap[t] == ["F", "G", "A", "bB", "C", "D", "E", "F"];
      MajorOfF();
    } else if t == "#F" {
      assert ScaleMap[t] == ["#F", "#G", "#A", "B", "#C", "#D", "#E", "#F"];
      MajorOfFSharp();
    } else if t == "bG" {
      assert ScaleMap[t] == ["bG", "bA", "bB", "bC", "bD", "bE", "F", "bG"];
      MajorOfGFlat();
    } else if t == "G" {
      assert ScaleMap[t] == ["G", "A", "B", "C", "D", "E", "#F", "G"];
      MajorOfG();
    } else if t == "bA" {
      assert ScaleMap[t] == ["bA", "bB", "C", "bD", "bE", "F", "G", "bA"];
      MajorOfAFlat();
    } else if t == "A" {
      assert ScaleMap[t] == ["A", "B", "#C", "D", "E", "#F", "#G", "A"];
      MajorOfA();
    } else if t == "bB" {
      assert ScaleMap[t] == ["bB", "C", "D", "bE", "F", "G", "A", "bB"];
      MajorOfBFlat();
    } else if t == "B" {
      assert ScaleMap[t] == ["B", "#C", "#D", "E", "#F", "#G", "#A", "B"];
      MajorOfB();
    }
  }

  // ---------------------------------------------------------------------------
  // Grading

  /** The result recorded for one tonic. */
  datatype Grade = Grade(correct: bool, expected: Option<seq<string>>, input: seq<string>)

  /** The grade of tonic `t`: the answer's words (an absent answer reads as empty),
      correct when a scale is expected and the words match it position by position. */
  function GradeOf(t: string, answers: map<string, string>): Grade {
    var expected := Get(ScaleMap, t);
    var input := Words(if t in answers then answers[t] else "");
    var correct := expected.Some? && |input| == |expected.value|
                   && forall i :: 0 <= i < |expected.value| ==> expected.value[i] == input[i];
    Grade(correct, expected, input)
  }

  /** An answer is correct exactly when its words are the expected scale, in order. */
  lemma GradeOfSpec(t: string, answers: map<string, string>)
    ensures GradeOf(t, answers).correct <==>
      t in ScaleMap && Words(if t in answers then answers[t] else "") == ScaleMap[t]
  {
    var g := GradeOf(t, answers);
    if t in ScaleMap && g.correct {
      assert g.input == ScaleMap[t];
    }
  }

  /** Typing the scale with any whitespace between its tokens is accepted, and
      typing nothing is not. */
  lemma GradeOfScale(t: string, answers: map<string, string>)
    requires t in ScaleMap
    ensures GradeOf(t, answers[t := Join(ScaleMap[t])]).correct
    ensures !GradeOf(t, answers - {t}).correct
  {
    ScaleMapIsMajor(t);
    assert forall tok :: tok in ScaleMap[t] ==> IsWord(tok);
    WordsOfJoin(ScaleMap[t]);
    GradeOfSpec(t, answers[t := Join(ScaleMap[t])]);
    GradeOfSpec(t, answers - {t});
  }

  /** The results of a submission: the grades of the session tonics, added one by
      one in session order. */
  function Grading(tonics: seq<string>, answers: map<string, string>): map<string, Grade>
    decreases |tonics|
  {
    if tonics == [] then map[]
    else
      var t := tonics[|tonics| - 1];
      Grading(tonics[..|tonics| - 1], answers)[t := GradeOf(t, answers)]
  }

  class MajorStore {
    var stage: Stage
    var difficultyKey: string
    /** `majorDifficultyPresets[key]`; `None` when the key names no preset. */
    var difficulty: Option<MajorPreset>
    var tonics: seq<string>
    var answers: map<string, string>
    var results: map<string, Grade>
    var startedAt: Option<int>
    var durationMs: Option<int>

    /** The session tonics all have a scale; there are results only after a
        submission, and then one per session tonic. */
    ghost predicate Valid()
      reads this
    {
      && difficulty == Get(MajorPresets, difficultyKey)
      && (forall t :: t in tonics ==> t in ScaleMap)
      && (stage == Select ==> tonics == [] && results == map[])
      && (stage == Practice ==> results == map[])
      && (stage == Results ==> forall t :: t in results <==> t in tonics)
    }

    constructor (saved: Option<string>)
      ensures Valid()
      ensures stage == Select && tonics == [] && answers == map[] && results == map[]
      ensures startedAt == None && durationMs == None
      ensures difficultyKey == InitialKey(saved, MajorPresets, "white")
    {
      var key := InitialKey(saved, MajorPresets, "white");
      stage := Select;
      difficultyKey := key;
      difficulty := Get(MajorPresets, key);
      tonics := [];
      answers := map[];
      results := map[];
      startedAt := None;
      durationMs := None;
    }

    /** `setDifficulty(key)`: the key and its preset, or none for an unknown key. */
    method SetDifficulty(key: string)
      requires Valid()
      modifies this
      ensures Valid()
      ensures difficultyKey == key && difficulty == Get(MajorPresets, key)
      ensures stage == old(stage) && tonics == old(tonics) && answers == old(answers)
      ensures results == old(results) && startedAt == old(startedAt) && durationMs == old(durationMs)
    {
      difficultyKey := key;
      difficulty := Get(MajorPresets, key);
    }

    /** `start()`: the white tonics for the `white` key and all tonics for any other,
        with answers and results cleared and the clock started at `now`. */
    method Start(now: int)
      requires Valid()
      modifies this
      ensures Valid()
      ensures stage == Practice
      ensures tonics == if old(difficultyKey) == "white" then WhiteTonics else AllTonics
      ensures answers == map[] && results == map[]
      ensures startedAt == Some(now) && durationMs == None
      ensures difficultyKey == old(difficultyKey) && difficulty == old(difficulty)
    {
      ScaleTables();
      tonics := if difficultyKey == "white" then WhiteTonics else AllTonics;
      stage := Practice;
      answers := map[];
      results := map[];
      startedAt := Some(now);
      durationMs := None;
    }

    /** `setAnswer(tonic, text)`: that tonic's answer and nothing else. */
    method SetAnswer(tonic: string, text: string)
      requires Valid()
      modifies this
      ensures Valid()
      ensures answers == old(answers)[tonic := text]
      ensures forall t :: t != tonic ==> Get(answers, t) == Get(old(answers), t)
      ensures stage == old(stage) && tonics == old(tonics) && results == old(results)
      ensures startedAt == old(startedAt) && durationMs == old(durationMs)
      ensures difficultyKey == old(difficultyKey) && difficulty == old(difficulty)
    {
      answers := answers[tonic := text];
    }

    /** `submit()`: grade every session tonic in a loop, stop the clock at `now`
        (no duration when the session never started) and show the results. */
    method Submit(now: int)
      requires Valid()
      modifies this
      ensures Valid()
      ensures results == Grading(tonics, answers)
      ensures stage == Results
      ensures durationMs == if startedAt.Some? && startedAt.value != 0 then Some(now - startedAt.value) else None
      ensures tonics == old(tonics) && answers == old(answers) && startedAt == old(startedAt)
      ensures difficultyKey == old(difficultyKey) && difficulty == old(difficulty)
    {
      var graded: map<string, Grade> := map[];
      var i := 0;
      while i < |tonics|
        invariant 0 <= i <= |tonics|
        invariant graded == Grading(tonics[..i], answers)
      {
        var t := tonics[i];
        assert tonics[..i + 1][..i] == tonics[..i];
        graded := graded[t := GradeOf(t, answers)];
        i := i + 1;
      }
      assert tonics[..i] == tonics;
      GradingSpec(tonics, answers);
      results := graded;
      stage := Results;
      durationMs := if startedAt.Some? && startedAt.value != 0 then Some(now - startedAt.value) else None;
    }

    /** `reset()`: back to selection with nothing recorded. */
    method Reset()
      requires Valid()
      modifies this
      ensures Valid()
      ensures stage == Select && tonics == [] && answers == map[] && results == map[]
      ensures startedAt == None && durationMs == None
      ensures difficultyKey == old(difficultyKey) && difficulty == old(difficulty)
    {
      stage := Select;
      answers := map[];
      results := map[];
      tonics := [];
      startedAt := None;
      durationMs := None;
    }
  }

  /** A submission records exactly the session tonics, each graded against its scale. */
  lemma {:induction false} GradingSpec(tonics: seq<string>, answers: map<string, string>)
    ensures forall t :: t in Grading(tonics, answers) <==> t in tonics
    ensures forall t :: t in tonics ==> Grading(tonics, answers)[t] == GradeOf(t, answers)
    decreases |tonics|
  {
    if tonics != [] {
      var pre := tonics[..|tonics| - 1];
      GradingSpec(pre, answers);
      assert tonics == pre + [tonics[|tonics| - 1]];
    }
  }
}
