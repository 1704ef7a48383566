/** What the practice stores share: the stage of a session, difficulty presets and
    the choice of the initial preset key from a persisted preference. */
module Session {
  import opened Wrappers
  import Enharmonic

  /** `'select' | 'practice' | 'results'`. */
  datatype Stage = Select | Practice | Results

  /** A difficulty preset: its label, the time allowed per item and the item count. */
  datatype Preset = Preset(name: string, intervalMs: nat, count: nat)

  /** `getInitialKey()`: the persisted key when it names a preset, otherwise the
      default. Persistence is the parameter `saved`; `None` is a missing entry. */
  function InitialKey<V>(saved: Option<string>, presets: map<string, V>, default: string): (k: string)
    ensures saved.Some? && saved.value in presets ==> k == saved.value
    ensures !(saved.Some? && saved.value in presets) ==> k == default
    ensures default in presets ==> k in presets
  {
    if saved.Some? && saved.value in presets then saved.value else default
  }

  /** Sequence presets of the syllable and practice stores (both files hold the same
      table). */
  const SequencePresets: map<string, Preset> := map[
    "easy" := Preset("简单", 2500, 6),
    "medium" := Preset("中等", 1800, 8),
    "hard" := Preset("困难", 1200, 10),
    "extreme" := Preset("极难", 800, 12)]

  /** A harder preset asks for more items in less time per item. */
  lemma SequencePresetsOrdered()
    ensures SequencePresets.Keys == {"easy", "medium", "hard", "extreme"}
    ensures SequencePresets["easy"].count < SequencePresets["medium"].count
            < SequencePresets["hard"].count < SequencePresets["extreme"].count
    ensures SequencePresets["easy"].intervalMs > SequencePresets["medium"].intervalMs
            > SequencePresets["hard"].intervalMs > SequencePresets["extreme"].intervalMs
    ensures forall k :: k in SequencePresets ==> SequencePresets[k].count >= 6
  {
  }

  /** One recorded attempt of a sequence session (`{segmentId, expected, word,
      recognizedNumber, correct, confidence}`); absent fields are `None`. */
  datatype AttemptResult = AttemptResult(
    segmentId: int, expected: int, word: Option<string>, recognizedNumber: Option<int>,
    correct: bool, confidence: Option<real>)

  // ---------------------------------------------------------------------------
  // The no-adjacent-repeat sequence (`generateSyllableSequence`, `randomSequence`)

  /** The skip-previous step: `r + 1`, moved one up when it reaches `prev`. */
  function SkipPrev(prev: int, r: int): int {
    if r + 1 >= prev then r + 2 else r + 1
  }

  /** For a previous degree in 1..7 the step maps 0..5 one-to-one onto the six other
      degrees: it never repeats `prev`, never leaves 1..7, and misses none. */
  lemma SkipPrevBijection(prev: int)
    requires 1 <= prev <= 7
    ensures forall r :: 0 <= r < 6 ==> 1 <= SkipPrev(prev, r) <= 7 && SkipPrev(prev, r) != prev
    ensures forall r1, r2 :: 0 <= r1 < 6 && 0 <= r2 < 6 && SkipPrev(prev, r1) == SkipPrev(prev, r2) ==> r1 == r2
    ensures forall n :: 1 <= n <= 7 && n != prev ==> 0 <= Unskip(prev, n) < 6 && SkipPrev(prev, Unskip(prev, n)) == n
  {
  }

  /** The draw that the skip-previous step turns into degree `n`. */
  function Unskip(prev: int, n: int): int {
    if n < prev then n - 1 else n - 2
  }

  predicate UnitDraws(draws: seq<real>) {
    forall i :: 0 <= i < |draws| ==> 0.0 <= draws[i] < 1.0
  }

  /** The sequence the generator builds from its draws, one element per draw: the
      first uniform in 1..7, each later one by the skip-previous step. */
  function NoRepeat(draws: seq<real>): (s: seq<int>)
    requires UnitDraws(draws)
    ensures |s| == |draws|
    decreases |draws|
  {
    if draws == [] then []
    else if |draws| == 1 then [1 + Enharmonic.RandomIndex(7, draws[0])]
    else
      var s := NoRepeat(draws[..|draws| - 1]);
      s + [SkipPrev(s[|s| - 1], Enharmonic.RandomIndex(6, draws[|draws| - 1]))]
  }

  /** Every element is a degree 1..7 and no two neighbours are equal (the property the
      repository's sequence test asserts). */
  lemma {:induction false} NoRepeatValid(draws: seq<real>)
    requires UnitDraws(draws)
    ensures forall i :: 0 <= i < |draws| ==> 1 <= NoRepeat(draws)[i] <= 7
    ensures forall i :: 1 <= i < |draws| ==> NoRepeat(draws)[i] != NoRepeat(draws)[i - 1]
    decreases |draws|
  {
    if |draws| > 1 {
      var pre := draws[..|draws| - 1];
      NoRepeatValid(pre);
      var s := NoRepeat(pre);
      SkipPrevBijection(s[|s| - 1]);
    }
  }

  /** Earlier draws fix the earlier elements: extending the draws extends the
      sequence. */
  lemma {:induction false} NoRepeatPrefix(draws: seq<real>, n: nat)
    requires UnitDraws(draws) && n <= |draws|
    ensures NoRepeat(draws[..n]) == NoRepeat(draws)[..n]
    decreases |draws|
  {
    if n < |draws| {
      var pre := draws[..|draws| - 1];
      assert draws[..n] == pre[..n];
      NoRepeatPrefix(pre, n);
    } else {
      assert draws[..n] == draws;
    }
  }

  /** Degrees 1..7 with no two neighbours equal. */
  predicate DegreeSequence(s: seq<int>) {
    && (forall i :: 0 <= i < |s| ==> 1 <= s[i] <= 7)
    && (forall i :: 1 <= i < |s| ==> s[i] != s[i - 1])
  }

  /** The generator: nothing for a count of zero or less, otherwise one element per
      draw, pushed in a loop that reads the previous element. */
  method NoRepeatSequence(count: int, draws: seq<real>) returns (s: seq<int>)
    requires UnitDraws(draws) && (count > 0 ==> |draws| >= count)
    ensures count <= 0 ==> s == []
    ensures count > 0 ==> s == NoRepeat(draws[..count])
    ensures |s| == if count <= 0 then 0 else count
    ensures DegreeSequence(s)
  {
    s := [];
    if count <= 0 {
      return;
    }
    s := s + [1 + Enharmonic.RandomIndex(7, draws[0])];
    assert draws[..1] == [draws[0]];
    var i := 1;
    while i < count
      invariant 1 <= i <= count
      invariant s == NoRepeat(draws[..i])
    {
      var prev := s[i - 1];
      var r := Enharmonic.RandomIndex(6, draws[i]);
      var n := r + 1;
      if n >= prev {
        n := n + 1;
      }
      s := s + [n];
      assert draws[..i + 1][..i] == draws[..i];
      i := i + 1;
    }
    NoRepeatValid(draws[..count]);
  }
}
