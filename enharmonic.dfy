/** The interval-question engine over the enharmonic catalog: lookups, the random
    choices (each `Math.random()` draw is a parameter `u` with `0 <= u < 1`), question
    generation and answer checking. */
module Enharmonic {
  import opened Wrappers
  import opened Text
  import opened Spelling
  import opened Catalog
  import opened CatalogFacts

  /** `BASE_START_INDEX`: the first class of the second section. */
  const BaseStartIndex: int := LinesBefore(SectionData, 1)

  /** `BASE_END_INDEX`: the last class of the sixth section. */
  const BaseEndIndex: int := LinesBefore(SectionData, 6) - 1

  /** The question range runs from the first to the last class but the lowest section:
      classes 5 to 64 of 65. */
  lemma BaseRange()
    ensures BaseStartIndex == 5 && BaseEndIndex == 64
    ensures |Classes(SectionData)| == 65 && BaseEndIndex == |Classes(SectionData)| - 1
  {
    SectionStarts();
    CatalogSize();
  }

  // ---------------------------------------------------------------------------
  // Lookups

  /** `parseUserInput`: the whitespace-separated words of the input. */
  function ParseUserInput(input: string): (ts: seq<string>)
    ensures forall t :: t in ts ==> IsWord(t)
  {
    WordsAreWords(input);
    Words(input)
  }

  /** Parsing the space-join of a list of words gives the list back. */
  lemma ParseJoin(ts: seq<string>)
    requires forall t :: t in ts ==> IsWord(t)
    ensures ParseUserInput(Join(ts)) == ts
  {
    WordsOfJoin(ts);
  }

  /** `classIndexOfToken`: the entry of `TOKEN_TO_INDEX`, or -1. */
  function ClassIndexOfToken(t: string): int {
    var index := IndexOf(Classes(SectionData));
    if t in index then index[t] else -1
  }

  /** A token maps to class `i` exactly when that class lists it, and to -1 exactly
      when no class does. */
  lemma ClassIndexOfTokenSpec(t: string)
    ensures ClassIndexOfToken(t) == -1 <==> forall i :: 0 <= i < |Classes(SectionData)| ==> t !in Classes(SectionData)[i].tokens
    ensures forall i :: 0 <= i < |Classes(SectionData)| ==> (ClassIndexOfToken(t) == i <==> t in Classes(SectionData)[i].tokens)
  {
    CatalogDisjoint();
    IndexLookup(Classes(SectionData), t);
  }

  /** No token is listed by two classes: each spelling names one pitch. */
  lemma CatalogDisjoint()
    ensures Disjoint(Classes(SectionData))
  {
    var cs := Classes(SectionData);
    CatalogSize();
    forall i, j, t | 0 <= i < |cs| && 0 <= j < |cs| && t in cs[i].tokens && t in cs[j].tokens
      ensures i == j
    {
      CatalogClassFacts(i);
      CatalogClassFacts(j);
    }
  }

  /** `classTokensByIndex`: the tokens of a class, or none outside the catalog. */
  function ClassTokensByIndex(idx: int): (ts: seq<string>)
    ensures 0 <= idx < |Classes(SectionData)| ==> ts == Classes(SectionData)[idx].tokens
  {
    if idx < 0 || idx >= |Classes(SectionData)| then [] else Classes(SectionData)[idx].tokens
  }

  /** The lookup is empty exactly outside the catalog. */
  lemma ClassTokensByIndexSpec(idx: int)
    ensures ClassTokensByIndex(idx) == [] <==> idx < 0 || idx >= |Classes(SectionData)|
  {
    CatalogSize();
    if 0 <= idx < |Classes(SectionData)| {
      CatalogClassFacts(idx);
    }
  }

  /** `stepIndex`: the class `semitones` away, or -1 outside the catalog. */
  function StepIndex(idx: int, semitones: int): (r: int)
    ensures r == -1 || 0 <= r < |Classes(SectionData)|
    ensures 0 <= idx + semitones < |Classes(SectionData)| ==> r == idx + semitones
    ensures idx + semitones < 0 || idx + semitones >= |Classes(SectionData)| ==> r == -1
  {
    var t := idx + semitones;
    if t < 0 || t >= |Classes(SectionData)| then -1 else t
  }

  // ---------------------------------------------------------------------------
  // Random choices

  /** `Math.floor(u * n)` for a draw `u` in [0, 1): an index into `n` items. */
  function RandomIndex(n: nat, u: real): (i: nat)
    requires n > 0 && 0.0 <= u < 1.0
    ensures i < n
  {
    assert 0.0 <= u * n as real < n as real;
    (u * n as real).Floor
  }

  /** `randomInt(min, max)`: an integer of the inclusive range. */
  function RandomInt(min: int, max: int, u: real): (r: int)
    requires 0.0 <= u < 1.0
    ensures min <= max ==> min <= r <= max
  {
    if min <= max then RandomIndex(max - min + 1, u) + min
    else (u * (max - min + 1) as real).Floor + min
  }

  /** `randomDirection(step, minIdx, maxIdx, baseIdx)`: a coin flip without a base;
      otherwise a direction among those that keep `base + dir * step` in range, or 0
      when neither does. */
  function RandomDirection(step: int, minIdx: int, maxIdx: int, baseIdx: Option<int>, u: real): (r: int)
    requires 0.0 <= u < 1.0
    ensures r in {-1, 0, 1}
    ensures baseIdx.None? ==> r != 0
    ensures baseIdx.Some? ==> var b := baseIdx.value;
      && (r == -1 ==> b - step >= minIdx)
      && (r == 1 ==> b + step <= maxIdx)
      && (r == 0 <==> b - step < minIdx && b + step > maxIdx)
  {
    if baseIdx.None? then (if u < 0.5 then -1 else 1)
    else
      var b := baseIdx.value;
      var dirs := (if b - step >= minIdx then [-1] else []) + (if b + step <= maxIdx then [1] else []);
      if dirs == [] then 0 else dirs[RandomIndex(|dirs|, u)]
  }

  /** Within a range at least `2 * step - 1` wide a base in range always has a
      direction, so the generator's fallbacks never fire. */
  lemma RandomDirectionNeverZero(step: int, minIdx: int, maxIdx: int, b: int, u: real)
    requires 0.0 <= u < 1.0 && minIdx <= b <= maxIdx && maxIdx - minIdx >= 2 * step - 1
    ensures RandomDirection(step, minIdx, maxIdx, Some(b), u) != 0
  {
  }

  /** Some token of `ts` reads as accidental `a`. */
  predicate HasAccidental(ts: seq<string>, a: string) {
    exists t :: t in ts && AccidentalOf(t) == a
  }

  /** The order in which present accidentals are listed. */
  const AccidentalOrder: seq<string> := ["#", "X", "b", "bb"]

  /** `order.filter(a => has.has(a))`: the members of `order` some token of `ts` has. */
  function PresentIn(order: seq<string>, ts: seq<string>): (r: seq<string>)
    ensures forall a :: a in r <==> a in order && HasAccidental(ts, a)
  {
    if order == [] then []
    else (if HasAccidental(ts, order[0]) then [order[0]] else []) + PresentIn(order[1..], ts)
  }

  /** The accidentals present among `ts` as `accidentalOf` reads them, in the order
      `#`, `X`, `b`, `bb`. */
  function PresentAccidentals(ts: seq<string>): seq<string> {
    PresentIn(AccidentalOrder, ts)
  }

  /** The list holds exactly the accidentals some token has, and only accidentals. */
  lemma PresentAccidentalsSpec(ts: seq<string>)
    ensures forall a :: a in PresentAccidentals(ts) <==> a != "" && HasAccidental(ts, a)
    ensures forall a :: a in PresentAccidentals(ts) ==> IsAccidental(a)
  {
    forall a | a != "" && HasAccidental(ts, a) ensures a in AccidentalOrder {
      var t :| t in ts && AccidentalOf(t) == a;
      assert IsAccidental(a);
    }
  }

  /** `pickAccidentalPreference`: natural when the first draw is below one half and a
      natural is present; otherwise one of the accidentals present, or natural when
      there is none. */
  function PickAccidentalPreference(ts: seq<string>, natural: real, choice: real): string
    requires 0.0 <= natural < 1.0 && 0.0 <= choice < 1.0
  {
    var hasNatural := exists t :: t in ts && AccidentalOf(t) == "";
    if natural < 0.5 && hasNatural then ""
    else
      var present := PresentAccidentals(ts);
      if present == [] then "" else present[RandomIndex(|present|, choice)]
  }

  /** The preference is natural or an accidental some token has; natural whenever the
      coin says so and a natural exists, and otherwise only when no token carries an
      accidental. */
  lemma PickAccidentalPreferenceSpec(ts: seq<string>, natural: real, choice: real)
    requires 0.0 <= natural < 1.0 && 0.0 <= choice < 1.0
    ensures var r := PickAccidentalPreference(ts, natural, choice);
      && IsAccidental(r)
      && (r == "" || HasAccidental(ts, r))
      && (natural < 0.5 && HasAccidental(ts, "") ==> r == "")
      && (r == "" ==> (natural < 0.5 && HasAccidental(ts, "")) || forall t :: t in ts ==> AccidentalOf(t) == "")
  {
    var present := PresentAccidentals(ts);
    if natural < 0.5 && HasAccidental(ts, "") {
    } else if present == [] {
      NoAccidentalPresent(ts);
    } else {
      PresentAccidentalsSpec(ts);
      var r := present[RandomIndex(|present|, choice)];
      assert r in present;
    }
  }

  /** With no accidental present, every token is natural. */
  lemma NoAccidentalPresent(ts: seq<string>)
    requires PresentAccidentals(ts) == []
    ensures forall t :: t in ts ==> AccidentalOf(t) == ""
  {
    PresentAccidentalsSpec(ts);
    forall t | t in ts ensures AccidentalOf(t) == "" {
      assert HasAccidental(ts, AccidentalOf(t));
    }
  }

  /** The tokens of `ts` whose accidental reads as `a`, in order
      (`ts.filter(t => accidentalOf(t) === a)`). */
  function WithAccidental(ts: seq<string>, a: string): seq<string> {
    if ts == [] then []
    else (if AccidentalOf(ts[0]) == a then [ts[0]] else []) + WithAccidental(ts[1..], a)
  }

  /** The filter keeps exactly the tokens with that accidental. */
  lemma {:induction false} WithAccidentalSpec(ts: seq<string>, a: string)
    ensures forall t :: t in WithAccidental(ts, a) <==> t in ts && AccidentalOf(t) == a
  {
    if ts != [] {
      WithAccidentalSpec(ts[1..], a);
      assert ts == [ts[0]] + ts[1..];
    }
  }

  /** `pickRepresentativeToken(idx, pref)`: a token of the class, preferring the given
      accidental, then a natural, then any; `""` for an index outside the catalog. An
      empty `pref` stands for both `null` and `''`, which the code treats alike. */
  function PickRepresentativeToken(idx: int, pref: string, u: real): string
    requires 0.0 <= u < 1.0
  {
    var toks := ClassTokensByIndex(idx);
    if |toks| == 0 then ""
    else
      var cand := WithAccidental(toks, pref);
      if pref != "" && |cand| > 0 then cand[RandomIndex(|cand|, u)]
      else
        var naturals := WithAccidental(toks, "");
        if |naturals| > 0 then naturals[RandomIndex(|naturals|, u)]
        else toks[RandomIndex(|toks|, u)]
  }

  /** The representative is a member of the class (none outside the catalog), has the
      preferred accidental when a member does, and otherwise is a natural when a member
      is. */
  lemma PickRepresentativeTokenSpec(idx: int, pref: string, u: real)
    requires 0.0 <= u < 1.0
    ensures var r := PickRepresentativeToken(idx, pref, u);
      var toks := ClassTokensByIndex(idx);
      && (toks == [] ==> r == "")
      && (toks != [] ==> r in toks)
      && (pref != "" && HasAccidental(toks, pref) ==> AccidentalOf(r) == pref)
      && ((pref == "" || !HasAccidental(toks, pref)) && HasAccidental(toks, "") ==> AccidentalOf(r) == "")
  {
    var toks := ClassTokensByIndex(idx);
    WithAccidentalSpec(toks, pref);
    WithAccidentalSpec(toks, "");
    if pref != "" && HasAccidental(toks, pref) {
      var t :| t in toks && AccidentalOf(t) == pref;
      assert t in WithAccidental(toks, pref);
    }
    if HasAccidental(toks, "") {
      var t :| t in toks && AccidentalOf(t) == "";
      assert t in WithAccidental(toks, "");
    }
  }

  // ---------------------------------------------------------------------------
  // Questions

  /** One half of a question: the direction, the class stepped to and its tokens. */
  datatype StepAnswer = StepAnswer(dir: int, index: int, expected: seq<string>)

  datatype Question = Question(baseIndex: int, promptToken: string, promptDisplay: string,
                               semitone: StepAnswer, whole: StepAnswer)

  /** The `Math.random()` draws one question consumes, by call site. */
  datatype Draws = Draws(base: real, semiDir: real, wholeDir: real, natural: real, accidental: real, token: real)

  predicate ValidDraws(d: Draws) {
    && 0.0 <= d.base < 1.0 && 0.0 <= d.semiDir < 1.0 && 0.0 <= d.wholeDir < 1.0
    && 0.0 <= d.natural < 1.0 && 0.0 <= d.accidental < 1.0 && 0.0 <= d.token < 1.0
  }

  /** One direction of `generateQuestion`: `randomDirection` for the step, and when
      that finds none, up if the step stays in range and down otherwise. */
  function StepDirection(step: int, base: int, u: real): (dir: int)
    requires 0.0 <= u < 1.0
    ensures dir in {-1, 1}
    ensures BaseStartIndex <= base <= BaseEndIndex && 1 <= step <= 2 ==>
      BaseStartIndex <= base + dir * step <= BaseEndIndex
  {
    BaseRange();
    var dir := RandomDirection(step, BaseStartIndex, BaseEndIndex, Some(base), u);
    if dir == 0 then (if base + step <= BaseEndIndex then 1 else -1) else dir
  }

  /** The fallback of `generateQuestion` checks `base + 1` (or `base + 2`) against the
      top only; it never fires for a base in range, so every direction it returns is
      the one `randomDirection` drew. */
  lemma StepDirectionIsDrawn(step: int, base: int, u: real)
    requires 0.0 <= u < 1.0 && BaseStartIndex <= base <= BaseEndIndex && 1 <= step <= 2
    ensures StepDirection(step, base, u) == RandomDirection(step, BaseStartIndex, BaseEndIndex, Some(base), u)
  {
    BaseRange();
    RandomDirectionNeverZero(step, BaseStartIndex, BaseEndIndex, base, u);
  }

  /** `generateQuestion`. */
  function GenerateQuestion(d: Draws): Question
    requires ValidDraws(d)
  {
    var base := RandomInt(BaseStartIndex, BaseEndIndex, d.base);
    var semiDir := StepDirection(1, base, d.semiDir);
    var wholeDir := StepDirection(2, base, d.wholeDir);
    var semiIdx := StepIndex(base, semiDir);
    var wholeIdx := StepIndex(base, 2 * wholeDir);
    var pref := PickAccidentalPreference(ClassTokensByIndex(base), d.natural, d.accidental);
    var promptToken := PickRepresentativeToken(base, pref, d.token);
    Question(base, promptToken, FormatDisplay(promptToken),
             StepAnswer(semiDir, semiIdx, ClassTokensByIndex(semiIdx)),
             StepAnswer(wholeDir, wholeIdx, ClassTokensByIndex(wholeIdx)))
  }

  lemma ClassNonEmpty(i: int)
    requires 0 <= i < |Classes(SectionData)|
    ensures Classes(SectionData)[i].tokens != []
  {
    CatalogSize();
    CatalogClassFacts(i);
  }

  /** The indices of every question: a base in range, and steps of one and two
      classes up or down that stay in range. */
  lemma GenerateQuestionIndices(d: Draws)
    requires ValidDraws(d)
    ensures var q := GenerateQuestion(d);
      && BaseStartIndex <= q.baseIndex <= BaseEndIndex
      && q.semitone.dir in {-1, 1} && q.whole.dir in {-1, 1}
      && q.semitone.index == q.baseIndex + q.semitone.dir
      && q.whole.index == q.baseIndex + 2 * q.whole.dir
      && BaseStartIndex <= q.semitone.index <= BaseEndIndex
      && BaseStartIndex <= q.whole.index <= BaseEndIndex
  {
    BaseRange();
    var q := GenerateQuestion(d);
    var base := RandomInt(BaseStartIndex, BaseEndIndex, d.base);
    var semiDir := StepDirection(1, base, d.semiDir);
    var wholeDir := StepDirection(2, base, d.wholeDir);
    assert q.baseIndex == base && q.semitone.dir == semiDir && q.whole.dir == wholeDir;
    assert BaseStartIndex <= base + semiDir <= BaseEndIndex;
    assert BaseStartIndex <= base + 2 * wholeDir <= BaseEndIndex;
  }

  /** The tokens of every question: the expected tokens are those of the classes
      stepped to, and the prompt is a token of the base class, shown by
      `formatDisplay`. */
  lemma GenerateQuestionTokens(d: Draws)
    requires ValidDraws(d)
    ensures var q := GenerateQuestion(d);
      && 0 <= q.baseIndex < |Classes(SectionData)|
      && 0 <= q.semitone.index < |Classes(SectionData)|
      && 0 <= q.whole.index < |Classes(SectionData)|
      && q.semitone.expected == Classes(SectionData)[q.semitone.index].tokens
      && q.whole.expected == Classes(SectionData)[q.whole.index].tokens
      && q.promptToken in Classes(SectionData)[q.baseIndex].tokens
      && q.promptDisplay == FormatDisplay(q.promptToken)
  {
    BaseRange();
    GenerateQuestionIndices(d);
    var q := GenerateQuestion(d);
    ClassNonEmpty(q.baseIndex);
    assert ClassTokensByIndex(q.baseIndex) != [];
    PickRepresentativeTokenSpec(q.baseIndex, PickAccidentalPreference(ClassTokensByIndex(q.baseIndex), d.natural, d.accidental), d.token);
  }

  /** Every expected token sounds one semitone (two for the whole tone) from the
      prompt, in the question's direction. */
  lemma GenerateQuestionPitches(d: Draws)
    requires ValidDraws(d)
    ensures var q := GenerateQuestion(d);
      && Spell(q.promptToken).Some?
      && (forall t :: t in q.semitone.expected ==>
            Spell(t).Some? && Pitch(Spell(t).value) == Pitch(Spell(q.promptToken).value) + q.semitone.dir)
      && (forall t :: t in q.whole.expected ==>
            Spell(t).Some? && Pitch(Spell(t).value) == Pitch(Spell(q.promptToken).value) + 2 * q.whole.dir)
  {
    var q := GenerateQuestion(d);
    GenerateQuestionIndices(d);
    GenerateQuestionTokens(d);
    BaseRange();
    CatalogClassFacts(q.baseIndex);
    CatalogClassFacts(q.semitone.index);
    CatalogClassFacts(q.whole.index);
  }

  /** At the bottom of the range both steps go up, at the top both go down. */
  lemma GenerateQuestionAtEdges(d: Draws)
    requires ValidDraws(d)
    ensures GenerateQuestion(d).baseIndex == BaseStartIndex ==>
      GenerateQuestion(d).semitone.dir == 1 && GenerateQuestion(d).whole.dir == 1
    ensures GenerateQuestion(d).baseIndex == BaseEndIndex ==>
      GenerateQuestion(d).semitone.dir == -1 && GenerateQuestion(d).whole.dir == -1
  {
    BaseRange();
    var base := RandomInt(BaseStartIndex, BaseEndIndex, d.base);
    StepDirectionIsDrawn(1, base, d.semiDir);
    StepDirectionIsDrawn(2, base, d.wholeDir);
  }

  // ---------------------------------------------------------------------------
  // Answers

  function SetOf(ts: seq<string>): set<string> {
    set t | t in ts
  }

  /** What `checkAnswer` decides: the input's words and the expected tokens form the
      same set. */
  predicate Accepts(input: string, expected: seq<string>) {
    SetOf(ParseUserInput(input)) == SetOf(expected)
  }

  lemma SubsetOfSameSize(a: set<string>, b: set<string>)
    requires a <= b && |a| == |b|
    ensures a == b
  {
    var c := b - a;
    assert b == a + c && a * c == {};
    assert |c| == 0;
    assert b == a;
  }

  /** `checkAnswer`: equal sizes, then every expected token among the answers. */
  method CheckAnswer(input: string, expected: seq<string>) returns (ok: bool)
    ensures ok <==> Accepts(input, expected)
  {
    var ans := SetOf(ParseUserInput(input));
    var want := SetOf(expected);
    if |ans| != |want| {
      return false;
    }
    var rest := want;
    while rest != {}
      invariant rest <= want
      invariant forall t :: t in want && t !in rest ==> t in ans
      decreases |rest|
    {
      var t :| t in rest;
      if t !in ans {
        return false;
      }
      rest := rest - {t};
    }
    SubsetOfSameSize(want, ans);
    return true;
  }

  /** Typing the tokens of a class, in any order and with repeats, is accepted for it. */
  lemma AcceptsAnyArrangement(i: int, answer: seq<string>)
    requires 0 <= i < |Classes(SectionData)|
    requires SetOf(answer) == SetOf(Classes(SectionData)[i].tokens)
    ensures Accepts(Join(answer), Classes(SectionData)[i].tokens)
  {
    CatalogSize();
    CatalogClassFacts(i);
    assert forall t :: t in answer ==> t in SetOf(Classes(SectionData)[i].tokens);
    ParseJoin(answer);
  }

  /** The tokens of one class are accepted for another exactly when they are the same
      class: there is no enharmonic leeway between classes. */
  lemma AcceptsOnlyOwnClass(i: int, j: int)
    requires 0 <= i < |Classes(SectionData)| && 0 <= j < |Classes(SectionData)|
    ensures Accepts(Join(Classes(SectionData)[j].tokens), Classes(SectionData)[i].tokens) <==> i == j
  {
    var cs := Classes(SectionData);
    CatalogSize();
    CatalogClassFacts(j);
    ParseJoin(cs[j].tokens);
    if i != j {
      CatalogDisjoint();
      var t := cs[j].tokens[0];
      assert t in SetOf(cs[j].tokens) && t !in SetOf(cs[i].tokens);
    }
  }
}
