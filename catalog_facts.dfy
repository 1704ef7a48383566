/** Facts about the catalog built from the section table, proved against a spelled-out
    copy of the table: every line splits into the listed tokens, every listed token is
    a well-formed spelling, and the spellings of class `i` all sound `i` semitones above
    the lowest class.

    The proof is layered so that each solver query stays small:
    - per chunk of two to four lines, `LinesOf…` (the line splits into the listed
      tokens), `RenderOf…` (each token is the rendering of its spelling), `PitchOf…`
      (each spelling is well formed and has the line's pitch) and `LetterBOf…` (the
      letter-B tokens are marked);
    - `SectionFacts<s>` gathers the chunks of section `s` into `LineFacts` of each line;
    - `SectionLines` ties the spelled-out copy to `SectionData`, and `ClassFactsOf<s>`
      lifts each line of section `s` to its class;
    - `CatalogClassFacts` states the facts for every class. */
module CatalogFacts {
  import opened Wrappers
  import opened Text
  import opened Decimal
  import opened Spelling
  import opened Catalog

  /** The pitch of the first class, `G-2`: 17 semitones below the great-octave C. */
  const LowestPitch: int := -17

  /** The spellings that `accidentalOf` misreads: the small-register B natural and B flat. */
  predicate IsLetterBToken(t: string) {
    t == "b" || t == "b1" || t == "b2" || t == "bb" || t == "bb1" || t == "bb2"
  }

  /** The token written for a spelling. */
  function Render(sp: Spelled): string {
    sp.accidental + [sp.letter] + sp.group
  }

  /** A spelling the reading `Spell` accepts. */
  predicate WellSpelled(sp: Spelled) {
    IsAccidental(sp.accidental) && IsLetter(sp.letter) && (sp.group == "" || IsGroup(sp.group))
  }

  /** Every token of `ts` is a spelling of pitch `p`. */
  predicate AtPitch(ts: seq<string>, p: int) {
    forall t :: t in ts ==> Spell(t).Some? && Pitch(Spell(t).value) == p
  }

  /** Spelling out `Render(sp)` gives `sp` back, and the token is a word. */
  lemma SpellRender(sp: Spelled)
    requires WellSpelled(sp)
    ensures Spell(Render(sp)) == Some(sp)
    ensures IsWord(Render(sp))
  {
    var t := Render(sp);
    SpellOf(sp.accidental, sp.letter, sp.group);
    var n := |sp.accidental|;
    assert t[n] == sp.letter;
    forall k | 0 <= k < |t| ensures !IsSpace(t[k]) {
      if k > n {
        assert t[k] == sp.group[k - n - 1];
        assert sp.group[0] == '-' ==> k - n - 1 == 0 || IsDigit(sp.group[1..][k - n - 2]);
      }
    }
  }

  /** What the catalog promises about a class: a non-empty list of words, each a
      spelling of pitch `p`, the letter-B spellings marked. */
  predicate TokensFacts(ts: seq<string>, p: int) {
    && |ts| >= 1
    && AtPitch(ts, p)
    && (forall t :: t in ts ==> IsWord(t) && (LetterTakenForAccidental(Spell(t).value) <==> IsLetterBToken(t)))
  }

  /** The promises kept by the class of a line. */
  predicate LineFacts(line: string, p: int) {
    TokensFacts(LineTokens(line), p)
  }

  /** A line that joins the renderings of spellings of pitch `p` has those renderings as
      its tokens, and they keep the line's promises. */
  lemma LineAt(line: string, p: int, tokens: seq<string>, spellings: seq<Spelled>)
    requires line == Join(tokens) && |tokens| == |spellings| >= 1
    requires forall k :: 0 <= k < |spellings| ==>
      && tokens[k] == Render(spellings[k])
      && WellSpelled(spellings[k])
      && Pitch(spellings[k]) == p
      && (LetterTakenForAccidental(spellings[k]) <==> IsLetterBToken(tokens[k]))
    ensures LineTokens(line) == tokens && LineFacts(line, p)
  {
    forall k | 0 <= k < |tokens| ensures IsWord(tokens[k]) && Spell(tokens[k]) == Some(spellings[k]) {
      SpellRender(spellings[k]);
    }
    WordsOfJoin(tokens);
  }


  // 大字二组
  const Tokens0: seq<seq<string>> := [
    ["G-2", "XF-2", "bbA-2"],
    ["#G-2", "bA-2"],
    ["A-2", "XG-2", "bbB-2"],
    ["#A-2", "bB-2", "bbC-1"],
    ["B-2", "bC-1", "XA-2"]
  ]
  const Spellings0: seq<seq<Spelled>> := [
    [Spelled("", 'G', "-2"), Spelled("X", 'F', "-2"), Spelled("bb", 'A', "-2")],
    [Spelled("#", 'G', "-2"), Spelled("b", 'A', "-2")],
    [Spelled("", 'A', "-2"), Spelled("X", 'G', "-2"), Spelled("bb", 'B', "-2")],
    [Spelled("#", 'A', "-2"), Spelled("b", 'B', "-2"), Spelled("bb", 'C', "-1")],
    [Spelled("", 'B', "-2"), Spelled("b", 'C', "-1"), Spelled("X", 'A', "-2")]
  ]

  // 大字一组
  const Tokens1: seq<seq<string>> := [
    ["C-1", "#B-2", "bbD-1"],
    ["#C-1", "bD-1", "XB-2"],
    ["D-1", "XC-1", "bbE-1"],
    ["#D-1", "bE-1", "bbF-1"],
    ["E-1", "XD-1", "bF-1"],
    ["F-1", "#E-1", "bbG-1"],
    ["#F-1", "bG-1", "XE-1"],
    ["G-1", "XF-1", "bbA-1"],
    ["#G-1", "bA-1"],
    ["A-1", "XG-1", "bbB-1"],
    ["#A-1", "bB-1", "bbC"],
    ["B-1", "XA-1", "bC"]
  ]
  const Spellings1: seq<seq<Spelled>> := [
    [Spelled("", 'C', "-1"), Spelled("#", 'B', "-2"), Spelled("bb", 'D', "-1")],
    [Spelled("#", 'C', "-1"), Spelled("b", 'D', "-1"), Spelled("X", 'B', "-2")],
    [Spelled("", 'D', "-1"), Spelled("X", 'C', "-1"), Spelled("bb", 'E', "-1")],
    [Spelled("#", 'D', "-1"), Spelled("b", 'E', "-1"), Spelled("bb", 'F', "-1")],
    [Spelled("", 'E', "-1"), Spelled("X", 'D', "-1"), Spelled("b", 'F', "-1")],
    [Spelled("", 'F', "-1"), Spelled("#", 'E', "-1"), Spelled("bb", 'G', "-1")],
    [Spelled("#", 'F', "-1"), Spelled("b", 'G', "-1"), Spelled("X", 'E', "-1")],
    [Spelled("", 'G', "-1"), Spelled("X", 'F', "-1"), Spelled("bb", 'A', "-1")],
    [Spelled("#", 'G', "-1"), Spelled("b", 'A', "-1")],
    [Spelled("", 'A', "-1"), Spelled("X", 'G', "-1"), Spelled("bb", 'B', "-1")],
    [Spelled("#", 'A', "-1"), Spelled("b", 'B', "-1"), Spelled("bb", 'C', "")],
    [Spelled("", 'B', "-1"), Spelled("X", 'A', "-1"), Spelled("b", 'C', "")]
  ]

  // 大字组
  const Tokens2: seq<seq<string>> := [
    ["C", "#B-1", "bbD"],
    ["#C", "bD", "XB-1"],
    ["D", "XC", "bbE"],
    ["#D", "bE", "bbF"],
    ["E", "XD", "bF"],
    ["F", "#E", "bbG"],
    ["#F", "bG", "XE"],
    ["G", "XF", "bbA"],
    ["#G", "bA"],
    ["A", "XG", "bbB"],
    ["#A", "bB", "bbc"],
    ["B", "XA", "bc"]
  ]
  const Spellings2: seq<seq<Spelled>> := [
    [Spelled("", 'C', ""), Spelled("#", 'B', "-1"), Spelled("bb", 'D', "")],
    [Spelled("#", 'C', ""), Spelled("b", 'D', ""), Spelled("X", 'B', "-1")],
    [Spelled("", 'D', ""), Spelled("X", 'C', ""), Spelled("bb", 'E', "")],
    [Spelled("#", 'D', ""), Spelled("b", 'E', ""), Spelled("bb", 'F', "")],
    [Spelled("", 'E', ""), Spelled("X", 'D', ""), Spelled("b", 'F', "")],
    [Spelled("", 'F', ""), Spelled("#", 'E', ""), Spelled("bb", 'G', "")],
    [Spelled("#", 'F', ""), Spelled("b", 'G', ""), Spelled("X", 'E', "")],
    [Spelled("", 'G', ""), Spelled("X", 'F', ""), Spelled("bb", 'A', "")],
    [Spelled("#", 'G', ""), Spelled("b", 'A', "")],
    [Spelled("", 'A', ""), Spelled("X", 'G', ""), Spelled("bb", 'B', "")],
    [Spelled("#", 'A', ""), Spelled("b", 'B', ""), Spelled("bb", 'c', "")],
    [Spelled("", 'B', ""), Spelled("X", 'A', ""), Spelled("b", 'c', "")]
  ]

  // 小字组
  const Tokens3: seq<seq<string>> := [
    ["c", "#B", "bbd"],
    ["#c", "bd", "XB"],
    ["d", "Xc", "bbe"],
    ["#d", "be", "bbf"],
    ["e", "Xd", "bf"],
    ["f", "#e", "bbg"],
    ["#f", "bg", "Xe"],
    ["g", "Xf", "bba"],
    ["#g", "ba"],
    ["a", "Xg", "bbb"],
    ["#a", "bb", "bbc1"],
    ["b", "Xa", "bc1"]
  ]
  const Spellings3: seq<seq<Spelled>> := [
    [Spelled("", 'c', ""), Spelled("#", 'B', ""), Spelled("bb", 'd', "")],
    [Spelled("#", 'c', ""), Spelled("b", 'd', ""), Spelled("X", 'B', "")],
    [Spelled("", 'd', ""), Spelled("X", 'c', ""), Spelled("bb", 'e', "")],
    [Spelled("#", 'd', ""), Spelled("b", 'e', ""), Spelled("bb", 'f', "")],
    [Spelled("", 'e', ""), Spelled("X", 'd', ""), Spelled("b", 'f', "")],
    [Spelled("", 'f', ""), Spelled("#", 'e', ""), Spelled("bb", 'g', "")],
    [Spelled("#", 'f', ""), Spelled("b", 'g', ""), Spelled("X", 'e', "")],
    [Spelled("", 'g', ""), Spelled("X", 'f', ""), Spelled("bb", 'a', "")],
    [Spelled("#", 'g', ""), Spelled("b", 'a', "")],
    [Spelled("", 'a', ""), Spelled("X", 'g', ""), Spelled("bb", 'b', "")],
    [Spelled("#", 'a', ""), Spelled("b", 'b', ""), Spelled("bb", 'c', "1")],
    [Spelled("", 'b', ""), Spelled("X", 'a', ""), Spelled("b", 'c', "1")]
  ]

  // 小字一组
  const Tokens4: seq<seq<string>> := [
    ["c1", "#b", "bbd1"],
    ["#c1", "bd1", "Xb"],
    ["d1", "Xc1", "bbe1"],
    ["#d1", "be1", "bbf1"],
    ["e1", "Xd1", "bf1"],
    ["f1", "#e1", "bbg1"],
    ["#f1", "bg1", "Xe1"],
    ["g1", "Xf1", "bba1"],
    ["#g1", "ba1"],
    ["a1", "Xg1", "bbb1"],
    ["#a1", "bb1", "bbc2"],
    ["b1", "Xa1", "bc2"]
  ]
  const Spellings4: seq<seq<Spelled>> := [
    [Spelled("", 'c', "1"), Spelled("#", 'b', ""), Spelled("bb", 'd', "1")],
    [Spelled("#", 'c', "1"), Spelled("b", 'd', "1"), Spelled("X", 'b', "")],
    [Spelled("", 'd', "1"), Spelled("X", 'c', "1"), Spelled("bb", 'e', "1")],
    [Spelled("#", 'd', "1"), Spelled("b", 'e', "1"), Spelled("bb", 'f', "1")],
    [Spelled("", 'e', "1"), Spelled("X", 'd', "1"), Spelled("b", 'f', "1")],
    [Spelled("", 'f', "1"), Spelled("#", 'e', "1"), Spelled("bb", 'g', "1")],
    [Spelled("#", 'f', "1"), Spelled("b", 'g', "1"), Spelled("X", 'e', "1")],
    [Spelled("", 'g', "1"), Spelled("X", 'f', "1"), Spelled("bb", 'a', "1")],
    [Spelled("#", 'g', "1"), Spelled("b", 'a', "1")],
    [Spelled("", 'a', "1"), Spelled("X", 'g', "1"), Spelled("bb", 'b', "1")],
    [Spelled("#", 'a', "1"), Spelled("b", 'b', "1"), Spelled("bb", 'c', "2")],
    [Spelled("", 'b', "1"), Spelled("X", 'a', "1"), Spelled("b", 'c', "2")]
  ]

  // 小字二组
  const Tokens5: seq<seq<string>> := [
    ["c2", "#b1", "bbd2"],
    ["#c2", "bd2", "Xb1"],
    ["d2", "Xc2", "bbe2"],
    ["#d2", "be2", "bbf2"],
    ["e2", "Xd2", "bf2"],
    ["f2", "#e2", "bbg2"],
    ["#f2", "bg2", "Xe2"],
    ["g2", "Xf2", "bba2"],
    ["#g2", "ba2"],
    ["a2", "Xg2", "bbb2"],
    ["#a2", "bb2", "bbc3"],
    ["b2", "Xa2", "bc3"]
  ]
  const Spellings5: seq<seq<Spelled>> := [
    [Spelled("", 'c', "2"), Spelled("#", 'b', "1"), Spelled("bb", 'd', "2")],
    [Spelled("#", 'c', "2"), Spelled("b", 'd', "2"), Spelled("X", 'b', "1")],
    [Spelled("", 'd', "2"), Spelled("X", 'c', "2"), Spelled("bb", 'e', "2")],
    [Spelled("#", 'd', "2"), Spelled("b", 'e', "2"), Spelled("bb", 'f', "2")],
    [Spelled("", 'e', "2"), Spelled("X", 'd', "2"), Spelled("b", 'f', "2")],
    [Spelled("", 'f', "2"), Spelled("#", 'e', "2"), Spelled("bb", 'g', "2")],
    [Spelled("#", 'f', "2"), Spelled("b", 'g', "2"), Spelled("X", 'e', "2")],
    [Spelled("", 'g', "2"), Spelled("X", 'f', "2"), Spelled("bb", 'a', "2")],
    [Spelled("#", 'g', "2"), Spelled("b", 'a', "2")],
    [Spelled("", 'a', "2"), Spelled("X", 'g', "2"), Spelled("bb", 'b', "2")],
    [Spelled("#", 'a', "2"), Spelled("b", 'b', "2"), Spelled("bb", 'c', "3")],
    [Spelled("", 'b', "2"), Spelled("X", 'a', "2"), Spelled("b", 'c', "3")]
  ]

  /** The register suffixes the table uses, and their values. */
  lemma RegisterSuffixes()
    ensures IsGroup("1") && DigitsValue("1") == 1
    ensures IsGroup("2") && DigitsValue("2") == 2
    ensures IsGroup("3") && DigitsValue("3") == 3
    ensures IsGroup("-1") && "-1"[1..] == "1"
    ensures IsGroup("-2") && "-2"[1..] == "2"
  {
    assert "-1"[1..] == "1";
    assert "-2"[1..] == "2";
  }

  // ---------------------------------------------------------------------------
  // Per-chunk facts. They are split by chunks of lines only to keep each query
  // small; `SectionFacts<s>` below collects them.

  lemma LinesOf0A(li: nat)
    requires 0 <= li < 3
    ensures Lines0[li] == Join(Tokens0[li])
  {
    if li == 0 {} else if li == 1 {} else {}
  }

  lemma RenderOf0A(li: nat)
    requires 0 <= li < 3
    ensures |Tokens0| == |Spellings0| == 5 && |Tokens0[li]| == |Spellings0[li]| >= 1
    ensures forall k :: 0 <= k < |Spellings0[li]| ==> Tokens0[li][k] == Render(Spellings0[li][k])
  {
    if li == 0 {} else if li == 1 {} else {}
  }

  lemma PitchOf0A(li: nat)
    requires 0 <= li < 3
    ensures |Spellings0| == 5
    ensures forall k :: 0 <= k < |Spellings0[li]| ==> WellSpelled(Spellings0[li][k]) && Pitch(Spellings0[li][k]) == -17 + li
  {
    RegisterSuffixes();
    if li == 0 {} else if li == 1 {} else {}
  }

  lemma LetterBOf0A(li: nat)
    requires 0 <= li < 3
    ensures |Tokens0| == |Spellings0| == 5
    ensures forall k :: 0 <= k < |Spellings0[li]| && k < |Tokens0[li]| ==>
      (LetterTakenForAccidental(Spellings0[li][k]) <==> IsLetterBToken(Tokens0[li][k]))
  {
    if li == 0 {} else if li == 1 {} else {}
  }

  lemma LinesOf0B(li: nat)
    requires 3 <= li < 5
    ensures Lines0[li] == Join(Tokens0[li])
  {
    if li == 3 {} else {}
  }

  lemma RenderOf0B(li: nat)
    requires 3 <= li < 5
    ensures |Tokens0| == |Spellings0| == 5 && |Tokens0[li]| == |Spellings0[li]| >= 1
    ensures forall k :: 0 <= k < |Spellings0[li]| ==> Tokens0[li][k] == Render(Spellings0[li][k])
  {
    if li == 3 {} else {}
  }

  lemma PitchOf0B(li: nat)
    requires 3 <= li < 5
    ensures |Spellings0| == 5
    ensures forall k :: 0 <= k < |Spellings0[li]| ==> WellSpelled(Spellings0[li][k]) && Pitch(Spellings0[li][k]) == -17 + li
  {
    RegisterSuffixes();
    if li == 3 {} else {}
  }

  lemma LetterBOf0B(li: nat)
    requires 3 <= li < 5
    ensures |Tokens0| == |Spellings0| == 5
    ensures forall k :: 0 <= k < |Spellings0[li]| && k < |Tokens0[li]| ==>
      (LetterTakenForAccidental(Spellings0[li][k]) <==> IsLetterBToken(Tokens0[li][k]))
  {
    if li == 3 {} else {}
  }

  lemma LinesOf1A(li: nat)
    requires 0 <= li < 3
    ensures Lines1[li] == Join(Tokens1[li])
  {
    if li == 0 {} else if li == 1 {} else {}
  }

  lemma RenderOf1A(li: nat)
    requires 0 <= li < 3
    ensures |Tokens1| == |Spellings1| == 12 && |Tokens1[li]| == |Spellings1[li]| >= 1
    ensures forall k :: 0 <= k < |Spellings1[li]| ==> Tokens1[li][k] == Render(Spellings1[li][k])
  {
    if li == 0 {} else if li == 1 {} else {}
  }

  lemma PitchOf1A(li: nat)
    requires 0 <= li < 3
    ensures |Spellings1| == 12
    ensures forall k :: 0 <= k < |Spellings1[li]| ==> WellSpelled(Spellings1[li][k]) && Pitch(Spellings1[li][k]) == -12 + li
  {
    RegisterSuffixes();
    if li == 0 {} else if li == 1 {} else {}
  }

  lemma LetterBOf1A(li: nat)
    requires 0 <= li < 3
    ensures |Tokens1| == |Spellings1| == 12
    ensures forall k :: 0 <= k < |Spellings1[li]| && k < |Tokens1[li]| ==>
      (LetterTakenForAccidental(Spellings1[li][k]) <==> IsLetterBToken(Tokens1[li][k]))
  {
    if li == 0 {} else if li == 1 {} else {}
  }

  lemma LinesOf1B(li: nat)
    requires 3 <= li < 6
    ensures Lines1[li] == Join(Tokens1[li])
  {
    if li == 3 {} else if li == 4 {} else {}
  }

  lemma RenderOf1B(li: nat)
    requires 3 <= li < 6
    ensures |Tokens1| == |Spellings1| == 12 && |Tokens1[li]| == |Spellings1[li]| >= 1
    ensures forall k :: 0 <= k < |Spellings1[li]| ==> Tokens1[li][k] == Render(Spellings1[li][k])
  {
    if li == 3 {} else if li == 4 {} else {}
  }

  lemma PitchOf1B(li: nat)
    requires 3 <= li < 6
    ensures |Spellings1| == 12
    ensures forall k :: 0 <= k < |Spellings1[li]| ==> WellSpelled(Spellings1[li][k]) && Pitch(Spellings1[li][k]) == -12 + li
  {
    RegisterSuffixes();
    if li == 3 {} else if li == 4 {} else {}
  }

  lemma LetterBOf1B(li: nat)
    requires 3 <= li < 6
    ensures |Tokens1| == |Spellings1| == 12
    ensures forall k :: 0 <= k < |Spellings1[li]| && k < |Tokens1[li]| ==>
      (LetterTakenForAccidental(Spellings1[li][k]) <==> IsLetterBToken(Tokens1[li][k]))
  {
    if li == 3 {} else if li == 4 {} else {}
  }

  lemma LinesOf1C(li: nat)
    requires 6 <= li < 9
    ensures Lines1[li] == Join(Tokens1[li])
  {
    if li == 6 {} else if li == 7 {} else {}
  }

  lemma RenderOf1C(li: nat)
    requires 6 <= li < 9
    ensures |Tokens1| == |Spellings1| == 12 && |Tokens1[li]| == |Spellings1[li]| >= 1
    ensures forall k :: 0 <= k < |Spellings1[li]| ==> Tokens1[li][k] == Render(Spellings1[li][k])
  {
    if li == 6 {} else if li == 7 {} else {}
  }

  lemma PitchOf1C(li: nat)
    requires 6 <= li < 9
    ensures |Spellings1| == 12
    ensures forall k :: 0 <= k < |Spellings1[li]| ==> WellSpelled(Spellings1[li][k]) && Pitch(Spellings1[li][k]) == -12 + li
  {
    RegisterSuffixes();
    if li == 6 {} else if li == 7 {} else {}
  }

  lemma LetterBOf1C(li: nat)
    requires 6 <= li < 9
    ensures |Tokens1| == |Spellings1| == 12
    ensures forall k :: 0 <= k < |Spellings1[li]| && k < |Tokens1[li]| ==>
      (LetterTakenForAccidental(Spellings1[li][k]) <==> IsLetterBToken(Tokens1[li][k]))
  {
    if li == 6 {} else if li == 7 {} else {}
  }

  lemma LinesOf1D(li: nat)
    requires 9 <= li < 12
    ensures Lines1[li] == Join(Tokens1[li])
  {
    if li == 9 {} else if li == 10 {} else {}
  }

  lemma RenderOf1D(li: nat)
    requires 9 <= li < 12
    ensures |Tokens1| == |Spellings1| == 12 && |Tokens1[li]| == |Spellings1[li]| >= 1
    ensures forall k :: 0 <= k < |Spellings1[li]| ==> Tokens1[li][k] == Render(Spellings1[li][k])
  {
    if li == 9 {} else if li == 10 {} else {}
  }

  lemma PitchOf1D(li: nat)
    requires 9 <= li < 12
    ensures |Spellings1| == 12
    ensures forall k :: 0 <= k < |Spellings1[li]| ==> WellSpelled(Spellings1[li][k]) && Pitch(Spellings1[li][k]) == -12 + li
  {
    RegisterSuffixes();
    if li == 9 {} else if li == 10 {} else {}
  }

  lemma LetterBOf1D(li: nat)
    requires 9 <= li < 12
    ensures |Tokens1| == |Spellings1| == 12
    ensures forall k :: 0 <= k < |Spellings1[li]| && k < |Tokens1[li]| ==>
      (LetterTakenForAccidental(Spellings1[li][k]) <==> IsLetterBToken(Tokens1[li][k]))
  {
    if li == 9 {} else if li == 10 {} else {}
  }

  lemma LinesOf2A(li: nat)
    requires 0 <= li < 3
    ensures Lines2[li] == Join(Tokens2[li])
  {
    if li == 0 {} else if li == 1 {} else {}
  }

  lemma RenderOf2A(li: nat)
    requires 0 <= li < 3
    ensures |Tokens2| == |Spellings2| == 12 && |Tokens2[li]| == |Spellings2[li]| >= 1
    ensures forall k :: 0 <= k < |Spellings2[li]| ==> Tokens2[li][k] == Render(Spellings2[li][k])
  {
    if li == 0 {} else if li == 1 {} else {}
  }

  lemma PitchOf2A(li: nat)
    requires 0 <= li < 3
    ensures |Spellings2| == 12
    ensures forall k :: 0 <= k < |Spellings2[li]| ==> WellSpelled(Spellings2[li][k]) && Pitch(Spellings2[li][k]) == 0 + li
  {
    RegisterSuffixes();
    if li == 0 {} else if li == 1 {} else {}
  }

  lemma LetterBOf2A(li: nat)
    requires 0 <= li < 3
    ensures |Tokens2| == |Spellings2| == 12
    ensures forall k :: 0 <= k < |Spellings2[li]| && k < |Tokens2[li]| ==>
      (LetterTakenForAccidental(Spellings2[li][k]) <==> IsLetterBToken(Tokens2[li][k]))
  {
    if li == 0 {} else if li == 1 {} else {}
  }

  lemma LinesOf2B(li: nat)
    requires 3 <= li < 6
    ensures Lines2[li] == Join(Tokens2[li])
  {
    if li == 3 {} else if li == 4 {} else {}
  }

  lemma RenderOf2B(li: nat)
    requires 3 <= li < 6
    ensures |Tokens2| == |Spellings2| == 12 && |Tokens2[li]| == |Spellings2[li]| >= 1
    ensures forall k :: 0 <= k < |Spellings2[li]| ==> Tokens2[li][k] == Render(Spellings2[li][k])
  {
    if li == 3 {} else if li == 4 {} else {}
  }

  lemma PitchOf2B(li: nat)
    requires 3 <= li < 6
    ensures |Spellings2| == 12
    ensures forall k :: 0 <= k < |Spellings2[li]| ==> WellSpelled(Spellings2[li][k]) && Pitch(Spellings2[li][k]) == 0 + li
  {
    RegisterSuffixes();
    if li == 3 {} else if li == 4 {} else {}
  }

  lemma LetterBOf2B(li: nat)
    requires 3 <= li < 6
    ensures |Tokens2| == |Spellings2| == 12
    ensures forall k :: 0 <= k < |Spellings2[li]| && k < |Tokens2[li]| ==>
      (LetterTakenForAccidental(Spellings2[li][k]) <==> IsLetterBToken(Tokens2[li][k]))
  {
    if li == 3 {} else if li == 4 {} else {}
  }

  lemma LinesOf2C(li: nat)
    requires 6 <= li < 9
    ensures Lines2[li] == Join(Tokens2[li])
  {
    if li == 6 {} else if li == 7 {} else {}
  }

  lemma RenderOf2C(li: nat)
    requires 6 <= li < 9
    ensures |Tokens2| == |Spellings2| == 12 && |Tokens2[li]| == |Spellings2[li]| >= 1
    ensures forall k :: 0 <= k < |Spellings2[li]| ==> Tokens2[li][k] == Render(Spellings2[li][k])
  {
    if li == 6 {} else if li == 7 {} else {}
  }

  lemma PitchOf2C(li: nat)
    requires 6 <= li < 9
    ensures |Spellings2| == 12
    ensures forall k :: 0 <= k < |Spellings2[li]| ==> WellSpelled(Spellings2[li][k]) && Pitch(Spellings2[li][k]) == 0 + li
  {
    RegisterSuffixes();
    if li == 6 {} else if li == 7 {} else {}
  }

  lemma LetterBOf2C(li: nat)
    requires 6 <= li < 9
    ensures |Tokens2| == |Spellings2| == 12
    ensures forall k :: 0 <= k < |Spellings2[li]| && k < |Tokens2[li]| ==>
      (LetterTakenForAccidental(Spellings2[li][k]) <==> IsLetterBToken(Tokens2[li][k]))
  {
    if li == 6 {} else if li == 7 {} else {}
  }

  lemma LinesOf2D(li: nat)
    requires 9 <= li < 12
    ensures Lines2[li] == Join(Tokens2[li])
  {
    if li == 9 {} else if li == 10 {} else {}
  }

  lemma RenderOf2D(li: nat)
    requires 9 <= li < 12
    ensures |Tokens2| == |Spellings2| == 12 && |Tokens2[li]| == |Spellings2[li]| >= 1
    ensures forall k :: 0 <= k < |Spellings2[li]| ==> Tokens2[li][k] == Render(Spellings2[li][k])
  {
    if li == 9 {} else if li == 10 {} else {}
  }

  lemma PitchOf2D(li: nat)
    requires 9 <= li < 12
    ensures |Spellings2| == 12
    ensures forall k :: 0 <= k < |Spellings2[li]| ==> WellSpelled(Spellings2[li][k]) && Pitch(Spellings2[li][k]) == 0 + li
  {
    RegisterSuffixes();
    if li == 9 {} else if li == 10 {} else {}
  }

  lemma LetterBOf2D(li: nat)
    requires 9 <= li < 12
    ensures |Tokens2| == |Spellings2| == 12
    ensures forall k :: 0 <= k < |Spellings2[li]| && k < |Tokens2[li]| ==>
      (LetterTakenForAccidental(Spellings2[li][k]) <==> IsLetterBToken(Tokens2[li][k]))
  {
    if li == 9 {} else if li == 10 {} else {}
  }

  lemma LinesOf3A(li: nat)
    requires 0 <= li < 3
    ensures Lines3[li] == Join(Tokens3[li])
  {
    if li == 0 {} else if li == 1 {} else {}
  }

  lemma RenderOf3A(li: nat)
    requires 0 <= li < 3
    ensures |Tokens3| == |Spellings3| == 12 && |Tokens3[li]| == |Spellings3[li]| >= 1
    ensures forall k :: 0 <= k < |Spellings3[li]| ==> Tokens3[li][k] == Render(Spellings3[li][k])
  {
    if li == 0 {} else if li == 1 {} else {}
  }

  lemma PitchOf3A(li: nat)
    requires 0 <= li < 3
    ensures |Spellings3| == 12
    ensures forall k :: 0 <= k < |Spellings3[li]| ==> WellSpelled(Spellings3[li][k]) && Pitch(Spellings3[li][k]) == 12 + li
  {
    RegisterSuffixes();
    if li == 0 {} else if li == 1 {} else {}
  }

  lemma LetterBOf3A(li: nat)
    requires 0 <= li < 3
    ensures |Tokens3| == |Spellings3| == 12
    ensures forall k :: 0 <= k < |Spellings3[li]| && k < |Tokens3[li]| ==>
      (LetterTakenForAccidental(Spellings3[li][k]) <==> IsLetterBToken(Tokens3[li][k]))
  {
    if li == 0 {} else if li == 1 {} else {}
  }

  lemma LinesOf3B(li: nat)
    requires 3 <= li < 6
    ensures Lines3[li] == Join(Tokens3[li])
  {
    if li == 3 {} else if li == 4 {} else {}
  }

  lemma RenderOf3B(li: nat)
    requires 3 <= li < 6
    ensures |Tokens3| == |Spellings3| == 12 && |Tokens3[li]| == |Spellings3[li]| >= 1
    ensures forall k :: 0 <= k < |Spellings3[li]| ==> Tokens3[li][k] == Render(Spellings3[li][k])
  {
    if li == 3 {} else if li == 4 {} else {}
  }

  lemma PitchOf3B(li: nat)
    requires 3 <= li < 6
    ensures |Spellings3| == 12
    ensures forall k :: 0 <= k < |Spellings3[li]| ==> WellSpelled(Spellings3[li][k]) && Pitch(Spellings3[li][k]) == 12 + li
  {
    RegisterSuffixes();
    if li == 3 {} else if li == 4 {} else {}
  }

  lemma LetterBOf3B(li: nat)
    requires 3 <= li < 6
    ensures |Tokens3| == |Spellings3| == 12
    ensures forall k :: 0 <= k < |Spellings3[li]| && k < |Tokens3[li]| ==>
      (LetterTakenForAccidental(Spellings3[li][k]) <==> IsLetterBToken(Tokens3[li][k]))
  {
    if li == 3 {} else if li == 4 {} else {}
  }

  lemma LinesOf3C(li: nat)
    requires 6 <= li < 9
    ensures Lines3[li] == Join(Tokens3[li])
  {
    if li == 6 {} else if li == 7 {} else {}
  }

  lemma RenderOf3C(li: nat)
    requires 6 <= li < 9
    ensures |Tokens3| == |Spellings3| == 12 && |Tokens3[li]| == |Spellings3[li]| >= 1
    ensures forall k :: 0 <= k < |Spellings3[li]| ==> Tokens3[li][k] == Render(Spellings3[li][k])
  {
    if li == 6 {} else if li == 7 {} else {}
  }

  lemma PitchOf3C(li: nat)
    requires 6 <= li < 9
    ensures |Spellings3| == 12
    ensures forall k :: 0 <= k < |Spellings3[li]| ==> WellSpelled(Spellings3[li][k]) && Pitch(Spellings3[li][k]) == 12 + li
  {
    RegisterSuffixes();
    if li == 6 {} else if li == 7 {} else {}
  }

  lemma LetterBOf3C(li: nat)
    requires 6 <= li < 9
    ensures |Tokens3| == |Spellings3| == 12
    ensures forall k :: 0 <= k < |Spellings3[li]| && k < |Tokens3[li]| ==>
      (LetterTakenForAccidental(Spellings3[li][k]) <==> IsLetterBToken(Tokens3[li][k]))
  {
    if li == 6 {} else if li == 7 {} else {}
  }

  lemma LinesOf3D(li: nat)
    requires 9 <= li < 12
    ensures Lines3[li] == Join(Tokens3[li])
  {
    if li == 9 {} else if li == 10 {} else {}
  }

  lemma RenderOf3D(li: nat)
    requires 9 <= li < 12
    ensures |Tokens3| == |Spellings3| == 12 && |Tokens3[li]| == |Spellings3[li]| >= 1
    ensures forall k :: 0 <= k < |Spellings3[li]| ==> Tokens3[li][k] == Render(Spellings3[li][k])
  {
    if li == 9 {} else if li == 10 {} else {}
  }

  lemma PitchOf3D(li: nat)
    requires 9 <= li < 12
    ensures |Spellings3| == 12
    ensures forall k :: 0 <= k < |Spellings3[li]| ==> WellSpelled(Spellings3[li][k]) && Pitch(Spellings3[li][k]) == 12 + li
  {
    RegisterSuffixes();
    if li == 9 {} else if li == 10 {} else {}
  }

  lemma LetterBOf3D(li: nat)
    requires 9 <= li < 12
    ensures |Tokens3| == |Spellings3| == 12
    ensures forall k :: 0 <= k < |Spellings3[li]| && k < |Tokens3[li]| ==>
      (LetterTakenForAccidental(Spellings3[li][k]) <==> IsLetterBToken(Tokens3[li][k]))
  {
    if li == 9 {} else if li == 10 {} else {}
  }

  lemma LinesOf4A(li: nat)
    requires 0 <= li < 3
    ensures Lines4[li] == Join(Tokens4[li])
  {
    if li == 0 {} else if li == 1 {} else {}
  }

  lemma RenderOf4A(li: nat)
    requires 0 <= li < 3
    ensures |Tokens4| == |Spellings4| == 12 && |Tokens4[li]| == |Spellings4[li]| >= 1
    ensures forall k :: 0 <= k < |Spellings4[li]| ==> Tokens4[li][k] == Render(Spellings4[li][k])
  {
    if li == 0 {} else if li == 1 {} else {}
  }

  lemma PitchOf4A(li: nat)
    requires 0 <= li < 3
    ensures |Spellings4| == 12
    ensures forall k :: 0 <= k < |Spellings4[li]| ==> WellSpelled(Spellings4[li][k]) && Pitch(Spellings4[li][k]) == 24 + li
  {
    RegisterSuffixes();
    if li == 0 {} else if li == 1 {} else {}
  }

  lemma LetterBOf4A(li: nat)
    requires 0 <= li < 3
    ensures |Tokens4| == |Spellings4| == 12
    ensures forall k :: 0 <= k < |Spellings4[li]| && k < |Tokens4[li]| ==>
      (LetterTakenForAccidental(Spellings4[li][k]) <==> IsLetterBToken(Tokens4[li][k]))
  {
    if li == 0 {} else if li == 1 {} else {}
  }

  lemma LinesOf4B(li: nat)
    requires 3 <= li < 6
    ensures Lines4[li] == Join(Tokens4[li])
  {
    if li == 3 {} else if li == 4 {} else {}
  }

  lemma RenderOf4B(li: nat)
    requires 3 <= li < 6
    ensures |Tokens4| == |Spellings4| == 12 && |Tokens4[li]| == |Spellings4[li]| >= 1
    ensures forall k :: 0 <= k < |Spellings4[li]| ==> Tokens4[li][k] == Render(Spellings4[li][k])
  {
    if li == 3 {} else if li == 4 {} else {}
  }

  lemma PitchOf4B(li: nat)
    requires 3 <= li < 6
    ensures |Spellings4| == 12
    ensures forall k :: 0 <= k < |Spellings4[li]| ==> WellSpelled(Spellings4[li][k]) && Pitch(Spellings4[li][k]) == 24 + li
  {
    RegisterSuffixes();
    if li == 3 {} else if li == 4 {} else {}
  }

  lemma LetterBOf4B(li: nat)
    requires 3 <= li < 6
    ensures |Tokens4| == |Spellings4| == 12
    ensures forall k :: 0 <= k < |Spellings4[li]| && k < |Tokens4[li]| ==>
      (LetterTakenForAccidental(Spellings4[li][k]) <==> IsLetterBToken(Tokens4[li][k]))
  {
    if li == 3 {} else if li == 4 {} else {}
  }

  lemma LinesOf4C(li: nat)
    requires 6 <= li < 9
    ensures Lines4[li] == Join(Tokens4[li])
  {
    if li == 6 {} else if li == 7 {} else {}
  }

  lemma RenderOf4C(li: nat)
    requires 6 <= li < 9
    ensures |Tokens4| == |Spellings4| == 12 && |Tokens4[li]| == |Spellings4[li]| >= 1
    ensures forall k :: 0 <= k < |Spellings4[li]| ==> Tokens4[li][k] == Render(Spellings4[li][k])
  {
    if li == 6 {} else if li == 7 {} else {}
  }

  lemma PitchOf4C(li: nat)
    requires 6 <= li < 9
    ensures |Spellings4| == 12
    ensures forall k :: 0 <= k < |Spellings4[li]| ==> WellSpelled(Spellings4[li][k]) && Pitch(Spellings4[li][k]) == 24 + li
  {
    RegisterSuffixes();
    if li == 6 {} else if li == 7 {} else {}
  }

  lemma LetterBOf4C(li: nat)
    requires 6 <= li < 9
    ensures |Tokens4| == |Spellings4| == 12
    ensures forall k :: 0 <= k < |Spellings4[li]| && k < |Tokens4[li]| ==>
      (LetterTakenForAccidental(Spellings4[li][k]) <==> IsLetterBToken(Tokens4[li][k]))
  {
    if li == 6 {} else if li == 7 {} else {}
  }

  lemma LinesOf4D(li: nat)
    requires 9 <= li < 12
    ensures Lines4[li] == Join(Tokens4[li])
  {
    if li == 9 {} else if li == 10 {} else {}
  }

  lemma RenderOf4D(li: nat)
    requires 9 <= li < 12
    ensures |Tokens4| == |Spellings4| == 12 && |Tokens4[li]| == |Spellings4[li]| >= 1
    ensures forall k :: 0 <= k < |Spellings4[li]| ==> Tokens4[li][k] == Render(Spellings4[li][k])
  {
    if li == 9 {} else if li == 10 {} else {}
  }

  lemma PitchOf4D(li: nat)
    requires 9 <= li < 12
    ensures |Spellings4| == 12
    ensures forall k :: 0 <= k < |Spellings4[li]| ==> WellSpelled(Spellings4[li][k]) && Pitch(Spellings4[li][k]) == 24 + li
  {
    RegisterSuffixes();
    if li == 9 {} else if li == 10 {} else {}
  }

  lemma LetterBOf4D(li: nat)
    requires 9 <= li < 12
    ensures |Tokens4| == |Spellings4| == 12
    ensures forall k :: 0 <= k < |Spellings4[li]| && k < |Tokens4[li]| ==>
      (LetterTakenForAccidental(Spellings4[li][k]) <==> IsLetterBToken(Tokens4[li][k]))
  {
    if li == 9 {} else if li == 10 {} else {}
  }

  lemma LinesOf5A(li: nat)
    requires 0 <= li < 3
    ensures Lines5[li] == Join(Tokens5[li])
  {
    if li == 0 {} else if li == 1 {} else {}
  }

  lemma RenderOf5A(li: nat)
    requires 0 <= li < 3
    ensures |Tokens5| == |Spellings5| == 12 && |Tokens5[li]| == |Spellings5[li]| >= 1
    ensures forall k :: 0 <= k < |Spellings5[li]| ==> Tokens5[li][k] == Render(Spellings5[li][k])
  {
    if li == 0 {} else if li == 1 {} else {}
  }

  lemma PitchOf5A(li: nat)
    requires 0 <= li < 3
    ensures |Spellings5| == 12
    ensures forall k :: 0 <= k < |Spellings5[li]| ==> WellSpelled(Spellings5[li][k]) && Pitch(Spellings5[li][k]) == 36 + li
  {
    RegisterSuffixes();
    if li == 0 {} else if li == 1 {} else {}
  }

  lemma LetterBOf5A(li: nat)
    requires 0 <= li < 3
    ensures |Tokens5| == |Spellings5| == 12
    ensures forall k :: 0 <= k < |Spellings5[li]| && k < |Tokens5[li]| ==>
      (LetterTakenForAccidental(Spellings5[li][k]) <==> IsLetterBToken(Tokens5[li][k]))
  {
    if li == 0 {} else if li == 1 {} else {}
  }

  lemma LinesOf5B(li: nat)
    requires 3 <= li < 6
    ensures Lines5[li] == Join(Tokens5[li])
  {
    if li == 3 {} else if li == 4 {} else {}
  }

  lemma RenderOf5B(li: nat)
    requires 3 <= li < 6
    ensures |Tokens5| == |Spellings5| == 12 && |Tokens5[li]| == |Spellings5[li]| >= 1
    ensures forall k :: 0 <= k < |Spellings5[li]| ==> Tokens5[li][k] == Render(Spellings5[li][k])
  {
    if li == 3 {} else if li == 4 {} else {}
  }

  lemma PitchOf5B(li: nat)
    requires 3 <= li < 6
    ensures |Spellings5| == 12
    ensures forall k :: 0 <= k < |Spellings5[li]| ==> WellSpelled(Spellings5[li][k]) && Pitch(Spellings5[li][k]) == 36 + li
  {
    RegisterSuffixes();
    if li == 3 {} else if li == 4 {} else {}
  }

  lemma LetterBOf5B(li: nat)
    requires 3 <= li < 6
    ensures |Tokens5| == |Spellings5| == 12
    ensures forall k :: 0 <= k < |Spellings5[li]| && k < |Tokens5[li]| ==>
      (LetterTakenForAccidental(Spellings5[li][k]) <==> IsLetterBToken(Tokens5[li][k]))
  {
    if li == 3 {} else if li == 4 {} else {}
  }

  lemma LinesOf5C(li: nat)
    requires 6 <= li < 9
    ensures Lines5[li] == Join(Tokens5[li])
  {
    if li == 6 {} else if li == 7 {} else {}
  }

  lemma RenderOf5C(li: nat)
    requires 6 <= li < 9
    ensures |Tokens5| == |Spellings5| == 12 && |Tokens5[li]| == |Spellings5[li]| >= 1
    ensures forall k :: 0 <= k < |Spellings5[li]| ==> Tokens5[li][k] == Render(Spellings5[li][k])
  {
    if li == 6 {} else if li == 7 {} else {}
  }

  lemma PitchOf5C(li: nat)
    requires 6 <= li < 9
    ensures |Spellings5| == 12
    ensures forall k :: 0 <= k < |Spellings5[li]| ==> WellSpelled(Spellings5[li][k]) && Pitch(Spellings5[li][k]) == 36 + li
  {
    RegisterSuffixes();
    if li == 6 {} else if li == 7 {} else {}
  }

  lemma LetterBOf5C(li: nat)
    requires 6 <= li < 9
    ensures |Tokens5| == |Spellings5| == 12
    ensures forall k :: 0 <= k < |Spellings5[li]| && k < |Tokens5[li]| ==>
      (LetterTakenForAccidental(Spellings5[li][k]) <==> IsLetterBToken(Tokens5[li][k]))
  {
    if li == 6 {} else if li == 7 {} else {}
  }

  lemma LinesOf5D(li: nat)
    requires 9 <= li < 12
    ensures Lines5[li] == Join(Tokens5[li])
  {
    if li == 9 {} else if li == 10 {} else {}
  }

  lemma RenderOf5D(li: nat)
    requires 9 <= li < 12
    ensures |Tokens5| == |Spellings5| == 12 && |Tokens5[li]| == |Spellings5[li]| >= 1
    ensures forall k :: 0 <= k < |Spellings5[li]| ==> Tokens5[li][k] == Render(Spellings5[li][k])
  {
    if li == 9 {} else if li == 10 {} else {}
  }

  lemma PitchOf5D(li: nat)
    requires 9 <= li < 12
    ensures |Spellings5| == 12
    ensures forall k :: 0 <= k < |Spellings5[li]| ==> WellSpelled(Spellings5[li][k]) && Pitch(Spellings5[li][k]) == 36 + li
  {
    RegisterSuffixes();
    if li == 9 {} else if li == 10 {} else {}
  }

  lemma LetterBOf5D(li: nat)
    requires 9 <= li < 12
    ensures |Tokens5| == |Spellings5| == 12
    ensures forall k :: 0 <= k < |Spellings5[li]| && k < |Tokens5[li]| ==>
      (LetterTakenForAccidental(Spellings5[li][k]) <==> IsLetterBToken(Tokens5[li][k]))
  {
    if li == 9 {} else if li == 10 {} else {}
  }

  // ---------------------------------------------------------------------------
  // The catalog as a whole

  /** What the catalog promises about class `i`: it keeps the promises of a class of
      pitch `LowestPitch + i`. */
  predicate ClassFacts(i: nat) {
    i < |Classes(SectionData)| && TokensFacts(Classes(SectionData)[i].tokens, LowestPitch + i)
  }

  lemma SectionStarts()
    ensures |SectionData| == 6
    ensures LinesBefore(SectionData, 0) == 0 && LinesBefore(SectionData, 1) == 5
    ensures LinesBefore(SectionData, 2) == 17 && LinesBefore(SectionData, 3) == 29
    ensures LinesBefore(SectionData, 4) == 41 && LinesBefore(SectionData, 5) == 53
    ensures LinesBefore(SectionData, 6) == 65
  {
  }

  /** The spelled-out copy is the table `SectionData` itself. */
  lemma SectionLines()
    ensures SectionData[0].lines == Lines0 && SectionData[1].lines == Lines1
    ensures SectionData[2].lines == Lines2 && SectionData[3].lines == Lines3
    ensures SectionData[4].lines == Lines4 && SectionData[5].lines == Lines5
  {
  }

  lemma SectionFacts0A(li: nat)
    requires 0 <= li < 3
    ensures LineFacts(Lines0[li], -17 + li)
  {
    LinesOf0A(li);
    RenderOf0A(li);
    PitchOf0A(li);
    LetterBOf0A(li);
    LineAt(Lines0[li], -17 + li, Tokens0[li], Spellings0[li]);
  }

  lemma SectionFacts0B(li: nat)
    requires 3 <= li < 5
    ensures LineFacts(Lines0[li], -17 + li)
  {
    LinesOf0B(li);
    RenderOf0B(li);
    PitchOf0B(li);
    LetterBOf0B(li);
    LineAt(Lines0[li], -17 + li, Tokens0[li], Spellings0[li]);
  }

  /** Each line of section 0 splits into well-formed spellings of the line's pitch. */
  lemma SectionFacts0(li: nat)
    requires li < 5
    ensures LineFacts(Lines0[li], -17 + li)
  {
    if li < 3 {
      SectionFacts0A(li);
    } else {
      SectionFacts0B(li);
    }
  }

  lemma SectionFacts1A(li: nat)
    requires 0 <= li < 3
    ensures LineFacts(Lines1[li], -12 + li)
  {
    LinesOf1A(li);
    RenderOf1A(li);
    PitchOf1A(li);
    LetterBOf1A(li);
    LineAt(Lines1[li], -12 + li, Tokens1[li], Spellings1[li]);
  }

  lemma SectionFacts1B(li: nat)
    requires 3 <= li < 6
    ensures LineFacts(Lines1[li], -12 + li)
  {
    LinesOf1B(li);
    RenderOf1B(li);
    PitchOf1B(li);
    LetterBOf1B(li);
    LineAt(Lines1[li], -12 + li, Tokens1[li], Spellings1[li]);
  }

  lemma SectionFacts1C(li: nat)
    requires 6 <= li < 9
    ensures LineFacts(Lines1[li], -12 + li)
  {
    LinesOf1C(li);
    RenderOf1C(li);
    PitchOf1C(li);
    LetterBOf1C(li);
    LineAt(Lines1[li], -12 + li, Tokens1[li], Spellings1[li]);
  }

  lemma SectionFacts1D(li: nat)
    requires 9 <= li < 12
    ensures LineFacts(Lines1[li], -12 + li)
  {
    LinesOf1D(li);
    RenderOf1D(li);
    PitchOf1D(li);
    LetterBOf1D(li);
    LineAt(Lines1[li], -12 + li, Tokens1[li], Spellings1[li]);
  }

  /** Each line of section 1 splits into well-formed spellings of the line's pitch. */
  lemma SectionFacts1(li: nat)
    requires li < 12
    ensures LineFacts(Lines1[li], -12 + li)
  {
    if li < 3 {
      SectionFacts1A(li);
    } else if li < 6 {
      SectionFacts1B(li);
    } else if li < 9 {
      SectionFacts1C(li);
    } else {
      SectionFacts1D(li);
    }
  }

  lemma SectionFacts2A(li: nat)
    requires 0 <= li < 3
    ensures LineFacts(Lines2[li], 0 + li)
  {
    LinesOf2A(li);
    RenderOf2A(li);
    PitchOf2A(li);
    LetterBOf2A(li);
    LineAt(Lines2[li], 0 + li, Tokens2[li], Spellings2[li]);
  }

  lemma SectionFacts2B(li: nat)
    requires 3 <= li < 6
    ensures LineFacts(Lines2[li], 0 + li)
  {
    LinesOf2B(li);
    RenderOf2B(li);
    PitchOf2B(li);
    LetterBOf2B(li);
    LineAt(Lines2[li], 0 + li, Tokens2[li], Spellings2[li]);
  }

  lemma SectionFacts2C(li: nat)
    requires 6 <= li < 9
    ensures LineFacts(Lines2[li], 0 + li)
  {
    LinesOf2C(li);
    RenderOf2C(li);
    PitchOf2C(li);
    LetterBOf2C(li);
    LineAt(Lines2[li], 0 + li, Tokens2[li], Spellings2[li]);
  }

  lemma SectionFacts2D(li: nat)
    requires 9 <= li < 12
    ensures LineFacts(Lines2[li], 0 + li)
  {
    LinesOf2D(li);
    RenderOf2D(li);
    PitchOf2D(li);
    LetterBOf2D(li);
    LineAt(Lines2[li], 0 + li, Tokens2[li], Spellings2[li]);
  }

  /** Each line of section 2 splits into well-formed spellings of the line's pitch. */
  lemma SectionFacts2(li: nat)
    requires li < 12
    ensures LineFacts(Lines2[li], 0 + li)
  {
    if li < 3 {
      SectionFacts2A(li);
    } else if li < 6 {
      SectionFacts2B(li);
    } else if li < 9 {
      SectionFacts2C(li);
    } else {
      SectionFacts2D(li);
    }
  }

  lemma SectionFacts3A(li: nat)
    requires 0 <= li < 3
    ensures LineFacts(Lines3[li], 12 + li)
  {
    LinesOf3A(li);
    RenderOf3A(li);
    PitchOf3A(li);
    LetterBOf3A(li);
    LineAt(Lines3[li], 12 + li, Tokens3[li], Spellings3[li]);
  }

  lemma SectionFacts3B(li: nat)
    requires 3 <= li < 6
    ensures LineFacts(Lines3[li], 12 + li)
  {
    LinesOf3B(li);
    RenderOf3B(li);
    PitchOf3B(li);
    LetterBOf3B(li);
    LineAt(Lines3[li], 12 + li, Tokens3[li], Spellings3[li]);
  }

  lemma SectionFacts3C(li: nat)
    requires 6 <= li < 9
    ensures LineFacts(Lines3[li], 12 + li)
  {
    LinesOf3C(li);
    RenderOf3C(li);
    PitchOf3C(li);
    LetterBOf3C(li);
    LineAt(Lines3[li], 12 + li, Tokens3[li], Spellings3[li]);
  }

  lemma SectionFacts3D(li: nat)
    requires 9 <= li < 12
    ensures LineFacts(Lines3[li], 12 + li)
  {
    LinesOf3D(li);
    RenderOf3D(li);
    PitchOf3D(li);
    LetterBOf3D(li);
    LineAt(Lines3[li], 12 + li, Tokens3[li], Spellings3[li]);
  }

  /** Each line of section 3 splits into well-formed spellings of the line's pitch. */
  lemma SectionFacts3(li: nat)
    requires li < 12
    ensures LineFacts(Lines3[li], 12 + li)
  {
    if li < 3 {
      SectionFacts3A(li);
    } else if li < 6 {
      SectionFacts3B(li);
    } else if li < 9 {
      SectionFacts3C(li);
    } else {
      SectionFacts3D(li);
    }
  }

  lemma SectionFacts4A(li: nat)
    requires 0 <= li < 3
    ensures LineFacts(Lines4[li], 24 + li)
  {
    LinesOf4A(li);
    RenderOf4A(li);
    PitchOf4A(li);
    LetterBOf4A(li);
    LineAt(Lines4[li], 24 + li, Tokens4[li], Spellings4[li]);
  }

  lemma SectionFacts4B(li: nat)
    requires 3 <= li < 6
    ensures LineFacts(Lines4[li], 24 + li)
  {
    LinesOf4B(li);
    RenderOf4B(li);
    PitchOf4B(li);
    LetterBOf4B(li);
    LineAt(Lines4[li], 24 + li, Tokens4[li], Spellings4[li]);
  }

  lemma SectionFacts4C(li: nat)
    requires 6 <= li < 9
    ensures LineFacts(Lines4[li], 24 + li)
  {
    LinesOf4C(li);
    RenderOf4C(li);
    PitchOf4C(li);
    LetterBOf4C(li);
    LineAt(Lines4[li], 24 + li, Tokens4[li], Spellings4[li]);
  }

  lemma SectionFacts4D(li: nat)
    requires 9 <= li < 12
    ensures LineFacts(Lines4[li], 24 + li)
  {
    LinesOf4D(li);
    RenderOf4D(li);
    PitchOf4D(li);
    LetterBOf4D(li);
    LineAt(Lines4[li], 24 + li, Tokens4[li], Spellings4[li]);
  }

  /** Each line of section 4 splits into well-formed spellings of the line's pitch. */
  lemma SectionFacts4(li: nat)
    requires li < 12
    ensures LineFacts(Lines4[li], 24 + li)
  {
    if li < 3 {
      SectionFacts4A(li);
    } else if li < 6 {
      SectionFacts4B(li);
    } else if li < 9 {
      SectionFacts4C(li);
    } else {
      SectionFacts4D(li);
    }
  }

  lemma SectionFacts5A(li: nat)
    requires 0 <= li < 3
    ensures LineFacts(Lines5[li], 36 + li)
  {
    LinesOf5A(li);
    RenderOf5A(li);
    PitchOf5A(li);
    LetterBOf5A(li);
    LineAt(Lines5[li], 36 + li, Tokens5[li], Spellings5[li]);
  }

  lemma SectionFacts5B(li: nat)
    requires 3 <= li < 6
    ensures LineFacts(Lines5[li], 36 + li)
  {
    LinesOf5B(li);
    RenderOf5B(li);
    PitchOf5B(li);
    LetterBOf5B(li);
    LineAt(Lines5[li], 36 + li, Tokens5[li], Spellings5[li]);
  }

  lemma SectionFacts5C(li: nat)
    requires 6 <= li < 9
    ensures LineFacts(Lines5[li], 36 + li)
  {
    LinesOf5C(li);
    RenderOf5C(li);
    PitchOf5C(li);
    LetterBOf5C(li);
    LineAt(Lines5[li], 36 + li, Tokens5[li], Spellings5[li]);
  }

  lemma SectionFacts5D(li: nat)
    requires 9 <= li < 12
    ensures LineFacts(Lines5[li], 36 + li)
  {
    LinesOf5D(li);
    RenderOf5D(li);
    PitchOf5D(li);
    LetterBOf5D(li);
    LineAt(Lines5[li], 36 + li, Tokens5[li], Spellings5[li]);
  }

  /** Each line of section 5 splits into well-formed spellings of the line's pitch. */
  lemma SectionFacts5(li: nat)
    requires li < 12
    ensures LineFacts(Lines5[li], 36 + li)
  {
    if li < 3 {
      SectionFacts5A(li);
    } else if li < 6 {
      SectionFacts5B(li);
    } else if li < 9 {
      SectionFacts5C(li);
    } else {
      SectionFacts5D(li);
    }
  }

  /** The catalog has 65 classes, one per line of the table, ... */
  lemma CatalogSize()
    ensures |Classes(SectionData)| == 65
  {
    SectionStarts();
    ClassesCount(SectionData);
  }

  /** The class of a line keeps the promises of its line. */
  lemma Lift(sections: seq<Section>, si: nat, li: nat, p: int)
    requires si < |sections| && li < |sections[si].lines|
    requires LineFacts(sections[si].lines[li], p)
    ensures LinesBefore(sections, si) + li < |Classes(sections)|
    ensures TokensFacts(Classes(sections)[LinesBefore(sections, si) + li].tokens, p)
  {
    ClassOfLine(sections, si, li);
  }

  /** The classes of section 0 keep the promises of their lines. */
  lemma ClassFactsOf0(li: nat)
    requires li < 5
    ensures ClassFacts(0 + li)
  {
    SectionStarts();
    SectionLines();
    SectionFacts0(li);
    Lift(SectionData, 0, li, LowestPitch + 0 + li);
  }

  /** The classes of section 1 keep the promises of their lines. */
  lemma ClassFactsOf1(li: nat)
    requires li < 12
    ensures ClassFacts(5 + li)
  {
    SectionStarts();
    SectionLines();
    SectionFacts1(li);
    Lift(SectionData, 1, li, LowestPitch + 5 + li);
  }

  /** The classes of section 2 keep the promises of their lines. */
  lemma ClassFactsOf2(li: nat)
    requires li < 12
    ensures ClassFacts(17 + li)
  {
    SectionStarts();
    SectionLines();
    SectionFacts2(li);
    Lift(SectionData, 2, li, LowestPitch + 17 + li);
  }

  /** The classes of section 3 keep the promises of their lines. */
  lemma ClassFactsOf3(li: nat)
    requires li < 12
    ensures ClassFacts(29 + li)
  {
    SectionStarts();
    SectionLines();
    SectionFacts3(li);
    Lift(SectionData, 3, li, LowestPitch + 29 + li);
  }

  /** The classes of section 4 keep the promises of their lines. */
  lemma ClassFactsOf4(li: nat)
    requires li < 12
    ensures ClassFacts(41 + li)
  {
    SectionStarts();
    SectionLines();
    SectionFacts4(li);
    Lift(SectionData, 4, li, LowestPitch + 41 + li);
  }

  /** The classes of section 5 keep the promises of their lines. */
  lemma ClassFactsOf5(li: nat)
    requires li < 12
    ensures ClassFacts(53 + li)
  {
    SectionStarts();
    SectionLines();
    SectionFacts5(li);
    Lift(SectionData, 5, li, LowestPitch + 53 + li);
  }

  /** ... and class `i` lists spellings of pitch `LowestPitch + i` only: neighbouring
      classes are one semitone apart. */
  lemma CatalogClassFacts(i: nat)
    requires i < 65
    ensures ClassFacts(i)
  {
    if i < 5 {
      ClassFactsOf0(i);
    } else if i < 17 {
      ClassFactsOf1(i - 5);
    } else if i < 29 {
      ClassFactsOf2(i - 17);
    } else if i < 41 {
      ClassFactsOf3(i - 29);
    } else if i < 53 {
      ClassFactsOf4(i - 41);
    } else {
      ClassFactsOf5(i - 53);
    }
  }
}
