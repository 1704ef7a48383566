/** Pitch spellings in Helmholtz notation (`bbA-2`, `#c1`, `XF`): the regex-based helpers
    `accidentalOf`, `letterOf`, `groupSuffixOf` and `formatDisplay` exactly as written,
    next to the intended reading of a spelling, which is used to state what the helpers
    get right and where they do not. */
module Spelling {
  import opened Wrappers
  import opened Decimal

  /** `[A-Ga-g]`. */
  predicate IsLetter(c: char) {
    'A' <= c <= 'G' || 'a' <= c <= 'g'
  }

  /** An accidental the spellings use: none, sharp, double sharp, flat, double flat. */
  predicate IsAccidental(a: string) {
    a == "" || a == "#" || a == "X" || a == "b" || a == "bb"
  }

  /** A register suffix that `(-\d+|\d+)$` matches whole. */
  predicate IsGroup(s: string) {
    IsDigits(s) || (|s| >= 2 && s[0] == '-' && IsDigits(s[1..]))
  }

  // ---------------------------------------------------------------------------
  // The helpers as written

  /** `/^(bb|#|X|b)?/`: the first alternative that matches at the start wins, so a
      leading `bb` is always read as a double flat and a leading `b` as a flat, even
      when that `b` is the note's letter. */
  function AccidentalOf(t: string): (a: string)
    ensures IsAccidental(a)
    ensures a <= t
  {
    if |t| >= 2 && t[0] == 'b' && t[1] == 'b' then "bb"
    else if |t| >= 1 && t[0] == '#' then "#"
    else if |t| >= 1 && t[0] == 'X' then "X"
    else if |t| >= 1 && t[0] == 'b' then "b"
    else ""
  }

  /** `/^(?:bb|#|X|b)?([A-Ga-g])/`: each accidental alternative is tried with a letter
      after it, then no accidental; the letter is the first that fits. */
  function LetterOf(t: string): (l: string)
    ensures |l| <= 1
    ensures |l| == 1 ==> IsLetter(l[0]) && l[0] in t
  {
    if |t| >= 3 && t[0] == 'b' && t[1] == 'b' && IsLetter(t[2]) then [t[2]]
    else if |t| >= 2 && t[0] == '#' && IsLetter(t[1]) then [t[1]]
    else if |t| >= 2 && t[0] == 'X' && IsLetter(t[1]) then [t[1]]
    else if |t| >= 2 && t[0] == 'b' && IsLetter(t[1]) then [t[1]]
    else if |t| >= 1 && IsLetter(t[0]) then [t[0]]
    else ""
  }

  /** The leftmost match of `(-\d+|\d+)?$` searched from position `p`: the first suffix
      `t[q..]`, `q >= p`, that is a whole register suffix, or nothing. */
  function SuffixFrom(t: string, p: nat): (g: string)
    requires p <= |t|
    ensures g == "" || IsGroup(g)
    ensures |g| <= |t| - p && g == t[|t| - |g|..]
    decreases |t| - p
  {
    if p == |t| then ""
    else if IsGroup(t[p..]) then t[p..]
    else SuffixFrom(t, p + 1)
  }

  /** `groupSuffixOf`: the register suffix of a spelling, `""` when there is none. */
  function GroupSuffixOf(t: string): string {
    SuffixFrom(t, 0)
  }

  const SuperscriptMap: map<char, char> := map[
    '0' := '\U{2070}', '1' := '\U{B9}', '2' := '\U{B2}', '3' := '\U{B3}', '4' := '\U{2074}',
    '5' := '\U{2075}', '6' := '\U{2076}', '7' := '\U{2077}', '8' := '\U{2078}', '9' := '\U{2079}']

  const SubscriptMap: map<char, char> := map[
    '0' := '\U{2080}', '1' := '\U{2081}', '2' := '\U{2082}', '3' := '\U{2083}', '4' := '\U{2084}',
    '5' := '\U{2085}', '6' := '\U{2086}', '7' := '\U{2087}', '8' := '\U{2088}', '9' := '\U{2089}']

  /** `s.split('').map(ch => table[ch] || ch).join('')`. */
  function MapChars(table: map<char, char>, s: string): (r: string)
    ensures |r| == |s|
    ensures forall k :: 0 <= k < |s| ==> r[k] == (if s[k] in table then table[s[k]] else s[k])
  {
    if s == [] then [] else [if s[0] in table then table[s[0]] else s[0]] + MapChars(table, s[1..])
  }

  /** The display of a register suffix: `-n` as subscript digits, `n` as superscript. */
  function GroupDisplay(g: string): string {
    if g == "" then ""
    else if g[0] == '-' then MapChars(SubscriptMap, g[1..])
    else MapChars(SuperscriptMap, g)
  }

  /** `formatDisplay`: accidental, letter, then the register as sub- or superscript. */
  function FormatDisplay(t: string): string {
    AccidentalOf(t) + LetterOf(t) + GroupDisplay(GroupSuffixOf(t))
  }

  // ---------------------------------------------------------------------------
  // The intended reading of a spelling

  /** A spelling split into its parts: an accidental, a letter, a register suffix. */
  datatype Spelled = Spelled(accidental: string, letter: char, group: string)

  /** The accidental that precedes the note letter, found by requiring a letter after it. */
  function AccidentalBeforeLetter(t: string): (a: string)
    ensures IsAccidental(a)
  {
    if |t| >= 3 && t[0] == 'b' && t[1] == 'b' && IsLetter(t[2]) then "bb"
    else if |t| >= 2 && (t[0] == '#' || t[0] == 'X' || t[0] == 'b') && IsLetter(t[1]) then [t[0]]
    else ""
  }

  /** Reads `t` as accidental + letter + register suffix, or `None` when it is not one. */
  function Spell(t: string): (r: Option<Spelled>)
    ensures r.Some? ==> t == r.value.accidental + [r.value.letter] + r.value.group
    ensures r.Some? ==> IsLetter(r.value.letter) && (r.value.group == "" || IsGroup(r.value.group))
    ensures r.Some? ==> IsAccidental(r.value.accidental)
  {
    var a := AccidentalBeforeLetter(t);
    if |a| < |t| && IsLetter(t[|a|]) && (|a| + 1 == |t| || IsGroup(t[|a| + 1..]))
    then
      assert t == t[..|a|] + [t[|a|]] + t[|a| + 1..];
      Some(Spelled(a, t[|a|], t[|a| + 1..]))
    else None
  }

  function LetterStep(l: char): int {
    match l
    case 'C' => 0 case 'D' => 2 case 'E' => 4 case 'F' => 5 case 'G' => 7 case 'A' => 9 case 'B' => 11
    case 'c' => 0 case 'd' => 2 case 'e' => 4 case 'f' => 5 case 'g' => 7 case 'a' => 9 case _ => 11
  }

  function AccidentalShift(a: string): int {
    if a == "#" then 1 else if a == "X" then 2 else if a == "b" then -1 else if a == "bb" then -2 else 0
  }

  /** The Helmholtz register: upper-case `C` is 0 and `C-n` is `-n`; lower-case `c` is 1
      and `cn` is `n + 1`. */
  function Register(sp: Spelled): int
    requires sp.group == "" || IsGroup(sp.group)
  {
    var lift := if 'a' <= sp.letter <= 'g' then 1 else 0;
    if sp.group == "" then lift
    else if sp.group[0] == '-' then lift - DigitsValue(sp.group[1..])
    else lift + DigitsValue(sp.group)
  }

  /** Semitones above the great-octave C. */
  function Pitch(sp: Spelled): int
    requires sp.group == "" || IsGroup(sp.group)
  {
    12 * Register(sp) + LetterStep(sp.letter) + AccidentalShift(sp.accidental)
  }

  /** The spellings whose letter `b` is taken for an accidental by `accidentalOf`: the
      natural and the flat small-register B. */
  predicate LetterTakenForAccidental(sp: Spelled) {
    sp.letter == 'b' && (sp.accidental == "" || sp.accidental == "b")
  }

  // ---------------------------------------------------------------------------
  // What the helpers do with a well-formed spelling

  /** No suffix that starts at or before the letter is a register suffix. */
  lemma {:induction false} SuffixSkipsLetter(t: string, p: nat, at: nat)
    requires p <= at < |t| && IsLetter(t[at])
    ensures SuffixFrom(t, p) == SuffixFrom(t, at + 1)
    decreases at - p
  {
    var s := t[p..];
    assert s[at - p] == t[at];
    assert !IsGroup(s) by {
      if at - p > 0 {
        assert s[1..][at - p - 1] == t[at];
      }
    }
    if p < at {
      SuffixSkipsLetter(t, p + 1, at);
    }
  }

  /** On a well-formed spelling `letterOf` finds the note letter. */
  lemma LetterOfSpelling(t: string)
    requires Spell(t).Some?
    ensures LetterOf(t) == [Spell(t).value.letter]
  {
    var sp := Spell(t).value;
    assert t[|sp.accidental|] == sp.letter;
  }

  /** On a well-formed spelling `groupSuffixOf` finds the register suffix. */
  lemma GroupSuffixOfSpelling(t: string)
    requires Spell(t).Some?
    ensures GroupSuffixOf(t) == Spell(t).value.group
  {
    var sp := Spell(t).value;
    var n := |sp.accidental|;
    assert t[n] == sp.letter;
    SuffixSkipsLetter(t, 0, n);
    assert t[n + 1..] == sp.group;
    if sp.group != [] {
      assert SuffixFrom(t, n + 1) == sp.group;
    }
  }

  /** On a well-formed spelling `accidentalOf` finds the accidental, except where the
      letter is `b` and the accidental is none or `b`: there the letter is counted into
      the accidental as well. */
  lemma AccidentalOfSpelling(t: string)
    requires Spell(t).Some?
    ensures var sp := Spell(t).value;
      AccidentalOf(t) == (if LetterTakenForAccidental(sp) then sp.accidental + "b" else sp.accidental)
  {
    var sp := Spell(t).value;
    assert t[|sp.accidental|] == sp.letter;
  }

  /** The three helpers together on a well-formed spelling. */
  lemma HelpersOnSpelling(t: string)
    requires Spell(t).Some?
    ensures var sp := Spell(t).value;
      && LetterOf(t) == [sp.letter]
      && GroupSuffixOf(t) == sp.group
      && AccidentalOf(t) == (if LetterTakenForAccidental(sp) then sp.accidental + "b" else sp.accidental)
  {
    LetterOfSpelling(t);
    GroupSuffixOfSpelling(t);
    AccidentalOfSpelling(t);
  }

  /** accidental + letter + suffix reproduces a well-formed spelling exactly when its
      letter is not taken for an accidental. */
  lemma DecompositionRoundTrip(t: string)
    requires Spell(t).Some?
    ensures AccidentalOf(t) + LetterOf(t) + GroupSuffixOf(t) == t
        <==> !LetterTakenForAccidental(Spell(t).value)
  {
    var sp := Spell(t).value;
    HelpersOnSpelling(t);
    if LetterTakenForAccidental(sp) {
      var r := AccidentalOf(t) + LetterOf(t) + GroupSuffixOf(t);
      assert |r| == |t| + 1;
    }
  }

  // ---------------------------------------------------------------------------
  // The display, and reading it back

  /** `accidentalOf` as its comment means it: an accidental counts only when a note
      letter follows it, as `/^(bb|#|X|b)?(?=[A-Ga-g])/` would match. */
  function AccidentalIntended(t: string): (a: string)
    ensures IsAccidental(a)
    ensures Spell(t).Some? ==> a == Spell(t).value.accidental
  {
    AccidentalBeforeLetter(t)
  }

  /** `formatDisplay` with the accidental read as intended. */
  function FormatDisplayIntended(t: string): string {
    AccidentalIntended(t) + LetterOf(t) + GroupDisplay(GroupSuffixOf(t))
  }

  predicate IsSubscript(c: char) {
    '\U{2080}' <= c <= '\U{2089}'
  }

  /** The digit a sub- or superscript glyph stands for; other characters are kept. */
  function DigitOfGlyph(c: char): char {
    if IsSubscript(c) then (c as int - 0x2080 + '0' as int) as char
    else if c == '\U{2070}' then '0'
    else if c == '\U{B9}' then '1'
    else if c == '\U{B2}' then '2'
    else if c == '\U{B3}' then '3'
    else if '\U{2074}' <= c <= '\U{2079}' then (c as int - 0x2074 + '4' as int) as char
    else c
  }

  function DigitsOfGlyphs(s: string): (r: string)
    ensures |r| == |s|
    ensures forall k :: 0 <= k < |s| ==> r[k] == DigitOfGlyph(s[k])
  {
    if s == [] then [] else [DigitOfGlyph(s[0])] + DigitsOfGlyphs(s[1..])
  }

  /** Reads a displayed register back: subscripts are a negative register suffix. */
  function ReadGroup(d: string): string {
    if d == [] then []
    else if IsSubscript(d[0]) then "-" + DigitsOfGlyphs(d)
    else DigitsOfGlyphs(d)
  }

  /** Reads a displayed spelling back into a token. */
  function ReadDisplay(s: string): string {
    var a := AccidentalBeforeLetter(s);
    if |a| < |s| then a + [s[|a|]] + ReadGroup(s[|a| + 1..]) else s
  }

  lemma GlyphOfDigit(c: char)
    requires IsDigit(c)
    ensures IsSubscript(SubscriptMap[c]) && DigitOfGlyph(SubscriptMap[c]) == c
    ensures !IsSubscript(SuperscriptMap[c]) && DigitOfGlyph(SuperscriptMap[c]) == c
    ensures !IsLetter(SubscriptMap[c]) && !IsLetter(SuperscriptMap[c])
  {
    if c == '0' {} else if c == '1' {} else if c == '2' {} else if c == '3' {} else if c == '4' {}
    else if c == '5' {} else if c == '6' {} else if c == '7' {} else if c == '8' {} else {}
  }

  /** The display of a register suffix writes one glyph per digit, all subscripts for a
      negative register and none for a positive one; it has no letter in it, and reads
      back to the suffix. */
  lemma GroupDisplayRoundTrip(g: string)
    requires g == "" || IsGroup(g)
    ensures g != "" ==> |GroupDisplay(g)| == if g[0] == '-' then |g| - 1 else |g|
    ensures forall k :: 0 <= k < |GroupDisplay(g)| ==>
      !IsLetter(GroupDisplay(g)[k]) && (IsSubscript(GroupDisplay(g)[k]) <==> g[0] == '-')
    ensures ReadGroup(GroupDisplay(g)) == g
  {
    if g != "" {
      var neg := g[0] == '-';
      var digits := if neg then g[1..] else g;
      assert IsDigits(digits);
      var d := GroupDisplay(g);
      forall k | 0 <= k < |digits|
        ensures !IsLetter(d[k]) && DigitOfGlyph(d[k]) == digits[k]
        ensures IsSubscript(d[k]) == neg
      {
        GlyphOfDigit(digits[k]);
      }
      assert DigitsOfGlyphs(d) == digits;
      if neg {
        assert g == "-" + digits;
      }
    }
  }

  /** Reading the intended display of a well-formed spelling gives the spelling back, so
      distinct spellings are displayed distinctly. */
  lemma DisplayIntendedRoundTrip(t: string)
    requires Spell(t).Some?
    ensures ReadDisplay(FormatDisplayIntended(t)) == t
  {
    var sp := Spell(t).value;
    LetterOfSpelling(t);
    GroupSuffixOfSpelling(t);
    var d := GroupDisplay(sp.group);
    GroupDisplayRoundTrip(sp.group);
    assert FormatDisplayIntended(t) == sp.accidental + [sp.letter] + d;
    ReadDisplayOf(sp.accidental, sp.letter, d);
  }

  lemma DisplayIntendedInjective(t1: string, t2: string)
    requires Spell(t1).Some? && Spell(t2).Some?
    ensures FormatDisplayIntended(t1) == FormatDisplayIntended(t2) <==> t1 == t2
  {
    DisplayIntendedRoundTrip(t1);
    DisplayIntendedRoundTrip(t2);
  }

  /** As written, a spelling whose letter `b` is taken for an accidental is displayed
      with one flat too many; every other well-formed spelling is displayed as intended. */
  lemma DisplayAsWritten(t: string)
    requires Spell(t).Some?
    ensures FormatDisplay(t)
         == (if LetterTakenForAccidental(Spell(t).value) then "b" else "") + FormatDisplayIntended(t)
  {
    var sp := Spell(t).value;
    AccidentalOfSpelling(t);
    if LetterTakenForAccidental(sp) {
      FlatJoin(sp.accidental, LetterOf(t), GroupDisplay(GroupSuffixOf(t)));
    }
  }

  /** A flat after no accidental or a flat, then the rest, is a flat before it all. */
  lemma FlatJoin(a: string, l: string, d: string)
    requires a == "" || a == "b"
    ensures (a + "b") + l + d == "b" + (a + l + d)
  {
  }

  /** An accidental followed by a letter and then no letter is found as written. */
  lemma AccidentalBeforeLetterOf(acc: string, l: char, d: string)
    requires IsAccidental(acc) && IsLetter(l)
    requires d == [] || !IsLetter(d[0])
    ensures AccidentalBeforeLetter(acc + [l] + d) == acc
  {
    var s := acc + [l] + d;
    assert s[|acc|] == l;
    if |acc| + 1 < |s| {
      assert s[|acc| + 1] == d[0];
    }
    if acc == "bb" {
      assert s[0] == 'b' && s[1] == 'b';
    } else if |acc| == 1 {
      assert s[0] == acc[0];
    }
  }

  /** Reading a display splits it after the accidental and the letter. */
  lemma ReadDisplayOf(acc: string, l: char, d: string)
    requires IsAccidental(acc) && IsLetter(l)
    requires d == [] || !IsLetter(d[0])
    ensures ReadDisplay(acc + [l] + d) == acc + [l] + ReadGroup(d)
  {
    var s := acc + [l] + d;
    AccidentalBeforeLetterOf(acc, l, d);
    assert s[|acc|] == l;
    assert s[|acc| + 1..] == d;
  }

  /** Accidental, letter and register suffix put together spell themselves out. */
  lemma SpellOf(acc: string, l: char, g: string)
    requires IsAccidental(acc) && IsLetter(l) && (g == "" || IsGroup(g))
    ensures Spell(acc + [l] + g) == Some(Spelled(acc, l, g))
  {
    var s := acc + [l] + g;
    assert g != [] ==> !IsLetter(g[0]);
    AccidentalBeforeLetterOf(acc, l, g);
    assert s[|acc|] == l;
    assert s[|acc| + 1..] == g;
  }

  /** ... and that display reads back with the extra flat, ... */
  lemma DisplayAsWrittenReadsBack(t: string)
    requires Spell(t).Some? && LetterTakenForAccidental(Spell(t).value)
    ensures ReadDisplay(FormatDisplay(t)) == "b" + t
  {
    var sp := Spell(t).value;
    var d := GroupDisplay(sp.group);
    assert FormatDisplay(t) == ("b" + sp.accidental) + [sp.letter] + d by {
      DisplayAsWritten(t);
      LetterOfSpelling(t);
      GroupSuffixOfSpelling(t);
      assert FormatDisplayIntended(t) == sp.accidental + [sp.letter] + d;
      PrependFlat(sp.accidental, sp.letter, d);
    }
    FlatDisplayReadsBack(sp.accidental, sp.letter, sp.group);
  }

  /** The display of a spelling with a flat too many reads back with that flat. */
  lemma FlatDisplayReadsBack(a: string, l: char, g: string)
    requires (a == "" || a == "b") && IsLetter(l) && (g == "" || IsGroup(g))
    ensures ReadDisplay(("b" + a) + [l] + GroupDisplay(g)) == "b" + (a + [l] + g)
  {
    var d := GroupDisplay(g);
    GroupDisplayRoundTrip(g);
    assert IsAccidental("b" + a);
    ReadDisplayOf("b" + a, l, d);
    PrependFlat(a, l, g);
  }

  /** A flat written before a spelling joins its accidental. */
  lemma PrependFlat(a: string, l: char, g: string)
    ensures "b" + (a + [l] + g) == ("b" + a) + [l] + g
  {
  }

  /** ... which is the spelling one semitone lower. */
  lemma ExtraFlatIsLower(t: string)
    requires Spell(t).Some? && LetterTakenForAccidental(Spell(t).value)
    ensures Spell("b" + t).Some? && Pitch(Spell("b" + t).value) == Pitch(Spell(t).value) - 1
  {
    var sp := Spell(t).value;
    var acc := "b" + sp.accidental;
    PrependFlat(sp.accidental, sp.letter, sp.group);
    SpellOf(acc, sp.letter, sp.group);
    assert AccidentalShift(acc) == AccidentalShift(sp.accidental) - 1;
  }

  /** The small B flat `bb` and the small B double flat `bbb` are displayed alike. */
  lemma DisplayCollision()
    ensures FormatDisplay("bb") == FormatDisplay("bbb") == "bbb"
    ensures Spell("bb").Some? && Spell("bbb").Some?
    ensures Pitch(Spell("bb").value) == Pitch(Spell("bbb").value) + 1
  {
    AccidentalBeforeLetterOf("b", 'b', "");
    assert "b" + ['b'] + "" == "bb";
    assert Spell("bb") == Some(Spelled("b", 'b', ""));
    AccidentalBeforeLetterOf("bb", 'b', "");
    assert "bb" + ['b'] + "" == "bbb";
    assert Spell("bbb") == Some(Spelled("bb", 'b', ""));
    HelpersOnSpelling("bb");
    HelpersOnSpelling("bbb");
  }
}
