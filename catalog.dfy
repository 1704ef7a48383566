/** The enharmonic catalog: the section table, its flattening into ordered
    equivalence classes (one class per line, one semitone apart) and the token index. */
module Catalog {
  import opened Text

  /** A labelled register range and its lines, one enharmonic class per line. */
  datatype Section = Section(name: string, lines: seq<string>)

  /** One equivalence class: its spellings, and the section and line it came from. */
  datatype EqClass = EqClass(tokens: seq<string>, sectionIndex: nat, lineIndex: nat)

  // The section table; every line lists the spellings of one pitch, and the lines run
  // upwards by one semitone from G of the sub-contra octave to B of the two-line octave.
  const Lines0: seq<string> := [
    "G-2 XF-2 bbA-2",
    "#G-2 bA-2",
    "A-2 XG-2 bbB-2",
    "#A-2 bB-2 bbC-1",
    "B-2 bC-1 XA-2"
  ]
  const Lines1: seq<string> := [
    "C-1 #B-2 bbD-1",
    "#C-1 bD-1 XB-2",
    "D-1 XC-1 bbE-1",
    "#D-1 bE-1 bbF-1",
    "E-1 XD-1 bF-1",
    "F-1 #E-1 bbG-1",
    "#F-1 bG-1 XE-1",
    "G-1 XF-1 bbA-1",
    "#G-1 bA-1",
    "A-1 XG-1 bbB-1",
    "#A-1 bB-1 bbC",
    "B-1 XA-1 bC"
  ]
  const Lines2: seq<string> := [
    "C #B-1 bbD",
    "#C bD XB-1",
    "D XC bbE",
    "#D bE bbF",
    "E XD bF",
    "F #E bbG",
    "#F bG XE",
    "G XF bbA",
    "#G bA",
    "A XG bbB",
    "#A bB bbc",
    "B XA bc"
  ]
  const Lines3: seq<string> := [
    "c #B bbd",
    "#c bd XB",
    "d Xc bbe",
    "#d be bbf",
    "e Xd bf",
    "f #e bbg",
    "#f bg Xe",
    "g Xf bba",
    "#g ba",
    "a Xg bbb",
    "#a bb bbc1",
    "b Xa bc1"
  ]
  const Lines4: seq<string> := [
    "c1 #b bbd1",
    "#c1 bd1 Xb",
    "d1 Xc1 bbe1",
    "#d1 be1 bbf1",
    "e1 Xd1 bf1",
    "f1 #e1 bbg1",
    "#f1 bg1 Xe1",
    "g1 Xf1 bba1",
    "#g1 ba1",
    "a1 Xg1 bbb1",
    "#a1 bb1 bbc2",
    "b1 Xa1 bc2"
  ]
  const Lines5: seq<string> := [
    "c2 #b1 bbd2",
    "#c2 bd2 Xb1",
    "d2 Xc2 bbe2",
    "#d2 be2 bbf2",
    "e2 Xd2 bf2",
    "f2 #e2 bbg2",
    "#f2 bg2 Xe2",
    "g2 Xf2 bba2",
    "#g2 ba2",
    "a2 Xg2 bbb2",
    "#a2 bb2 bbc3",
    "b2 Xa2 bc3"
  ]
  const SectionData: seq<Section> := [
    Section("大字二组", Lines0),
    Section("大字一组", Lines1),
    Section("大字组", Lines2),
    Section("小字组", Lines3),
    Section("小字一组", Lines4),
    Section("小字二组", Lines5)
  ]

  /** `line.trim().split(/\s+/)`: the words of the line, or the one empty token of a
      line that is blank. */
  function LineTokens(line: string): (ts: seq<string>)
    ensures |ts| >= 1
    ensures Words(line) != [] ==> ts == Words(line)
    ensures Words(line) == [] ==> ts == [""]
  {
    var w := Words(line);
    if w == [] then [""] else w
  }

  /** The classes of one section, numbered by line. */
  function SectionClasses(si: nat, lines: seq<string>): (cs: seq<EqClass>)
    ensures |cs| == |lines|
    ensures forall li :: 0 <= li < |lines| ==> cs[li] == EqClass(LineTokens(lines[li]), si, li)
  {
    seq(|lines|, li requires 0 <= li < |lines| => EqClass(LineTokens(lines[li]), si, li))
  }

  /** `CLASSES`: the classes of all sections, section after section. */
  function Classes(sections: seq<Section>): seq<EqClass>
    decreases |sections|
  {
    if sections == [] then []
    else Classes(sections[..|sections| - 1]) + SectionClasses(|sections| - 1, sections[|sections| - 1].lines)
  }

  /** The number of lines in the first `n` sections. */
  function LinesBefore(sections: seq<Section>, n: nat): nat
    requires n <= |sections|
  {
    if n == 0 then 0 else LinesBefore(sections, n - 1) + |sections[n - 1].lines|
  }

  /** There is one class per line, ... */
  lemma {:induction false} ClassesCount(sections: seq<Section>)
    ensures |Classes(sections)| == LinesBefore(sections, |sections|)
    decreases |sections|
  {
    if sections != [] {
      var n := |sections| - 1;
      ClassesCount(sections[..n]);
      LinesBeforePrefix(sections, n, n);
    }
  }

  /** ... in order: line `li` of section `si` is the class numbered by the lines before
      its section plus `li`, and holds that line's tokens. */
  lemma {:induction false} ClassOfLine(sections: seq<Section>, si: nat, li: nat)
    requires si < |sections| && li < |sections[si].lines|
    ensures LinesBefore(sections, si) + li < |Classes(sections)|
    ensures Classes(sections)[LinesBefore(sections, si) + li] == EqClass(LineTokens(sections[si].lines[li]), si, li)
    decreases |sections|
  {
    var n := |sections| - 1;
    var front := sections[..n];
    ClassesCount(front);
    LinesBeforePrefix(sections, n, n);
    if si < n {
      assert front[si] == sections[si];
      ClassOfLine(front, si, li);
      LinesBeforePrefix(sections, n, si);
    }
  }

  lemma {:induction false} LinesBeforePrefix(sections: seq<Section>, n: nat, m: nat)
    requires m <= n <= |sections|
    ensures LinesBefore(sections[..n], m) == LinesBefore(sections, m)
    decreases m
  {
    if m > 0 {
      LinesBeforePrefix(sections, n, m - 1);
    }
  }

  // ---------------------------------------------------------------------------
  // The token index

  /** `tokens.forEach(t => TOKEN_TO_INDEX.set(t, idx))` on the map `m`. */
  function AddTokens(m: map<string, int>, ts: seq<string>, idx: int): map<string, int>
    decreases |ts|
  {
    if ts == [] then m else AddTokens(m, ts[..|ts| - 1], idx)[ts[|ts| - 1] := idx]
  }

  /** `TOKEN_TO_INDEX` after the classes `cs` were added in order: a later class
      overwrites an earlier one's entry. */
  function IndexOf(cs: seq<EqClass>): map<string, int>
    decreases |cs|
  {
    if cs == [] then map[] else AddTokens(IndexOf(cs[..|cs| - 1]), cs[|cs| - 1].tokens, |cs| - 1)
  }

  /** Adding a line's tokens maps each of them to the class and leaves other keys. */
  lemma {:induction false} AddTokensSpec(m: map<string, int>, ts: seq<string>, idx: int)
    ensures forall t :: t in AddTokens(m, ts, idx) <==> t in m || t in ts
    ensures forall t :: t in ts ==> AddTokens(m, ts, idx)[t] == idx
    ensures forall t :: t in m && t !in ts ==> AddTokens(m, ts, idx)[t] == m[t]
    decreases |ts|
  {
    if ts != [] {
      var front := ts[..|ts| - 1];
      AddTokensSpec(m, front, idx);
      assert ts == front + [ts[|ts| - 1]];
    }
  }

  /** The index knows exactly the tokens of the classes, and maps each to the last
      class that lists it. */
  lemma {:induction false} IndexOfSpec(cs: seq<EqClass>)
    ensures forall t :: t in IndexOf(cs) <==> exists i :: 0 <= i < |cs| && t in cs[i].tokens
    ensures forall t :: t in IndexOf(cs) ==>
      0 <= IndexOf(cs)[t] < |cs| && t in cs[IndexOf(cs)[t]].tokens &&
      forall j :: IndexOf(cs)[t] < j < |cs| ==> t !in cs[j].tokens
    decreases |cs|
  {
    if cs != [] {
      var n := |cs| - 1;
      var front := cs[..n];
      IndexOfSpec(front);
      AddTokensSpec(IndexOf(front), cs[n].tokens, n);
      forall t | t in IndexOf(cs)
        ensures 0 <= IndexOf(cs)[t] < |cs| && t in cs[IndexOf(cs)[t]].tokens
        ensures forall j :: IndexOf(cs)[t] < j < |cs| ==> t !in cs[j].tokens
      {
        if t !in cs[n].tokens {
          assert front[IndexOf(front)[t]] == cs[IndexOf(front)[t]];
          forall j | IndexOf(cs)[t] < j < |cs| ensures t !in cs[j].tokens {
            if j < n {
              assert front[j] == cs[j];
            }
          }
        }
      }
      forall t | exists i :: 0 <= i < |cs| && t in cs[i].tokens
        ensures t in IndexOf(cs)
      {
        var i :| 0 <= i < |cs| && t in cs[i].tokens;
        if i < n {
          assert front[i] == cs[i];
        }
      }
    }
  }

  /** No token is listed by two classes. */
  predicate Disjoint(cs: seq<EqClass>) {
    forall i, j, t :: 0 <= i < |cs| && 0 <= j < |cs| && t in cs[i].tokens && t in cs[j].tokens ==> i == j
  }

  /** With disjoint classes the index maps a token to `i` exactly when class `i` lists it. */
  lemma IndexOfDisjoint(cs: seq<EqClass>, t: string, i: int)
    requires Disjoint(cs) && 0 <= i < |cs|
    ensures t in IndexOf(cs) && IndexOf(cs)[t] == i <==> t in cs[i].tokens
  {
    IndexOfSpec(cs);
  }

  /** Looking a token up in the index of disjoint classes: `-1` exactly when no class
      lists it, `i` exactly when class `i` does. */
  lemma IndexLookup(cs: seq<EqClass>, t: string)
    requires Disjoint(cs)
    ensures (if t in IndexOf(cs) then IndexOf(cs)[t] else -1) == -1 <==> forall i :: 0 <= i < |cs| ==> t !in cs[i].tokens
    ensures forall i :: 0 <= i < |cs| ==> ((if t in IndexOf(cs) then IndexOf(cs)[t] else -1) == i <==> t in cs[i].tokens)
  {
    IndexOfSpec(cs);
    forall i | 0 <= i < |cs| ensures (if t in IndexOf(cs) then IndexOf(cs)[t] else -1) == i <==> t in cs[i].tokens {
      IndexOfDisjoint(cs, t, i);
    }
  }

  // ---------------------------------------------------------------------------
  // Building the catalog

  lemma ClassesSnoc(sections: seq<Section>, si: nat)
    requires si < |sections|
    ensures Classes(sections[..si + 1]) == Classes(sections[..si]) + SectionClasses(si, sections[si].lines)
  {
    assert sections[..si + 1][..si] == sections[..si];
  }

  lemma SectionClassesSnoc(si: nat, lines: seq<string>, li: nat)
    requires li < |lines|
    ensures SectionClasses(si, lines[..li + 1]) == SectionClasses(si, lines[..li]) + [EqClass(LineTokens(lines[li]), si, li)]
  {
  }

  lemma IndexOfSnoc(cs: seq<EqClass>, c: EqClass)
    ensures IndexOf(cs + [c]) == AddTokens(IndexOf(cs), c.tokens, |cs|)
  {
    assert (cs + [c])[..|cs|] == cs;
  }

  lemma AddTokensSnoc(m: map<string, int>, ts: seq<string>, k: nat, idx: int)
    requires k < |ts|
    ensures AddTokens(m, ts[..k + 1], idx) == AddTokens(m, ts[..k], idx)[ts[k] := idx]
  {
    assert ts[..k + 1][..k] == ts[..k];
  }

  /** `tokens.forEach(t => TOKEN_TO_INDEX.set(t, idx))`. */
  method IndexTokens(index: map<string, int>, tokens: seq<string>, idx: int) returns (index': map<string, int>)
    ensures index' == AddTokens(index, tokens, idx)
  {
    index' := index;
    var k := 0;
    while k < |tokens|
      invariant 0 <= k <= |tokens|
      invariant index' == AddTokens(index, tokens[..k], idx)
    {
      AddTokensSnoc(index, tokens, k, idx);
      index' := index'[tokens[k] := idx];
      k := k + 1;
    }
    assert tokens[..k] == tokens;
  }

  /** `sec.lines.forEach(...)`: push one class per line of section `si` and index it. */
  method AddSection(classes: seq<EqClass>, index: map<string, int>, si: nat, lines: seq<string>)
    returns (classes': seq<EqClass>, index': map<string, int>)
    requires index == IndexOf(classes)
    ensures classes' == classes + SectionClasses(si, lines)
    ensures index' == IndexOf(classes')
  {
    classes', index' := classes, index;
    var li := 0;
    while li < |lines|
      invariant 0 <= li <= |lines|
      invariant classes' == classes + SectionClasses(si, lines[..li])
      invariant index' == IndexOf(classes')
    {
      var tokens := LineTokens(lines[li]);
      IndexOfSnoc(classes', EqClass(tokens, si, li));
      SectionClassesSnoc(si, lines, li);
      index' := IndexTokens(index', tokens, |classes'|);
      classes' := classes' + [EqClass(tokens, si, li)];
      li := li + 1;
    }
    assert lines[..li] == lines;
  }

  /** The module-load loop: for every section and every line, push the class and
      point each of its tokens at it. */
  method BuildCatalog(sections: seq<Section>) returns (classes: seq<EqClass>, index: map<string, int>)
    ensures classes == Classes(sections)
    ensures index == IndexOf(classes)
  {
    classes, index := [], map[];
    var si := 0;
    while si < |sections|
      invariant 0 <= si <= |sections|
      invariant classes == Classes(sections[..si])
      invariant index == IndexOf(classes)
    {
      ClassesSnoc(sections, si);
      classes, index := AddSection(classes, index, si, sections[si].lines);
      si := si + 1;
    }
    assert sections[..si] == sections;
  }

  /** The loop that sums the lines of section 0: the first class of section 1. */
  method ComputeBaseStart(sections: seq<Section>) returns (acc: nat)
    requires |sections| >= 2 && |sections[1].lines| >= 1
    ensures acc == LinesBefore(sections, 1)
    ensures acc < |Classes(sections)| && Classes(sections)[acc].sectionIndex == 1 && Classes(sections)[acc].lineIndex == 0
  {
    acc := 0;
    var i := 0;
    while i < 1
      invariant 0 <= i <= 1 && acc == LinesBefore(sections, i)
    {
      acc := acc + |sections[i].lines|;
      i := i + 1;
    }
    ClassOfLine(sections, 1, 0);
  }

  /** The loop that sums the lines of sections 0 to 5, less one: the last class of
      section 5. */
  method ComputeBaseEnd(sections: seq<Section>) returns (last: int)
    requires |sections| >= 6 && |sections[5].lines| >= 1
    ensures last == LinesBefore(sections, 6) - 1
    ensures 0 <= last < |Classes(sections)|
    ensures Classes(sections)[last].sectionIndex == 5 && Classes(sections)[last].lineIndex == |sections[5].lines| - 1
    ensures |sections| == 6 ==> last == |Classes(sections)| - 1
  {
    var acc := 0;
    var i := 0;
    while i <= 5
      invariant 0 <= i <= 6 && acc == LinesBefore(sections, i)
    {
      acc := acc + |sections[i].lines|;
      i := i + 1;
    }
    last := acc - 1;
    ClassOfLine(sections, 5, |sections[5].lines| - 1);
    if |sections| == 6 {
      ClassesCount(sections);
      assert LinesBefore(sections, |sections|) == LinesBefore(sections, 6);
    }
  }
}
