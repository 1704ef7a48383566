/** The keyboard helpers of the piano engine: the octave groups a keyboard can
    show, the white keys of one octave with their MIDI numbers and labels, and the
    black keys between them. */
module PianoEngine {
  import opened Decimal

  /** An octave group: its key, its display label and the MIDI number of its C. */
  datatype OctaveOption = OctaveOption(key: string, name: string, baseMidi: int)

  const OctaveOptions: seq<OctaveOption> := [
    OctaveOption("great", "大字组 (C2-B2)", 36),
    OctaveOption("small", "小字组 (C3-B3)", 48),
    OctaveOption("one", "小字一组 (C4-B4)", 60),
    OctaveOption("two", "小字二组 (C5-B5)", 72),
    OctaveOption("three", "小字三组 (C6-B6)", 84)]

  const WhiteNotes: seq<string> := ["C", "D", "E", "F", "G", "A", "B"]

  /** Semitones above C of the seven white keys. */
  const WhiteSemis: seq<int> := [0, 2, 4, 5, 7, 9, 11]

  /** `BLACK_MAP`: the black key just below white key `i`, by its name. */
  const BlackMap: map<int, string> := map[1 := "C#", 2 := "D#", 4 := "F#", 5 := "G#", 6 := "A#"]

  /** `whiteIndexToMidi(baseMidi, whiteIndex)` for a white index 0..6. */
  function WhiteIndexToMidi(baseMidi: int, whiteIndex: nat): int
    requires whiteIndex < 7
  {
    baseMidi + WhiteSemis[whiteIndex]
  }

  /** The white keys lie within the octave above the base, in strictly rising
      order, C on the base itself and B eleven semitones above it. */
  lemma WhiteKeysRise(baseMidi: int)
    ensures forall i :: 0 <= i < 7 ==> baseMidi <= WhiteIndexToMidi(baseMidi, i) <= baseMidi + 11
    ensures forall i, j :: 0 <= i < j < 7 ==> WhiteIndexToMidi(baseMidi, i) < WhiteIndexToMidi(baseMidi, j)
    ensures WhiteIndexToMidi(baseMidi, 0) == baseMidi && WhiteIndexToMidi(baseMidi, 6) == baseMidi + 11
  {
  }

  /** The MIDI octave number of a base: C4 is MIDI 60. `Math.floor(b / 12 - 1)`
      is `b / 12 - 1` with flooring division. */
  function OctaveNumber(baseMidi: int): (o: int)
    ensures 12 * (o + 1) <= baseMidi < 12 * (o + 2)
  {
    baseMidi / 12 - 1
  }

  /** `labelForWhite(baseMidi, whiteIndex)`: the note name and the octave number. */
  function LabelForWhite(baseMidi: int, whiteIndex: nat): string
    requires whiteIndex < 7
  {
    WhiteNotes[whiteIndex] + IntToString(OctaveNumber(baseMidi))
  }

  /** A label is the white key's letter followed by the octave's number; the
      letter tells the key apart, the number the octave. */
  lemma LabelForWhiteSpec(baseMidi: int, whiteIndex: nat)
    requires whiteIndex < 7
    ensures var s := LabelForWhite(baseMidi, whiteIndex);
      && |s| >= 2 && s[0] == "CDEFGAB"[whiteIndex]
      && s[1..] == IntToString(OctaveNumber(baseMidi))
      && (baseMidi >= 12 ==> IsDigits(s[1..]) && DigitsValue(s[1..]) == baseMidi / 12 - 1)
  {
    var s := LabelForWhite(baseMidi, whiteIndex);
    assert s[1..] == IntToString(OctaveNumber(baseMidi));
    if baseMidi >= 12 {
      NatToStringRoundTrip(baseMidi / 12 - 1);
    }
  }

  /** The groups are consecutive octaves from C2 to C6 with distinct keys. */
  lemma OctaveOptionsSpec()
    ensures |OctaveOptions| == 5
    ensures forall i :: 0 <= i < 5 ==> OctaveOptions[i].baseMidi == 36 + 12 * i
    ensures forall i :: 0 <= i < 5 ==> OctaveNumber(OctaveOptions[i].baseMidi) == i + 2
    ensures forall i, j :: 0 <= i < j < 5 ==> OctaveOptions[i].key != OctaveOptions[j].key
  {
  }

  /** Each group's label ends with the range its keyboard shows, from the label of
      its C to the label of its B. */
  lemma OctaveLabelsMatchKeys(i: nat)
    requires i < 5
    ensures var o := OctaveOptions[i];
      var range := "(" + LabelForWhite(o.baseMidi, 0) + "-" + LabelForWhite(o.baseMidi, 6) + ")";
      |o.name| >= |range| && o.name[|o.name| - |range|..] == range
  {
    var o := OctaveOptions[i];
    var d := DigitChar(i + 2);
    assert IntToString(OctaveNumber(o.baseMidi)) == [d];
    var range := "(" + LabelForWhite(o.baseMidi, 0) + "-" + LabelForWhite(o.baseMidi, 6) + ")";
    assert range == ['(', 'C', d, '-', 'B', d, ')'];
  }

  /** The black keys: each sits one semitone below its white key and is named by
      the white key before it with a sharp; with the white keys they give each of
      the twelve pitch classes exactly once. */
  lemma BlackKeysSpec()
    ensures BlackMap.Keys == {1, 2, 4, 5, 6}
    ensures forall i :: i in BlackMap ==> 1 <= i < 7 && BlackMap[i] == WhiteNotes[i - 1] + "#"
    ensures forall i :: i in BlackMap ==> WhiteSemis[i] - 1 == WhiteSemis[i - 1] + 1
    ensures forall p :: 0 <= p < 12 ==>
      (p in WhiteSemis) != (exists i :: i in BlackMap && WhiteSemis[i] - 1 == p)
  {
    forall p | 0 <= p < 12
      ensures (p in WhiteSemis) != (exists i :: i in BlackMap && WhiteSemis[i] - 1 == p)
    {
      if p == 1 || p == 3 || p == 6 || p == 8 || p == 10 {
        var i := if p == 1 then 1 else if p == 3 then 2 else if p == 6 then 4 else if p == 8 then 5 else 6;
        assert i in BlackMap && WhiteSemis[i] - 1 == p;
      }
    }
  }
}
