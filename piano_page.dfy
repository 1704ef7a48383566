/** The piano page: the three octave groups the keyboards show, the two-octave
    window of computer keys that play notes, its octave shifts, and the key
    labels drawn on the keys. */
module PianoPage {
  import opened Wrappers
  import opened Text
  import opened JsNumber
  import opened PianoEngine

  // ---------------------------------------------------------------------------
  // The octave groups

  /** The groups shown when none are saved, or the saved value is not three long. */
  const DefaultGroupKeys: seq<string> := ["small", "one", "two"]

  /** The initial groups: a saved array of three keys, else the default. `None`
      stands for a saved value that is not an array. */
  function InitialGroupKeys(saved: Option<seq<string>>): (g: seq<string>)
    ensures |g| == 3
    ensures saved.Some? && |saved.value| == 3 ==> g == saved.value
  {
    if saved.Some? && |saved.value| == 3 then saved.value else DefaultGroupKeys
  }

  /** A key one of the octave groups carries. */
  predicate IsGroupKey(k: string) {
    k == "great" || k == "small" || k == "one" || k == "two" || k == "three"
  }

  /** The group a key selects, the first group for a key that is none. */
  function OptionFor(k: string): OctaveOption {
    if k == "small" then OctaveOptions[1]
    else if k == "one" then OctaveOptions[2]
    else if k == "two" then OctaveOptions[3]
    else if k == "three" then OctaveOptions[4]
    else OctaveOptions[0]
  }

  /** `selectedOpts`: each saved key's group, a stale key falling back to the first. */
  function SelectedOpts(groupKeys: seq<string>): seq<OctaveOption> {
    seq(|groupKeys|, i requires 0 <= i < |groupKeys| => OptionFor(groupKeys[i]))
  }

  /** The keys of the groups are exactly the group keys. */
  lemma GroupKeysAreOptionKeys(k: string)
    ensures IsGroupKey(k) <==> exists j :: 0 <= j < |OctaveOptions| && OctaveOptions[j].key == k
  {
    if IsGroupKey(k) {
      var j := if k == "great" then 0 else if k == "small" then 1 else if k == "one" then 2
        else if k == "two" then 3 else 4;
      assert OctaveOptions[j].key == k;
    }
  }

  /** Every selected group is one of the options; it is the group the saved key
      names, or the first group when the key names none. */
  lemma SelectedOptsSpec(groupKeys: seq<string>)
    ensures |SelectedOpts(groupKeys)| == |groupKeys|
    ensures forall i :: 0 <= i < |groupKeys| ==> SelectedOpts(groupKeys)[i] in OctaveOptions
    ensures forall i :: 0 <= i < |groupKeys| ==>
      SelectedOpts(groupKeys)[i].key == (if IsGroupKey(groupKeys[i]) then groupKeys[i] else "great")
  {
  }

  // ---------------------------------------------------------------------------
  // The keyboard window

  /** The lowest base (C2) and the highest note (B6) of the window. */
  const MinBase: int := 36
  const MaxEnd: int := 83

  /** The two clamps applied to every new base, in their order. */
  function ClampBase(b: int): (r: int)
    ensures MinBase <= r && r + 23 <= MaxEnd
    ensures MinBase <= b && b + 23 <= MaxEnd ==> r == b
  {
    var lifted := if b < MinBase then MinBase else b;
    if lifted + 23 > MaxEnd then MaxEnd - 23 else lifted
  }

  /** The initial base: the saved number rounded down, 60 when it is not finite. */
  function InitialBase(saved: Num): (b: int)
    ensures MinBase <= b && b + 23 <= MaxEnd
  {
    ClampBase(if saved.Finite? then saved.value.Floor else 60)
  }

  /** The base after shifting by `delta` semitones. */
  function Shifted(base: int, delta: int): int {
    ClampBase(base + delta)
  }

  /** A saved base in range is kept; anything unreadable gives middle C. */
  lemma InitialBaseSpec(saved: Num)
    ensures saved.Finite? && MinBase as real <= saved.value && saved.value + 23.0 < (MaxEnd + 1) as real
      ==> InitialBase(saved) == saved.value.Floor
    ensures !saved.Finite? ==> InitialBase(saved) == 60
  {
  }

  /** From a base a whole number of octaves above C2 the shifts walk the three
      windows C2, C3 and C4; an octave down undoes an octave up that moved. */
  lemma ShiftsWalkOctaves(base: int)
    requires base == 36 || base == 48 || base == 60
    ensures Shifted(base, 12) == (if base == 60 then 60 else base + 12)
    ensures Shifted(base, -12) == (if base == 36 then 36 else base - 12)
    ensures Shifted(base, 12) != base ==> Shifted(Shifted(base, 12), -12) == base
    ensures Shifted(base, -12) != base ==> Shifted(Shifted(base, -12), 12) == base
  {
  }

  /** The computer keys of the lower and the upper octave, by semitone. */
  const RowLow: seq<char> := ['Z', 'S', 'X', 'D', 'C', 'V', 'G', 'B', 'H', 'N', 'J', 'M']
  const RowHigh: seq<char> := ['Q', '2', 'W', '3', 'E', 'R', '5', 'T', '6', 'Y', '7', 'U']

  /** `allBindingKeys`: the 24 keys by offset from the base. */
  function AllBindingKeys(): (ks: seq<char>)
    ensures |ks| == 24
    ensures forall i :: 0 <= i < 12 ==> ks[i] == RowLow[i] && ks[i + 12] == RowHigh[i]
  {
    RowLow + RowHigh
  }

  /** A key the `/^[A-Z0-9]$/` test accepts. */
  predicate IsKeyChar(c: char) {
    'A' <= c <= 'Z' || '0' <= c <= '9'
  }

  /** The 24 keys are distinct, and each passes the key test. */
  lemma BindingKeysDistinct()
    ensures forall i, j :: 0 <= i < j < 24 ==> AllBindingKeys()[i] != AllBindingKeys()[j]
    ensures forall i :: 0 <= i < 24 ==> IsKeyChar(AllBindingKeys()[i])
  {
    var ks := AllBindingKeys();
    assert ks == "ZSXDCVGBHNJMQ2W3ER5T6Y7U";
  }

  /** A map from each key to its offset from the base, and nothing else. */
  predicate IsKeyToOffset(m: map<char, int>) {
    && (forall c :: c in m <==> c in AllBindingKeys())
    && (forall i :: 0 <= i < 24 ==> m[AllBindingKeys()[i]] == i)
  }

  /** `keyToOffset`: the lower row's keys to 0..11, then the upper row's to 12..23. */
  method BuildKeyToOffset() returns (m: map<char, int>)
    ensures IsKeyToOffset(m)
  {
    BindingKeysDistinct();
    ghost var ks := AllBindingKeys();
    m := map[];
    var i := 0;
    while i < 12
      invariant 0 <= i <= 12
      invariant forall c :: c in m <==> c in ks[..i]
      invariant forall j :: 0 <= j < i ==> m[ks[j]] == j
    {
      assert ks[..i + 1] == ks[..i] + [RowLow[i]];
      m := m[RowLow[i] := i];
      i := i + 1;
    }
    i := 0;
    while i < 12
      invariant 0 <= i <= 12
      invariant forall c :: c in m <==> c in ks[..12 + i]
      invariant forall j :: 0 <= j < 12 + i ==> m[ks[j]] == j
    {
      assert ks[..12 + i + 1] == ks[..12 + i] + [RowHigh[i]];
      m := m[RowHigh[i] := i + 12];
      i := i + 1;
    }
    assert ks[..24] == ks;
  }

  /** A bound key's offset is the position of that key among the 24. */
  lemma OffsetIsPosition(m: map<char, int>, c: char)
    requires IsKeyToOffset(m) && c in m
    ensures 0 <= m[c] < 24 && AllBindingKeys()[m[c]] == c
  {
    var i :| 0 <= i < 24 && AllBindingKeys()[i] == c;
  }

  /** `getBindingLabel(midi)`: the key that plays `midi`, empty outside the window. */
  function GetBindingLabel(base: int, midi: int): string {
    var offset := midi - base;
    if offset < 0 || offset > 23 then "" else [AllBindingKeys()[offset]]
  }

  /** The label of a note in the window is the key whose offset reaches it, and a
      labelled note is in the window. */
  lemma BindingLabelRoundTrip(m: map<char, int>, base: int, midi: int)
    requires IsKeyToOffset(m)
    ensures GetBindingLabel(base, midi) != "" <==> base <= midi <= base + 23
    ensures GetBindingLabel(base, midi) != "" ==>
      var c := GetBindingLabel(base, midi)[0];
      c in m && base + m[c] == midi
  {
  }

  /** The name the key handlers give a key: one character upper-cased, a longer
      key name as it is. */
  function KeyName(raw: string): (k: string)
    ensures |k| == |raw|
  {
    if |raw| == 1 then [UpperAscii(raw[0])] else raw
  }

  predicate IsShiftDown(raw: string) {
    raw == "-" || raw == "NumpadSubtract" || raw == "_"
  }

  predicate IsShiftUp(raw: string) {
    raw == "+" || raw == "=" || raw == "NumpadAdd"
  }

  /** A key that plays a note: one character bound to an offset. */
  predicate IsBound(m: map<char, int>, k: string) {
    |k| == 1 && k[0] in m
  }

  class PianoPage {
    var groupKeys: seq<string>
    /** The MIDI note of the window's lowest key. */
    var keyboardBaseMidi: int
    /** The keys held down since the window was last moved. */
    var pressed: set<string>
    const keyToOffset: map<char, int>

    ghost predicate Valid()
      reads this
    {
      && |groupKeys| == 3
      && MinBase <= keyboardBaseMidi && keyboardBaseMidi + 23 <= MaxEnd
      && IsKeyToOffset(keyToOffset)
      && (forall k :: k in pressed ==> IsBound(keyToOffset, k))
    }

    constructor(savedGroups: Option<seq<string>>, savedBase: Num)
      ensures Valid()
      ensures groupKeys == InitialGroupKeys(savedGroups)
      ensures keyboardBaseMidi == InitialBase(savedBase) && pressed == {}
    {
      groupKeys := InitialGroupKeys(savedGroups);
      keyboardBaseMidi := InitialBase(savedBase);
      pressed := {};
      var m := BuildKeyToOffset();
      keyToOffset := m;
    }

    /** `handleChangeGroup(index, newKey)`: the keyboard at `index` shows the group
        `newKey`; an index off the three keyboards changes nothing. */
    method HandleChangeGroup(index: int, newKey: string)
      requires Valid()
      modifies this
      ensures Valid()
      ensures groupKeys == if 0 <= index < 3 then old(groupKeys)[index := newKey] else old(groupKeys)
      ensures keyboardBaseMidi == old(keyboardBaseMidi) && pressed == old(pressed)
    {
      groupKeys := seq(|groupKeys|, i requires 0 <= i < |groupKeys| reads this =>
        if i == index then newKey else groupKeys[i]);
    }

    /** Moves the window to `next`; a move makes the page listen afresh, with no
        key held. */
    method MoveTo(next: int)
      requires Valid() && MinBase <= next && next + 23 <= MaxEnd
      modifies this
      ensures Valid()
      ensures keyboardBaseMidi == next
      ensures pressed == if next == old(keyboardBaseMidi) then old(pressed) else {}
      ensures groupKeys == old(groupKeys)
    {
      if next != keyboardBaseMidi {
        keyboardBaseMidi := next;
        pressed := {};
      }
    }

    /** `onKeyDown`: the shift keys move the window an octave; a bound key not yet
        held is held and plays the note at its offset from the base. */
    method OnKeyDown(raw: string) returns (played: Option<int>)
      requires Valid()
      modifies this
      ensures Valid() && groupKeys == old(groupKeys)
      ensures IsShiftDown(raw) ==> played.None? && keyboardBaseMidi == Shifted(old(keyboardBaseMidi), -12)
      ensures !IsShiftDown(raw) && IsShiftUp(raw) ==>
        played.None? && keyboardBaseMidi == Shifted(old(keyboardBaseMidi), 12)
      ensures IsShiftDown(raw) || IsShiftUp(raw) ==>
        pressed == if keyboardBaseMidi == old(keyboardBaseMidi) then old(pressed) else {}
      ensures !IsShiftDown(raw) && !IsShiftUp(raw) ==>
        var k := KeyName(raw);
        && keyboardBaseMidi == old(keyboardBaseMidi)
        && (if IsBound(keyToOffset, k) && k !in old(pressed)
            then pressed == old(pressed) + {k} && played.Some?
            else pressed == old(pressed) && played.None?)
      ensures played.Some? ==>
        && MinBase <= played.value <= MaxEnd
        && GetBindingLabel(keyboardBaseMidi, played.value) == KeyName(raw)
    {
      played := None;
      var k := KeyName(raw);
      if IsShiftDown(raw) {
        MoveTo(Shifted(keyboardBaseMidi, -12));
        return;
      }
      if IsShiftUp(raw) {
        MoveTo(Shifted(keyboardBaseMidi, 12));
        return;
      }
      if !(|k| == 1 && IsKeyChar(k[0])) {
        BindingKeysDistinct();
        return;
      }
      if k in pressed {
        return;
      }
      if k[0] !in keyToOffset {
        return;
      }
      pressed := pressed + {k};
      OffsetIsPosition(keyToOffset, k[0]);
      var midi := keyboardBaseMidi + keyToOffset[k[0]];
      if MinBase <= midi <= MaxEnd {
        played := Some(midi);
      }
    }

    /** `onKeyUp`: the key is no longer held. */
    method OnKeyUp(raw: string)
      requires Valid()
      modifies this
      ensures Valid()
      ensures pressed == old(pressed) - {KeyName(raw)}
      ensures keyboardBaseMidi == old(keyboardBaseMidi) && groupKeys == old(groupKeys)
    {
      pressed := pressed - {KeyName(raw)};
    }
  }
}
