/** The metronome page: the accent pattern of a bar, its resizing when the number
    of beats changes, the clicks that cycle a beat's accent and the transport that
    steps through the bar one beat per tick. */
module MetronomePage {

  /** A beat's accent. */
  datatype Strength = Strong | Secondary | Weak

  /** `strengthCycle`: one click turns a strong beat weak, a weak beat secondary and
      a secondary beat strong. */
  function StrengthCycle(s: Strength): (r: Strength)
    ensures r != s
  {
    match s
    case Strong => Weak
    case Secondary => Strong
    case Weak => Secondary
  }

  /** Three clicks bring a beat back to its accent, and no fewer do. */
  lemma StrengthCycleOrder(s: Strength)
    ensures StrengthCycle(StrengthCycle(StrengthCycle(s))) == s
    ensures StrengthCycle(StrengthCycle(s)) != s
  {
  }

  /** What a tick plays for an accent: the note and its velocity. */
  datatype Voice = Voice(note: string, velocity: real)

  function VoiceOf(s: Strength): Voice {
    match s
    case Strong => Voice("A6", 1.0)
    case Secondary => Voice("E6", 0.8)
    case Weak => Voice("C6", 0.5)
  }

  /** The stronger the accent, the louder and the higher its click. */
  lemma VoicesOrdered()
    ensures VoiceOf(Strong).velocity > VoiceOf(Secondary).velocity > VoiceOf(Weak).velocity > 0.0
    ensures forall s, t :: s != t ==> VoiceOf(s).note != VoiceOf(t).note
  {
  }

  /** The pattern of `n` beats kept from `p`: its beats where it has them, weak
      beats past its end, and a strong first beat. */
  function Fit(p: seq<Strength>, n: nat): (r: seq<Strength>) {
    seq(n, i requires 0 <= i < n => if i == 0 then Strong else if i < |p| then p[i] else Weak)
  }

  /** The initial pattern: a strong beat followed by weak ones. */
  function InitialPattern(n: nat): seq<Strength> {
    seq(n, i requires 0 <= i < n => if i == 0 then Strong else Weak)
  }

  /** The initial pattern is what resizing an empty pattern gives. */
  lemma InitialPatternIsFit(n: nat)
    ensures InitialPattern(n) == Fit([], n)
    ensures n > 0 ==> InitialPattern(n)[0] == Strong
    ensures forall i :: 0 < i < n ==> InitialPattern(n)[i] == Weak
  {
  }

  /** Resizing to the length a pattern already has, when its first beat is strong,
      changes nothing; resizing twice to the same length is resizing once. */
  lemma FitIdempotent(p: seq<Strength>, n: nat)
    ensures |p| > 0 && p[0] == Strong ==> Fit(p, |p|) == p
    ensures Fit(Fit(p, n), n) == Fit(p, n)
  {
  }

  /** Shrinking and growing back keeps the beats that survive the shrink and makes
      the rest weak. */
  lemma FitShrinkGrow(p: seq<Strength>, m: nat, n: nat)
    requires m <= n
    ensures forall i :: 0 < i < n ==> Fit(Fit(p, m), n)[i] == (if i < m && i < |p| then p[i] else Weak)
  {
  }

  class MetronomePage {
    /** The accent of each beat of the bar (`pattern`, and `patternRef`). */
    var pattern: seq<Strength>
    var isPlaying: bool
    /** The beat shown as playing, -1 when none. */
    var activeIndex: int
    /** The beat the next tick plays (`indexRef`). */
    var index: int
    /** The number of beats in the bar (`beatsRef`). */
    var beats: int

    ghost predicate Valid()
      reads this
    {
      && 2 <= beats <= 8
      && |pattern| == beats
      && 0 <= index < beats
      && -1 <= activeIndex < 8
      && (!isPlaying ==> index == 0 && activeIndex == -1)
    }

    constructor(initialBeats: int)
      requires 2 <= initialBeats <= 8
      ensures Valid()
      ensures pattern == InitialPattern(initialBeats) && beats == initialBeats
      ensures !isPlaying
    {
      pattern := InitialPattern(initialBeats);
      isPlaying := false;
      activeIndex := -1;
      index := 0;
      beats := initialBeats;
    }

    /** The effects that run when the store's beat count changes: the pattern grows
        with weak beats or is cut to the new length, its first beat made strong, and
        a running transport keeps its next beat within the bar. */
    method BeatsChanged(n: int)
      requires Valid() && 2 <= n <= 8
      modifies this
      ensures Valid()
      ensures pattern == Fit(old(pattern), n) && beats == n
      ensures index == (if isPlaying then old(index) % n else 0)
      ensures isPlaying == old(isPlaying) && activeIndex == old(activeIndex)
    {
      var next := pattern;
      if n > |next| {
        while |next| < n
          invariant |pattern| <= |next| <= n
          invariant next[..|pattern|] == pattern
          invariant forall i :: |pattern| <= i < |next| ==> next[i] == Weak
          decreases n - |next|
        {
          next := next + [Weak];
        }
      } else if n < |next| {
        next := next[..n];
      }
      if next[0] != Strong {
        next := next[0 := Strong];
      }
      assert forall i :: 0 <= i < n ==> next[i] == Fit(pattern, n)[i];
      pattern := next;
      beats := n;
      if isPlaying {
        index := index % n;
      }
    }

    /** `handleBeatClick(idx)`: the clicked beat's accent moves one step round the
        cycle, every other beat is kept. */
    method HandleBeatClick(idx: int)
      requires Valid() && 0 <= idx < |pattern|
      modifies this
      ensures Valid()
      ensures pattern == old(pattern)[idx := StrengthCycle(old(pattern)[idx])]
      ensures index == old(index) && beats == old(beats) && isPlaying == old(isPlaying)
      ensures activeIndex == old(activeIndex)
    {
      pattern := pattern[idx := StrengthCycle(pattern[idx])];
    }

    /** `startTransport`: playing from the first beat, none shown yet. */
    method Start()
      requires Valid()
      modifies this
      ensures Valid()
      ensures isPlaying && index == 0 && activeIndex == -1
      ensures pattern == old(pattern) && beats == old(beats)
    {
      index := 0;
      activeIndex := -1;
      isPlaying := true;
    }

    /** One scheduled tick: the current beat's accent is played and shown, and the
        next tick moves to the following beat, wrapping at the end of the bar. */
    method Tick() returns (v: Voice)
      requires Valid() && isPlaying
      modifies this
      ensures Valid()
      ensures v == VoiceOf(old(pattern)[old(index)])
      ensures activeIndex == old(index)
      ensures index == (if old(index) + 1 == beats then 0 else old(index) + 1)
      ensures pattern == old(pattern) && beats == old(beats) && isPlaying
    {
      var i := index;
      var strength := if i < |pattern| then pattern[i] else Weak;
      v := VoiceOf(strength);
      activeIndex := i;
      index := (i + 1) % beats;
    }

    /** `stopTransport`: nothing plays, nothing is shown, the next start is from
        the first beat. */
    method Stop()
      requires Valid()
      modifies this
      ensures Valid()
      ensures !isPlaying && index == 0 && activeIndex == -1
      ensures pattern == old(pattern) && beats == old(beats)
    {
      isPlaying := false;
      activeIndex := -1;
      index := 0;
    }
  }
}
