/** The metronome store: beats per minute and beats per bar, each clamped to its
    range, with a persisted starting value. Writing the preference back is not
    modelled; the preference read is the parameter of the constructor. */
module MetronomeStore {
  import opened Wrappers
  import opened JsNumber

  const MinBpm: real := 20.0
  const MaxBpm: real := 240.0
  const DefaultBpm: real := 89.0
  const MinBeats: real := 2.0
  const MaxBeats: real := 8.0
  const DefaultBeats: real := 4.0

  /** `clamp(Number(v) || fallback, lo, hi)`: a falsy number (NaN or zero) falls
      back, and the result is clamped into `[lo, hi]`. */
  function Settle(v: Num, fallback: real, lo: real, hi: real): (r: real)
    requires lo <= fallback <= hi
  {
    var c := Clamp(Or(v, Finite(fallback)), lo, hi);
    ClampSpec(Or(v, Finite(fallback)), lo, hi);
    c.value
  }

  /** Settling always lands in range; a truthy in-range value is kept, a falsy one
      is replaced by the fallback, and values beyond a bound (infinities included)
      stop at that bound. */
  lemma SettleSpec(v: Num, fallback: real, lo: real, hi: real)
    requires 0.0 < lo <= fallback <= hi
    ensures lo <= Settle(v, fallback, lo, hi) <= hi
    ensures !Truthy(v) ==> Settle(v, fallback, lo, hi) == fallback
    ensures v.Finite? && v.value != 0.0 && lo <= v.value <= hi ==> Settle(v, fallback, lo, hi) == v.value
    ensures (v == PosInf || (v.Finite? && v.value > hi)) ==> Settle(v, fallback, lo, hi) == hi
    ensures (v == NegInf || (v.Finite? && v.value != 0.0 && v.value < lo)) ==> Settle(v, fallback, lo, hi) == lo
  {
    ClampSpec(Or(v, Finite(fallback)), lo, hi);
  }

  /** Settling a settled value changes nothing, whatever the fallback, as long as the
      range does not contain zero. */
  lemma SettleIdempotent(v: Num, fallback: real, fallback2: real, lo: real, hi: real)
    requires 0.0 < lo <= fallback <= hi && lo <= fallback2 <= hi
    ensures Settle(Finite(Settle(v, fallback, lo, hi)), fallback2, lo, hi) == Settle(v, fallback, lo, hi)
  {
    SettleSpec(v, fallback, lo, hi);
    SettleSpec(Finite(Settle(v, fallback, lo, hi)), fallback2, lo, hi);
  }

  /** The starting value read from a preference; a missing preference reads as the
      default. */
  function Initial(saved: Option<Num>, default: real, lo: real, hi: real): (r: real)
    requires lo <= default <= hi
  {
    Settle(saved.GetOr(Finite(default)), default, lo, hi)
  }

  /** With no preference the default is used; every starting value is in range. */
  lemma InitialSpec(saved: Option<Num>, default: real, lo: real, hi: real)
    requires 0.0 < lo <= default <= hi
    ensures saved.None? ==> Initial(saved, default, lo, hi) == default
    ensures lo <= Initial(saved, default, lo, hi) <= hi
  {
    SettleSpec(saved.GetOr(Finite(default)), default, lo, hi);
  }

  class MetronomeStore {
    /** The starting values, read once when the store is created. */
    const initialBpm: real
    const initialBeats: real
    var bpm: real
    var beats: real

    /** Both settings and both starting values lie in their ranges. */
    ghost predicate Valid()
      reads this
    {
      && MinBpm <= initialBpm <= MaxBpm && MinBpm <= bpm <= MaxBpm
      && MinBeats <= initialBeats <= MaxBeats && MinBeats <= beats <= MaxBeats
    }

    /** The store as created from the persisted `metronome.bpm` and
        `metronome.beats` (`None` when absent). */
    constructor (savedBpm: Option<Num>, savedBeats: Option<Num>)
      ensures Valid()
      ensures initialBpm == Initial(savedBpm, DefaultBpm, MinBpm, MaxBpm) && bpm == initialBpm
      ensures initialBeats == Initial(savedBeats, DefaultBeats, MinBeats, MaxBeats) && beats == initialBeats
    {
      InitialSpec(savedBpm, DefaultBpm, MinBpm, MaxBpm);
      InitialSpec(savedBeats, DefaultBeats, MinBeats, MaxBeats);
      initialBpm := Initial(savedBpm, DefaultBpm, MinBpm, MaxBpm);
      initialBeats := Initial(savedBeats, DefaultBeats, MinBeats, MaxBeats);
      bpm := Initial(savedBpm, DefaultBpm, MinBpm, MaxBpm);
      beats := Initial(savedBeats, DefaultBeats, MinBeats, MaxBeats);
    }

    /** `setBpm(v)`: `v` settled into 20..240, falling back to the starting tempo;
        the beat count is untouched. */
    method SetBpm(v: Num)
      requires Valid()
      modifies this
      ensures Valid()
      ensures bpm == Settle(v, initialBpm, MinBpm, MaxBpm) && beats == old(beats)
    {
      SettleSpec(v, initialBpm, MinBpm, MaxBpm);
      bpm := Settle(v, initialBpm, MinBpm, MaxBpm);
    }

    /** `setBeats(v)`: `v` settled into 2..8, falling back to the starting count; the
        tempo is untouched. */
    method SetBeats(v: Num)
      requires Valid()
      modifies this
      ensures Valid()
      ensures beats == Settle(v, initialBeats, MinBeats, MaxBeats) && bpm == old(bpm)
    {
      SettleSpec(v, initialBeats, MinBeats, MaxBeats);
      beats := Settle(v, initialBeats, MinBeats, MaxBeats);
    }
  }
}
