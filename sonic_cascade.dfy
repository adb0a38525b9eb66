/** The spectral cascade: a fixed-length window of bands. Every animation
    tick eases each band towards a velocity-derived level, appends a fresh
    band, drops the oldest and renumbers the ids by position. */
module SonicCascade {
  import opened Numeric

  datatype Band = Band(id: int, value: real, ripple: real)

  const BandCount: nat := 28

  /** Ids are positions, values lie in [0, 2] and ripples in [-1, 1]. */
  predicate WellFormed(bands: seq<Band>)
  {
    forall i :: 0 <= i < |bands| ==>
      bands[i].id == i && 0.0 <= bands[i].value <= 2.0 && -1.0 <= bands[i].ripple <= 1.0
  }

  /** The band list the component starts from: 28 silent bands. */
  function InitialBands(): (r: seq<Band>)
    ensures |r| == BandCount && WellFormed(r)
    ensures forall i :: 0 <= i < |r| ==> r[i].value == 0.0 && r[i].ripple == 0.0
  {
    seq(BandCount, i => Band(i, 0.0, 0.0))
  }

  /** The per-tick drive read from the cursor snapshot and the settings. */
  datatype Drive = Drive(base: real, ripple: real, inertia: real)

  predicate ValidDrive(d: Drive)
  {
    0.0 <= d.base <= 1.85 && -1.0 <= d.ripple <= 1.0 && 0.0 <= d.inertia <= 0.95
  }

  /** `base`, `ripple` and `inertia` of a tick, each clamped to its range. */
  function TickDrive(speed: real, oscillation: real, oscillationDepth: real, inertiaIntensity: real): (d: Drive)
    ensures ValidDrive(d)
    ensures var base := speed * 380.0 + Abs(oscillation) * 240.0;
            (0.0 <= base <= 1.85 ==> d.base == base) && (base <= 0.0 ==> d.base == 0.0) && (base >= 1.85 ==> d.base == 1.85)
    ensures var ripple := oscillationDepth * 1.2 + oscillation * 0.8;
            (-1.0 <= ripple <= 1.0 ==> d.ripple == ripple) && (ripple <= -1.0 ==> d.ripple == -1.0) && (ripple >= 1.0 ==> d.ripple == 1.0)
    ensures (0.0 <= inertiaIntensity <= 0.95 ==> d.inertia == inertiaIntensity) &&
            (inertiaIntensity <= 0.0 ==> d.inertia == 0.0) && (inertiaIntensity >= 0.95 ==> d.inertia == 0.95)
  {
    Drive(Clamp(speed * 380.0 + Abs(oscillation) * 240.0, 0.0, 1.85),
          Clamp(oscillationDepth * 1.2 + oscillation * 0.8, -1.0, 1.0),
          Clamp(inertiaIntensity, 0.0, 0.95))
  }

  /** The eased band at position `index` of the previous list: the old value
      blended with the drive's base, weakened towards the end of the list, by
      the inertia; the old ripple decayed by 0.82 plus half the drive's ripple;
      each clamped to its range. */
  function Eased(band: Band, index: int, d: Drive): (r: Band)
    ensures r.id == band.id
    ensures 0.0 <= r.value <= 2.0 && -1.0 <= r.ripple <= 1.0
    ensures var v := EasedValue(band.value, index, d);
            (0.0 <= v <= 2.0 ==> r.value == v) && (v <= 0.0 ==> r.value == 0.0) && (v >= 2.0 ==> r.value == 2.0)
    ensures var w := band.ripple * 0.82 + d.ripple * 0.5;
            (-1.0 <= w <= 1.0 ==> r.ripple == w) && (w <= -1.0 ==> r.ripple == -1.0) && (w >= 1.0 ==> r.ripple == 1.0)
  {
    var rippleValue := band.ripple * 0.82 + d.ripple * 0.5;
    Band(band.id, Clamp(EasedValue(band.value, index, d), 0.0, 2.0), Clamp(rippleValue, -1.0, 1.0))
  }

  /** The unclamped new value of the band at `index`: the old value weighted
      by `0.68 + 0.25 * inertia` plus the base, scaled down linearly along the
      list, weighted by `0.32 - 0.2 * inertia`. */
  function EasedValue(value: real, index: int, d: Drive): real
  {
    var falloff := 1.0 - index as real / BandCount as real;
    var eased := d.base * falloff;
    value * (0.68 + d.inertia * 0.25) + eased * (0.32 - d.inertia * 0.2)
  }

  /** The band pushed at the end of a tick, before renumbering. */
  function Fresh(id: int, d: Drive): (r: Band)
    ensures 0.0 <= r.value <= 2.0 && -1.0 <= r.ripple <= 1.0
    ensures ValidDrive(d) ==> r.value == d.base * 0.9 && r.ripple == d.ripple
  {
    Band(id, Clamp(d.base * 0.9, 0.0, 2.0), Clamp(d.ripple, -1.0, 1.0))
  }

  /** The `setBands` updater: map, push, shift, renumber. The window keeps its
      length; band `i` is the eased old band `i + 1`, the last one is fresh,
      and ids are positions again. */
  function Tick(prev: seq<Band>, d: Drive): (next: seq<Band>)
    ensures |next| == |prev|
    ensures WellFormed(next)
    ensures forall i :: 0 <= i < |next| - 1 ==> next[i] == Eased(prev[i + 1], i + 1, d).(id := i)
    ensures |prev| > 0 ==> next[|next| - 1] == Fresh(|prev|, d).(id := |prev| - 1)
  {
    var mapped := seq(|prev|, i requires 0 <= i < |prev| => Eased(prev[i], i, d));
    var pushed := mapped + [Fresh(|prev|, d)];
    var shifted := pushed[1..];
    seq(|shifted|, i requires 0 <= i < |shifted| => shifted[i].(id := i))
  }

  /** The list after a run of ticks from the initial one. */
  function Run(drives: seq<Drive>): seq<Band>
  {
    if drives == [] then InitialBands() else Tick(Run(drives[..|drives| - 1]), drives[|drives| - 1])
  }

  /** However many ticks have run, there are 28 well-formed bands. */
  lemma {:induction false} RunKeepsShape(drives: seq<Drive>)
    ensures |Run(drives)| == BandCount && WellFormed(Run(drives))
  {
    if drives != [] {
      RunKeepsShape(drives[..|drives| - 1]);
    }
  }

  /** The largest band value, folded from 0 (`reduce` with `Math.max`). */
  function MaxValue(bands: seq<Band>): (m: real)
    ensures m >= 0.0
    ensures forall i :: 0 <= i < |bands| ==> bands[i].value <= m
    ensures m == 0.0 || exists i :: 0 <= i < |bands| && bands[i].value == m
  {
    if bands == [] then 0.0
    else
      var init := bands[..|bands| - 1];
      var m := Max(MaxValue(init), bands[|bands| - 1].value);
      assert forall i :: 0 <= i < |init| ==> init[i] == bands[i];
      m
  }

  /** The bar height shown for a band: its value relative to the maximum, or 0
      when every band is silent. */
  function Normalized(value: real, maxValue: real): (r: real)
    ensures maxValue <= 0.0 ==> r == 0.0
    ensures maxValue > 0.0 && 0.0 <= value <= maxValue ==> 0.0 <= r <= 1.0
    ensures maxValue > 0.0 ==> r * maxValue == value
  {
    if maxValue > 0.0 then value / maxValue else 0.0
  }

  /** Every displayed bar of a well-formed list lies in [0, 1]. */
  lemma NormalizedInUnit(bands: seq<Band>, i: int)
    requires WellFormed(bands) && 0 <= i < |bands|
    ensures 0.0 <= Normalized(bands[i].value, MaxValue(bands)) <= 1.0
  {
  }
}
