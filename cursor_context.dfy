/** The pointer-state engine of the cursor provider: the shared cursor state,
    the settings store, the copy-on-write updaters that the pointer handlers
    and the target-activation protocol apply to them, and the clamped
    arithmetic of the pointer sampler and the per-frame integrator. */
module CursorContext {
  import opened Numeric
  import opened Host

  datatype Option<T> = None | Some(value: T)

  datatype Variant = Default | Link | Press | Drag | Inspect | Control

  /** The eleven tunables of the settings store. */
  datatype Settings = Settings(
    parallaxIntensity: real,
    magnetic: bool,
    spotlight: bool,
    trails: bool,
    particleDensity: real,
    depthStrength: real,
    fluxIntensity: real,
    rippleStrength: real,
    inertiaIntensity: real,
    dragFactor: real,
    oscillationDepth: real)

  /** The shared cursor state; `activeTarget` is `None` for `undefined`. */
  datatype State = State(
    x: real,
    y: real,
    vx: real,
    vy: real,
    visible: bool,
    isPointerDown: bool,
    pointerType: string,
    variant: Variant,
    activeTarget: Option<string>,
    lastClick: real,
    smoothedVx: real,
    smoothedVy: real,
    speed: real,
    angle: real,
    oscillation: real)

  const InitialState: State := State(
    0.0, 0.0, 0.0, 0.0, false, false, "mouse", Default, None,
    0.0, 0.0, 0.0, 0.0, 0.0, 0.0)

  const InitialSettings: Settings := Settings(
    12.0, true, true, true, 0.6, 0.75, 0.65, 0.7, 0.35, 0.18, 0.25)

  // ---------------------------------------------------------------------
  // Settings store

  /** The keys of the settings record (`keyof CursorSettings`). */
  datatype SettingKey =
    | ParallaxIntensity | Magnetic | Spotlight | Trails | ParticleDensity
    | DepthStrength | FluxIntensity | RippleStrength | InertiaIntensity
    | DragFactor | OscillationDepth

  /** The dynamic value `prev[key]`, tagged with its runtime type. */
  datatype SettingValue = Num(n: real) | Flag(b: bool)

  /** `prev[key]`: exactly the three switches read as booleans. */
  function Get(s: Settings, k: SettingKey): (v: SettingValue)
    ensures v.Flag? <==> k == Magnetic || k == Spotlight || k == Trails
  {
    match k
    case ParallaxIntensity => Num(s.parallaxIntensity)
    case Magnetic => Flag(s.magnetic)
    case Spotlight => Flag(s.spotlight)
    case Trails => Flag(s.trails)
    case ParticleDensity => Num(s.particleDensity)
    case DepthStrength => Num(s.depthStrength)
    case FluxIntensity => Num(s.fluxIntensity)
    case RippleStrength => Num(s.rippleStrength)
    case InertiaIntensity => Num(s.inertiaIntensity)
    case DragFactor => Num(s.dragFactor)
    case OscillationDepth => Num(s.oscillationDepth)
  }

  /** Two settings records that agree on every key are the same record. */
  lemma SettingsExtensional(a: Settings, b: Settings)
    requires forall k :: Get(a, k) == Get(b, k)
    ensures a == b
  {
    assert Get(a, ParallaxIntensity) == Get(b, ParallaxIntensity);
    assert Get(a, Magnetic) == Get(b, Magnetic);
    assert Get(a, Spotlight) == Get(b, Spotlight);
    assert Get(a, Trails) == Get(b, Trails);
    assert Get(a, ParticleDensity) == Get(b, ParticleDensity);
    assert Get(a, DepthStrength) == Get(b, DepthStrength);
    assert Get(a, FluxIntensity) == Get(b, FluxIntensity);
    assert Get(a, RippleStrength) == Get(b, RippleStrength);
    assert Get(a, InertiaIntensity) == Get(b, InertiaIntensity);
    assert Get(a, DragFactor) == Get(b, DragFactor);
    assert Get(a, OscillationDepth) == Get(b, OscillationDepth);
  }

  /** Flips a boolean setting; a numeric key leaves the record as it is. */
  function ToggleSetting(s: Settings, k: SettingKey): (r: Settings)
    ensures Get(s, k).Flag? ==> Get(r, k) == Flag(!Get(s, k).b)
    ensures Get(s, k).Num? ==> r == s
    ensures forall j :: j != k ==> Get(r, j) == Get(s, j)
  {
    match k
    case Magnetic => s.(magnetic := !s.magnetic)
    case Spotlight => s.(spotlight := !s.spotlight)
    case Trails => s.(trails := !s.trails)
    case _ => s
  }

  /** Toggling the same key twice restores the original settings. */
  lemma ToggleTwice(s: Settings, k: SettingKey)
    ensures ToggleSetting(ToggleSetting(s, k), k) == s
  {
    var once := ToggleSetting(s, k);
    var twice := ToggleSetting(once, k);
    forall j ensures Get(twice, j) == Get(s, j) {
      if j == k {
        if Get(s, k).Flag? {
          assert Get(once, k) == Flag(!Get(s, k).b);
        }
      }
    }
    SettingsExtensional(twice, s);
  }

  function SetParallax(s: Settings, v: real): (r: Settings)
    ensures Get(r, ParallaxIntensity) == Num(v)
    ensures forall k :: k != ParallaxIntensity ==> Get(r, k) == Get(s, k)
  {
    s.(parallaxIntensity := v)
  }

  function SetParticleDensity(s: Settings, v: real): (r: Settings)
    ensures Get(r, ParticleDensity) == Num(v)
    ensures forall k :: k != ParticleDensity ==> Get(r, k) == Get(s, k)
  {
    s.(particleDensity := v)
  }

  function SetDepthStrength(s: Settings, v: real): (r: Settings)
    ensures Get(r, DepthStrength) == Num(v)
    ensures forall k :: k != DepthStrength ==> Get(r, k) == Get(s, k)
  {
    s.(depthStrength := v)
  }

  function SetFluxIntensity(s: Settings, v: real): (r: Settings)
    ensures Get(r, FluxIntensity) == Num(v)
    ensures forall k :: k != FluxIntensity ==> Get(r, k) == Get(s, k)
  {
    s.(fluxIntensity := v)
  }

  function SetRippleStrength(s: Settings, v: real): (r: Settings)
    ensures Get(r, RippleStrength) == Num(v)
    ensures forall k :: k != RippleStrength ==> Get(r, k) == Get(s, k)
  {
    s.(rippleStrength := v)
  }

  function SetInertiaIntensity(s: Settings, v: real): (r: Settings)
    ensures Get(r, InertiaIntensity) == Num(v)
    ensures forall k :: k != InertiaIntensity ==> Get(r, k) == Get(s, k)
  {
    s.(inertiaIntensity := v)
  }

  function SetDragFactor(s: Settings, v: real): (r: Settings)
    ensures Get(r, DragFactor) == Num(v)
    ensures forall k :: k != DragFactor ==> Get(r, k) == Get(s, k)
  {
    s.(dragFactor := v)
  }

  function SetOscillationDepth(s: Settings, v: real): (r: Settings)
    ensures Get(r, OscillationDepth) == Num(v)
    ensures forall k :: k != OscillationDepth ==> Get(r, k) == Get(s, k)
  {
    s.(oscillationDepth := v)
  }

  // ---------------------------------------------------------------------
  // Pointer handlers (state updaters)

  /** Pointer down: pressed, timestamped, and in press mode unless dragging. */
  function PointerDown(prev: State, timeStamp: real): (r: State)
    ensures r.isPointerDown && r.lastClick == timeStamp
    ensures r.variant == Drag <==> prev.variant == Drag
    ensures r.variant != Drag ==> r.variant == Press
    ensures r.(isPointerDown := prev.isPointerDown, lastClick := prev.lastClick, variant := prev.variant) == prev
  {
    prev.(isPointerDown := true, lastClick := timeStamp,
          variant := if prev.variant == Drag then Drag else Press)
  }

  /** Pointer up: released; press mode falls back to default, other modes stay. */
  function PointerUp(prev: State): (r: State)
    ensures !r.isPointerDown
    ensures prev.variant == Press ==> r.variant == Default
    ensures prev.variant != Press ==> r.variant == prev.variant
    ensures r.(isPointerDown := prev.isPointerDown, variant := prev.variant) == prev
  {
    prev.(isPointerDown := false, variant := if prev.variant == Press then Default else prev.variant)
  }

  function PointerEnter(prev: State): (r: State)
    ensures r.visible
    ensures r.(visible := prev.visible) == prev
  {
    prev.(visible := true)
  }

  function PointerLeave(prev: State): (r: State)
    ensures !r.visible && r.variant == Default
    ensures r.(visible := prev.visible, variant := prev.variant) == prev
  {
    prev.(visible := false, variant := Default)
  }

  function VisibilityChange(prev: State, hidden: bool): (r: State)
    ensures r.visible <==> !hidden
    ensures r.(visible := prev.visible) == prev
  {
    prev.(visible := !hidden)
  }

  function SetVariant(prev: State, v: Variant): (r: State)
    ensures r.variant == v
    ensures r.(variant := prev.variant) == prev
  {
    prev.(variant := v)
  }

  // ---------------------------------------------------------------------
  // Target activation protocol

  /** Last writer wins: `id` becomes the active target, and the variant is the
      one requested, if any. */
  function ActivateTarget(prev: State, id: string, variant: Option<Variant>): (r: State)
    ensures r.activeTarget == Some(id)
    ensures variant.Some? ==> r.variant == variant.value
    ensures variant.None? ==> r.variant == prev.variant
    ensures r.(activeTarget := prev.activeTarget, variant := prev.variant) == prev
  {
    prev.(activeTarget := Some(id), variant := if variant.Some? then variant.value else prev.variant)
  }

  /** Compare-and-clear: only the currently active target may clear itself. */
  function DeactivateTarget(prev: State, id: string): (r: State)
    ensures prev.activeTarget != Some(id) ==> r == prev
    ensures prev.activeTarget == Some(id) ==> r.activeTarget == None && r.variant == Default
    ensures r.(activeTarget := prev.activeTarget, variant := prev.variant) == prev
  {
    if prev.activeTarget != Some(id) then prev
    else prev.(activeTarget := None, variant := Default)
  }

  /** A late deactivation from a target the pointer already left does not
      clobber a newer activation. */
  lemma StaleDeactivateKeepsNewer(s: State, a: string, b: string, v: Option<Variant>)
    requires a != b
    ensures DeactivateTarget(ActivateTarget(s, a, v), b) == ActivateTarget(s, a, v)
    ensures DeactivateTarget(ActivateTarget(s, a, v), b).activeTarget == Some(a)
  {
  }

  /** Activating and then deactivating the same target clears it and returns
      the cursor to the default mode; nothing else changes. */
  lemma ActivateThenDeactivate(s: State, a: string, v: Option<Variant>)
    ensures DeactivateTarget(ActivateTarget(s, a, v), a) == s.(activeTarget := None, variant := Default)
  {
  }

  /** Interaction-lab card: enter activates the card, a move activates its
      detail target, and leaving deactivates the card (stale by then) and then
      the detail target, which clears the cursor. */
  lemma GridCardScenario(s: State, id: string)
    ensures var entered := ActivateTarget(s, id, Some(Link));
            var moved := ActivateTarget(entered, id + "-detail", None);
            var left := DeactivateTarget(DeactivateTarget(moved, id), id + "-detail");
            left.activeTarget == None && left.variant == Default
  {
    var entered := ActivateTarget(s, id, Some(Link));
    var moved := ActivateTarget(entered, id + "-detail", None);
    assert |id + "-detail"| != |id|;
    assert DeactivateTarget(moved, id) == moved;
  }

  /** Timeline card: leaving a card hands the cursor back to the ribbon. */
  lemma TimelineCardScenario(s: State, card: string)
    ensures var left := ActivateTarget(DeactivateTarget(s, card), "timeline", Some(Drag));
            left.activeTarget == Some("timeline") && left.variant == Drag
  {
  }

  // ---------------------------------------------------------------------
  // Pointer sampler arithmetic

  /** Elapsed time between pointer samples, floored at 16 ms. */
  function SampleInterval(now: real, lastTs: real): (d: real)
    ensures d >= 16.0 && d >= now - lastTs
    ensures d == 16.0 || d == now - lastTs
  {
    Max(now - lastTs, 16.0)
  }

  /** The smoothing factor: the inertia setting clamped to [0, 0.95]. */
  function SmoothingFactor(inertia: real): (k: real)
    ensures 0.0 <= k <= 0.95
    ensures 0.0 <= inertia <= 0.95 ==> k == inertia
    ensures inertia < 0.0 ==> k == 0.0
    ensures inertia > 0.95 ==> k == 0.95
  {
    Min(Max(inertia, 0.0), 0.95)
  }

  /** One step of the exponential filter `prev * k + raw * (1 - k)`: the gap
      to the raw sample is the previous gap scaled by `k`. */
  function Blend(prev: real, raw: real, k: real): (r: real)
    requires 0.0 <= k <= 0.95
    ensures r - raw == k * (prev - raw)
  {
    prev * k + raw * (1.0 - k)
  }

  lemma MulNonNegative(a: real, b: real)
    requires a >= 0.0 && b >= 0.0
    ensures a * b >= 0.0
  {
  }

  /** The filtered value lies between the previous value and the raw sample. */
  lemma BlendBetween(prev: real, raw: real, k: real)
    requires 0.0 <= k <= 0.95
    ensures prev <= raw ==> prev <= Blend(prev, raw, k) <= raw
    ensures raw <= prev ==> raw <= Blend(prev, raw, k) <= prev
  {
    var r := Blend(prev, raw, k);
    assert prev - r == (1.0 - k) * (prev - raw);
    if prev >= raw {
      MulNonNegative(k, prev - raw);
      MulNonNegative(1.0 - k, prev - raw);
    } else {
      MulNonNegative(k, raw - prev);
      MulNonNegative(1.0 - k, raw - prev);
    }
  }

  /** What one pointer-move sample derives. */
  datatype SampleValues = SampleValues(
    interval: real,
    vx: real,
    vy: real,
    smoothedVx: real,
    smoothedVy: real,
    speed: real,
    angle: real)

  /** One pointer-move sample: the interval is at least 16 ms, the raw
      velocity is the displacement over that interval, each smoothed
      component closes the gap to the raw one by the factor `1 - k` and so
      lies between the previous smoothed value and the raw value, the speed is
      never negative, and the heading is held while the speed is negligible. */
  function Sample(prevAngle: real, lastX: real, lastY: real, lastTs: real,
                  prevVx: real, prevVy: real, clientX: real, clientY: real, now: real,
                  inertia: real, math: MathLib): (v: SampleValues)
    requires math.Valid()
    ensures v.interval == SampleInterval(now, lastTs)
    ensures v.interval >= 16.0 && v.interval >= now - lastTs
    ensures v.vx == (clientX - lastX) / v.interval && v.vy == (clientY - lastY) / v.interval
    ensures v.smoothedVx - v.vx == SmoothingFactor(inertia) * (prevVx - v.vx)
    ensures v.smoothedVy - v.vy == SmoothingFactor(inertia) * (prevVy - v.vy)
    ensures prevVx <= v.vx ==> prevVx <= v.smoothedVx <= v.vx
    ensures v.vx <= prevVx ==> v.vx <= v.smoothedVx <= prevVx
    ensures prevVy <= v.vy ==> prevVy <= v.smoothedVy <= v.vy
    ensures v.vy <= prevVy ==> v.vy <= v.smoothedVy <= prevVy
    ensures v.speed >= 0.0 && v.speed == math.hypot(v.smoothedVx, v.smoothedVy)
    ensures v.speed <= 0.0001 ==> v.angle == prevAngle
    ensures v.speed > 0.0001 ==> v.angle == math.atan2(v.smoothedVy, v.smoothedVx)
  {
    var interval := SampleInterval(now, lastTs);
    var vx := (clientX - lastX) / interval;
    var vy := (clientY - lastY) / interval;
    var k := SmoothingFactor(inertia);
    BlendBetween(prevVx, vx, k);
    BlendBetween(prevVy, vy, k);
    var smoothedVx := Blend(prevVx, vx, k);
    var smoothedVy := Blend(prevVy, vy, k);
    var speed := math.hypot(smoothedVx, smoothedVy);
    var angle := if speed > 0.0001 then math.atan2(smoothedVy, smoothedVx) else prevAngle;
    SampleValues(interval, vx, vy, smoothedVx, smoothedVy, speed, angle)
  }

  /** A sequence of samples fed through the filter, starting from `s0`. */
  function SmoothAll(s0: real, raws: seq<real>, k: real): real
    requires 0.0 <= k <= 0.95
    decreases |raws|
  {
    if raws == [] then s0 else Blend(SmoothAll(s0, raws[..|raws| - 1], k), raws[|raws| - 1], k)
  }

  /** Largest magnitude in a sequence of samples (0 for none). */
  function MaxMagnitude(raws: seq<real>): (m: real)
    ensures m >= 0.0
    ensures forall i :: 0 <= i < |raws| ==> Abs(raws[i]) <= m
    ensures m == 0.0 || exists i :: 0 <= i < |raws| && Abs(raws[i]) == m
  {
    if raws == [] then 0.0 else Max(MaxMagnitude(raws[..|raws| - 1]), Abs(raws[|raws| - 1]))
  }

  /** Smoothing never amplifies: the smoothed value is no larger in magnitude
      than the starting value or any raw sample fed in since. */
  lemma {:induction false} SmoothingNeverAmplifies(s0: real, raws: seq<real>, k: real)
    requires 0.0 <= k <= 0.95
    ensures Abs(SmoothAll(s0, raws, k)) <= Max(Abs(s0), MaxMagnitude(raws))
  {
    if raws != [] {
      var init := raws[..|raws| - 1];
      SmoothingNeverAmplifies(s0, init, k);
      var p := SmoothAll(s0, init, k);
      var raw := raws[|raws| - 1];
      assert Abs(raw) <= MaxMagnitude(raws);
      assert MaxMagnitude(init) <= MaxMagnitude(raws);
      BlendBetween(p, raw, k);
    }
  }

  function Power(k: real, n: nat): real
  {
    if n == 0 then 1.0 else k * Power(k, n - 1)
  }

  /** `n` copies of the same sample. */
  function Repeat(raw: real, n: nat): (r: seq<real>)
    ensures |r| == n
  {
    if n == 0 then [] else Repeat(raw, n - 1) + [raw]
  }

  /** A constant raw velocity repeated `n` times: the distance to it shrinks by
      the factor `k` per sample. */
  lemma {:induction false} ConstantInputConverges(s0: real, raw: real, k: real, n: nat)
    requires 0.0 <= k <= 0.95
    ensures SmoothAll(s0, Repeat(raw, n), k) - raw == Power(k, n) * (s0 - raw)
  {
    if n > 0 {
      var raws := Repeat(raw, n);
      assert raws[..n - 1] == Repeat(raw, n - 1);
      ConstantInputConverges(s0, raw, k, n - 1);
      var p := SmoothAll(s0, Repeat(raw, n - 1), k);
      var r := SmoothAll(s0, raws, k);
      assert r == Blend(p, raw, k);
      GapShrinks(r, p, raw, k, s0, n);
    }
  }

  lemma GapShrinks(r: real, p: real, raw: real, k: real, s0: real, n: nat)
    requires n > 0
    requires r - raw == k * (p - raw)
    requires p - raw == Power(k, n - 1) * (s0 - raw)
    ensures r - raw == Power(k, n) * (s0 - raw)
  {
    var pw := Power(k, n - 1);
    calc {
      r - raw;
      k * (p - raw);
      k * (pw * (s0 - raw));
      (k * pw) * (s0 - raw);
    }
  }

  /** With the initial inertia of 0.35, a cursor at rest that starts moving at
      a constant 5 px/ms is followed gradually: 3.25 after one sample, and the
      remaining gap after `n` samples is 5 * 0.35^n. */
  lemma InitialInertiaScenario(n: nat)
    ensures SmoothingFactor(InitialSettings.inertiaIntensity) == 0.35
    ensures SmoothAll(0.0, [5.0], 0.35) == 3.25
    ensures 5.0 - SmoothAll(0.0, Repeat(5.0, n), 0.35) == 5.0 * Power(0.35, n)
  {
    assert [5.0][..0] == [];
    ConstantInputConverges(0.0, 5.0, 0.35, n);
  }

  // ---------------------------------------------------------------------
  // Frame integrator arithmetic

  /** The frame-step multiplier, `deltaMs / 16.67` capped at 3. */
  function StepMultiplier(deltaMs: real): (m: real)
    ensures m <= 3.0
    ensures deltaMs >= 0.0 ==> m >= 0.0
    ensures deltaMs > 0.0 ==> m > 0.0
    ensures deltaMs / 16.67 <= 3.0 ==> m == deltaMs / 16.67
    ensures deltaMs / 16.67 >= 3.0 ==> m == 3.0
  {
    Min(deltaMs / 16.67, 3.0)
  }

  /** The per-frame drag coefficient `1 - dragFactor * 0.08 * multiplier`,
      floored at 0; with a non-negative drag setting and multiplier it is at
      most 1, and below 1 once both are positive. */
  function DragCoefficient(dragFactor: real, multiplier: real): (d: real)
    ensures d >= 0.0
    ensures d >= 1.0 - dragFactor * 0.08 * multiplier
    ensures 1.0 - dragFactor * 0.08 * multiplier >= 0.0 ==> d == 1.0 - dragFactor * 0.08 * multiplier
    ensures 1.0 - dragFactor * 0.08 * multiplier < 0.0 ==> d == 0.0
    ensures dragFactor >= 0.0 && multiplier >= 0.0 ==> d <= 1.0
    ensures dragFactor > 0.0 && multiplier > 0.0 ==> d < 1.0
  {
    if dragFactor > 0.0 && multiplier > 0.0 then
      MulPositive(dragFactor * 0.08, multiplier);
      Max(0.0, 1.0 - dragFactor * 0.08 * multiplier)
    else if dragFactor >= 0.0 && multiplier >= 0.0 then
      MulNonNegative(dragFactor * 0.08, multiplier);
      Max(0.0, 1.0 - dragFactor * 0.08 * multiplier)
    else
      Max(0.0, 1.0 - dragFactor * 0.08 * multiplier)
  }

  lemma MulPositive(a: real, b: real)
    requires a > 0.0 && b > 0.0
    ensures a * b > 0.0
  {
  }

  /** The drag coefficient of a frame with a non-negative drag setting and a
      non-negative elapsed time lies in [0, 1], and below 1 when both are
      positive, so the frame really damps. */
  lemma FrameDragInUnitInterval(dragFactor: real, deltaMs: real)
    requires dragFactor >= 0.0 && deltaMs >= 0.0
    ensures 0.0 <= DragCoefficient(dragFactor, StepMultiplier(deltaMs)) <= 1.0
    ensures dragFactor > 0.0 && deltaMs > 0.0 ==> DragCoefficient(dragFactor, StepMultiplier(deltaMs)) < 1.0
  {
  }

  /** One damping step `v * drag`: with a coefficient in [0, 1] the component
      keeps its sign and never grows in magnitude; with a coefficient below 1
      a non-zero component strictly shrinks. */
  function Damp(v: real, drag: real): (r: real)
    ensures 0.0 <= drag <= 1.0 && v >= 0.0 ==> 0.0 <= r <= v
    ensures 0.0 <= drag <= 1.0 && v <= 0.0 ==> v <= r <= 0.0
    ensures 0.0 <= drag < 1.0 && v != 0.0 ==> Abs(r) < Abs(v)
  {
    if 0.0 <= drag <= 1.0 && v >= 0.0 then
      MulNonNegative(v, drag);
      MulNonNegative(v, 1.0 - drag);
      DampShrinks(v, drag);
      v * drag
    else if 0.0 <= drag <= 1.0 then
      MulNonNegative(-v, drag);
      MulNonNegative(-v, 1.0 - drag);
      DampShrinks(v, drag);
      v * drag
    else
      v * drag
  }

  lemma DampShrinks(v: real, drag: real)
    requires 0.0 <= drag <= 1.0
    ensures drag < 1.0 && v > 0.0 ==> v * drag < v
    ensures drag < 1.0 && v < 0.0 ==> v < v * drag
  {
    if drag < 1.0 && v > 0.0 {
      MulPositive(v, 1.0 - drag);
    } else if drag < 1.0 && v < 0.0 {
      MulPositive(-v, 1.0 - drag);
    }
  }

  predicate AllUnit(drags: seq<real>)
  {
    forall i :: 0 <= i < |drags| ==> 0.0 <= drags[i] <= 1.0
  }

  /** A velocity component after a run of frames with no new input. */
  function DampAll(v: real, drags: seq<real>): real
    requires AllUnit(drags)
    decreases |drags|
  {
    if drags == [] then v else Damp(DampAll(v, drags[..|drags| - 1]), drags[|drags| - 1])
  }

  /** Without new input, repeated frames decay a smoothed component
      monotonically towards zero and never past it. */
  lemma {:induction false} DecayIsMonotone(v: real, drags: seq<real>, d: real)
    requires AllUnit(drags) && 0.0 <= d <= 1.0
    ensures AllUnit(drags + [d])
    ensures v >= 0.0 ==> 0.0 <= DampAll(v, drags + [d]) <= DampAll(v, drags) <= v
    ensures v <= 0.0 ==> v <= DampAll(v, drags) <= DampAll(v, drags + [d]) <= 0.0
  {
    var ext := drags + [d];
    assert ext[..|ext| - 1] == drags;
    assert AllUnit(ext);
    assert DampAll(v, ext) == Damp(DampAll(v, drags), d);
    if drags != [] {
      var init := drags[..|drags| - 1];
      var last := drags[|drags| - 1];
      assert AllUnit(init);
      assert init + [last] == drags;
      DecayIsMonotone(v, init, last);
    }
  }

  /** The oscillator phase advance of one frame, proportional to the speed;
      it never runs backwards for a non-negative speed and multiplier and a
      depth setting above -0.72. */
  function PhaseAdvance(speed: real, depth: real, multiplier: real): (r: real)
    ensures speed >= 0.0 && multiplier >= 0.0 && depth >= -0.72 ==> r >= 0.0
  {
    if speed >= 0.0 && multiplier >= 0.0 && depth >= -0.72 then
      MulNonNegative(speed, 0.18 + depth * 0.25);
      MulNonNegative(speed * (0.18 + depth * 0.25), multiplier);
      speed * (0.18 + depth * 0.25) * multiplier
    else
      speed * (0.18 + depth * 0.25) * multiplier
  }

  /** What one animation frame derives from the previous state, the previous
      oscillator phase, the settings and the elapsed time. */
  datatype FrameValues = FrameValues(
    multiplier: real,
    drag: real,
    smoothedVx: real,
    smoothedVy: real,
    speed: real,
    angle: real,
    phase: real,
    oscillation: real)

  /** The kinematics of one frame: the step multiplier is capped at 3, the
      drag coefficient is never negative, the damped velocity never grows when
      the drag setting and the elapsed time are non-negative, the speed is
      never negative, and the angle is held while the speed is negligible. */
  function Integrate(prev: State, phase: real, config: Settings, deltaMs: real, math: MathLib): (f: FrameValues)
    requires math.Valid()
    ensures f.multiplier == StepMultiplier(deltaMs) && f.drag == DragCoefficient(config.dragFactor, f.multiplier)
    ensures f.multiplier <= 3.0 && f.drag >= 0.0 && f.speed >= 0.0
    ensures config.dragFactor > 0.0 && deltaMs > 0.0 ==> f.drag < 1.0
    ensures f.smoothedVx == Damp(prev.smoothedVx, f.drag) && f.smoothedVy == Damp(prev.smoothedVy, f.drag)
    ensures config.dragFactor >= 0.0 && deltaMs >= 0.0 ==>
              f.drag <= 1.0 &&
              Abs(f.smoothedVx) <= Abs(prev.smoothedVx) && Abs(f.smoothedVy) <= Abs(prev.smoothedVy)
    ensures f.speed == math.hypot(f.smoothedVx, f.smoothedVy)
    ensures f.speed <= 0.0001 ==> f.angle == prev.angle
    ensures f.speed > 0.0001 ==> f.angle == math.atan2(f.smoothedVy, f.smoothedVx)
    ensures f.phase == math.modTwoPi(phase + PhaseAdvance(f.speed, config.oscillationDepth, f.multiplier))
    ensures f.oscillation == math.sin(f.phase) * config.oscillationDepth
  {
    var multiplier := StepMultiplier(deltaMs);
    var drag := DragCoefficient(config.dragFactor, multiplier);
    var dampedVx := Damp(prev.smoothedVx, drag);
    var dampedVy := Damp(prev.smoothedVy, drag);
    var speed := math.hypot(dampedVx, dampedVy);
    var angle := if speed > 0.0001 then math.atan2(dampedVy, dampedVx) else prev.angle;
    var nextPhase := math.modTwoPi(phase + PhaseAdvance(speed, config.oscillationDepth, multiplier));
    var oscillation := math.sin(nextPhase) * config.oscillationDepth;
    FrameValues(multiplier, drag, dampedVx, dampedVy, speed, angle, nextPhase, oscillation)
  }

  /** The integrator's negligible-change test: every derived value moved by
      less than 0.0001. */
  predicate Settled(prev: State, dampedVx: real, dampedVy: real, speed: real, oscillation: real)
    ensures Settled(prev, dampedVx, dampedVy, speed, oscillation) <==>
              Abs(prev.smoothedVx - dampedVx) < 0.0001 && Abs(prev.smoothedVy - dampedVy) < 0.0001 &&
              Abs(prev.speed - speed) < 0.0001 && Abs(prev.oscillation - oscillation) < 0.0001
  {
    Abs(dampedVx - prev.smoothedVx) < 0.0001 &&
    Abs(dampedVy - prev.smoothedVy) < 0.0001 &&
    Abs(speed - prev.speed) < 0.0001 &&
    Abs(oscillation - prev.oscillation) < 0.0001
  }

  /** A frame that moves nothing is settled, and the test is symmetric: the
      previous values are as close to the new ones as the new ones are to
      them. */
  lemma SettledTolerance(prev: State, dampedVx: real, dampedVy: real, speed: real, oscillation: real)
    ensures Settled(prev, prev.smoothedVx, prev.smoothedVy, prev.speed, prev.oscillation)
    ensures Settled(prev, dampedVx, dampedVy, speed, oscillation) ==>
              Settled(prev.(smoothedVx := dampedVx, smoothedVy := dampedVy, speed := speed, oscillation := oscillation),
                      prev.smoothedVx, prev.smoothedVy, prev.speed, prev.oscillation)
  {
  }
}
