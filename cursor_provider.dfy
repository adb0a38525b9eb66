/** The cursor provider's mutable side: the React state and settings cells
    and the refs that the document-level pointer-move handler and the
    animation-frame integrator update in place. Host reads of
    `performance.now()` and frame timestamps arrive as parameters. */
module CursorProvider {
  import opened Numeric
  import opened Host
  import opened CursorContext

  class Provider {
    var state: State
    var settings: Settings
    /** `settingsRef.current`, the copy the handlers read. */
    var settingsRef: Settings
    /** `lastPositionRef.current`. */
    var lastX: real
    var lastY: real
    var lastTs: real
    /** `smoothedVelocityRef.current`. */
    var smoothedRefVx: real
    var smoothedRefVy: real
    /** `oscillatorRef.current.phase`. */
    var phase: real
    /** `lastFrameRef.current`. */
    var lastFrame: real

    /** The handlers read settings that the last commit mirrored, and the
        published speed is a hypotenuse, so never negative. */
    ghost predicate Valid()
      reads this
    {
      settingsRef == settings && state.speed >= 0.0
    }

    /** Mounting the provider at time `now`. */
    constructor (now: real)
      ensures Valid()
      ensures state == InitialState && settings == InitialSettings && settingsRef == InitialSettings
      ensures lastX == 0.0 && lastY == 0.0 && lastTs == now
      ensures smoothedRefVx == 0.0 && smoothedRefVy == 0.0
      ensures phase == 0.0 && lastFrame == now
    {
      state := InitialState;
      settings := InitialSettings;
      settingsRef := InitialSettings;
      lastX, lastY, lastTs := 0.0, 0.0, now;
      smoothedRefVx, smoothedRefVy := 0.0, 0.0;
      phase := 0.0;
      lastFrame := now;
    }

    /** A settings update followed by the effect that mirrors it into
        `settingsRef`. */
    method CommitSettings(next: Settings)
      requires Valid()
      modifies this
      ensures Valid()
      ensures settings == next && settingsRef == next
      ensures state == old(state) && phase == old(phase) && lastFrame == old(lastFrame)
      ensures lastX == old(lastX) && lastY == old(lastY) && lastTs == old(lastTs)
      ensures smoothedRefVx == old(smoothedRefVx) && smoothedRefVy == old(smoothedRefVy)
    {
      settings := next;
      settingsRef := next;
    }

    /** The document-level pointer-move handler at host time `now`. The raw
        velocity is the displacement over the elapsed time floored at 16 ms;
        the smoothed velocity moves from the previous smoothed value towards
        the raw one by the clamped inertia factor. */
    method PointerMove(clientX: real, clientY: real, pointerType: string, now: real, math: MathLib)
      requires Valid() && math.Valid()
      modifies this
      ensures Valid()
      ensures lastX == clientX && lastY == clientY && lastTs == now
      ensures var v := Sample(old(state).angle, old(lastX), old(lastY), old(lastTs), old(smoothedRefVx), old(smoothedRefVy),
                              clientX, clientY, now, old(settingsRef).inertiaIntensity, math);
              smoothedRefVx == v.smoothedVx && smoothedRefVy == v.smoothedVy &&
              state == old(state).(x := clientX, y := clientY, vx := v.vx, vy := v.vy,
                                   smoothedVx := v.smoothedVx, smoothedVy := v.smoothedVy,
                                   speed := v.speed, angle := v.angle,
                                   pointerType := pointerType, visible := true)
      ensures settings == old(settings) && settingsRef == old(settingsRef)
      ensures phase == old(phase) && lastFrame == old(lastFrame)
    {
      var v := Sample(state.angle, lastX, lastY, lastTs, smoothedRefVx, smoothedRefVy,
                      clientX, clientY, now, settingsRef.inertiaIntensity, math);
      lastX, lastY, lastTs := clientX, clientY, now;
      smoothedRefVx, smoothedRefVy := v.smoothedVx, v.smoothedVy;
      state := state.(x := clientX, y := clientY, vx := v.vx, vy := v.vy,
                      smoothedVx := v.smoothedVx, smoothedVy := v.smoothedVy,
                      speed := v.speed, angle := v.angle,
                      pointerType := pointerType, visible := true);
    }

    /** One animation frame at `timestamp`: the smoothed-velocity ref takes the
        damped velocity, the oscillator phase advances, and the state is
        replaced exactly when some derived value moved by at least the
        negligible epsilon. */
    method Step(timestamp: real, math: MathLib)
      requires Valid() && math.Valid()
      modifies this
      ensures Valid()
      ensures lastFrame == timestamp
      ensures var f := Integrate(old(state), old(phase), old(settingsRef), timestamp - old(lastFrame), math);
              smoothedRefVx == f.smoothedVx && smoothedRefVy == f.smoothedVy && phase == f.phase &&
              (state == old(state) <==> Settled(old(state), f.smoothedVx, f.smoothedVy, f.speed, f.oscillation)) &&
              (state != old(state) ==>
                 state == old(state).(smoothedVx := f.smoothedVx, smoothedVy := f.smoothedVy,
                                      speed := f.speed, angle := f.angle, oscillation := f.oscillation))
      ensures var f := Integrate(old(state), old(phase), old(settingsRef), timestamp - old(lastFrame), math);
              Abs(state.smoothedVx - f.smoothedVx) < 0.0001 && Abs(state.smoothedVy - f.smoothedVy) < 0.0001 &&
              Abs(state.speed - f.speed) < 0.0001 && Abs(state.oscillation - f.oscillation) < 0.0001
      ensures settings == old(settings) && settingsRef == old(settingsRef)
      ensures lastX == old(lastX) && lastY == old(lastY) && lastTs == old(lastTs)
    {
      var previous := lastFrame;
      var deltaMs := timestamp - previous;
      lastFrame := timestamp;
      var prev := state;
      var f := Integrate(prev, phase, settingsRef, deltaMs, math);
      smoothedRefVx, smoothedRefVy := f.smoothedVx, f.smoothedVy;
      phase := f.phase;
      if !Settled(prev, f.smoothedVx, f.smoothedVy, f.speed, f.oscillation) {
        state := prev.(smoothedVx := f.smoothedVx, smoothedVy := f.smoothedVy,
                       speed := f.speed, angle := f.angle, oscillation := f.oscillation);
      }
    }
  }
}
