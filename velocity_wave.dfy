/** The velocity wave: a fixed-length window of scaled samples of the raw
    velocity magnitude `hypot(vx, vy)`, slid by one when that magnitude
    changes (at most once per animation frame), and its decaying peak. */
module VelocityWave {
  import opened Numeric

  const SampleCount: nat := 64
  const DecayFactor: real := 0.92

  /** The window the component starts from: 64 zero samples. */
  function InitialSamples(): (r: seq<real>)
    ensures |r| == SampleCount
    ensures forall i :: 0 <= i < |r| ==> r[i] == 0.0
  {
    seq(SampleCount, _ => 0.0)
  }

  /** `Math.min(1, magnitude * 120)`: never above 1, never negative for a
      non-negative speed, and saturated at 1 from a speed of 1/120 up. */
  function Scaled(magnitude: real): (r: real)
    ensures r <= 1.0
    ensures magnitude >= 0.0 ==> 0.0 <= r
    ensures magnitude * 120.0 <= 1.0 ==> r == magnitude * 120.0
    ensures magnitude * 120.0 >= 1.0 ==> r == 1.0
  {
    Min(1.0, magnitude * 120.0)
  }

  /** The `setSamples` updater: `prev.slice(1)` with the new sample pushed. */
  function Slide(prev: seq<real>, magnitude: real): (next: seq<real>)
    ensures |prev| > 0 ==> |next| == |prev| && next[..|prev| - 1] == prev[1..]
    ensures |prev| == 0 ==> |next| == 1
    ensures next[|next| - 1] == Scaled(magnitude)
  {
    (if |prev| > 0 then prev[1..] else []) + [Scaled(magnitude)]
  }

  /** The window after a run of slides, one per velocity magnitude that
      reached a frame, starting from the initial one. */
  function Window(magnitudes: seq<real>): seq<real>
  {
    if magnitudes == [] then InitialSamples()
    else Slide(Window(magnitudes[..|magnitudes| - 1]), magnitudes[|magnitudes| - 1])
  }

  function ScaledAll(magnitudes: seq<real>): (r: seq<real>)
    ensures |r| == |magnitudes|
    ensures forall i :: 0 <= i < |r| ==> r[i] == Scaled(magnitudes[i])
  {
    seq(|magnitudes|, i requires 0 <= i < |magnitudes| => Scaled(magnitudes[i]))
  }

  /** The window always holds exactly the last 64 entries of the zero history
      followed by every scaled sample, in order. */
  lemma {:induction false} WindowIsSuffix(magnitudes: seq<real>)
    ensures |Window(magnitudes)| == SampleCount
    ensures Window(magnitudes) == (InitialSamples() + ScaledAll(magnitudes))[|magnitudes|..]
  {
    var n := |magnitudes|;
    if n == 0 {
      assert InitialSamples() + ScaledAll(magnitudes) == InitialSamples();
    } else {
      var init := magnitudes[..n - 1];
      WindowIsSuffix(init);
      var history := InitialSamples() + ScaledAll(magnitudes);
      var shorter := InitialSamples() + ScaledAll(init);
      assert history == shorter + [Scaled(magnitudes[n - 1])];
      var w := Window(init);
      assert w == shorter[n - 1..];
      assert Window(magnitudes) == w[1..] + [Scaled(magnitudes[n - 1])];
      assert w[1..] == shorter[n..];
      assert history[n..] == shorter[n..] + [Scaled(magnitudes[n - 1])];
    }
  }

  /** Every sample of the window lies in [0, 1] when the speeds are
      non-negative (they are hypotenuses). */
  lemma WindowInUnit(magnitudes: seq<real>)
    requires forall i :: 0 <= i < |magnitudes| ==> magnitudes[i] >= 0.0
    ensures forall i :: 0 <= i < |Window(magnitudes)| ==> 0.0 <= Window(magnitudes)[i] <= 1.0
  {
    WindowIsSuffix(magnitudes);
    var history := InitialSamples() + ScaledAll(magnitudes);
    forall i | 0 <= i < |history| ensures 0.0 <= history[i] <= 1.0 {
      if i >= SampleCount {
        assert history[i] == Scaled(magnitudes[i - SampleCount]);
      }
    }
  }

  /** `samples.reduce((acc, value) => Math.max(acc * 0.92, value), 0)`. It is
      never negative and never below the newest sample. */
  function SmoothedPeak(samples: seq<real>): (r: real)
    ensures r >= 0.0
    ensures |samples| > 0 ==> r >= samples[|samples| - 1]
  {
    if samples == [] then 0.0
    else Max(SmoothedPeak(samples[..|samples| - 1]) * DecayFactor, samples[|samples| - 1])
  }

  /** The peak never exceeds a non-negative bound on every sample, in
      particular the largest sample when there is a non-negative one. */
  lemma {:induction false} PeakBounded(samples: seq<real>, bound: real)
    requires bound >= 0.0
    requires forall i :: 0 <= i < |samples| ==> samples[i] <= bound
    ensures SmoothedPeak(samples) <= bound
  {
    if samples != [] {
      PeakBounded(samples[..|samples| - 1], bound);
    }
  }

  /** The peak shown for any window reached from the initial one lies in [0, 1]. */
  lemma PeakInUnit(magnitudes: seq<real>)
    requires forall i :: 0 <= i < |magnitudes| ==> magnitudes[i] >= 0.0
    ensures 0.0 <= SmoothedPeak(Window(magnitudes)) <= 1.0
  {
    WindowInUnit(magnitudes);
    PeakBounded(Window(magnitudes), 1.0);
  }
}
