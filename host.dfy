/** What the model needs from the host environment and cannot define itself. */
module Host {

  /** The host's transcendental functions, left uninterpreted. The facts the
      model relies on are stated where they are used: `Math.hypot` is never
      negative (`Valid`), `Math.exp` of a non-positive argument lies in
      [0, 1] (`ExpDecays`), and the heading readout needs `Math.PI > 0`.
      `modTwoPi` stands for the floating-point remainder `x % (Math.PI * 2)`. */
  datatype MathLib = MathLib(
    pi: real,
    hypot: (real, real) -> real,
    atan2: (real, real) -> real,
    sin: real -> real,
    cos: real -> real,
    exp: real -> real,
    modTwoPi: real -> real)
  {
    ghost predicate Valid()
    {
      forall a: real, b: real :: hypot(a, b) >= 0.0
    }

    /** `Math.exp` of a non-positive argument lies in [0, 1]. */
    ghost predicate ExpDecays()
    {
      forall x: real :: x <= 0.0 ==> 0.0 <= exp(x) <= 1.0
    }
  }

  /** A bounding client rectangle, as returned by `getBoundingClientRect`. */
  datatype Rect = Rect(left: real, top: real, width: real, height: real)
}
