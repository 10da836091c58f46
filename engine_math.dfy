/** The one piece of engine arithmetic the locomotion model depends on. */
module EngineMath {

  /** `x` lies on the closed segment between `a` and `b`, in either order. */
  predicate Between(a: real, b: real, x: real) {
    (a <= x <= b) || (b <= x <= a)
  }

  /**
   * Linear interpolation from `a` towards `b` by the fraction `t`
   * (the engine's FMath::Lerp).
   */
  function Lerp(a: real, b: real, t: real): real {
    a + t * (b - a)
  }

  /**
   * A fraction in [0, 1] never overshoots: the result stays on the segment
   * from `a` to `b`, at `a` for 0 and at `b` for 1.
   */
  lemma LerpWithinSegment(a: real, b: real, t: real)
    requires 0.0 <= t <= 1.0
    ensures Between(a, b, Lerp(a, b, t))
    ensures t == 0.0 ==> Lerp(a, b, t) == a
    ensures t == 1.0 ==> Lerp(a, b, t) == b
  {
    var d := b - a;
    if d >= 0.0 {
      assert 0.0 <= t * d;
      assert (1.0 - t) * d >= 0.0;
    } else {
      assert t * d <= 0.0;
      assert (1.0 - t) * d <= 0.0;
    }
  }
}
