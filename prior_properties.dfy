/** Properties of the prior's support indicator, inverse sampler and transform. */
module PriorProperties {
  import opened Shared
  import opened Prior

  // ---------------------------------------------------------------------
  // Rectangular bounds
  // ---------------------------------------------------------------------

  /** A pair holding `None` on either side checks nothing, not even its set side. */
  lemma UnsetBoundImposesNothing(bounds: seq<BoundPair>, p: seq<real>, i: nat, x: real)
    requires |bounds| <= |p| && i < |bounds|
    requires bounds[i].lower.None? || bounds[i].upper.None?
    ensures WithinBounds(bounds, p[i := x]) <==> WithinBounds(bounds, p)
  {
  }

  /** A value outside an inclusive, fully set pair is rejected by the bounds check alone. */
  lemma ViolatedBoundRejects(bounds: seq<BoundPair>, derive: seq<real> -> Geometry, numParams: nat,
                             psi: (real, real, real) -> real, p: seq<real>, i: nat)
    requires NumSampled <= |p| && |bounds| <= |p| && i < |bounds|
    requires bounds[i].lower.Some? && bounds[i].upper.Some?
    requires p[i] < bounds[i].lower.value || bounds[i].upper.value < p[i]
    ensures Density(bounds, derive, numParams, psi, p) == Returns(MinusInf)
  {
  }

  /** The end points of a set pair are inside it. */
  lemma BoundsAreInclusive(b: BoundPair, x: real)
    requires b.lower.Some? && b.upper.Some?
    requires x == b.lower.value || x == b.upper.value
    requires b.lower.value <= b.upper.value
    ensures Admits(b, x)
  {
  }

  // ---------------------------------------------------------------------
  // The physical cuts
  // ---------------------------------------------------------------------

  /** The sign of `-1 / d` is the opposite of the sign of `d`. */
  lemma NegatedReciprocalSign(d: real)
    requires d != 0.0
    ensures -1.0 / d < 0.0 <==> d > 0.0
  {
    if d > 0.0 {
      assert (-1.0 / d) * d == -1.0;
    } else {
      assert (-1.0 / d) * d == -1.0;
    }
  }

  /**
   * Once the bounds, the radius cap and the photon-sphere cut pass, the call
   * raises exactly when the polar-radius proxy is at least one: division by
   * zero when it is exactly one, a square-root domain error when it exceeds one.
   */
  lemma DensityRaisesIff(bounds: seq<BoundPair>, derive: seq<real> -> Geometry, numParams: nat,
                         psi: (real, real, real) -> real, p: seq<real>)
    requires NumSampled <= |p| && |bounds| <= |p|
    ensures var r := Density(bounds, derive, numParams, psi, p);
            var g := derive(Leading(p, numParams));
            var reached := WithinBounds(bounds, p) && g.radius <= RadiusCap && 1.5 < g.radiusRatio;
            (r == Raises(ZeroDivisionError) <==> reached && PolarRadius(g) == 1.0) &&
            (r == Raises(ValueError) <==> reached && PolarRadius(g) > 1.0)
  {
    var g := derive(Leading(p, numParams));
    var d := MuDenominator(g);
    assert d == 3.0 * ShapeTerm(g);
    assert PolarRadius(g) == 1.0 + ShapeTerm(g);
    if d != 0.0 {
      NegatedReciprocalSign(d);
    }
  }

  /**
   * The support: the prior returns 0.0 exactly when every check holds, with
   * `mu >= 1` stated through its radicand.
   */
  lemma AcceptedIff(bounds: seq<BoundPair>, derive: seq<real> -> Geometry, numParams: nat,
                    psi: (real, real, real) -> real, p: seq<real>)
    requires NumSampled <= |p| && |bounds| <= |p|
    ensures var g := derive(Leading(p, numParams));
            Density(bounds, derive, numParams, psi, p) == Returns(Zero) <==>
              WithinBounds(bounds, p) &&
              g.radius <= RadiusCap &&
              1.5 < g.radiusRatio &&
              MuDenominator(g) != 0.0 && -1.0 / MuDenominator(g) >= 1.0 &&
              PolarRadius(g) >= 1.76 / g.radiusRatio &&
              p[4] <= p[7] &&
              psi(p[7], AzimuthDifference(p), p[4]) >= p[5] + p[8]
  {
  }

  /** `-1 / (3k) >= 1` forces `-1/3 <= k < 0`. */
  lemma RadicandBounds(k: real)
    requires 3.0 * k != 0.0 && -1.0 / (3.0 * k) >= 1.0
    ensures -1.0 / 3.0 <= k < 0.0
  {
    var d := 3.0 * k;
    var x := -1.0 / d;
    assert x * d == -1.0;
    assert d < 0.0;
    assert x * d <= d;
  }

  /**
   * What acceptance implies about the star: its polar-radius proxy lies in
   * [2/3, 1) (an oblate surface), and its radius exceeds 1.76 Schwarzschild
   * radii, so the photon-sphere cut at 1.5 never decides an accepted vector.
   */
  lemma AcceptedIsOblate(bounds: seq<BoundPair>, derive: seq<real> -> Geometry, numParams: nat,
                         psi: (real, real, real) -> real, p: seq<real>)
    requires NumSampled <= |p| && |bounds| <= |p|
    requires Density(bounds, derive, numParams, psi, p) == Returns(Zero)
    ensures var g := derive(Leading(p, numParams));
            2.0 / 3.0 <= PolarRadius(g) < 1.0 && g.radiusRatio > 1.76
  {
    var g := derive(Leading(p, numParams));
    var k := ShapeTerm(g);
    assert MuDenominator(g) == 3.0 * k;
    RadicandBounds(k);
    var rp := PolarRadius(g);
    assert rp == 1.0 + k;
    var q := 1.76 / g.radiusRatio;
    assert q * g.radiusRatio == 1.76;
    assert q < 1.0;
    assert g.radiusRatio * q < g.radiusRatio;
  }

  /**
   * The colatitude ordering is tested before the overlap: when the primary
   * lies below the secondary the result is never 0.0 and does not depend on
   * the angular-separation function at all.
   */
  lemma OrderingShortCircuitsOverlap(bounds: seq<BoundPair>, derive: seq<real> -> Geometry,
                                     numParams: nat, psi1: (real, real, real) -> real,
                                     psi2: (real, real, real) -> real, p: seq<real>)
    requires NumSampled <= |p| && |bounds| <= |p|
    requires p[4] > p[7]
    ensures Density(bounds, derive, numParams, psi1, p) == Density(bounds, derive, numParams, psi2, p)
    ensures Density(bounds, derive, numParams, psi1, p) != Returns(Zero)
  {
  }

  // ---------------------------------------------------------------------
  // Inverse sampling
  // ---------------------------------------------------------------------

  /** The inverse sample, position by position. */
  lemma InverseSampledEntries(base: seq<real>, distance: real)
    requires NumSampled <= |base|
    ensures var p := InverseSampled(base, distance);
            |p| == |base| && p[0] == distance &&
            (base[10] > 0.5 ==> p[10] == base[10] - 1.0) && (base[10] <= 0.5 ==> p[10] == base[10]) &&
            (base[11] > 0.5 ==> p[11] == base[11] - 1.0) && (base[11] <= 0.5 ==> p[11] == base[11]) &&
            forall i :: 0 < i < |base| && i != 10 && i != 11 ==> p[i] == base[i]
  {
  }

  /** A phase in (-1/2, 3/2] is wrapped into (-1/2, 1/2] by at most one cycle. */
  lemma WrapPhaseRange(x: real)
    requires -0.5 < x <= 1.5
    ensures -0.5 < WrapPhase(x) <= 0.5
    ensures WrapPhase(x) == x || WrapPhase(x) == x - 1.0
  {
  }

  /** With the phase bounds [-0.25, 0.75] of the pulse model, sampled phases lie in [-1/2, 1/2]. */
  lemma SampledPhasesInRange(base: seq<real>, distance: real)
    requires NumSampled <= |base|
    requires -0.25 <= base[10] <= 0.75 && -0.25 <= base[11] <= 0.75
    ensures var p := InverseSampled(base, distance);
            -0.5 <= p[10] <= 0.5 && -0.5 <= p[11] <= 0.5
  {
  }

  // ---------------------------------------------------------------------
  // Transform
  // ---------------------------------------------------------------------

  /** `transform` keeps the input as a prefix and appends the five derived values in order. */
  lemma TransformedEntries(p: seq<real>, gravradius: real -> real)
    requires NumSampled <= |p|
    ensures Transformed(p, gravradius).Returns? <==> p[2] != 0.0
    ensures Transformed(p, gravradius).Raises? ==> Transformed(p, gravradius).error == ZeroDivisionError
    ensures Transformed(p, gravradius).Returns? ==>
              var q := Transformed(p, gravradius).value;
              var n := |p|;
              |q| == n + 5 && q[..n] == p &&
              q[n] == gravradius(p[1]) / p[2] &&
              q[n + 1] == PhaseSeparation(p[10], p[11]) &&
              q[n + 2] == p[3] - p[4] &&
              q[n + 3] == p[3] + p[4] &&
              q[n + 4] == p[3] - p[7]
  {
  }

  /**
   * The phase separation differs from `temps - tempp` by zero or one cycle,
   * and lies in [0, 1] whenever both normalised phases do.
   */
  lemma PhaseSeparationRange(primary: real, secondary: real)
    ensures var tempp := if primary < 0.0 then primary + 1.0 else primary;
            var temps := 0.5 + secondary;
            var s := PhaseSeparation(primary, secondary);
            (s == temps - tempp || s == temps - tempp + 1.0) &&
            (0.0 <= tempp <= 1.0 && 0.0 <= temps <= 1.0 ==> 0.0 <= s <= 1.0)
  {
  }

  /** The separation can reach a full cycle: primary at 0, secondary at 1/2. */
  lemma PhaseSeparationReachesOne()
    ensures PhaseSeparation(0.0, 0.5) == 1.0
  {
  }

  /**
   * For a sample drawn with the pulse model's phase bounds, the transform
   * succeeds whenever the radius is non-zero and its phase separation lies in [0, 1].
   */
  lemma SampledSeparationInRange(base: seq<real>, distance: real, gravradius: real -> real)
    requires NumSampled <= |base|
    requires -0.25 <= base[10] <= 0.75 && -0.25 <= base[11] <= 0.75
    requires base[2] != 0.0
    ensures var t := Transformed(InverseSampled(base, distance), gravradius);
            t.Returns? && 0.0 <= t.value[|base| + 1] <= 1.0
  {
    var p := InverseSampled(base, distance);
    SampledPhasesInRange(base, distance);
    PhaseSeparationRange(p[10], p[11]);
    TransformedEntries(p, gravradius);
  }
}
