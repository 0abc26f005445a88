/**
 * The joint prior of the ST-U model: a support indicator over the twelve
 * parameters, inverse sampling from the unit hypercube, and the post-processing
 * transform that appends five derived parameters.
 *
 * Parameter vector positions: 0 distance, 1 mass, 2 equatorial radius,
 * 3 inclination, 4/5/6 primary colatitude/angular radius/log-temperature,
 * 7/8/9 the same for the secondary region, 10/11 primary/secondary phase.
 */
module Prior {
  import opened Shared

  /** Metres per kilometre (the library constant `_km`). */
  const Km: real := 1000.0

  /** The double nearest to 2π (the library constant `_2pi`). */
  const TwoPi: real := 6.283185307179586

  /** Equation-of-state cap on the equatorial radius: 16 km. */
  const RadiusCap: real := 16.0 * Km

  /** Number of sampled parameters; the prior indexes up to position 11. */
  const NumSampled: nat := 12

  /** The prior's log-density: 0.0 inside the support, -inf outside. */
  datatype LogDensity = Zero | MinusInf

  /**
   * The derived quantities the spacetime exposes after an update:
   * `R` (radius, metres), `R_r_s` (radius over Schwarzschild radius),
   * `epsilon` and `zeta`.
   */
  datatype Geometry = Geometry(radius: real, radiusRatio: real, epsilon: real, zeta: real)

  /**
   * The shared ambient spacetime. Its physics is external: `derive` stands
   * for what `update` computes from the leading parameters.
   */
  class Spacetime {
    const numParams: nat
    const derive: seq<real> -> Geometry
    var geometry: Geometry

    constructor (numParams: nat, derive: seq<real> -> Geometry, initial: Geometry)
      ensures this.numParams == numParams && this.derive == derive
      ensures geometry == initial
    {
      this.numParams := numParams;
      this.derive := derive;
      geometry := initial;
    }

    /** `update(*params)`: recompute the derived quantities. */
    method Update(params: seq<real>)
      modifies this
      ensures geometry == derive(params)
    {
      geometry := derive(params);
    }
  }

  /** A Python list of reals, which `transform` extends in place. */
  class ParamList {
    var items: seq<real>

    constructor (items: seq<real>)
      ensures this.items == items
    {
      this.items := items;
    }
  }

  // ---------------------------------------------------------------------
  // Support indicator
  // ---------------------------------------------------------------------

  /** One bound pair admits `x`: a pair holding `None` checks nothing. */
  predicate Admits(b: BoundPair, x: real) {
    b.lower.None? || b.upper.None? || b.lower.value <= x <= b.upper.value
  }

  /** Every bound pair admits the parameter at its position. */
  predicate WithinBounds(bounds: seq<BoundPair>, p: seq<real>)
    requires |bounds| <= |p|
  {
    forall i :: 0 <= i < |bounds| ==> Admits(bounds[i], p[i])
  }

  /** `p[:n]` with Python's clamping slice. */
  function Leading(p: seq<real>, n: nat): seq<real> {
    if n <= |p| then p[..n] else p
  }

  /** `epsilon * (-0.788 + 1.030 * zeta)`, the shape term of the surface. */
  function ShapeTerm(g: Geometry): real {
    g.epsilon * (-0.788 + 1.030 * g.zeta)
  }

  /** The denominator under the square root for `mu`. */
  function MuDenominator(g: Geometry): real {
    3.0 * ShapeTerm(g)
  }

  /** The polar-radius proxy `R_p`. */
  function PolarRadius(g: Geometry): real {
    1.0 + ShapeTerm(g)
  }

  /** The azimuthal difference handed to the angular-separation function. */
  function AzimuthDifference(p: seq<real>): real
    requires NumSampled <= |p|
  {
    (p[10] - 0.5 - p[11]) * TwoPi
  }

  /**
   * The checks that follow the spacetime update, in source order. The
   * radicand `-1 / d` of `mu` raises when `d` is zero (division) or when the
   * radicand is negative (square root); `mu < 1` is `radicand < 1`.
   */
  function PhysicalCuts(g: Geometry, psi: (real, real, real) -> real, p: seq<real>): Outcome<LogDensity>
    requires NumSampled <= |p|
  {
    if !(g.radius <= RadiusCap) then Returns(MinusInf)
    else if !(1.5 < g.radiusRatio) then Returns(MinusInf)
    else
      var d := MuDenominator(g);
      if d == 0.0 then Raises(ZeroDivisionError)
      else
        var radicand := -1.0 / d;
        if radicand < 0.0 then Raises(ValueError)
        else if radicand < 1.0 then Returns(MinusInf)
        else if PolarRadius(g) < 1.76 / g.radiusRatio then Returns(MinusInf)
        else if p[4] > p[7] then Returns(MinusInf)
        else if psi(p[7], AzimuthDifference(p), p[4]) < p[5] + p[8] then Returns(MinusInf)
        else Returns(Zero)
  }

  /** What one call of the prior yields for `p`. */
  function Density(bounds: seq<BoundPair>, derive: seq<real> -> Geometry, numParams: nat,
                   psi: (real, real, real) -> real, p: seq<real>): Outcome<LogDensity>
    requires NumSampled <= |p| && |bounds| <= |p|
  {
    if !WithinBounds(bounds, p) then Returns(MinusInf)
    else PhysicalCuts(derive(Leading(p, numParams)), psi, p)
  }

  /** The bounds loop at the head of the prior: true iff no set pair is violated. */
  method CheckBounds(bounds: seq<BoundPair>, p: seq<real>) returns (inside: bool)
    requires |bounds| <= |p|
    ensures inside <==> WithinBounds(bounds, p)
  {
    for i := 0 to |bounds|
      invariant forall k :: 0 <= k < i ==> Admits(bounds[k], p[k])
    {
      var b := bounds[i];
      if b.lower.Some? && b.upper.Some? {
        if !(b.lower.value <= p[i] <= b.upper.value) {
          return false;
        }
      }
    }
    return true;
  }

  // ---------------------------------------------------------------------
  // Inverse sampling and the post-processing transform
  // ---------------------------------------------------------------------

  /** A phase above one half is moved down by one cycle. */
  function WrapPhase(x: real): real {
    if x > 0.5 then x - 1.0 else x
  }

  /** The base sample with the distance replaced and both phases wrapped. */
  function InverseSampled(base: seq<real>, distance: real): seq<real>
    requires NumSampled <= |base|
  {
    base[0 := distance][10 := WrapPhase(base[10])][11 := WrapPhase(base[11])]
  }

  /** Forward circular distance from the primary to the secondary phase. */
  function PhaseSeparation(primary: real, secondary: real): real {
    var tempp := if primary < 0.0 then primary + 1.0 else primary;
    var temps := 0.5 + secondary;
    if temps >= tempp then temps - tempp else 1.0 - tempp + temps
  }

  /** The five derived values, in their fixed order. */
  function DerivedValues(p: seq<real>, gravradius: real -> real): seq<real>
    requires NumSampled <= |p| && p[2] != 0.0
  {
    [gravradius(p[1]) / p[2], PhaseSeparation(p[10], p[11]),
     p[3] - p[4], p[3] + p[4], p[3] - p[7]]
  }

  /** What `transform` yields for `p`: the compactness division raises on a zero radius. */
  function Transformed(p: seq<real>, gravradius: real -> real): Outcome<seq<real>>
    requires NumSampled <= |p|
  {
    if p[2] == 0.0 then Raises(ZeroDivisionError) else Returns(p + DerivedValues(p, gravradius))
  }

  /**
   * `transform` on a list: it appends to the caller's list and returns that
   * same list. A zero radius raises before the list is touched.
   */
  method Transform(p: ParamList, gravradius: real -> real) returns (r: Outcome<ParamList>)
    requires NumSampled <= |p.items|
    modifies p
    ensures Transformed(old(p.items), gravradius).Returns? ==>
              r == Returns(p) && p.items == Transformed(old(p.items), gravradius).value
    ensures Transformed(old(p.items), gravradius).Raises? ==>
              r == Raises(Transformed(old(p.items), gravradius).error) && p.items == old(p.items)
  {
    if p.items[2] == 0.0 {
      return Raises(ZeroDivisionError);
    }
    ghost var original := p.items;
    p.items := p.items + [gravradius(p.items[1]) / p.items[2]];
    var tempp: real;
    if p.items[10] < 0.0 {
      tempp := p.items[10] + 1.0;
    } else {
      tempp := p.items[10];
    }
    var temps := 0.5 + p.items[11];
    if temps >= tempp {
      p.items := p.items + [temps - tempp];
    } else {
      p.items := p.items + [1.0 - tempp + temps];
    }
    p.items := p.items + [p.items[3] - p.items[4]];
    p.items := p.items + [p.items[3] + p.items[4]];
    p.items := p.items + [p.items[3] - p.items[7]];
    assert p.items == original + DerivedValues(original, gravradius);
    return Returns(p);
  }

  // ---------------------------------------------------------------------
  // The prior object
  // ---------------------------------------------------------------------

  /**
   * The custom prior. Besides its bounds and the shared spacetime it holds
   * the library functions it calls: the base-class inverse sampler (uniform
   * within the bounds), the truncated-normal quantile for the distance
   * (`truncnorm.ppf(., -2, 7, loc=0.3, scale=0.1)`), the angular separation
   * of two points on the sphere (`HotRegion._psi`) and `gravradius`.
   */
  class CustomPrior {
    const bounds: seq<BoundPair>
    const spacetime: Spacetime
    const baseInverse: seq<real> -> seq<real>
    const distanceQuantile: real -> real
    const psi: (real, real, real) -> real
    const gravradius: real -> real

    constructor (bounds: seq<BoundPair>, spacetime: Spacetime, baseInverse: seq<real> -> seq<real>,
                 distanceQuantile: real -> real, psi: (real, real, real) -> real,
                 gravradius: real -> real)
      ensures this.bounds == bounds && this.spacetime == spacetime
      ensures this.baseInverse == baseInverse && this.distanceQuantile == distanceQuantile
      ensures this.psi == psi && this.gravradius == gravradius
    {
      this.bounds := bounds;
      this.spacetime := spacetime;
      this.baseInverse := baseInverse;
      this.distanceQuantile := distanceQuantile;
      this.psi := psi;
      this.gravradius := gravradius;
    }

    /**
     * `__call__`: the support indicator. The spacetime is updated exactly
     * when every bound is met, and with the leading parameters only.
     */
    method Evaluate(p: seq<real>) returns (r: Outcome<LogDensity>)
      requires NumSampled <= |p| && |bounds| <= |p|
      modifies spacetime
      ensures r == Density(bounds, spacetime.derive, spacetime.numParams, psi, p)
      ensures WithinBounds(bounds, p) ==>
                spacetime.geometry == spacetime.derive(Leading(p, spacetime.numParams))
      ensures !WithinBounds(bounds, p) ==> spacetime.geometry == old(spacetime.geometry)
    {
      var inside := CheckBounds(bounds, p);
      if !inside {
        return Returns(MinusInf);
      }
      spacetime.Update(Leading(p, spacetime.numParams));
      var g := spacetime.geometry;

      if !(g.radius <= RadiusCap) {
        return Returns(MinusInf);
      }
      if !(1.5 < g.radiusRatio) {
        return Returns(MinusInf);
      }
      var d := MuDenominator(g);
      if d == 0.0 {
        return Raises(ZeroDivisionError);
      }
      var radicand := -1.0 / d;
      if radicand < 0.0 {
        return Raises(ValueError);
      }
      if radicand < 1.0 {
        return Returns(MinusInf);
      }
      var polarRadius := PolarRadius(g);
      if polarRadius < 1.76 / g.radiusRatio {
        return Returns(MinusInf);
      }
      if p[4] > p[7] {
        return Returns(MinusInf);
      }
      var thetaP := p[4];
      var phi := (p[10] - 0.5 - p[11]) * TwoPi;
      var rhoP := p[5];
      var thetaS := p[7];
      var rhoS := p[8];
      var angSep := psi(thetaS, phi, thetaP);
      if angSep < rhoP + rhoS {
        return Returns(MinusInf);
      }
      return Returns(Zero);
    }

    /** `inverse_sample`: override the distance and wrap both phases, in place. */
    method InverseSample(hypercube: seq<real>) returns (p: seq<real>)
      requires 1 <= |hypercube| && NumSampled <= |baseInverse(hypercube)|
      ensures p == InverseSampled(baseInverse(hypercube), distanceQuantile(hypercube[0]))
    {
      var base := baseInverse(hypercube);
      var a := new real[|base|](i => if 0 <= i < |base| then base[i] else 0.0);
      assert a[..] == base;
      a[0] := distanceQuantile(hypercube[0]);
      if a[10] > 0.5 {
        a[10] := a[10] - 1.0;
      }
      if a[11] > 0.5 {
        a[11] := a[11] - 1.0;
      }
      p := a[..];
    }

    /** `inverse_sample_and_transform`: the transform of a fresh inverse sample. */
    method InverseSampleAndTransform(hypercube: seq<real>) returns (r: Outcome<seq<real>>)
      requires 1 <= |hypercube| && NumSampled <= |baseInverse(hypercube)|
      ensures r == Transformed(InverseSampled(baseInverse(hypercube), distanceQuantile(hypercube[0])),
                               gravradius)
    {
      var p := InverseSample(hypercube);
      var list := new ParamList(p);
      var t := Transform(list, gravradius);
      match t
      case Returns(q) => r := Returns(q.items);
      case Raises(e) => r := Raises(e);
    }
  }
}
