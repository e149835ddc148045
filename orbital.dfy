/**
 * The orbit propagator of the orbital route (`app/api/orbital/route.ts`):
 * Kepler's equation solved by a capped Newton iteration, and Keplerian
 * elements sampled into Cartesian positions over a time span.
 *
 * The formulas are kept exactly as the route writes them, quirks included:
 * the mean anomaly advances by t / (a · 365.25) · 360 with t in seconds, and
 * the argument of periapsis (degrees) is added to the true anomaly (radians)
 * without conversion.
 */
module OrbitalRoute {
  import opened Numerics

  datatype KeplerianElements = KeplerianElements(
    semiMajorAxis: real,
    eccentricity: real,
    inclination: real,
    longitudeOfAscendingNode: real,
    argumentOfPeriapsis: real,
    meanAnomaly: real)

  /** A propagated sample: position and radius in km, true anomaly in degrees. */
  datatype OrbitPoint = OrbitPoint(x: real, y: real, z: real, time: real, trueAnomaly: real, radius: real)

  const DefaultTolerance: real := 1e-6
  const DefaultMaxIterations: int := 100

  // ---------------------------------------------------------------------------
  // Kepler's equation

  /**
   * A JavaScript number as the solver's loop variables can hold it: a finite
   * value, an infinity (its sign never matters here) or NaN.
   */
  datatype Number = Finite(value: real) | Infinite | NaN

  /** `Math.abs(deltaE) > tolerance`: always true of an infinity, never of NaN. */
  predicate AboveTolerance(step: Number, tolerance: real) {
    match step
    case Finite(d) => Abs(d) > tolerance
    case Infinite => true
    case NaN => false
  }

  /** The Newton denominator 1 - e·cos E never vanishes. */
  ghost predicate NewtonDefined(m: MathLib, e: real) {
    forall x :: e * Cos(m, x) != 1.0
  }

  /** The residual M - (E - e·sin E) of Kepler's equation at E. */
  function KeplerResidual(m: MathLib, M: real, e: real, E: real): real {
    M - (E - e * Sin(m, E))
  }

  /** The Newton denominator 1 - e·cos E. */
  function NewtonDenominator(m: MathLib, e: real, E: real): real {
    1.0 - e * Cos(m, E)
  }

  /** Newton's correction to E, where its denominator does not vanish. */
  function NewtonStep(m: MathLib, M: real, e: real, E: real): real
    requires NewtonDenominator(m, e, E) != 0.0
  {
    KeplerResidual(m, M, e, E) / NewtonDenominator(m, e, E)
  }

  /** The solver's loop variables: E, deltaE and the iteration count. */
  datatype KeplerState = KeplerState(anomaly: Number, step: Number, iterations: int)

  /** The state the solver starts from: E = M, deltaE = 1, no iterations. */
  function KeplerStart(M: real): KeplerState {
    KeplerState(Finite(M), Finite(1.0), 0)
  }

  /**
   * One pass of the loop body: deltaE = (M - (E - e·sin E)) / (1 - e·cos E),
   * then E += deltaE. A zero denominator gives an infinite correction, or NaN
   * over a zero numerator; once E is not finite its sine is NaN, and so are
   * the correction and E.
   */
  function NewtonUpdate(m: MathLib, M: real, e: real, s: KeplerState): (r: KeplerState)
    ensures r.iterations == s.iterations + 1
    ensures s.anomaly.Finite? && NewtonDenominator(m, e, s.anomaly.value) != 0.0 ==>
      && r.anomaly.Finite? && r.step.Finite?
      && r.anomaly.value == s.anomaly.value + r.step.value
    ensures !r.anomaly.Finite? <==> !r.step.Finite?
    ensures !s.anomaly.Finite? ==> r.anomaly == NaN
  {
    if s.anomaly.Finite? then
      if NewtonDenominator(m, e, s.anomaly.value) != 0.0 then
        var deltaE := NewtonStep(m, M, e, s.anomaly.value);
        KeplerState(Finite(s.anomaly.value + deltaE), Finite(deltaE), s.iterations + 1)
      else if KeplerResidual(m, M, e, s.anomaly.value) != 0.0 then
        KeplerState(Infinite, Infinite, s.iterations + 1)
      else
        KeplerState(NaN, NaN, s.iterations + 1)
    else
      KeplerState(NaN, NaN, s.iterations + 1)
  }

  /**
   * Where the denominator does not vanish, the correction solves Newton's
   * linearisation of M = E - e·sin E: deltaE · (1 - e·cos E) = M - (E - e·sin E).
   */
  lemma NewtonCorrection(m: MathLib, M: real, e: real, s: KeplerState)
    requires s.anomaly.Finite? && NewtonDenominator(m, e, s.anomaly.value) != 0.0
    ensures var r := NewtonUpdate(m, M, e, s);
      r.step.value * NewtonDenominator(m, e, s.anomaly.value) == KeplerResidual(m, M, e, s.anomaly.value)
  {
    var d := NewtonDenominator(m, e, s.anomaly.value);
    var n := KeplerResidual(m, M, e, s.anomaly.value);
    assert NewtonUpdate(m, M, e, s).step.value == n / d;
  }

  /**
   * The state in which the solver's loop stops when it is entered in state s.
   * It never runs past the cap, and it stops exactly when the last step was
   * not above the tolerance (NaN included) or the cap is reached.
   */
  function KeplerRun(m: MathLib, M: real, e: real, tolerance: real, maxIterations: int, s: KeplerState): (r: KeplerState)
    decreases maxIterations - s.iterations
    ensures s.iterations <= r.iterations
    ensures r.iterations <= s.iterations || r.iterations <= maxIterations
    ensures !AboveTolerance(r.step, tolerance) || r.iterations >= maxIterations
    ensures r.iterations == s.iterations ==> r == s
  {
    if AboveTolerance(s.step, tolerance) && s.iterations < maxIterations then
      KeplerRun(m, M, e, tolerance, maxIterations, NewtonUpdate(m, M, e, s))
    else
      s
  }

  /** `solveKeplersEquation`: Newton's iteration from E = M, capped at maxIterations steps. */
  method SolveKeplersEquation(m: MathLib, M: real, e: real, tolerance: real, maxIterations: int) returns (E: Number)
    ensures E == KeplerRun(m, M, e, tolerance, maxIterations, KeplerStart(M)).anomaly
  {
    E := Finite(M);
    var deltaE := Finite(1.0);
    var iterations := 0;
    while AboveTolerance(deltaE, tolerance) && iterations < maxIterations
      invariant KeplerRun(m, M, e, tolerance, maxIterations, KeplerState(E, deltaE, iterations))
             == KeplerRun(m, M, e, tolerance, maxIterations, KeplerStart(M))
      decreases maxIterations - iterations
    {
      ghost var before := KeplerState(E, deltaE, iterations);
      assert KeplerRun(m, M, e, tolerance, maxIterations, before)
          == KeplerRun(m, M, e, tolerance, maxIterations, NewtonUpdate(m, M, e, before));
      match E {
        case Finite(x) =>
          if NewtonDenominator(m, e, x) != 0.0 {
            var step := NewtonStep(m, M, e, x);
            deltaE := Finite(step);
            E := Finite(x + step);
          } else if KeplerResidual(m, M, e, x) != 0.0 {
            deltaE := Infinite;
            E := Infinite;
          } else {
            deltaE := NaN;
            E := NaN;
          }
        case _ =>
          deltaE := NaN;
          E := NaN;
      }
      iterations := iterations + 1;
      assert KeplerState(E, deltaE, iterations) == NewtonUpdate(m, M, e, before);
    }
  }

  /**
   * For every eccentricity, with the route's tolerance (below the initial
   * deltaE of 1) and a positive cap, the loop runs at least once and at most
   * maxIterations times, and on exit either the last step was not above the
   * tolerance or the cap was reached.
   */
  lemma {:induction false} KeplerIterationBounds(m: MathLib, M: real, e: real, tolerance: real, maxIterations: int)
    requires tolerance < 1.0 && 1 <= maxIterations
    ensures var r := KeplerRun(m, M, e, tolerance, maxIterations, KeplerStart(M));
      && 1 <= r.iterations <= maxIterations
      && (!AboveTolerance(r.step, tolerance) || r.iterations == maxIterations)
  {
    var s := KeplerStart(M);
    assert AboveTolerance(s.step, tolerance);
    assert KeplerRun(m, M, e, tolerance, maxIterations, s)
        == KeplerRun(m, M, e, tolerance, maxIterations, NewtonUpdate(m, M, e, s));
  }

  /**
   * A state that is no longer finite ends the loop within one more pass: NaN
   * stops it at once, and an infinity turns into NaN on the next pass.
   */
  lemma NonFiniteStopsWithinOnePass(m: MathLib, M: real, e: real, tolerance: real, maxIterations: int, s: KeplerState)
    requires !s.anomaly.Finite? && s.step == s.anomaly
    ensures var r := KeplerRun(m, M, e, tolerance, maxIterations, s);
      && r.iterations <= s.iterations + 1
      && (s.anomaly == NaN ==> r == s)
      && (r != s ==> r.anomaly == NaN && r.step == NaN)
  {
    if AboveTolerance(s.step, tolerance) && s.iterations < maxIterations {
      var next := NewtonUpdate(m, M, e, s);
      assert next == KeplerState(NaN, NaN, s.iterations + 1);
      assert KeplerRun(m, M, e, tolerance, maxIterations, next) == next;
    }
  }

  /** Where 1 - e·cos never vanishes, every state the loop reaches from a finite one is finite. */
  lemma {:induction false} KeplerRunStaysFinite(m: MathLib, M: real, e: real, tolerance: real, maxIterations: int, s: KeplerState)
    requires NewtonDefined(m, e) && s.anomaly.Finite? && s.step.Finite?
    decreases maxIterations - s.iterations
    ensures KeplerRun(m, M, e, tolerance, maxIterations, s).anomaly.Finite?
  {
    if AboveTolerance(s.step, tolerance) && s.iterations < maxIterations {
      NewtonDenominatorNonZero(m, e, s.anomaly.value);
      KeplerRunStaysFinite(m, M, e, tolerance, maxIterations, NewtonUpdate(m, M, e, s));
    }
  }

  /** Where 1 - e·cos never vanishes, it does not vanish at x. */
  lemma NewtonDenominatorNonZero(m: MathLib, e: real, x: real)
    requires NewtonDefined(m, e)
    ensures NewtonDenominator(m, e, x) != 0.0
  {
    assert e * Cos(m, x) != 1.0;
  }

  /** A circular orbit (e = 0): the first Newton step is 0, so the solver returns M after one iteration. */
  lemma CircularOrbitSolvedExactly(m: MathLib, M: real, tolerance: real, maxIterations: int)
    requires 0.0 <= tolerance < 1.0 && 1 <= maxIterations
    ensures NewtonDefined(m, 0.0)
    ensures KeplerRun(m, M, 0.0, tolerance, maxIterations, KeplerStart(M)) == KeplerState(Finite(M), Finite(0.0), 1)
  {
    var next := KeplerState(Finite(M), Finite(0.0), 1);
    assert NewtonUpdate(m, M, 0.0, KeplerStart(M)) == next;
    assert KeplerRun(m, M, 0.0, tolerance, maxIterations, next) == next;
  }

  // ---------------------------------------------------------------------------
  // Orbit propagation

  /** The radius denominator 1 + e·cos ν never vanishes. */
  ghost predicate RadiusDefined(m: MathLib, e: real) {
    forall x :: 1.0 + e * Cos(m, x) != 0.0
  }

  /** The elements for which every division in the propagator has a non-zero divisor. */
  ghost predicate Propagatable(m: MathLib, el: KeplerianElements) {
    && el.semiMajorAxis != 0.0
    && el.eccentricity != 1.0
    && NewtonDefined(m, el.eccentricity)
    && RadiusDefined(m, el.eccentricity)
  }

  /** Mean anomaly at time t, with the route's day/second mismatch preserved. */
  function MeanAnomalyAt(el: KeplerianElements, t: real): real
    requires el.semiMajorAxis != 0.0
  {
    el.meanAnomaly + (t / (el.semiMajorAxis * 365.25)) * 360.0
  }

  function TrueAnomaly(m: MathLib, e: real, E: real): real
    requires e != 1.0
  {
    2.0 * Atan(m, Sqrt(m, (1.0 + e) / (1.0 - e)) * Tan(m, E / 2.0))
  }

  function OrbitRadius(m: MathLib, a: real, e: real, nu: real): real
    requires RadiusDefined(m, e)
  {
    a * (1.0 - e * e) / (1.0 + e * Cos(m, nu))
  }

  /** Rotation of the in-plane direction u by the node and inclination angles (in radians). */
  function Rotate(m: MathLib, node: real, inclination: real, u: real): Vec
  {
    Vec(Cos(m, node) * Cos(m, u) - Sin(m, node) * Sin(m, u) * Cos(m, inclination),
        Sin(m, node) * Cos(m, u) + Cos(m, node) * Sin(m, u) * Cos(m, inclination),
        Sin(m, u) * Sin(m, inclination))
  }

  datatype Vec = Vec(x: real, y: real, z: real)

  /** The sample the propagator produces at time t. */
  function OrbitPointAt(m: MathLib, el: KeplerianElements, t: real): OrbitPoint
    requires Propagatable(m, el)
  {
    var M := MeanAnomalyAt(el, t);
    KeplerRunStaysFinite(m, M, el.eccentricity, DefaultTolerance, DefaultMaxIterations, KeplerStart(M));
    var E := KeplerRun(m, M, el.eccentricity, DefaultTolerance, DefaultMaxIterations, KeplerStart(M)).anomaly;
    OrbitPointFromAnomaly(m, el, t, E.value)
  }

  /** The sample at time t once the eccentric anomaly E is known. */
  function OrbitPointFromAnomaly(m: MathLib, el: KeplerianElements, t: real, E: real): OrbitPoint
    requires Propagatable(m, el)
  {
    var nu := TrueAnomaly(m, el.eccentricity, E);
    var r := OrbitRadius(m, el.semiMajorAxis, el.eccentricity, nu);
    var d := Rotate(m, el.longitudeOfAscendingNode * PI / 180.0, el.inclination * PI / 180.0,
                    el.argumentOfPeriapsis + nu);
    OrbitPoint(r * d.x * KmPerAu, r * d.y * KmPerAu, r * d.z * KmPerAu, t, nu * 180.0 / PI, r * KmPerAu)
  }

  /** The number of samples `propagateOrbit` produces: numPoints + 1, or none for a negative count. */
  function SampleCount(numPoints: int): nat {
    if numPoints >= 0 then numPoints + 1 else 0
  }

  /** Time of sample i: i · (timeSpan / numPoints). */
  function SampleTime(timeSpan: real, numPoints: int, i: int): real
    requires numPoints != 0
  {
    i as real * (timeSpan / numPoints as real)
  }

  /** The anomaly the solver returns for the mean anomaly at t is finite and places the orbit point at t. */
  lemma SolvedAnomalyGivesOrbitPoint(m: MathLib, el: KeplerianElements, t: real, E: Number)
    requires Propagatable(m, el)
    requires E == KeplerRun(m, MeanAnomalyAt(el, t), el.eccentricity, DefaultTolerance, DefaultMaxIterations,
                            KeplerStart(MeanAnomalyAt(el, t))).anomaly
    ensures E.Finite? && OrbitPointFromAnomaly(m, el, t, E.value) == OrbitPointAt(m, el, t)
  {
    var M := MeanAnomalyAt(el, t);
    KeplerRunStaysFinite(m, M, el.eccentricity, DefaultTolerance, DefaultMaxIterations, KeplerStart(M));
  }

  /** `propagateOrbit`: samples the orbit at numPoints + 1 evenly spaced times. */
  method PropagateOrbit(m: MathLib, el: KeplerianElements, timeSpan: real, numPoints: int)
    returns (trajectory: seq<OrbitPoint>)
    requires Propagatable(m, el) && numPoints != 0
    ensures |trajectory| == SampleCount(numPoints)
    ensures forall i :: 0 <= i < |trajectory| ==>
      trajectory[i] == OrbitPointAt(m, el, SampleTime(timeSpan, numPoints, i))
  {
    var e := el.eccentricity;
    trajectory := [];
    var dt := timeSpan / numPoints as real;
    var i := 0;
    while i <= numPoints
      invariant 0 <= i <= SampleCount(numPoints)
      invariant |trajectory| == i
      invariant forall k :: 0 <= k < i ==> trajectory[k] == OrbitPointAt(m, el, SampleTime(timeSpan, numPoints, k))
    {
      var t := i as real * dt;
      assert t == SampleTime(timeSpan, numPoints, i);
      var M := el.meanAnomaly + (t / (el.semiMajorAxis * 365.25)) * 360.0;
      assert M == MeanAnomalyAt(el, t);
      var E := SolveKeplersEquation(m, M, e, DefaultTolerance, DefaultMaxIterations);
      SolvedAnomalyGivesOrbitPoint(m, el, t, E);
      var point := OrbitPointFromAnomaly(m, el, t, E.value);
      trajectory := trajectory + [point];
      i := i + 1;
    }
  }

  /**
   * The sample times run from 0 to timeSpan inclusive, evenly spaced, and are
   * non-decreasing when timeSpan and numPoints are positive.
   */
  lemma SampleTimesSpanInterval(timeSpan: real, numPoints: int, i: int, j: int)
    requires numPoints >= 1
    ensures SampleTime(timeSpan, numPoints, 0) == 0.0
    ensures SampleTime(timeSpan, numPoints, numPoints) == timeSpan
    ensures SampleTime(timeSpan, numPoints, j) - SampleTime(timeSpan, numPoints, i)
         == (j - i) as real * (timeSpan / numPoints as real)
    ensures 0.0 <= timeSpan && i <= j ==> SampleTime(timeSpan, numPoints, i) <= SampleTime(timeSpan, numPoints, j)
  {
    var n := numPoints as real;
    assert n * (timeSpan / n) == timeSpan;
    var dt := timeSpan / n;
    assert j as real * dt - i as real * dt == (j - i) as real * dt;
    if 0.0 <= timeSpan && i <= j {
      assert 0.0 <= dt;
      assert 0.0 <= (j - i) as real * dt;
    }
  }

  /** The mean anomaly starts at the epoch value and grows linearly at 360 / (a · 365.25) per second. */
  lemma MeanAnomalyLinear(el: KeplerianElements, t1: real, t2: real)
    requires el.semiMajorAxis != 0.0
    ensures MeanAnomalyAt(el, 0.0) == el.meanAnomaly
    ensures MeanAnomalyAt(el, t2) - MeanAnomalyAt(el, t1) == (t2 - t1) / (el.semiMajorAxis * 365.25) * 360.0
  {
    var p := el.semiMajorAxis * 365.25;
    assert t2 / p - t1 / p == (t2 - t1) / p;
  }

  /** A rotation by three angles keeps a unit direction of unit length. */
  lemma {:induction false} RotationKeepsUnitLength(m: MathLib, node: real, inclination: real, u: real)
    requires Pythagorean(m)
    ensures var d := Rotate(m, node, inclination, u); d.x * d.x + d.y * d.y + d.z * d.z == 1.0
  {
    var cn, sn := Cos(m, node), Sin(m, node);
    var cu, su := Cos(m, u), Sin(m, u);
    var ci, si := Cos(m, inclination), Sin(m, inclination);
    assert sn * sn + cn * cn == 1.0;
    assert su * su + cu * cu == 1.0;
    assert si * si + ci * ci == 1.0;
    var d := Rotate(m, node, inclination, u);
    RotationAlgebra(cn, sn, cu, su, ci, si, d.x, d.y, d.z);
  }

  /** The algebra behind `RotationKeepsUnitLength`, over plain reals. */
  lemma {:induction false} RotationAlgebra(cn: real, sn: real, cu: real, su: real, ci: real, si: real,
                                           x: real, y: real, z: real)
    requires sn * sn + cn * cn == 1.0 && su * su + cu * cu == 1.0 && si * si + ci * ci == 1.0
    requires x == cn * cu - sn * su * ci && y == sn * cu + cn * su * ci && z == su * si
    ensures x * x + y * y + z * z == 1.0
  {
    var w := su * ci;
    var a, b := cn * cu, sn * w;
    var c, f := sn * cu, cn * w;
    assert sn * su * ci == b && cn * su * ci == f;
    assert (a - b) * (a - b) + (c + f) * (c + f) == a * a + b * b + c * c + f * f + 2.0 * (c * f - a * b);
    assert c * f == a * b;
    assert a * a + c * c == (cn * cn + sn * sn) * (cu * cu);
    assert a * a + c * c == cu * cu;
    assert b * b + f * f == (cn * cn + sn * sn) * (w * w);
    assert b * b + f * f == w * w;
    assert w * w + z * z == su * su * (ci * ci + si * si);
    assert w * w + z * z == su * su;
    assert x * x + y * y == (a - b) * (a - b) + (c + f) * (c + f);
  }

  /** Every propagated position lies on the sphere of its reported radius. */
  lemma {:induction false} OrbitPointOnRadiusSphere(m: MathLib, el: KeplerianElements, t: real)
    requires Propagatable(m, el) && Pythagorean(m)
    ensures var p := OrbitPointAt(m, el, t); p.x * p.x + p.y * p.y + p.z * p.z == p.radius * p.radius
  {
    var M := MeanAnomalyAt(el, t);
    KeplerRunStaysFinite(m, M, el.eccentricity, DefaultTolerance, DefaultMaxIterations, KeplerStart(M));
    var E := KeplerRun(m, M, el.eccentricity, DefaultTolerance, DefaultMaxIterations, KeplerStart(M)).anomaly.value;
    assert OrbitPointAt(m, el, t) == OrbitPointFromAnomaly(m, el, t, E);
    var nu := TrueAnomaly(m, el.eccentricity, E);
    var r := OrbitRadius(m, el.semiMajorAxis, el.eccentricity, nu);
    var d := Rotate(m, el.longitudeOfAscendingNode * PI / 180.0, el.inclination * PI / 180.0,
                    el.argumentOfPeriapsis + nu);
    RotationKeepsUnitLength(m, el.longitudeOfAscendingNode * PI / 180.0, el.inclination * PI / 180.0,
                            el.argumentOfPeriapsis + nu);
    var k := r * KmPerAu;
    assert (k * d.x) * (k * d.x) + (k * d.y) * (k * d.y) + (k * d.z) * (k * d.z)
        == (k * k) * (d.x * d.x + d.y * d.y + d.z * d.z);
    assert r * d.x * KmPerAu == k * d.x && r * d.y * KmPerAu == k * d.y && r * d.z * KmPerAu == k * d.z;
  }

  /** A bound orbit (0 <= e < 1, a != 0) can always be propagated. */
  lemma BoundOrbitPropagatable(m: MathLib, el: KeplerianElements)
    requires Pythagorean(m)
    requires el.semiMajorAxis != 0.0 && 0.0 <= el.eccentricity < 1.0
    ensures Propagatable(m, el)
  {
    var e := el.eccentricity;
    forall x ensures -e <= e * Cos(m, x) <= e {
      CosineBounded(m, x);
      ScaledUnitBounded(e, Cos(m, x));
    }
    assert NewtonDefined(m, e);
    assert RadiusDefined(m, e);
  }

  /** A number in [-1, 1] scaled by a non-negative e lies in [-e, e]. */
  lemma ScaledUnitBounded(e: real, c: real)
    requires 0.0 <= e && -1.0 <= c <= 1.0
    ensures -e <= e * c <= e
  {
    assert e * (c + 1.0) >= 0.0;
    assert e * (1.0 - c) >= 0.0;
  }

  // ---------------------------------------------------------------------------
  // The POST handler

  datatype OrbitalRequest = OrbitalRequest(keplerianElements: Option<KeplerianElements>, timeSpan: real, numPoints: int)

  datatype OrbitalResponse =
    | Propagation(trajectory: seq<OrbitPoint>, elements: KeplerianElements, timeSpan: real, numPoints: int)
    | Failure(status: int, error: string)

  /**
   * `POST`: propagates the posted elements and echoes the request beside the
   * trajectory. A body that does not parse, or has no elements, fails with 500.
   */
  method Post(m: MathLib, body: Option<OrbitalRequest>) returns (response: OrbitalResponse)
    requires body.Some? && body.value.keplerianElements.Some? ==>
      Propagatable(m, body.value.keplerianElements.value) && body.value.numPoints != 0
    ensures body.None? || body.value.keplerianElements.None? <==> response == Failure(500, "Orbital propagation failed")
    ensures response.Propagation? ==>
      && response.elements == body.value.keplerianElements.value
      && response.timeSpan == body.value.timeSpan
      && response.numPoints == body.value.numPoints
      && |response.trajectory| == SampleCount(body.value.numPoints)
      && forall i :: 0 <= i < |response.trajectory| ==>
           response.trajectory[i] == OrbitPointAt(m, response.elements, SampleTime(response.timeSpan, response.numPoints, i))
  {
    if body.None? || body.value.keplerianElements.None? {
      return Failure(500, "Orbital propagation failed");
    }
    var request := body.value;
    var trajectory := PropagateOrbit(m, request.keplerianElements.value, request.timeSpan, request.numPoints);
    response := Propagation(trajectory, request.keplerianElements.value, request.timeSpan, request.numPoints);
  }
}
