/**
 * The basic impact estimator (`app/api/simulate/route.ts`): closed-form
 * estimates of impact probability, energy, crater size, seismic magnitude,
 * tsunami risk, affected area and a weighted risk score, and the simplified
 * 101-point elliptical trajectory.
 *
 * The defense route repeats these helpers verbatim, and the enhanced route
 * repeats the trajectory generator; both use the definitions here. The
 * defense route's deflected trajectory differs only by a constant angle added
 * to every sample, so the generator takes that angle as a parameter (0 here).
 */
module SimulateRoute {
  import opened Numerics
  import opened Store

  /** Joules in one megaton of TNT. */
  const JoulesPerMegaton: real := 4.184e15

  /** The exponent of the crater scaling law D = k · E^(1/3.4). */
  const CraterExponent: real := 1.0 / 3.4

  // ---------------------------------------------------------------------------
  // Impact probability

  /** The probability before clamping: closer and larger objects score higher. */
  function RawImpactProbability(m: MathLib, a: Asteroid): real {
    0.1 - (a.missDistance / 1000000.0) * 0.01 + (Log10(m, a.diameter) / 10.0) * 0.05
  }

  /** `calculateImpactProbability`: the raw score clamped to [0, 0.95]. */
  function ImpactProbability(m: MathLib, a: Asteroid): (p: real)
    ensures 0.0 <= p <= 0.95
    ensures 0.0 <= RawImpactProbability(m, a) <= 0.95 ==> p == RawImpactProbability(m, a)
    ensures RawImpactProbability(m, a) < 0.0 ==> p == 0.0
    ensures RawImpactProbability(m, a) > 0.95 ==> p == 0.95
  {
    Min(Max(0.0, RawImpactProbability(m, a)), 0.95)
  }

  /** Moving an object closer (same diameter) never lowers its impact probability. */
  lemma ProbabilityNonIncreasingInMissDistance(m: MathLib, a: Asteroid, farther: real)
    requires a.missDistance <= farther
    ensures ImpactProbability(m, a.(missDistance := farther)) <= ImpactProbability(m, a)
  {
    assert RawImpactProbability(m, a.(missDistance := farther)) <= RawImpactProbability(m, a);
  }

  /** A larger object (same miss distance) never gets a lower impact probability, where log10 is non-decreasing. */
  lemma ProbabilityNonDecreasingInDiameter(m: MathLib, a: Asteroid, larger: real)
    requires Log10Monotone(m) && 0.0 < a.diameter <= larger
    ensures ImpactProbability(m, a) <= ImpactProbability(m, a.(diameter := larger))
  {
    assert Log10(m, a.diameter) <= Log10(m, larger);
    assert RawImpactProbability(m, a) <= RawImpactProbability(m, a.(diameter := larger));
  }

  // ---------------------------------------------------------------------------
  // Energy, crater, seismic magnitude, tsunami, area

  /** Velocity converted from km/h to m/s. */
  function MetresPerSecond(kmPerHour: real): real {
    kmPerHour * 1000.0 / 3600.0
  }

  /** `calculateImpactEnergy`: kinetic energy ½·m·v² in megatons of TNT. */
  function ImpactEnergy(a: Asteroid): (energy: real)
    ensures a.mass >= 0.0 ==> energy >= 0.0
  {
    var v := MetresPerSecond(a.velocity);
    0.5 * a.mass * (v * v) / JoulesPerMegaton
  }

  /** Energy is quadratic in velocity: doubling the velocity quadruples it. */
  lemma {:induction false} EnergyQuadrupledByDoubledVelocity(a: Asteroid)
    ensures ImpactEnergy(a.(velocity := 2.0 * a.velocity)) == 4.0 * ImpactEnergy(a)
  {
    var v := MetresPerSecond(a.velocity);
    assert MetresPerSecond(2.0 * a.velocity) == 2.0 * v;
    assert (2.0 * v) * (2.0 * v) == 4.0 * (v * v);
    assert 0.5 * a.mass * (4.0 * (v * v)) == 4.0 * (0.5 * a.mass * (v * v));
  }

  /** `calculateCraterDiameter`: 1.2 · E^(1/3.4) km, in metres. */
  function CraterDiameter(m: MathLib, energy: real): (diameter: real)
    ensures PowNonNegative(m) && energy >= 0.0 ==> diameter >= 0.0
  {
    1.2 * Pow(m, energy, CraterExponent) * 1000.0
  }

  /** A larger impact energy never gives a smaller crater. */
  lemma CraterDiameterMonotone(m: MathLib, e1: real, e2: real)
    requires PowMonotoneInBase(m, CraterExponent)
    requires 0.0 <= e1 <= e2
    ensures CraterDiameter(m, e1) <= CraterDiameter(m, e2)
  {
    assert Pow(m, e1, CraterExponent) <= Pow(m, e2, CraterExponent);
  }

  /** `calculateSeismicMagnitude`: 0.67 · log10 E + 4.4. */
  function SeismicMagnitude(m: MathLib, energy: real): (magnitude: real)
    ensures Log10NonNegativeFromOne(m) && energy >= 1.0 ==> magnitude >= 4.4
  {
    0.67 * Log10(m, energy) + 4.4
  }

  /** A larger impact energy never gives a smaller magnitude. */
  lemma SeismicMagnitudeMonotone(m: MathLib, e1: real, e2: real)
    requires Log10Monotone(m)
    requires 0.0 < e1 <= e2
    ensures SeismicMagnitude(m, e1) <= SeismicMagnitude(m, e2)
  {
    assert Log10(m, e1) <= Log10(m, e2);
  }

  /** `calculateTsunamiRisk`: the mean of two capped ratios (1000 Mt, 50 km). */
  function TsunamiRisk(energy: real, craterDiameter: real): (risk: real)
    ensures risk <= 1.0
    ensures energy >= 0.0 && craterDiameter >= 0.0 ==> risk >= 0.0
    ensures risk == 1.0 <==> energy >= 1000.0 && craterDiameter >= 50000.0
  {
    (Min(energy / 1000.0, 1.0) + Min(craterDiameter / 50000.0, 1.0)) / 2.0
  }

  /** Area of the disk of the given diameter. */
  function DiskArea(diameter: real): (area: real)
    ensures area >= 0.0
  {
    PI * ((diameter / 2.0) * (diameter / 2.0))
  }

  /** Radius in metres of the seismic damage zone: 10^((M - 4) / 2) km. */
  function SeismicRadius(m: MathLib, magnitude: real): real {
    Pow(m, 10.0, (magnitude - 4.0) / 2.0) * 1000.0
  }

  /** `calculateAffectedArea`: crater disk plus seismic disk, in m². */
  function AffectedArea(m: MathLib, craterDiameter: real, magnitude: real): (area: real)
    ensures area >= DiskArea(craterDiameter) >= 0.0
    ensures area - DiskArea(craterDiameter) == DiskArea(2.0 * SeismicRadius(m, magnitude))
  {
    var seismicRadius := SeismicRadius(m, magnitude);
    DiskArea(craterDiameter) + PI * (seismicRadius * seismicRadius)
  }

  // ---------------------------------------------------------------------------
  // Risk factor

  const ProbabilityWeight: real := 0.3
  const EnergyWeight: real := 0.25
  const DiameterWeight: real := 0.2
  const SeismicWeight: real := 0.15
  const TsunamiWeight: real := 0.1

  /** The weighted sum of the normalised measures, before the cap at 1. */
  function WeightedRisk(probability: real, energy: real, craterDiameter: real, magnitude: real, tsunamiRisk: real): real {
    probability * ProbabilityWeight
    + Min(energy / 10000.0, 1.0) * EnergyWeight
    + Min(craterDiameter / 100000.0, 1.0) * DiameterWeight
    + Min(magnitude / 10.0, 1.0) * SeismicWeight
    + tsunamiRisk * TsunamiWeight
  }

  /**
   * `calculateRiskFactor`: the weighted sum capped at 1. The affected area is
   * accepted but takes no part in the score.
   */
  function RiskFactor(probability: real, energy: real, craterDiameter: real, magnitude: real,
                      tsunamiRisk: real, affectedArea: real): (risk: real)
    ensures risk <= 1.0
    ensures (probability >= 0.0 && energy >= 0.0 && craterDiameter >= 0.0 && magnitude >= 0.0
             && tsunamiRisk >= 0.0) ==> risk >= 0.0
    ensures probability <= 0.95 && tsunamiRisk <= 1.0 ==> risk < 1.0
  {
    Min(WeightedRisk(probability, energy, craterDiameter, magnitude, tsunamiRisk), 1.0)
  }

  /** The five weights sum to 1, so a score of 1 needs every measure at its cap. */
  lemma RiskWeightsSumToOne()
    ensures ProbabilityWeight + EnergyWeight + DiameterWeight + SeismicWeight + TsunamiWeight == 1.0
    ensures WeightedRisk(1.0, 10000.0, 100000.0, 10.0, 1.0) == 1.0
  {}

  /** The affected area has no influence on the risk factor. */
  lemma RiskIgnoresAffectedArea(probability: real, energy: real, craterDiameter: real, magnitude: real,
                                tsunamiRisk: real, area1: real, area2: real)
    ensures RiskFactor(probability, energy, craterDiameter, magnitude, tsunamiRisk, area1)
         == RiskFactor(probability, energy, craterDiameter, magnitude, tsunamiRisk, area2)
  {}

  // ---------------------------------------------------------------------------
  // Simplified trajectory

  /** Samples after the first one: the trajectory has TrajectorySteps + 1 points. */
  const TrajectorySteps: int := 100

  /** An orbital period in days, in seconds. */
  function DaysToSeconds(days: real): real {
    days * 24.0 * 60.0 * 60.0
  }

  /** Time of sample i: i/100 of the orbital period. */
  function TrajectoryTime(timeSpan: real, i: int): real {
    (i as real / TrajectorySteps as real) * timeSpan
  }

  /** Polar angle of sample i, shifted by a constant deflection. */
  function TrajectoryAngle(timeSpan: real, i: int, deflection: real): real
    requires timeSpan != 0.0
  {
    (TrajectoryTime(timeSpan, i) / timeSpan) * 2.0 * PI + deflection
  }

  /**
   * Sample i of the simplified orbit: the conic r = a(1 - e²)/(1 + e cos θ)
   * with a the miss distance in metres, reported in km. The position is
   * absent (the source's coordinates are not finite numbers) when the period
   * is 0, so that t / timeSpan is 0/0, or when the conic's denominator is 0.
   */
  function TrajectorySample(m: MathLib, a: Asteroid, i: int, deflection: real): TrajectoryPoint {
    var timeSpan := DaysToSeconds(a.orbitalPeriod);
    var t := TrajectoryTime(timeSpan, i);
    if timeSpan == 0.0 then TrajectoryPoint(None, t)
    else
      TrajectoryPoint(ConicPosition(m, a, TrajectoryAngle(timeSpan, i, deflection)), t)
  }

  /**
   * The position at polar angle θ on the conic r = a(1 - e²)/(1 + e cos θ),
   * with a the miss distance in metres, in km; absent when the denominator is 0.
   */
  function ConicPosition(m: MathLib, a: Asteroid, angle: real): Option<Vec3> {
    var e := a.eccentricity;
    var denominator := 1.0 + e * Cos(m, angle);
    if denominator == 0.0 then None
    else
      var r := a.missDistance * 1000.0 * (1.0 - e * e) / denominator;
      Some(Vec3(r * Cos(m, angle) / 1000.0,
                r * Sin(m, angle) / 1000.0,
                r * Sin(m, TiltAngle(angle, a.inclination)) * 0.1 / 1000.0))
  }

  /** The angle whose sine sets the out-of-plane offset: θ scaled by the inclination in degrees. */
  function TiltAngle(angle: real, inclination: real): real {
    angle * inclination / 180.0 * PI
  }

  /**
   * `generateTrajectory` (and the defense route's `calculateDeflectedTrajectory`
   * with a non-zero deflection): the 101 samples i = 0, ..., 100.
   */
  method GenerateTrajectory(m: MathLib, a: Asteroid, deflection: real) returns (points: seq<TrajectoryPoint>)
    ensures |points| == TrajectorySteps + 1
    ensures forall i :: 0 <= i < |points| ==> points[i] == TrajectorySample(m, a, i, deflection)
  {
    points := [];
    var timeSpan := DaysToSeconds(a.orbitalPeriod);
    var i := 0;
    while i <= TrajectorySteps
      invariant 0 <= i <= TrajectorySteps + 1
      invariant |points| == i
      invariant forall k :: 0 <= k < i ==> points[k] == TrajectorySample(m, a, k, deflection)
    {
      var t := (i as real / TrajectorySteps as real) * timeSpan;
      assert t == TrajectoryTime(timeSpan, i);
      var point;
      if timeSpan == 0.0 {
        point := TrajectoryPoint(None, t);
      } else {
        var angle := (t / timeSpan) * 2.0 * PI + deflection;
        assert angle == TrajectoryAngle(timeSpan, i, deflection);
        point := TrajectoryPoint(ConicPosition(m, a, angle), t);
      }
      assert point == TrajectorySample(m, a, i, deflection);
      points := points + [point];
      i := i + 1;
    }
  }

  /**
   * Sample i sits at time i/100 of the period and at angle i/100 of a full
   * turn plus the deflection; the first sample is at time 0 and the last one
   * at the full period.
   */
  lemma {:induction false} TrajectorySpacing(timeSpan: real, i: int, deflection: real)
    requires timeSpan != 0.0
    ensures TrajectoryTime(timeSpan, 0) == 0.0 && TrajectoryTime(timeSpan, TrajectorySteps) == timeSpan
    ensures TrajectoryAngle(timeSpan, i, deflection) == (i as real / 100.0) * 2.0 * PI + deflection
  {
    var f := i as real / 100.0;
    assert (f * timeSpan) / timeSpan == f;
  }

  /** Every finite sample lies in the xy-plane at distance |r| / 1000 from the centre, r the conic radius. */
  lemma {:induction false} TrajectorySampleOnConic(m: MathLib, a: Asteroid, i: int, deflection: real)
    requires Pythagorean(m)
    requires TrajectorySample(m, a, i, deflection).position.Some?
    ensures var timeSpan := DaysToSeconds(a.orbitalPeriod);
      && timeSpan != 0.0
      && var angle := TrajectoryAngle(timeSpan, i, deflection);
      && 1.0 + a.eccentricity * Cos(m, angle) != 0.0
      && var r := a.missDistance * (1.0 - a.eccentricity * a.eccentricity) / (1.0 + a.eccentricity * Cos(m, angle));
      && var p := TrajectorySample(m, a, i, deflection).position.value;
      p.x * p.x + p.y * p.y == r * r
  {
    var timeSpan := DaysToSeconds(a.orbitalPeriod);
    var angle := TrajectoryAngle(timeSpan, i, deflection);
    var e := a.eccentricity;
    var denominator := 1.0 + e * Cos(m, angle);
    var rm := a.missDistance * 1000.0 * (1.0 - e * e) / denominator;
    var r := a.missDistance * (1.0 - e * e) / denominator;
    assert rm == 1000.0 * r;
    var c, s := Cos(m, angle), Sin(m, angle);
    assert s * s + c * c == 1.0;
    assert rm * c / 1000.0 == r * c && rm * s / 1000.0 == r * s;
    assert (r * c) * (r * c) + (r * s) * (r * s) == (r * r) * (s * s + c * c);
  }

  // ---------------------------------------------------------------------------
  // The POST handler

  datatype SimulateRequest = SimulateRequest(asteroid: Option<Asteroid>)

  /** A uniformly drawn impact site: latitude in [-90, 90), longitude in [-180, 180). */
  function RandomLocation(latDraw: Unit, lngDraw: Unit): (location: LatLng)
    ensures -90.0 <= location.lat < 90.0 && -180.0 <= location.lng < 180.0
  {
    LatLng(latDraw * 180.0 - 90.0, lngDraw * 360.0 - 180.0)
  }

  /**
   * `POST`: every estimate of the asteroid, in the order the route computes
   * them. A body that does not parse fails with 500, a missing asteroid
   * with 400. The impact site comes from two draws of `Math.random()`.
   */
  method Post(m: MathLib, body: Option<SimulateRequest>, latDraw: Unit, lngDraw: Unit)
    returns (reply: Reply<SimulationResults>)
    ensures body.None? <==> reply == Failed(500, "Simulation failed")
    ensures body.Some? && body.value.asteroid.None? <==> reply == Failed(400, "Asteroid data is required")
    ensures reply.Ok? <==> body.Some? && body.value.asteroid.Some?
    ensures reply.Ok? ==>
      var a := body.value.asteroid.value;
      var r := reply.body;
      && r.impactProbability == ImpactProbability(m, a)
      && r.impactEnergy == ImpactEnergy(a)
      && r.craterDiameter == CraterDiameter(m, r.impactEnergy)
      && r.seismicMagnitude == SeismicMagnitude(m, r.impactEnergy)
      && r.tsunamiRisk == TsunamiRisk(r.impactEnergy, r.craterDiameter)
      && r.affectedArea == AffectedArea(m, r.craterDiameter, r.seismicMagnitude)
      && r.riskFactor == RiskFactor(r.impactProbability, r.impactEnergy, r.craterDiameter,
                                    r.seismicMagnitude, r.tsunamiRisk, r.affectedArea)
      && (r.impactOccurred <==> r.impactProbability > 0.5)
      && r.impactLocation == Some(RandomLocation(latDraw, lngDraw))
      && |r.trajectory| == TrajectorySteps + 1
      && forall i :: 0 <= i < |r.trajectory| ==> r.trajectory[i] == TrajectorySample(m, a, i, 0.0)
  {
    if body.None? {
      return Failed(500, "Simulation failed");
    }
    if body.value.asteroid.None? {
      return Failed(400, "Asteroid data is required");
    }
    var a := body.value.asteroid.value;
    var impactProbability := ImpactProbability(m, a);
    var impactEnergy := ImpactEnergy(a);
    var craterDiameter := CraterDiameter(m, impactEnergy);
    var seismicMagnitude := SeismicMagnitude(m, impactEnergy);
    var tsunamiRisk := TsunamiRisk(impactEnergy, craterDiameter);
    var affectedArea := AffectedArea(m, craterDiameter, seismicMagnitude);
    var riskFactor := RiskFactor(impactProbability, impactEnergy, craterDiameter, seismicMagnitude,
                                 tsunamiRisk, affectedArea);
    var trajectory := GenerateTrajectory(m, a, 0.0);
    var impactLocation := RandomLocation(latDraw, lngDraw);
    var impactOccurred := impactProbability > 0.5;
    reply := Ok(SimulationResults(impactProbability, impactEnergy, craterDiameter, seismicMagnitude,
                                  tsunamiRisk, affectedArea, riskFactor, impactOccurred,
                                  Some(impactLocation), trajectory));
  }
}
