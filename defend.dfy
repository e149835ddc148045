/**
 * The defense evaluator (`app/api/defend/route.ts`): how well a mitigation
 * strategy works against an asteroid, the deflected trajectory, and the
 * impact estimates after mitigation.
 *
 * The route's own copies of the basic estimator's helpers (lines 125-192)
 * are the formulas of `SimulateRoute`, used from there.
 */
module DefendRoute {
  import opened Numerics
  import opened Store
  import opened SimulateRoute

  /** Effectiveness is never reported above this. */
  const MaxEffectiveness: real := 0.95

  /** The size penalty: up to 30% for objects of 1 km and more. */
  function SizePenalty(a: Asteroid): (factor: real)
    ensures a.diameter >= 0.0 ==> 0.7 <= factor <= 1.0
    ensures a.diameter >= 1000.0 ==> factor == 0.7
  {
    1.0 - Min(a.diameter / 1000.0, 1.0) * 0.3
  }

  /** The speed penalty: up to 20% for speeds of 50000 km/h and more. */
  function VelocityPenalty(a: Asteroid): (factor: real)
    ensures a.velocity >= 0.0 ==> 0.8 <= factor <= 1.0
    ensures a.velocity >= 50000.0 ==> factor == 0.8
  {
    1.0 - Min(a.velocity / 50000.0, 1.0) * 0.2
  }

  /** The lead-time penalty: none with 20 years or more to impact, growing as the time shrinks. */
  function TimePenalty(s: DefenseStrategy): (factor: real)
    ensures factor <= 1.0
    ensures s.timeToImpact >= 20.0 <==> factor == 1.0
    ensures s.timeToImpact >= 0.0 ==> 0.7 <= factor
  {
    1.0 - Max(0.0, 1.0 - s.timeToImpact / 20.0) * 0.3
  }

  /** The strategy's effectiveness reduced by the size, speed and lead-time penalties, unclamped. */
  function AdjustedEffectiveness(a: Asteroid, s: DefenseStrategy): real {
    s.effectiveness * SizePenalty(a) * VelocityPenalty(a) * TimePenalty(s)
  }

  /**
   * `calculateDefenseEffectiveness`: the adjusted effectiveness clamped to
   * [0, 0.95]. Penalties only ever reduce a non-negative base effectiveness
   * when size and speed are non-negative.
   */
  function DefenseEffectiveness(a: Asteroid, s: DefenseStrategy): (effectiveness: real)
    ensures 0.0 <= effectiveness <= MaxEffectiveness
    ensures a.diameter >= 0.0 && a.velocity >= 0.0 && s.effectiveness >= 0.0 ==> effectiveness <= s.effectiveness
  {
    if a.diameter >= 0.0 && a.velocity >= 0.0 && s.effectiveness >= 0.0 then
      PenaltiesReduce(a, s);
      Max(0.0, Min(AdjustedEffectiveness(a, s), MaxEffectiveness))
    else
      Max(0.0, Min(AdjustedEffectiveness(a, s), MaxEffectiveness))
  }

  /** For non-negative size, speed and base, the penalties never raise the base effectiveness. */
  lemma PenaltiesReduce(a: Asteroid, s: DefenseStrategy)
    requires a.diameter >= 0.0 && a.velocity >= 0.0 && s.effectiveness >= 0.0
    ensures AdjustedEffectiveness(a, s) <= s.effectiveness
  {
    var b, p, q, r := s.effectiveness, SizePenalty(a), VelocityPenalty(a), TimePenalty(s);
    PenalisedProduct(b, p, q, r);
    assert b * p * q * r <= b;
    assert AdjustedEffectiveness(a, s) == b * p * q * r;
  }

  /** Three successive factors of at most 1, the first two non-negative, do not increase a non-negative base. */
  lemma PenalisedProduct(b: real, p: real, q: real, r: real)
    requires 0.0 <= b && 0.0 <= p <= 1.0 && 0.0 <= q <= 1.0 && r <= 1.0
    ensures b * p * q * r <= b
  {
    assert 0.0 <= b * p <= b;
    assert 0.0 <= b * p * q <= b * p;
    assert b * p * q * (1.0 - r) >= 0.0;
  }

  /** With 20 or more years to impact there is no lead-time penalty. */
  lemma NoTimePenaltyWithTwentyYears(a: Asteroid, s: DefenseStrategy)
    requires s.timeToImpact >= 20.0
    ensures AdjustedEffectiveness(a, s) == s.effectiveness * SizePenalty(a) * VelocityPenalty(a)
  {
    var b, p, q, r := s.effectiveness, SizePenalty(a), VelocityPenalty(a), TimePenalty(s);
    assert r == 1.0;
    assert AdjustedEffectiveness(a, s) == b * p * q * r;
  }

  /** The deflection angle: effectiveness times 30 degrees, in radians. */
  function DeflectionAngle(a: Asteroid, s: DefenseStrategy): (angle: real)
    ensures 0.0 <= angle <= MaxEffectiveness * PI / 6.0
  {
    DefenseEffectiveness(a, s) * PI / 6.0
  }

  /**
   * `calculateDeflectedTrajectory`: the basic route's 101-point trajectory with
   * every polar angle advanced by the deflection angle.
   */
  method CalculateDeflectedTrajectory(m: MathLib, a: Asteroid, s: DefenseStrategy)
    returns (points: seq<TrajectoryPoint>)
    ensures |points| == TrajectorySteps + 1
    ensures forall i :: 0 <= i < |points| ==> points[i] == TrajectorySample(m, a, i, DeflectionAngle(a, s))
  {
    var effectiveness := DefenseEffectiveness(a, s);
    var deflectionAngle := effectiveness * PI / 6.0;
    points := GenerateTrajectory(m, a, deflectionAngle);
  }

  /** Impact probability after mitigation: the share the defense does not remove. */
  function MitigatedProbability(original: real, effectiveness: real): (probability: real)
    requires 0.0 <= effectiveness <= MaxEffectiveness
    ensures original >= 0.0 ==> 0.0 <= probability <= original
    ensures original > 0.0 ==> probability >= 0.05 * original
    ensures effectiveness == 0.0 ==> probability == original
  {
    var kept := 1.0 - effectiveness;
    assert original >= 0.0 ==> original * kept <= original * 1.0;
    assert original > 0.0 ==> original * kept >= original * 0.05;
    original * kept
  }

  /**
   * Impact energy after mitigation: the defense removes at most 70% of it per
   * unit of effectiveness, so with effectiveness at most 0.95 at least 33.5%
   * of a non-negative energy remains.
   */
  function MitigatedEnergy(energy: real, effectiveness: real): (mitigated: real)
    requires 0.0 <= effectiveness <= MaxEffectiveness
    ensures energy >= 0.0 ==> 0.335 * energy <= mitigated <= energy
  {
    energy * (1.0 - effectiveness * 0.7)
  }

  /** The route's success rule: the new probability is below 1%, or the new risk below 0.1. */
  predicate Successful(newProbability: real, newRiskFactor: real) {
    newProbability < 0.01 || newRiskFactor < 0.1
  }

  datatype DefenseRequest = DefenseRequest(asteroid: Option<Asteroid>, strategy: Option<DefenseStrategy>)

  /**
   * The basic result fields after mitigation, and the defense summary.
   * `riskReduction` is `None` where the route divides 0 by 0 (an original
   * probability of 0), which serialises as null.
   */
  datatype DefenseResults = DefenseResults(
    results: SimulationResults,
    defenseEffectiveness: real,
    isSuccessful: bool,
    originalImpactProbability: real,
    riskReduction: Option<real>)

  /**
   * `POST`: evaluates the strategy, recomputes every estimate from the
   * mitigated energy, and reports success and the relative risk reduction,
   * which is the effectiveness itself whenever the original probability is
   * not 0.
   */
  method Post(m: MathLib, body: Option<DefenseRequest>, latDraw: Unit, lngDraw: Unit)
    returns (reply: Reply<DefenseResults>)
    ensures body.None? <==> reply == Failed(500, "Defense simulation failed")
    ensures body.Some? && (body.value.asteroid.None? || body.value.strategy.None?)
      <==> reply == Failed(400, "Asteroid and strategy data are required")
    ensures reply.Ok? <==> body.Some? && body.value.asteroid.Some? && body.value.strategy.Some?
    ensures reply.Ok? ==>
      var a := body.value.asteroid.value;
      var s := body.value.strategy.value;
      var d := reply.body;
      var r := d.results;
      && d.defenseEffectiveness == DefenseEffectiveness(a, s)
      && d.originalImpactProbability == ImpactProbability(m, a)
      && 0.0 <= r.impactProbability <= d.originalImpactProbability
      && r.impactProbability == MitigatedProbability(d.originalImpactProbability, d.defenseEffectiveness)
      && r.impactEnergy == MitigatedEnergy(ImpactEnergy(a), d.defenseEffectiveness)
      && (a.mass >= 0.0 ==> 0.335 * ImpactEnergy(a) <= r.impactEnergy <= ImpactEnergy(a))
      && r.craterDiameter == CraterDiameter(m, r.impactEnergy)
      && r.seismicMagnitude == SeismicMagnitude(m, r.impactEnergy)
      && r.tsunamiRisk == TsunamiRisk(r.impactEnergy, r.craterDiameter)
      && r.affectedArea == AffectedArea(m, r.craterDiameter, r.seismicMagnitude)
      && r.riskFactor == RiskFactor(r.impactProbability, r.impactEnergy, r.craterDiameter,
                                    r.seismicMagnitude, r.tsunamiRisk, r.affectedArea)
      && (d.isSuccessful <==> Successful(r.impactProbability, r.riskFactor))
      && (r.impactOccurred <==> r.impactProbability > 0.5)
      && r.impactLocation == Some(RandomLocation(latDraw, lngDraw))
      && d.riskReduction == (if d.originalImpactProbability == 0.0 then None else Some(d.defenseEffectiveness))
      && |r.trajectory| == TrajectorySteps + 1
      && forall i :: 0 <= i < |r.trajectory| ==> r.trajectory[i] == TrajectorySample(m, a, i, DeflectionAngle(a, s))
  {
    if body.None? {
      return Failed(500, "Defense simulation failed");
    }
    if body.value.asteroid.None? || body.value.strategy.None? {
      return Failed(400, "Asteroid and strategy data are required");
    }
    var a := body.value.asteroid.value;
    var s := body.value.strategy.value;
    var defenseEffectiveness := DefenseEffectiveness(a, s);
    var newTrajectory := CalculateDeflectedTrajectory(m, a, s);
    var originalImpactProbability := ImpactProbability(m, a);
    var newImpactProbability := MitigatedProbability(originalImpactProbability, defenseEffectiveness);
    var newImpactEnergy := MitigatedEnergy(ImpactEnergy(a), defenseEffectiveness);
    var newCraterDiameter := CraterDiameter(m, newImpactEnergy);
    var newSeismicMagnitude := SeismicMagnitude(m, newImpactEnergy);
    var newTsunamiRisk := TsunamiRisk(newImpactEnergy, newCraterDiameter);
    var newAffectedArea := AffectedArea(m, newCraterDiameter, newSeismicMagnitude);
    var newRiskFactor := RiskFactor(newImpactProbability, newImpactEnergy, newCraterDiameter,
                                    newSeismicMagnitude, newTsunamiRisk, newAffectedArea);
    var isSuccessful := newImpactProbability < 0.01 || newRiskFactor < 0.1;
    var riskReduction := RiskReduction(originalImpactProbability, newImpactProbability);
    var results := SimulationResults(newImpactProbability, newImpactEnergy, newCraterDiameter, newSeismicMagnitude,
                                     newTsunamiRisk, newAffectedArea, newRiskFactor, newImpactProbability > 0.5,
                                     Some(RandomLocation(latDraw, lngDraw)), newTrajectory);
    RiskReductionIsEffectiveness(originalImpactProbability, defenseEffectiveness);
    reply := Ok(DefenseResults(results, defenseEffectiveness, isSuccessful, originalImpactProbability, riskReduction));
  }

  /** (original - new) / original, or `None` for 0/0. */
  function RiskReduction(original: real, mitigated: real): Option<real> {
    if original == 0.0 then None else Some((original - mitigated) / original)
  }

  /** The relative risk reduction is exactly the effectiveness whenever it is defined. */
  lemma {:induction false} RiskReductionIsEffectiveness(original: real, effectiveness: real)
    requires 0.0 <= effectiveness <= MaxEffectiveness
    ensures RiskReduction(original, MitigatedProbability(original, effectiveness))
         == (if original == 0.0 then None else Some(effectiveness))
  {
    if original != 0.0 {
      assert original - original * (1.0 - effectiveness) == original * effectiveness;
      assert (original * effectiveness) / original == effectiveness;
    }
  }

  /** Either half of the success rule suffices on its own. */
  lemma EitherConditionSucceeds(newProbability: real, newRiskFactor: real)
    ensures newProbability < 0.01 ==> Successful(newProbability, newRiskFactor)
    ensures newRiskFactor < 0.1 ==> Successful(newProbability, newRiskFactor)
    ensures !Successful(newProbability, newRiskFactor) ==> newProbability >= 0.01 && newRiskFactor >= 0.1
  {}
}
