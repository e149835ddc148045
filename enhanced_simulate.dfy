/**
 * The enhanced impact estimator (`app/api/enhanced-simulate/route.ts`). It
 * refines the basic estimator with velocity and eccentricity terms and an
 * orbital-resonance bonus in the probability, an atmospheric factor on the
 * energy, simple and complex crater regimes, calibration of the seismic
 * magnitude against similar catalogue earthquakes, an ocean-proximity term in
 * the tsunami risk, a population estimate, and a seven-weight risk score.
 *
 * What the route fetches or draws is passed in: the magnitudes of the
 * earthquake catalogue (`None` when the request throws), the trajectory
 * returned by the orbital route (`None` when it is unavailable), and the
 * `Math.random()` draws of the ocean factor and of the impact site.
 */
module EnhancedSimulateRoute {
  import opened Numerics
  import opened Store
  import opened SimulateRoute

  // ---------------------------------------------------------------------------
  // Probability

  /** The enhanced score before clamping. */
  function EnhancedRawProbability(m: MathLib, a: Asteroid): real {
    var missDistance := a.missDistance / 1000000.0;
    var sizeFactor := Log10(m, a.diameter) / 10.0;
    var velocityFactor := Log10(m, a.velocity / 1000.0) / 10.0;
    var orbitalFactor := Abs(a.eccentricity - 0.5) / 0.5;
    0.1 - missDistance * 0.01 + sizeFactor * 0.05 + velocityFactor * 0.03 + orbitalFactor * 0.02
  }

  /** The Earth year, in days, that the resonance bonus measures the period against. */
  const EarthYear: real := 365.25

  /**
   * The orbital-resonance bonus: one hundredth of the period's relative
   * distance from an Earth year, and nothing for a period that is not positive.
   */
  function ResonanceBonus(period: real): (bonus: real)
    ensures bonus >= 0.0
    ensures period <= 0.0 || period == EarthYear ==> bonus == 0.0
    ensures period > 0.0 ==> bonus * 36525.0 == Abs(period - EarthYear)
  {
    if period > 0.0 then Abs(period - EarthYear) / EarthYear * 0.01 else 0.0
  }

  /**
   * The probability the route reports: the raw score floored at 0, plus the
   * resonance bonus, capped at 0.95. The bonus never lowers the probability,
   * and without a positive period there is none.
   */
  function EnhancedProbability(m: MathLib, a: Asteroid): (probability: real)
    ensures 0.0 <= probability <= 0.95
    ensures probability >= Min(Max(0.0, EnhancedRawProbability(m, a)), 0.95)
    ensures a.orbitalPeriod <= 0.0 ==> probability == Min(Max(0.0, EnhancedRawProbability(m, a)), 0.95)
    ensures a.orbitalPeriod == EarthYear ==> probability == Min(Max(0.0, EnhancedRawProbability(m, a)), 0.95)
    ensures probability < 0.95 ==> probability == Max(0.0, EnhancedRawProbability(m, a)) + ResonanceBonus(a.orbitalPeriod)
    ensures Max(0.0, EnhancedRawProbability(m, a)) + ResonanceBonus(a.orbitalPeriod) < 0.95 ==> probability < 0.95
  {
    Min(Max(0.0, EnhancedRawProbability(m, a)) + ResonanceBonus(a.orbitalPeriod), 0.95)
  }

  /** `calculateEnhancedImpactProbability`, which adds the bonus to a local score. */
  method EnhancedImpactProbability(m: MathLib, a: Asteroid) returns (probability: real)
    ensures probability == EnhancedProbability(m, a)
  {
    probability := Max(0.0, EnhancedRawProbability(m, a));
    if a.orbitalPeriod > 0.0 {
      var earthYear := EarthYear;
      var resonanceFactor := Abs(a.orbitalPeriod - earthYear) / earthYear;
      probability := probability + resonanceFactor * 0.01;
    }
    probability := Min(probability, 0.95);
  }

  // ---------------------------------------------------------------------------
  // Energy and crater

  /**
   * `calculateEnhancedImpactEnergy`: the basic kinetic energy scaled by the
   * atmospheric factor min(1, d / 1000). Objects of 1 km and more keep their
   * full energy; smaller ones never gain any.
   */
  function EnhancedImpactEnergy(a: Asteroid): (energy: real)
    ensures energy == ImpactEnergy(a) * Min(1.0, a.diameter / 1000.0)
    ensures a.diameter >= 1000.0 ==> energy == ImpactEnergy(a)
    ensures a.mass >= 0.0 && a.diameter >= 0.0 ==> 0.0 <= energy <= ImpactEnergy(a)
  {
    var v := MetresPerSecond(a.velocity);
    var kineticEnergy := 0.5 * a.mass * (v * v);
    var atmosphericFactor := Min(1.0, a.diameter / 1000.0);
    var enhancedEnergy := kineticEnergy * atmosphericFactor;
    assert enhancedEnergy / JoulesPerMegaton == (kineticEnergy / JoulesPerMegaton) * atmosphericFactor;
    enhancedEnergy / JoulesPerMegaton
  }

  datatype CraterData = CraterData(diameter: real, depth: real, ejectaRadius: real, kind: string, volume: real)

  /** Simple craters end at a simple-law diameter of 4 km. */
  const ComplexThreshold: real := 4000.0

  /**
   * `calculateEnhancedCraterData`: a crater is complex exactly when the
   * simple scaling law exceeds 4 km; a complex crater is then 1.5 times the
   * simple-law diameter, shallower (depth d/5 instead of d/3) and with a
   * wider ejecta blanket (2d instead of 1.5d). The volume is that of the
   * cylinder over the crater disk.
   */
  function EnhancedCraterData(m: MathLib, energy: real): (crater: CraterData)
    ensures crater.kind == "complex" <==> CraterDiameter(m, energy) > ComplexThreshold
    ensures crater.kind == "complex" || crater.kind == "simple"
    ensures crater.kind == "complex" ==>
      && crater.diameter == 1.5 * CraterDiameter(m, energy)
      && crater.depth * 5.0 == crater.diameter
      && crater.ejectaRadius == 2.0 * crater.diameter
    ensures crater.kind == "simple" ==>
      && crater.diameter == CraterDiameter(m, energy)
      && crater.depth * 3.0 == crater.diameter
      && crater.ejectaRadius == 1.5 * crater.diameter
    ensures crater.volume == DiskArea(crater.diameter) * crater.depth
    ensures crater.diameter >= CraterDiameter(m, energy)
  {
    var diameterSimple := 1.2 * Pow(m, energy, CraterExponent) * 1000.0;
    var diameterComplex := 1.8 * Pow(m, energy, CraterExponent) * 1000.0;
    var isComplex := diameterSimple > ComplexThreshold;
    var diameter := if isComplex then diameterComplex else diameterSimple;
    var depth := diameter / (if isComplex then 5.0 else 3.0);
    var ejectaRadius := diameter * (if isComplex then 2.0 else 1.5);
    CraterData(diameter, depth, ejectaRadius, if isComplex then "complex" else "simple",
               PI * ((diameter / 2.0) * (diameter / 2.0)) * depth)
  }

  // ---------------------------------------------------------------------------
  // Seismic effects

  datatype SeismicData = SeismicData(magnitude: real, intensity: real, damageRadius: real, dataSource: string)

  /**
   * A catalogue earthquake is similar to the impact when its Gutenberg-Richter
   * energy 10^(1.5(M + 4.8)) J differs from the impact energy in joules by
   * less than half the energy in megatons. A zero energy makes the ratio
   * infinite or undefined, so no earthquake is similar then.
   */
  predicate IsSimilarQuake(m: MathLib, energy: real, magnitude: real) {
    energy != 0.0 && Abs(Pow(m, 10.0, (magnitude + 4.8) * 1.5) - energy * JoulesPerMegaton) / energy < 0.5
  }

  /**
   * The similar earthquakes of the catalogue, each as often as the catalogue
   * lists it; `SimilarQuakesConcat` gives the catalogue order.
   */
  function SimilarQuakes(m: MathLib, energy: real, magnitudes: seq<real>): (similar: seq<real>)
    ensures |similar| <= |magnitudes|
    ensures forall x :: x in similar <==> x in magnitudes && IsSimilarQuake(m, energy, x)
    ensures forall x :: multiset(similar)[x] == if IsSimilarQuake(m, energy, x) then multiset(magnitudes)[x] else 0
  {
    if |magnitudes| == 0 then []
    else
      var rest := SimilarQuakes(m, energy, magnitudes[1..]);
      assert magnitudes == [magnitudes[0]] + magnitudes[1..];
      assert forall x :: x in magnitudes <==> x == magnitudes[0] || x in magnitudes[1..];
      if IsSimilarQuake(m, energy, magnitudes[0]) then [magnitudes[0]] + rest else rest
  }

  /** The filter keeps the first quake exactly when it is similar, then filters the rest. */
  lemma SimilarQuakesCons(m: MathLib, energy: real, x: real, s: seq<real>)
    ensures SimilarQuakes(m, energy, [x] + s) == (if IsSimilarQuake(m, energy, x) then [x] else []) + SimilarQuakes(m, energy, s)
  {
    assert ([x] + s)[0] == x && ([x] + s)[1..] == s;
  }

  /**
   * The filter keeps the catalogue order: the similar quakes of two catalogue
   * parts are those of the first part followed by those of the second.
   */
  lemma {:induction false} SimilarQuakesConcat(m: MathLib, energy: real, s: seq<real>, t: seq<real>)
    ensures SimilarQuakes(m, energy, s + t) == SimilarQuakes(m, energy, s) + SimilarQuakes(m, energy, t)
  {
    if s == [] {
      assert s + t == t;
    } else {
      var x, rest := s[0], s[1..];
      assert s == [x] + rest;
      AppendAssociative([x], rest, t);
      SimilarQuakesCons(m, energy, x, rest + t);
      SimilarQuakesCons(m, energy, x, rest);
      SimilarQuakesConcat(m, energy, rest, t);
      AppendAssociative(if IsSimilarQuake(m, energy, x) then [x] else [], SimilarQuakes(m, energy, rest),
                        SimilarQuakes(m, energy, t));
    }
  }

  function Sum(s: seq<real>): real {
    if |s| == 0 then 0.0 else s[0] + Sum(s[1..])
  }

  /** The sum of n values within [lo, hi] lies within [n·lo, n·hi]. */
  lemma {:induction false} SumBounded(s: seq<real>, lo: real, hi: real)
    requires forall i :: 0 <= i < |s| ==> lo <= s[i] <= hi
    ensures |s| as real * lo <= Sum(s) <= |s| as real * hi
  {
    if |s| > 0 {
      SumBounded(s[1..], lo, hi);
      assert (|s| - 1) as real * lo + lo == |s| as real * lo;
      assert (|s| - 1) as real * hi + hi == |s| as real * hi;
    }
  }

  /** The magnitude the route reports: the calculated one, blended with the mean similar quake if there is one. */
  ghost predicate Calibrated(m: MathLib, energy: real, useUSGSData: bool, catalogue: Option<seq<real>>) {
    useUSGSData && catalogue.Some? && |SimilarQuakes(m, energy, catalogue.value)| > 0
  }

  /**
   * The seismic record the route reports: when the catalogue is requested and
   * holds at least one similar earthquake, the calculated magnitude is
   * averaged with their mean magnitude; otherwise it stands. Intensity and
   * damage radius follow the final magnitude, and the data source names the
   * request flag only.
   */
  function EnhancedSeismic(m: MathLib, energy: real, useUSGSData: bool, catalogue: Option<seq<real>>)
    : (seismic: SeismicData)
    ensures !Calibrated(m, energy, useUSGSData, catalogue) ==> seismic.magnitude == SeismicMagnitude(m, energy)
    ensures Calibrated(m, energy, useUSGSData, catalogue) ==>
      var similar := SimilarQuakes(m, energy, catalogue.value);
      var mean := Sum(similar) / |similar| as real;
      && seismic.magnitude == (SeismicMagnitude(m, energy) + mean) / 2.0
      && Min(SeismicMagnitude(m, energy), mean) <= seismic.magnitude <= Max(SeismicMagnitude(m, energy), mean)
    ensures seismic.intensity == 1.2 * seismic.magnitude
    ensures seismic.damageRadius == SeismicRadius(m, seismic.magnitude)
    ensures seismic.dataSource == (if useUSGSData then "USGS+Calculated" else "Calculated")
  {
    var calculated := SeismicMagnitude(m, energy);
    var similar := if useUSGSData && catalogue.Some? then SimilarQuakes(m, energy, catalogue.value) else [];
    var magnitude := if |similar| > 0 then (calculated + Sum(similar) / |similar| as real) / 2.0 else calculated;
    SeismicData(magnitude, magnitude * 1.2, SeismicRadius(m, magnitude),
                if useUSGSData then "USGS+Calculated" else "Calculated")
  }

  /** `calculateEnhancedSeismicEffects`, which overwrites a local magnitude when it calibrates. */
  method EnhancedSeismicEffects(m: MathLib, energy: real, useUSGSData: bool, catalogue: Option<seq<real>>)
    returns (seismic: SeismicData)
    ensures seismic == EnhancedSeismic(m, energy, useUSGSData, catalogue)
  {
    var magnitude := SeismicMagnitude(m, energy);
    if useUSGSData {
      match catalogue {
        case Some(magnitudes) =>
          var similar := SimilarQuakes(m, energy, magnitudes);
          if |similar| > 0 {
            var avgMagnitude := Sum(similar) / |similar| as real;
            magnitude := (magnitude + avgMagnitude) / 2.0;
          }
        case None =>
      }
    }
    var intensity := magnitude * 1.2;
    var damageRadius := SeismicRadius(m, magnitude);
    seismic := SeismicData(magnitude, intensity, damageRadius, if useUSGSData then "USGS+Calculated" else "Calculated");
  }

  /**
   * A calibrated magnitude stays within the range spanned by the calculated
   * magnitude and the similar earthquakes' magnitudes.
   */
  lemma CalibratedMagnitudeWithinObservations(similar: seq<real>, calculated: real, lo: real, hi: real)
    requires |similar| > 0
    requires forall i :: 0 <= i < |similar| ==> lo <= similar[i] <= hi
    ensures var blended := (calculated + Sum(similar) / |similar| as real) / 2.0;
      Min(calculated, lo) <= blended <= Max(calculated, hi)
  {
    SumBounded(similar, lo, hi);
    QuotientBounded(Sum(similar), |similar| as real, lo, hi);
  }

  /** Dividing by a positive n preserves the bounds n·lo and n·hi as lo and hi. */
  lemma QuotientBounded(total: real, n: real, lo: real, hi: real)
    requires n > 0.0 && n * lo <= total <= n * hi
    ensures lo <= total / n <= hi
  {
    var q := total / n;
    assert q * n == total;
    assert (q - lo) * n >= 0.0 && (hi - q) * n >= 0.0;
  }

  // ---------------------------------------------------------------------------
  // Tsunami effects

  datatype TsunamiData = TsunamiData(risk: real, height: real, runupDistance: real, dataSource: string)

  /**
   * The ocean-proximity factor: 0.5 unless the catalogue is requested, and
   * then the draw stretched onto [0.2, 1), so that the factor determines the
   * draw.
   */
  function OceanProximity(useUSGSData: bool, oceanDraw: Unit): (factor: real)
    ensures 0.2 <= factor < 1.0
    ensures !useUSGSData ==> factor == 0.5
    ensures useUSGSData ==> (factor - 0.2) / 0.8 == oceanDraw
  {
    if useUSGSData then oceanDraw * 0.8 + 0.2 else 0.5
  }

  /**
   * The tsunami record the route reports: the two capped ratios of the basic
   * route averaged with the ocean-proximity factor, so that the risk is
   * (2 · basic risk + ocean) / 3 and always below 1; a wave of 10 · E^0.3
   * metres, and a run-up 100 times the wave height.
   */
  function EnhancedTsunami(m: MathLib, energy: real, crater: CraterData, useUSGSData: bool, oceanDraw: Unit)
    : (tsunami: TsunamiData)
    ensures 3.0 * tsunami.risk - 2.0 * TsunamiRisk(energy, crater.diameter) == OceanProximity(useUSGSData, oceanDraw)
    ensures tsunami.risk < 1.0
    ensures energy >= 0.0 && crater.diameter >= 0.0 ==> tsunami.risk > 0.0
    ensures tsunami.height == 10.0 * Pow(m, energy, 0.3)
    ensures PowNonNegative(m) && energy >= 0.0 ==> tsunami.height >= 0.0
    ensures tsunami.runupDistance == 100.0 * tsunami.height
    ensures tsunami.dataSource == (if useUSGSData then "USGS+Calculated" else "Calculated")
  {
    var risk := (Min(energy / 1000.0, 1.0) + Min(crater.diameter / 50000.0, 1.0) + OceanProximity(useUSGSData, oceanDraw)) / 3.0;
    var height := Pow(m, energy, 0.3) * 10.0;
    TsunamiData(risk, height, height * 100.0, if useUSGSData then "USGS+Calculated" else "Calculated")
  }

  /** A larger impact energy never gives a lower wave, where x ↦ x^0.3 is non-decreasing. */
  lemma TsunamiHeightMonotone(m: MathLib, e1: real, e2: real, crater: CraterData, useUSGSData: bool, oceanDraw: Unit)
    requires PowMonotoneInBase(m, 0.3) && 0.0 <= e1 <= e2
    ensures EnhancedTsunami(m, e1, crater, useUSGSData, oceanDraw).height
         <= EnhancedTsunami(m, e2, crater, useUSGSData, oceanDraw).height
  {
    assert Pow(m, e1, 0.3) <= Pow(m, e2, 0.3);
  }

  /** `calculateEnhancedTsunamiEffects`, which overwrites a local default factor. */
  method EnhancedTsunamiEffects(m: MathLib, energy: real, crater: CraterData, useUSGSData: bool, oceanDraw: Unit)
    returns (tsunami: TsunamiData)
    ensures tsunami == EnhancedTsunami(m, energy, crater, useUSGSData, oceanDraw)
  {
    var baseRisk := Min(energy / 1000.0, 1.0);
    var sizeFactor := Min(crater.diameter / 50000.0, 1.0);
    var oceanProximityFactor := 0.5;
    if useUSGSData {
      oceanProximityFactor := oceanDraw * 0.8 + 0.2;
    }
    var risk := (baseRisk + sizeFactor + oceanProximityFactor) / 3.0;
    var tsunamiHeight := Pow(m, energy, 0.3) * 10.0;
    var runupDistance := tsunamiHeight * 100.0;
    tsunami := TsunamiData(risk, tsunamiHeight, runupDistance, if useUSGSData then "USGS+Calculated" else "Calculated");
  }

  // ---------------------------------------------------------------------------
  // Affected areas and risk

  datatype AffectedAreas = AffectedAreas(
    craterArea: real, seismicArea: real, totalArea: real, affectedPopulation: real, populationDensity: real)

  /** Global average population density, people per km². */
  const PopulationDensity: real := 50.0

  /**
   * `calculateAffectedAreas`: crater disk and seismic damage disk, their sum,
   * and the people living on it at 50 per km² (5e-5 per m²).
   */
  function CalculateAffectedAreas(crater: CraterData, seismic: SeismicData): (areas: AffectedAreas)
    ensures areas.craterArea == DiskArea(crater.diameter)
    ensures areas.seismicArea == DiskArea(2.0 * seismic.damageRadius)
    ensures areas.totalArea == areas.craterArea + areas.seismicArea
    ensures 0.0 <= areas.craterArea <= areas.totalArea
    ensures areas.affectedPopulation == areas.totalArea * 0.00005 && areas.affectedPopulation >= 0.0
    ensures areas.populationDensity == 50.0
  {
    var craterArea := PI * ((crater.diameter / 2.0) * (crater.diameter / 2.0));
    var seismicArea := PI * (seismic.damageRadius * seismic.damageRadius);
    var totalArea := craterArea + seismicArea;
    AffectedAreas(craterArea, seismicArea, totalArea, (totalArea / 1000000.0) * PopulationDensity, PopulationDensity)
  }

  /**
   * With a damage radius derived from its magnitude, the enhanced total area
   * is the basic route's affected area for the same crater and magnitude.
   */
  lemma EnhancedAreaMatchesBasic(m: MathLib, crater: CraterData, seismic: SeismicData)
    requires seismic.damageRadius == SeismicRadius(m, seismic.magnitude)
    ensures CalculateAffectedAreas(crater, seismic).totalArea == AffectedArea(m, crater.diameter, seismic.magnitude)
  {}

  const EnhancedWeights: seq<real> := [0.25, 0.20, 0.15, 0.15, 0.10, 0.10, 0.05]

  /** The seven weights, for probability, energy, crater, seismic, tsunami, population and size, sum to 1. */
  lemma EnhancedWeightsSumToOne()
    ensures |EnhancedWeights| == 7
    ensures Sum(EnhancedWeights) == 1.0
  {}

  /**
   * `calculateEnhancedRiskFactor`: the seven-weight score capped at 1. Fed
   * the route's own estimates (probability at most 0.95, tsunami risk at most
   * 1) it stays below 1, and it is non-negative for non-negative measures.
   */
  function EnhancedRiskFactor(probability: real, energy: real, crater: CraterData, seismic: SeismicData,
                              tsunami: TsunamiData, areas: AffectedAreas, a: Asteroid): (risk: real)
    ensures risk <= 1.0
    ensures (probability >= 0.0 && energy >= 0.0 && crater.diameter >= 0.0 && seismic.magnitude >= 0.0
             && tsunami.risk >= 0.0 && areas.affectedPopulation >= 0.0 && a.diameter >= 0.0) ==> risk >= 0.0
    ensures probability <= 0.95 && tsunami.risk <= 1.0 ==> risk < 1.0
  {
    var w := EnhancedWeights;
    var riskFactor :=
      probability * w[0]
      + Min(energy / 10000.0, 1.0) * w[1]
      + Min(crater.diameter / 100000.0, 1.0) * w[2]
      + Min(seismic.magnitude / 10.0, 1.0) * w[3]
      + tsunami.risk * w[4]
      + Min(areas.affectedPopulation / 1000000.0, 1.0) * w[5]
      + Min(a.diameter / 10000.0, 1.0) * w[6];
    Min(riskFactor, 1.0)
  }

  // ---------------------------------------------------------------------------
  // Trajectory and impact site

  /**
   * `generateEnhancedTrajectory`: the orbital route's trajectory when it
   * answers, otherwise the basic route's simplified one.
   */
  method GenerateEnhancedTrajectory(m: MathLib, a: Asteroid, orbital: Option<seq<TrajectoryPoint>>)
    returns (trajectory: seq<TrajectoryPoint>)
    ensures orbital.Some? ==> trajectory == orbital.value
    ensures orbital.None? ==>
      && |trajectory| == TrajectorySteps + 1
      && forall i :: 0 <= i < |trajectory| ==> trajectory[i] == TrajectorySample(m, a, i, 0.0)
  {
    if orbital.Some? {
      return orbital.value;
    }
    trajectory := GenerateTrajectory(m, a, 0.0);
  }

  /**
   * The `Math.random()` draws of `determineImpactLocation`, in call order:
   * the uniform site, the ocean coin, and the tropical ocean site.
   */
  datatype LocationDraws = LocationDraws(lat: Unit, lng: Unit, coin: Unit, oceanLat: Unit, oceanLng: Unit)

  /** The site is moved to the tropical ocean band when the catalogue is used and the coin exceeds 0.3. */
  predicate OceanImpact(useUSGSData: bool, draws: LocationDraws) {
    useUSGSData && draws.coin > 0.3
  }

  /** A uniformly drawn tropical site: latitude in [-30, 30), longitude in [0, 360). */
  function OceanSite(latDraw: Unit, lngDraw: Unit): (location: LatLng)
    ensures -30.0 <= location.lat < 30.0 && 0.0 <= location.lng < 360.0
    ensures (location.lat + 30.0) / 60.0 == latDraw && location.lng / 360.0 == lngDraw
  {
    LatLng(latDraw * 60.0 - 30.0, lngDraw * 360.0)
  }

  /**
   * `determineImpactLocation`: a uniform site, replaced, when the coin says
   * so, by the tropical site of the two further draws.
   */
  method DetermineImpactLocation(useUSGSData: bool, draws: LocationDraws) returns (location: LatLng)
    ensures !OceanImpact(useUSGSData, draws) ==> location == RandomLocation(draws.lat, draws.lng)
    ensures OceanImpact(useUSGSData, draws) ==> location == OceanSite(draws.oceanLat, draws.oceanLng)
  {
    var lat := draws.lat * 180.0 - 90.0;
    var lng := draws.lng * 360.0 - 180.0;
    if useUSGSData {
      if draws.coin > 0.3 {
        lat := draws.oceanLat * 60.0 - 30.0;
        lng := draws.oceanLng * 360.0;
      }
    }
    location := LatLng(lat, lng);
  }

  // ---------------------------------------------------------------------------
  // The POST handler

  /** The request body; `useUSGSData` is `None` when the client leaves it out. */
  datatype EnhancedRequest = EnhancedRequest(asteroid: Option<Asteroid>, useUSGSData: Option<bool>)

  /** An absent flag defaults to true. */
  function UsesUSGSData(request: EnhancedRequest): bool {
    request.useUSGSData != Some(false)
  }

  /** The basic result fields plus the intermediate records under `enhancedData`. */
  datatype EnhancedResults = EnhancedResults(
    results: SimulationResults,
    craterData: CraterData,
    seismicData: SeismicData,
    tsunamiData: TsunamiData,
    affectedAreas: AffectedAreas,
    orbitalData: seq<TrajectoryPoint>)

  /**
   * `POST`: runs every enhanced estimate and copies the headline figures into
   * the result. A body that does not parse fails with 500, a missing
   * asteroid with 400.
   */
  method Post(m: MathLib, body: Option<EnhancedRequest>, catalogue: Option<seq<real>>, oceanDraw: Unit,
              orbital: Option<seq<TrajectoryPoint>>, draws: LocationDraws)
    returns (reply: Reply<EnhancedResults>)
    ensures body.None? <==> reply == Failed(500, "Enhanced simulation failed")
    ensures body.Some? && body.value.asteroid.None? <==> reply == Failed(400, "Asteroid data is required")
    ensures reply.Ok? <==> body.Some? && body.value.asteroid.Some?
    ensures reply.Ok? ==>
      var a := body.value.asteroid.value;
      var useUSGSData := UsesUSGSData(body.value);
      var e := reply.body;
      var r := e.results;
      && r.impactProbability == EnhancedProbability(m, a)
      && 0.0 <= r.impactProbability <= 0.95
      && r.impactEnergy == EnhancedImpactEnergy(a)
      && e.craterData == EnhancedCraterData(m, r.impactEnergy)
      && r.craterDiameter == e.craterData.diameter
      && e.seismicData == EnhancedSeismic(m, r.impactEnergy, useUSGSData, catalogue)
      && r.seismicMagnitude == e.seismicData.magnitude
      && e.seismicData.damageRadius == SeismicRadius(m, r.seismicMagnitude)
      && (e.seismicData.dataSource == "USGS+Calculated" <==> useUSGSData)
      && e.tsunamiData == EnhancedTsunami(m, r.impactEnergy, e.craterData, useUSGSData, oceanDraw)
      && r.tsunamiRisk == e.tsunamiData.risk
      && e.affectedAreas == CalculateAffectedAreas(e.craterData, e.seismicData)
      && r.affectedArea == e.affectedAreas.totalArea
      && r.affectedArea == AffectedArea(m, r.craterDiameter, r.seismicMagnitude)
      && r.riskFactor == EnhancedRiskFactor(r.impactProbability, r.impactEnergy, e.craterData, e.seismicData,
                                            e.tsunamiData, e.affectedAreas, a)
      && r.riskFactor < 1.0
      && (r.impactOccurred <==> r.impactProbability > 0.5)
      && r.impactLocation.Some?
      && (!OceanImpact(useUSGSData, draws) ==> r.impactLocation.value == RandomLocation(draws.lat, draws.lng))
      && (OceanImpact(useUSGSData, draws) ==> r.impactLocation.value == OceanSite(draws.oceanLat, draws.oceanLng))
      && (orbital.Some? ==> r.trajectory == orbital.value)
      && (orbital.None? ==> |r.trajectory| == TrajectorySteps + 1)
      && (orbital.None? ==> forall i :: 0 <= i < |r.trajectory| ==> r.trajectory[i] == TrajectorySample(m, a, i, 0.0))
      && e.orbitalData == r.trajectory
  {
    if body.None? {
      return Failed(500, "Enhanced simulation failed");
    }
    if body.value.asteroid.None? {
      return Failed(400, "Asteroid data is required");
    }
    var a := body.value.asteroid.value;
    var useUSGSData := UsesUSGSData(body.value);
    var impactProbability := EnhancedImpactProbability(m, a);
    var impactEnergy := EnhancedImpactEnergy(a);
    var craterData := EnhancedCraterData(m, impactEnergy);
    var seismicData := EnhancedSeismicEffects(m, impactEnergy, useUSGSData, catalogue);
    var tsunamiData := EnhancedTsunamiEffects(m, impactEnergy, craterData, useUSGSData, oceanDraw);
    var affectedAreas := CalculateAffectedAreas(craterData, seismicData);
    EnhancedAreaMatchesBasic(m, craterData, seismicData);
    var riskFactor := EnhancedRiskFactor(impactProbability, impactEnergy, craterData, seismicData,
                                         tsunamiData, affectedAreas, a);
    var trajectory := GenerateEnhancedTrajectory(m, a, orbital);
    var impactLocation := DetermineImpactLocation(useUSGSData, draws);
    var results := SimulationResults(impactProbability, impactEnergy, craterData.diameter, seismicData.magnitude,
                                     tsunamiData.risk, affectedAreas.totalArea, riskFactor, impactProbability > 0.5,
                                     Some(impactLocation), trajectory);
    reply := Ok(EnhancedResults(results, craterData, seismicData, tsunamiData, affectedAreas, trajectory));
  }
}
