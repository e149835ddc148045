# Meteor Madness: a Dafny model of the impact simulator's core

Meteor Madness is a web application that estimates what would happen if a
near-Earth asteroid or comet struck the Earth, and what a mitigation mission
would change. This project models the deterministic part of it: the
calculations and the data shaping behind its API routes, its client-side
store, and two classifiers of its result panels. Each module follows one
source file.

- `Numerics` (`numerics.dfy`) holds the shared vocabulary. `MathLib` carries
  the transcendental functions of JavaScript's `Math` (`log10`, `pow`, `sin`,
  `cos`, `tan`, `atan`, `sqrt`). Every calculation receives it as a parameter.
  A property that depends on how one of these functions behaves requires a
  named law, such as `Log10Monotone` or `Pythagorean`. It then holds for every
  library that obeys that law.
- `Store` (`store.dfy`) models `lib/store.ts`. It holds the records the routes
  exchange, the defense-strategy catalogue, and the `SimulationStore` class.
  Each action of that class updates its fields in place.
- `OrbitalRoute` (`orbital.dfy`) models the Kepler solver (a capped Newton
  loop), the orbit propagator, and the echoing `POST`.
- `SimulateRoute` (`simulate.dfy`) models the basic impact estimator. It covers
  probability, energy, crater, seismic magnitude, tsunami, area, weighted risk,
  the 101-point trajectory, and `POST`.
- `EnhancedSimulateRoute` (`enhanced_simulate.dfy`) models the enhanced
  estimator. It adds an atmospheric energy factor, crater regimes, calibration
  against catalogue earthquakes, an ocean term, a population estimate and a
  seven-weight risk score.
- `DefendRoute` (`defend.dfy`) models the defense evaluator. It covers
  penalised effectiveness, the deflected trajectory, mitigated probability and
  energy, the success rule and the risk reduction.
- `CometsRoute` (`comets.dfy`) models the comet catalogue route. It covers the
  filters, the limit slice, the id sanitiser, and the record transform with its
  size, velocity, mass and brightness estimates.
- `AsteroidsRoute` (`asteroids.dfy`) models the asteroid route. It covers the
  NEO record transform, the optional comet merge, the hazardous filter, the
  sort by miss distance, the cut to 20, and the mock fallback.
- `RiskFactorDisplay` (`risk_display.dfy`) models the risk panel's level
  thresholds and its colour and message choice.
- `NFTMinting` (`nft_minting.dfy`) models the NFT panel. It covers rarity
  tiers, price, metadata attributes, and the wallet and minting flags.

Numbers are reals. Random draws (`Math.random()`) are parameters of the subset
type `Unit` = [0, 1). Network replies are parameters too: an `Option` for a
reply that may be missing, and an `Outcome` (`Replied` or `Threw`) for a
request that may throw. Handlers that reassign locals, or build arrays with
`push` in loops, are methods; the loops carry invariants. Each such method
(the Kepler loop, the probability, seismic and tsunami estimators of the
enhanced route, the trajectory builders, the feed transform and the comet
slice) is proved equal to a function of its inputs, and the properties are
proved about those functions. The route handlers state every reply field in
terms of the same functions.

## Model

| member | source | states |
|---|---|---|
| Numerics.CosineBounded | app/api/simulate/route.ts:181-184 | under sin²+cos²=1 every cosine the trajectory uses lies in [-1, 1] |
| Numerics.RoundIsNearest | app/api/comets/route.ts:100 | `Math.round` gives the integer within half a unit, halves rounding up |
| Store.CatalogueWellFormed | lib/store.ts:87-112 | the strategy catalogue has exactly three entries, with pairwise distinct ids and every effectiveness in [0, 1] |
| Store.SimulationStore.constructor | lib/store.ts:82-86 | the initial state has no asteroid, no results, an empty list, both loading flags false, the catalogue, and no selected strategy |
| Store.SimulationStore.SetCurrentAsteroid | lib/store.ts:116 | only `currentAsteroid` changes |
| Store.SimulationStore.SetSimulationResults | lib/store.ts:117 | only `simulationResults` changes |
| Store.SimulationStore.SetAvailableAsteroids | lib/store.ts:118 | only `availableAsteroids` changes |
| Store.SimulationStore.SetLoading | lib/store.ts:119 | only `isLoading` changes |
| Store.SimulationStore.SetFetchingAsteroids | lib/store.ts:120 | only `isFetchingAsteroids` changes |
| Store.SimulationStore.SetSelectedDefenseStrategy | lib/store.ts:121 | only `selectedDefenseStrategy` changes |
| Store.SimulationStore.FetchAsteroids | lib/store.ts:124-136 | the URL carries `include_comets=true` exactly when asked; on a reply the list becomes the reply's list or []; on a throw the list is unchanged; the fetching flag ends false either way; nothing else changes |
| Store.SimulationStore.RunSimulation | lib/store.ts:138-172 | the enhanced reply's parsed body, results or an `{ error }` object, is stored with the asteroid; the basic route is used only when the enhanced request throws; with both throwing the results stay as they were; `isLoading` ends false; nothing else changes |
| Store.SimulationStore.RunDefenseSimulation | lib/store.ts:174-192 | on a reply it records the parsed body (results or an `{ error }` object), the asteroid and the strategy tried; on a throw only `isLoading` changes; `isLoading` ends false |
| OrbitalRoute.KeplerRun | app/api/orbital/route.ts:187-191 | for every eccentricity, the state where the loop stops: its last step is not above tolerance (a NaN step never is, as `Math.abs(NaN) > tol` is false) or the cap is reached |
| OrbitalRoute.NewtonUpdate | app/api/orbital/route.ts:188-190 | one pass adds one iteration; from a finite E with 1 − e·cos E ≠ 0 the new E is E plus a finite step; a zero denominator gives an infinite E and step (NaN for 0/0); a non-finite E gives NaN; E and step are finite together |
| OrbitalRoute.NewtonCorrection | app/api/orbital/route.ts:188 | where 1 − e·cos E ≠ 0, the step times that denominator is the residual M − (E − e·sin E): the Newton equation |
| OrbitalRoute.SolveKeplersEquation | app/api/orbital/route.ts:182-194 | for every M, e, tolerance and cap, the loop returns the anomaly of the stopping state `KeplerRun` from E = M, deltaE = 1, finite or not |
| OrbitalRoute.KeplerIterationBounds | app/api/orbital/route.ts:184-191 | for every eccentricity, with tolerance below 1 and a positive cap, the loop runs at least once and at most `maxIterations` times, and stops with a step not above tolerance or at the cap |
| OrbitalRoute.NonFiniteStopsWithinOnePass | app/api/orbital/route.ts:187-191 | once E is not finite the loop ends within one more pass: a NaN state stops at once, an infinite one becomes NaN and then stops |
| OrbitalRoute.KeplerRunStaysFinite | app/api/orbital/route.ts:182-194 | when 1 − e·cos E never vanishes (as for 0 <= e < 1), every anomaly the loop returns is finite |
| OrbitalRoute.CircularOrbitSolvedExactly | app/api/orbital/route.ts:183-191 | for e = 0 the solver stops after one iteration, with the finite step 0 and E = M |
| OrbitalRoute.PropagateOrbit | app/api/orbital/route.ts:141-180 | numPoints + 1 samples; sample i is the orbit point at time i·(timeSpan/numPoints) |
| OrbitalRoute.SampleTimesSpanInterval | app/api/orbital/route.ts:145-148 | sample times start at 0, end at timeSpan, are evenly spaced, and are non-decreasing for a non-negative span |
| OrbitalRoute.MeanAnomalyLinear | app/api/orbital/route.ts:149 | the mean anomaly starts at the epoch value and grows by t/(a·365.25)·360, the day/second mismatch kept |
| OrbitalRoute.RotationKeepsUnitLength | app/api/orbital/route.ts:161-167 | the rotation by node, inclination and in-plane angle keeps a unit direction of unit length |
| OrbitalRoute.RotationAlgebra | app/api/orbital/route.ts:161-167 | the three rotated components, written from the sines and cosines of the three angles, have squares summing to one |
| OrbitalRoute.OrbitPointOnRadiusSphere | app/api/orbital/route.ts:158-175 | every sample's x² + y² + z² is its reported radius squared (both scaled by 149.6e6) |
| OrbitalRoute.BoundOrbitPropagatable | app/api/orbital/route.ts:155-158 | for 0 <= e < 1 and a ≠ 0 no Newton, anomaly or radius denominator vanishes |
| OrbitalRoute.Post | app/api/orbital/route.ts:121-139 | a missing body or missing elements gives 500; otherwise the elements, timeSpan and numPoints are echoed beside the propagated trajectory |
| SimulateRoute.ImpactProbability | app/api/simulate/route.ts:79-89 | the probability lies in [0, 0.95]: 0 when the raw score is negative, 0.95 when it exceeds 0.95, and the raw score itself in between |
| SimulateRoute.ProbabilityNonIncreasingInMissDistance | app/api/simulate/route.ts:80-88 | a larger miss distance never raises the probability |
| SimulateRoute.ProbabilityNonDecreasingInDiameter | app/api/simulate/route.ts:80-88 | where log10 is non-decreasing, a larger object at the same miss distance never gets a lower probability |
| SimulateRoute.ImpactEnergy | app/api/simulate/route.ts:91-100 | the energy is non-negative for a non-negative mass |
| SimulateRoute.EnergyQuadrupledByDoubledVelocity | app/api/simulate/route.ts:91-100 | doubling the speed quadruples the energy |
| SimulateRoute.CraterDiameter | app/api/simulate/route.ts:102-107 | a non-negative energy gives a non-negative diameter when powers of non-negative bases are non-negative |
| SimulateRoute.CraterDiameterMonotone | app/api/simulate/route.ts:102-107 | more energy never gives a smaller crater |
| SimulateRoute.SeismicMagnitude | app/api/simulate/route.ts:109-113 | an energy of at least 1 MT gives magnitude at least 4.4 |
| SimulateRoute.SeismicMagnitudeMonotone | app/api/simulate/route.ts:109-113 | more energy never gives a smaller magnitude |
| SimulateRoute.TsunamiRisk | app/api/simulate/route.ts:115-122 | the risk is at most 1, non-negative for non-negative inputs, and exactly 1 iff energy >= 1000 and diameter >= 50000 |
| SimulateRoute.DiskArea | app/api/simulate/route.ts:126-128 | a disk's area is non-negative |
| SimulateRoute.AffectedArea | app/api/simulate/route.ts:124-131 | the area is at least the crater disk, and the excess is exactly the seismic damage disk |
| SimulateRoute.RiskFactor | app/api/simulate/route.ts:133-166 | the risk is at most 1, non-negative for non-negative measures, and below 1 for probability <= 0.95 and tsunami risk <= 1 |
| SimulateRoute.RiskWeightsSumToOne | app/api/simulate/route.ts:144-163 | the five weights sum to 1, and the score is 1 when every normalised term is 1 |
| SimulateRoute.RiskIgnoresAffectedArea | app/api/simulate/route.ts:156-163 | the risk factor is the same for any affected area |
| SimulateRoute.GenerateTrajectory | app/api/simulate/route.ts:168-191 | 101 points; point i is the trajectory sample i |
| SimulateRoute.TrajectorySpacing | app/api/simulate/route.ts:171-176 | times start at 0 and end at the period in seconds; angle i is i/100·2π plus the deflection |
| SimulateRoute.TrajectorySampleOnConic | app/api/simulate/route.ts:179-187 | a finite point lies on the conic: x² + y² = r² for the polar radius at its angle |
| SimulateRoute.RandomLocation | app/api/simulate/route.ts:50-53 | the site's latitude lies in [-90, 90) and its longitude in [-180, 180) |
| SimulateRoute.Post | app/api/simulate/route.ts:10-77 | a bad body gives 500 and a missing asteroid 400; otherwise every field is its estimate, chained in the route's order, and `impactOccurred` iff probability > 0.5 |
| EnhancedSimulateRoute.ResonanceBonus | app/api/enhanced-simulate/route.ts:100-104 | the bonus is non-negative; 0 without a positive period or at exactly one Earth year; otherwise 36525 times it is the period's distance from 365.25 days |
| EnhancedSimulateRoute.EnhancedProbability | app/api/enhanced-simulate/route.ts:84-107 | the probability lies in [0, 0.95] and is never below the clamped raw score, to which it is equal without a positive period or at one Earth year; it is below the cap exactly when the raw score floored at 0 plus the resonance bonus is, and then equals that sum |
| EnhancedSimulateRoute.EnhancedImpactProbability | app/api/enhanced-simulate/route.ts:84-107 | the method that reassigns a local score returns `EnhancedProbability` |
| EnhancedSimulateRoute.EnhancedImpactEnergy | app/api/enhanced-simulate/route.ts:109-118 | the energy is the basic energy times min(1, d/1000): equal to it from 1 km, never above it for non-negative size and mass |
| EnhancedSimulateRoute.EnhancedCraterData | app/api/enhanced-simulate/route.ts:120-145 | complex iff the simple law exceeds 4 km; complex is 1.5× wider, depth d/5 and ejecta 2d; simple has depth d/3 and ejecta 1.5d; the volume is the disk times the depth |
| EnhancedSimulateRoute.SimilarQuakes | app/api/enhanced-simulate/route.ts:158-161 | each catalogue magnitude that passes the similarity test is kept exactly as often as the catalogue lists it, and no other magnitude is kept |
| EnhancedSimulateRoute.SimilarQuakesCons | app/api/enhanced-simulate/route.ts:158-161 | the first quake is kept iff it is similar, followed by the filtered rest |
| EnhancedSimulateRoute.SimilarQuakesConcat | app/api/enhanced-simulate/route.ts:158-161 | the filter keeps catalogue order: filtering two parts and joining them is filtering their join |
| EnhancedSimulateRoute.SumBounded | app/api/enhanced-simulate/route.ts:164 | n values in [lo, hi] sum to within [n·lo, n·hi] |
| EnhancedSimulateRoute.EnhancedSeismic | app/api/enhanced-simulate/route.ts:147-182 | with the catalogue on and a similar quake, the magnitude is (calculated + mean)/2 and lies between them, otherwise the calculated one; intensity 1.2·M; radius from M; source label from the flag only |
| EnhancedSimulateRoute.EnhancedSeismicEffects | app/api/enhanced-simulate/route.ts:147-182 | the method that overwrites a local magnitude returns `EnhancedSeismic` |
| EnhancedSimulateRoute.CalibratedMagnitudeWithinObservations | app/api/enhanced-simulate/route.ts:163-166 | a calibrated magnitude stays within the range of the calculated and observed magnitudes |
| EnhancedSimulateRoute.OceanProximity | app/api/enhanced-simulate/route.ts:189-200 | 0.5 without the catalogue; with it, the draw stretched onto [0.2, 1), from which the draw is recovered as (factor − 0.2)/0.8 |
| EnhancedSimulateRoute.EnhancedTsunami | app/api/enhanced-simulate/route.ts:184-214 | 3·risk − 2·(basic risk) is the ocean factor; the risk is below 1 and positive for non-negative inputs; the height is 10·E^0.3 and non-negative where powers are; the run-up is 100× the height; the source label follows the flag |
| EnhancedSimulateRoute.TsunamiHeightMonotone | app/api/enhanced-simulate/route.ts:205 | more energy never lowers the wave, where x ↦ x^0.3 is non-decreasing |
| EnhancedSimulateRoute.EnhancedTsunamiEffects | app/api/enhanced-simulate/route.ts:184-214 | the method that overwrites a local default factor returns `EnhancedTsunami` |
| EnhancedSimulateRoute.CalculateAffectedAreas | app/api/enhanced-simulate/route.ts:216-232 | the total is crater disk plus seismic disk; population is total·5e-5 and non-negative; density 50 |
| EnhancedSimulateRoute.EnhancedAreaMatchesBasic | app/api/enhanced-simulate/route.ts:216-232 | the enhanced total area equals the basic route's affected area |
| EnhancedSimulateRoute.EnhancedWeightsSumToOne | app/api/enhanced-simulate/route.ts:246-272 | the seven weights sum to 1 |
| EnhancedSimulateRoute.EnhancedRiskFactor | app/api/enhanced-simulate/route.ts:234-273 | the risk is at most 1, non-negative for non-negative measures, and below 1 for the route's own probability and tsunami bounds |
| EnhancedSimulateRoute.GenerateEnhancedTrajectory | app/api/enhanced-simulate/route.ts:275-323 | the orbital route's trajectory when it answers, otherwise the 101 samples of the basic trajectory |
| EnhancedSimulateRoute.OceanSite | app/api/enhanced-simulate/route.ts:338-339 | the site lies in latitude [-30, 30) and longitude [0, 360), and is 60·draw − 30 and 360·draw, so the draws are recovered from it |
| EnhancedSimulateRoute.DetermineImpactLocation | app/api/enhanced-simulate/route.ts:325-344 | the uniform site, unless the catalogue is on and the coin exceeds 0.3; then the `OceanSite` of the two further draws |
| EnhancedSimulateRoute.Post | app/api/enhanced-simulate/route.ts:5-82 | 500 for a bad body and 400 for a missing asteroid; otherwise probability, energy, crater, seismic, tsunami, areas and risk are the functions above applied in the route's order, the location is the uniform or ocean site as drawn, the trajectory is the orbital reply or the basic samples, risk < 1, and `impactOccurred` iff probability > 0.5 |
| DefendRoute.SizePenalty | app/api/defend/route.ts:87-94 | the size factor lies in [0.7, 1] and is 0.7 from 1 km |
| DefendRoute.VelocityPenalty | app/api/defend/route.ts:88-94 | the speed factor lies in [0.8, 1] and is 0.8 from 50000 km/h |
| DefendRoute.TimePenalty | app/api/defend/route.ts:91-94 | the time factor is at most 1, exactly 1 iff 20 years or more remain, and at least 0.7 for a non-negative lead time |
| DefendRoute.DefenseEffectiveness | app/api/defend/route.ts:83-97 | the effectiveness lies in [0, 0.95] and never exceeds the strategy's base for non-negative size, speed and base |
| DefendRoute.PenaltiesReduce | app/api/defend/route.ts:84-94 | the penalised effectiveness is at most the base effectiveness |
| DefendRoute.NoTimePenaltyWithTwentyYears | app/api/defend/route.ts:91-94 | with 20 or more years left only the size and speed penalties apply |
| DefendRoute.DeflectionAngle | app/api/defend/route.ts:100-101 | the deflection lies in [0, 0.95·π/6] |
| DefendRoute.CalculateDeflectedTrajectory | app/api/defend/route.ts:99-124 | 101 points; point i is the basic trajectory sample with its angle advanced by the deflection |
| DefendRoute.MitigatedProbability | app/api/defend/route.ts:19-20 | the new probability lies in [5% of the original, the original], and equals it without effect |
| DefendRoute.MitigatedEnergy | app/api/defend/route.ts:23 | at least 33.5% of a non-negative energy remains, and never more than all of it |
| DefendRoute.Post | app/api/defend/route.ts:4-81 | 500 for a bad body and 400 without asteroid or strategy; otherwise the estimates are recomputed from the mitigated energy, success follows the OR rule, and the risk reduction is the effectiveness or null |
| DefendRoute.RiskReductionIsEffectiveness | app/api/defend/route.ts:72 | (original − new)/original is exactly the effectiveness whenever the original is not 0 |
| DefendRoute.EitherConditionSucceeds | app/api/defend/route.ts:48 | either condition alone gives success, and failure means both thresholds are missed |
| CometsRoute.Filter | app/api/comets/route.ts:25-33 | each comet that passes the filter is kept exactly as often as the table lists it, and no other comet is kept |
| CometsRoute.FilterCons | app/api/comets/route.ts:25-33 | the first comet is kept iff it passes, followed by the filtered rest |
| CometsRoute.FilterConcat | app/api/comets/route.ts:25-33 | the filter keeps table order: filtering two parts and joining them is filtering their join |
| CometsRoute.FilterKeepingAll | app/api/comets/route.ts:22 | a filter that keeps every comet returns the table unchanged, in order |
| CometsRoute.PeriodicKeepsWholeTable | app/api/comets/route.ts:28-33 | the periodic filter keeps the whole table |
| CometsRoute.NearEarthFilterExact | app/api/comets/route.ts:25-27 | `near_earth` keeps exactly the table's comets with MOID < 0.05 |
| CometsRoute.PeriodicFilterExact | app/api/comets/route.ts:28-33 | `periodic` keeps exactly the comets named "P/…" or with period < 200 years |
| CometsRoute.SliceEnd | app/api/comets/route.ts:19-37 | the slice end never passes the table's end |
| CometsRoute.SanitiseId | app/api/comets/route.ts:38 | the id has the name's length, keeps every ASCII letter and digit, puts `_` elsewhere, and holds only [A-Za-z0-9_] |
| CometsRoute.SanitiseIdIdempotent | app/api/comets/route.ts:38 | sanitising a sanitised id changes nothing |
| CometsRoute.EstimateCometDiameter | app/api/comets/route.ts:80-101 | for 0 <= e <= 1 the diameter lies in [375, 6250]; at e = 0.5 it lies in the perihelion band ([2000, 5000] near, [500, 2000] far) |
| CometsRoute.CometVelocity | app/api/comets/route.ts:103-119 | 30000 when perihelion, aphelion or period is 0, or when the semi-major axis is not positive (NaN in the route); otherwise the rounded vis-viva speed, or 30000 when that rounds to 0; never 0, and positive when square roots are non-negative |
| CometsRoute.VisVivaIsCircularSpeed | app/api/comets/route.ts:111-116 | where square roots square back, the route's speed with its 3600/1000 scaling undone squares to GM/a, the vis-viva speed at r = a |
| CometsRoute.EstimateCometMass | app/api/comets/route.ts:121-130 | the mass is non-negative for 0 <= e <= 1 |
| CometsRoute.EstimateCometMagnitude | app/api/comets/route.ts:132-151 | the magnitude lies in [10, 20], at most 13 for perihelion < 0.5 AU and at least 16 from 2 AU |
| CometsRoute.TransformComet | app/api/comets/route.ts:37-60 | the sanitised id; name or designation; the diameter, mass and magnitude estimators, each with its own draw; velocity = relative velocity = `CometVelocity`; period, eccentricity, inclination, node, argument of periapsis, epoch and perihelion time copied; hazardous iff MOID < 0.05; miss distance MOID·149.6e6 km; perihelion and aphelion in km; "Earth", "comet" and today's date |
| CometsRoute.FilterAndLimit | app/api/comets/route.ts:22-37 | the rows all pass the filter; without a filter they are a prefix of the table; for limit >= 0 they are the first min(limit, n) filtered comets |
| CometsRoute.Respond | app/api/comets/route.ts:37-71 | `total` is the number of comets; comet i is row i transformed with its own draws; the applied filter and limit are echoed; the data source and note are the route's fixed labels |
| CometsRoute.Get | app/api/comets/route.ts:16-77 | the reply is the filtered, sliced and transformed table; with `near_earth` every comet returned is hazardous |
| CometsRoute.NearEarthRepliesHazardous | app/api/comets/route.ts:25-51 | for any table, a `near_earth` reply holds only hazardous comets |
| AsteroidsRoute.NeoMass | app/api/asteroids/route.ts:47-49 | the mass is non-negative for a non-negative diameter |
| AsteroidsRoute.NeoDiameterDecreasingInMagnitude | app/api/asteroids/route.ts:44 | a fainter object (larger H) never gets a larger diameter |
| AsteroidsRoute.NeoMassMonotone | app/api/asteroids/route.ts:47-49 | a larger diameter never gives a smaller mass |
| AsteroidsRoute.TransformNeo | app/api/asteroids/route.ts:42-66 | id, name, hazard flag and H are copied; the diameter and mass are the rounded H-to-size and sphere estimates; velocity, miss distance, date and orbiting body come from the first close approach, period, eccentricity and inclination from the orbit data, each missing field taking the route's default (0, "" or "Earth") |
| AsteroidsRoute.DayAsteroids | app/api/asteroids/route.ts:42-67 | one transformed record per record of the day, in order |
| AsteroidsRoute.FeedAsteroidsCount | app/api/asteroids/route.ts:41-68 | the feed yields one object per NEO record |
| AsteroidsRoute.TransformFeed | app/api/asteroids/route.ts:38-68 | the nested loops produce exactly the feed's records, transformed, date by date |
| AsteroidsRoute.Hazardous | app/api/asteroids/route.ts:75 | each hazardous object is kept exactly as often as the input lists it, and no other object is kept |
| AsteroidsRoute.HazardousCons | app/api/asteroids/route.ts:75 | the first object is kept iff it is hazardous, followed by the filtered rest |
| AsteroidsRoute.HazardousConcat | app/api/asteroids/route.ts:75 | the filter keeps input order: filtering two parts and joining them is filtering their join |
| AsteroidsRoute.HeadIsClosest | app/api/asteroids/route.ts:76 | the first object of a sorted list is the closest |
| AsteroidsRoute.ConsSorted | app/api/asteroids/route.ts:76 | an object no farther than every object of a sorted list can be put in front and the list stays sorted |
| AsteroidsRoute.Insert | app/api/asteroids/route.ts:76 | inserting into a sorted list keeps it sorted and adds exactly that object |
| AsteroidsRoute.SortByMissDistance | app/api/asteroids/route.ts:76 | the result is sorted by miss distance and is a permutation of the input |
| AsteroidsRoute.ClosestHazardous | app/api/asteroids/route.ts:74-77 | all hazardous; sorted; min(#hazardous, 20) objects; a sub-multiset of the input; no hazardous object left out is closer than one kept |
| AsteroidsRoute.ClosestSelection | app/api/asteroids/route.ts:74-77 | the first n of the sorted hazardous list have every property of the selection |
| AsteroidsRoute.PrefixSorted | app/api/asteroids/route.ts:76-77 | the first n of a list sorted by miss distance are sorted |
| AsteroidsRoute.PrefixHazardous | app/api/asteroids/route.ts:75-77 | the first n of the sorted hazardous list are hazardous |
| AsteroidsRoute.PrefixFromInput | app/api/asteroids/route.ts:75-77 | the first n of the sorted hazardous list are a sub-multiset of the input |
| AsteroidsRoute.PrefixNearest | app/api/asteroids/route.ts:76-77 | no hazardous object outside the first n is closer than one inside |
| AsteroidsRoute.OmittedIsNoCloser | app/api/asteroids/route.ts:76-77 | in a sorted list, an object past the cut is no closer than any before it |
| AsteroidsRoute.Get | app/api/asteroids/route.ts:9-136 | without a NEO reply, the two mocks with an error note; otherwise the closest hazardous of NEOs plus comets (only when `include_comets` is "true", [] if that fetch throws), at most 20, `total` their count, the dates or their defaults, the source flags, the API-key label, and the note that says whether comets are included |
| AsteroidsRoute.MockListsNonHazardous | app/api/asteroids/route.ts:95-128 | the mock list includes a non-hazardous object, so it is not filtered |
| RiskFactorDisplay.GetRiskLevel | components/RiskFactorDisplay.tsx:19-24 | Low below 0.2, Medium in [0.2, 0.5), High in [0.5, 0.8), Critical from 0.8, each as an iff |
| RiskFactorDisplay.RiskLevelMonotone | components/RiskFactorDisplay.tsx:19-24 | a larger risk factor never gives a lower level |
| RiskFactorDisplay.EveryRiskLevelReached | components/RiskFactorDisplay.tsx:19-24 | every level is produced by some risk factor in [0, 1) |
| RiskFactorDisplay.NameSelectsLevel | components/RiskFactorDisplay.tsx:62-196 | comparing the level's name selects that level's own bar colour and interpretation message, never another level's branch or the empty fallback |
| RiskFactorDisplay.LevelsDistinguishable | components/RiskFactorDisplay.tsx:19-66 | distinct levels have distinct names, text colours, backgrounds and bar colours |
| RiskFactorDisplay.Render | components/RiskFactorDisplay.tsx:10-196 | the placeholder iff results or asteroid is missing; otherwise the level's name, text and badge colours, the level's own bar colour and interpretation message, and the percentage as bar width |
| NFTMinting.GetRarityLevel | components/NFTMinting.tsx:23-29 | five tiers split at 0.1, 0.3, 0.6 and 0.8, each as an iff |
| NFTMinting.RarityMonotone | components/NFTMinting.tsx:23-29 | a larger risk factor never gives a lower tier |
| NFTMinting.RarityAgreesWithRiskLevel | components/NFTMinting.tsx:23-29 | Legendary exactly when the risk panel says Critical; Common only at a Low risk |
| NFTMinting.GetNFTValue | components/NFTMinting.tsx:31-36 | the price is at least 0.01 ETH for non-negative risk and energy |
| NFTMinting.NFTValueLinearInRisk | components/NFTMinting.tsx:31-36 | each unit of risk adds 0.1 ETH, so the price strictly increases in the risk |
| NFTMinting.NFTValueMonotoneInEnergy | components/NFTMinting.tsx:31-36 | more energy never lowers the price |
| NFTMinting.NFTMetadata | components/NFTMinting.tsx:58-91 | the name ends with " Impact Simulation"; there are exactly 10 attributes in the listed order, the last the rarity |
| NFTMinting.MintingPanel.constructor | components/NFTMinting.tsx:10-12 | nothing connected, minting or minted |
| NFTMinting.MintingPanel.ConnectWallet | components/NFTMinting.tsx:41-44 | the wallet is connected and nothing else changes |
| NFTMinting.MintingPanel.MintNFT | components/NFTMinting.tsx:46-50 | without a wallet nothing changes; with one, minting starts and a completion timer is pending |
| NFTMinting.MintingPanel.CompleteMint | components/NFTMinting.tsx:52-55 | a pending timer fires: minting stops and succeeds |
| NFTMinting.ConnectThenMint | components/NFTMinting.tsx:41-55 | connect, mint and completion always end in a successful mint |
| NFTMinting.Placeholder | components/NFTMinting.tsx:14-21 | the placeholder shows iff the asteroid or the results are missing |

## Left out

- Network I/O is not modelled. This covers the NASA feeds, the USGS catalogue, the orbital route's `GET`, and the store's `fetch` calls. Each reply is a parameter: an `Option`, or a `Replied`/`Threw` outcome. `app/api/usgs/route.ts` is not part of this model.
- IEEE floating point is not modelled: rounding, overflow, and `toFixed`/`toLocaleString` formatting. Numbers are reals. Only the Kepler loop tells finite values from Infinity and NaN, because its division by 1 − e·cos E can produce them and its stopping test depends on them. A formatted NFT attribute keeps its number, its decimals and its suffix.
- OrbitalRoute.PropagateOrbit: the propagator requires `Propagatable` (no vanishing Newton, anomaly or radius denominator) and numPoints ≠ 0, so its NaN samples are not modelled; `BoundOrbitPropagatable` shows every bound orbit qualifies. In the simplified trajectories a non-finite point is a `None` position instead.
- NASA's numeric strings are taken as already-parsed reals. The comet table's fields are reals as well, so `parseFloat` of an empty or malformed field is not modelled.
- `Math.random()` draws are parameters in [0, 1).
- The transcendental functions are parameters. Their numeric accuracy is not modelled; only the laws named in `Numerics` are assumed, by the lemmas that require them.
- Rendering, layout and animation of the two panels are left out. The NFT metadata's description and SVG image are left out too.
- The minting delay (`setTimeout`) is a separate `CompleteMint` event. The panel does not stop a second mint while one is pending; each mint adds a pending timer.
- The regex id sanitiser works on UTF-16 code units. The model works on Dafny characters.
- The two mass formulas divide the diameter by 2000 ("km" named as metres), and the comet velocity divides km/s by 1000 before converting to km/h. Both are kept as written. The orbit propagator's degree/radian and day/second mixes are kept as written too.
- `Math.pow(r, 3)` is written as r·r·r, and `Math.pow(x, 2)` as x·x.
- When comets are merged, only the fields the asteroid records share are kept. The comet-only fields do not take part in filtering or sorting.
- The sort's stability among equal miss distances is not stated.
- The enhanced route's `generateSimplifiedTrajectory` and the defense route's copies of the basic helpers (`app/api/defend/route.ts:126-192`) are the same formulas as the basic route. Each is modelled once, in `SimulateRoute`.
- The catalogue's `fetch` failure, the similarity filter and the `reduce` are modelled, but the catalogue's own parsing is not.
- SimulateRoute.ImpactEnergy: only non-negativity is stated. Strict positivity for positive mass and speed is not.
- CometsRoute.CometVelocity: a non-positive semi-major axis (where the route takes the square root of a negative number and falls back to 30000 through NaN) returns 30000 directly.
- CometsRoute.Get: it does not state that the reply holds at most nine comets. The distinct-comet bound is stated generically by `FilterAndLimit`.
- RiskFactorDisplay.LevelsDistinguishable: the interpretation messages are not proved pairwise distinct. Only names and colours are.
- NFTMinting.NFTMetadata: the trait names are not proved pairwise distinct. Their order is stated.
- AsteroidsRoute.Get: the NEO query's date defaults (today, a week later) are parameters. The clock is not modelled.
- The comet route's 500 reply is not modelled, because nothing in the modelled pipeline throws.
