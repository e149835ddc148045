/**
 * The client-side simulation store (`lib/store.ts`): the records every route
 * exchanges (asteroid, simulation results, defense strategy), the fixed
 * defense-strategy catalogue, and the store object whose fields the UI
 * updates through `set`.
 *
 * The store's network calls are not performed: each asynchronous action
 * receives the outcome of its request (a parsed reply, or a thrown error) as
 * a parameter.
 */
module Store {
  import opened Numerics

  /** A near-Earth object as the UI and the routes exchange it. */
  datatype Asteroid = Asteroid(
    id: string,
    name: string,
    diameter: real,
    velocity: real,
    mass: real,
    orbitalPeriod: real,
    eccentricity: real,
    inclination: real,
    closeApproachDate: string,
    missDistance: real,
    relativeVelocity: real,
    orbitingBody: string,
    isPotentiallyHazardous: bool,
    absoluteMagnitude: real)

  datatype Vec3 = Vec3(x: real, y: real, z: real)

  /**
   * One trajectory sample. `position` is `None` when the source's arithmetic
   * leaves the finite numbers (a 0/0 or x/0 on the way to the coordinates),
   * which JSON then reports as null coordinates.
   */
  datatype TrajectoryPoint = TrajectoryPoint(position: Option<Vec3>, time: real)

  datatype LatLng = LatLng(lat: real, lng: real)

  datatype SimulationResults = SimulationResults(
    impactProbability: real,
    impactEnergy: real,
    craterDiameter: real,
    seismicMagnitude: real,
    tsunamiRisk: real,
    affectedArea: real,
    riskFactor: real,
    impactOccurred: bool,
    impactLocation: Option<LatLng>,
    trajectory: seq<TrajectoryPoint>)

  datatype DefenseStrategy = DefenseStrategy(
    id: string,
    name: string,
    description: string,
    cost: real,
    effectiveness: real,
    timeToImpact: real)

  /** The three mitigation strategies the store is created with. */
  const DefenseCatalogue: seq<DefenseStrategy> := [
    DefenseStrategy("kinetic_impactor", "Kinetic Impactor",
      "High-speed spacecraft collision to deflect asteroid", 500000000.0, 0.8, 10.0),
    DefenseStrategy("gravity_tractor", "Gravity Tractor",
      "Use gravitational pull to gradually deflect asteroid", 300000000.0, 0.6, 20.0),
    DefenseStrategy("nuclear_device", "Nuclear Device",
      "Nuclear explosion to fragment or deflect asteroid", 1000000000.0, 0.9, 5.0)
  ]

  /** The catalogue holds three strategies with distinct ids and effectiveness in [0, 1]. */
  lemma CatalogueWellFormed()
    ensures |DefenseCatalogue| == 3
    ensures forall i, j :: 0 <= i < j < |DefenseCatalogue| ==> DefenseCatalogue[i].id != DefenseCatalogue[j].id
    ensures forall s :: s in DefenseCatalogue ==> 0.0 <= s.effectiveness <= 1.0
  {}

  /** What an awaited request produced: a parsed reply, or an exception. */
  datatype Outcome<+T> = Replied(body: T) | Threw

  /** A route's JSON reply: a body, or an error message with its HTTP status. */
  datatype Reply<+T> = Ok(body: T) | Failed(status: int, error: string)

  /**
   * The parsed body of a simulation request. `fetch` throws only when the
   * request itself fails; a reply with an error status still parses, so a
   * route's `{ error }` body reaches the store like a result.
   */
  datatype ResultsBody = Results(results: SimulationResults) | ErrorBody(error: string)

  /** A snapshot of every field of the store. */
  datatype StoreState = StoreState(
    currentAsteroid: Option<Asteroid>,
    simulationResults: Option<ResultsBody>,
    availableAsteroids: seq<Asteroid>,
    isLoading: bool,
    isFetchingAsteroids: bool,
    defenseStrategies: seq<DefenseStrategy>,
    selectedDefenseStrategy: Option<DefenseStrategy>)

  const AsteroidsUrl: string := "/api/asteroids"
  const AsteroidsWithCometsUrl: string := "/api/asteroids?include_comets=true"

  class SimulationStore {
    var currentAsteroid: Option<Asteroid>
    var simulationResults: Option<ResultsBody>
    var availableAsteroids: seq<Asteroid>
    var isLoading: bool
    var isFetchingAsteroids: bool
    var defenseStrategies: seq<DefenseStrategy>
    var selectedDefenseStrategy: Option<DefenseStrategy>

    /** No action replaces the strategy catalogue. */
    ghost predicate Valid()
      reads this
    {
      defenseStrategies == DefenseCatalogue
    }

    ghost function State(): StoreState
      reads this
    {
      StoreState(currentAsteroid, simulationResults, availableAsteroids, isLoading,
        isFetchingAsteroids, defenseStrategies, selectedDefenseStrategy)
    }

    /** The initial state: nothing selected, nothing loaded, nothing loading. */
    constructor ()
      ensures Valid()
      ensures State() == StoreState(None, None, [], false, false, DefenseCatalogue, None)
    {
      currentAsteroid := None;
      simulationResults := None;
      availableAsteroids := [];
      isLoading := false;
      isFetchingAsteroids := false;
      defenseStrategies := DefenseCatalogue;
      selectedDefenseStrategy := None;
    }

    method SetCurrentAsteroid(asteroid: Asteroid)
      requires Valid()
      modifies this
      ensures Valid()
      ensures State() == old(State()).(currentAsteroid := Some(asteroid))
    {
      currentAsteroid := Some(asteroid);
    }

    method SetSimulationResults(results: SimulationResults)
      requires Valid()
      modifies this
      ensures Valid()
      ensures State() == old(State()).(simulationResults := Some(Results(results)))
    {
      simulationResults := Some(Results(results));
    }

    method SetAvailableAsteroids(asteroids: seq<Asteroid>)
      requires Valid()
      modifies this
      ensures Valid()
      ensures State() == old(State()).(availableAsteroids := asteroids)
    {
      availableAsteroids := asteroids;
    }

    method SetLoading(loading: bool)
      requires Valid()
      modifies this
      ensures Valid()
      ensures State() == old(State()).(isLoading := loading)
    {
      isLoading := loading;
    }

    method SetFetchingAsteroids(fetching: bool)
      requires Valid()
      modifies this
      ensures Valid()
      ensures State() == old(State()).(isFetchingAsteroids := fetching)
    {
      isFetchingAsteroids := fetching;
    }

    method SetSelectedDefenseStrategy(strategy: Option<DefenseStrategy>)
      requires Valid()
      modifies this
      ensures Valid()
      ensures State() == old(State()).(selectedDefenseStrategy := strategy)
    {
      selectedDefenseStrategy := strategy;
    }

    /**
     * Loads the hazardous-object list. `reply` is the `asteroids` member of the
     * parsed reply (`None` when the reply has none); `Threw` is a failed fetch.
     * The fetching flag is raised for the request and lowered whatever happens.
     */
    method FetchAsteroids(includeComets: bool, reply: Outcome<Option<seq<Asteroid>>>) returns (url: string)
      requires Valid()
      modifies this
      ensures Valid()
      ensures url == if includeComets then AsteroidsWithCometsUrl else AsteroidsUrl
      ensures reply.Replied? ==>
        State() == old(State()).(availableAsteroids := (if reply.body.Some? then reply.body.value else []),
                                 isFetchingAsteroids := false)
      ensures reply.Threw? ==> State() == old(State()).(isFetchingAsteroids := false)
    {
      isFetchingAsteroids := true;
      url := if includeComets then AsteroidsWithCometsUrl else AsteroidsUrl;
      match reply {
        case Replied(body) =>
          availableAsteroids := if body.Some? then body.value else [];
        case Threw =>
      }
      isFetchingAsteroids := false;
    }

    /**
     * Runs the enhanced simulation, falling back to the basic one when the
     * enhanced request throws. `basic` is consulted only in that case: an
     * error reply from the enhanced route is stored, not retried.
     */
    method RunSimulation(asteroid: Asteroid, enhanced: Outcome<ResultsBody>, basic: Outcome<ResultsBody>)
      requires Valid()
      modifies this
      ensures Valid()
      ensures enhanced.Replied? ==>
        State() == old(State()).(simulationResults := Some(enhanced.body), currentAsteroid := Some(asteroid),
                                 isLoading := false)
      ensures enhanced.Threw? && basic.Replied? ==>
        State() == old(State()).(simulationResults := Some(basic.body), currentAsteroid := Some(asteroid),
                                 isLoading := false)
      ensures enhanced.Threw? && basic.Threw? ==> State() == old(State()).(isLoading := false)
    {
      isLoading := true;
      match enhanced {
        case Replied(results) =>
          simulationResults := Some(results);
          currentAsteroid := Some(asteroid);
        case Threw =>
          match basic {
            case Replied(fallbackResults) =>
              simulationResults := Some(fallbackResults);
              currentAsteroid := Some(asteroid);
            case Threw =>
          }
      }
      isLoading := false;
    }

    /**
     * Runs the defense simulation and records the strategy that was tried;
     * an error reply is stored as the results.
     */
    method RunDefenseSimulation(asteroid: Asteroid, strategy: DefenseStrategy, reply: Outcome<ResultsBody>)
      requires Valid()
      modifies this
      ensures Valid()
      ensures reply.Replied? ==>
        State() == old(State()).(simulationResults := Some(reply.body), currentAsteroid := Some(asteroid),
                                 selectedDefenseStrategy := Some(strategy), isLoading := false)
      ensures reply.Threw? ==> State() == old(State()).(isLoading := false)
    {
      isLoading := true;
      match reply {
        case Replied(results) =>
          simulationResults := Some(results);
          currentAsteroid := Some(asteroid);
          selectedDefenseStrategy := Some(strategy);
        case Threw =>
      }
      isLoading := false;
    }
  }
}
