/**
 * The asteroid list route (`app/api/asteroids/route.ts`, GET): NASA's
 * near-Earth-object feed turned into asteroid records, optionally merged with
 * the near-Earth comets, then cut down to the twenty potentially hazardous
 * objects that pass closest; a fixed pair of mock records when the NASA
 * request fails.
 *
 * Both requests are parameters: the feed (or `None` when the request threw)
 * and the outcome of the comet request. The NASA feed's numeric strings are
 * given already parsed.
 */
module AsteroidsRoute {
  import opened Numerics
  import opened Store

  // ---------------------------------------------------------------------------
  // The NASA feed and its transform

  /** `close_approach_data[0]`, each field possibly missing. */
  datatype CloseApproach = CloseApproach(
    kilometersPerHour: Option<real>,
    closeApproachDate: Option<string>,
    missDistanceKm: Option<real>,
    orbitingBody: Option<string>)

  /** `orbital_data`, each field possibly missing. */
  datatype OrbitalData = OrbitalData(
    periodDays: Option<real>,
    eccentricity: Option<real>,
    inclination: Option<real>)

  /** One near-Earth object of the feed. */
  datatype NeoRecord = NeoRecord(
    id: string,
    name: string,
    absoluteMagnitudeH: real,
    closeApproach: Option<CloseApproach>,
    orbitalData: Option<OrbitalData>,
    isPotentiallyHazardousAsteroid: bool)

  /** `near_earth_objects`: the objects of each date, in the feed's key order. */
  type Feed = seq<(string, seq<NeoRecord>)>

  /** `x || 0` for a number that may be missing. */
  function OrZero(x: Option<real>): real {
    if x.Some? then x.value else 0.0
  }

  /** `s || fallback` for a string that may be missing or empty. */
  function OrDefault(s: Option<string>, fallback: string): string {
    if s.Some? && s.value != "" then s.value else fallback
  }

  /** Asteroid density, kg/m³. */
  const NeoDensity: real := 2600.0

  /** The diameter estimate from absolute magnitude: 10^((6.259 - log10 H)/2.5) · 1329. */
  function NeoDiameter(m: MathLib, h: real): real {
    Pow(m, 10.0, (6.259 - Log10(m, h)) / 2.5) * 1329.0
  }

  /** A sphere of density 2600 whose radius is the diameter divided by 2 and by 1000. */
  function NeoMass(diameter: real): (mass: real)
    ensures diameter >= 0.0 ==> mass >= 0.0
  {
    var radius := diameter / 2.0 / 1000.0;
    (4.0 / 3.0) * PI * (radius * radius * radius) * NeoDensity
  }

  /** A brighter object (smaller H) is estimated at least as large. */
  lemma NeoDiameterDecreasingInMagnitude(m: MathLib, h1: real, h2: real)
    requires Log10Monotone(m) && PowMonotoneInExponent(m, 10.0)
    requires 0.0 < h1 <= h2
    ensures NeoDiameter(m, h2) <= NeoDiameter(m, h1)
  {
    var x1, x2 := (6.259 - Log10(m, h1)) / 2.5, (6.259 - Log10(m, h2)) / 2.5;
    assert Log10(m, h1) <= Log10(m, h2);
    assert x2 <= x1;
    assert Pow(m, 10.0, x2) <= Pow(m, 10.0, x1);
  }

  /** A larger diameter never gives a smaller mass. */
  lemma {:induction false} NeoMassMonotone(d1: real, d2: real)
    requires 0.0 <= d1 <= d2
    ensures NeoMass(d1) <= NeoMass(d2)
  {
    var r1, r2 := d1 / 2.0 / 1000.0, d2 / 2.0 / 1000.0;
    assert 0.0 <= r1 <= r2;
    assert r1 * r1 <= r2 * r2 by {
      assert r1 * r1 <= r1 * r2 <= r2 * r2;
    }
    assert r1 * r1 * r1 <= r2 * r2 * r2 by {
      assert r1 * r1 * r1 <= r2 * r2 * r1 <= r2 * r2 * r2;
    }
  }

  /** The record the route pushes for one feed object. */
  function TransformNeo(m: MathLib, r: NeoRecord): (a: Asteroid)
    ensures a.id == r.id && a.name == r.name
    ensures a.isPotentiallyHazardous == r.isPotentiallyHazardousAsteroid
    ensures a.absoluteMagnitude == r.absoluteMagnitudeH
    ensures a.velocity == a.relativeVelocity
    ensures a.orbitingBody != ""
    ensures r.closeApproach.None? ==>
      a.velocity == 0.0 && a.missDistance == 0.0 && a.closeApproachDate == "" && a.orbitingBody == "Earth"
    ensures r.orbitalData.None? ==> a.orbitalPeriod == 0.0 && a.eccentricity == 0.0 && a.inclination == 0.0
    ensures a.diameter == Round(NeoDiameter(m, r.absoluteMagnitudeH)) as real
    ensures a.mass == Round(NeoMass(NeoDiameter(m, r.absoluteMagnitudeH))) as real
    ensures r.closeApproach.Some? ==>
      var approach := r.closeApproach.value;
      && a.velocity == OrZero(approach.kilometersPerHour)
      && a.missDistance == OrZero(approach.missDistanceKm)
      && a.closeApproachDate == OrDefault(approach.closeApproachDate, "")
      && a.orbitingBody == OrDefault(approach.orbitingBody, "Earth")
    ensures r.orbitalData.Some? ==>
      var orbit := r.orbitalData.value;
      && a.orbitalPeriod == OrZero(orbit.periodDays)
      && a.eccentricity == OrZero(orbit.eccentricity)
      && a.inclination == OrZero(orbit.inclination)
  {
    var diameter := NeoDiameter(m, r.absoluteMagnitudeH);
    var approach := r.closeApproach;
    var orbit := r.orbitalData;
    Asteroid(
      r.id,
      r.name,
      Round(diameter) as real,
      if approach.Some? then OrZero(approach.value.kilometersPerHour) else 0.0,
      Round(NeoMass(diameter)) as real,
      if orbit.Some? then OrZero(orbit.value.periodDays) else 0.0,
      if orbit.Some? then OrZero(orbit.value.eccentricity) else 0.0,
      if orbit.Some? then OrZero(orbit.value.inclination) else 0.0,
      if approach.Some? then OrDefault(approach.value.closeApproachDate, "") else "",
      if approach.Some? then OrZero(approach.value.missDistanceKm) else 0.0,
      if approach.Some? then OrZero(approach.value.kilometersPerHour) else 0.0,
      if approach.Some? then OrDefault(approach.value.orbitingBody, "Earth") else "Earth",
      r.isPotentiallyHazardousAsteroid,
      r.absoluteMagnitudeH)
  }

  /** The transformed records of one date. */
  function DayAsteroids(m: MathLib, day: seq<NeoRecord>): (r: seq<Asteroid>)
    ensures |r| == |day|
    ensures forall i :: 0 <= i < |day| ==> r[i] == TransformNeo(m, day[i])
  {
    seq(|day|, i requires 0 <= i < |day| => TransformNeo(m, day[i]))
  }

  /** The transformed records of the whole feed, date after date. */
  function FeedAsteroids(m: MathLib, feed: Feed): seq<Asteroid> {
    if feed == [] then []
    else FeedAsteroids(m, feed[..|feed| - 1]) + DayAsteroids(m, feed[|feed| - 1].1)
  }

  /** How many objects the feed lists over all its dates. */
  function FeedSize(feed: Feed): nat {
    if feed == [] then 0 else FeedSize(feed[..|feed| - 1]) + |feed[|feed| - 1].1|
  }

  /** The transform pushes exactly one record per feed object. */
  lemma {:induction false} FeedAsteroidsCount(m: MathLib, feed: Feed)
    ensures |FeedAsteroids(m, feed)| == FeedSize(feed)
  {
    if feed != [] {
      FeedAsteroidsCount(m, feed[..|feed| - 1]);
    }
  }

  /** The nested loops over dates and their objects, pushing one record per object. */
  method TransformFeed(m: MathLib, feed: Feed) returns (asteroids: seq<Asteroid>)
    ensures asteroids == FeedAsteroids(m, feed)
    ensures |asteroids| == FeedSize(feed)
  {
    asteroids := [];
    var d := 0;
    while d < |feed|
      invariant 0 <= d <= |feed|
      invariant asteroids == FeedAsteroids(m, feed[..d])
    {
      var day := feed[d].1;
      var k := 0;
      while k < |day|
        invariant 0 <= k <= |day|
        invariant asteroids == FeedAsteroids(m, feed[..d]) + DayAsteroids(m, day[..k])
      {
        asteroids := asteroids + [TransformNeo(m, day[k])];
        assert DayAsteroids(m, day[..k + 1]) == DayAsteroids(m, day[..k]) + [TransformNeo(m, day[k])];
        k := k + 1;
      }
      assert day[..k] == day;
      assert feed[..d + 1][..d] == feed[..d];
      d := d + 1;
    }
    assert feed[..d] == feed;
    FeedAsteroidsCount(m, feed);
  }

  // ---------------------------------------------------------------------------
  // Filter, sort, take twenty

  /**
   * `filter(obj => obj.isPotentiallyHazardous)`: the hazardous objects, each
   * as often as the list holds it; `HazardousConcat` gives the order.
   */
  function Hazardous(s: seq<Asteroid>): (r: seq<Asteroid>)
    ensures forall x :: x in r <==> x in s && x.isPotentiallyHazardous
    ensures multiset(r) <= multiset(s)
    ensures forall x :: multiset(r)[x] == if x.isPotentiallyHazardous then multiset(s)[x] else 0
    ensures |r| <= |s|
  {
    if s == [] then []
    else
      assert s == [s[0]] + s[1..];
      (if s[0].isPotentiallyHazardous then [s[0]] else []) + Hazardous(s[1..])
  }

  /** The filter keeps the first object exactly when it is hazardous, then filters the rest. */
  lemma HazardousCons(x: Asteroid, s: seq<Asteroid>)
    ensures Hazardous([x] + s) == (if x.isPotentiallyHazardous then [x] else []) + Hazardous(s)
  {
    assert ([x] + s)[0] == x && ([x] + s)[1..] == s;
  }

  /**
   * The filter keeps the list order: the hazardous objects of two list parts
   * are those of the first part followed by those of the second.
   */
  lemma {:induction false} HazardousConcat(s: seq<Asteroid>, t: seq<Asteroid>)
    ensures Hazardous(s + t) == Hazardous(s) + Hazardous(t)
  {
    if s == [] {
      assert s + t == t;
    } else {
      var x, rest := s[0], s[1..];
      assert s == [x] + rest;
      AppendAssociative([x], rest, t);
      HazardousCons(x, rest + t);
      HazardousCons(x, rest);
      HazardousConcat(rest, t);
      AppendAssociative(if x.isPotentiallyHazardous then [x] else [], Hazardous(rest), Hazardous(t));
    }
  }

  predicate SortedByMissDistance(s: seq<Asteroid>) {
    forall i, j :: 0 <= i < j < |s| ==> s[i].missDistance <= s[j].missDistance
  }

  /** The head of a sorted list is no further away than anything in it. */
  lemma HeadIsClosest(s: seq<Asteroid>)
    requires SortedByMissDistance(s) && s != []
    ensures forall y :: y in s ==> s[0].missDistance <= y.missDistance
  {}

  /** An object no further away than everything in a sorted list can go in front of it. */
  lemma ConsSorted(h: Asteroid, t: seq<Asteroid>)
    requires SortedByMissDistance(t)
    requires forall y :: y in t ==> h.missDistance <= y.missDistance
    ensures SortedByMissDistance([h] + t)
  {
    var r := [h] + t;
    forall i, j | 0 <= i < j < |r|
      ensures r[i].missDistance <= r[j].missDistance
    {
      assert r[j] == t[j - 1];
      if i > 0 {
        assert r[i] == t[i - 1];
      } else {
        assert t[j - 1] in t;
      }
    }
  }

  /** Insert `x` into a list sorted by miss distance, before the first object not closer. */
  function Insert(x: Asteroid, s: seq<Asteroid>): (r: seq<Asteroid>)
    requires SortedByMissDistance(s)
    ensures SortedByMissDistance(r)
    ensures multiset(r) == multiset(s) + multiset{x}
    ensures forall y :: y in r <==> y == x || y in s
  {
    if s == [] then [x]
    else if x.missDistance <= s[0].missDistance then
      HeadIsClosest(s);
      ConsSorted(x, s);
      [x] + s
    else
      assert s == [s[0]] + s[1..];
      var t := Insert(x, s[1..]);
      HeadIsClosest(s);
      assert forall y :: y in t ==> s[0].missDistance <= y.missDistance;
      ConsSorted(s[0], t);
      [s[0]] + t
  }

  /** `sort((a, b) => a.missDistance - b.missDistance)`: ordered by miss distance, same objects. */
  function SortByMissDistance(s: seq<Asteroid>): (r: seq<Asteroid>)
    ensures SortedByMissDistance(r)
    ensures multiset(r) == multiset(s)
    ensures |r| == |s|
  {
    if s == [] then []
    else
      assert s == [s[0]] + s[1..];
      Insert(s[0], SortByMissDistance(s[1..]))
  }

  /** The route answers with at most this many objects. */
  const MaxListed: nat := 20

  /** The filter-sort-slice tail of the route. */
  function ClosestHazardous(all: seq<Asteroid>): (r: seq<Asteroid>)
    ensures forall i :: 0 <= i < |r| ==> r[i].isPotentiallyHazardous
    ensures SortedByMissDistance(r)
    ensures |r| == (if |Hazardous(all)| < MaxListed then |Hazardous(all)| else MaxListed)
    ensures multiset(r) <= multiset(all)
    ensures forall i, x :: 0 <= i < |r| && x in all && x.isPotentiallyHazardous && x !in r ==>
      r[i].missDistance <= x.missDistance
  {
    var sorted := SortByMissDistance(Hazardous(all));
    var n := if |sorted| < MaxListed then |sorted| else MaxListed;
    var r := sorted[..n];
    ClosestSelection(all, sorted, n, r);
    r
  }

  /** What the first `n` objects of the sorted hazardous list satisfy. */
  lemma ClosestSelection(all: seq<Asteroid>, sorted: seq<Asteroid>, n: nat, prefix: seq<Asteroid>)
    requires sorted == SortByMissDistance(Hazardous(all)) && n <= |sorted| && prefix == sorted[..n]
    ensures forall i :: 0 <= i < |prefix| ==> prefix[i].isPotentiallyHazardous
    ensures SortedByMissDistance(prefix)
    ensures |prefix| == n && |sorted| == |Hazardous(all)|
    ensures multiset(prefix) <= multiset(all)
    ensures forall i, x :: 0 <= i < |prefix| && x in all && x.isPotentiallyHazardous && x !in prefix ==>
      prefix[i].missDistance <= x.missDistance
  {
    PrefixHazardous(all, sorted, n, prefix);
    PrefixFromInput(all, sorted, n, prefix);
    PrefixNearest(all, sorted, n, prefix);
    PrefixSorted(sorted, n, prefix);
  }

  /** A prefix of a sorted list is sorted. */
  lemma PrefixSorted(sorted: seq<Asteroid>, n: nat, prefix: seq<Asteroid>)
    requires SortedByMissDistance(sorted) && n <= |sorted| && prefix == sorted[..n]
    ensures SortedByMissDistance(prefix)
  {
    forall i, j | 0 <= i < j < |prefix|
      ensures prefix[i].missDistance <= prefix[j].missDistance
    {
      assert prefix[i] == sorted[i] && prefix[j] == sorted[j];
    }
  }

  /** The first `n` objects of the sorted hazardous list are hazardous. */
  lemma PrefixHazardous(all: seq<Asteroid>, sorted: seq<Asteroid>, n: nat, prefix: seq<Asteroid>)
    requires sorted == SortByMissDistance(Hazardous(all)) && n <= |sorted| && prefix == sorted[..n]
    ensures forall i :: 0 <= i < |prefix| ==> prefix[i].isPotentiallyHazardous
  {
    forall i | 0 <= i < |prefix|
      ensures prefix[i].isPotentiallyHazardous
    {
      assert prefix[i] == sorted[i];
      assert sorted[i] in multiset(Hazardous(all));
    }
  }

  /** The first `n` objects of the sorted hazardous list are objects of the input. */
  lemma PrefixFromInput(all: seq<Asteroid>, sorted: seq<Asteroid>, n: nat, prefix: seq<Asteroid>)
    requires sorted == SortByMissDistance(Hazardous(all)) && n <= |sorted| && prefix == sorted[..n]
    ensures multiset(prefix) <= multiset(all)
  {
    assert sorted == prefix + sorted[n..];
    assert multiset(sorted) == multiset(prefix) + multiset(sorted[n..]);
  }

  /** A hazardous object outside the first `n` of the sorted list is no closer than they are. */
  lemma PrefixNearest(all: seq<Asteroid>, sorted: seq<Asteroid>, n: nat, prefix: seq<Asteroid>)
    requires sorted == SortByMissDistance(Hazardous(all)) && n <= |sorted| && prefix == sorted[..n]
    ensures forall i, x :: 0 <= i < |prefix| && x in all && x.isPotentiallyHazardous && x !in prefix ==>
      prefix[i].missDistance <= x.missDistance
  {
    forall i, x | 0 <= i < |prefix| && x in all && x.isPotentiallyHazardous && x !in prefix
      ensures prefix[i].missDistance <= x.missDistance
    {
      assert x in Hazardous(all);
      assert x in multiset(Hazardous(all));
      assert x in sorted;
      assert prefix[i] == sorted[i];
      OmittedIsNoCloser(sorted, n, i, x);
    }
  }

  /** In a sorted list, an object outside the first `n` is no closer than any of them. */
  lemma OmittedIsNoCloser(sorted: seq<Asteroid>, n: nat, i: nat, x: Asteroid)
    requires SortedByMissDistance(sorted) && i < n <= |sorted|
    requires x in sorted && x !in sorted[..n]
    ensures sorted[i].missDistance <= x.missDistance
  {
    var j :| 0 <= j < |sorted| && sorted[j] == x;
  }

  // ---------------------------------------------------------------------------
  // GET

  datatype AsteroidQuery = AsteroidQuery(
    startDate: Option<string>,
    endDate: Option<string>,
    includeComets: Option<string>)

  datatype AsteroidResponse =
    | Live(
        asteroids: seq<Asteroid>,
        total: int,
        startDate: string,
        endDate: string,
        nasaNeoApi: bool,
        nasaCometsApi: bool,
        apiKey: string,
        note: string)
    | Mock(asteroids: seq<Asteroid>, total: int, error: string)

  const MockAsteroids: seq<Asteroid> := [
    Asteroid("2000433", "433 Eros", 34000.0, 45000.0, 6.687e15, 643.0, 0.222, 10.83,
      "2024-01-15", 19500000.0, 45000.0, "Earth", false, 11.16),
    Asteroid("2001862", "1862 Apollo", 1700.0, 35000.0, 2.1e12, 651.0, 0.56, 6.35,
      "2024-02-20", 8900000.0, 35000.0, "Earth", true, 16.25)
  ]

  const MockError: string := "Using mock data - NASA API unavailable"

  /** The `dataSources.apiKey` label of a live reply. */
  const ApiKeyLabel: string := "Real NASA API Key"

  /** The live reply's `note`, with and without comets. */
  const NoteWithComets: string := "Includes real NASA asteroid and comet data"
  const NoteAsteroidsOnly: string := "Real NASA asteroid data"

  /** `include_comets === 'true'`. */
  predicate IncludesComets(q: AsteroidQuery) {
    q.includeComets == Some("true")
  }

  /** The comet list a comet request yields: `comets || []`, and nothing when it threw. */
  function CometList(reply: Outcome<Option<seq<Asteroid>>>): seq<Asteroid> {
    if reply.Replied? && reply.body.Some? then reply.body.value else []
  }

  /**
   * GET. `today` and `weekLater` are the default dates; `neo` is the feed
   * (`None` when the NASA request threw); `comets` is the outcome of the
   * comet request, consulted only when comets are included.
   */
  method Get(m: MathLib, q: AsteroidQuery, today: string, weekLater: string, neo: Option<Feed>,
             comets: Outcome<Option<seq<Asteroid>>>)
    returns (response: AsteroidResponse)
    ensures neo.None? ==> response == Mock(MockAsteroids, 2, MockError)
    ensures neo.Some? ==> response.Live?
    ensures response.total == |response.asteroids|
    ensures response.Live? ==>
      var all := FeedAsteroids(m, neo.value) + (if IncludesComets(q) then CometList(comets) else []);
      response.asteroids == ClosestHazardous(all) &&
      multiset(response.asteroids) <= multiset(all) &&
      |response.asteroids| <= MaxListed
    ensures response.Live? ==>
      response.startDate == OrDefault(q.startDate, today) &&
      response.endDate == OrDefault(q.endDate, weekLater) &&
      response.nasaNeoApi && (response.nasaCometsApi <==> IncludesComets(q)) &&
      response.apiKey == ApiKeyLabel &&
      response.note == (if IncludesComets(q) then NoteWithComets else NoteAsteroidsOnly)
    ensures response.Live? ==> forall i :: 0 <= i < |response.asteroids| ==>
      response.asteroids[i].isPotentiallyHazardous
  {
    if neo.None? {
      return Mock(MockAsteroids, |MockAsteroids|, MockError);
    }
    var startDate := OrDefault(q.startDate, today);
    var endDate := OrDefault(q.endDate, weekLater);
    var includeComets := IncludesComets(q);
    var cometData: seq<Asteroid> := [];
    if includeComets {
      cometData := CometList(comets);
    }
    var asteroids := TransformFeed(m, neo.value);
    var hazardousObjects := ClosestHazardous(asteroids + cometData);
    response := Live(hazardousObjects, |hazardousObjects|, startDate, endDate, true, includeComets,
      ApiKeyLabel, if includeComets then NoteWithComets else NoteAsteroidsOnly);
  }

  /** The mock fallback is not filtered: it lists a non-hazardous object. */
  lemma MockListsNonHazardous()
    ensures exists a :: a in MockAsteroids && !a.isPotentiallyHazardous
  {
    assert MockAsteroids[0] in MockAsteroids;
  }
}
