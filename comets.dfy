/**
 * The comet catalogue route (`app/api/comets/route.ts`, GET): a fixed table of
 * nine comets' orbital elements, filtered by the `filter` query parameter,
 * cut to the first `limit` rows and turned into asteroid-shaped records.
 *
 * The table's numeric strings are given here already parsed. The three
 * `Math.random()` draws each record uses (one per diameter estimate, one for
 * the magnitude) and the current date are parameters.
 */
module CometsRoute {
  import opened Numerics
  import opened Store

  /** One row of the comet table, with its numeric fields parsed. */
  datatype CometRecord = CometRecord(
    designation: string,
    epochTdb: real,
    tpTdb: real,
    e: real,
    iDeg: real,
    wDeg: real,
    nodeDeg: real,
    q1: real,     // perihelion distance, AU
    q2: real,     // aphelion distance, AU
    pYr: real,    // orbital period, years
    moidAu: real, // minimum orbit intersection distance, AU
    objectName: string)

  /** The nine comets of the table, in table order. */
  const CometData: seq<CometRecord> := [
    McNaught, CatalinaMcNaught, Halley, Encke, Hartley2,
    ChuryumovGerasimenko, Wirtanen, GiacobiniZinner, TempelTuttle]

  const McNaught: CometRecord :=
    CometRecord("P/2004 R1 (McNaught)", 54629.0, 2455248.548, 0.682526943, 4.894555854,
      0.626837835, 295.9854497, 0.986192006, 5.23, 5.48, 0.027011, "P/2004 R1 (McNaught)")
  const CatalinaMcNaught: CometRecord :=
    CometRecord("P/2008 S1 (Catalina-McNaught)", 55101.0, 2454741.329, 0.6663127807, 15.1007464,
      203.6490232, 111.3920029, 1.190641555, 5.95, 6.74, 0.194101, "P/2008 S1 (Catalina-McNaught)")
  const Halley: CometRecord :=
    CometRecord("1P/Halley", 49400.0, 2446467.395, 0.9671429085, 162.2626906,
      111.3324851, 58.42008098, 0.5859781115, 35.08, 75.32, 0.063782, "1P/Halley")
  const Encke: CometRecord :=
    CometRecord("2P/Encke", 56870.0, 2456618.204, 0.8482682514, 11.77999525,
      186.5403463, 334.5698056, 0.3360923855, 4.09, 3.3, 0.173092, "2P/Encke")
  const Hartley2: CometRecord :=
    CometRecord("103P/Hartley 2", 56981.0, 2457863.823, 0.693780472, 13.60427243,
      181.3222858, 219.7487451, 1.064195154, 5.89, 6.48, 0.072005, "103P/Hartley 2")
  const ChuryumovGerasimenko: CometRecord :=
    CometRecord("67P/Churyumov-Gerasimenko", 56981.0, 2457247.572, 0.6409739314, 7.040200902,
      12.78560607, 50.14210951, 1.243241683, 5.68, 6.44, 0.257189, "67P/Churyumov-Gerasimenko")
  const Wirtanen: CometRecord :=
    CometRecord("46P/Wirtanen", 56799.0, 2456482.869, 0.6592025614, 11.75713931,
      356.3402053, 82.16439077, 1.052262085, 5.12, 5.43, 0.068212, "46P/Wirtanen")
  const GiacobiniZinner: CometRecord :=
    CometRecord("21P/Giacobini-Zinner", 56498.0, 2455969.126, 0.7068178874, 31.90810099,
      172.5844249, 195.3970145, 1.030696274, 6.0, 6.59, 0.035395, "21P/Giacobini-Zinner")
  const TempelTuttle: CometRecord :=
    CometRecord("55P/Tempel-Tuttle", 51040.0, 2450872.598, 0.905552721, 162.4865754,
      172.5002737, 235.2709891, 0.9764279155, 19.7, 33.24, 0.008481, "55P/Tempel-Tuttle")

  // ---------------------------------------------------------------------------
  // Filters

  /** The `filter` query parameter, as the route distinguishes it. */
  datatype CometFilter = NearEarthOnly | PeriodicOnly | Unfiltered

  function FilterOf(filter: Option<string>): CometFilter {
    if filter == Some("near_earth") then NearEarthOnly
    else if filter == Some("periodic") then PeriodicOnly
    else Unfiltered
  }

  /** Close approach: the orbits come within 0.05 AU of each other. */
  const NearEarthMoid: real := 0.05

  /** Periodic: a "P/" designation or a period under 200 years. */
  const PeriodicLimitYears: real := 200.0

  predicate Keeps(f: CometFilter, c: CometRecord) {
    match f
    case NearEarthOnly => c.moidAu < NearEarthMoid
    case PeriodicOnly => "P/" <= c.designation || c.pYr < PeriodicLimitYears
    case Unfiltered => true
  }

  /**
   * `Array.prototype.filter`: the kept rows, each as often as the table lists
   * it; `FilterConcat` gives the table order.
   */
  function Filter(cs: seq<CometRecord>, f: CometFilter): (r: seq<CometRecord>)
    ensures |r| <= |cs|
    ensures forall c :: c in r <==> c in cs && Keeps(f, c)
    ensures multiset(r) <= multiset(cs)
    ensures forall c :: multiset(r)[c] == if Keeps(f, c) then multiset(cs)[c] else 0
  {
    if cs == [] then []
    else
      assert cs == [cs[0]] + cs[1..];
      (if Keeps(f, cs[0]) then [cs[0]] else []) + Filter(cs[1..], f)
  }

  /** The filter keeps the first row exactly when it passes, then filters the rest. */
  lemma FilterCons(c: CometRecord, cs: seq<CometRecord>, f: CometFilter)
    ensures Filter([c] + cs, f) == (if Keeps(f, c) then [c] else []) + Filter(cs, f)
  {
    assert ([c] + cs)[0] == c && ([c] + cs)[1..] == cs;
  }

  /**
   * The filter keeps the table order: the kept rows of two table parts are
   * those of the first part followed by those of the second.
   */
  lemma {:induction false} FilterConcat(cs: seq<CometRecord>, ds: seq<CometRecord>, f: CometFilter)
    ensures Filter(cs + ds, f) == Filter(cs, f) + Filter(ds, f)
  {
    if cs == [] {
      assert cs + ds == ds;
    } else {
      var c, rest := cs[0], cs[1..];
      assert cs == [c] + rest;
      AppendAssociative([c], rest, ds);
      FilterCons(c, rest + ds, f);
      FilterCons(c, rest, f);
      FilterConcat(rest, ds, f);
      AppendAssociative(if Keeps(f, c) then [c] else [], Filter(rest, f), Filter(ds, f));
    }
  }

  /** A filter that keeps every row returns the rows unchanged. */
  lemma {:induction false} FilterKeepingAll(cs: seq<CometRecord>, f: CometFilter)
    requires forall c :: c in cs ==> Keeps(f, c)
    ensures Filter(cs, f) == cs
  {
    if cs != [] {
      assert cs == [cs[0]] + cs[1..];
      assert Keeps(f, cs[0]);
      FilterCons(cs[0], cs[1..], f);
      FilterKeepingAll(cs[1..], f);
    }
  }

  /** Every comet in the table has a period under 200 years, so 'periodic' keeps the whole table. */
  lemma PeriodicKeepsWholeTable()
    ensures Filter(CometData, PeriodicOnly) == CometData
  {
    forall c | c in CometData
      ensures Keeps(PeriodicOnly, c)
    {
      assert c.pYr < PeriodicLimitYears;
    }
    FilterKeepingAll(CometData, PeriodicOnly);
  }

  // ---------------------------------------------------------------------------
  // The limit parameter and `slice(0, limit)`

  /** `parseInt(searchParams.get('limit') || '50')`: absent or empty, an integer, or NaN. */
  datatype LimitParam = Absent | Integer(value: int) | NotANumber

  /** The parsed limit; `None` stands for NaN. */
  function LimitOf(p: LimitParam): Option<int> {
    match p
    case Absent => Some(50)
    case Integer(n) => Some(n)
    case NotANumber => None
  }

  /**
   * Where `slice(0, limit)` stops on a list of `length` rows: NaN counts as 0,
   * a negative limit counts back from the end.
   */
  function SliceEnd(length: nat, limit: Option<int>): (k: nat)
    ensures k <= length
  {
    match limit
    case None => 0
    case Some(n) =>
      if n < 0 then (if length + n < 0 then 0 else length + n)
      else if n < length then n
      else length
  }

  // ---------------------------------------------------------------------------
  // The record transform

  predicate IsAsciiAlnum(ch: char) {
    'a' <= ch <= 'z' || 'A' <= ch <= 'Z' || '0' <= ch <= '9'
  }

  /** The characters an id may contain: `[A-Za-z0-9_]`. */
  predicate IsIdChar(ch: char) {
    IsAsciiAlnum(ch) || ch == '_'
  }

  /** `object.replace(/[^a-zA-Z0-9]/g, '_')`. */
  function SanitiseId(s: string): (r: string)
    ensures |r| == |s|
    ensures forall i :: 0 <= i < |s| && IsAsciiAlnum(s[i]) ==> r[i] == s[i]
    ensures forall i :: 0 <= i < |s| && !IsAsciiAlnum(s[i]) ==> r[i] == '_'
    ensures forall i :: 0 <= i < |r| ==> IsIdChar(r[i])
  {
    if s == [] then []
    else [if IsAsciiAlnum(s[0]) then s[0] else '_'] + SanitiseId(s[1..])
  }

  /** Sanitising an id a second time changes nothing. */
  lemma SanitiseIdIdempotent(s: string)
    ensures SanitiseId(SanitiseId(s)) == SanitiseId(s)
  {
    var r := SanitiseId(s);
    var rr := SanitiseId(r);
    assert |rr| == |r|;
    forall i | 0 <= i < |r|
      ensures rr[i] == r[i]
    {
      if !IsAsciiAlnum(r[i]) {
        assert IsIdChar(r[i]);
      }
    }
  }

  /**
   * `estimateCometDiameter`: a draw-dependent base size by perihelion tier,
   * scaled by 1 + (e - 0.5)/2 and rounded, in metres.
   */
  function EstimateCometDiameter(c: CometRecord, draw: Unit): (d: int)
    ensures 0.0 <= c.e <= 1.0 ==> 375 <= d <= 6250
    ensures c.e == 0.5 && c.q1 < 1.0 ==> 2000 <= d <= 5000
    ensures c.e == 0.5 && c.q1 >= 2.0 ==> 500 <= d <= 2000
  {
    var base :=
      if c.q1 < 1.0 then 2000.0 + draw * 3000.0
      else if c.q1 < 2.0 then 1000.0 + draw * 2000.0
      else 500.0 + draw * 1500.0;
    var factor := 1.0 + (c.e - 0.5) * 0.5;
    ScaledBaseBounds(base, factor, c.e);
    Round(base * factor)
  }

  /** The tiers' bases lie in [500, 5000) and the eccentricity factor in [0.75, 1.25]. */
  lemma ScaledBaseBounds(base: real, factor: real, e: real)
    requires 500.0 <= base < 5000.0
    requires factor == 1.0 + (e - 0.5) * 0.5
    ensures 0.0 <= e <= 1.0 ==> 375.0 <= base * factor < 6250.0
    ensures e == 0.5 ==> base * factor == base
  {
    if 0.0 <= e <= 1.0 {
      assert 0.75 <= factor <= 1.25;
      assert base * factor - 375.0 == (base - 500.0) * factor + 500.0 * (factor - 0.75);
      NonNegativeProduct(base - 500.0, factor);
      NonNegativeProduct(5000.0 - base, factor);
      assert 6250.0 - base * factor == (5000.0 - base) * factor + 5000.0 * (1.25 - factor);
    }
  }

  lemma NonNegativeProduct(x: real, y: real)
    requires 0.0 <= x && 0.0 <= y
    ensures 0.0 <= x * y
  {}

  /** The Sun's gravitational parameter, km³/s². */
  const SunGM: real := 1.327e11

  const DefaultCometVelocity: int := 30000

  /** The semi-major axis in km: the mean of the perihelion and aphelion distances. */
  function SemiMajorAxisKm(c: CometRecord): real {
    (c.q1 * KmPerAu + c.q2 * KmPerAu) / 2.0
  }

  /**
   * The vis-viva speed at distance a on an orbit of semi-major axis a,
   * sqrt(GM (2/a - 1/a)) in km/s, scaled by 3600 / 1000 as the route writes it.
   */
  function VisVivaSpeed(m: MathLib, a: real): real
    requires a != 0.0
  {
    Sqrt(m, SunGM * (2.0 / a - 1.0 / a)) / 1000.0 * 3600.0
  }

  /**
   * Where square roots square back, the route's vis-viva expression is the
   * circular-orbit speed: its square, undoing the 3600 / 1000 scaling, is GM / a.
   */
  lemma VisVivaIsCircularSpeed(m: MathLib, a: real)
    requires SqrtSquares(m) && a > 0.0
    ensures var s := VisVivaSpeed(m, a) / 3600.0 * 1000.0; s * s == SunGM / a
  {
    var x := SunGM * (2.0 / a - 1.0 / a);
    assert x == SunGM / a;
    assert VisVivaSpeed(m, a) / 3600.0 * 1000.0 == Sqrt(m, x);
  }

  /**
   * `calculateCometVelocity`: the rounded vis-viva speed; 30000 when
   * perihelion, aphelion or period is zero, when the semi-major axis is not
   * positive (the square root of a negative number, or 0/0, is NaN), or when
   * the speed rounds to zero.
   */
  function CometVelocity(m: MathLib, c: CometRecord): (v: int)
    ensures v != 0
    ensures c.q1 == 0.0 || c.q2 == 0.0 || c.pYr == 0.0 ==> v == DefaultCometVelocity
    ensures SemiMajorAxisKm(c) <= 0.0 ==> v == DefaultCometVelocity
    ensures c.q1 != 0.0 && c.q2 != 0.0 && c.pYr != 0.0 && SemiMajorAxisKm(c) > 0.0 ==>
      var speed := Round(VisVivaSpeed(m, SemiMajorAxisKm(c)));
      (speed != 0 ==> v == speed) && (speed == 0 ==> v == DefaultCometVelocity)
    ensures SqrtNonNegative(m) ==> v > 0
  {
    var perihelion := c.q1 * KmPerAu;
    var aphelion := c.q2 * KmPerAu;
    var period := c.pYr * 365.25 * 24.0 * 3600.0;
    if perihelion == 0.0 || aphelion == 0.0 || period == 0.0 then DefaultCometVelocity
    else if SemiMajorAxisKm(c) <= 0.0 then DefaultCometVelocity
    else
      var v := Round(VisVivaSpeed(m, SemiMajorAxisKm(c)));
      if v == 0 then DefaultCometVelocity else v
  }

  /**
   * `estimateCometMass`: a sphere of density 1000 whose radius is the (fresh)
   * diameter estimate divided by 2 and by 1000, rounded.
   */
  function EstimateCometMass(m: MathLib, c: CometRecord, draw: Unit): (mass: int)
    ensures 0.0 <= c.e <= 1.0 ==> mass >= 0
  {
    var radius := EstimateCometDiameter(c, draw) as real / 2.0 / 1000.0;
    var volume := (4.0 / 3.0) * PI * (radius * radius * radius);
    Round(volume * 1000.0)
  }

  /** `estimateCometMagnitude`: a draw-dependent magnitude by perihelion tier, to one decimal. */
  function EstimateCometMagnitude(c: CometRecord, draw: Unit): (mag: real)
    ensures 10.0 <= mag <= 20.0
    ensures c.q1 < 0.5 ==> mag <= 13.0
    ensures c.q1 >= 2.0 ==> 16.0 <= mag
  {
    var base :=
      if c.q1 < 0.5 then 10.0 + draw * 3.0
      else if c.q1 < 1.0 then 12.0 + draw * 4.0
      else if c.q1 < 2.0 then 14.0 + draw * 4.0
      else 16.0 + draw * 4.0;
    Round(base * 10.0) as real / 10.0
  }

  /** The three `Math.random()` draws one comet record consumes. */
  datatype CometDraws = CometDraws(diameter: Unit, massDiameter: Unit, magnitude: Unit)

  /** A transformed comet: the asteroid fields plus the comet-specific ones. */
  datatype CometObject = CometObject(
    asteroid: Asteroid,
    kind: string,
    perihelionDistance: real,
    aphelionDistance: real,
    longitudeOfAscendingNode: real,
    argumentOfPeriapsis: real,
    epoch: real,
    timeOfPerihelion: real)

  /**
   * The `map` callback: one table row as an asteroid-shaped comet record. The
   * diameter, the mass and the magnitude each consume their own draw.
   */
  function TransformComet(m: MathLib, c: CometRecord, draws: CometDraws, today: string): (r: CometObject)
    ensures r.asteroid.diameter == EstimateCometDiameter(c, draws.diameter) as real
    ensures r.asteroid.mass == EstimateCometMass(m, c, draws.massDiameter) as real
    ensures r.asteroid.absoluteMagnitude == EstimateCometMagnitude(c, draws.magnitude)
    ensures r.asteroid.velocity == CometVelocity(m, c) as real
    ensures r.asteroid.orbitalPeriod == c.pYr && r.asteroid.eccentricity == c.e && r.asteroid.inclination == c.iDeg
    ensures r.longitudeOfAscendingNode == c.nodeDeg && r.argumentOfPeriapsis == c.wDeg
    ensures r.epoch == c.epochTdb && r.timeOfPerihelion == c.tpTdb
    ensures r.asteroid.id == SanitiseId(c.designation) && |r.asteroid.id| == |c.designation|
    ensures r.asteroid.name == (if c.objectName != "" then c.objectName else c.designation)
    ensures r.asteroid.isPotentiallyHazardous <==> c.moidAu < NearEarthMoid
    ensures r.asteroid.missDistance == c.moidAu * KmPerAu
    ensures r.asteroid.velocity == r.asteroid.relativeVelocity != 0.0
    ensures r.asteroid.orbitingBody == "Earth" && r.kind == "comet"
    ensures r.asteroid.closeApproachDate == today
    ensures 10.0 <= r.asteroid.absoluteMagnitude <= 20.0
    ensures 0.0 <= c.e <= 1.0 ==> 375.0 <= r.asteroid.diameter <= 6250.0 && r.asteroid.mass >= 0.0
    ensures r.perihelionDistance == c.q1 * KmPerAu && r.aphelionDistance == c.q2 * KmPerAu
  {
    var velocity := CometVelocity(m, c) as real;
    CometObject(
      Asteroid(
        SanitiseId(c.designation),
        if c.objectName != "" then c.objectName else c.designation,
        EstimateCometDiameter(c, draws.diameter) as real,
        velocity,
        EstimateCometMass(m, c, draws.massDiameter) as real,
        c.pYr,
        c.e,
        c.iDeg,
        today,
        c.moidAu * KmPerAu,
        velocity,
        "Earth",
        c.moidAu < NearEarthMoid,
        EstimateCometMagnitude(c, draws.magnitude)),
      "comet",
      c.q1 * KmPerAu,
      c.q2 * KmPerAu,
      c.nodeDeg,
      c.wDeg,
      c.epochTdb,
      c.tpTdb)
  }

  // ---------------------------------------------------------------------------
  // GET

  datatype CometQuery = CometQuery(limit: LimitParam, filter: Option<string>)

  /** The JSON reply; `limit` is `None` where the parsed limit was NaN (JSON null). */
  datatype CometResponse = CometResponse(
    comets: seq<CometObject>,
    total: int,
    applied: string,
    limit: Option<int>,
    dataSource: string,
    note: string)

  /** The reply's fixed `dataSource` and `note` labels. */
  const CometDataSource: string := "NASA Near-Earth Comets Orbital Elements API"
  const CometNote: string := "Real orbital data from NASA with enhanced calculations"

  /** `filter || 'none'`. */
  function AppliedFilter(filter: Option<string>): string {
    if filter.Some? && filter.value != "" then filter.value else "none"
  }

  /** The rows a reply is built from: the filtered table cut at the limit. */
  function SelectedRows(table: seq<CometRecord>, q: CometQuery): seq<CometRecord> {
    var filtered := Filter(table, FilterOf(q.filter));
    filtered[..SliceEnd(|filtered|, LimitOf(q.limit))]
  }

  /**
   * The filter-then-slice half of GET, over any table: 'near_earth' and
   * 'periodic' replace the table by its filtered rows, anything else keeps
   * it; then `slice(0, limit)`.
   */
  method FilterAndLimit(table: seq<CometRecord>, q: CometQuery) returns (rows: seq<CometRecord>)
    ensures rows == SelectedRows(table, q)
    ensures FilterOf(q.filter) == Unfiltered ==> rows <= table
    ensures q.limit.Integer? && q.limit.value >= 0 ==>
      var filtered := Filter(table, FilterOf(q.filter));
      |rows| == (if q.limit.value < |filtered| then q.limit.value else |filtered|) && rows <= filtered
    ensures forall i :: 0 <= i < |rows| ==> Keeps(FilterOf(q.filter), rows[i])
  {
    var filteredComets := table;
    if q.filter == Some("near_earth") {
      filteredComets := Filter(table, NearEarthOnly);
    } else if q.filter == Some("periodic") {
      filteredComets := Filter(table, PeriodicOnly);
    } else {
      // any other value, or none, keeps the table as it is
      FilterKeepingAll(table, Unfiltered);
    }
    rows := filteredComets[..SliceEnd(|filteredComets|, LimitOf(q.limit))];
    forall i | 0 <= i < |rows|
      ensures rows[i] in filteredComets
    {
      assert rows[i] == filteredComets[i];
    }
  }

  /** The `map` over the selected rows and the reply around it. */
  function Respond(m: MathLib, rows: seq<CometRecord>, q: CometQuery, draws: nat -> CometDraws, today: string): (response: CometResponse)
    ensures response.total == |response.comets| == |rows|
    ensures forall i :: 0 <= i < |rows| ==> response.comets[i] == TransformComet(m, rows[i], draws(i), today)
    ensures response.applied == AppliedFilter(q.filter) && response.limit == LimitOf(q.limit)
    ensures response.dataSource == CometDataSource && response.note == CometNote
  {
    var comets := seq(|rows|, i requires 0 <= i < |rows| => TransformComet(m, rows[i], draws(i), today));
    CometResponse(comets, |comets|, AppliedFilter(q.filter), LimitOf(q.limit), CometDataSource, CometNote)
  }

  /**
   * GET: select the table rows by filter, keep the first `limit`, transform
   * each with its own draws (`draws(i)` for the i-th returned row).
   */
  method Get(m: MathLib, q: CometQuery, draws: nat -> CometDraws, today: string) returns (response: CometResponse)
    ensures response == Respond(m, SelectedRows(CometData, q), q, draws, today)
    ensures q.filter == Some("near_earth") ==>
      forall i :: 0 <= i < |response.comets| ==> response.comets[i].asteroid.isPotentiallyHazardous
  {
    var rows := FilterAndLimit(CometData, q);
    response := Respond(m, rows, q, draws, today);
    if q.filter == Some("near_earth") {
      NearEarthRepliesHazardous(m, CometData, q, draws, today);
    }
  }

  /** Every comet a 'near_earth' reply holds is flagged potentially hazardous. */
  lemma NearEarthRepliesHazardous(m: MathLib, table: seq<CometRecord>, q: CometQuery, draws: nat -> CometDraws, today: string)
    requires q.filter == Some("near_earth")
    ensures var response := Respond(m, SelectedRows(table, q), q, draws, today);
      forall i :: 0 <= i < |response.comets| ==> response.comets[i].asteroid.isPotentiallyHazardous
  {
    var filtered := Filter(table, NearEarthOnly);
    var rows := SelectedRows(table, q);
    forall i | 0 <= i < |rows|
      ensures rows[i].moidAu < NearEarthMoid
    {
      assert rows[i] == filtered[i];
      assert rows[i] in filtered;
    }
  }

  /** 'near_earth' keeps exactly the table's comets whose orbits pass within 0.05 AU. */
  lemma NearEarthFilterExact(c: CometRecord)
    ensures c in Filter(CometData, NearEarthOnly) <==> c in CometData && c.moidAu < 0.05
  {}

  /** 'periodic' keeps exactly the comets with a "P/" name or a period under 200 years. */
  lemma PeriodicFilterExact(c: CometRecord)
    ensures c in Filter(CometData, PeriodicOnly) <==>
      c in CometData && ("P/" <= c.designation || c.pYr < 200.0)
  {}
}
