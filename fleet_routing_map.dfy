/**
  The fleet route map: road geometry is fetched per pair of consecutive stops and
  concatenated into one path per route, the paths are drawn as polylines, one
  truck per route runs along its path frame by frame, and the delivery locations
  are drawn as numbered markers.

  Leaflet's layer groups are modelled as sequences of abstract drawables held by
  `FleetRoutingMapView`; the OSRM service is a function parameter; the frame
  clock and `Math.random()` are parameters of the methods that use them.
 */
module FleetRoutingMap {
  import opened Optional
  import opened Geo

  // ---------------------------------------------------------------- data

  datatype LocationKind = Warehouse | Customer

  datatype Location = Location(id: int, name: string, pos: Point, kind: LocationKind, demand: Option<real>)

  datatype RouteStatus = Active | Pending | Completed

  datatype Route = Route(id: string, vehicle: string, color: string, stops: seq<int>, status: RouteStatus)

  /** A GeoJSON position: longitude first, then latitude (section 3.1.1 of RFC 7946). */
  datatype Position = Position(lng: real, lat: real)

  /** The route object OSRM returns; `geometry` is `None` when it or its coordinates are absent. */
  datatype OsrmRoute = OsrmRoute(geometry: Option<seq<Position>>)

  /**
    What `fetch(url)` followed by `response.json()` produced: a rejected request, a
    body that is not a JSON object, or a decoded object whose `routes` member is
    `None` when it is absent or falsy.
   */
  datatype Response =
    | NetworkError
    | MalformedBody
    | Decoded(routes: Option<seq<OsrmRoute>>)

  // ------------------------------------------------ fetchRealRoute (:82-96)

  /** Converts GeoJSON `[lng, lat]` positions to Leaflet `[lat, lng]` points, keeping their order. */
  function SwapCoordinates(cs: seq<Position>): (r: seq<Point>)
    ensures |r| == |cs|
    ensures forall i :: 0 <= i < |cs| ==> r[i].lat == cs[i].lat && r[i].lng == cs[i].lng
  {
    if cs == [] then [] else [Point(cs[0].lat, cs[0].lng)] + SwapCoordinates(cs[1..])
  }

  /** The inverse conversion, from Leaflet points back to GeoJSON positions. */
  function ToGeoJson(ps: seq<Point>): seq<Position>
  {
    if ps == [] then [] else [Position(ps[0].lng, ps[0].lat)] + ToGeoJson(ps[1..])
  }

  /** Swapping is a bijection: converting back gives the positions the service sent. */
  lemma {:induction false} SwapRoundTrip(cs: seq<Position>)
    ensures ToGeoJson(SwapCoordinates(cs)) == cs
  {
    if cs != [] {
      SwapRoundTrip(cs[1..]);
      assert SwapCoordinates(cs)[1..] == SwapCoordinates(cs[1..]);
    }
  }

  lemma {:induction false} ToGeoJsonRoundTrip(ps: seq<Point>)
    ensures SwapCoordinates(ToGeoJson(ps)) == ps
  {
    if ps != [] {
      ToGeoJsonRoundTrip(ps[1..]);
      assert ToGeoJson(ps)[1..] == ToGeoJson(ps[1..]);
    }
  }

  /**
    The two waypoints of the request path `from.lng,from.lat;to.lng,to.lat`: the
    URL puts longitude first for both endpoints.
   */
  function RequestWaypoints(from: Point, to: Point): (r: seq<Position>)
    ensures SwapCoordinates(r) == [from, to]
  {
    [Position(from.lng, from.lat), Position(to.lng, to.lat)]
  }

  /**
    The result of `fetchRealRoute` for a given service response: the first route's
    geometry, swapped to `[lat, lng]`, or `None` for a failed request, an
    undecodable body, a missing or empty `routes`, or a missing geometry. No case
    raises: the source catches every failure and returns null.
   */
  function DecodeRoute(resp: Response): (r: Option<seq<Point>>)
    ensures r.Some? <==>
      resp.Decoded? && resp.routes.Some? && |resp.routes.value| > 0 && resp.routes.value[0].geometry.Some?
    ensures r.Some? ==> ToGeoJson(r.value) == resp.routes.value[0].geometry.value
  {
    match resp
    case Decoded(Some(routes)) =>
      if |routes| > 0 && routes[0].geometry.Some? then
        SwapRoundTrip(routes[0].geometry.value);
        Some(SwapCoordinates(routes[0].geometry.value))
      else None
    case _ => None
  }

  /**
    `fetchRealRoute(from, to)` against a routing service that answers a list of
    waypoints: a path exactly when the reply to the request for the two endpoints
    decodes with a non-empty `routes` whose first route has a geometry, and that
    path converted back to GeoJSON is the geometry.
   */
  function FetchRealRoute(service: seq<Position> -> Response, from: Point, to: Point): (r: Option<seq<Point>>)
    ensures var resp := service(RequestWaypoints(from, to));
      r.Some? <==> resp.Decoded? && resp.routes.Some? && |resp.routes.value| > 0 && resp.routes.value[0].geometry.Some?
    ensures var resp := service(RequestWaypoints(from, to));
      r.Some? ==> ToGeoJson(r.value) == resp.routes.value[0].geometry.value
  {
    DecodeRoute(service(RequestWaypoints(from, to)))
  }

  // --------------------------------------------------- fetchRoutes (:181-213)

  /** `locations.find(l => l.id === id)`: the first location with that id, if any. */
  function FindLocation(locations: seq<Location>, id: int): (r: Option<Location>)
    ensures r.Some? ==> r.value in locations && r.value.id == id
    ensures r.Some? ==> exists i :: 0 <= i < |locations| && locations[i] == r.value && forall k :: 0 <= k < i ==> locations[k].id != id
    ensures r.None? ==> forall k :: 0 <= k < |locations| ==> locations[k].id != id
  {
    if locations == [] then None
    else if locations[0].id == id then Some(locations[0])
    else FindLocation(locations[1..], id)
  }

  /** Number of iterations of `for (let i = 0; i < stops.length - 1; i++)`. */
  function PairCount(stops: seq<int>): nat
  {
    if |stops| == 0 then 0 else |stops| - 1
  }

  /**
    What stop pair `(i, i+1)` adds to the route's path: the fetched segment when
    both stops are known locations and the fetch returned one, nothing otherwise.
   */
  function Segment(fetch: (Point, Point) -> Option<seq<Point>>, locations: seq<Location>, stops: seq<int>, i: nat): seq<Point>
    requires i + 1 < |stops|
  {
    match (FindLocation(locations, stops[i]), FindLocation(locations, stops[i + 1]))
    case (Some(a), Some(b)) =>
      (match fetch(a.pos, b.pos)
       case Some(s) => s
       case None => [])
    case _ => []
  }

  /**
    A pair contributes a non-empty segment only when both stop ids are known
    locations and the fetch for their positions returned that segment; a pair
    with an unknown id, or whose fetch failed, contributes nothing.
   */
  lemma SegmentCases(fetch: (Point, Point) -> Option<seq<Point>>, locations: seq<Location>, stops: seq<int>, i: nat)
    requires i + 1 < |stops|
    ensures Segment(fetch, locations, stops, i) != [] ==>
      FindLocation(locations, stops[i]).Some? && FindLocation(locations, stops[i + 1]).Some? &&
      fetch(FindLocation(locations, stops[i]).value.pos, FindLocation(locations, stops[i + 1]).value.pos)
        == Some(Segment(fetch, locations, stops, i))
    ensures FindLocation(locations, stops[i]).None? || FindLocation(locations, stops[i + 1]).None? ==>
      Segment(fetch, locations, stops, i) == []
    ensures (FindLocation(locations, stops[i]).Some? && FindLocation(locations, stops[i + 1]).Some? &&
             fetch(FindLocation(locations, stops[i]).value.pos, FindLocation(locations, stops[i + 1]).value.pos).None?) ==>
      Segment(fetch, locations, stops, i) == []
  {
  }

  /** The segments of all stop pairs, in stop order. */
  function Segments(fetch: (Point, Point) -> Option<seq<Point>>, locations: seq<Location>, stops: seq<int>): (r: seq<seq<Point>>)
    ensures |r| == PairCount(stops)
  {
    seq(PairCount(stops), i requires 0 <= i < PairCount(stops) => Segment(fetch, locations, stops, i))
  }

  /** `push(...segment)` for every segment in turn: the segments concatenated in order. */
  function Concat<T>(segs: seq<seq<T>>): seq<T>
  {
    if segs == [] then [] else Concat(segs[..|segs| - 1]) + segs[|segs| - 1]
  }

  /** The summed lengths of the segments. */
  function TotalLength<T>(segs: seq<seq<T>>): nat
  {
    if segs == [] then 0 else |segs[0]| + TotalLength(segs[1..])
  }

  /** A route's full path, `fullRoute` once its loop has finished. */
  function FullPath(fetch: (Point, Point) -> Option<seq<Point>>, locations: seq<Location>, route: Route): seq<Point>
  {
    Concat(Segments(fetch, locations, route.stops))
  }

  /** A route's full path is as long as its pair segments together. */
  lemma FullPathLength(fetch: (Point, Point) -> Option<seq<Point>>, locations: seq<Location>, route: Route)
    ensures |FullPath(fetch, locations, route)| == TotalLength(Segments(fetch, locations, route.stops))
  {
    ConcatLength(Segments(fetch, locations, route.stops));
  }

  lemma ConcatStep<T>(segs: seq<seq<T>>, i: nat)
    requires i < |segs|
    ensures Concat(segs[..i + 1]) == Concat(segs[..i]) + segs[i]
  {
    assert segs[..i + 1][..i] == segs[..i];
  }

  /** Concatenating two runs of segments concatenates their paths. */
  lemma {:induction false} ConcatAppend<T>(a: seq<seq<T>>, b: seq<seq<T>>)
    ensures Concat(a + b) == Concat(a) + Concat(b)
    decreases |b|
  {
    if b != [] {
      var b' := b[..|b| - 1];
      assert (a + b)[..|a + b| - 1] == a + b';
      assert (a + b)[|a + b| - 1] == b[|b| - 1];
      ConcatAppend(a, b');
      calc {
        Concat(a + b);
        Concat(a + b') + b[|b| - 1];
        Concat(a) + Concat(b') + b[|b| - 1];
        Concat(a) + (Concat(b') + b[|b| - 1]);
        Concat(a) + Concat(b);
      }
    } else {
      assert a + b == a;
    }
  }

  /** The path's length is the sum of the lengths of the segments it is made of. */
  lemma {:induction false} ConcatLength<T>(segs: seq<seq<T>>)
    ensures |Concat(segs)| == TotalLength(segs)
  {
    if segs != [] {
      ConcatLength(segs[1..]);
      ConcatAppend([segs[0]], segs[1..]);
      assert [segs[0]] + segs[1..] == segs;
      assert Concat([segs[0]]) == Concat([]) + segs[0];
    }
  }

  /**
    Segment `j` sits in the concatenation right after the segments before it:
    the path is the in-order concatenation of the segments.
   */
  lemma ConcatPlacement<T>(segs: seq<seq<T>>, j: nat)
    requires j < |segs|
    ensures |Concat(segs[..j])| + |segs[j]| <= |Concat(segs)|
    ensures Concat(segs)[|Concat(segs[..j])| .. |Concat(segs[..j])| + |segs[j]|] == segs[j]
  {
    ConcatStep(segs, j);
    ConcatAppend(segs[..j + 1], segs[j + 1..]);
    assert segs[..j + 1] + segs[j + 1..] == segs;
  }

  /** Segments that are all empty concatenate to an empty path. */
  lemma {:induction false} ConcatOfEmpty<T>(segs: seq<seq<T>>)
    requires forall j :: 0 <= j < |segs| ==> segs[j] == []
    ensures Concat(segs) == []
  {
    if segs != [] {
      ConcatOfEmpty(segs[..|segs| - 1]);
    }
  }

  /** A route whose every stop pair has an unknown id gets an empty path, and so no cache entry. */
  lemma UnresolvedPairsGiveEmptyPath(fetch: (Point, Point) -> Option<seq<Point>>, locations: seq<Location>, route: Route)
    requires forall j :: 0 <= j < PairCount(route.stops) ==>
      FindLocation(locations, route.stops[j]).None? || FindLocation(locations, route.stops[j + 1]).None?
    ensures FullPath(fetch, locations, route) == []
  {
    var segs := Segments(fetch, locations, route.stops);
    forall j | 0 <= j < |segs| ensures segs[j] == [] {
      SegmentCases(fetch, locations, route.stops, j);
    }
    ConcatOfEmpty(segs);
  }

  /** `newCache` after the first routes have been processed: a later route with the same id overwrites. */
  function BuildCache(fetch: (Point, Point) -> Option<seq<Point>>, locations: seq<Location>, routes: seq<Route>): (c: map<string, seq<Point>>)
    ensures forall k :: k in c ==> c[k] != []
    ensures forall k :: k in c ==> exists i :: 0 <= i < |routes| && routes[i].id == k
  {
    if routes == [] then map[]
    else
      var cache := BuildCache(fetch, locations, routes[..|routes| - 1]);
      var path := FullPath(fetch, locations, routes[|routes| - 1]);
      if |path| > 0 then cache[routes[|routes| - 1].id := path] else cache
  }

  /**
    A route id has a cache entry iff some route with that id has a non-empty
    path; every entry is non-empty and is the path of a route with that id.
   */
  lemma {:induction false} CacheEntries(fetch: (Point, Point) -> Option<seq<Point>>, locations: seq<Location>, routes: seq<Route>)
    ensures forall k :: k in BuildCache(fetch, locations, routes) ==>
      BuildCache(fetch, locations, routes)[k] != [] &&
      exists i :: 0 <= i < |routes| && routes[i].id == k && BuildCache(fetch, locations, routes)[k] == FullPath(fetch, locations, routes[i])
    ensures forall i :: 0 <= i < |routes| && FullPath(fetch, locations, routes[i]) != [] ==> routes[i].id in BuildCache(fetch, locations, routes)
  {
    if routes != [] {
      var n := |routes| - 1;
      var init, last := routes[..n], routes[n];
      CacheEntries(fetch, locations, init);
      var before, cache := BuildCache(fetch, locations, init), BuildCache(fetch, locations, routes);
      var path := FullPath(fetch, locations, last);
      assert cache == if |path| > 0 then before[last.id := path] else before;
      forall k | k in cache
        ensures cache[k] != [] && exists i :: 0 <= i < |routes| && routes[i].id == k && cache[k] == FullPath(fetch, locations, routes[i])
      {
        if |path| > 0 && k == last.id {
          assert routes[n].id == k && cache[k] == FullPath(fetch, locations, routes[n]);
        } else {
          var i :| 0 <= i < |init| && init[i].id == k && before[k] == FullPath(fetch, locations, init[i]);
          assert routes[i] == init[i];
        }
      }
      forall i | 0 <= i < |routes| && FullPath(fetch, locations, routes[i]) != []
        ensures routes[i].id in cache
      {
        if i < n {
          assert routes[i] == init[i];
        }
      }
    }
  }

  /** With distinct route ids every route's cache entry is exactly its own path. */
  lemma {:induction false} CacheOfDistinctRoutes(fetch: (Point, Point) -> Option<seq<Point>>, locations: seq<Location>, routes: seq<Route>, i: nat)
    requires forall a, b :: 0 <= a < b < |routes| ==> routes[a].id != routes[b].id
    requires i < |routes|
    ensures routes[i].id in BuildCache(fetch, locations, routes) <==> FullPath(fetch, locations, routes[i]) != []
    ensures routes[i].id in BuildCache(fetch, locations, routes) ==>
      BuildCache(fetch, locations, routes)[routes[i].id] == FullPath(fetch, locations, routes[i])
  {
    CacheEntries(fetch, locations, routes);
  }

  /** Building the cache over one more route sets that route's entry when its path is non-empty. */
  lemma BuildCacheStep(fetch: (Point, Point) -> Option<seq<Point>>, locations: seq<Location>, routes: seq<Route>, r: nat)
    requires r < |routes|
    ensures var cache, path := BuildCache(fetch, locations, routes[..r]), FullPath(fetch, locations, routes[r]);
      BuildCache(fetch, locations, routes[..r + 1]) == if |path| > 0 then cache[routes[r].id := path] else cache
  {
    assert routes[..r + 1][..r] == routes[..r];
  }

  /**
    The inner loop of `fetchRoutes`: walks the route's consecutive stop pairs and
    appends every segment that came back, giving the route's full path.
   */
  method FetchRoutePath(route: Route, locations: seq<Location>, fetch: (Point, Point) -> Option<seq<Point>>)
    returns (fullRoute: seq<Point>)
    ensures fullRoute == FullPath(fetch, locations, route)
  {
    ghost var segs := Segments(fetch, locations, route.stops);
    fullRoute := [];
    var i := 0;
    while i + 1 < |route.stops|
      invariant 0 <= i <= PairCount(route.stops)
      invariant fullRoute == Concat(segs[..i])
    {
      var fromLoc := FindLocation(locations, route.stops[i]);
      var toLoc := FindLocation(locations, route.stops[i + 1]);
      assert segs[i] == Segment(fetch, locations, route.stops, i);
      if fromLoc.Some? && toLoc.Some? {
        var segmentRoute := fetch(fromLoc.value.pos, toLoc.value.pos);
        if segmentRoute.Some? {
          fullRoute := fullRoute + segmentRoute.value;
        }
      }
      ConcatStep(segs, i);
      i := i + 1;
    }
    assert segs[..i] == segs;
  }

  /**
    `fetchRoutes`: builds every route's full path in turn and keeps the route only
    when its path is non-empty.
   */
  method FetchRoutes(routes: seq<Route>, locations: seq<Location>, fetch: (Point, Point) -> Option<seq<Point>>)
    returns (newCache: map<string, seq<Point>>)
    ensures newCache == BuildCache(fetch, locations, routes)
  {
    newCache := map[];
    var r := 0;
    while r < |routes|
      invariant 0 <= r <= |routes|
      invariant newCache == BuildCache(fetch, locations, routes[..r])
    {
      var route := routes[r];
      var fullRoute := FetchRoutePath(route, locations, fetch);
      BuildCacheStep(fetch, locations, routes, r);
      if |fullRoute| > 0 {
        newCache := newCache[route.id := fullRoute];
      }
      r := r + 1;
    }
    assert routes[..r] == routes;
  }

  // ------------------------------------------------ truck animation (:268-335)

  /** Speed of a truck, in path points per millisecond. */
  const TruckSpeed: real := 0.003

  /** The share of the path within which a truck is first placed. */
  const SeedSpan: real := 0.3

  /** A truck's per-route animation state; `markerAt` is where its marker is drawn. */
  datatype Truck = Truck(position: real, route: seq<Point>, markerAt: Point)

  /** What the truck layer holds: one marker per seeded route. */
  datatype TruckMarker = TruckMarker(routeId: string, color: string)

  /** A truck can be animated: a path of two points or more and a position before its last point. */
  ghost predicate TruckValid(t: Truck)
  {
    |t.route| >= 2 && 0.0 <= t.position < (|t.route| - 1) as real
  }

  /** `Math.random() * routeCoords.length * 0.3`. */
  function SeedPosition(rnd: real, len: nat): (p: real)
    requires 0.0 <= rnd < 1.0 && len >= 2
    ensures 0.0 <= p < SeedSpan * len as real
    ensures p < (len - 1) as real
  {
    ScaleBelowUnit(len as real * SeedSpan, rnd);
    rnd * len as real * SeedSpan
  }

  /** One frame's position update: advance by `delta * 0.003`, back to 0 on reaching the last point. */
  function StepPosition(p: real, len: nat, delta: real): (r: real)
    requires len >= 2 && 0.0 <= p < (len - 1) as real && delta >= 0.0
    ensures 0.0 <= r < (len - 1) as real
    ensures p + delta * TruckSpeed >= (len - 1) as real ==> r == 0.0
    ensures p + delta * TruckSpeed < (len - 1) as real ==> r == p + delta * TruckSpeed
  {
    var q := p + delta * TruckSpeed;
    if q >= (len - 1) as real then 0.0 else q
  }

  /**
    Motion is frame-rate independent: two frames that do not reach the end move
    the truck as far as one frame spanning both.
   */
  lemma FramesCompose(p: real, len: nat, d1: real, d2: real)
    requires len >= 2 && 0.0 <= p < (len - 1) as real && d1 >= 0.0 && d2 >= 0.0
    requires p + (d1 + d2) * TruckSpeed < (len - 1) as real
    ensures StepPosition(StepPosition(p, len, d1), len, d2) == StepPosition(p, len, d1 + d2)
  {
  }

  /** A truck at the start of its path that travels one path length in one frame is back at the start. */
  lemma FullLapWraps(len: nat)
    requires len >= 2
    ensures StepPosition(0.0, len, (len - 1) as real / TruckSpeed) == 0.0
  {
    assert ((len - 1) as real / TruckSpeed) * TruckSpeed == (len - 1) as real;
  }

  /** `idx = floor(p)`, `nextIdx = min(idx + 1, len - 1)`, `t = p - idx`. */
  function Split(len: nat, p: real): (r: (nat, nat, real))
    requires 0.0 <= p < len as real
    ensures r.0 <= r.1 < len && r.1 <= r.0 + 1
    ensures 0.0 <= r.2 < 1.0 && r.0 as real + r.2 == p
    ensures p < (len - 1) as real ==> r.1 == r.0 + 1
  {
    var idx := p.Floor;
    var nextIdx := if idx + 1 <= len - 1 then idx + 1 else len - 1;
    (idx, nextIdx, p - idx as real)
  }

  /** The rendered point: `route[idx] + (route[nextIdx] - route[idx]) * t`. */
  function Interpolate(route: seq<Point>, p: real): (r: Point)
    requires 0.0 <= p < |route| as real
    ensures var s := Split(|route|, p);
      Min(route[s.0].lat, route[s.1].lat) <= r.lat <= Max(route[s.0].lat, route[s.1].lat) &&
      Min(route[s.0].lng, route[s.1].lng) <= r.lng <= Max(route[s.0].lng, route[s.1].lng)
    ensures p == p.Floor as real ==> r == route[p.Floor]
  {
    var s := Split(|route|, p);
    LerpInBox(route[s.0], route[s.1], s.2);
    Lerp(route[s.0], route[s.1], s.2)
  }

  /** Halfway along the third segment of `[0,0],[0,2],[0,4],[0,6]` the point is `[0,5]`. */
  lemma InterpolateExample()
    ensures Interpolate([Point(0.0, 0.0), Point(0.0, 2.0), Point(0.0, 4.0), Point(0.0, 6.0)], 2.5) == Point(0.0, 5.0)
  {
    assert (2.5).Floor == 2;
  }

  /** One frame for one truck: new position, marker moved to the interpolated point. */
  function AdvanceTruck(t: Truck, delta: real): (r: Truck)
    requires TruckValid(t) && delta >= 0.0
    ensures TruckValid(r) && r.route == t.route
    ensures r.position == StepPosition(t.position, |t.route|, delta)
    ensures r.markerAt == Interpolate(r.route, r.position)
  {
    var p := StepPosition(t.position, |t.route|, delta);
    Truck(p, t.route, Interpolate(t.route, p))
  }

  /** `routes.find(r => r.id === id)`: the first route with that id, if any. */
  function FindRoute(routes: seq<Route>, id: string): (r: Option<Route>)
    ensures r.Some? ==> r.value in routes && r.value.id == id
    ensures r.Some? ==> exists i :: 0 <= i < |routes| && routes[i] == r.value && forall k :: 0 <= k < i ==> routes[k].id != id
    ensures r.None? ==> forall k :: 0 <= k < |routes| ==> routes[k].id != id
  {
    if routes == [] then None
    else if routes[0].id == id then Some(routes[0])
    else FindRoute(routes[1..], id)
  }

  /** The position map after one frame: trucks whose route is still listed advance, the others stay. */
  ghost function AdvanceAll(trucks: map<string, Truck>, routes: seq<Route>, delta: real): (r: map<string, Truck>)
    requires delta >= 0.0 && forall k :: k in trucks ==> TruckValid(trucks[k])
    ensures r.Keys == trucks.Keys
  {
    map k | k in trucks :: if FindRoute(routes, k).Some? then AdvanceTruck(trucks[k], delta) else trucks[k]
  }

  /**
    A frame keeps the set of trucks; a truck whose route is still listed moves by
    one step along the same path, any other keeps its state.
   */
  lemma AdvanceAllEffect(trucks: map<string, Truck>, routes: seq<Route>, delta: real)
    requires delta >= 0.0 && forall k :: k in trucks ==> TruckValid(trucks[k])
    ensures AdvanceAll(trucks, routes, delta).Keys == trucks.Keys
    ensures forall k :: k in trucks && FindRoute(routes, k).None? ==> AdvanceAll(trucks, routes, delta)[k] == trucks[k]
    ensures forall k :: k in trucks && FindRoute(routes, k).Some? ==>
      var t := AdvanceAll(trucks, routes, delta)[k];
      TruckValid(t) && t.route == trucks[k].route &&
      t.position == StepPosition(trucks[k].position, |trucks[k].route|, delta)
  {
  }

  /** The position map right after seeding the first `n` routes. */
  ghost function SeedTrucks(routes: seq<Route>, cache: map<string, seq<Point>>, rnd: seq<real>, n: nat): (m: map<string, Truck>)
    requires n <= |routes| == |rnd| && forall i :: 0 <= i < |rnd| ==> 0.0 <= rnd[i] < 1.0
    ensures forall k :: k in m ==>
      TruckValid(m[k]) && k in cache && m[k].route == cache[k] &&
      m[k].position < SeedSpan * |m[k].route| as real && m[k].markerAt == m[k].route[0]
  {
    if n == 0 then map[]
    else
      var m := SeedTrucks(routes, cache, rnd, n - 1);
      var route := routes[n - 1];
      if route.id in cache && |cache[route.id]| >= 2 then
        var coords := cache[route.id];
        m[route.id := Truck(SeedPosition(rnd[n - 1], |coords|), coords, coords[0])]
      else m
  }

  /** The truck layer after seeding the first `n` routes: one marker per route with a cached path of two points or more, in route order. */
  function TruckLayer(routes: seq<Route>, cache: map<string, seq<Point>>, n: nat): (r: seq<TruckMarker>)
    requires n <= |routes|
    ensures |r| <= n
    ensures forall m :: m in r ==> m.routeId in cache && |cache[m.routeId]| >= 2
  {
    if n == 0 then []
    else
      var route := routes[n - 1];
      TruckLayer(routes, cache, n - 1)
        + (if route.id in cache && |cache[route.id]| >= 2 then [TruckMarker(route.id, route.color)] else [])
  }

  /** Every route that gets a truck has its marker, in its colour, and every marker's route has a truck. */
  lemma {:induction false} TruckLayerMatchesSeeds(routes: seq<Route>, cache: map<string, seq<Point>>, rnd: seq<real>, n: nat)
    requires n <= |routes| == |rnd| && forall i :: 0 <= i < |rnd| ==> 0.0 <= rnd[i] < 1.0
    ensures forall i :: 0 <= i < n && routes[i].id in cache && |cache[routes[i].id]| >= 2 ==>
      TruckMarker(routes[i].id, routes[i].color) in TruckLayer(routes, cache, n)
    ensures forall m :: m in TruckLayer(routes, cache, n) ==> m.routeId in SeedTrucks(routes, cache, rnd, n)
  {
    if n > 0 {
      TruckLayerMatchesSeeds(routes, cache, rnd, n - 1);
    }
  }

  /** Only routes with a cached path of at least two points get a truck. */
  lemma {:induction false} SeededRoutes(routes: seq<Route>, cache: map<string, seq<Point>>, rnd: seq<real>, n: nat)
    requires n <= |routes| == |rnd| && forall i :: 0 <= i < |rnd| ==> 0.0 <= rnd[i] < 1.0
    ensures forall i :: 0 <= i < n && routes[i].id in cache && |cache[routes[i].id]| >= 2 ==> routes[i].id in SeedTrucks(routes, cache, rnd, n)
    ensures forall k :: k in SeedTrucks(routes, cache, rnd, n) ==> exists i :: 0 <= i < n && routes[i].id == k
  {
    if n > 0 {
      SeededRoutes(routes, cache, rnd, n - 1);
    }
  }

  // ----------------------------------------------------- route layer (:215-266)

  /** A polyline in the route layer. */
  datatype Polyline = Polyline(routeId: string, coords: seq<Point>, color: string, weight: int, opacity: real)

  /** The glow and main line drawn for one route with a cached path. */
  function RouteLines(route: Route, coords: seq<Point>, selected: Option<string>): (r: seq<Polyline>)
    ensures |r| == 2 && r[0].routeId == r[1].routeId == route.id && r[0].coords == r[1].coords == coords
    ensures r[0].color == r[1].color == route.color && r[0].opacity == 0.2
    ensures selected == Some(route.id) ==> r[0].weight == 12 && r[1].weight == 5 && r[1].opacity == 1.0
    ensures selected != Some(route.id) ==> r[0].weight == 8 && r[1].weight == 3 && r[1].opacity == 0.7
  {
    var isSelected := selected == Some(route.id);
    [ Polyline(route.id, coords, route.color, if isSelected then 12 else 8, 0.2),
      Polyline(route.id, coords, route.color, if isSelected then 5 else 3, if isSelected then 1.0 else 0.7) ]
  }

  /** The route layer after drawing the first `n` routes; routes without a cached path are skipped. */
  function RouteLayer(routes: seq<Route>, cache: map<string, seq<Point>>, selected: Option<string>, n: nat): (r: seq<Polyline>)
    requires n <= |routes|
    ensures |r| <= 2 * n && |r| % 2 == 0
    ensures forall k :: 0 <= k < |r| ==> (r[k].opacity == 0.2 <==> k % 2 == 0)
  {
    if n == 0 then []
    else
      var route := routes[n - 1];
      RouteLayer(routes, cache, selected, n - 1)
        + (if route.id in cache && |cache[route.id]| > 0 then RouteLines(route, cache[route.id], selected) else [])
  }

  /** Every drawn line shows the non-empty cached path of the route it belongs to. */
  lemma {:induction false} RouteLayerShowsCache(routes: seq<Route>, cache: map<string, seq<Point>>, selected: Option<string>, n: nat)
    requires n <= |routes|
    ensures forall d :: d in RouteLayer(routes, cache, selected, n) ==>
      d.routeId in cache && cache[d.routeId] != [] && d.coords == cache[d.routeId]
  {
    if n > 0 {
      RouteLayerShowsCache(routes, cache, selected, n - 1);
    }
  }

  /** Every listed route with a non-empty cached path has its main line drawn. */
  lemma {:induction false} RouteLayerDrawsAll(routes: seq<Route>, cache: map<string, seq<Point>>, selected: Option<string>, n: nat, i: nat)
    requires i < n <= |routes|
    requires routes[i].id in cache && cache[routes[i].id] != []
    ensures RouteLines(routes[i], cache[routes[i].id], selected)[1] in RouteLayer(routes, cache, selected, n)
  {
    var rest := RouteLayer(routes, cache, selected, n - 1);
    if i < n - 1 {
      RouteLayerDrawsAll(routes, cache, selected, n - 1, i);
      var route := routes[n - 1];
      var tail := if route.id in cache && |cache[route.id]| > 0 then RouteLines(route, cache[route.id], selected) else [];
      assert RouteLayer(routes, cache, selected, n) == rest + tail;
    }
  }

  // --------------------------------------------------- marker layer (:337-373)

  /** A location marker: highlight state, icon size, customer number and z-index offset. */
  datatype LocationMarker = LocationMarker(locationId: int, at: Point, kind: LocationKind, highlighted: bool,
                                           size: int, number: Option<int>, zIndexOffset: int)

  /** How many of the locations are customers. */
  function CountCustomers(locations: seq<Location>): nat
  {
    if locations == [] then 0
    else CountCustomers(locations[..|locations| - 1]) + (if locations[|locations| - 1].kind == Customer then 1 else 0)
  }

  /**
    `selectedRoute ? routes.find(r => r.id === selectedRoute)?.stops.includes(id) : false`,
    where the empty string counts as no selection.
   */
  function IsHighlighted(id: int, routes: seq<Route>, selected: Option<string>): (r: bool)
    ensures r <==> selected.Some? && selected.value != "" && FindRoute(routes, selected.value).Some?
                   && id in FindRoute(routes, selected.value).value.stops
  {
    match selected
    case None => false
    case Some(s) =>
      if s == "" then false
      else match FindRoute(routes, s)
        case None => false
        case Some(route) => id in route.stops
  }

  /** The marker for the `i`-th location, the customer counter standing at `customerIndex`. */
  function MarkerFor(location: Location, customerIndex: int, routes: seq<Route>, selected: Option<string>): (m: LocationMarker)
    ensures m.locationId == location.id && m.at == location.pos && m.kind == location.kind
    ensures m.highlighted <==> IsHighlighted(location.id, routes, selected)
    ensures m.size == (if m.highlighted then 44 else 36)
    ensures m.number.Some? <==> location.kind == Customer
    ensures m.number.Some? ==> m.number.value == customerIndex
    ensures m.zIndexOffset == (if location.kind == Warehouse then 500 else 100)
  {
    var highlighted := IsHighlighted(location.id, routes, selected);
    LocationMarker(location.id, location.pos, location.kind, highlighted,
                   if highlighted then 44 else 36,
                   if location.kind == Customer then Some(customerIndex) else None,
                   if location.kind == Warehouse then 500 else 100)
  }

  /** The marker layer: one marker per location, in list order, customers numbered from 1. */
  function MarkerLayer(locations: seq<Location>, routes: seq<Route>, selected: Option<string>): (r: seq<LocationMarker>)
    ensures |r| == |locations|
  {
    if locations == [] then []
    else
      var n := |locations| - 1;
      MarkerLayer(locations[..n], routes, selected)
        + [MarkerFor(locations[n], CountCustomers(locations[..n]) + 1, routes, selected)]
  }

  /** The `i`-th marker is the `i`-th location's, numbered by the customers before it. */
  lemma {:induction false} MarkerLayerAt(locations: seq<Location>, routes: seq<Route>, selected: Option<string>, i: nat)
    requires i < |locations|
    ensures MarkerLayer(locations, routes, selected)[i] == MarkerFor(locations[i], CountCustomers(locations[..i]) + 1, routes, selected)
  {
    var n := |locations| - 1;
    if i < n {
      MarkerLayerAt(locations[..n], routes, selected, i);
      assert locations[..n][..i] == locations[..i];
    }
  }

  lemma CountCustomersStep(locations: seq<Location>, i: nat)
    requires i < |locations|
    ensures CountCustomers(locations[..i + 1]) == CountCustomers(locations[..i]) + (if locations[i].kind == Customer then 1 else 0)
  {
    assert locations[..i + 1][..i] == locations[..i];
  }

  lemma {:induction false} CountCustomersMonotone(locations: seq<Location>, i: nat, j: nat)
    requires i <= j <= |locations|
    ensures CountCustomers(locations[..i]) <= CountCustomers(locations[..j])
    decreases j - i
  {
    if i < j {
      CountCustomersMonotone(locations, i, j - 1);
      CountCustomersStep(locations, j - 1);
    }
  }

  /**
    Customers are numbered 1, 2, 3, ... in list order: numbers strictly increase
    along the list, the first customer is 1, and warehouses carry no number.
   */
  lemma CustomerNumbering(locations: seq<Location>, routes: seq<Route>, selected: Option<string>, i: nat, j: nat)
    requires i < j < |locations|
    requires locations[i].kind == Customer && locations[j].kind == Customer
    ensures MarkerLayer(locations, routes, selected)[i].number.Some? && MarkerLayer(locations, routes, selected)[j].number.Some?
    ensures MarkerLayer(locations, routes, selected)[i].number.value < MarkerLayer(locations, routes, selected)[j].number.value
  {
    MarkerLayerAt(locations, routes, selected, i);
    MarkerLayerAt(locations, routes, selected, j);
    CountCustomersStep(locations, i);
    CountCustomersMonotone(locations, i + 1, j);
  }

  /** The first customer in the list is number 1. */
  lemma {:induction false} FirstCustomerIsOne(locations: seq<Location>, routes: seq<Route>, selected: Option<string>, i: nat)
    requires i < |locations| && locations[i].kind == Customer
    requires forall k :: 0 <= k < i ==> locations[k].kind == Warehouse
    ensures MarkerLayer(locations, routes, selected)[i].number == Some(1)
  {
    MarkerLayerAt(locations, routes, selected, i);
    NoCustomersBefore(locations, i);
  }

  lemma {:induction false} NoCustomersBefore(locations: seq<Location>, i: nat)
    requires i <= |locations|
    requires forall k :: 0 <= k < i ==> locations[k].kind == Warehouse
    ensures CountCustomers(locations[..i]) == 0
  {
    if i > 0 {
      NoCustomersBefore(locations, i - 1);
      CountCustomersStep(locations, i - 1);
    }
  }

  /** The loop at :343-372: one marker per location, a counter numbering the customers. */
  method DrawMarkers(locations: seq<Location>, routes: seq<Route>, selected: Option<string>) returns (layer: seq<LocationMarker>)
    ensures layer == MarkerLayer(locations, routes, selected)
  {
    layer := [];
    var customerIndex := 1;
    for i := 0 to |locations|
      invariant customerIndex == CountCustomers(locations[..i]) + 1
      invariant layer == MarkerLayer(locations[..i], routes, selected)
    {
      var location := locations[i];
      layer := layer + [MarkerFor(location, customerIndex, routes, selected)];
      CountCustomersStep(locations, i);
      assert locations[..i + 1][..i] == locations[..i];
      if location.kind == Customer {
        customerIndex := customerIndex + 1;
      }
    }
    assert locations[..|locations|] == locations;
  }

  // ------------------------------------------------------------ the map view

  /** The layer groups, route cache and truck map of one mounted fleet map. */
  class FleetRoutingMapView {
    var routeCache: map<string, seq<Point>>
    var routeLayer: seq<Polyline>
    var truckLayer: seq<TruckMarker>
    var markerLayer: seq<LocationMarker>
    var truckPositions: map<string, Truck>

    ghost predicate Valid()
      reads this
    {
      (forall k :: k in routeCache ==> routeCache[k] != []) &&
      (forall k :: k in truckPositions ==> TruckValid(truckPositions[k]))
    }

    /** A freshly mounted map: empty cache, empty layers, no trucks. */
    constructor ()
      ensures Valid()
      ensures routeCache == map[] && truckPositions == map[]
      ensures routeLayer == [] && truckLayer == [] && markerLayer == []
    {
      routeCache, truckPositions := map[], map[];
      routeLayer, truckLayer, markerLayer := [], [], [];
    }

    /** The effect at :181-213: rebuild the cache and replace it wholesale. */
    method RefreshRouteCache(routes: seq<Route>, locations: seq<Location>, fetch: (Point, Point) -> Option<seq<Point>>)
      requires Valid()
      modifies this
      ensures Valid()
      ensures routeCache == BuildCache(fetch, locations, routes)
      ensures routeLayer == old(routeLayer) && truckLayer == old(truckLayer) && markerLayer == old(markerLayer)
      ensures truckPositions == old(truckPositions)
    {
      var newCache := FetchRoutes(routes, locations, fetch);
      CacheEntries(fetch, locations, routes);
      routeCache := newCache;
    }

    /** The effect at :215-266: clear the route layer and draw every route that has a cached path. */
    method RedrawRoutes(routes: seq<Route>, selected: Option<string>)
      requires Valid()
      modifies this
      ensures Valid()
      ensures routeLayer == RouteLayer(routes, routeCache, selected, |routes|)
      ensures routeCache == old(routeCache) && truckLayer == old(truckLayer) && markerLayer == old(markerLayer)
      ensures truckPositions == old(truckPositions)
    {
      routeLayer := [];
      for i := 0 to |routes|
        invariant routeLayer == RouteLayer(routes, routeCache, selected, i)
        invariant routeCache == old(routeCache) && truckLayer == old(truckLayer) && markerLayer == old(markerLayer)
        invariant truckPositions == old(truckPositions)
      {
        var route := routes[i];
        if route.id in routeCache && |routeCache[route.id]| > 0 {
          routeLayer := routeLayer + RouteLines(route, routeCache[route.id], selected);
        }
      }
    }

    /**
      The effect at :268-298: clear the truck layer and the position map, then,
      when animating, seed one truck per route whose cached path has two points
      or more; `rnd[i]` is the `Math.random()` value drawn for route `i`.
     */
    method RestartAnimation(routes: seq<Route>, isAnimating: bool, rnd: seq<real>)
      requires Valid()
      requires |rnd| == |routes| && forall i :: 0 <= i < |rnd| ==> 0.0 <= rnd[i] < 1.0
      modifies this
      ensures Valid()
      ensures !isAnimating ==> truckLayer == [] && truckPositions == map[]
      ensures isAnimating ==> truckPositions == SeedTrucks(routes, routeCache, rnd, |routes|)
      ensures isAnimating ==> truckLayer == TruckLayer(routes, routeCache, |routes|)
      ensures routeCache == old(routeCache) && routeLayer == old(routeLayer) && markerLayer == old(markerLayer)
    {
      truckLayer := [];
      truckPositions := map[];
      if !isAnimating {
        return;
      }
      for i := 0 to |routes|
        invariant truckPositions == SeedTrucks(routes, routeCache, rnd, i)
        invariant truckLayer == TruckLayer(routes, routeCache, i)
        invariant routeCache == old(routeCache) && routeLayer == old(routeLayer) && markerLayer == old(markerLayer)
      {
        var route := routes[i];
        if route.id in routeCache && |routeCache[route.id]| >= 2 {
          var coords := routeCache[route.id];
          truckLayer := truckLayer + [TruckMarker(route.id, route.color)];
          truckPositions := truckPositions[route.id := Truck(SeedPosition(rnd[i], |coords|), coords, coords[0])];
        }
      }
    }

    /**
      One call of `animate` (:302-326) with `delta` milliseconds since the last
      frame: every truck whose route is still listed advances and its marker moves.
     */
    method AnimateFrame(routes: seq<Route>, delta: real)
      requires Valid() && delta >= 0.0
      modifies this
      ensures Valid()
      ensures truckPositions == AdvanceAll(old(truckPositions), routes, delta)
      ensures routeCache == old(routeCache) && routeLayer == old(routeLayer)
      ensures truckLayer == old(truckLayer) && markerLayer == old(markerLayer)
    {
      ghost var before := truckPositions;
      var pending := truckPositions.Keys;
      while pending != {}
        invariant pending <= before.Keys && truckPositions.Keys == before.Keys
        invariant forall k :: k in pending ==> truckPositions[k] == before[k]
        invariant forall k :: k in before && k !in pending ==>
          truckPositions[k] == (if FindRoute(routes, k).Some? then AdvanceTruck(before[k], delta) else before[k])
        invariant Valid()
        invariant routeCache == old(routeCache) && routeLayer == old(routeLayer)
        invariant truckLayer == old(truckLayer) && markerLayer == old(markerLayer)
        decreases pending
      {
        var k :| k in pending;
        if FindRoute(routes, k).Some? {
          truckPositions := truckPositions[k := AdvanceTruck(truckPositions[k], delta)];
        }
        pending := pending - {k};
      }
    }

    /** The effect at :337-373: clear the marker layer and draw one marker per location. */
    method RedrawMarkers(locations: seq<Location>, routes: seq<Route>, selected: Option<string>)
      requires Valid()
      modifies this
      ensures Valid()
      ensures markerLayer == MarkerLayer(locations, routes, selected)
      ensures routeCache == old(routeCache) && routeLayer == old(routeLayer)
      ensures truckLayer == old(truckLayer) && truckPositions == old(truckPositions)
    {
      markerLayer := DrawMarkers(locations, routes, selected);
    }
  }
}
