/**
  The fleet routing tab: the delivery locations and optimised routes handed to
  the fleet map, the route selection that both the map and the route cards
  toggle, the animation switch, the before/after savings, the stop labels of
  the route cards and the vehicle table's classifications.
 */
module FleetRoutingTab {
  import opened Optional
  import opened Geo
  import opened FleetRoutingMap
  import opened StatusBadge
  import opened Selection

  // ------------------------------------------------------------- datasets

  /** `deliveryLocations` (:18-30). */
  const Locations: seq<Location> := [
    Location(1, "Warehouse HQ", Point(49.1427, 9.2109), Warehouse, None),
    Location(2, "Audi Neckarsulm", Point(49.1912, 9.2272), Customer, Some(45.0)),
    Location(3, "Bosch Abstatt", Point(49.0743, 9.3056), Customer, Some(32.0)),
    Location(4, "Lidl Zentrale", Point(49.0817, 9.2694), Customer, Some(78.0)),
    Location(5, "Schwarz IT", Point(49.1167, 9.2167), Customer, Some(24.0)),
    Location(6, "Würth Künzelsau", Point(49.2833, 9.6833), Customer, Some(56.0)),
    Location(7, "Ziehl-Abegg", Point(49.1500, 9.4667), Customer, Some(38.0)),
    Location(8, "Bechtle Neckarsulm", Point(49.1939, 9.2250), Customer, Some(29.0)),
    Location(9, "Kolbenschmidt", Point(49.1350, 9.1780), Customer, Some(41.0)),
    Location(10, "KACO Bad Rappenau", Point(49.2350, 9.1019), Customer, Some(35.0)),
    Location(11, "Intersport Heilbronn", Point(49.1500, 9.2300), Customer, Some(22.0))
  ]

  /** `routes` (:33-74). */
  const Routes: seq<Route> := [
    Route("Route A", "Truck 01", "#3b82f6", [1, 2, 8, 5, 11, 1], Active),
    Route("Route B", "Truck 02", "#22c55e", [1, 4, 3, 9, 1], Active),
    Route("Route C", "Truck 03", "#f97316", [1, 10, 6, 7, 1], Active),
    Route("Route D", "Truck 04", "#8b5cf6", [1, 9, 10, 1], Pending)
  ]

  /** The warehouse's location id. */
  const WarehouseId: int := 1

  /**
    The location ids are 1 to 11 in list order, the only warehouse is id 1, every
    stop of every route is a location id, and every route starts and ends at the
    warehouse.
   */
  lemma RouteStopsAreLocations()
    ensures forall i :: 0 <= i < |Locations| ==> Locations[i].id == i + 1
    ensures forall i :: 0 <= i < |Locations| ==> (Locations[i].kind == Warehouse <==> Locations[i].id == WarehouseId)
    ensures forall r :: r in Routes ==> forall s :: s in r.stops ==> 1 <= s <= |Locations|
    ensures forall r :: r in Routes ==> |r.stops| >= 2 && r.stops[0] == WarehouseId && r.stops[|r.stops| - 1] == WarehouseId
  {
  }

  /** Every stop of every route is found by the map's location lookup. */
  lemma EveryStopResolves()
    ensures forall r, s :: r in Routes && s in r.stops ==> FindLocation(Locations, s).Some?
  {
    RouteStopsAreLocations();
    forall r, s | r in Routes && s in r.stops ensures FindLocation(Locations, s).Some? {
      var i := s - 1;
      assert Locations[i].id == s;
    }
  }

  /** The four routes together visit every customer. */
  lemma RoutesCoverAllCustomers()
    ensures forall l :: l in Locations && l.kind == Customer ==> exists r :: r in Routes && l.id in r.stops
  {
    forall l | l in Locations && l.kind == Customer ensures exists r :: r in Routes && l.id in r.stops {
      if l.id in Routes[0].stops { assert Routes[0] in Routes; }
      else if l.id in Routes[1].stops { assert Routes[1] in Routes; }
      else { assert Routes[2] in Routes; }
    }
  }

  // ------------------------------------------------------ route selection

  /** A route card is highlighted exactly when its route is the selected one. */
  function CardHighlighted(route: Route, selected: Option<string>): (r: bool)
    ensures r <==> selected == Some(route.id)
  {
    selected == Some(route.id)
  }

  /** After a click on a card that was not highlighted, it is the only highlighted card among routes with distinct ids. */
  lemma ClickSelectsOnlyThatCard(selected: Option<string>, i: nat, j: nat)
    requires i < |Routes| && j < |Routes| && !CardHighlighted(Routes[i], selected)
    ensures CardHighlighted(Routes[j], Toggled(selected, Routes[i].id)) <==> i == j
  {
  }

  /** The tab's two state fields. */
  class FleetRoutingTabState {
    var isAnimating: bool
    var selectedRoute: Option<string>

    /** The tab mounts animating, with no route selected. */
    constructor ()
      ensures isAnimating && selectedRoute == None
    {
      isAnimating, selectedRoute := true, None;
    }

    /** A click on a route line or a route card (:228, :249). */
    method ToggleRoute(routeId: string)
      modifies this
      ensures selectedRoute == Toggled(old(selectedRoute), routeId)
      ensures isAnimating == old(isAnimating)
    {
      selectedRoute := if selectedRoute == Some(routeId) then None else Some(routeId);
    }

    /** The Simulate/Pause button (:163). */
    method ToggleAnimation()
      modifies this
      ensures isAnimating == !old(isAnimating) && selectedRoute == old(selectedRoute)
    {
      isAnimating := !isAnimating;
    }
  }

  // ------------------------------------------------------------- savings

  /** `(before - after) / before * 100`. */
  function SavingPercent(before: real, after: real): (r: real)
    requires before > 0.0
    ensures r > 0.0 <==> after < before
    ensures r == 0.0 <==> after == before
    ensures 0.0 <= after ==> r <= 100.0
  {
    SavedShare(before, after);
    (before - after) / before * 100.0
  }

  /** The saved share of the before value has the sign of the saving and is at most 1. */
  lemma SavedShare(before: real, after: real)
    requires before > 0.0
    ensures (before - after) / before > 0.0 <==> after < before
    ensures (before - after) / before == 0.0 <==> after == before
    ensures 0.0 <= after ==> (before - after) / before <= 1.0
  {
    var d := before - after;
    if d < 0.0 {
      assert d / before == -((-d) / before);
    }
  }

  /** `x.toFixed(0)` on a non-negative number: round to the nearest integer, halves up. */
  function RoundNonNegative(x: real): (n: int)
    requires x >= 0.0
    ensures n as real - 0.5 <= x < n as real + 0.5
  {
    (x + 0.5).Floor
  }

  /** The three savings shown: 17 % distance, 35 % time, 33 % fuel. */
  lemma DatasetSavings()
    ensures RoundNonNegative(SavingPercent(142.0, 118.0)) == 17
    ensures RoundNonNegative(SavingPercent(8.5, 5.5)) == 35
    ensures RoundNonNegative(SavingPercent(78.0, 52.0)) == 33
  {
    assert SavingPercent(142.0, 118.0) == 2400.0 / 142.0;
    assert SavingPercent(8.5, 5.5) == 300.0 / 8.5;
    assert SavingPercent(78.0, 52.0) == 2600.0 / 78.0;
  }

  // ---------------------------------------------------------- stop labels (:283)

  /** `name.split(' ')[0]`: the name up to its first space. */
  function FirstWord(name: string): (w: string)
    ensures |w| <= |name| && w == name[..|w|]
    ensures ' ' !in w
    ensures |w| < |name| ==> name[|w|] == ' '
  {
    if name == [] || name[0] == ' ' then []
    else [name[0]] + FirstWord(name[1..])
  }

  /** A name without a space is its own first word. */
  lemma {:induction false} FirstWordOfOneWord(name: string)
    requires ' ' !in name
    ensures FirstWord(name) == name
  {
    if name != [] {
      FirstWordOfOneWord(name[1..]);
    }
  }

  /** The label part of one stop: its location's first word, or empty for an unknown id (`undefined` joins as ""). */
  function StopWord(locations: seq<Location>, id: int): string
  {
    match FindLocation(locations, id)
    case Some(l) => FirstWord(l.name)
    case None => ""
  }

  /** The separator between stops. */
  const Arrow: string := " → "

  /** `parts.join(sep)`. */
  function Join(parts: seq<string>, sep: string): string
  {
    if parts == [] then ""
    else if |parts| == 1 then parts[0]
    else parts[0] + sep + Join(parts[1..], sep)
  }

  /** The joined label is as long as its parts plus one separator between each two. */
  lemma {:induction false} JoinLength(parts: seq<string>, sep: string)
    requires parts != []
    ensures |Join(parts, sep)| == TotalLength(parts) + (|parts| - 1) * |sep|
  {
    if |parts| > 1 {
      JoinLength(parts[1..], sep);
    }
  }

  /** The first part opens the joined label, followed by a separator when more parts follow. */
  lemma JoinStartsWithFirst(parts: seq<string>, sep: string)
    requires parts != []
    ensures |parts[0]| <= |Join(parts, sep)| && Join(parts, sep)[..|parts[0]|] == parts[0]
    ensures |parts| > 1 ==> Join(parts, sep)[|parts[0]|..|parts[0]| + |sep|] == sep
  {
    if |parts| > 1 {
      assert Join(parts, sep) == parts[0] + sep + Join(parts[1..], sep);
      assert (parts[0] + sep + Join(parts[1..], sep))[..|parts[0]|] == parts[0];
    }
  }

  /**
    The stops line of a route card: empty for a route without stops; otherwise it
    opens with the first stop's word, followed by the arrow when more stops follow,
    and holds one word per stop with an arrow between each two.
   */
  function StopsLabel(locations: seq<Location>, stops: seq<int>): (r: string)
    ensures stops == [] ==> r == ""
    ensures stops != [] ==> var w := StopWord(locations, stops[0]);
      |w| <= |r| && r[..|w|] == w
    ensures |stops| > 1 ==> var n := |StopWord(locations, stops[0])|;
      n + |Arrow| <= |r| && r[n..n + |Arrow|] == Arrow
    ensures stops != [] ==> |r| == TotalLength(StopWords(locations, stops)) + (|stops| - 1) * |Arrow|
    ensures |stops| == 1 ==> r == StopWord(locations, stops[0])
    ensures |stops| > 1 ==> r == StopWord(locations, stops[0]) + Arrow + StopsLabel(locations, stops[1..])
  {
    var words := StopWords(locations, stops);
    if stops == [] then Join(words, Arrow)
    else
      assert words[1..] == StopWords(locations, stops[1..]);
      JoinStartsWithFirst(words, Arrow);
      JoinLength(words, Arrow);
      Join(words, Arrow)
  }

  /** `route.stops.map(...)`: one word per stop, in stop order. */
  function StopWords(locations: seq<Location>, stops: seq<int>): (r: seq<string>)
    ensures |r| == |stops| && forall i :: 0 <= i < |stops| ==> r[i] == StopWord(locations, stops[i])
  {
    seq(|stops|, i requires 0 <= i < |stops| => StopWord(locations, stops[i]))
  }

  /** The location lookup finds the location with list position `id - 1`. */
  lemma LocationById(id: int)
    requires 1 <= id <= |Locations|
    ensures FindLocation(Locations, id) == Some(Locations[id - 1])
  {
    RouteStopsAreLocations();
    assert Locations[id - 1].id == id;
  }

  /** The first word is the one space-free prefix followed by a space or by the end of the name. */
  lemma FirstWordIs(name: string, w: string)
    requires |w| <= |name| && w == name[..|w|] && ' ' !in w
    requires |w| < |name| ==> name[|w|] == ' '
    ensures FirstWord(name) == w
  {
    var f := FirstWord(name);
    assert |f| == |w|;
  }

  // ---------------------------------------------------- vehicle table (:454-490)

  /** The vehicle status badge: delivering, en route, waiting; anything else is a danger. */
  function VehicleBadge(status: string): (b: Status)
    ensures b == Success <==> status == "delivering"
    ensures b == Info <==> status == "en-route"
    ensures b == Warning <==> status == "waiting"
    ensures b == Danger <==> status !in {"delivering", "en-route", "waiting"}
  {
    if status == "delivering" then Success
    else if status == "en-route" then Info
    else if status == "waiting" then Warning
    else Danger
  }

  /** The route card badge: active routes are a success, all others a warning. */
  function RouteBadge(route: Route): (b: Status)
    ensures b == Success <==> route.status == Active
    ensures b == Warning <==> route.status != Active
  {
    if route.status == Active then Success else Warning
  }

  datatype FuelColor = FuelGreen | FuelAmber | FuelRed

  /** The fuel bar: green above 70, amber above 40, red otherwise. */
  function FuelBar(fuel: real): (c: FuelColor)
    ensures c == FuelGreen <==> fuel > 70.0
    ensures c == FuelAmber <==> 40.0 < fuel <= 70.0
    ensures c == FuelRed <==> fuel <= 40.0
  {
    if fuel > 70.0 then FuelGreen else if fuel > 40.0 then FuelAmber else FuelRed
  }

  /** A lower fuel level never shows a better colour. */
  lemma FuelBarMonotone(a: real, b: real)
    requires a <= b
    ensures FuelBar(a) == FuelGreen ==> FuelBar(b) == FuelGreen
    ensures FuelBar(b) == FuelRed ==> FuelBar(a) == FuelRed
  {
  }

  /** The speed column shows the speed only when the vehicle moves, and a dash otherwise. */
  function SpeedShown(speed: real): (r: Option<real>)
    ensures r.Some? <==> speed > 0.0
    ensures r.Some? ==> r.value == speed
  {
    if speed > 0.0 then Some(speed) else None
  }
}
