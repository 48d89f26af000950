# Heilbronn innovation hub dashboard: a verified model of its logic

The dashboard is a client-only React application built on fixed mock data. It
has tabs for a digital twin of a factory, fleet routing, predictive maintenance
and the supply chain, plus a slide presentation page. This project models in
Dafny the parts of it that carry logic:

- **The fleet route map.** Road geometry is fetched from the OSRM routing
  service for every pair of consecutive stops. The segments are concatenated
  into one path per route and kept in a route cache. Paths are drawn as
  polylines. One truck per route runs along its path frame by frame.
  Delivery locations are drawn as markers, with customers numbered in order.
- **The supply-chain map.** It draws one coloured flow line per material flow
  between two known nodes. While the simulation runs, a vehicle travels each
  active flow. Node markers highlight the current simulation step and classify
  inventory levels.
- **The presentation page.** A slide navigator driven by the keyboard, the
  buttons, the slide dots and an auto-play interval.
- **The language context.** The German/English lookup `t`, which falls back to
  the key itself.
- **The tabs' rules.** Simulation-step cycling, select/deselect toggles,
  savings percentages and totals, the stop label, threshold colour
  classifications, zoom clamps, and the referential integrity of the mock
  datasets.
- **Two shared widgets.** The progress bar's capped percentage, and the metric
  card's trend classification.

The modules follow the source files, one module per file:

| module | file |
|---|---|
| `FleetRoutingMap` | `fleet_routing_map.dfy` |
| `SupplyChainMap` | `supply_chain_map.dfy` |
| `Presentation` | `presentation.dfy` |
| `LanguageContext` | `language_context.dfy` |
| `SupplyChainTab` | `supply_chain_tab.dfy` |
| `FleetRoutingTab` | `fleet_routing_tab.dfy` |
| `PredictiveMaintenanceTab` | `predictive_maintenance_tab.dfy` |
| `DigitalTwinTab` | `digital_twin_tab.dfy` |
| `ProgressBar` | `progress_bar.dfy` |
| `MetricCard` | `metric_card.dfy` |

Four small modules hold what several of these share:

- `Optional` holds `Option`.
- `Geo` holds `[lat, lng]` points and linear interpolation.
- `StatusBadge` holds the five badge tones.
- `Selection` holds the select/deselect toggle.

Where the source changes state in place, the model does too.

- **The two maps.** Each is a class holding its Leaflet layer groups as
  sequences of abstract drawables, and the truck or vehicle position map as a
  Dafny `map`. Its methods clear and refill them.
- **The route cache.** It is built by a method with the source's nested loops
  (`FetchRoutes`).
- **The marker loop.** It keeps the source's running `customerIndex`
  (`DrawMarkers`).
- **Proofs.** Each method is proved against a specification function. The
  properties are proved as lemmas about those functions.

Three things become parameters:

- The OSRM service is a function from the request's waypoints to a decoded
  response.
- `Math.random()` is a sequence of reals in `[0, 1)`.
- The animation clock is the `delta >= 0` passed to each frame.

## Model

| member | source | states |
|---|---|---|
| FleetRoutingMap.SwapCoordinates | src/components/maps/FleetRoutingLeafletMap.tsx:89 | the returned points have the same length and order as the GeoJSON positions, each `[lng, lat]` turned into `[lat, lng]` |
| FleetRoutingMap.SwapRoundTrip | src/components/maps/FleetRoutingLeafletMap.tsx:89 | swapping back to GeoJSON order restores the service's positions exactly |
| FleetRoutingMap.ToGeoJsonRoundTrip | src/components/maps/FleetRoutingLeafletMap.tsx:84-89 | the swap is a bijection: GeoJSON order and back restores any point list |
| FleetRoutingMap.RequestWaypoints | src/components/maps/FleetRoutingLeafletMap.tsx:84 | the request URL lists both endpoints longitude first, as section 3.1.1 of RFC 7946 orders positions |
| FleetRoutingMap.DecodeRoute | src/components/maps/FleetRoutingLeafletMap.tsx:82-96 | a path comes back exactly when the response decoded and has a first route with geometry; network and decode failures give no path, never an error; the path is that geometry swapped |
| FleetRoutingMap.FetchRealRoute | src/components/maps/FleetRoutingLeafletMap.tsx:82-96 | for the reply to the request with both endpoints longitude first, a path comes back exactly when the reply decodes with a non-empty `routes` whose first route has a geometry, and that path read back in GeoJSON order is the geometry |
| FleetRoutingMap.FindLocation | src/components/maps/FleetRoutingLeafletMap.tsx:190-191 | `locations.find`: a found location is the first listed location with that id; nothing is found only when no location has the id |
| FleetRoutingMap.SegmentCases | src/components/maps/FleetRoutingLeafletMap.tsx:189-201 | a stop pair contributes the fetched segment when both stops resolve and the fetch succeeds, and nothing when a stop is unknown or the fetch fails |
| FleetRoutingMap.Segments | src/components/maps/FleetRoutingLeafletMap.tsx:189 | there is one segment per consecutive stop pair |
| FleetRoutingMap.ConcatStep | src/components/maps/FleetRoutingLeafletMap.tsx:199 | each `push(...segment)` appends the next segment to the path built so far |
| FleetRoutingMap.ConcatAppend | src/components/maps/FleetRoutingLeafletMap.tsx:189-201 | concatenation distributes over appending segment lists |
| FleetRoutingMap.ConcatLength | src/components/maps/FleetRoutingLeafletMap.tsx:189-201 | a route's path length is the sum of its segments' lengths |
| FleetRoutingMap.FullPathLength | src/components/maps/FleetRoutingLeafletMap.tsx:189-201 | a route's `fullRoute` is as long as all its stop pairs' segments together |
| FleetRoutingMap.ConcatPlacement | src/components/maps/FleetRoutingLeafletMap.tsx:189-201 | segment `j` sits in the path, in order, right after the segments of the earlier stop pairs |
| FleetRoutingMap.ConcatOfEmpty | src/components/maps/FleetRoutingLeafletMap.tsx:198-201 | segments that all came back empty give an empty path |
| FleetRoutingMap.UnresolvedPairsGiveEmptyPath | src/components/maps/FleetRoutingLeafletMap.tsx:193-201 | a route none of whose stop pairs resolves to a fetched segment gets an empty path |
| FleetRoutingMap.CacheEntries | src/components/maps/FleetRoutingLeafletMap.tsx:204-209 | every cache entry is a non-empty full path of a listed route, and every route with a non-empty path has an entry |
| FleetRoutingMap.BuildCache | src/components/maps/FleetRoutingLeafletMap.tsx:204-209 | every cache entry is non-empty and is keyed by the id of a listed route |
| FleetRoutingMap.CacheOfDistinctRoutes | src/components/maps/FleetRoutingLeafletMap.tsx:204-206 | with distinct route ids, a route has a cache entry iff its path is non-empty, and the entry is that path |
| FleetRoutingMap.FetchRoutePath | src/components/maps/FleetRoutingLeafletMap.tsx:187-201 | the inner loop over consecutive stop pairs builds exactly the route's full path, the concatenation of its pair segments |
| FleetRoutingMap.FetchRoutes | src/components/maps/FleetRoutingLeafletMap.tsx:181-213 | the nested loops build exactly the cache the specification function describes |
| FleetRoutingMap.SeedPosition | src/components/maps/FleetRoutingLeafletMap.tsx:294 | the initial position lies in `[0, 0.3·len)` and before the last point |
| FleetRoutingMap.SeededRoutes | src/components/maps/FleetRoutingLeafletMap.tsx:284-298 | exactly the routes whose cached path has at least two points get a truck |
| FleetRoutingMap.SeedTrucks | src/components/maps/FleetRoutingLeafletMap.tsx:284-298 | each seeded truck runs on its route's cached path, starts within the first 30 percent of it, and has its marker on the first point |
| FleetRoutingMap.TruckLayer | src/components/maps/FleetRoutingLeafletMap.tsx:284-291 | the truck layer holds at most one marker per route, each for a route whose cached path has at least two points |
| FleetRoutingMap.TruckLayerMatchesSeeds | src/components/maps/FleetRoutingLeafletMap.tsx:284-298 | every route that gets a truck has its marker in its colour, and every marker's route has a truck in the position map |
| FleetRoutingMap.StepPosition | src/components/maps/FleetRoutingLeafletMap.tsx:310-313 | one frame adds `delta·0.003`, and resets to 0 on reaching the last point; afterwards the position is in `[0, len−1)` |
| FleetRoutingMap.FramesCompose | src/components/maps/FleetRoutingLeafletMap.tsx:310 | two frames that stay short of the end move as far as one frame covering both deltas |
| FleetRoutingMap.FullLapWraps | src/components/maps/FleetRoutingLeafletMap.tsx:311-313 | a frame covering a whole path length puts the truck back at the start |
| FleetRoutingMap.Split | src/components/maps/FleetRoutingLeafletMap.tsx:315-317 | `idx = floor(p)` and `nextIdx = min(idx+1, len−1)` are valid indices, `t = p − idx` is in `[0,1)`, and `nextIdx = idx+1` before the last point |
| FleetRoutingMap.Interpolate | src/components/maps/FleetRoutingLeafletMap.tsx:315-320 | the rendered point lies in the box spanned by `route[idx]` and `route[nextIdx]`, and at integer `p` it is `route[p]` |
| FleetRoutingMap.InterpolateExample | src/components/maps/FleetRoutingLeafletMap.tsx:319-320 | halfway along the third segment the point is the midpoint of that segment |
| FleetRoutingMap.AdvanceTruck | src/components/maps/FleetRoutingLeafletMap.tsx:310-322 | a frame moves the truck to `StepPosition` of its old position and keeps it animatable on the same path, with its marker at the interpolated point |
| FleetRoutingMap.FindRoute | src/components/maps/FleetRoutingLeafletMap.tsx:307 | `routes.find`: a found route is the first listed route with that id; nothing is found only when no route has it |
| FleetRoutingMap.AdvanceAll | src/components/maps/FleetRoutingLeafletMap.tsx:306-313 | the position map after the frame loop has exactly the keys it had before |
| FleetRoutingMap.AdvanceAllEffect | src/components/maps/FleetRoutingLeafletMap.tsx:306-313 | a frame keeps the set of trucks; trucks of listed routes move one step, the others are left untouched |
| FleetRoutingMap.RouteLines | src/components/maps/FleetRoutingLeafletMap.tsx:226-243 | each drawn route gets a glow line and a main line on its cached path, both in the route's colour, the glow at opacity 0.2; weights 12 and 5 with full opacity when selected, 8 and 3 with opacity 0.7 otherwise |
| FleetRoutingMap.RouteLayer | src/components/maps/FleetRoutingLeafletMap.tsx:222-265 | the layer is a run of glow/main pairs, at most one pair per route: exactly the even-placed lines are the 0.2-opacity glows |
| FleetRoutingMap.RouteLayerShowsCache | src/components/maps/FleetRoutingLeafletMap.tsx:222-224 | every drawn line belongs to a listed route with a non-empty cached path, and is drawn on that path |
| FleetRoutingMap.RouteLayerDrawsAll | src/components/maps/FleetRoutingLeafletMap.tsx:222-265 | every listed route with a non-empty cached path has its main line in the layer |
| FleetRoutingMap.IsHighlighted | src/components/maps/FleetRoutingLeafletMap.tsx:346 | a location is highlighted iff a non-empty route id is selected, that route is listed, and its stops contain the location |
| FleetRoutingMap.MarkerLayer | src/components/maps/FleetRoutingLeafletMap.tsx:343-372 | one marker per location |
| FleetRoutingMap.MarkerFor | src/components/maps/FleetRoutingLeafletMap.tsx:343-351 | a marker is highlighted iff its location is a stop of the selected route, with size 44 instead of 36; it carries the running number iff the location is a customer; warehouses get z-index 500, others 100 |
| FleetRoutingMap.MarkerLayerAt | src/components/maps/FleetRoutingLeafletMap.tsx:343-350 | marker `i` is drawn with the running customer index: one more than the number of customers listed before it |
| FleetRoutingMap.CountCustomersStep | src/components/maps/FleetRoutingLeafletMap.tsx:345 | `customerIndex++` runs exactly for customers |
| FleetRoutingMap.CountCustomersMonotone | src/components/maps/FleetRoutingLeafletMap.tsx:345 | the customer count never decreases along the list |
| FleetRoutingMap.CustomerNumbering | src/components/maps/FleetRoutingLeafletMap.tsx:343-349 | customers are numbered, and a later customer always gets a larger number |
| FleetRoutingMap.FirstCustomerIsOne | src/components/maps/FleetRoutingLeafletMap.tsx:343-345 | the first customer in the list is numbered 1 |
| FleetRoutingMap.NoCustomersBefore | src/components/maps/FleetRoutingLeafletMap.tsx:343-345 | warehouses do not advance the numbering |
| FleetRoutingMap.DrawMarkers | src/components/maps/FleetRoutingLeafletMap.tsx:343-372 | the loop with its running `customerIndex` draws exactly the specified marker layer |
| FleetRoutingMap.FleetRoutingMapView.constructor | src/components/maps/FleetRoutingLeafletMap.tsx:160-178 | a new map has an empty route cache, no trucks and three empty layers |
| FleetRoutingMap.FleetRoutingMapView.RefreshRouteCache | src/components/maps/FleetRoutingLeafletMap.tsx:181-213 | the cache is replaced wholesale by the newly built one; the layers and trucks are untouched |
| FleetRoutingMap.FleetRoutingMapView.RedrawRoutes | src/components/maps/FleetRoutingLeafletMap.tsx:215-266 | the route layer is cleared and refilled with the specified lines; nothing else changes |
| FleetRoutingMap.FleetRoutingMapView.RestartAnimation | src/components/maps/FleetRoutingLeafletMap.tsx:268-298 | the trucks are cleared; when animation is off, layer and positions stay empty; otherwise the positions are the seeded trucks and the truck layer is the specified one marker per seeded route, in route order |
| FleetRoutingMap.FleetRoutingMapView.AnimateFrame | src/components/maps/FleetRoutingLeafletMap.tsx:302-323 | one frame updates the truck positions in place as the specified frame does |
| FleetRoutingMap.FleetRoutingMapView.RedrawMarkers | src/components/maps/FleetRoutingLeafletMap.tsx:337-373 | the marker layer is cleared and refilled with the specified markers |
| SupplyChainMap.FlowColor | src/components/maps/SupplyChainLeafletMap.tsx:99-106 | active, delayed and blocked get green, amber and red; any other status gets grey |
| SupplyChainMap.FlowColorDistinguishes | src/components/maps/SupplyChainLeafletMap.tsx:99-106 | two statuses share a colour iff they are equal or both unknown, so the three known colours are distinct |
| SupplyChainMap.FindNode | src/components/maps/SupplyChainLeafletMap.tsx:201-202 | `nodes.find`: a found node is the first listed node with that id; nothing is found only when no node has it |
| SupplyChainMap.FlowLines | src/components/maps/SupplyChainLeafletMap.tsx:205-227 | each drawn flow is a glow line (weight 10, opacity 0.2) and a main line (weight 4, opacity 0.8) between its endpoints in its status colour; the main line is dashed iff the flow is not active |
| SupplyChainMap.FlowLayer | src/components/maps/SupplyChainLeafletMap.tsx:200-252 | the layer is a run of glow/main pairs, at most one pair per flow: exactly the even-placed lines are the weight-10 glows |
| SupplyChainMap.FlowLayerSize | src/components/maps/SupplyChainLeafletMap.tsx:200-252 | the layer holds two lines per flow with both endpoints known |
| SupplyChainMap.FlowLayerResolved | src/components/maps/SupplyChainLeafletMap.tsx:200-203 | every drawn line runs between two listed nodes; flows with an unknown endpoint are not drawn |
| SupplyChainMap.FlowLayerDrawsAll | src/components/maps/SupplyChainLeafletMap.tsx:200-252 | every flow whose endpoints are known has its main line drawn |
| SupplyChainMap.FlowKey | src/components/maps/SupplyChainLeafletMap.tsx:281 | the key is the source id, a dash and the target id |
| SupplyChainMap.SeedVehicles | src/components/maps/SupplyChainLeafletMap.tsx:271-287 | every seeded vehicle has a position in `[0,1)` and its marker at the source node |
| SupplyChainMap.SeededFlows | src/components/maps/SupplyChainLeafletMap.tsx:271-281 | exactly the active flows with two known endpoints have a vehicle under their key |
| SupplyChainMap.SeededVehicleIsLast | src/components/maps/SupplyChainLeafletMap.tsx:271-286 | the vehicle under a key is the one seeded for the last flow with that key: it starts at that flow's random value and runs between the positions of its endpoint nodes |
| SupplyChainMap.VehicleLayer | src/components/maps/SupplyChainLeafletMap.tsx:271-280 | the vehicle layer holds at most one marker per flow, all in the active green |
| SupplyChainMap.VehicleLayerMatchesSeeds | src/components/maps/SupplyChainLeafletMap.tsx:271-286 | every flow that gets a vehicle has its marker, and every marker's key has a vehicle in the position map |
| SupplyChainMap.StepVehicle | src/components/maps/SupplyChainLeafletMap.tsx:296-299 | one frame adds `delta·0.0002` and resets to 0 on reaching 1; afterwards the position is in `[0,1)` |
| SupplyChainMap.AdvanceVehicle | src/components/maps/SupplyChainLeafletMap.tsx:296-305 | the position takes one step, and the marker moves to `from + (to − from)·t` at the new position `t`, inside the box of the flow's endpoints; at `t = 0` it is exactly at the source node |
| SupplyChainMap.AdvanceVehicles | src/components/maps/SupplyChainLeafletMap.tsx:295-306 | the position map after the frame loop has the same keys, and every vehicle stays in `[0,1)` on its own flow |
| SupplyChainMap.AdvanceVehiclesEffect | src/components/maps/SupplyChainLeafletMap.tsx:295-306 | a frame keeps the set of vehicles; each takes one step on its own flow, with its marker at `from + (to − from)·t` inside the flow's box |
| SupplyChainMap.InventoryColor | src/components/maps/SupplyChainLeafletMap.tsx:332 | inventory is green above 80, amber above 50, red otherwise |
| SupplyChainMap.NodeMarkerFor | src/components/maps/SupplyChainLeafletMap.tsx:41-44 | a node is highlighted iff it is the current step's node, with size 48 instead of 40 and z-index 1000 instead of 0; customers show no inventory bar; other nodes show one in their inventory colour |
| SupplyChainMap.NodeLayer | src/components/maps/SupplyChainLeafletMap.tsx:326-360 | one marker per node |
| SupplyChainMap.HighlightIsUnique | src/components/maps/SupplyChainLeafletMap.tsx:327 | with distinct node ids at most one node is highlighted, and it is the current step's node |
| SupplyChainMap.SupplyChainMapView.constructor | src/components/maps/SupplyChainLeafletMap.tsx:108-191 | a new map has empty layers and no vehicles |
| SupplyChainMap.SupplyChainMapView.RedrawFlows | src/components/maps/SupplyChainLeafletMap.tsx:194-253 | the flow layer is cleared and refilled with the specified lines |
| SupplyChainMap.SupplyChainMapView.RestartSimulation | src/components/maps/SupplyChainLeafletMap.tsx:256-287 | when not simulating, the vehicle layer and the positions are empty; when simulating, the positions are the seeded vehicles and the vehicle layer is the specified one green marker per vehicle-getting flow, in flow order |
| SupplyChainMap.SupplyChainMapView.AnimateFrame | src/components/maps/SupplyChainLeafletMap.tsx:291-306 | one frame updates every vehicle in place as specified |
| SupplyChainMap.SupplyChainMapView.RedrawNodes | src/components/maps/SupplyChainLeafletMap.tsx:321-361 | the node layer is cleared and refilled with the specified markers |
| Presentation.NextIndex | src/pages/Presentation.tsx:668-670 | next never passes the last slide, and is a no-op on it |
| Presentation.PrevIndex | src/pages/Presentation.tsx:672-674 | prev never goes below 0, and is a no-op on the first slide |
| Presentation.PrevDisabled | src/pages/Presentation.tsx:779 | the Prev button is disabled exactly on slide 0 |
| Presentation.NextDisabled | src/pages/Presentation.tsx:803 | the Next button is disabled exactly on the last slide |
| Presentation.Step | src/pages/Presentation.tsx:664-803 | every event keeps the slide index in range, dot clicks on rendered dots included; the page leaves exactly on Escape |
| Presentation.OnKey | src/pages/Presentation.tsx:677-688 | a key press leaves iff the key is Escape, never touches auto-play, keeps the slide in range, and ignores every key but the five handled |
| Presentation.Run | src/pages/Presentation.tsx:664-803 | a sequence of events ends in leaving the page iff an Escape key press is among them |
| Presentation.RunStaysInRange | src/pages/Presentation.tsx:664-803 | the slide index stays in `[0, 10)` under every sequence of events |
| Presentation.RunLeavesOnlyOnEscape | src/pages/Presentation.tsx:685-686 | without an Escape key press the page never leaves |
| Presentation.NextThenPrev | src/pages/Presentation.tsx:668-674 | from an interior slide, next followed by prev returns to it |
| Presentation.PrevThenNext | src/pages/Presentation.tsx:668-674 | from any slide but the first, prev followed by next returns to it |
| Presentation.OtherKeysIgnored | src/pages/Presentation.tsx:677-688 | a key other than ArrowRight, Space, ArrowLeft, n and Escape changes nothing |
| Presentation.DisabledButtonsAreNoOps | src/pages/Presentation.tsx:776-807 | pressing a disabled button would not have moved the slide |
| Presentation.ToggleTwice | src/pages/Presentation.tsx:724-732 | toggling notes or play twice restores the state, whether by button or, for the notes, by the `n` key at line 684 |
| Presentation.Ticks | src/pages/Presentation.tsx:694-699 | `n` consecutive interval ticks |
| Presentation.TicksSaturate | src/pages/Presentation.tsx:694-699 | while playing, `n` ticks advance `n` slides and then stay on the last one |
| Presentation.PausedTicksIgnored | src/pages/Presentation.tsx:694-699 | while paused, ticks change nothing |
| Presentation.PresentationPage.constructor | src/pages/Presentation.tsx:664-666 | the page starts on slide 0, with notes shown and auto-play off |
| Presentation.PresentationPage.NextSlide | src/pages/Presentation.tsx:668-670 | `currentSlide` becomes the saturating next index; the other fields are untouched |
| Presentation.PresentationPage.PrevSlide | src/pages/Presentation.tsx:672-674 | `currentSlide` becomes the saturating previous index; the other fields are untouched |
| Presentation.PresentationPage.HandleKeyDown | src/pages/Presentation.tsx:677-688 | the handler updates the fields as the transition function does for that key, and reports leaving exactly on Escape |
| Presentation.PresentationPage.OnTick | src/pages/Presentation.tsx:694-699 | a tick advances only while playing |
| Presentation.PresentationPage.ToggleNotes | src/pages/Presentation.tsx:724 | the notes button flips `showNotes` |
| Presentation.PresentationPage.TogglePlay | src/pages/Presentation.tsx:732 | the play button flips `isPlaying` |
| Presentation.PresentationPage.GoTo | src/pages/Presentation.tsx:786-789 | a dot click jumps straight to that slide |
| LanguageContext.Translate | src/contexts/LanguageContext.tsx:207-214 | a present key gives its entry's string for the current language; a missing key gives the key itself |
| LanguageContext.SwitchOnlyAffectsPresentKeys | src/contexts/LanguageContext.tsx:205-214 | switching the language leaves missing keys resolving to themselves |
| LanguageContext.HeaderInEnglish | src/contexts/LanguageContext.tsx:15-19 | the header titles resolve per language, and an unknown header key resolves to itself |
| LanguageContext.TranslateAsWritten | src/contexts/LanguageContext.tsx:208-213 | the lookup as written: an inherited `Object.prototype` name is found as a member and yields `undefined` |
| LanguageContext.AsWrittenAgreesOffPrototype | src/contexts/LanguageContext.tsx:208-213 | the lookup as written agrees with the intended lookup exactly on keys that are in the table or are not inherited names |
| LanguageContext.ToStringIsNotFallenBack | src/contexts/LanguageContext.tsx:208-211 | `t("toString")` yields `undefined` as written, where the fallback promises `"toString"` |
| LanguageContext.UseLanguage | src/contexts/LanguageContext.tsx:223-228 | `useLanguage` succeeds iff there is a provider, then returning its value; otherwise it fails with the source's message |
| LanguageContext.LanguageProvider.constructor | src/contexts/LanguageContext.tsx:205 | the initial language is German |
| LanguageContext.LanguageProvider.SetLanguage | src/contexts/LanguageContext.tsx:205-214 | after `setLanguage(l)` every present key resolves to its `l` string and every missing key to itself, under the corrected lookup (the source's `t` differs on the inherited names listed under "## Findings") |
| LanguageContext.LanguageProvider.T | src/contexts/LanguageContext.tsx:207-214 | the provider's `t` is the lookup in its table for its current language; it uses the corrected lookup, which differs from the source's `t` on the inherited names listed under "## Findings" |
| LanguageContext.LanguageProvider.Value | src/contexts/LanguageContext.tsx:217 | the context value carries the current language |
| SupplyChainTab.NodeIds | src/components/tabs/SupplyChainTab.tsx:15-26 | the ids of the ten nodes, in list order |
| SupplyChainTab.FindNodeIffListed | src/components/tabs/SupplyChainTab.tsx:15-26 | a node id resolves iff it is listed |
| SupplyChainTab.DatasetIntegrity | src/components/tabs/SupplyChainTab.tsx:15-78 | node ids are distinct, every flow endpoint and every simulation-step node is a listed node, and there are six steps |
| SupplyChainTab.EveryFlowIsDrawn | src/components/tabs/SupplyChainTab.tsx:29-40 | every flow of the dataset resolves, so the map draws all twenty lines |
| SupplyChainTab.AllResolvableCount | src/components/tabs/SupplyChainTab.tsx:29-40 | when every flow resolves, the number of drawn flows is the number of flows |
| SupplyChainTab.NextStep | src/components/tabs/SupplyChainTab.tsx:124 | a tick goes to the next step, and from the last back to 0 |
| SupplyChainTab.AfterTicks | src/components/tabs/SupplyChainTab.tsx:123-125 | the step stays in `[0, 6)` under any number of ticks |
| SupplyChainTab.TicksCycle | src/components/tabs/SupplyChainTab.tsx:124 | `n` ticks from step `s` land on `(s + n) mod 6` |
| SupplyChainTab.FullRound | src/components/tabs/SupplyChainTab.tsx:124 | six ticks return to the starting step |
| SupplyChainTab.Simulation.constructor | src/components/tabs/SupplyChainTab.tsx:116-117 | the tab starts paused, on step 0 |
| SupplyChainTab.Simulation.Toggle | src/components/tabs/SupplyChainTab.tsx:149 | the button flips `isSimulating` and keeps the step |
| SupplyChainTab.Simulation.Tick | src/components/tabs/SupplyChainTab.tsx:120-128 | steps advance only while simulating |
| SupplyChainTab.Simulation.CurrentStepNodeId | src/components/tabs/SupplyChainTab.tsx:217 | the current node id is defined iff simulating, and is then the current step's node |
| SupplyChainTab.CurrentStageHighlighted | src/components/tabs/SupplyChainTab.tsx:214-217 | while a step is current, exactly one node marker of the map is highlighted, and it is that step's node |
| SupplyChainTab.InventoryBarColor | src/components/tabs/SupplyChainTab.tsx:298-300 | the bar uses the primary colour iff the stock is above the reorder point |
| SupplyChainTab.BarWidth | src/components/tabs/SupplyChainTab.tsx:302 | the bar's width is the stock as a percentage of the maximum, within `[0,100]` while the stock is within the maximum |
| SupplyChainTab.ReorderMarker | src/components/tabs/SupplyChainTab.tsx:295 | the marker sits at the reorder point as a percentage of the maximum, within `[0,100]` while the reorder point is within the maximum |
| SupplyChainTab.BarPassesMarkerIffPrimary | src/components/tabs/SupplyChainTab.tsx:295-302 | the bar's width `current/max·100` passes the reorder marker at `reorderPoint/max·100` iff the bar is primary |
| SupplyChainTab.ShowsLowBadge | src/components/tabs/SupplyChainTab.tsx:287-289 | the Low badge shows iff the item's status is low |
| SupplyChainTab.InventoryDataset | src/components/tabs/SupplyChainTab.tsx:43-48 | every item has a positive maximum, every bar is primary, and the finished products carry the Low badge |
| SupplyChainTab.OnTimeGreen | src/components/tabs/SupplyChainTab.tsx:511 | the on-time bar is green iff on-time delivery is at least 90 percent |
| SupplyChainTab.RiskBadge | src/components/tabs/SupplyChainTab.tsx:525 | low risk is a success, medium a warning, anything else a danger |
| SupplyChainTab.ShowsDisruptions | src/components/tabs/SupplyChainTab.tsx:155-157 | the alert badge, and likewise the disruption panel at line 317, renders iff there is at least one disruption |
| FleetRoutingTab.RouteStopsAreLocations | src/components/tabs/FleetRoutingTab.tsx:18-74 | location ids are 1 to 11 in order, only id 1 is a warehouse, every stop is a listed location, and every route starts and ends at the warehouse |
| FleetRoutingTab.EveryStopResolves | src/components/tabs/FleetRoutingTab.tsx:18-74 | every stop of every route resolves to a location on the map |
| FleetRoutingTab.RoutesCoverAllCustomers | src/components/tabs/FleetRoutingTab.tsx:18-74 | every customer is a stop of some route |
| Selection.Toggled | src/components/tabs/FleetRoutingTab.tsx:228 | clicking the selected item clears the selection; clicking any other selects it |
| Selection.ToggleTwice | src/components/tabs/FleetRoutingTab.tsx:249 | toggling twice restores an empty or same-item selection, and clears a selection of another item |
| Selection.ToggleSelectsOnlyId | src/components/tabs/DigitalTwinTab.tsx:911 | after a toggle no other item is selected, and the clicked item is selected iff it was not before |
| FleetRoutingTab.CardHighlighted | src/components/tabs/FleetRoutingTab.tsx:244-248 | a route card is framed iff its route is selected |
| FleetRoutingTab.ClickSelectsOnlyThatCard | src/components/tabs/FleetRoutingTab.tsx:244-249 | after a click on an unframed card, that card and no other is framed |
| FleetRoutingTab.FleetRoutingTabState.constructor | src/components/tabs/FleetRoutingTab.tsx:138-139 | the tab starts animating, with no route selected |
| FleetRoutingTab.FleetRoutingTabState.ToggleRoute | src/components/tabs/FleetRoutingTab.tsx:228-249 | a click on a route line or card toggles the selection |
| FleetRoutingTab.FleetRoutingTabState.ToggleAnimation | src/components/tabs/FleetRoutingTab.tsx:163 | the button flips the animation and keeps the selection |
| FleetRoutingTab.SavingPercent | src/components/tabs/FleetRoutingTab.tsx:141-145 | the saving `(before − after)/before·100` is positive iff `after < before`, zero iff equal, and at most 100 for a non-negative `after` |
| FleetRoutingTab.SavedShare | src/components/tabs/FleetRoutingTab.tsx:141-145 | the saved share's sign follows `before − after` |
| FleetRoutingTab.RoundNonNegative | src/components/tabs/FleetRoutingTab.tsx:142-144 | `toFixed(0)` of a non-negative value is the nearest whole number, a tie rounding up |
| FleetRoutingTab.DatasetSavings | src/components/tabs/FleetRoutingTab.tsx:141-145 | the tab shows savings of 17, 35 and 33 percent |
| FleetRoutingTab.FirstWord | src/components/tabs/FleetRoutingTab.tsx:283 | `name.split(' ')[0]` is the longest prefix without a space, ended by a space or the end of the name |
| FleetRoutingTab.FirstWordOfOneWord | src/components/tabs/FleetRoutingTab.tsx:283 | a name without a space is its own first word |
| FleetRoutingTab.FirstWordIs | src/components/tabs/FleetRoutingTab.tsx:283 | the first word is uniquely determined by that characterisation |
| FleetRoutingTab.JoinLength | src/components/tabs/FleetRoutingTab.tsx:283 | a join has the parts' lengths plus one separator between each two parts |
| FleetRoutingTab.JoinStartsWithFirst | src/components/tabs/FleetRoutingTab.tsx:283 | a join opens with the first part, followed by the separator when more parts follow |
| FleetRoutingTab.StopWords | src/components/tabs/FleetRoutingTab.tsx:283 | one word per stop, in stop order, each the first word of that stop's location name |
| FleetRoutingTab.StopsLabel | src/components/tabs/FleetRoutingTab.tsx:283 | a route without stops gives an empty label; otherwise the label opens with the first stop's word, then an arrow when more stops follow, and holds one word per stop with an arrow between each two: a single stop gives its word, and more stops give the first word, the arrow, then the label of the remaining stops |
| FleetRoutingTab.LocationById | src/components/tabs/FleetRoutingTab.tsx:18-30 | location `id` is entry `id − 1` of the list |
| FleetRoutingTab.VehicleBadge | src/components/tabs/FleetRoutingTab.tsx:465-469 | delivering is a success, en-route info, waiting a warning, anything else a danger |
| FleetRoutingTab.RouteBadge | src/components/tabs/FleetRoutingTab.tsx:261 | an active route's badge is a success, any other a warning |
| FleetRoutingTab.FuelBar | src/components/tabs/FleetRoutingTab.tsx:480-481 | fuel is green above 70, amber above 40, red otherwise |
| FleetRoutingTab.FuelBarMonotone | src/components/tabs/FleetRoutingTab.tsx:480-481 | more fuel never shows a worse colour |
| FleetRoutingTab.SpeedShown | src/components/tabs/FleetRoutingTab.tsx:474 | the speed is shown iff it is greater than 0, and a dash otherwise |
| PredictiveMaintenanceTab.TotalSaved | src/components/tabs/PredictiveMaintenanceTab.tsx:83 | the `reduce` of `before − after` from 0 equals the total before minus the total after |
| PredictiveMaintenanceTab.SumBeforeAppend | src/components/tabs/PredictiveMaintenanceTab.tsx:83 | appending a category adds its before and after costs to the totals |
| PredictiveMaintenanceTab.TotalSavedSign | src/components/tabs/PredictiveMaintenanceTab.tsx:83 | when no category costs more afterwards the total saving is not negative, and one real saving makes it positive |
| PredictiveMaintenanceTab.Thousands | src/components/tabs/PredictiveMaintenanceTab.tsx:131 | `(x/1000).toFixed(0)` is the nearest whole number of thousands, a tie rounding away from zero |
| PredictiveMaintenanceTab.DatasetTotalSaved | src/components/tabs/PredictiveMaintenanceTab.tsx:54-83 | the dataset saves 66,500 in total (110,000 before, 43,500 after), shown by the card at line 131 as €67K |
| PredictiveMaintenanceTab.StatusStrip | src/components/tabs/PredictiveMaintenanceTab.tsx:166-169 | the strip is green, amber or orange for healthy, attention or warning, and red otherwise |
| PredictiveMaintenanceTab.MachineBadge | src/components/tabs/PredictiveMaintenanceTab.tsx:177-181 | healthy is a success, attention and warning are warnings, anything else a danger |
| PredictiveMaintenanceTab.BadgePulses | src/components/tabs/PredictiveMaintenanceTab.tsx:183 | the badge pulses iff the machine is critical |
| PredictiveMaintenanceTab.StripMatchesBadge | src/components/tabs/PredictiveMaintenanceTab.tsx:166-184 | the strip and the badge agree on every status, and a pulsing badge has a red strip |
| PredictiveMaintenanceTab.HealthBar | src/components/tabs/PredictiveMaintenanceTab.tsx:195-198 | health is green above 80, amber above 60, orange above 40, red otherwise |
| PredictiveMaintenanceTab.HealthBarMonotone | src/components/tabs/PredictiveMaintenanceTab.tsx:195-198 | a healthier machine never shows a more severe bar |
| PredictiveMaintenanceTab.MachineAlerts | src/components/tabs/PredictiveMaintenanceTab.tsx:209-221 | vibration above 0.8 and an Overdue service are flagged red, temperature above 55 amber |
| PredictiveMaintenanceTab.CountAlerted | src/components/tabs/PredictiveMaintenanceTab.tsx:150-225 | the number of flagged machines is at most the number of machines, and is zero iff no machine has a flagged reading |
| PredictiveMaintenanceTab.DatasetAlerts | src/components/tabs/PredictiveMaintenanceTab.tsx:15-22 | exactly two machines have flagged readings, matching the "2 Alerts Active" of the header at line 98, and the welding station is flagged on all three |
| PredictiveMaintenanceTab.RowSelected | src/components/tabs/PredictiveMaintenanceTab.tsx:154-158 | a row is framed iff its machine is selected |
| PredictiveMaintenanceTab.MachineIdsDistinct | src/components/tabs/PredictiveMaintenanceTab.tsx:15-22 | the machine ids are distinct |
| PredictiveMaintenanceTab.MachineSelection.constructor | src/components/tabs/PredictiveMaintenanceTab.tsx:81 | M-003, the laser cutting system, is selected initially |
| PredictiveMaintenanceTab.MachineSelection.Click | src/components/tabs/PredictiveMaintenanceTab.tsx:159 | a click always selects that machine, with no toggling off |
| PredictiveMaintenanceTab.ClickFramesOnlyThatRow | src/components/tabs/PredictiveMaintenanceTab.tsx:154-159 | after a click on row `i`, that row and no other is framed |
| PredictiveMaintenanceTab.PriorityBadge | src/components/tabs/PredictiveMaintenanceTab.tsx:395-399 | critical is a danger, high a warning, medium info, anything else neutral |
| PredictiveMaintenanceTab.DateHighlighted | src/components/tabs/PredictiveMaintenanceTab.tsx:391 | a scheduled date is red iff it is Today |
| DigitalTwinTab.ZoomInTarget | src/components/tabs/DigitalTwinTab.tsx:702-706 | the zoom-in target is the larger of `0.7·d` and 5, so never below 5 |
| DigitalTwinTab.ZoomOutTarget | src/components/tabs/DigitalTwinTab.tsx:709-713 | the zoom-out target is the smaller of `1.3·d` and 25, so never above 25 |
| DigitalTwinTab.ZoomInStaysInRange | src/components/tabs/DigitalTwinTab.tsx:702-706 | within `[5, 25]`, zooming in moves closer, strictly unless already at 5 |
| DigitalTwinTab.ZoomOutStaysInRange | src/components/tabs/DigitalTwinTab.tsx:709-713 | within `[5, 25]`, zooming out moves farther, strictly unless already at 25 |
| DigitalTwinTab.ZoomTargetsMonotone | src/components/tabs/DigitalTwinTab.tsx:702-713 | both targets keep the order of distances |
| DigitalTwinTab.ZoomInsMonotone | src/components/tabs/DigitalTwinTab.tsx:702-706 | repeated zoom-ins keep the order of distances |
| DigitalTwinTab.ZoomOutsMonotone | src/components/tabs/DigitalTwinTab.tsx:709-713 | repeated zoom-outs keep the order of distances |
| DigitalTwinTab.FiveZoomInsReachFloor | src/components/tabs/DigitalTwinTab.tsx:702-706 | five zoom-ins bring any distance up to 25 down to 5 |
| DigitalTwinTab.SevenZoomOutsReachCeiling | src/components/tabs/DigitalTwinTab.tsx:709-713 | seven zoom-outs bring any distance of at least 5 up to 25 |
| DigitalTwinTab.ZoomInAimsBelowMinDistance | src/components/tabs/DigitalTwinTab.tsx:702-706 | the zoom-in floor of 5 lies below the orbit controls' `minDistance` of 6 set at line 879, so from below 60/7 the target is nearer than the controls allow |
| DigitalTwinTab.CountInState | src/components/tabs/DigitalTwinTab.tsx:648-655 | the count of machines in a state is at most the number of machines |
| DigitalTwinTab.CountInStateAppend | src/components/tabs/DigitalTwinTab.tsx:648-655 | adding a machine adds one to the count of its own state and nothing to the count of any other |
| DigitalTwinTab.CountInStateExtremes | src/components/tabs/DigitalTwinTab.tsx:648-655 | the count of a state is zero exactly when no machine is in it, and the whole list exactly when every machine is |
| DigitalTwinTab.PanelBadge | src/components/tabs/DigitalTwinTab.tsx:919 | running is a success, idle a warning, maintenance a danger |
| DigitalTwinTab.BadgePulses | src/components/tabs/DigitalTwinTab.tsx:921 | the badge pulses iff the machine runs |
| DigitalTwinTab.TemperatureHighlighted | src/components/tabs/DigitalTwinTab.tsx:936 | a temperature above 50 is highlighted |
| DigitalTwinTab.DetailsShown | src/components/tabs/DigitalTwinTab.tsx:924 | details show iff the machine is the selected one |
| DigitalTwinTab.PanelDataset | src/components/tabs/DigitalTwinTab.tsx:648-661 | the panel's status counts match the pie chart (4, 1, 1), names are distinct, and only the welding station's temperature is highlighted |
| DigitalTwinTab.ClickShowsOnlyThatMachine | src/components/tabs/DigitalTwinTab.tsx:911-924 | after a click on an unselected machine, its details and no others show |
| DigitalTwinTab.MachinePanel.constructor | src/components/tabs/DigitalTwinTab.tsx:673 | nothing is selected initially |
| DigitalTwinTab.MachinePanel.Click | src/components/tabs/DigitalTwinTab.tsx:911 | clicking the selected machine deselects it; clicking another selects that one |
| DigitalTwinTab.CncStatusColor | src/components/tabs/DigitalTwinTab.tsx:257 | running is green, idle amber, anything else red |
| DigitalTwinTab.SpindleStep | src/components/tabs/DigitalTwinTab.tsx:259-263 | the spindle turns, by 0.2 per frame, iff the machine runs |
| DigitalTwinTab.LightMatchesBadge | src/components/tabs/DigitalTwinTab.tsx:257-262 | the CNC status light and the panel badge of lines 919-921 agree, and the spindle turns exactly when the badge pulses |
| ProgressBar.MaxOf | src/components/shared/ProgressBar.tsx:28 | `max` defaults to 100 |
| ProgressBar.ShowValueOf | src/components/shared/ProgressBar.tsx:30 | `showValue` defaults to on |
| ProgressBar.SizeOf | src/components/shared/ProgressBar.tsx:31 | `size` defaults to md |
| ProgressBar.Percentage | src/components/shared/ProgressBar.tsx:34 | the percentage is `value/max·100` capped at 100, never above 100 |
| ProgressBar.FullAtOrAboveMax | src/components/shared/ProgressBar.tsx:34 | a value at or above the maximum gives exactly 100 |
| ProgressBar.ProportionalWithinRange | src/components/shared/ProgressBar.tsx:34 | between 0 and the maximum the percentage is the plain proportion, in `[0, 100]` |
| ProgressBar.PercentageMonotone | src/components/shared/ProgressBar.tsx:34 | a larger value never fills less |
| ProgressBar.NegativeValuePassesThrough | src/components/shared/ProgressBar.tsx:34 | there is no lower clamp: a negative value gives a negative width |
| ProgressBar.HeaderShown | src/components/shared/ProgressBar.tsx:38 | the header renders iff there is a non-empty caption or the value label is on |
| ProgressBar.ValueLabel | src/components/shared/ProgressBar.tsx:41-43 | the `value / max` label shows iff `showValue` is not switched off, and uses the defaulted maximum |
| ProgressBar.DefaultsForValueOnly | src/components/shared/ProgressBar.tsx:26-34 | with only a value, the bar reads it against 100, shows the label, and fills exactly `value` percent for values in `[0, 100]` |
| ProgressBar.HeightClass | src/components/shared/ProgressBar.tsx:20-24 | each size has its own height class |
| MetricCard.Icon | src/components/shared/MetricCard.tsx:28-31 | no change or a zero change gives the flat icon; a rise gives the up icon, a fall the down icon |
| MetricCard.Tone | src/components/shared/MetricCard.tsx:33-38 | no change or a zero change is muted; a rise is green, a fall red |
| MetricCard.IconMatchesTone | src/components/shared/MetricCard.tsx:28-38 | the icon and the colour always agree |
| MetricCard.Badge | src/components/shared/MetricCard.tsx:69-76 | the trend badge renders iff a change is given, zero included, and shows the change's magnitude |
| MetricCard.BadgeReadsBack | src/components/shared/MetricCard.tsx:75-76 | the icon and the magnitude together give back the change |
| MetricCard.ZeroChangeShowsFlatBadge | src/components/shared/MetricCard.tsx:69-76 | through the `!change` tests at lines 29 and 34, a zero change still renders a flat, muted badge reading 0 |
| MetricCard.OneClassPerSize | src/components/shared/MetricCard.tsx:52-54 | every size, the default md of line 26 included, gets exactly one text class, and different sizes get different classes |
| Geo.LerpInBox | src/components/maps/FleetRoutingLeafletMap.tsx:319-320 | an interpolated point lies in the box spanned by its two ends |
| Geo.LerpEnds | src/components/maps/SupplyChainLeafletMap.tsx:301-303 | at `t = 0` the interpolation is the start point |
| Geo.ScaleWithinUnit | src/components/maps/FleetRoutingLeafletMap.tsx:315-320 | scaling a non-negative length by a factor in `[0,1]` keeps it within `[0, length]`, which puts an interpolated coordinate between its two ends |
| Geo.ScaleBelowUnit | src/components/maps/FleetRoutingLeafletMap.tsx:294 | a random value in `[0,1)` scales a positive bound into `[0, bound)` |

## Left out

- Leaflet itself is not modelled. That covers map creation, tile layers, popups with their HTML, `divIcon` markup, `invalidateSize`, and the fit-to-bounds and reset-view buttons. Layers are sequences of abstract drawables that record what is drawn and where.
- The OSRM HTTP request and the `fetch`/`json` promises are not modelled. The service is a function parameter returning a decoded response or a failure. Async interleaving is not modelled either: the cache update at the end of `fetchRoutes` runs whenever the requests finish, even after the map unmounts.
- `requestAnimationFrame`, `cancelAnimationFrame`, `setInterval` and `setTimeout` are not modelled. Each frame or tick is an explicit method call; the frame's `delta` is a parameter of at least 0.
- FleetRoutingMap.FleetRoutingMapView.AnimateFrame and SupplyChainMap.SupplyChainMapView.AnimateFrame require `delta >= 0`. The source's frame delta is a difference of increasing timestamps, so it is never negative.
- `Math.random()` is a parameter in `[0, 1)`, one value per route or flow.
- The fullscreen API and window navigation are not modelled. Escape on the presentation page sets `window.location.href`, which appears as the `Leave` outcome.
- The three.js scene components of the digital twin are not modelled: their `useFrame` animations are floating-point trigonometry over a 3D library. The one exception is the CNC spindle's status-gated rotation.
- OrbitControls, the library the zoom buttons call, is not part of this model. The model computes the target distance that is handed to it; whether and how the library applies it is not modelled.
- The energy-management tab is not modelled: PDF generation is I/O through jsPDF, and the rest is `toFixed` formatting. Neither are the header, the footer, the language switcher, the chart cards, the error boundary, or recharts and framer-motion, which are layout only.
- The mock datasets are modelled only where a property is stated about them.
- Console logging is not modelled. That covers the `console.error` when a route fetch fails (`src/components/maps/FleetRoutingLeafletMap.tsx:93`) and the `console.warn` for a missing translation key (`src/contexts/LanguageContext.tsx:210`). The model keeps only the value each path returns.
- Numbers are mathematical reals and integers, not IEEE doubles.
  - Rounding error is not modelled.
  - Division by zero is excluded: `SavingPercent` requires `before > 0`, and `BarWidth` and `ReorderMarker` require `max > 0`. `ProgressBar.Percentage` requires `max ≠ 0`, where the source would produce `Infinity` or `NaN`.
  - `NaN` change values in the metric card are not modelled.
- PredictiveMaintenanceTab.Thousands: a negative total that rounds to zero prints as `-0` in the source; the model gives 0.
- FleetRoutingTab.StopsLabel: the label is stated for every stop list (each stop's first word in stop order, joined by arrows, by recursion on the stops). The concrete label of each dataset route is not worked out, because evaluating the whole location table symbolically is too costly for the verifier.
- FleetRoutingMap.FleetRoutingMapView.RestartAnimation: the truck markers are recorded by route id and colour. Their `L.marker` handles and the aliasing between a marker and its position entry are not modelled; a frame's marker move is recorded in the position entry's `markerAt`.
- Status strings are kept as strings wherever the source has a fallback branch, so that "anything else" is a real case. The digital twin's machine status is an enumeration, since its type admits only three values.
- `StatusBadge` is modelled only as its five tones. The component's class lookup tables are presentational.

## Findings

| source | as written | input that shows it | evidently intended | confidence | as-written member | corrected member |
|---|---|---|---|---|---|---|
| src/contexts/LanguageContext.tsx:208-211 | `translations[key]` on a plain object literal also finds members inherited from `Object.prototype`; they are truthy, so the fallback is skipped and `translation[language]` is `undefined` | `t("toString")` | every key not in the table falls back to the key itself | not executed | LanguageContext.ToStringIsNotFallenBack | LanguageContext.Translate |
