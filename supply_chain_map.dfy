/**
  The supply-chain network map: one two-point polyline per material flow between
  two known nodes, coloured by the flow's status; while the simulation runs, a
  vehicle per active flow travels from its source node to its target node and
  starts over; node markers highlight the node of the current simulation step
  and classify each node's inventory level.

  Leaflet's layer groups are sequences of abstract drawables held by
  `SupplyChainMapView`; the frame clock and `Math.random()` are parameters.
 */
module SupplyChainMap {
  import opened Optional
  import opened Geo

  // ---------------------------------------------------------------- data

  datatype NodeKind = Supplier | Warehouse | Factory | Distribution | Customer

  datatype SupplyNode = SupplyNode(id: string, name: string, pos: Point, kind: NodeKind, inventory: real)

  /** A flow's status is compared against string literals, and anything else falls to a default. */
  datatype SupplyFlow = SupplyFlow(from: string, to: string, volume: real, status: string)

  const ActiveColor: string := "#22c55e"
  const DelayedColor: string := "#f59e0b"
  const BlockedColor: string := "#ef4444"
  const UnknownColor: string := "#64748b"

  /** The three statuses the map knows. */
  predicate KnownStatus(status: string)
  {
    status == "active" || status == "delayed" || status == "blocked"
  }

  /** `getFlowColor`: green for active, amber for delayed, red for blocked, grey otherwise. */
  function FlowColor(status: string): (c: string)
    ensures status == "active" ==> c == ActiveColor
    ensures status == "delayed" ==> c == DelayedColor
    ensures status == "blocked" ==> c == BlockedColor
    ensures !KnownStatus(status) ==> c == UnknownColor
  {
    if status == "active" then ActiveColor
    else if status == "delayed" then DelayedColor
    else if status == "blocked" then BlockedColor
    else UnknownColor
  }

  /**
    The colour tells the status apart: two statuses share a colour exactly when
    they are equal or both unknown.
   */
  lemma FlowColorDistinguishes(s1: string, s2: string)
    ensures FlowColor(s1) == FlowColor(s2) <==> s1 == s2 || (!KnownStatus(s1) && !KnownStatus(s2))
  {
    var c1, c2 := FlowColor(s1), FlowColor(s2);
    assert ActiveColor[1] != DelayedColor[1] && ActiveColor[1] != BlockedColor[1] && DelayedColor[1] != BlockedColor[1];
    assert UnknownColor[1] == '6' && ActiveColor[1] == '2' && DelayedColor[1] == 'f' && BlockedColor[1] == 'e';
    if c1 == c2 {
      assert c1[1] == c2[1];
    }
  }

  /** `nodes.find(n => n.id === id)`: the first node with that id, if any. */
  function FindNode(nodes: seq<SupplyNode>, id: string): (r: Option<SupplyNode>)
    ensures r.Some? ==> r.value in nodes && r.value.id == id
    ensures r.Some? ==> exists i :: 0 <= i < |nodes| && nodes[i] == r.value && forall k :: 0 <= k < i ==> nodes[k].id != id
    ensures r.None? ==> forall k :: 0 <= k < |nodes| ==> nodes[k].id != id
  {
    if nodes == [] then None
    else if nodes[0].id == id then Some(nodes[0])
    else FindNode(nodes[1..], id)
  }

  /** Both endpoints of the flow are nodes of the map. */
  predicate Resolvable(nodes: seq<SupplyNode>, flow: SupplyFlow)
  {
    FindNode(nodes, flow.from).Some? && FindNode(nodes, flow.to).Some?
  }

  // ------------------------------------------------------ flow layer (:194-253)

  /** A two-point polyline in the flow layer. */
  datatype FlowLine = FlowLine(from: Point, to: Point, color: string, weight: int, opacity: real, dashed: bool)

  /** The glow and the main line drawn for one flow between two resolved nodes. */
  function FlowLines(flow: SupplyFlow, a: SupplyNode, b: SupplyNode): (r: seq<FlowLine>)
    ensures |r| == 2
    ensures forall k :: 0 <= k < 2 ==> r[k].from == a.pos && r[k].to == b.pos && r[k].color == FlowColor(flow.status)
    ensures r[0].weight == 10 && r[0].opacity == 0.2 && !r[0].dashed
    ensures r[1].weight == 4 && r[1].opacity == 0.8
    ensures r[1].dashed <==> flow.status != "active"
  {
    var color := FlowColor(flow.status);
    [ FlowLine(a.pos, b.pos, color, 10, 0.2, false),
      FlowLine(a.pos, b.pos, color, 4, 0.8, flow.status != "active") ]
  }

  /** The lines a flow adds to the layer: nothing when an endpoint is unknown. */
  function FlowContribution(nodes: seq<SupplyNode>, flow: SupplyFlow): (r: seq<FlowLine>)
    ensures r == [] || (|r| == 2 && r[0].weight == 10 && r[1].weight != 10)
  {
    match (FindNode(nodes, flow.from), FindNode(nodes, flow.to))
    case (Some(a), Some(b)) => FlowLines(flow, a, b)
    case _ => []
  }

  /** The flow layer after drawing the given flows in order. */
  function FlowLayer(nodes: seq<SupplyNode>, flows: seq<SupplyFlow>): (r: seq<FlowLine>)
    ensures |r| <= 2 * |flows| && |r| % 2 == 0
    ensures forall k :: 0 <= k < |r| ==> (r[k].weight == 10 <==> k % 2 == 0)
  {
    if flows == [] then []
    else
      var before, added := FlowLayer(nodes, flows[..|flows| - 1]), FlowContribution(nodes, flows[|flows| - 1]);
      assert forall k :: |before| <= k < |before| + |added| ==> (before + added)[k] == added[k - |before|];
      before + added
  }

  /** Drawing one more flow appends its contribution. */
  lemma FlowLayerStep(nodes: seq<SupplyNode>, flows: seq<SupplyFlow>, i: nat)
    requires i < |flows|
    ensures FlowLayer(nodes, flows[..i + 1]) == FlowLayer(nodes, flows[..i]) + FlowContribution(nodes, flows[i])
  {
    assert flows[..i + 1][..i] == flows[..i];
  }

  /** The number of flows whose two endpoints are known. */
  function CountResolvable(nodes: seq<SupplyNode>, flows: seq<SupplyFlow>): nat
  {
    if flows == [] then 0
    else CountResolvable(nodes, flows[..|flows| - 1]) + (if Resolvable(nodes, flows[|flows| - 1]) then 1 else 0)
  }

  /** Two lines per drawable flow, and none for a flow with an unknown endpoint. */
  lemma {:induction false} FlowLayerSize(nodes: seq<SupplyNode>, flows: seq<SupplyFlow>)
    ensures |FlowLayer(nodes, flows)| == 2 * CountResolvable(nodes, flows)
  {
    if flows != [] {
      FlowLayerSize(nodes, flows[..|flows| - 1]);
    }
  }

  /** Every drawn line joins two known nodes. */
  lemma {:induction false} FlowLayerResolved(nodes: seq<SupplyNode>, flows: seq<SupplyFlow>)
    ensures forall d :: d in FlowLayer(nodes, flows) ==>
      (exists a :: a in nodes && a.pos == d.from) && (exists b :: b in nodes && b.pos == d.to)
  {
    if flows != [] {
      FlowLayerResolved(nodes, flows[..|flows| - 1]);
      var flow := flows[|flows| - 1];
      if Resolvable(nodes, flow) {
        var a, b := FindNode(nodes, flow.from).value, FindNode(nodes, flow.to).value;
        assert FlowContribution(nodes, flow) == FlowLines(flow, a, b);
      }
    }
  }

  /** A drawable flow has its main line in the layer, dashed exactly when it is not active. */
  lemma {:induction false} FlowLayerDrawsAll(nodes: seq<SupplyNode>, flows: seq<SupplyFlow>, i: nat)
    requires i < |flows| && Resolvable(nodes, flows[i])
    ensures FlowLines(flows[i], FindNode(nodes, flows[i].from).value, FindNode(nodes, flows[i].to).value)[1] in FlowLayer(nodes, flows)
  {
    var n := |flows| - 1;
    var before, added := FlowLayer(nodes, flows[..n]), FlowContribution(nodes, flows[n]);
    assert FlowLayer(nodes, flows) == before + added;
    if i < n {
      assert flows[..n][i] == flows[i];
      FlowLayerDrawsAll(nodes, flows[..n], i);
    } else {
      var flow := flows[n];
      assert added == FlowLines(flow, FindNode(nodes, flow.from).value, FindNode(nodes, flow.to).value);
      assert (before + added)[|before| + 1] == added[1];
    }
  }

  // ------------------------------------------------------ vehicles (:255-318)

  /** Vehicle speed: path fraction per millisecond. */
  const VehicleSpeed: real := 0.0002

  /** One vehicle's state: a fraction of the way along its flow, and where its marker is. */
  datatype Vehicle = Vehicle(position: real, from: Point, to: Point, markerAt: Point)

  /** A marker on the vehicle layer, in the colour of its (active) flow. */
  datatype VehicleMarker = VehicleMarker(key: string, color: string)

  ghost predicate VehicleValid(v: Vehicle)
  {
    0.0 <= v.position < 1.0
  }

  /** The position-map key of a flow: `${from}-${to}`. */
  function FlowKey(flow: SupplyFlow): (k: string)
    ensures |k| == |flow.from| + 1 + |flow.to|
    ensures k[..|flow.from|] == flow.from && k[|flow.from|] == '-' && k[|flow.from| + 1..] == flow.to
  {
    flow.from + "-" + flow.to
  }

  /** A flow gets a vehicle: it is active and both its endpoints are known. */
  predicate GetsVehicle(nodes: seq<SupplyNode>, flow: SupplyFlow)
  {
    flow.status == "active" && Resolvable(nodes, flow)
  }

  /** The vehicle put on a flow between known nodes: `r` of the way along, its marker on the source node. */
  function NewVehicle(nodes: seq<SupplyNode>, flow: SupplyFlow, r: real): Vehicle
    requires Resolvable(nodes, flow)
  {
    var a, b := FindNode(nodes, flow.from).value, FindNode(nodes, flow.to).value;
    Vehicle(r, a.pos, b.pos, a.pos)
  }

  /** The position map after seeding the first `n` flows; `rnd[i]` is the random start of flow `i`. */
  ghost function SeedVehicles(nodes: seq<SupplyNode>, flows: seq<SupplyFlow>, rnd: seq<real>, n: nat): (m: map<string, Vehicle>)
    requires n <= |flows| == |rnd| && forall i :: 0 <= i < |rnd| ==> 0.0 <= rnd[i] < 1.0
    ensures forall k :: k in m ==> VehicleValid(m[k]) && m[k].markerAt == m[k].from
  {
    if n == 0 then map[]
    else
      var m := SeedVehicles(nodes, flows, rnd, n - 1);
      var flow := flows[n - 1];
      if GetsVehicle(nodes, flow) then m[FlowKey(flow) := NewVehicle(nodes, flow, rnd[n - 1])]
      else m
  }

  /**
    Exactly the active flows between known nodes have a vehicle: every key is the
    key of such a flow, and every such flow's key is present.
   */
  lemma {:induction false} SeededFlows(nodes: seq<SupplyNode>, flows: seq<SupplyFlow>, rnd: seq<real>, n: nat)
    requires n <= |flows| == |rnd| && forall i :: 0 <= i < |rnd| ==> 0.0 <= rnd[i] < 1.0
    ensures forall i :: 0 <= i < n && GetsVehicle(nodes, flows[i]) ==> FlowKey(flows[i]) in SeedVehicles(nodes, flows, rnd, n)
    ensures forall k :: k in SeedVehicles(nodes, flows, rnd, n) ==>
      exists i :: 0 <= i < n && GetsVehicle(nodes, flows[i]) && FlowKey(flows[i]) == k
  {
    if n > 0 {
      SeededFlows(nodes, flows, rnd, n - 1);
      var m := SeedVehicles(nodes, flows, rnd, n - 1);
      var flow := flows[n - 1];
      var m' := SeedVehicles(nodes, flows, rnd, n);
      assert m' == if GetsVehicle(nodes, flow) then m[FlowKey(flow) := NewVehicle(nodes, flow, rnd[n - 1])] else m;
      assert m.Keys <= m'.Keys;
      forall i | 0 <= i < n && GetsVehicle(nodes, flows[i])
        ensures FlowKey(flows[i]) in m'
      {
        if i < n - 1 {
          assert FlowKey(flows[i]) in m;
        }
      }
      forall k | k in m'
        ensures exists i :: 0 <= i < n && GetsVehicle(nodes, flows[i]) && FlowKey(flows[i]) == k
      {
        if k in m {
          var i :| 0 <= i < n - 1 && GetsVehicle(nodes, flows[i]) && FlowKey(flows[i]) == k;
        } else {
          assert GetsVehicle(nodes, flows[n - 1]) && FlowKey(flows[n - 1]) == k;
        }
      }
    }
  }

  /**
    The vehicle stored under a flow's key is the one seeded for the last flow with
    that key: it runs between the positions of that flow's (first-found) endpoint
    nodes and starts at that flow's random value.
   */
  lemma {:induction false} SeededVehicleIsLast(nodes: seq<SupplyNode>, flows: seq<SupplyFlow>, rnd: seq<real>, n: nat, i: nat)
    requires n <= |flows| == |rnd| && forall j :: 0 <= j < |rnd| ==> 0.0 <= rnd[j] < 1.0
    requires i < n && GetsVehicle(nodes, flows[i])
    requires forall j :: i < j < n && GetsVehicle(nodes, flows[j]) ==> FlowKey(flows[j]) != FlowKey(flows[i])
    ensures FlowKey(flows[i]) in SeedVehicles(nodes, flows, rnd, n)
    ensures SeedVehicles(nodes, flows, rnd, n)[FlowKey(flows[i])] == NewVehicle(nodes, flows[i], rnd[i])
    ensures SeedVehicles(nodes, flows, rnd, n)[FlowKey(flows[i])].from == FindNode(nodes, flows[i].from).value.pos
    ensures SeedVehicles(nodes, flows, rnd, n)[FlowKey(flows[i])].to == FindNode(nodes, flows[i].to).value.pos
    ensures SeedVehicles(nodes, flows, rnd, n)[FlowKey(flows[i])].position == rnd[i]
  {
    var m := SeedVehicles(nodes, flows, rnd, n - 1);
    var flow := flows[n - 1];
    assert SeedVehicles(nodes, flows, rnd, n) == if GetsVehicle(nodes, flow) then m[FlowKey(flow) := NewVehicle(nodes, flow, rnd[n - 1])] else m;
    if i < n - 1 {
      SeededVehicleIsLast(nodes, flows, rnd, n - 1, i);
    }
  }

  /** The vehicle layer after seeding the first `n` flows: one green marker per flow that gets a vehicle, in flow order. */
  function VehicleLayer(nodes: seq<SupplyNode>, flows: seq<SupplyFlow>, n: nat): (r: seq<VehicleMarker>)
    requires n <= |flows|
    ensures |r| <= n
    ensures forall v :: v in r ==> v.color == ActiveColor
  {
    if n == 0 then []
    else
      VehicleLayer(nodes, flows, n - 1)
        + (if GetsVehicle(nodes, flows[n - 1]) then [VehicleMarker(FlowKey(flows[n - 1]), FlowColor(flows[n - 1].status))] else [])
  }

  /** Every flow that gets a vehicle has its marker in the layer, and every marker's key has a vehicle. */
  lemma {:induction false} VehicleLayerMatchesSeeds(nodes: seq<SupplyNode>, flows: seq<SupplyFlow>, rnd: seq<real>, n: nat)
    requires n <= |flows| == |rnd| && forall j :: 0 <= j < |rnd| ==> 0.0 <= rnd[j] < 1.0
    ensures forall i :: 0 <= i < n && GetsVehicle(nodes, flows[i]) ==> VehicleMarker(FlowKey(flows[i]), ActiveColor) in VehicleLayer(nodes, flows, n)
    ensures forall v :: v in VehicleLayer(nodes, flows, n) ==> v.key in SeedVehicles(nodes, flows, rnd, n)
  {
    if n > 0 {
      VehicleLayerMatchesSeeds(nodes, flows, rnd, n - 1);
    }
  }

  /** One frame's position update: advance by `delta * 0.0002`, back to 0 on reaching 1. */
  function StepVehicle(p: real, delta: real): (r: real)
    requires 0.0 <= p < 1.0 && delta >= 0.0
    ensures 0.0 <= r < 1.0
    ensures p + delta * VehicleSpeed >= 1.0 ==> r == 0.0
    ensures p + delta * VehicleSpeed < 1.0 ==> r == p + delta * VehicleSpeed
  {
    var q := p + delta * VehicleSpeed;
    if q >= 1.0 then 0.0 else q
  }

  /** One frame for one vehicle: new position, marker at `from + (to - from) * t`, inside the segment's box. */
  function AdvanceVehicle(v: Vehicle, delta: real): (r: Vehicle)
    requires VehicleValid(v) && delta >= 0.0
    ensures VehicleValid(r) && r.from == v.from && r.to == v.to
    ensures r.position == StepVehicle(v.position, delta)
    ensures r.markerAt == Lerp(v.from, v.to, r.position)
    ensures Min(v.from.lat, v.to.lat) <= r.markerAt.lat <= Max(v.from.lat, v.to.lat)
    ensures Min(v.from.lng, v.to.lng) <= r.markerAt.lng <= Max(v.from.lng, v.to.lng)
    ensures r.position == 0.0 ==> r.markerAt == v.from
  {
    var p := StepVehicle(v.position, delta);
    LerpInBox(v.from, v.to, p);
    LerpEnds(v.from, v.to);
    Vehicle(p, v.from, v.to, Lerp(v.from, v.to, p))
  }

  /** The position map after one frame: every vehicle advances. */
  ghost function AdvanceVehicles(m: map<string, Vehicle>, delta: real): (r: map<string, Vehicle>)
    requires delta >= 0.0 && forall k :: k in m ==> VehicleValid(m[k])
    ensures r.Keys == m.Keys
    ensures forall k :: k in r ==> VehicleValid(r[k]) && r[k].from == m[k].from && r[k].to == m[k].to
  {
    map k | k in m :: AdvanceVehicle(m[k], delta)
  }

  /**
    A frame keeps the set of vehicles; each moves by one step on its own flow and
    its marker stays on the segment between the flow's endpoints.
   */
  lemma AdvanceVehiclesEffect(m: map<string, Vehicle>, delta: real)
    requires delta >= 0.0 && forall k :: k in m ==> VehicleValid(m[k])
    ensures AdvanceVehicles(m, delta).Keys == m.Keys
    ensures forall k :: k in m ==>
      var v := AdvanceVehicles(m, delta)[k];
      VehicleValid(v) && v.from == m[k].from && v.to == m[k].to &&
      v.position == StepVehicle(m[k].position, delta) &&
      v.markerAt == Lerp(v.from, v.to, v.position) &&
      Min(v.from.lat, v.to.lat) <= v.markerAt.lat <= Max(v.from.lat, v.to.lat) &&
      Min(v.from.lng, v.to.lng) <= v.markerAt.lng <= Max(v.from.lng, v.to.lng)
  {
  }

  // ------------------------------------------------------ node markers (:320-361)

  const Green: string := "#22c55e"
  const Amber: string := "#f59e0b"
  const Red: string := "#ef4444"

  /** The inventory colour: green above 80, amber above 50, red otherwise. */
  function InventoryColor(inventory: real): (c: string)
    ensures c == Green <==> inventory > 80.0
    ensures c == Amber <==> 50.0 < inventory <= 80.0
    ensures c == Red <==> inventory <= 50.0
  {
    assert Green[1] != Amber[1] && Green[1] != Red[1] && Amber[1] != Red[1];
    if inventory > 80.0 then Green else if inventory > 50.0 then Amber else Red
  }

  /** A node marker: highlight state, icon size, z-index offset and the inventory bar's colour, if shown. */
  datatype NodeMarker = NodeMarker(nodeId: string, at: Point, kind: NodeKind, highlighted: bool,
                                   size: int, zIndexOffset: int, inventoryBar: Option<string>)

  /** The marker of one node while `current` is the current step's node id, if any. */
  function NodeMarkerFor(node: SupplyNode, current: Option<string>): (m: NodeMarker)
    ensures m.nodeId == node.id && m.at == node.pos && m.kind == node.kind
    ensures m.highlighted <==> current == Some(node.id)
    ensures m.size == (if m.highlighted then 48 else 40)
    ensures m.zIndexOffset == (if m.highlighted then 1000 else 0)
    ensures m.inventoryBar.Some? <==> node.kind != Customer
    ensures m.inventoryBar.Some? ==> m.inventoryBar.value == InventoryColor(node.inventory)
  {
    var isHighlighted := current == Some(node.id);
    NodeMarker(node.id, node.pos, node.kind, isHighlighted,
               if isHighlighted then 48 else 40,
               if isHighlighted then 1000 else 0,
               if node.kind != Customer then Some(InventoryColor(node.inventory)) else None)
  }

  /** The node layer: one marker per node, in list order. */
  function NodeLayer(nodes: seq<SupplyNode>, current: Option<string>): (r: seq<NodeMarker>)
    ensures |r| == |nodes|
  {
    seq(|nodes|, i requires 0 <= i < |nodes| => NodeMarkerFor(nodes[i], current))
  }

  /**
    With distinct node ids, at most one marker is highlighted, and it is the marker
    of the current step's node.
   */
  lemma HighlightIsUnique(nodes: seq<SupplyNode>, current: Option<string>, i: nat, j: nat)
    requires forall a, b :: 0 <= a < b < |nodes| ==> nodes[a].id != nodes[b].id
    requires i < |nodes| && j < |nodes|
    requires NodeLayer(nodes, current)[i].highlighted && NodeLayer(nodes, current)[j].highlighted
    ensures i == j && current == Some(nodes[i].id)
  {
    assert NodeLayer(nodes, current)[i] == NodeMarkerFor(nodes[i], current);
    assert NodeLayer(nodes, current)[j] == NodeMarkerFor(nodes[j], current);
  }

  // ------------------------------------------------------------ the map view

  /** The layer groups and vehicle map of one mounted supply-chain map. */
  class SupplyChainMapView {
    var flowLayer: seq<FlowLine>
    var vehicleLayer: seq<VehicleMarker>
    var nodeLayer: seq<NodeMarker>
    var vehiclePositions: map<string, Vehicle>

    ghost predicate Valid()
      reads this
    {
      forall k :: k in vehiclePositions ==> VehicleValid(vehiclePositions[k])
    }

    /** A freshly mounted map: empty layers, no vehicles. */
    constructor ()
      ensures Valid()
      ensures flowLayer == [] && vehicleLayer == [] && nodeLayer == [] && vehiclePositions == map[]
    {
      flowLayer, vehicleLayer, nodeLayer := [], [], [];
      vehiclePositions := map[];
    }

    /** The effect at :194-253: clear the flow layer and draw every flow between two known nodes. */
    method RedrawFlows(nodes: seq<SupplyNode>, flows: seq<SupplyFlow>)
      requires Valid()
      modifies this
      ensures Valid()
      ensures flowLayer == FlowLayer(nodes, flows)
      ensures vehicleLayer == old(vehicleLayer) && nodeLayer == old(nodeLayer) && vehiclePositions == old(vehiclePositions)
    {
      flowLayer := [];
      for i := 0 to |flows|
        invariant flowLayer == FlowLayer(nodes, flows[..i])
        invariant vehicleLayer == old(vehicleLayer) && nodeLayer == old(nodeLayer) && vehiclePositions == old(vehiclePositions)
      {
        var flow := flows[i];
        var fromNode := FindNode(nodes, flow.from);
        var toNode := FindNode(nodes, flow.to);
        FlowLayerStep(nodes, flows, i);
        if fromNode.Some? && toNode.Some? {
          assert FlowContribution(nodes, flow) == FlowLines(flow, fromNode.value, toNode.value);
          flowLayer := flowLayer + FlowLines(flow, fromNode.value, toNode.value);
        } else {
          assert FlowContribution(nodes, flow) == [];
        }
      }
      assert flows[..|flows|] == flows;
    }

    /**
      The effect at :255-287: clear the vehicle layer and the position map, then,
      while simulating, put a vehicle on every active flow between known nodes,
      its marker at the source node; `rnd[i]` is the random start of flow `i`.
      A later flow with the same `from-to` key overwrites the earlier entry, while
      each of them still adds a marker.
     */
    method RestartSimulation(nodes: seq<SupplyNode>, flows: seq<SupplyFlow>, isSimulating: bool, rnd: seq<real>)
      requires Valid()
      requires |rnd| == |flows| && forall i :: 0 <= i < |rnd| ==> 0.0 <= rnd[i] < 1.0
      modifies this
      ensures Valid()
      ensures !isSimulating ==> vehicleLayer == [] && vehiclePositions == map[]
      ensures isSimulating ==> vehiclePositions == SeedVehicles(nodes, flows, rnd, |flows|)
      ensures isSimulating ==> vehicleLayer == VehicleLayer(nodes, flows, |flows|)
      ensures flowLayer == old(flowLayer) && nodeLayer == old(nodeLayer)
    {
      vehicleLayer := [];
      vehiclePositions := map[];
      if !isSimulating {
        return;
      }
      for i := 0 to |flows|
        invariant vehiclePositions == SeedVehicles(nodes, flows, rnd, i)
        invariant vehicleLayer == VehicleLayer(nodes, flows, i)
        invariant flowLayer == old(flowLayer) && nodeLayer == old(nodeLayer)
      {
        var flow := flows[i];
        if flow.status == "active" {
          var fromNode := FindNode(nodes, flow.from);
          var toNode := FindNode(nodes, flow.to);
          if fromNode.Some? && toNode.Some? {
            var a, b := fromNode.value, toNode.value;
            vehicleLayer := vehicleLayer + [VehicleMarker(FlowKey(flow), FlowColor(flow.status))];
            vehiclePositions := vehiclePositions[FlowKey(flow) := Vehicle(rnd[i], a.pos, b.pos, a.pos)];
          }
        }
      }
    }

    /** One call of `animate` (:291-309) with `delta` milliseconds since the last frame. */
    method AnimateFrame(delta: real)
      requires Valid() && delta >= 0.0
      modifies this
      ensures Valid()
      ensures vehiclePositions == AdvanceVehicles(old(vehiclePositions), delta)
      ensures flowLayer == old(flowLayer) && vehicleLayer == old(vehicleLayer) && nodeLayer == old(nodeLayer)
    {
      ghost var before := vehiclePositions;
      var pending := vehiclePositions.Keys;
      while pending != {}
        invariant pending <= before.Keys && vehiclePositions.Keys == before.Keys
        invariant forall k :: k in pending ==> vehiclePositions[k] == before[k]
        invariant forall k :: k in before && k !in pending ==> vehiclePositions[k] == AdvanceVehicle(before[k], delta)
        invariant Valid()
        invariant flowLayer == old(flowLayer) && vehicleLayer == old(vehicleLayer) && nodeLayer == old(nodeLayer)
        decreases pending
      {
        var k :| k in pending;
        vehiclePositions := vehiclePositions[k := AdvanceVehicle(vehiclePositions[k], delta)];
        pending := pending - {k};
      }
    }

    /** The effect at :320-361: clear the node layer and draw one marker per node. */
    method RedrawNodes(nodes: seq<SupplyNode>, current: Option<string>)
      requires Valid()
      modifies this
      ensures Valid()
      ensures nodeLayer == NodeLayer(nodes, current)
      ensures flowLayer == old(flowLayer) && vehicleLayer == old(vehicleLayer) && vehiclePositions == old(vehiclePositions)
    {
      var layer: seq<NodeMarker> := [];
      for i := 0 to |nodes|
        invariant |layer| == i
        invariant forall j :: 0 <= j < i ==> layer[j] == NodeMarkerFor(nodes[j], current)
      {
        layer := layer + [NodeMarkerFor(nodes[i], current)];
      }
      nodeLayer := layer;
    }
  }
}
