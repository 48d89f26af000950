/**
  The supply-chain tab: the node and flow datasets handed to the network map,
  the simulation that steps through six stages every interval tick while it
  runs, the node of the current stage that the map highlights, and the
  inventory, supplier and disruption displays.
 */
module SupplyChainTab {
  import opened Optional
  import opened Geo
  import opened SupplyChainMap
  import opened StatusBadge

  // ------------------------------------------------------------- datasets

  /** `supplyChainNodes` (:15-26). */
  const Nodes: seq<SupplyNode> := [
    SupplyNode("supplier-1", "Stahl Lieferant (Stuttgart)", Point(48.7758, 9.1829), Supplier, 85.0),
    SupplyNode("supplier-2", "Elektronik (München)", Point(48.1351, 11.5820), Supplier, 92.0),
    SupplyNode("supplier-3", "Kunststoffe (Frankfurt)", Point(50.1109, 8.6821), Supplier, 78.0),
    SupplyNode("supplier-4", "Aluminium (Karlsruhe)", Point(49.0069, 8.4037), Supplier, 88.0),
    SupplyNode("warehouse-1", "Zentrallager Heilbronn", Point(49.1427, 9.2109), Warehouse, 88.0),
    SupplyNode("warehouse-2", "Regionallager Mannheim", Point(49.4875, 8.4660), Warehouse, 75.0),
    SupplyNode("factory-1", "Produktionswerk Heilbronn", Point(49.1500, 9.2200), Factory, 72.0),
    SupplyNode("dc-1", "Vertriebszentrum Nord", Point(49.2333, 9.3167), Distribution, 65.0),
    SupplyNode("dc-2", "Vertriebszentrum Süd", Point(48.8582, 9.2000), Distribution, 70.0),
    SupplyNode("customer-1", "Einzelhandelsnetzwerk", Point(49.4500, 8.6500), Customer, 0.0)
  ]

  /** `supplyFlows` (:29-40). */
  const Flows: seq<SupplyFlow> := [
    SupplyFlow("supplier-1", "warehouse-1", 450.0, "active"),
    SupplyFlow("supplier-2", "warehouse-1", 280.0, "active"),
    SupplyFlow("supplier-3", "warehouse-1", 320.0, "delayed"),
    SupplyFlow("supplier-4", "warehouse-2", 380.0, "active"),
    SupplyFlow("warehouse-1", "factory-1", 850.0, "active"),
    SupplyFlow("warehouse-2", "factory-1", 420.0, "active"),
    SupplyFlow("factory-1", "dc-1", 620.0, "active"),
    SupplyFlow("factory-1", "dc-2", 480.0, "active"),
    SupplyFlow("dc-1", "customer-1", 580.0, "active"),
    SupplyFlow("dc-2", "customer-1", 440.0, "active")
  ]

  /** The node of each stage of `simulationSteps` (:71-78). */
  const StepNodes: seq<string> := ["supplier-1", "supplier-2", "warehouse-1", "factory-1", "dc-1", "customer-1"]

  /** `simulationSteps.length`. */
  const StepCount: nat := 6

  /** The ids of the dataset's nodes, in order. */
  function NodeIds(): (r: seq<string>)
    ensures |r| == |Nodes| && forall i :: 0 <= i < |Nodes| ==> r[i] == Nodes[i].id
  {
    seq(|Nodes|, i requires 0 <= i < |Nodes| => Nodes[i].id)
  }

  /** A node id is found by the map's lookup exactly when it is listed. */
  lemma FindNodeIffListed(id: string)
    ensures FindNode(Nodes, id).Some? <==> id in NodeIds()
  {
    if id in NodeIds() {
      var i :| 0 <= i < |Nodes| && NodeIds()[i] == id;
      assert Nodes[i].id == id;
    }
  }

  /** Every flow endpoint and every stage's node is a node of the dataset, and node ids are distinct. */
  lemma DatasetIntegrity()
    ensures forall a, b :: 0 <= a < b < |Nodes| ==> Nodes[a].id != Nodes[b].id
    ensures forall f :: f in Flows ==> f.from in NodeIds() && f.to in NodeIds()
    ensures |StepNodes| == StepCount && forall s :: s in StepNodes ==> s in NodeIds()
  {
    assert NodeIds() == ["supplier-1", "supplier-2", "supplier-3", "supplier-4", "warehouse-1",
                         "warehouse-2", "factory-1", "dc-1", "dc-2", "customer-1"];
  }

  /** So the map draws every flow: twenty lines, two per flow. */
  lemma EveryFlowIsDrawn()
    ensures forall i :: 0 <= i < |Flows| ==> Resolvable(Nodes, Flows[i])
    ensures |FlowLayer(Nodes, Flows)| == 2 * |Flows|
  {
    DatasetIntegrity();
    forall i | 0 <= i < |Flows| ensures Resolvable(Nodes, Flows[i]) {
      FindNodeIffListed(Flows[i].from);
      FindNodeIffListed(Flows[i].to);
    }
    AllResolvableCount(Flows);
    FlowLayerSize(Nodes, Flows);
  }

  lemma {:induction false} AllResolvableCount(flows: seq<SupplyFlow>)
    requires forall i :: 0 <= i < |flows| ==> Resolvable(Nodes, flows[i])
    ensures CountResolvable(Nodes, flows) == |flows|
  {
    if flows != [] {
      AllResolvableCount(flows[..|flows| - 1]);
    }
  }

  // ------------------------------------------------------- simulation (:116-128)

  /** One interval tick: `(prev + 1) % simulationSteps.length`. */
  function NextStep(s: int): (r: int)
    requires 0 <= s < StepCount
    ensures 0 <= r < StepCount
    ensures s < StepCount - 1 ==> r == s + 1
    ensures s == StepCount - 1 ==> r == 0
  {
    (s + 1) % StepCount
  }

  /** The stage after `n` ticks. */
  function AfterTicks(s: int, n: nat): int
    requires 0 <= s < StepCount
    ensures 0 <= AfterTicks(s, n) < StepCount
  {
    if n == 0 then s else NextStep(AfterTicks(s, n - 1))
  }

  /** `n` ticks advance the stage by `n`, modulo the number of stages. */
  lemma {:induction false} TicksCycle(s: int, n: nat)
    requires 0 <= s < StepCount
    ensures AfterTicks(s, n) == (s + n) % StepCount
  {
    if n > 0 {
      TicksCycle(s, n - 1);
      var q := (s + n - 1) / StepCount;
      assert s + n - 1 == StepCount * q + AfterTicks(s, n - 1);
      if AfterTicks(s, n - 1) < StepCount - 1 {
        assert s + n == StepCount * q + AfterTicks(s, n);
      } else {
        assert s + n == StepCount * (q + 1) + AfterTicks(s, n);
      }
    }
  }

  /** A full round of ticks returns to the stage it started from. */
  lemma FullRound(s: int)
    requires 0 <= s < StepCount
    ensures AfterTicks(s, StepCount) == s
  {
    TicksCycle(s, StepCount);
  }

  /** The simulation state of the tab. */
  class Simulation {
    var isSimulating: bool
    var currentStep: int

    ghost predicate Valid()
      reads this
    {
      0 <= currentStep < StepCount
    }

    /** The tab mounts paused at the first stage. */
    constructor ()
      ensures Valid() && !isSimulating && currentStep == 0
    {
      isSimulating, currentStep := false, 0;
    }

    /** The Simulate/Pause button: the stage is kept across a pause. */
    method Toggle()
      requires Valid()
      modifies this
      ensures Valid()
      ensures isSimulating == !old(isSimulating) && currentStep == old(currentStep)
    {
      isSimulating := !isSimulating;
    }

    /** The interval callback: it only exists, and so only advances, while simulating. */
    method Tick()
      requires Valid()
      modifies this
      ensures Valid()
      ensures isSimulating == old(isSimulating)
      ensures currentStep == if isSimulating then NextStep(old(currentStep)) else old(currentStep)
    {
      if isSimulating {
        currentStep := (currentStep + 1) % StepCount;
      }
    }

    /** `currentStepNodeId`: the current stage's node while simulating, nothing otherwise. */
    function CurrentStepNodeId(): (r: Option<string>)
      requires Valid()
      reads this
      ensures r.Some? <==> isSimulating
      ensures r.Some? ==> r.value == StepNodes[currentStep]
    {
      if isSimulating then Some(StepNodes[currentStep]) else None
    }
  }

  /**
    While simulating, exactly one node marker of the map is highlighted: the one
    of the current stage.
   */
  lemma CurrentStageHighlighted(step: int)
    requires 0 <= step < StepCount
    ensures exists i :: 0 <= i < |Nodes| && NodeLayer(Nodes, Some(StepNodes[step]))[i].highlighted &&
                        Nodes[i].id == StepNodes[step] &&
                        (forall j :: 0 <= j < |Nodes| && NodeLayer(Nodes, Some(StepNodes[step]))[j].highlighted ==> j == i)
  {
    DatasetIntegrity();
    var id := StepNodes[step];
    assert id in NodeIds();
    var i :| 0 <= i < |Nodes| && NodeIds()[i] == id;
    assert NodeLayer(Nodes, Some(id))[i] == NodeMarkerFor(Nodes[i], Some(id));
    forall j | 0 <= j < |Nodes| && NodeLayer(Nodes, Some(id))[j].highlighted
      ensures j == i
    {
      HighlightIsUnique(Nodes, Some(id), i, j);
    }
  }

  // ---------------------------------------------------- inventory (:277-312)

  datatype InventoryItem = InventoryItem(name: string, current: real, min: real, max: real, reorderPoint: real, status: string)

  /** `inventoryLevels` (:43-48). */
  const Inventory: seq<InventoryItem> := [
    InventoryItem("Rohmaterialien", 8540.0, 5000.0, 12000.0, 6000.0, "optimal"),
    InventoryItem("Komponenten", 4200.0, 2000.0, 8000.0, 3000.0, "optimal"),
    InventoryItem("Halbfabrikate", 1850.0, 500.0, 3000.0, 800.0, "optimal"),
    InventoryItem("Fertigprodukte", 2100.0, 1500.0, 5000.0, 2000.0, "low")
  ]

  datatype BarColor = Primary | AmberBar

  /** The bar is in the primary colour above the reorder point, amber at or below it. */
  function InventoryBarColor(item: InventoryItem): (c: BarColor)
    ensures c == Primary <==> item.current > item.reorderPoint
  {
    if item.current > item.reorderPoint then Primary else AmberBar
  }

  /** The bar's width in percent of the track: the stock as a share of the maximum, at most 100 while the stock is within it. */
  function BarWidth(item: InventoryItem): (w: real)
    requires item.max > 0.0
    ensures w * item.max == item.current * 100.0
    ensures 0.0 <= item.current <= item.max ==> 0.0 <= w <= 100.0
  {
    item.current / item.max * 100.0
  }

  /** Where the reorder marker sits, in percent of the track: the reorder point as a share of the maximum. */
  function ReorderMarker(item: InventoryItem): (w: real)
    requires item.max > 0.0
    ensures w * item.max == item.reorderPoint * 100.0
    ensures 0.0 <= item.reorderPoint <= item.max ==> 0.0 <= w <= 100.0
  {
    item.reorderPoint / item.max * 100.0
  }

  /** The bar reaches past the reorder marker exactly when it is drawn in the primary colour. */
  lemma BarPassesMarkerIffPrimary(item: InventoryItem)
    requires item.max > 0.0
    ensures BarWidth(item) > ReorderMarker(item) <==> InventoryBarColor(item) == Primary
  {
    var d := BarWidth(item) - ReorderMarker(item);
    assert d * item.max == (item.current - item.reorderPoint) * 100.0;
    if d > 0.0 {
      assert d * item.max > 0.0;
    } else {
      assert (-d) * item.max >= 0.0;
    }
  }

  /** The "Low" badge follows the item's status field, not its stock. */
  function ShowsLowBadge(item: InventoryItem): (r: bool)
    ensures r <==> item.status == "low"
  {
    item.status == "low"
  }

  /**
    Every item has a positive maximum, and every bar is in the primary colour,
    including the one whose status is "low" (2100 above its reorder point 2000).
   */
  lemma InventoryDataset()
    ensures forall i :: 0 <= i < |Inventory| ==> Inventory[i].max > 0.0
    ensures forall i :: 0 <= i < |Inventory| ==> InventoryBarColor(Inventory[i]) == Primary
    ensures ShowsLowBadge(Inventory[3])
  {
  }

  // --------------------------------------------- suppliers and alerts (:155-157, :317, :498-530)

  /** The on-time bar is green from 90 percent on, amber below. */
  function OnTimeGreen(onTime: real): (r: bool)
    ensures r <==> onTime >= 90.0
  {
    onTime >= 90.0
  }

  /** The risk badge: low is a success, medium a warning, anything else a danger. */
  function RiskBadge(risk: string): (b: Status)
    ensures b == Success <==> risk == "low"
    ensures b == Warning <==> risk == "medium"
    ensures b == Danger <==> risk != "low" && risk != "medium"
  {
    if risk == "low" then Success else if risk == "medium" then Warning else Danger
  }

  /** The alert badge in the header and the disruption panel render exactly when there are disruptions. */
  function ShowsDisruptions(count: nat): (r: bool)
    ensures r <==> count > 0
  {
    count > 0
  }
}
