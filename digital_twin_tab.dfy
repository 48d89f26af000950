/**
  The digital-twin tab: the zoom buttons of the 3D view, the machine status
  panel (selection toggle, status badge, details and temperature highlight) and
  the CNC machine's status light and spindle.
 */
module DigitalTwinTab {

  import opened Optional
  import opened StatusBadge
  import opened Selection

  // -------------------------------------------------------------------- zoom

  /** The nearest the zoom-in button aims the camera. */
  const ZoomFloor: real := 5.0

  /** The farthest the zoom-out button aims the camera. */
  const ZoomCeiling: real := 25.0

  /** The camera-distance bounds the orbit controls are configured with. */
  const MinDistance: real := 6.0
  const MaxDistance: real := 25.0

  /** `Math.max(currentDistance * 0.7, 5)`: the larger of seven tenths of the distance and the floor. */
  function ZoomInTarget(d: real): (r: real)
    ensures r >= ZoomFloor && r >= d * 0.7
    ensures r == ZoomFloor || r == d * 0.7
  {
    if d * 0.7 >= ZoomFloor then d * 0.7 else ZoomFloor
  }

  /** `Math.min(currentDistance * 1.3, 25)`: the smaller of thirteen tenths of the distance and the ceiling. */
  function ZoomOutTarget(d: real): (r: real)
    ensures r <= ZoomCeiling && r <= d * 1.3
    ensures r == ZoomCeiling || r == d * 1.3
  {
    if d * 1.3 <= ZoomCeiling then d * 1.3 else ZoomCeiling
  }

  /** Within the zoom range, zooming in moves closer (strictly, unless already at the floor) and stays in range. */
  lemma ZoomInStaysInRange(d: real)
    requires ZoomFloor <= d <= ZoomCeiling
    ensures ZoomFloor <= ZoomInTarget(d) <= d
    ensures d > ZoomFloor ==> ZoomInTarget(d) < d
  {
  }

  /** Within the zoom range, zooming out moves farther (strictly, unless already at the ceiling) and stays in range. */
  lemma ZoomOutStaysInRange(d: real)
    requires ZoomFloor <= d <= ZoomCeiling
    ensures d <= ZoomOutTarget(d) <= ZoomCeiling
    ensures d < ZoomCeiling ==> d < ZoomOutTarget(d)
  {
  }

  /** Both targets keep the order of distances. */
  lemma ZoomTargetsMonotone(a: real, b: real)
    requires a <= b
    ensures ZoomInTarget(a) <= ZoomInTarget(b)
    ensures ZoomOutTarget(a) <= ZoomOutTarget(b)
  {
  }

  /** The distance after `n` presses of zoom in. */
  function ZoomIns(d: real, n: nat): real
  {
    if n == 0 then d else ZoomInTarget(ZoomIns(d, n - 1))
  }

  /** The distance after `n` presses of zoom out. */
  function ZoomOuts(d: real, n: nat): real
  {
    if n == 0 then d else ZoomOutTarget(ZoomOuts(d, n - 1))
  }

  lemma {:induction false} ZoomInsMonotone(a: real, b: real, n: nat)
    requires a <= b
    ensures ZoomIns(a, n) <= ZoomIns(b, n)
    decreases n
  {
    if n > 0 {
      ZoomInsMonotone(a, b, n - 1);
      ZoomTargetsMonotone(ZoomIns(a, n - 1), ZoomIns(b, n - 1));
    }
  }

  lemma {:induction false} ZoomOutsMonotone(a: real, b: real, n: nat)
    requires a <= b
    ensures ZoomOuts(a, n) <= ZoomOuts(b, n)
    decreases n
  {
    if n > 0 {
      ZoomOutsMonotone(a, b, n - 1);
      ZoomTargetsMonotone(ZoomOuts(a, n - 1), ZoomOuts(b, n - 1));
    }
  }

  /** Five presses of zoom in bring any distance up to the ceiling down to the floor. */
  lemma FiveZoomInsReachFloor(d: real)
    requires 0.0 <= d <= ZoomCeiling
    ensures ZoomIns(d, 5) == ZoomFloor
  {
    ZoomInsMonotone(d, ZoomCeiling, 5);
    assert ZoomIns(ZoomCeiling, 4) == 6.0025;
  }

  /** Seven presses of zoom out bring any distance from the floor on up to the ceiling. */
  lemma SevenZoomOutsReachCeiling(d: real)
    requires d >= ZoomFloor
    ensures ZoomOuts(d, 7) == ZoomCeiling
  {
    ZoomOutsMonotone(ZoomFloor, d, 7);
    assert ZoomOuts(ZoomFloor, 6) == 24.134045;
  }

  /** The zoom-in floor lies below the controls' minimum distance: from any distance under 60/7 the target is nearer than the controls allow. */
  lemma ZoomInAimsBelowMinDistance(d: real)
    requires d < 60.0 / 7.0
    ensures ZoomInTarget(d) < MinDistance
  {
  }

  // ---------------------------------------------------- machine status panel

  datatype MachineState = Running | Idle | Maintenance

  /** One entry of the status panel. */
  datatype MachineStatus = MachineStatus(name: string, status: MachineState, efficiency: int, temperature: real, uptime: string)

  const MachineStatuses: seq<MachineStatus> := [
    MachineStatus("CNC Mill A1", Running, 94, 42.0, "12h 34m"),
    MachineStatus("CNC Mill A2", Running, 91, 45.0, "8h 12m"),
    MachineStatus("Assembly Robot B1", Running, 98, 38.0, "23h 45m"),
    MachineStatus("Hydraulic Press C1", Idle, 0, 28.0, "0h 0m"),
    MachineStatus("Laser Cutter D1", Maintenance, 0, 25.0, "0h 0m"),
    MachineStatus("Welding Station E1", Running, 87, 52.0, "6h 18m")
  ]

  /** The pie chart's counts of running, idle and maintenance machines. */
  const PieRunning: nat := 4
  const PieIdle: nat := 1
  const PieMaintenance: nat := 1

  /** The number of machines in state `s`. */
  function CountInState(ms: seq<MachineStatus>, s: MachineState): (n: nat)
    ensures n <= |ms|
  {
    if ms == [] then 0 else (if ms[0].status == s then 1 else 0) + CountInState(ms[1..], s)
  }

  /** Adding a machine to the list adds one to the count of its own state and nothing to the others. */
  lemma {:induction false} CountInStateAppend(ms: seq<MachineStatus>, m: MachineStatus, s: MachineState)
    ensures CountInState(ms + [m], s) == CountInState(ms, s) + (if m.status == s then 1 else 0)
  {
    if ms != [] {
      assert (ms + [m])[1..] == ms[1..] + [m];
      CountInStateAppend(ms[1..], m, s);
    }
  }

  /** The count is zero exactly when no machine is in that state, and the whole list exactly when all are. */
  lemma {:induction false} CountInStateExtremes(ms: seq<MachineStatus>, s: MachineState)
    ensures CountInState(ms, s) == 0 <==> forall k :: 0 <= k < |ms| ==> ms[k].status != s
    ensures CountInState(ms, s) == |ms| <==> forall k :: 0 <= k < |ms| ==> ms[k].status == s
  {
    if ms != [] {
      CountInStateExtremes(ms[1..], s);
      assert forall k :: 1 <= k < |ms| ==> ms[k] == ms[1..][k - 1];
    }
  }

  /** The machine's status badge: running is a success, idle a warning, maintenance a danger. */
  function PanelBadge(s: MachineState): (b: Status)
    ensures b == Success <==> s == Running
    ensures b == Warning <==> s == Idle
    ensures b == Danger <==> s == Maintenance
  {
    match s
    case Running => Success
    case Idle => Warning
    case Maintenance => Danger
  }

  /** The badge pulses exactly while the machine runs. */
  function BadgePulses(s: MachineState): (r: bool)
    ensures r <==> s == Running
  {
    s == Running
  }

  /** A temperature above 50 degrees is highlighted in the details. */
  function TemperatureHighlighted(t: real): (r: bool)
    ensures r <==> t > 50.0
  {
    t > 50.0
  }

  /** The details of a machine show exactly when it is the selected one. */
  function DetailsShown(m: MachineStatus, selected: Option<string>): (r: bool)
    ensures r <==> selected == Some(m.name)
  {
    selected == Some(m.name)
  }

  /**
    The panel agrees with the pie chart, the names are distinct, and the welding
    station is the only machine whose temperature is highlighted.
   */
  lemma PanelDataset()
    ensures CountInState(MachineStatuses, Running) == PieRunning
    ensures CountInState(MachineStatuses, Idle) == PieIdle
    ensures CountInState(MachineStatuses, Maintenance) == PieMaintenance
    ensures forall i, j :: 0 <= i < j < |MachineStatuses| ==> MachineStatuses[i].name != MachineStatuses[j].name
    ensures forall k :: 0 <= k < |MachineStatuses| ==> (TemperatureHighlighted(MachineStatuses[k].temperature) <==> k == 5)
  {
    forall i, j | 0 <= i < j < |MachineStatuses|
      ensures MachineStatuses[i].name != MachineStatuses[j].name
    {
      var a, b := MachineStatuses[i].name, MachineStatuses[j].name;
      if i <= 1 && j <= 1 {
        assert a[10] != b[10];
      } else {
        assert a[0] != b[0];
      }
    }
  }

  /** After a click on entry `i` that was not selected, its details and no others are shown. */
  lemma ClickShowsOnlyThatMachine(selected: Option<string>, i: nat, j: nat)
    requires i < |MachineStatuses| && j < |MachineStatuses|
    requires !DetailsShown(MachineStatuses[i], selected)
    ensures DetailsShown(MachineStatuses[j], Toggled(selected, MachineStatuses[i].name)) <==> i == j
  {
    PanelDataset();
  }

  /** The panel's selected-machine state. */
  class MachinePanel {
    var selectedMachine: Option<string>

    /** Nothing is selected when the tab mounts. */
    constructor ()
      ensures selectedMachine == None
    {
      selectedMachine := None;
    }

    /** A click on a machine entry selects it, or deselects it if it was selected. */
    method Click(name: string)
      modifies this
      ensures selectedMachine == Toggled(old(selectedMachine), name)
    {
      selectedMachine := if Some(name) == selectedMachine then None else Some(name);
    }
  }

  // ------------------------------------------------------------- CNC machine

  /** The CNC machine's status light. */
  function CncStatusColor(s: MachineState): (c: string)
    ensures c == "#22c55e" <==> s == Running
    ensures c == "#f59e0b" <==> s == Idle
    ensures c == "#ef4444" <==> s == Maintenance
  {
    match s
    case Running => "#22c55e"
    case Idle => "#f59e0b"
    case Maintenance => "#ef4444"
  }

  /** One frame of the spindle: it turns by 0.2 radians while running and stands still otherwise. */
  function SpindleStep(angle: real, s: MachineState): (r: real)
    ensures r != angle <==> s == Running
    ensures s == Running ==> r == angle + 0.2
  {
    if s == Running then angle + 0.2 else angle
  }

  /** The status light and the panel badge tell the same story. */
  lemma LightMatchesBadge(s: MachineState)
    ensures CncStatusColor(s) == "#22c55e" <==> PanelBadge(s) == Success
    ensures CncStatusColor(s) == "#f59e0b" <==> PanelBadge(s) == Warning
    ensures CncStatusColor(s) == "#ef4444" <==> PanelBadge(s) == Danger
    ensures SpindleStep(0.0, s) != 0.0 <==> BadgePulses(s)
  {
  }
}
