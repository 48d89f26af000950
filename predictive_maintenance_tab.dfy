/**
  The predictive-maintenance tab: the machine health monitor (status strip,
  status badge, health bar and the three alert readings per machine), the
  maintenance schedule's priority badges, the machine selection, and the total
  cost saving shown in the metric cards.
 */
module PredictiveMaintenanceTab {

  import opened Optional
  import opened StatusBadge

  /** One row of the machine health monitor. */
  datatype Machine = Machine(
    id: string, name: string, health: int, nextMaintenance: string,
    vibration: real, temperature: real, status: string)

  /** The six monitored machines. */
  const Machines: seq<Machine> := [
    Machine("M-001", "CNC Milling Center", 94, "12 days", 0.42, 45.0, "healthy"),
    Machine("M-002", "Hydraulic Press", 78, "3 days", 0.68, 52.0, "attention"),
    Machine("M-003", "Laser Cutting System", 65, "1 day", 0.89, 58.0, "warning"),
    Machine("M-004", "Assembly Robot Arm", 91, "18 days", 0.35, 38.0, "healthy"),
    Machine("M-005", "Industrial Conveyor", 88, "8 days", 0.51, 42.0, "healthy"),
    Machine("M-006", "Welding Station", 45, "Overdue", 1.24, 68.0, "critical")
  ]

  // ------------------------------------------------------------- cost savings

  /** One cost category, yearly cost before and after predictive maintenance. */
  datatype CostSaving = CostSaving(category: string, before: int, after: int)

  const CostSavings: seq<CostSaving> := [
    CostSaving("Unplanned Downtime", 45000, 12000),
    CostSaving("Emergency Repairs", 28000, 8500),
    CostSaving("Parts Inventory", 15000, 9000),
    CostSaving("Labor Costs", 22000, 14000)
  ]

  /**
    `totalSaved`: the left fold adding `before - after` of each category, in list
    order; it equals the total cost before minus the total cost after.
   */
  function TotalSaved(items: seq<CostSaving>): (r: int)
    ensures r == SumBefore(items) - SumAfter(items)
  {
    if items == [] then 0
    else
      var init, last := items[..|items| - 1], items[|items| - 1];
      SumBeforeAppend(init, last);
      assert init + [last] == items;
      TotalSaved(init) + (last.before - last.after)
  }

  /** The total cost before predictive maintenance. */
  function SumBefore(items: seq<CostSaving>): int
  {
    if items == [] then 0 else items[0].before + SumBefore(items[1..])
  }

  /** The total cost after predictive maintenance. */
  function SumAfter(items: seq<CostSaving>): int
  {
    if items == [] then 0 else items[0].after + SumAfter(items[1..])
  }

  lemma {:induction false} SumBeforeAppend(items: seq<CostSaving>, c: CostSaving)
    ensures SumBefore(items + [c]) == SumBefore(items) + c.before
    ensures SumAfter(items + [c]) == SumAfter(items) + c.after
    decreases |items|
  {
    if items != [] {
      assert (items + [c])[1..] == items[1..] + [c];
      SumBeforeAppend(items[1..], c);
    }
  }

  /** When no category costs more afterwards, the total saving is not negative, and one real saving makes it positive. */
  lemma {:induction false} TotalSavedSign(items: seq<CostSaving>)
    requires forall k :: 0 <= k < |items| ==> items[k].after <= items[k].before
    ensures TotalSaved(items) >= 0
    ensures (exists k :: 0 <= k < |items| && items[k].after < items[k].before) ==> TotalSaved(items) > 0
    decreases |items|
  {
    if items != [] {
      var init := items[..|items| - 1];
      TotalSavedSign(init);
      if exists k :: 0 <= k < |items| && items[k].after < items[k].before {
        var k :| 0 <= k < |items| && items[k].after < items[k].before;
        if k < |items| - 1 {
          assert init[k] == items[k];
        }
      }
    }
  }

  /**
    `(x / 1000).toFixed(0)`: the nearest whole number of thousands, a tie going
    away from zero (the rounding is done on the magnitude).
   */
  function Thousands(x: int): (n: int)
    ensures x >= 0 ==> n >= 0 && n * 1000 - 500 <= x < n * 1000 + 500
    ensures x < 0 ==> n <= 0 && n * 1000 - 500 < x <= n * 1000 + 500
  {
    if x >= 0 then (x + 500) / 1000 else -((-x + 500) / 1000)
  }

  /** The dataset saves 66,500 in total, shown as 67 thousand. */
  lemma DatasetTotalSaved()
    ensures TotalSaved(CostSavings) == 66500
    ensures SumBefore(CostSavings) == 110000 && SumAfter(CostSavings) == 43500
    ensures Thousands(TotalSaved(CostSavings)) == 67
  {
  }

  // ------------------------------------------------------ machine health rows

  datatype Tone = Green | Amber | Orange | Red

  /** The coloured strip beside each machine: one tone per known status, red otherwise. */
  function StatusStrip(status: string): (c: Tone)
    ensures c == Green <==> status == "healthy"
    ensures c == Amber <==> status == "attention"
    ensures c == Orange <==> status == "warning"
    ensures c == Red <==> status !in {"healthy", "attention", "warning"}
  {
    if status == "healthy" then Green
    else if status == "attention" then Amber
    else if status == "warning" then Orange
    else Red
  }

  /** The machine's status badge: healthy is a success, attention and warning are warnings, the rest a danger. */
  function MachineBadge(status: string): (b: Status)
    ensures b == Success <==> status == "healthy"
    ensures b == Warning <==> status == "attention" || status == "warning"
    ensures b == Danger <==> status !in {"healthy", "attention", "warning"}
  {
    if status == "healthy" then Success
    else if status == "attention" then Warning
    else if status == "warning" then Warning
    else Danger
  }

  /** The badge pulses exactly for a critical machine. */
  function BadgePulses(status: string): (r: bool)
    ensures r <==> status == "critical"
  {
    status == "critical"
  }

  /** The strip and the badge agree: the badge is a warning exactly on the amber and orange strips. */
  lemma StripMatchesBadge(status: string)
    ensures MachineBadge(status) == Success <==> StatusStrip(status) == Green
    ensures MachineBadge(status) == Warning <==> StatusStrip(status) in {Amber, Orange}
    ensures MachineBadge(status) == Danger <==> StatusStrip(status) == Red
    ensures BadgePulses(status) ==> StatusStrip(status) == Red
  {
  }

  /** The health bar: green above 80, amber above 60, orange above 40, red otherwise. */
  function HealthBar(health: int): (c: Tone)
    ensures c == Green <==> health > 80
    ensures c == Amber <==> 60 < health <= 80
    ensures c == Orange <==> 40 < health <= 60
    ensures c == Red <==> health <= 40
  {
    if health > 80 then Green
    else if health > 60 then Amber
    else if health > 40 then Orange
    else Red
  }

  /** The tones in order of severity. */
  function Severity(c: Tone): nat
  {
    match c
    case Green => 0
    case Amber => 1
    case Orange => 2
    case Red => 3
  }

  /** A healthier machine never shows a more severe bar. */
  lemma HealthBarMonotone(a: int, b: int)
    requires a <= b
    ensures Severity(HealthBar(b)) <= Severity(HealthBar(a))
  {
  }

  /** The three readings under each row and whether each is flagged. */
  datatype Alerts = Alerts(vibration: bool, temperature: bool, overdue: bool)

  /** Vibration above 0.8 mm/s is flagged red, temperature above 55 degrees amber, an overdue service red. */
  function MachineAlerts(m: Machine): (a: Alerts)
    ensures a.vibration <==> m.vibration > 0.8
    ensures a.temperature <==> m.temperature > 55.0
    ensures a.overdue <==> m.nextMaintenance == "Overdue"
  {
    Alerts(m.vibration > 0.8, m.temperature > 55.0, m.nextMaintenance == "Overdue")
  }

  /** A machine with at least one flagged reading. */
  predicate Alerted(m: Machine)
  {
    var a := MachineAlerts(m);
    a.vibration || a.temperature || a.overdue
  }

  /** The number of machines with a flagged reading. */
  function CountAlerted(ms: seq<Machine>): (n: nat)
    ensures n <= |ms|
    ensures n == 0 <==> forall k :: 0 <= k < |ms| ==> !Alerted(ms[k])
  {
    if ms == [] then 0 else (if Alerted(ms[0]) then 1 else 0) + CountAlerted(ms[1..])
  }

  /**
    On the dataset exactly the laser cutter and the welding station carry flagged
    readings, which matches the two active alerts announced in the header; the
    welding station is flagged on all three.
   */
  lemma DatasetAlerts()
    ensures forall k :: 0 <= k < |Machines| ==> (Alerted(Machines[k]) <==> k == 2 || k == 5)
    ensures MachineAlerts(Machines[5]) == Alerts(true, true, true)
    ensures CountAlerted(Machines) == 2
  {
    assert Machines[5].nextMaintenance == "Overdue";
    assert Machines[0].nextMaintenance != "Overdue";
    assert Machines[1].nextMaintenance != "Overdue";
    assert Machines[2].nextMaintenance != "Overdue";
    assert Machines[3].nextMaintenance != "Overdue";
    assert Machines[4].nextMaintenance != "Overdue";
  }

  // --------------------------------------------------------- machine selection

  /** A row is framed as selected exactly when its id is the selection. */
  function RowSelected(m: Machine, selected: Option<string>): (r: bool)
    ensures r <==> selected == Some(m.id)
  {
    selected == Some(m.id)
  }

  /** The machine ids of the dataset are distinct. */
  lemma MachineIdsDistinct()
    ensures forall i, j :: 0 <= i < j < |Machines| ==> Machines[i].id != Machines[j].id
  {
    forall i, j | 0 <= i < j < |Machines|
      ensures Machines[i].id != Machines[j].id
    {
      assert Machines[i].id[4] != Machines[j].id[4];
    }
  }

  /** The tab's selected-machine state. */
  class MachineSelection {
    var selected: Option<string>

    /** The laser cutting system is selected when the tab mounts. */
    constructor ()
      ensures selected == Some("M-003") && selected == Some(Machines[2].id)
    {
      selected := Some("M-003");
    }

    /** A click on a row selects that machine; clicking the selected row again keeps it selected. */
    method Click(id: string)
      modifies this
      ensures selected == Some(id)
      ensures old(selected) == Some(id) ==> selected == old(selected)
    {
      selected := Some(id);
    }
  }

  /** After a click on row `i`, row `i` and no other row is framed. */
  lemma ClickFramesOnlyThatRow(i: nat, j: nat)
    requires i < |Machines| && j < |Machines|
    ensures RowSelected(Machines[j], Some(Machines[i].id)) <==> i == j
  {
    MachineIdsDistinct();
  }

  // ------------------------------------------------------ maintenance schedule

  /** The schedule's priority badge: critical, high and medium each have a tone; anything else is neutral. */
  function PriorityBadge(priority: string): (b: Status)
    ensures b == Danger <==> priority == "critical"
    ensures b == Warning <==> priority == "high"
    ensures b == Info <==> priority == "medium"
    ensures b == Neutral <==> priority !in {"critical", "high", "medium"}
    ensures b != Success
  {
    if priority == "critical" then Danger
    else if priority == "high" then Warning
    else if priority == "medium" then Info
    else Neutral
  }

  /** A scheduled date is highlighted in red exactly when it is today. */
  function DateHighlighted(date: string): (r: bool)
    ensures r <==> date == "Today"
  {
    date == "Today"
  }
}
