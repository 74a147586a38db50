/**
 * The alerts panel of the dashboard: a fixed table of eight alerts whose
 * visibility follows threshold rules on the current reading, a set of
 * dismissed alert ids kept as state, the list actually displayed, and its
 * split into the Critical, Warnings and Status groups.
 */
module Alerts {
  import opened Values
  import opened MockData

  datatype Severity = Critical | Warning | Info | Success

  datatype Alert = Alert(id: nat, severity: Severity, title: string, visible: bool)

  /** The five readings the alert rules look at. */
  datatype Readings = Readings(windSpeed: real, power: real, genTemp: real, nacelTemp: real, gearOilTemp: real)

  /** `data || { windSpeed: 0, power: 0, genTemp: 0, nacelTemp: 0, gearOilTemp: 0 }`. */
  function SafeData(data: Option<Telemetry>): Readings
  {
    match data
    case None => Readings(0.0, 0.0, 0.0, 0.0, 0.0)
    case Some(d) => Readings(d.windSpeed, d.power, d.genTemp, d.nacelTemp, d.gearOilTemp)
  }

  /** `allAlerts`, in table order. */
  function AllAlerts(r: Readings): seq<Alert>
  {
    [ Alert(1, Critical, "Critical: High Wind Speed", r.windSpeed > 18.0),
      Alert(2, Critical, "Critical: Generator Overheating", r.genTemp > 80.0),
      Alert(3, Warning, "Warning: High Wind Speed", r.windSpeed > 15.0 && r.windSpeed <= 18.0),
      Alert(4, Warning, "Warning: Low Power Output", r.power < 100.0),
      Alert(5, Warning, "Warning: Elevated Nacelle Temperature", r.nacelTemp > 60.0),
      Alert(6, Warning, "Warning: High Gear Oil Temperature", r.gearOilTemp > 70.0),
      Alert(7, Info, "Maintenance Due", true),
      Alert(8, Success, "System Healthy", true) ]
  }

  /** Alert ids strictly increase along the list: the table's order, which filtering keeps. */
  predicate IdsIncreasing(alerts: seq<Alert>) {
    forall i, j :: 0 <= i < j < |alerts| ==> alerts[i].id < alerts[j].id
  }

  /**
   * The two wind alerts split the wind range: the critical one above 18 m/s, the warning
   * one above 15 up to 18, never both; the table lists ids 1 to 8 in order.
   */
  lemma AlertTable(r: Readings)
    ensures var all := AllAlerts(r);
      && |all| == 8 && IdsIncreasing(all)
      && (forall i :: 0 <= i < 8 ==> all[i].id == i + 1)
      && (all[0].visible <==> r.windSpeed > 18.0)
      && (all[2].visible <==> 15.0 < r.windSpeed <= 18.0)
      && !(all[0].visible && all[2].visible)
      && (all[1].visible <==> r.genTemp > 80.0)
      && (all[3].visible <==> r.power < 100.0)
      && (all[4].visible <==> r.nacelTemp > 60.0)
      && (all[5].visible <==> r.gearOilTemp > 70.0)
      && all[6].visible && all[7].visible
  {
  }

  /** What the filter keeps of one alert. */
  function Keep(a: Alert, dismissed: set<nat>): seq<Alert>
  {
    if a.visible && a.id !in dismissed then [a] else []
  }

  /** `allAlerts.filter((a) => a.visible && !dismissedAlerts.has(a.id))`. */
  function VisibleAlerts(all: seq<Alert>, dismissed: set<nat>): (shown: seq<Alert>)
    ensures |shown| <= |all|
  {
    if all == [] then [] else Keep(all[0], dismissed) + VisibleAlerts(all[1..], dismissed)
  }

  /** An alert is displayed exactly when it is in the table, its rule holds and it is not dismissed. */
  lemma {:induction false} VisibleMembers(all: seq<Alert>, dismissed: set<nat>)
    ensures forall a :: a in VisibleAlerts(all, dismissed) <==> a in all && a.visible && a.id !in dismissed
  {
    if all != [] {
      VisibleMembers(all[1..], dismissed);
      assert all == [all[0]] + all[1..];
      assert VisibleAlerts(all, dismissed) == Keep(all[0], dismissed) + VisibleAlerts(all[1..], dismissed);
    }
  }

  /** An alert placed before a list of larger ids keeps the ids increasing. */
  lemma IncreasingCons(x: Alert, rest: seq<Alert>)
    requires IdsIncreasing(rest) && forall a :: a in rest ==> x.id < a.id
    ensures IdsIncreasing([x] + rest)
  {
    forall i, j | 0 <= i < j < |[x] + rest| ensures ([x] + rest)[i].id < ([x] + rest)[j].id {
      assert ([x] + rest)[j] == rest[j - 1];
      if i == 0 {
        assert rest[j - 1] in rest;
      } else {
        assert ([x] + rest)[i] == rest[i - 1];
      }
    }
  }

  /** The displayed list keeps the table's order. */
  lemma {:induction false} VisibleKeepsOrder(all: seq<Alert>, dismissed: set<nat>)
    requires IdsIncreasing(all)
    ensures IdsIncreasing(VisibleAlerts(all, dismissed))
  {
    if all != [] {
      var rest := VisibleAlerts(all[1..], dismissed);
      assert IdsIncreasing(all[1..]);
      VisibleKeepsOrder(all[1..], dismissed);
      VisibleMembers(all[1..], dismissed);
      if all[0].visible && all[0].id !in dismissed {
        forall a | a in rest ensures all[0].id < a.id {
          var k :| 0 <= k < |all[1..]| && all[1..][k] == a;
          assert all[k + 1] == a;
        }
        IncreasingCons(all[0], rest);
        assert VisibleAlerts(all, dismissed) == [all[0]] + rest;
      } else {
        assert VisibleAlerts(all, dismissed) == [] + rest;
      }
    }
  }

  /** One step of the filter, from position `k` of the table. */
  lemma VisibleStep(all: seq<Alert>, dismissed: set<nat>, k: nat)
    requires k < |all|
    ensures VisibleAlerts(all[k..], dismissed) == Keep(all[k], dismissed) + VisibleAlerts(all[k + 1..], dismissed)
  {
    assert all[k..][1..] == all[k + 1..];
  }

  /** Two steps of the filter, from position `k` of the table. */
  lemma VisibleTwoSteps(all: seq<Alert>, dismissed: set<nat>, k: nat)
    requires k + 2 <= |all|
    ensures VisibleAlerts(all[k..], dismissed) ==
      Keep(all[k], dismissed) + (Keep(all[k + 1], dismissed) + VisibleAlerts(all[k + 2..], dismissed))
  {
    VisibleStep(all, dismissed, k);
    VisibleStep(all, dismissed, k + 1);
  }

  /** The filter over an eight-alert table, alert by alert. */
  lemma VisibleOfEight(all: seq<Alert>, d: set<nat>)
    requires |all| == 8
    ensures VisibleAlerts(all, d) ==
      Keep(all[0], d) + (Keep(all[1], d) + (Keep(all[2], d) + (Keep(all[3], d) +
      (Keep(all[4], d) + (Keep(all[5], d) + (Keep(all[6], d) + Keep(all[7], d)))))))
  {
    assert all[8..] == [] && all[0..] == all;
    VisibleTwoSteps(all, d, 6);
    VisibleTwoSteps(all, d, 4);
    VisibleTwoSteps(all, d, 2);
    VisibleTwoSteps(all, d, 0);
  }

  /** With no reading yet, only the low-power warning and the two status alerts show. */
  lemma NullDataAlerts()
    ensures var all := AllAlerts(SafeData(None));
      VisibleAlerts(all, {}) == [all[3], all[6], all[7]]
  {
    var all := AllAlerts(SafeData(None));
    VisibleOfEight(all, {});
  }

  function Ids(alerts: seq<Alert>): set<nat>
  {
    set a | a in alerts :: a.id
  }

  /** `handleDismiss(id)`: a copy of the set with `id` added. */
  function Dismiss(dismissed: set<nat>, id: nat): (after: set<nat>)
    ensures id in after && dismissed <= after && after - dismissed <= {id}
  {
    dismissed + {id}
  }

  lemma DismissIdempotent(dismissed: set<nat>, id: nat)
    ensures Dismiss(Dismiss(dismissed, id), id) == Dismiss(dismissed, id)
  {
  }

  /** A dismissed alert is no longer displayed, and every other alert stays as it was. */
  lemma DismissHides(all: seq<Alert>, dismissed: set<nat>, id: nat)
    ensures forall a :: a in VisibleAlerts(all, Dismiss(dismissed, id)) <==>
                        a in VisibleAlerts(all, dismissed) && a.id != id
  {
    VisibleMembers(all, dismissed);
    VisibleMembers(all, Dismiss(dismissed, id));
  }

  /** `handleClearAll` as written: the new set is the ids on display now. */
  function ClearAllAsWritten(all: seq<Alert>, dismissed: set<nat>): set<nat>
  {
    Ids(VisibleAlerts(all, dismissed))
  }

  /**
   * As written, "Clear All" brings back what was dismissed before: with no reading,
   * dismissing the maintenance alert (7) and then clearing all leaves exactly alert 7
   * on display.
   */
  lemma ClearAllAsWrittenReshows()
    ensures var all := AllAlerts(SafeData(None));
      VisibleAlerts(all, ClearAllAsWritten(all, {7})) == [all[6]]
  {
    var all := AllAlerts(SafeData(None));
    NullDataAfterDismissal();
    IdsOfTwo(all[3], all[7]);
    NullDataAfterClearing();
  }

  /**
   * As written, after "Clear All" the display is exactly the alerts whose rule holds and
   * that were dismissed BEFORE: the ones on display vanish and the earlier ones come back.
   */
  lemma ClearAllAsWrittenSwaps(all: seq<Alert>, dismissed: set<nat>)
    requires IdsIncreasing(all)
    ensures forall i :: 0 <= i < |all| ==>
      (all[i] in VisibleAlerts(all, ClearAllAsWritten(all, dismissed)) <==> all[i].visible && all[i].id in dismissed)
  {
    DisplayedIds(all, dismissed);
    VisibleMembers(all, ClearAllAsWritten(all, dismissed));
  }

  lemma IdsOfTwo(a: Alert, b: Alert)
    ensures Ids([a, b]) == {a.id, b.id}
  {
    assert a in [a, b] && b in [a, b];
  }

  /** With no reading and alerts 4 and 8 dismissed, only the maintenance alert shows. */
  lemma NullDataAfterClearing()
    ensures var all := AllAlerts(SafeData(None));
      VisibleAlerts(all, {4, 8}) == [all[6]]
  {
    VisibleOfEight(AllAlerts(SafeData(None)), {4, 8});
  }

  /** With no reading and alert 7 dismissed, the low-power warning and alert 8 show. */
  lemma NullDataAfterDismissal()
    ensures var all := AllAlerts(SafeData(None));
      VisibleAlerts(all, {7}) == [all[3], all[7]]
  {
    VisibleOfEight(AllAlerts(SafeData(None)), {7});
  }

  /** `handleClearAll` as intended: add the ids on display now to those already dismissed. */
  function ClearAll(all: seq<Alert>, dismissed: set<nat>): set<nat>
  {
    dismissed + Ids(VisibleAlerts(all, dismissed))
  }

  lemma IdsAppend(xs: seq<Alert>, ys: seq<Alert>)
    ensures Ids(xs + ys) == Ids(xs) + Ids(ys)
  {
    forall x | x in Ids(xs + ys) ensures x in Ids(xs) + Ids(ys) {
      var a :| a in xs + ys && a.id == x;
      if a in xs { assert a.id in Ids(xs); } else { assert a.id in Ids(ys); }
    }
    forall x | x in Ids(xs) + Ids(ys) ensures x in Ids(xs + ys) {
      if x in Ids(xs) {
        var a :| a in xs && a.id == x;
        assert a in xs + ys;
      } else {
        var a :| a in ys && a.id == x;
        assert a in xs + ys;
      }
    }
  }

  /**
   * With ids in increasing order, the id of alert `i` is among the displayed ids exactly
   * when that alert's rule holds and it is not dismissed: no other alert shares its id.
   */
  lemma {:induction false} DisplayedIds(all: seq<Alert>, dismissed: set<nat>)
    requires IdsIncreasing(all)
    ensures forall i :: 0 <= i < |all| ==>
      (all[i].id in Ids(VisibleAlerts(all, dismissed)) <==> all[i].visible && all[i].id !in dismissed)
  {
    if all != [] {
      var head := if all[0].visible && all[0].id !in dismissed then [all[0]] else [];
      var rest := VisibleAlerts(all[1..], dismissed);
      assert IdsIncreasing(all[1..]);
      DisplayedIds(all[1..], dismissed);
      VisibleMembers(all[1..], dismissed);
      IdsAppend(head, rest);
      assert VisibleAlerts(all, dismissed) == head + rest;
      forall x | x in Ids(rest) ensures all[0].id < x {
        var a :| a in rest && a.id == x;
        assert a in all[1..];
        var k :| 0 <= k < |all[1..]| && all[1..][k] == a;
        assert all[k + 1] == a;
      }
      forall i | 0 <= i < |all|
        ensures all[i].id in Ids(head + rest) <==> all[i].visible && all[i].id !in dismissed
      {
        if i > 0 {
          assert all[1..][i - 1] == all[i];
          assert all[0].id < all[i].id;
        }
      }
    }
  }

  /** Nothing is displayed once every alert whose rule holds is dismissed. */
  lemma {:induction false} AllDismissedNoneShown(all: seq<Alert>, dismissed: set<nat>)
    requires forall i :: 0 <= i < |all| && all[i].visible ==> all[i].id in dismissed
    ensures VisibleAlerts(all, dismissed) == []
  {
    if all != [] {
      forall i | 0 <= i < |all[1..]| && all[1..][i].visible ensures all[1..][i].id in dismissed {
        assert all[1..][i] == all[i + 1];
      }
      AllDismissedNoneShown(all[1..], dismissed);
    }
  }

  /**
   * After "Clear All" nothing is displayed; every alert dismissed before stays dismissed,
   * every id on display before is now dismissed, and the dismissal of an alert whose rule
   * does not hold is left as it was.
   */
  lemma ClearAllEmpties(all: seq<Alert>, dismissed: set<nat>)
    requires IdsIncreasing(all)
    ensures VisibleAlerts(all, ClearAll(all, dismissed)) == []
    ensures dismissed <= ClearAll(all, dismissed)
    ensures Ids(VisibleAlerts(all, dismissed)) <= ClearAll(all, dismissed)
    ensures forall i :: 0 <= i < |all| && !all[i].visible ==>
      (all[i].id in ClearAll(all, dismissed) <==> all[i].id in dismissed)
  {
    var after := ClearAll(all, dismissed);
    DisplayedIds(all, dismissed);
    VisibleMembers(all, dismissed);
    forall i | 0 <= i < |all| && all[i].visible ensures all[i].id in after {
      if all[i].id !in dismissed {
        assert all[i] in VisibleAlerts(all, dismissed);
      }
    }
    AllDismissedNoneShown(all, after);
  }

  /** After "Clear All" as intended, the scenario above shows nothing. */
  lemma ClearAllAfterDismiss()
    ensures var all := AllAlerts(SafeData(None));
      VisibleAlerts(all, ClearAll(all, {7})) == [] && 7 in ClearAll(all, {7})
  {
    AlertTable(SafeData(None));
    ClearAllEmpties(AllAlerts(SafeData(None)), {7});
  }

  /** The alerts of the given severities, in the displayed order. */
  function OfSeverity(shown: seq<Alert>, severities: set<Severity>): (group: seq<Alert>)
    ensures forall a :: a in group <==> a in shown && a.severity in severities
    ensures |shown| == 1 ==> group == if shown[0].severity in severities then shown else []
  {
    if shown == [] then []
    else (if shown[0].severity in severities then [shown[0]] else []) + OfSeverity(shown[1..], severities)
  }

  /** The grouping works alert by alert, so a group keeps the displayed order. */
  lemma {:induction false} OfSeverityAppend(xs: seq<Alert>, ys: seq<Alert>, severities: set<Severity>)
    ensures OfSeverity(xs + ys, severities) == OfSeverity(xs, severities) + OfSeverity(ys, severities)
  {
    if xs != [] {
      assert (xs + ys)[1..] == xs[1..] + ys;
      OfSeverityAppend(xs[1..], ys, severities);
    } else {
      assert xs + ys == ys;
    }
  }

  /** A group of a list in table order is in table order. */
  lemma {:induction false} OfSeverityKeepsOrder(shown: seq<Alert>, severities: set<Severity>)
    requires IdsIncreasing(shown)
    ensures IdsIncreasing(OfSeverity(shown, severities))
  {
    if shown != [] {
      assert IdsIncreasing(shown[1..]);
      OfSeverityKeepsOrder(shown[1..], severities);
      var rest := OfSeverity(shown[1..], severities);
      forall a | a in rest ensures shown[0].id < a.id {
        var k :| 0 <= k < |shown[1..]| && shown[1..][k] == a;
        assert shown[k + 1] == a;
      }
      if shown[0].severity in severities {
        IncreasingCons(shown[0], rest);
      }
    }
  }

  function CriticalAlerts(shown: seq<Alert>): seq<Alert> { OfSeverity(shown, {Critical}) }
  function WarningAlerts(shown: seq<Alert>): seq<Alert> { OfSeverity(shown, {Warning}) }
  function StatusAlerts(shown: seq<Alert>): seq<Alert> { OfSeverity(shown, {Info, Success}) }

  /** The three groups are disjoint and together hold every displayed alert exactly once. */
  lemma {:induction false} GroupsPartition(shown: seq<Alert>)
    ensures |CriticalAlerts(shown)| + |WarningAlerts(shown)| + |StatusAlerts(shown)| == |shown|
    ensures forall a :: a in shown <==> a in CriticalAlerts(shown) || a in WarningAlerts(shown) || a in StatusAlerts(shown)
    ensures forall a :: !(a in CriticalAlerts(shown) && a in WarningAlerts(shown))
    ensures forall a :: !(a in CriticalAlerts(shown) && a in StatusAlerts(shown))
    ensures forall a :: !(a in WarningAlerts(shown) && a in StatusAlerts(shown))
  {
    if shown != [] {
      GroupsPartition(shown[1..]);
      var a, rest := shown[0], shown[1..];
      assert shown == [a] + rest;
      match a.severity
      case Critical =>
        assert CriticalAlerts(shown) == [a] + CriticalAlerts(rest);
        assert WarningAlerts(shown) == WarningAlerts(rest);
        assert StatusAlerts(shown) == StatusAlerts(rest);
      case Warning =>
        assert CriticalAlerts(shown) == CriticalAlerts(rest);
        assert WarningAlerts(shown) == [a] + WarningAlerts(rest);
        assert StatusAlerts(shown) == StatusAlerts(rest);
      case _ =>
        assert CriticalAlerts(shown) == CriticalAlerts(rest);
        assert WarningAlerts(shown) == WarningAlerts(rest);
        assert StatusAlerts(shown) == [a] + StatusAlerts(rest);
    }
  }

  /** The red badge beside the heading: the number of displayed alerts, shown when positive. */
  function Badge(shown: seq<Alert>): (count: Option<nat>)
    ensures count.Some? <==> shown != []
    ensures count.Some? ==> count.value == |shown|
  {
    if |shown| > 0 then Some(|shown|) else None
  }

  class AlertsPanel {
    var dismissed: set<nat>

    constructor ()
      ensures dismissed == {}
    {
      dismissed := {};
    }

    /** `visibleAlerts` for the reading the panel is given. */
    function Shown(data: Option<Telemetry>): seq<Alert>
      reads this
    {
      VisibleAlerts(AllAlerts(SafeData(data)), dismissed)
    }

    method HandleDismiss(id: nat)
      modifies this
      ensures dismissed == Dismiss(old(dismissed), id)
    {
      dismissed := Dismiss(dismissed, id);
    }

    /**
     * "Clear All" as the panel has it: the set becomes the ids on display, so what is
     * displayed afterwards is what was dismissed before among the alerts whose rule holds.
     */
    method HandleClearAll(data: Option<Telemetry>)
      modifies this
      ensures dismissed == ClearAllAsWritten(AllAlerts(SafeData(data)), old(dismissed))
      ensures forall i :: 0 <= i < 8 ==>
        (AllAlerts(SafeData(data))[i] in Shown(data) <==>
         AllAlerts(SafeData(data))[i].visible && AllAlerts(SafeData(data))[i].id in old(dismissed))
    {
      var all := AllAlerts(SafeData(data));
      AlertTable(SafeData(data));
      ClearAllAsWrittenSwaps(all, dismissed);
      dismissed := ClearAllAsWritten(all, dismissed);
    }

    /** "Clear All" as intended: afterwards nothing is displayed for this reading. */
    method HandleClearAllIntended(data: Option<Telemetry>)
      modifies this
      ensures dismissed == ClearAll(AllAlerts(SafeData(data)), old(dismissed))
      ensures old(dismissed) <= dismissed
      ensures Shown(data) == []
    {
      var all := AllAlerts(SafeData(data));
      AlertTable(SafeData(data));
      ClearAllEmpties(all, dismissed);
      dismissed := ClearAll(all, dismissed);
    }
  }
}
