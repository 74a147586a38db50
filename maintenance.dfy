/**
 * The maintenance page: a fixed list of five maintenance tasks, the lookups
 * that turn a task's status and priority into an icon, a badge variant and a
 * colour, the date and status label shown on each card, and the four summary
 * figures at the top of the page.
 */
module Maintenance {
  import Text
  import opened Values

  /** One task; a date the literal does not give is `None`. */
  datatype Item = Item(
    id: nat, title: string, description: string, status: string,
    dueDate: Option<string>, completedDate: Option<string>, startDate: Option<string>,
    priority: string, estimatedTime: string)

  /** `maintenanceItems`, which the page never updates. */
  const Items: seq<Item> := [
    Item(1, "Oil Change - Gearbox", "Scheduled gearbox oil replacement", "scheduled",
         Some("2025-11-15"), None, None, "high", "4 hours"),
    Item(2, "Blade Inspection", "Visual inspection of rotor blades for damage", "completed",
         None, Some("2025-10-20"), None, "medium", "6 hours"),
    Item(3, "Bearing Lubrication", "Lubricate main shaft and generator bearings", "in-progress",
         None, None, Some("2025-10-22"), "high", "2 hours"),
    Item(4, "Electrical System Check", "Full electrical system diagnostics", "scheduled",
         Some("2025-11-30"), None, None, "medium", "3 hours"),
    Item(5, "Pitch System Calibration", "Calibrate pitch control system", "scheduled",
         Some("2025-12-10"), None, None, "low", "2 hours")
  ]

  datatype IconShape = CheckCircle | Clock | AlertCircle | Wrench

  /** An icon and its colour class. */
  datatype Icon = Icon(shape: IconShape, color: string)

  /** `getStatusIcon(status)`. */
  function StatusIcon(status: string): Icon
  {
    if status == "completed" then Icon(CheckCircle, "text-green-600")
    else if status == "in-progress" then Icon(Clock, "text-blue-600")
    else if status == "scheduled" then Icon(AlertCircle, "text-yellow-600")
    else Icon(Wrench, "text-gray-600")
  }

  lemma StatusIcons(status: string)
    ensures StatusIcon(status).shape == CheckCircle <==> status == "completed"
    ensures StatusIcon(status).shape == Clock <==> status == "in-progress"
    ensures StatusIcon(status).shape == AlertCircle <==> status == "scheduled"
    ensures StatusIcon(status).shape == Wrench <==> status !in {"completed", "in-progress", "scheduled"}
    ensures StatusIcon(status).color ==
      match StatusIcon(status).shape
      case CheckCircle => "text-green-600"
      case Clock => "text-blue-600"
      case AlertCircle => "text-yellow-600"
      case Wrench => "text-gray-600"
  {
  }

  datatype BadgeVariant = Default | Secondary | Destructive | Outline

  /** The variant's name as the badge component receives it. */
  function VariantName(v: BadgeVariant): string
  {
    match v
    case Default => "default"
    case Secondary => "secondary"
    case Destructive => "destructive"
    case Outline => "outline"
  }

  /** The `variants` record of `getStatusBadge`, as a plain object. */
  const Variants: map<string, Value> :=
    map["completed" := Str("default"), "in-progress" := Str("secondary"), "scheduled" := Str("destructive")]

  /**
   * `getStatusBadge(status)` as written: `variants[status] || "outline"`. The lookup also
   * finds the members every object inherits, so the fallback is not reached for them.
   */
  function StatusBadgeAsWritten(status: string): Value
  {
    var found := Get(Variants, status);
    if Truthy(found) then found else Str("outline")
  }

  /** As written, the status "toString" gets a function instead of a variant. */
  lemma StatusBadgeAsWrittenInherited()
    ensures StatusBadgeAsWritten("toString") == Builtin("toString")
    ensures forall v :: StatusBadgeAsWritten("toString") != Str(VariantName(v))
  {
  }

  /** `getStatusBadge(status)` as intended: the three listed statuses, and `outline` otherwise. */
  function StatusBadge(status: string): BadgeVariant
  {
    if status in Variants then
      if status == "completed" then Default
      else if status == "in-progress" then Secondary
      else Destructive
    else Outline
  }

  lemma StatusBadges(status: string)
    ensures StatusBadge(status) == Default <==> status == "completed"
    ensures StatusBadge(status) == Secondary <==> status == "in-progress"
    ensures StatusBadge(status) == Destructive <==> status == "scheduled"
    ensures StatusBadge(status) == Outline <==> status !in {"completed", "in-progress", "scheduled"}
  {
  }

  /**
   * The lookup as written and as intended agree on every status that is not the name of
   * an inherited member; on those the written one disagrees.
   */
  lemma StatusBadgeAgrees(status: string)
    ensures status !in InheritedKeys ==> StatusBadgeAsWritten(status) == Str(VariantName(StatusBadge(status)))
    ensures status in InheritedKeys ==> StatusBadgeAsWritten(status) != Str(VariantName(StatusBadge(status)))
  {
  }

  /** `getPriorityColor(priority)`. */
  function PriorityColor(priority: string): string
  {
    if priority == "high" then "text-red-600"
    else if priority == "medium" then "text-yellow-600"
    else if priority == "low" then "text-green-600"
    else "text-gray-600"
  }

  lemma PriorityColors(priority: string)
    ensures PriorityColor(priority) == "text-red-600" <==> priority == "high"
    ensures PriorityColor(priority) == "text-yellow-600" <==> priority == "medium"
    ensures PriorityColor(priority) == "text-green-600" <==> priority == "low"
    ensures PriorityColor(priority) == "text-gray-600" <==> priority !in {"high", "medium", "low"}
  {
  }

  /** An optional date as the JavaScript value the card reads. */
  function DateValue(d: Option<string>): Value
  {
    match d
    case None => Undef
    case Some(s) => Str(s)
  }

  /** `item.dueDate || item.completedDate || item.startDate`. */
  function DisplayDate(item: Item): Value
  {
    var due, completed, start := DateValue(item.dueDate), DateValue(item.completedDate), DateValue(item.startDate);
    if Truthy(due) then due else if Truthy(completed) then completed else start
  }

  /** A date the card can show: given and not empty. */
  predicate Shows(d: Option<string>) {
    d.Some? && d.value != ""
  }

  /**
   * The card shows the first date that is given and not empty, in the order due,
   * completed, start; with none of them it shows nothing.
   */
  lemma DisplayDateFirstTruthy(item: Item)
    ensures Shows(item.dueDate) ==> DisplayDate(item) == Str(item.dueDate.value)
    ensures !Shows(item.dueDate) && Shows(item.completedDate) ==> DisplayDate(item) == Str(item.completedDate.value)
    ensures !Shows(item.dueDate) && !Shows(item.completedDate) && Shows(item.startDate)
            ==> DisplayDate(item) == Str(item.startDate.value)
    ensures Truthy(DisplayDate(item)) <==> Shows(item.dueDate) || Shows(item.completedDate) || Shows(item.startDate)
  {
  }

  /** `item.status.replace("-", " ")`. */
  function StatusLabel(status: string): string
  {
    Text.ReplaceFirst(status, '-', ' ')
  }

  /** Only the first dash becomes a space; a status without one is shown as it is. */
  lemma StatusLabelFirstDash(status: string)
    ensures '-' !in status ==> StatusLabel(status) == status
    ensures '-' in status ==>
      var k := Text.IndexOf(status, '-');
      StatusLabel(status) == status[..k] + " " + status[k + 1..] && '-' !in status[..k]
  {
    if '-' in status {
      var k := Text.IndexOf(status, '-');
      var r := StatusLabel(status);
      assert r == status[..k] + " " + status[k + 1..] by {
        assert |r| == |status[..k] + " " + status[k + 1..]|;
        forall i | 0 <= i < |r| ensures r[i] == (status[..k] + " " + status[k + 1..])[i] {
        }
      }
    }
  }

  /** The label of "in-progress" is "in progress". */
  lemma InProgressLabel()
    ensures StatusLabel("in-progress") == "in progress"
  {
    var s := "in-progress";
    assert s[0] == 'i' && s[1] == 'n' && s[2] == '-';
    assert Text.IndexOf(s[2..], '-') == 0;
    assert Text.IndexOf(s[1..], '-') == 1 by { assert s[1..][1..] == s[2..]; }
    assert Text.IndexOf(s, '-') == 2;
    assert s[2 := ' '] == "in progress";
  }

  /** A status without a dash is its own label. */
  lemma LabelWithoutDash(status: string)
    requires forall i :: 0 <= i < |status| ==> status[i] != '-'
    ensures StatusLabel(status) == status
  {
  }

  /** The three statuses of the list are labelled "in progress", "scheduled" and "completed". */
  lemma StatusLabels()
    ensures StatusLabel("in-progress") == "in progress"
    ensures StatusLabel("scheduled") == "scheduled" && StatusLabel("completed") == "completed"
  {
    InProgressLabel();
    LabelWithoutDash("scheduled");
    LabelWithoutDash("completed");
  }

  /** The number of items with the given status. */
  function CountStatus(items: seq<Item>, status: string): (n: nat)
    ensures n <= |items|
  {
    if items == [] then 0
    else (if items[0].status == status then 1 else 0) + CountStatus(items[1..], status)
  }

  /** The digits an estimate such as "4 hours" starts with. */
  function LeadingDigits(s: string): (d: string)
    ensures Text.AllDigits(d) && d <= s
    ensures |d| < |s| ==> !Text.IsDigit(s[|d|])
  {
    if s != [] && Text.IsDigit(s[0]) then [s[0]] + LeadingDigits(s[1..]) else []
  }

  /** The hours an estimate stands for. */
  function Hours(estimate: string): nat
  {
    Text.DigitsValue(LeadingDigits(estimate))
  }

  function TotalHours(items: seq<Item>): nat
  {
    if items == [] then 0 else Hours(items[0].estimatedTime) + TotalHours(items[1..])
  }

  /** The four summary figures the page shows: scheduled, in progress, completed, total hours. */
  const SummaryFigures: seq<nat> := [3, 1, 1, 17]

  /** One step of each count, from position `k` of the list. */
  lemma SummaryStep(items: seq<Item>, k: nat, status: string)
    requires k < |items|
    ensures CountStatus(items[k..], status) ==
      (if items[k].status == status then 1 else 0) + CountStatus(items[k + 1..], status)
    ensures TotalHours(items[k..]) == Hours(items[k].estimatedTime) + TotalHours(items[k + 1..])
  {
    assert items[k..][1..] == items[k + 1..];
  }

  /** An estimate that starts with one digit and then a non-digit stands for that digit's hours. */
  lemma OneDigitHours(estimate: string, d: nat)
    requires d < 10 && |estimate| >= 2 && estimate[0] == Text.DigitChar(d) && !Text.IsDigit(estimate[1])
    ensures Hours(estimate) == d
  {
    assert LeadingDigits(estimate[1..]) == [];
    assert LeadingDigits(estimate) == [estimate[0]];
    assert Text.DigitsValue([estimate[0]]) == Text.DigitValue(estimate[0]);
  }

  /** The status and estimate of each task. */
  lemma ItemFacts()
    ensures |Items| == 5
    ensures Items[0].status == "scheduled" && Items[1].status == "completed" && Items[2].status == "in-progress"
    ensures Items[3].status == "scheduled" && Items[4].status == "scheduled"
    ensures Hours(Items[0].estimatedTime) == 4 && Hours(Items[1].estimatedTime) == 6
    ensures Hours(Items[2].estimatedTime) == 2 && Hours(Items[3].estimatedTime) == 3
    ensures Hours(Items[4].estimatedTime) == 2
  {
    OneDigitHours("4 hours", 4);
    OneDigitHours("6 hours", 6);
    OneDigitHours("2 hours", 2);
    OneDigitHours("3 hours", 3);
  }

  /** The counts and the total over a five-task list, task by task. */
  lemma SummaryOfFive(items: seq<Item>, status: string)
    requires |items| == 5
    ensures CountStatus(items, status) ==
      (if items[0].status == status then 1 else 0) + (if items[1].status == status then 1 else 0) +
      (if items[2].status == status then 1 else 0) + (if items[3].status == status then 1 else 0) +
      (if items[4].status == status then 1 else 0)
    ensures TotalHours(items) ==
      Hours(items[0].estimatedTime) + Hours(items[1].estimatedTime) + Hours(items[2].estimatedTime) +
      Hours(items[3].estimatedTime) + Hours(items[4].estimatedTime)
  {
    assert items[5..] == [] && items[0..] == items;
    SummaryStep(items, 4, status);
    SummaryStep(items, 3, status);
    SummaryStep(items, 2, status);
    SummaryStep(items, 1, status);
    SummaryStep(items, 0, status);
  }

  /** The page's hard-coded figures agree with its task list. */
  lemma SummaryMatchesItems()
    ensures SummaryFigures == [CountStatus(Items, "scheduled"), CountStatus(Items, "in-progress"),
                               CountStatus(Items, "completed"), TotalHours(Items)]
  {
    ItemFacts();
    SummaryOfFive(Items, "scheduled");
    SummaryOfFive(Items, "in-progress");
    SummaryOfFive(Items, "completed");
  }
}
