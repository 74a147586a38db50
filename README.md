# windflow dashboard core, modelled in Dafny

windflow is a wind-turbine monitoring dashboard. This project models the logic of its pages, leaving out the rendering:

- **Data-input page.** A CSV upload turns the file's text into rows of cells. A prediction call merges the service's `predictions` into the rows that were sent. A chart shows either the uploaded rows or the sample rows. A preview table shows the first ten rows, each cell cut to 20 characters.
- **Alerts panel.**
  - Eight alerts, each made visible by a threshold rule on the current reading.
  - A set of dismissed alert ids, kept as state.
  - The displayed list and its three severity groups.
  - The "dismiss" and "Clear All" handlers.
- **KPI grid.** Four metric cards with their fallbacks and warning rules, or a loading skeleton while there is no reading yet.
- **Mock telemetry.** One random turbine reading, and a chart series whose length and labels depend on the time range.
- **Maintenance page.**
  - The status and priority lookups.
  - The date and the status label each card shows.
  - The four summary figures, checked against the task list.
- **Settings page.** A record of six preferences held as state. Two handlers each replace one field. A table of sections says which keys get a switch and which get an input.

The JavaScript semantics the code relies on are written out:

- `split` keeps empty parts.
- `trim` and `Number()` strip the full ECMAScript set of white space and line terminators. `Number()` reads the empty string as 0 and `undefined` as NaN.
- `||` and `!` follow JavaScript truthiness, and `?.` and `??` treat only `null` and `undefined` as missing.
- `String(v)` converts a cell to text, and `substring(0, n)` takes a prefix.
- A property read on an object literal also finds the members the object inherits from `Object.prototype`.
- Assigning a primitive to `obj["__proto__"]` is a silent no-op.

Modules:

- `Text`, `Values`: the string built-ins and the JavaScript value universe.
- `Csv`, `DataInput`: `components/data-input-page.tsx`.
- `Alerts`: `components/alerts-panel.tsx`.
- `Kpi`: `components/kpi-grid.tsx`.
- `MockData`: `lib/mock-data.ts`.
- `Maintenance`: `components/maintenance.tsx`.
- `Settings`: `components/settings.tsx`.

The page state that the components update in place is modelled as three classes:

- `DataInput.DataInputPage`
- `Alerts.AlertsPanel`
- `Settings.SettingsPage`

Their methods are specified by the pure functions next to them. `Alerts.AlertsPanel.HandleClearAll` does what the panel does, including the fault recorded under "## Findings"; `Alerts.AlertsPanel.HandleClearAllIntended` is the corrected handler. The source's three loops are Dafny methods with loop invariants:

- the header loop, `Csv.BuildRow`;
- the per-line loop, `Csv.ParseCsvText`;
- the chart-data loop, `MockData.GenerateChartData`.

Some behaviour here is not what a quick reading suggests:

- **The `__proto__` header.** A header cell that trims to `__proto__` never becomes a key of its row. So "every row's keys are exactly the trimmed headers, and the empty-row filter never drops a row" holds except in that one case. If every header trims to `__proto__`, every row is empty and the filter drops them all. `Csv.ParseCsvShape` states both cases.
- **The pitch unit.** It is the two characters U+00C2 U+00B0, which is how `components/kpi-grid.tsx` spells it, not a bare degree sign.
- **Rotor warnings.** A mock reading can warn on rotor speed: `rotorRPM` is drawn from [11.5, 12.5) and the warning threshold is 12.

## Model

| member | source | states |
|---|---|---|
| Text.Split | components/data-input-page.tsx:90-93 | `split` yields one more part than there are separators, no part holds the separator, and joining the parts with it gives the text back |
| Text.SplitJoin | components/data-input-page.tsx:90-93 | splitting a joined list gives the list back when no part holds the separator |
| Text.TrimStart | components/data-input-page.tsx:96 | the result is no longer than the input and does not start with white space, and everything removed was white space |
| Text.TrimEnd | components/data-input-page.tsx:96 | the result is no longer than the input and does not end with white space, and everything removed was white space |
| Text.TrimIsSlice | components/data-input-page.tsx:96 | `trim` removes exactly a leading and a trailing run of white space and keeps what lies between |
| Text.TrimIdempotent | components/data-input-page.tsx:96 | trimming twice is trimming once |
| Text.NatToString | lib/mock-data.ts:46-53 | the decimal rendering is a non-empty digit string with no leading zero |
| Text.NatToStringRoundTrip | lib/mock-data.ts:46-53 | reading the digits of a rendered number gives the number back |
| Text.ReplaceFirst | components/maintenance.tsx:148 | `replace` with a one-character pattern changes only the first occurrence, or nothing when the pattern is absent |
| Text.Prefix | components/data-input-page.tsx:364 | `substring(0, n)` is a prefix of at most n characters: the whole string when it has at most n, and exactly its first n characters otherwise |
| Values.Get | components/maintenance.tsx:77 | a read of an own key gives its value; a read of any other key is truthy exactly when the key names an inherited `Object.prototype` member |
| Csv.CellCoercion | components/data-input-page.tsx:93-96 | a missing cell is `undefined`; a cell that `Number()` accepts is stored as that number, an empty or blank cell as 0; any other cell is stored as its raw, untrimmed text |
| Csv.NumberRoundTrip | components/data-input-page.tsx:96 | the rendering of any integer is accepted by `Number()` and read back as that integer, so a stored number survives `String` and re-parsing |
| Csv.BuildRow | components/data-input-page.tsx:94-98 | the `forEach` over the headers builds exactly the row `RowOf` describes |
| Csv.RowKeys | components/data-input-page.tsx:91-97 | every row's key set is the set of trimmed header cells, other than `__proto__`, whatever the line holds |
| Csv.RowLaterWins | components/data-input-page.tsx:95-97 | for headers that trim alike, the value is the last such column's cell |
| Csv.ParseLines | components/data-input-page.tsx:92-99 | one row per line after the header, and row i is built from line i+1 |
| Csv.NonEmptyRows | components/data-input-page.tsx:100 | the filter keeps exactly the rows with at least one key, and a single row is kept exactly when it has a key |
| Csv.NonEmptyRowsAppend | components/data-input-page.tsx:100 | the filter of a concatenation is the concatenation of the filters, so kept rows keep their order and repeats |
| Csv.NonEmptyRowsKeepsAll | components/data-input-page.tsx:100 | when no row is empty, the filter keeps all of them in order |
| Csv.NonEmptyRowsDropsEmpty | components/data-input-page.tsx:100 | when every row is empty, the filter keeps none |
| Csv.ParseCsvText | components/data-input-page.tsx:89-100 | the `onload` computation stores exactly `ParseCsv(text)` |
| Csv.ParseCsvShape | components/data-input-page.tsx:90-100 | the row count is the number of newlines, and a trailing empty line still makes a row; row i comes from line i+1 and has exactly the header keys; all rows are dropped only when every header trims to `__proto__` |
| Csv.ParseCsvCell | components/data-input-page.tsx:92-97 | the stored cell under a header's name is the coerced j-th comma field of line i+1 |
| DataInput.PredictionAtCases | components/data-input-page.tsx:144 | a merged row's `Prediction` is the item's non-null `Power_Predicted`, otherwise the item itself, and `undefined` past the end of `predictions` |
| DataInput.Merge | components/data-input-page.tsx:142-145 | the merge has one row per row sent; each row keeps its other fields and gains `Prediction` |
| DataInput.PredictOutcomes | components/data-input-page.tsx:123-156 | every failure leaves the rows alone and stores the fixed error response; every success stores the decoded result; the rows change only when `predictions` is an array |
| DataInput.PredictMerge | components/data-input-page.tsx:128-147 | a merge replaces the rows by the sent data, which is the uploaded rows or else the sample rows, one for one; its length follows the data sent, not `predictions` |
| DataInput.ChartKindDispatch | components/data-input-page.tsx:166-206 | "bar" gives a bar chart, "scatter" a scatter chart, and anything else a line chart, each in both directions |
| DataInput.ChartData | components/data-input-page.tsx:160-164 | the chart draws the uploaded rows when there are any and the sample rows otherwise, on the selected axis keys |
| DataInput.PreviewRow | components/data-input-page.tsx:362-364 | every cell is the rendered value cut to at most 20 characters: a rendering of at most 20 is shown whole, a longer one as exactly its first 20 characters |
| DataInput.Preview | components/data-input-page.tsx:341-374 | the preview is absent exactly when there are no rows; otherwise its columns are row 0's keys and it shows the first min(10, n) rows |
| DataInput.DataInputPage.constructor | components/data-input-page.tsx:74-80 | the initial state: no rows, `null` response, axes WindSpeed and Power, chart type "line" |
| DataInput.DataInputPage.HandleCsvText | components/data-input-page.tsx:88-101 | an upload replaces the rows by the parsed file and changes nothing else |
| DataInput.DataInputPage.HandlePredict | components/data-input-page.tsx:123-156 | the state after a prediction call is `AfterPredict` of the old rows and the outcome; the data sent is the rows or the sample; the axes and the chart type are kept |
| DataInput.DataInputPage.SetXAxis | components/data-input-page.tsx:75 | the x-axis selection changes and nothing else does |
| DataInput.DataInputPage.SetYAxis | components/data-input-page.tsx:76 | the y-axis selection changes and nothing else does |
| DataInput.DataInputPage.SetChartType | components/data-input-page.tsx:77 | the chart type changes and nothing else does |
| Alerts.AlertTable | components/alerts-panel.tsx:18-89 | the table lists ids 1 to 8 in order; each visibility rule is its threshold; the two wind alerts never show together; the two status alerts always qualify |
| Alerts.VisibleMembers | components/alerts-panel.tsx:91-94 | an alert is displayed exactly when it is in the table, its rule holds and it is not dismissed |
| Alerts.VisibleKeepsOrder | components/alerts-panel.tsx:91-94 | the displayed list keeps the table's order |
| Alerts.NullDataAlerts | components/alerts-panel.tsx:10-88 | with no reading, the display is exactly the low-power warning and the two status alerts, in that order |
| Alerts.NullDataAfterDismissal | components/alerts-panel.tsx:10-104 | with no reading and the maintenance alert dismissed, the low-power warning and the healthy-status alert show |
| Alerts.NullDataAfterClearing | components/alerts-panel.tsx:10-94 | with no reading and alerts 4 and 8 dismissed, only the maintenance alert shows |
| Alerts.Dismiss | components/alerts-panel.tsx:100-104 | dismissing adds exactly the given id |
| Alerts.DismissIdempotent | components/alerts-panel.tsx:100-104 | dismissing twice is dismissing once |
| Alerts.DismissHides | components/alerts-panel.tsx:92-104 | after a dismissal, the display is the old display without that id |
| Alerts.ClearAllAsWrittenReshows | components/alerts-panel.tsx:106-108 | as written, "Clear All" brings back an alert dismissed earlier |
| Alerts.DisplayedIds | components/alerts-panel.tsx:92-107 | with unique ids, an alert's id is among the displayed ids exactly when its rule holds and it is not dismissed |
| Alerts.ClearAllAsWrittenSwaps | components/alerts-panel.tsx:106-108 | as written, for any reading and any dismissed set, an alert is displayed after "Clear All" exactly when its rule holds and it had been dismissed before |
| Alerts.ClearAllEmpties | components/alerts-panel.tsx:106-108 | "Clear All" as intended: nothing stays on display; earlier dismissals are kept; the dismissals of alerts whose rule does not hold are unchanged |
| Alerts.ClearAllAfterDismiss | components/alerts-panel.tsx:106-108 | in the scenario that shows the fault, the corrected handler leaves the display empty |
| Alerts.OfSeverity | components/alerts-panel.tsx:96-98 | a group holds exactly the displayed alerts of its severities, and a single alert is in a group exactly when its severity is |
| Alerts.OfSeverityAppend | components/alerts-panel.tsx:96-98 | the group of a concatenation is the concatenation of the groups, so a group keeps the displayed order |
| Alerts.OfSeverityKeepsOrder | components/alerts-panel.tsx:96-98 | a group of a list in table order is in table order |
| Alerts.GroupsPartition | components/alerts-panel.tsx:96-98 | the Critical, Warnings and Status groups are pairwise disjoint and together hold every displayed alert exactly once |
| Alerts.Badge | components/alerts-panel.tsx:153-157 | the counter is shown exactly when something is displayed, and it shows the number displayed |
| Alerts.AlertsPanel.constructor | components/alerts-panel.tsx:8 | nothing is dismissed at first |
| Alerts.AlertsPanel.HandleDismiss | components/alerts-panel.tsx:100-104 | the dismissed set becomes `Dismiss` of the old one |
| Alerts.AlertsPanel.HandleClearAll | components/alerts-panel.tsx:106-108 | the set becomes the ids displayed before, so afterwards exactly the earlier-dismissed alerts whose rule holds are displayed |
| Alerts.AlertsPanel.HandleClearAllIntended | components/alerts-panel.tsx:106-108 | the corrected handler: afterwards nothing is displayed for the reading, and no earlier dismissal is lost |
| Kpi.KpiSkeleton | components/kpi-grid.tsx:6-15 | with no reading, only the skeleton is shown |
| Kpi.KpiCards | components/kpi-grid.tsx:17-50 | four cards in fixed order; each shows its reading; the bounds fall back to 20, 600 or 0 when a reading's bound is 0; the warning rules are wind > 15, power < 100, rpm > 12, and none for pitch |
| Kpi.MockReadingWarnings | components/kpi-grid.tsx:17-33 | on any mock reading, power never warns, the maximum and minimum bounds of wind (18, 2) and power (600, 50) are the generator's constants, and wind warns exactly above 15 m/s |
| MockData.StatusIndex | lib/mock-data.ts:17 | `Math.floor(r * 3)` is a valid index for any r in [0, 1) |
| MockData.GenerateMockData | lib/mock-data.ts:1-19 | the bound fields are 18, 2, 600 and 50 whatever the draws; the status is Active, Idle or Maintenance; each of the ten drawn readings lies in the half-open range its draw spans (for example generator rpm in [1500, 1600)) |
| MockData.PointCounts | lib/mock-data.ts:22 | 60, 24 or 7 points for "1h", "24h" or "7d", and 30 for anything else |
| MockData.WeekLabels | lib/mock-data.ts:22-51 | for "7d", the labels are Mon to Sun in order, each exactly once |
| MockData.LabelsDistinct | lib/mock-data.ts:44-54 | for every other range, different indices get different labels |
| MockData.PointAt | lib/mock-data.ts:29-38 | every entry's power is at least 50 whatever the random and trigonometric terms are |
| MockData.GenerateChartData | lib/mock-data.ts:21-42 | the loop produces one entry per point; entry i is `PointAt(i)` with the time label `formatTime(i)`; every power value is at least 50 |
| Maintenance.StatusIcons | components/maintenance.tsx:58-69 | completed gives the green check, in-progress the blue clock, scheduled the yellow alert, and anything else the grey wrench, each in both directions |
| Maintenance.StatusBadgeAsWrittenInherited | components/maintenance.tsx:71-78 | as written, the status "toString" gets an inherited function instead of a badge variant |
| Maintenance.StatusBadges | components/maintenance.tsx:71-78 | completed gives default, in-progress secondary, scheduled destructive, and anything else outline, each in both directions |
| Maintenance.StatusBadgeAgrees | components/maintenance.tsx:71-78 | the written lookup agrees with the corrected one exactly on the statuses that are not inherited member names |
| Maintenance.PriorityColors | components/maintenance.tsx:80-91 | high gives red, medium yellow, low green, and anything else grey, each in both directions |
| Maintenance.DisplayDateFirstTruthy | components/maintenance.tsx:155 | the card shows the first given, non-empty date among due, completed and start, and shows nothing when there is none |
| Maintenance.StatusLabelFirstDash | components/maintenance.tsx:148 | the label replaces only the first dash with a space; a status without a dash is shown as it is |
| Maintenance.InProgressLabel | components/maintenance.tsx:148 | "in-progress" is labelled "in progress" |
| Maintenance.LabelWithoutDash | components/maintenance.tsx:148 | a status without a dash is its own label |
| Maintenance.StatusLabels | components/maintenance.tsx:148 | the three statuses of the list are labelled "in progress", "scheduled" and "completed" |
| Maintenance.LeadingDigits | components/maintenance.tsx:18 | an estimate's leading digits are a digit prefix that stops at the first non-digit |
| Maintenance.ItemFacts | components/maintenance.tsx:10-56 | the five tasks' statuses, and their estimates of 4, 6, 2, 3 and 2 hours |
| Maintenance.SummaryMatchesItems | components/maintenance.tsx:10-129 | the figures 3, 1, 1 and 17 are the counts of scheduled, in-progress and completed tasks and the sum of the estimated hours |
| Settings.Toggled | components/settings.tsx:21-23 | a toggle stores the negation of the field's truthiness and keeps every other field |
| Settings.Changed | components/settings.tsx:25-27 | a change stores the string and keeps every other field |
| Settings.ToggleTwice | components/settings.tsx:21-23 | toggling a boolean field twice gives back the original record |
| Settings.ToggleMissing | components/settings.tsx:21-23 | toggling a key the record lacks adds it as true, and a second toggle makes it false |
| Settings.ChangeIdempotent | components/settings.tsx:25-27 | changing a field twice to the same value is changing it once |
| Settings.ChangeKeepsKeys | components/settings.tsx:21-27 | toggling or changing a field the record holds keeps its key set |
| Settings.AllSettingsOfSections | components/settings.tsx:29-85 | the page's controls are the four sections' settings in order |
| Settings.SectionKeys | components/settings.tsx:29-60 | the controls' keys are notifications, emailAlerts, darkMode, autoBackup, dataRetention and updateFrequency, in that order |
| Settings.ShownKeysDistinct | components/settings.tsx:29-86 | no key has two controls |
| Settings.ShownKeysAreInitial | components/settings.tsx:12-60 | the controls' keys are exactly the keys of the initial record |
| Settings.InitialWellTyped | components/settings.tsx:12-103 | every switch starts on a boolean field and every input on a string field |
| Settings.SectionTable | components/settings.tsx:12-60 | the sections list the six keys of the initial record, each once, with a switch on every boolean and an input on every string |
| Settings.HandlersKeepWellTyped | components/settings.tsx:21-103 | toggling a switch's key and changing an input's key keep every control typed as the table says |
| Settings.ToggleChangesOneControl | components/settings.tsx:21-60 | a toggle from one control leaves every other control's value as it was |
| Settings.SettingsPage.constructor | components/settings.tsx:12-19 | the initial record: notifications, email alerts and auto-backup on, dark mode off, retention "30", update frequency "5" |
| Settings.SettingsPage.HandleToggle | components/settings.tsx:21-23 | the new record is `Toggled` of the old one |
| Settings.SettingsPage.HandleChange | components/settings.tsx:25-27 | the new record is `Changed` of the old one |

## Left out

- **Network and file I/O.** `fetch`, `FileReader` and `response.json()` become parameters:
  - the upload handler is given the file's text;
  - the prediction handler is given a `FetchOutcome` (rejected, or a status flag and a decoded body).
  - `fetchHFData` and the proxy in `app/api/predict/route.ts` are not part of this model, because they only forward `fetch` results.
  - The upload handler's guard for a missing file is left out with the file reader.
- Csv.IsNumber, Values.Display: numbers are unbounded integers, not IEEE doubles. A cell such as `12345678901234567891` keeps every digit instead of rounding to `12345678901234567000`; `String()` renders every integer in plain digits, with no `1e+21` form from 10^21 up; fractional values, such as the random sample rows or a fractional `Power_Predicted`, cannot be represented; and `Number()`'s forms `5.`, `0o…` and `0b…` are read as strings.
- Csv.IsNumber: accepts only the decimal-integer fragment of `Number()`. After trimming, that is the empty string or an optionally signed run of digits. Fractions such as `12.5`, exponents, hex, `Infinity` and leading-dot forms are stored as strings in the model, and numeric cells are integers.
- **Floating point.** Telemetry readings are exact reals. `NaN` readings and `toFixed` in the alert messages are left out.
- **Randomness and trigonometry.** Every `Math.random()` draw, and every `Math.sin`/`Math.cos` term of `generateChartData`, is a parameter. `generateSampleData` is left out: its random rows are a parameter of the data-input page's constructor.
- **Property order.** Rows are maps, so the order of `Object.keys`/`Object.values` is not modelled. Neither is the order of the preview's columns.
- **String width.** `substring` is modelled on code points rather than UTF-16 code units.
- **Timers and async flags.** `setInterval`, `isLoading`, and the short-lived `null` response while a prediction is under way are left out.
- **Presentation.** The recharts components, the severity colour classes, the icons of `settingsSections`, the axis option list and all layout are left out.
- **Data from the parent.** The panels do not model where their `data` prop comes from.

## Findings

| source | as written | input that shows it | evidently intended | confidence | as-written member | corrected member |
|---|---|---|---|---|---|---|
| components/alerts-panel.tsx:106-108 | "Clear All" replaces the dismissed set with the ids on display now, so alerts dismissed earlier come back | no reading; dismiss alert 7 ("Maintenance Due"); press "Clear All": alert 7 is displayed again | "Clear All" adds the displayed ids to the dismissed set, leaving nothing on display | not executed | Alerts.ClearAllAsWrittenReshows | Alerts.ClearAllEmpties |
| components/maintenance.tsx:71-78 | `variants[status] \|\| "outline"` also finds members inherited from `Object.prototype` | status "toString" gives the built-in function, not "outline" | every status other than the three listed gets "outline" | not executed | Maintenance.StatusBadgeAsWrittenInherited | Maintenance.StatusBadges |
