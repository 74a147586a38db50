/**
 * The data-input page: its two pieces of state (`csvData`, the rows shown and
 * sent, and `apiResponse`), the CSV upload that replaces the rows, the
 * prediction call that merges the service's `predictions` into them, the
 * chart it renders and the preview table under it.
 */
module DataInput {
  import Text
  import opened Values
  import Csv

  /** `csvData.length > 0 ? csvData : sampleData`: what is charted and what is sent. */
  function DataSource(csv: seq<Row>, sample: seq<Row>): seq<Row>
  {
    if |csv| > 0 then csv else sample
  }

  /** `p.key` for a value that is neither `null` nor `undefined`. */
  function PropertyOf(p: Value, key: string): Value
  {
    if p.Obj? then Get(p.fields, key) else Undef
  }

  /** `predictions[i]?.Power_Predicted ?? predictions[i]`. */
  function PredictionAt(predictions: seq<Value>, i: nat): Value
  {
    var p := if i < |predictions| then predictions[i] else Undef;
    var chained := if Nullish(p) then Undef else PropertyOf(p, "Power_Predicted");
    if Nullish(chained) then p else chained
  }

  /**
   * The `Prediction` a merged row receives: the item's own non-null `Power_Predicted`,
   * otherwise the item itself, which is `undefined` past the end of the array.
   */
  lemma PredictionAtCases(predictions: seq<Value>, i: nat)
    ensures i >= |predictions| ==> PredictionAt(predictions, i) == Undef
    ensures i < |predictions| && predictions[i].Obj? && "Power_Predicted" in predictions[i].fields
            && !Nullish(predictions[i].fields["Power_Predicted"])
            ==> PredictionAt(predictions, i) == predictions[i].fields["Power_Predicted"]
    ensures i < |predictions| && !(predictions[i].Obj? && "Power_Predicted" in predictions[i].fields
            && !Nullish(predictions[i].fields["Power_Predicted"]))
            ==> PredictionAt(predictions, i) == predictions[i]
  {
  }

  /** `dataToSend.map((row, i) => ({ ...row, Prediction: ... }))`. */
  function Merge(sent: seq<Row>, predictions: seq<Value>): (merged: seq<Row>)
    ensures |merged| == |sent|
    ensures forall i :: 0 <= i < |sent| ==> merged[i].Keys == sent[i].Keys + {"Prediction"}
    ensures forall i, k :: 0 <= i < |sent| && k in sent[i] && k != "Prediction" ==> merged[i][k] == sent[i][k]
    ensures forall i :: 0 <= i < |sent| ==> merged[i]["Prediction"] == PredictionAt(predictions, i)
  {
    seq(|sent|, i requires 0 <= i < |sent| => sent[i]["Prediction" := PredictionAt(predictions, i)])
  }

  /** `result.predictions && Array.isArray(result.predictions)`, for a result that is not nullish. */
  function PredictionsOf(result: Value): Option<seq<Value>>
  {
    var p := PropertyOf(result, "predictions");
    if p.Arr? then Some(p.items) else None
  }

  /**
   * What the prediction call can come back with: a rejected `fetch`, or a response whose
   * `ok` flag is given, with its body decoded by `response.json()` (`None` when it is
   * not JSON).
   */
  datatype FetchOutcome = Rejected | Received(ok: bool, body: Option<Value>)

  /** `{ error: "Failed to fetch prediction." }`. */
  const PredictionError: Value := Obj(map["error" := Str("Failed to fetch prediction.")])

  datatype PageData = PageData(csvData: seq<Row>, apiResponse: Value)

  /**
   * The state `handlePredict` leaves: every failure (a rejected fetch, a status that is
   * not ok, a body that is not JSON, or a `null` body, on which reading `.predictions`
   * throws) keeps the rows and stores the error response; an array of predictions
   * replaces the rows by the merged data that was sent.
   */
  function AfterPredict(csv: seq<Row>, sample: seq<Row>, outcome: FetchOutcome): PageData
  {
    match outcome
    case Rejected => PageData(csv, PredictionError)
    case Received(ok, body) =>
      if !ok || body.None? || Nullish(body.value) then PageData(csv, PredictionError)
      else
        match PredictionsOf(body.value)
        case Some(predictions) => PageData(Merge(DataSource(csv, sample), predictions), body.value)
        case None => PageData(csv, body.value)
  }

  /** A failed call leaves the rows alone and shows the fixed error; a success stores the result. */
  lemma PredictOutcomes(csv: seq<Row>, sample: seq<Row>, outcome: FetchOutcome)
    ensures var after := AfterPredict(csv, sample, outcome);
      var succeeded := outcome.Received? && outcome.ok && outcome.body.Some? && !Nullish(outcome.body.value);
      && (!succeeded ==> after == PageData(csv, PredictionError))
      && (succeeded ==> after.apiResponse == outcome.body.value)
      && (succeeded && PredictionsOf(outcome.body.value).None? ==> after.csvData == csv)
  {
  }

  /**
   * After a merge the rows are the data that was sent — the uploaded rows or, when there
   * are none, the sample rows — one for one, each with its fields kept and a `Prediction`
   * added; the count follows the data sent, not the predictions array.
   */
  lemma PredictMerge(csv: seq<Row>, sample: seq<Row>, body: Value, predictions: seq<Value>)
    requires !Nullish(body) && PredictionsOf(body) == Some(predictions)
    ensures var rows := AfterPredict(csv, sample, Received(true, Some(body))).csvData;
      var sent := if |csv| > 0 then csv else sample;
      && |rows| == |sent|
      && forall i :: 0 <= i < |rows| ==>
           && rows[i].Keys == sent[i].Keys + {"Prediction"}
           && rows[i]["Prediction"] == PredictionAt(predictions, i)
           && forall k :: k in sent[i] && k != "Prediction" ==> rows[i][k] == sent[i][k]
  {
  }

  datatype ChartKind = BarChart | ScatterChart | LineChart

  /** The `switch (selectedChartType)` of `renderChart`. */
  function ChartKindOf(chartType: string): ChartKind
  {
    if chartType == "bar" then BarChart
    else if chartType == "scatter" then ScatterChart
    else LineChart
  }

  lemma ChartKindDispatch(chartType: string)
    ensures ChartKindOf(chartType) == BarChart <==> chartType == "bar"
    ensures ChartKindOf(chartType) == ScatterChart <==> chartType == "scatter"
    ensures ChartKindOf(chartType) == LineChart <==> chartType != "bar" && chartType != "scatter"
  {
  }

  /** What is handed to the charting library: its kind, its rows and the two data keys. */
  datatype ChartSpec = ChartSpec(kind: ChartKind, data: seq<Row>, xKey: string, yKey: string)

  function RenderChart(csv: seq<Row>, sample: seq<Row>, chartType: string, xKey: string, yKey: string): ChartSpec
  {
    ChartSpec(ChartKindOf(chartType), DataSource(csv, sample), xKey, yKey)
  }

  /** The chart draws the uploaded rows when there are any and the sample rows otherwise. */
  lemma ChartData(csv: seq<Row>, sample: seq<Row>, chartType: string, xKey: string, yKey: string)
    ensures var spec := RenderChart(csv, sample, chartType, xKey, yKey);
      && (|csv| > 0 ==> spec.data == csv)
      && (|csv| == 0 ==> spec.data == sample)
      && spec.xKey == xKey && spec.yKey == yKey
  {
  }

  /** The preview table: column headings and, per row, the rendered cell of each key. */
  datatype PreviewTable = PreviewTable(columns: set<string>, rows: seq<map<string, string>>)

  const PreviewRows: nat := 10
  const CellWidth: nat := 20

  /** `String(val).substring(0, 20)` for every cell of a row. */
  function PreviewRow(row: Row): (cells: map<string, string>)
    ensures cells.Keys == row.Keys
    ensures forall k :: k in row ==> |cells[k]| <= CellWidth && cells[k] <= Display(row[k])
    ensures forall k :: k in row && |Display(row[k])| <= CellWidth ==> cells[k] == Display(row[k])
    ensures forall k :: k in row && |Display(row[k])| > CellWidth ==> cells[k] == Display(row[k])[..CellWidth]
  {
    map k | k in row :: Text.Prefix(Display(row[k]), CellWidth)
  }

  /** The data preview, shown only when there are rows: the keys of row 0 and the first ten rows. */
  function Preview(csv: seq<Row>): (table: Option<PreviewTable>)
    ensures table.None? <==> |csv| == 0
    ensures table.Some? ==> table.value.columns == csv[0].Keys
    ensures table.Some? ==> |table.value.rows| == if |csv| < PreviewRows then |csv| else PreviewRows
    ensures table.Some? ==> forall i :: 0 <= i < |table.value.rows| ==> table.value.rows[i] == PreviewRow(csv[i])
  {
    if |csv| == 0 then None
    else
      var shown := if |csv| < PreviewRows then csv else csv[..PreviewRows];
      Some(PreviewTable(csv[0].Keys, seq(|shown|, i requires 0 <= i < |shown| => PreviewRow(shown[i]))))
  }

  class DataInputPage {
    var csvData: seq<Row>
    var apiResponse: Value
    var selectedXAxis: string
    var selectedYAxis: string
    var selectedChartType: string
    const sampleData: seq<Row>

    /** The page as first rendered; the random sample rows are a parameter. */
    constructor (sample: seq<Row>)
      ensures csvData == [] && apiResponse == Null && sampleData == sample
      ensures selectedXAxis == "WindSpeed" && selectedYAxis == "Power" && selectedChartType == "line"
    {
      csvData := [];
      apiResponse := Null;
      selectedXAxis := "WindSpeed";
      selectedYAxis := "Power";
      selectedChartType := "line";
      sampleData := sample;
    }

    /** The upload's `onload` handler, given the file's text: one row per line after the header. */
    method HandleCsvText(text: string)
      modifies this
      ensures csvData == Csv.ParseCsv(text)
      ensures apiResponse == old(apiResponse) && selectedXAxis == old(selectedXAxis)
      ensures selectedYAxis == old(selectedYAxis) && selectedChartType == old(selectedChartType)
    {
      csvData := Csv.ParseCsvText(text);
    }

    /** `handlePredict`, given how the request ended; returns the data it sent. */
    method HandlePredict(outcome: FetchOutcome) returns (sent: seq<Row>)
      modifies this
      ensures sent == DataSource(old(csvData), sampleData)
      ensures PageData(csvData, apiResponse) == AfterPredict(old(csvData), sampleData, outcome)
      ensures selectedXAxis == old(selectedXAxis) && selectedYAxis == old(selectedYAxis)
      ensures selectedChartType == old(selectedChartType)
    {
      sent := if |csvData| > 0 then csvData else sampleData;
      apiResponse := Null;
      if outcome.Rejected? || !outcome.ok || outcome.body.None? || Nullish(outcome.body.value) {
        apiResponse := PredictionError;
        return;
      }
      var result := outcome.body.value;
      var predictions := PredictionsOf(result);
      if predictions.Some? {
        csvData := Merge(sent, predictions.value);
      }
      apiResponse := result;
    }

    method SetXAxis(key: string)
      modifies this
      ensures selectedXAxis == key
      ensures csvData == old(csvData) && apiResponse == old(apiResponse)
      ensures selectedYAxis == old(selectedYAxis) && selectedChartType == old(selectedChartType)
    {
      selectedXAxis := key;
    }

    method SetYAxis(key: string)
      modifies this
      ensures selectedYAxis == key
      ensures csvData == old(csvData) && apiResponse == old(apiResponse)
      ensures selectedXAxis == old(selectedXAxis) && selectedChartType == old(selectedChartType)
    {
      selectedYAxis := key;
    }

    method SetChartType(chartType: string)
      modifies this
      ensures selectedChartType == chartType
      ensures csvData == old(csvData) && apiResponse == old(apiResponse)
      ensures selectedXAxis == old(selectedXAxis) && selectedYAxis == old(selectedYAxis)
    {
      selectedChartType := chartType;
    }

    /** `renderChart()` on the current state. */
    function Chart(): ChartSpec
      reads this
    {
      RenderChart(csvData, sampleData, selectedChartType, selectedXAxis, selectedYAxis)
    }

    /** The data-preview card on the current state. */
    function DataPreview(): Option<PreviewTable>
      reads this
    {
      Preview(csvData)
    }
  }
}
