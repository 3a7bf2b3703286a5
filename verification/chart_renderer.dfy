/**
 * `ChartRenderer`: picks a label and a value column from the first row's
 * keys and dispatches on the chart kind.
 */
module ChartRenderer {
  import opened Wrappers
  import opened Entries

  /** The chart body; column names are `None` when the first row has too few keys (`undefined`). */
  datatype ChartBody =
    | Pie(dataKey: Option<string>, nameKey: Option<string>)
    | Bar(xKey: Option<string>, seriesKey: Option<string>)
    | Line(xKey: Option<string>, seriesKey: Option<string>)

  /** The rendered element: `null`, or the card holding the chart body (itself possibly `null`). */
  datatype Rendered = Nothing | Card(body: Option<ChartBody>)

  const DefaultKind: string := "bar"

  /** `columns[0]`. */
  function LabelColumn(columns: seq<string>): (c: Option<string>)
    ensures c.Some? <==> |columns| > 0
    ensures c.Some? ==> c.value == columns[0]
  {
    if |columns| > 0 then Some(columns[0]) else None
  }

  /** `columns[1] || columns[0]`: the second key when it exists and is non-empty, else the first. */
  function ValueColumn(columns: seq<string>): (c: Option<string>)
    ensures |columns| > 1 && columns[1] != "" ==> c == Some(columns[1])
    ensures |columns| <= 1 || columns[1] == "" ==> c == LabelColumn(columns)
    ensures c.Some? ==> c.value in columns
  {
    if |columns| > 1 && columns[1] != "" then Some(columns[1]) else LabelColumn(columns)
  }

  /** The kind: `None` is an absent (`undefined`) prop, which the default parameter turns into `'bar'`. */
  function Kind(chartType: Option<string>): (k: string)
    ensures chartType.None? ==> k == DefaultKind
    ensures chartType.Some? ==> k == chartType.value
  {
    chartType.GetOr(DefaultKind)
  }

  /** `renderChart`: pie, bar and line have a body, any other kind none. */
  function RenderChart(kind: string, labelCol: Option<string>, valueCol: Option<string>): (b: Option<ChartBody>)
    ensures b.Some? <==> kind in {"pie", "bar", "line"}
    ensures kind == "pie" ==> b == Some(Pie(valueCol, labelCol))
    ensures kind == "bar" ==> b == Some(Bar(labelCol, valueCol))
    ensures kind == "line" ==> b == Some(Line(labelCol, valueCol))
  {
    if kind == "pie" then Some(Pie(valueCol, labelCol))
    else if kind == "bar" then Some(Bar(labelCol, valueCol))
    else if kind == "line" then Some(Line(labelCol, valueCol))
    else None
  }

  /**
   * The component: nothing without rows; otherwise a card whose chart uses
   * the first key of the first row as labels and the value column as
   * series, for the requested kind (bar by default).
   */
  function Render(rows: Option<seq<Row>>, chartType: Option<string>): (r: Rendered)
    ensures r.Nothing? <==> rows.None? || |rows.value| == 0
    ensures r.Card? ==>
      var columns := Keys(rows.value[0]);
      r.body == RenderChart(Kind(chartType), LabelColumn(columns), ValueColumn(columns))
  {
    if rows.None? || |rows.value| == 0 then Nothing
    else
      var columns := Keys(rows.value[0]);
      Card(RenderChart(Kind(chartType), LabelColumn(columns), ValueColumn(columns)))
  }

  /**
   * With rows whose first row has two keys, the second non-empty, every
   * chart kind separates labels from values: pie uses the value column as
   * data and the label column as names, bar and line put labels on the
   * x-axis and values in the series. Without a kind the chart is a bar chart.
   */
  lemma ColumnsAssigned(rows: seq<Row>, chartType: Option<string>)
    requires |rows| > 0 && |rows[0]| >= 2 && rows[0][1].0 != ""
    ensures
      var labelCol := Some(rows[0][0].0);
      var valueCol := Some(rows[0][1].0);
      var r := Render(Some(rows), chartType);
      && (chartType == Some("pie") ==> r == Card(Some(Pie(valueCol, labelCol))))
      && (chartType.None? || chartType == Some("bar") ==> r == Card(Some(Bar(labelCol, valueCol))))
      && (chartType == Some("line") ==> r == Card(Some(Line(labelCol, valueCol))))
  {
  }
}
