/** The analytics response envelope: a chart grid, a table with display rows
    and parallel row objects, a narrative and a KPI list. Chart `options`
    (colours, axes, chart area) are presentation payload and are not modelled. */
module Response {
  import opened Wrappers

  datatype ChartType = ColumnChart | LineChart | PieChart | BarChart | AreaChart

  /** One cell of a chart grid or table: a display string or a number. */
  datatype Cell = Text(text: string) | Num(value: real)

  type Row = seq<Cell>

  /** A table row object, keyed by column name and by numeric shadow fields
      such as `PercentageValue`. */
  type RowObject = map<string, Cell>

  datatype ChartData = ChartData(chartType: ChartType, title: string, grid: seq<Row>)

  datatype TableData = TableData(title: string, headers: seq<string>, rows: seq<Row>, data: seq<RowObject>)

  datatype Trend = Up | Down | Neutral

  datatype Kpi = Kpi(name: string, value: Cell, trend: Trend)

  datatype AnalyticsResponse = AnalyticsResponse(
    chartData: ChartData,
    tableData: TableData,
    textResponse: string,
    kpis: seq<Kpi>)

  /** A chart grid: a header row followed by data rows of the same width. */
  predicate Rectangular(grid: seq<Row>) {
    |grid| >= 1 && forall i :: 0 <= i < |grid| ==> |grid[i]| == |grid[0]|
  }

  /** A display row has one cell per header, and its row object holds, under
      each header, the very cell the row shows in that column. */
  predicate RowMatches(headers: seq<string>, row: Row, obj: RowObject) {
    && |row| == |headers|
    && forall j :: 0 <= j < |headers| ==> headers[j] in obj && obj[headers[j]] == row[j]
  }

  /** `rows` and `data` have one entry per table line and agree line by line. */
  predicate Consistent(t: TableData) {
    && |t.rows| == |t.data|
    && forall i :: 0 <= i < |t.rows| ==> RowMatches(t.headers, t.rows[i], t.data[i])
  }

  /** A header row followed by rows of its width is a rectangular grid. */
  lemma HeaderedRectangular(header: Row, rows: seq<Row>)
    requires forall i :: 0 <= i < |rows| ==> |rows[i]| == |header|
    ensures Rectangular([header] + rows)
  {
    var g := [header] + rows;
    forall i | 0 <= i < |g|
      ensures |g[i]| == |g[0]|
    {
      if i > 0 {
        assert g[i] == rows[i - 1];
      }
    }
  }

  /** The row object `{[headers[0]]: row[0], ...}` holding just the shown
      columns; with distinct headers it matches the row. */
  function Columns(headers: seq<string>, row: Row): (o: RowObject)
    requires |row| == |headers|
    requires forall i, j :: 0 <= i < j < |headers| ==> headers[i] != headers[j]
    ensures RowMatches(headers, row, o)
  {
    if |headers| == 0 then map[]
    else
      var n := |headers| - 1;
      var o := Columns(headers[..n], row[..n]);
      assert forall j :: 0 <= j < n ==> headers[..n][j] == headers[j] && row[..n][j] == row[j];
      o[headers[n] := row[n]]
  }

  /** A row object extended with shadow fields whose names are not headers
      still matches the row, and holds each shadow field as given. */
  lemma {:induction false} WithShadows(headers: seq<string>, row: Row, o: RowObject, shadow: RowObject)
    requires RowMatches(headers, row, o)
    requires forall k :: k in shadow ==> k !in headers
    ensures RowMatches(headers, row, o + shadow)
    ensures forall k :: k in shadow ==> k in o + shadow && (o + shadow)[k] == shadow[k]
  {
  }

  /** A row object: the shown columns under their headers plus numeric
      shadow fields (`PercentageValue` and the like) under names that are not
      headers. */
  function RowObjectOf(headers: seq<string>, row: Row, shadow: RowObject): (o: RowObject)
    requires |row| == |headers|
    requires forall i, j :: 0 <= i < j < |headers| ==> headers[i] != headers[j]
    requires forall k :: k in shadow ==> k !in headers
    ensures RowMatches(headers, row, o)
    ensures forall k :: k in shadow ==> k in o && o[k] == shadow[k]
  {
    WithShadows(headers, row, Columns(headers, row), shadow);
    Columns(headers, row) + shadow
  }

  /** A table whose fields may be missing, as `validateTableData` receives it. */
  datatype RawTable = RawTable(title: string, headers: Option<seq<string>>, rows: seq<Row>, data: Option<seq<RowObject>>)

  /** `validateTableData`: a missing `data` or `headers` array becomes empty;
      present fields pass through untouched. */
  function ValidateTableData(raw: RawTable): (t: TableData)
    ensures t.title == raw.title && t.rows == raw.rows
    ensures t.headers == raw.headers.GetOr([]) && t.data == raw.data.GetOr([])
    ensures raw.headers.Some? && raw.data.Some? ==>
              t == TableData(raw.title, raw.headers.value, raw.rows, raw.data.value)
  {
    TableData(raw.title, raw.headers.GetOr([]), raw.rows, raw.data.GetOr([]))
  }
}
