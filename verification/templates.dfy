/** The report templates of `generateChartAndTableData`, one per routing
    branch, and the dispatcher that picks one by the routed intent. Every
    template returns a chart grid, a table whose display rows and row objects
    agree column by column, a narrative and a KPI list. */
module Templates {
  import opened Wrappers
  import opened Strings
  import opened Format
  import opened Seqs
  import opened CallRecords
  import opened Analytics
  import opened Breakdown
  import opened Agents
  import opened Response
  import opened Intent
  import opened Trends

  const Bullet: string := "\U{2022} "

  /** `${x.toFixed(1)}%`. */
  function PctText(x: real): string {
    Fixed1(x) + "%"
  }

  /** The four KPIs every non-test branch returns. */
  function StandardKpis(a: Snapshot): (ks: seq<Kpi>)
    ensures |ks| == 4 && ks[0] == Kpi("Total Calls", Num(a.totalCalls as real), Neutral)
    ensures ks[1] == Kpi("Resolution Rate", Text(Fixed1(a.resolutionRate) + "%"), Up)
    ensures ks[2] == Kpi("Avg Handle Time", Text(Fixed1(a.avgHandleTime) + "m"), Down)
    ensures ks[3] == Kpi("Customer Satisfaction", Text(Fixed1(a.avgSatisfaction) + "/5"), Up)
  {
    [ Kpi("Total Calls", Num(a.totalCalls as real), Neutral),
      Kpi("Resolution Rate", Text(Fixed1(a.resolutionRate) + "%"), Up),
      Kpi("Avg Handle Time", Text(Fixed1(a.avgHandleTime) + "m"), Down),
      Kpi("Customer Satisfaction", Text(Fixed1(a.avgSatisfaction) + "/5"), Up) ]
  }

  /** `• {key}: {count} calls`. */
  function CountLine(e: Entry): string {
    Bullet + e.key + ": " + NatToString(e.count) + " calls"
  }

  function CountLines(es: seq<Entry>): (ls: seq<string>)
    ensures |ls| == |es| && forall i :: 0 <= i < |es| ==> ls[i] == CountLine(es[i])
  {
    seq(|es|, i requires 0 <= i < |es| => CountLine(es[i]))
  }

  /** `[key, count]`: a breakdown entry as a chart row. */
  function PairRow(e: Entry): Row {
    [Text(e.key), Num(e.count as real)]
  }

  /** The chart rows of a breakdown: one `[key, count]` pair per entry. */
  function PairRows(es: seq<Entry>): (g: seq<Row>)
    ensures |g| == |es|
    ensures forall i :: 0 <= i < |es| ==> g[i] == PairRow(es[i])
  {
    seq(|es|, i requires 0 <= i < |es| => PairRow(es[i]))
  }

  /** A chart of a breakdown: a two-column header and one `[key, count]` row
      per entry, in the breakdown's order. */
  function BreakdownChart(kind: ChartType, title: string, keyColumn: string, countColumn: string, d: seq<Entry>): (c: ChartData)
    ensures Rectangular(c.grid) && |c.grid| == |d| + 1
    ensures forall i :: 0 <= i < |d| ==> c.grid[i + 1] == PairRow(d[i])
  {
    var header := [Text(keyColumn), Text(countColumn)];
    HeaderedRectangular(header, PairRows(d));
    ChartData(kind, title, [header] + PairRows(d))
  }

  // ---------------------------------------------------------------- test

  const TestHeaders: seq<string> := ["Name", "Value", "Status"]

  /** One line of the test table: name, value, status and the value's number. */
  datatype TestItem = TestItem(name: string, value: string, status: string, number: real)

  const TestItems: seq<TestItem> := [
    TestItem("Test Item 1", "100", "Active", 100.0), TestItem("Test Item 2", "200", "Inactive", 200.0),
    TestItem("Test Item 3", "300", "Pending", 300.0)]

  function TestRow(t: TestItem): Row {
    [Text(t.name), Text(t.value), Text(t.status)]
  }

  function TestObject(t: TestItem): (o: RowObject)
    ensures RowMatches(TestHeaders, TestRow(t), o)
    ensures "ValueNumber" in o && o["ValueNumber"] == Num(t.number)
  {
    TestHeadersApart();
    RowObjectOf(TestHeaders, TestRow(t), map["ValueNumber" := Num(t.number)])
  }

  lemma TestHeadersApart()
    ensures forall i, j :: 0 <= i < j < |TestHeaders| ==> TestHeaders[i] != TestHeaders[j]
    ensures "ValueNumber" !in TestHeaders
  {
  }

  function TestItemsTable(items: seq<TestItem>): (t: TableData)
    ensures Consistent(t) && |t.rows| == |items|
  {
    TableData("Test Table", TestHeaders,
      seq(|items|, i requires 0 <= i < |items| => TestRow(items[i])),
      seq(|items|, i requires 0 <= i < |items| => TestObject(items[i])))
  }

  /** The fixed response of the `test table` branch. */
  function TestReport(): (r: AnalyticsResponse)
    ensures Consistent(r.tableData) && Rectangular(r.chartData.grid)
    ensures |r.tableData.rows| == 3 && |r.kpis| == 2
  {
    var grid := [[Text("Item"), Text("Count")], [Text("Test 1"), Num(10.0)], [Text("Test 2"), Num(20.0)]];
    HeaderedRectangular(grid[0], grid[1..]);
    assert grid == [grid[0]] + grid[1..];
    AnalyticsResponse(
      ChartData(ColumnChart, "Test Chart", grid),
      TestItemsTable(TestItems),
      "This is a test response with both chart and table data.",
      [Kpi("Test KPI 1", Text("100"), Up), Kpi("Test KPI 2", Text("200"), Down)])
  }

  // ---------------------------------------------------------- department

  const DepartmentHeaders: seq<string> := ["Department", "Total Calls", "Percentage"]

  function DepartmentRow(e: Entry, total: nat): Row
    requires total > 0
  {
    PairRow(e) + [Text(PctText(Percent(e.count, total)))]
  }

  function DepartmentObject(e: Entry, total: nat): (o: RowObject)
    requires total > 0
    ensures RowMatches(DepartmentHeaders, DepartmentRow(e, total), o)
    ensures "PercentageValue" in o && o["PercentageValue"] == Num(Percent(e.count, total))
  {
    DepartmentHeadersApart();
    RowObjectOf(DepartmentHeaders, DepartmentRow(e, total), map["PercentageValue" := Num(Percent(e.count, total))])
  }

  lemma DepartmentHeadersApart()
    ensures forall i, j :: 0 <= i < j < |DepartmentHeaders| ==> DepartmentHeaders[i] != DepartmentHeaders[j]
    ensures "PercentageValue" !in DepartmentHeaders
  {
  }

  /** The department table: one row per entry, in the given order. */
  function DepartmentTable(d: seq<Entry>, total: nat): (t: TableData)
    requires total > 0
    ensures Consistent(t) && t.headers == DepartmentHeaders && |t.rows| == |d|
    ensures forall i :: 0 <= i < |d| ==> t.rows[i] == DepartmentRow(d[i], total) && t.rows[i][..2] == PairRow(d[i])
  {
    var rows := seq(|d|, i requires 0 <= i < |d| => DepartmentRow(d[i], total));
    var data := seq(|d|, i requires 0 <= i < |d| => DepartmentObject(d[i], total));
    ValidateTableData(RawTable("Department Performance", Some(DepartmentHeaders), rows, Some(data)))
  }

  function DepartmentNarrative(d: seq<Entry>): string {
    DepartmentHeading + Join(CountLines(d), "\n") + DepartmentClosing
  }

  const DepartmentHeading: string := "\U{1F4CA} **Department Analysis:**\n\nCall volume by department:\n"
  const DepartmentClosing: string :=
    "\n\nThis shows workload distribution across departments and can help with resource allocation."

  /** The department branch: the breakdown sorted by descending count, as a
      pie chart and as a validated table with a percentage column; the chart
      rows repeat the table's first two columns. */
  function DepartmentReport(a: Snapshot): (r: AnalyticsResponse)
    requires a.totalCalls > 0
    ensures Consistent(r.tableData) && Rectangular(r.chartData.grid)
    ensures r.kpis == StandardKpis(a)
    ensures r.tableData.headers == DepartmentHeaders
    ensures var d := SortByCount(a.departmentBreakdown);
            && |r.tableData.rows| == |d| && |r.chartData.grid| == |d| + 1
            && (forall i :: 0 <= i < |d| ==> r.tableData.rows[i] == DepartmentRow(d[i], a.totalCalls))
            && (forall i :: 0 <= i < |d| ==> r.chartData.grid[i + 1] == PairRow(d[i]) == r.tableData.rows[i][..2])
  {
    var d := SortByCount(a.departmentBreakdown);
    AnalyticsResponse(
      BreakdownChart(PieChart, "Call Volume by Department", "Department", "Calls", d),
      DepartmentTable(d, a.totalCalls),
      DepartmentNarrative(d),
      StandardKpis(a))
  }

  // ------------------------------------------------------------ category

  const CategoryHeaders: seq<string> := ["Category", "Count", "Percentage"]

  function CategoryRow(e: Entry, total: nat): Row
    requires total > 0
  {
    PairRow(e) + [Text(PctText(Percent(e.count, total)))]
  }

  function CategoryObject(e: Entry, total: nat): (o: RowObject)
    requires total > 0
    ensures RowMatches(CategoryHeaders, CategoryRow(e, total), o)
    ensures "PercentageValue" in o && o["PercentageValue"] == Num(Percent(e.count, total))
  {
    CategoryHeadersApart();
    RowObjectOf(CategoryHeaders, CategoryRow(e, total), map["PercentageValue" := Num(Percent(e.count, total))])
  }

  lemma CategoryHeadersApart()
    ensures forall i, j :: 0 <= i < j < |CategoryHeaders| ==> CategoryHeaders[i] != CategoryHeaders[j]
    ensures "PercentageValue" !in CategoryHeaders
  {
  }

  function CategoryTable(d: seq<Entry>, total: nat): (t: TableData)
    requires total > 0
    ensures Consistent(t) && t.headers == CategoryHeaders && |t.rows| == |d|
    ensures forall i :: 0 <= i < |d| ==> t.rows[i] == CategoryRow(d[i], total) && t.rows[i][..2] == PairRow(d[i])
  {
    TableData("Call Categories Breakdown", CategoryHeaders,
      seq(|d|, i requires 0 <= i < |d| => CategoryRow(d[i], total)),
      seq(|d|, i requires 0 <= i < |d| => CategoryObject(d[i], total)))
  }

  const CategoryHeading: string := "\U{1F4CB} **Category Analysis:**\n\nTop call categories:\n"
  const CategoryClosing: string := "\n\nThis helps identify common customer issues and training needs."

  /** The narrative lists the first three entries only (`slice(0, 3)`). */
  function CategoryNarrative(d: seq<Entry>): string {
    CategoryHeading + Join(CountLines(if |d| <= 3 then d else d[..3]), "\n") + CategoryClosing
  }

  /** The category branch: the sorted category breakdown as a column chart
      and a table. */
  function CategoryReport(a: Snapshot): (r: AnalyticsResponse)
    requires a.totalCalls > 0
    ensures Consistent(r.tableData) && Rectangular(r.chartData.grid)
    ensures r.kpis == StandardKpis(a)
    ensures r.tableData.headers == CategoryHeaders
    ensures var d := SortByCount(a.categoryBreakdown);
            && |r.tableData.rows| == |d| && |r.chartData.grid| == |d| + 1
            && (forall i :: 0 <= i < |d| ==> r.tableData.rows[i] == CategoryRow(d[i], a.totalCalls))
            && (forall i :: 0 <= i < |d| ==> r.chartData.grid[i + 1] == PairRow(d[i]) == r.tableData.rows[i][..2])
  {
    var d := SortByCount(a.categoryBreakdown);
    AnalyticsResponse(
      BreakdownChart(ColumnChart, "Call Categories", "Category", "Count", d),
      CategoryTable(d, a.totalCalls),
      CategoryNarrative(d),
      StandardKpis(a))
  }

  // ------------------------------------------------------------ priority

  const PriorityHeaders: seq<string> := ["Priority", "Count", "Percentage", "Escalation Rate"]

  /** The escalation rate the source assumes per priority level, in percent. */
  function EscalationValue(priority: string): nat {
    if priority == "urgent" then 45 else if priority == "high" then 25 else 5
  }

  /** The display form the table rows use, written out as literals. */
  function EscalationText(priority: string): string {
    if priority == "urgent" then "45%" else if priority == "high" then "25%" else "5%"
  }

  /** The literal shown in a row and the `${value}%` of its row object agree. */
  lemma EscalationTextAgrees(priority: string)
    ensures NatToString(EscalationValue(priority)) + "%" == EscalationText(priority)
  {
    assert NatToString(45) == "45" by {
      assert NatToString(4) == "4";
    }
    assert NatToString(25) == "25" by {
      assert NatToString(2) == "2";
    }
  }

  function PriorityRow(e: Entry, total: nat): Row
    requires total > 0
  {
    PairRow(e) + [Text(Fixed1(Percent(e.count, total)) + "%"), Text(EscalationText(e.key))]
  }

  /** The row object shows the escalation rate as `${value}%`, which is the
      literal the display row shows. */
  function PriorityObject(e: Entry, total: nat): (o: RowObject)
    requires total > 0
    ensures RowMatches(PriorityHeaders, PriorityRow(e, total), o)
    ensures "PercentageValue" in o && o["PercentageValue"] == Num(Round1(Percent(e.count, total)))
    ensures "EscalationRateValue" in o && o["EscalationRateValue"] == Num(EscalationValue(e.key) as real)
  {
    var v := EscalationValue(e.key);
    var row := PairRow(e) + [Text(Fixed1(Percent(e.count, total)) + "%"), Text(NatToString(v) + "%")];
    EscalationTextAgrees(e.key);
    assert row == PriorityRow(e, total);
    PriorityHeadersApart();
    RowObjectOf(PriorityHeaders, row,
      map["PercentageValue" := Num(Round1(Percent(e.count, total))), "EscalationRateValue" := Num(v as real)])
  }

  lemma PriorityHeadersApart()
    ensures forall i, j :: 0 <= i < j < |PriorityHeaders| ==> PriorityHeaders[i] != PriorityHeaders[j]
    ensures "PercentageValue" !in PriorityHeaders && "EscalationRateValue" !in PriorityHeaders
  {
  }

  function PriorityTable(d: seq<Entry>, total: nat): (t: TableData)
    requires total > 0
    ensures Consistent(t) && t.headers == PriorityHeaders && |t.rows| == |d|
    ensures forall i :: 0 <= i < |d| ==> t.rows[i] == PriorityRow(d[i], total) && t.rows[i][..2] == PairRow(d[i])
  {
    TableData("Priority Analysis", PriorityHeaders,
      seq(|d|, i requires 0 <= i < |d| => PriorityRow(d[i], total)),
      seq(|d|, i requires 0 <= i < |d| => PriorityObject(d[i], total)))
  }

  const PriorityHeading: string := "\U{1F6A8} **Priority Analysis:**\n\n"
  const PriorityActions: string := "\n\n**Action Items:**\n\U{2022} Monitor urgent calls closely\n"
    + "\U{2022} Ensure proper escalation procedures\n\U{2022} Review high-priority resolution times"

  /** The narrative reads the high and urgent counts with `|| 0`. */
  function PriorityNarrative(a: Snapshot): string {
    PriorityHeading + Bullet + "Escalation Rate: " + PctText(a.escalationRate) + "\n"
      + Bullet + "High Priority Calls: " + NatToString(Lookup(a.priorityBreakdown, "high")) + "\n"
      + Bullet + "Urgent Calls: " + NatToString(Lookup(a.priorityBreakdown, "urgent")) + PriorityActions
  }

  /** The priority branch: the sorted priority breakdown with the assumed
      escalation rate per level. */
  function PriorityReport(a: Snapshot): (r: AnalyticsResponse)
    requires a.totalCalls > 0
    ensures Consistent(r.tableData) && Rectangular(r.chartData.grid)
    ensures r.kpis == StandardKpis(a)
    ensures r.tableData.headers == PriorityHeaders
    ensures var d := SortByCount(a.priorityBreakdown);
            && |r.tableData.rows| == |d| && |r.chartData.grid| == |d| + 1
            && (forall i :: 0 <= i < |d| ==> r.tableData.rows[i] == PriorityRow(d[i], a.totalCalls))
            && (forall i :: 0 <= i < |d| ==> r.chartData.grid[i + 1] == PairRow(d[i]) == r.tableData.rows[i][..2])
  {
    var d := SortByCount(a.priorityBreakdown);
    AnalyticsResponse(
      BreakdownChart(PieChart, "Call Priority Distribution", "Priority", "Count", d),
      PriorityTable(d, a.totalCalls),
      PriorityNarrative(a),
      StandardKpis(a))
  }

  // --------------------------------------------------------- performance

  const PerformanceHeaders: seq<string> := ["Metric", "Value", "Target", "Status"]
  const Good: string := "\U{2705} Good"
  const NeedsImprovement: string := "\U{26A0}\U{FE0F} Needs Improvement"
  const AboveTarget: string := "\U{26A0}\U{FE0F} Above Target"

  lemma StatusesDiffer()
    ensures Good != NeedsImprovement && Good != AboveTarget
  {
    assert Good[0] != NeedsImprovement[0] && Good[0] != AboveTarget[0];
  }

  /** One metric of the performance table: its shown value, its numeric
      value, the target (shown and numeric), whether the target is met, and
      the status shown when it is not. */
  datatype Goal = Goal(metric: string, shown: string, value: real, target: string, targetNumber: real,
                       met: bool, miss: string)

  /** The four metrics; the handle time meets its target from below, the
      others from above. */
  function Goals(a: Snapshot): (gs: seq<Goal>)
    ensures |gs| == 4
    ensures gs[0].met <==> a.firstCallResolutionRate >= 80.0
    ensures gs[1].met <==> a.resolutionRate >= 95.0
    ensures gs[2].met <==> a.avgHandleTime <= 12.0
    ensures gs[3].met <==> a.avgSatisfaction >= 4.0
    ensures forall i :: 0 <= i < 4 ==> gs[i].miss != Good
  {
    StatusesDiffer();
    var fcr := a.firstCallResolutionRate;
    var rr := a.resolutionRate;
    var aht := a.avgHandleTime;
    var sat := a.avgSatisfaction;
    [ Goal("First Call Resolution", Fixed1(fcr) + "%", fcr, "80%", 80.0, fcr >= 80.0, NeedsImprovement),
      Goal("Resolution Rate", Fixed1(rr) + "%", rr, "95%", 95.0, rr >= 95.0, NeedsImprovement),
      Goal("Avg Handle Time", Fixed1(aht) + "m", aht, "12m", 12.0, aht <= 12.0, AboveTarget),
      Goal("Customer Satisfaction", Fixed1(sat) + "/5", sat, "4.0", 4.0, sat >= 4.0, NeedsImprovement) ]
  }

  function GoalRow(g: Goal): Row {
    [Text(g.metric), Text(g.shown), Text(g.target), Text(if g.met then Good else g.miss)]
  }

  function GoalObject(g: Goal): (o: RowObject)
    ensures RowMatches(PerformanceHeaders, GoalRow(g), o)
    ensures "ValueNumber" in o && o["ValueNumber"] == Num(g.value)
    ensures "TargetNumber" in o && o["TargetNumber"] == Num(g.targetNumber)
    ensures "StatusValue" in o && o["StatusValue"] == Num(if g.met then 1.0 else 0.0)
  {
    PerformanceHeadersApart();
    RowObjectOf(PerformanceHeaders, GoalRow(g),
      map["ValueNumber" := Num(g.value), "TargetNumber" := Num(g.targetNumber),
          "StatusValue" := Num(if g.met then 1.0 else 0.0)])
  }

  lemma PerformanceHeadersApart()
    ensures forall i, j :: 0 <= i < j < |PerformanceHeaders| ==> PerformanceHeaders[i] != PerformanceHeaders[j]
    ensures forall k :: k in ["ValueNumber", "TargetNumber", "StatusValue"] ==> k !in PerformanceHeaders
  {
  }

  /** The performance table: one row per goal. A row shows the good status
      exactly when its goal is met, and its `StatusValue` is 1 exactly then. */
  function GoalTable(gs: seq<Goal>): (t: TableData)
    requires forall i :: 0 <= i < |gs| ==> gs[i].miss != Good
    ensures Consistent(t) && |t.rows| == |gs|
    ensures forall i :: 0 <= i < |gs| ==> |t.rows[i]| == 4 && (t.rows[i][3] == Text(Good) <==> gs[i].met)
    ensures forall i :: 0 <= i < |gs| ==>
              "StatusValue" in t.data[i] && (t.data[i]["StatusValue"] == Num(1.0) <==> gs[i].met)
  {
    TableData("Performance Metrics", PerformanceHeaders,
      seq(|gs|, i requires 0 <= i < |gs| => GoalRow(gs[i])),
      seq(|gs|, i requires 0 <= i < |gs| => GoalObject(gs[i])))
  }

  /** The performance branch: four rates and averages against fixed targets,
      each marked good exactly when its target is met. */
  function PerformanceReport(a: Snapshot): (r: AnalyticsResponse)
    ensures Consistent(r.tableData) && Rectangular(r.chartData.grid)
    ensures |r.tableData.rows| == 4 && |r.chartData.grid| == 5
    ensures forall i :: 0 <= i < 4 ==> |r.tableData.rows[i]| == 4
    ensures r.kpis == StandardKpis(a)
    ensures r.tableData.rows[0][3] == Text(Good) <==> a.firstCallResolutionRate >= 80.0
    ensures r.tableData.rows[1][3] == Text(Good) <==> a.resolutionRate >= 95.0
    ensures r.tableData.rows[2][3] == Text(Good) <==> a.avgHandleTime <= 12.0
    ensures r.tableData.rows[3][3] == Text(Good) <==> a.avgSatisfaction >= 4.0
  {
    var grid := [[Text("Metric"), Text("Percentage")], [Text("First Call Resolution"), Num(a.firstCallResolutionRate)],
                 [Text("Resolution Rate"), Num(a.resolutionRate)], [Text("Customer Satisfaction"), Num(a.avgSatisfaction * 20.0)],
                 [Text("Escalation Rate"), Num(a.escalationRate)]];
    HeaderedRectangular(grid[0], grid[1..]);
    assert grid == [grid[0]] + grid[1..];
    AnalyticsResponse(
      ChartData(ColumnChart, "Key Performance Metrics", grid),
      GoalTable(Goals(a)),
      PerformanceNarrative(a),
      StandardKpis(a))
  }

  const PerformanceHeading: string := "\U{1F4C8} **Performance Insights:**\n\n"
  const PerformanceAdvice: string := "\n\n**Recommendations:** Focus on improving first call resolution to reduce "
    + "handle time and increase satisfaction."

  function PerformanceNarrative(a: Snapshot): string {
    PerformanceHeading + Bullet + "First Call Resolution: " + PctText(a.firstCallResolutionRate) + "\n"
      + Bullet + "Average Handle Time: " + Fixed1(a.avgHandleTime) + " minutes\n"
      + Bullet + "Customer Satisfaction: " + Fixed1(a.avgSatisfaction) + "/5\n"
      + Bullet + "Resolution Rate: " + PctText(a.resolutionRate) + PerformanceAdvice
  }

  // --------------------------------------------------------------- agent

  const AgentHeaders: seq<string> := ["Agent", "Department", "Total Calls", "Resolved Calls", "Resolution Rate",
                                      "Avg Handle Time", "Customer Satisfaction", "FCR Rate"]

  /** The satisfaction average of an agent, 0 when no call of theirs was
      rated with a truthy score. */
  function AgentSatisfaction(g: AgentAcc): real {
    if g.satisfactionCount > 0 then g.satisfactionSum as real / g.satisfactionCount as real else 0.0
  }

  function AgentSatisfactionText(g: AgentAcc): string {
    if g.satisfactionCount > 0 then Fixed1(AgentSatisfaction(g)) + "/5" else "N/A"
  }

  /** The handle time divides by all of the agent's calls, including those
      without a duration. */
  function AgentHandleTime(g: AgentAcc): real
    requires g.totalCalls > 0
  {
    g.totalDuration as real / g.totalCalls as real
  }

  function AgentRow(g: AgentAcc): Row
    requires g.totalCalls > 0
  {
    [ Text(g.agentName), Text(g.department), Num(g.totalCalls as real), Num(g.resolvedCalls as real),
      Text(PctText(Percent(g.resolvedCalls, g.totalCalls))), Text(Fixed1(AgentHandleTime(g)) + "m"),
      Text(AgentSatisfactionText(g)), Text(PctText(Percent(g.fcrCount, g.totalCalls))) ]
  }

  function AgentObject(g: AgentAcc): (o: RowObject)
    requires g.totalCalls > 0
    ensures RowMatches(AgentHeaders, AgentRow(g), o)
    ensures "SatisfactionValue" in o && o["SatisfactionValue"] == Num(AgentSatisfaction(g))
    ensures "AvgHandleTimeValue" in o && o["AvgHandleTimeValue"] == Num(AgentHandleTime(g))
    ensures "ResolutionRateValue" in o && o["ResolutionRateValue"] == Num(Percent(g.resolvedCalls, g.totalCalls))
    ensures "FCRRateValue" in o && o["FCRRateValue"] == Num(Percent(g.fcrCount, g.totalCalls))
  {
    AgentHeadersApart();
    RowObjectOf(AgentHeaders, AgentRow(g), map[
      "ResolutionRateValue" := Num(Percent(g.resolvedCalls, g.totalCalls)), "AvgHandleTimeValue" := Num(AgentHandleTime(g)),
      "SatisfactionValue" := Num(AgentSatisfaction(g)), "FCRRateValue" := Num(Percent(g.fcrCount, g.totalCalls))])
  }

  lemma AgentHeadersApart()
    ensures forall i, j :: 0 <= i < j < |AgentHeaders| ==> AgentHeaders[i] != AgentHeaders[j]
    ensures forall k :: k in ["ResolutionRateValue", "AvgHandleTimeValue", "SatisfactionValue", "FCRRateValue"] ==> k !in AgentHeaders
  {
  }

  /** The largest element, as `Math.max(...xs)` on a non-empty list. */
  function MaxOf(xs: seq<real>): (m: real)
    requires |xs| > 0
    ensures m in xs && forall i :: 0 <= i < |xs| ==> xs[i] <= m
  {
    if |xs| == 1 then xs[0]
    else
      var m := MaxOf(xs[1..]);
      assert forall i :: 1 <= i < |xs| ==> xs[i] == xs[1..][i - 1];
      if xs[0] >= m then xs[0] else m
  }

  function AgentTable(g: seq<AgentAcc>): (t: TableData)
    requires forall i :: 0 <= i < |g| ==> g[i].totalCalls > 0
    ensures Consistent(t) && t.headers == AgentHeaders && |t.rows| == |g|
    ensures forall i :: 0 <= i < |g| ==> t.rows[i] == AgentRow(g[i])
  {
    TableData("Agent Performance Metrics", AgentHeaders,
      seq(|g|, i requires 0 <= i < |g| => AgentRow(g[i])),
      seq(|g|, i requires 0 <= i < |g| => AgentObject(g[i])))
  }

  /** The chart bars: agent name and total calls per agent. */
  function AgentBars(g: seq<AgentAcc>): (bars: seq<Row>)
    ensures |bars| == |g|
    ensures forall i :: 0 <= i < |g| ==> bars[i] == [Text(g[i].agentName), Num(g[i].totalCalls as real)]
  {
    seq(|g|, i requires 0 <= i < |g| => [Text(g[i].agentName), Num(g[i].totalCalls as real)])
  }

  const AgentHeading: string := "\U{1F465} **Agent Performance Analysis:**\n\n"
  const AgentUses: string := "\n\n**Use the table to:**\n\U{2022} Sort by any performance metric\n"
    + "\U{2022} Filter by department\n\U{2022} Compare agent performance\n\U{2022} Identify top performers"

  /** The narrative reports the agent count and the best resolution and FCR
      rates (`Math.max` over the row objects' numeric rates). */
  function AgentNarrative(g: seq<AgentAcc>): string
    requires |g| > 0 && forall i :: 0 <= i < |g| ==> g[i].totalCalls > 0
  {
    var resolution := seq(|g|, i requires 0 <= i < |g| => Percent(g[i].resolvedCalls, g[i].totalCalls));
    var fcr := seq(|g|, i requires 0 <= i < |g| => Percent(g[i].fcrCount, g[i].totalCalls));
    AgentHeading + Bullet + "Total Agents: " + NatToString(|g|) + "\n"
      + Bullet + "Best Resolution Rate: " + PctText(MaxOf(resolution)) + "\n"
      + Bullet + "Best FCR Rate: " + PctText(MaxOf(fcr)) + AgentUses
  }

  /** The agent branch: one row per agent in order of the agent's first call. */
  function AgentReport(rs: seq<CallRecord>): (r: AnalyticsResponse)
    requires |rs| > 0
    ensures Consistent(r.tableData) && Rectangular(r.chartData.grid)
    ensures r.kpis == StandardKpis(Analyze(rs))
    ensures r.tableData.headers == AgentHeaders
    ensures var g := AgentFold(rs);
            && |r.tableData.rows| == |g| == |Dedup(AgentIds(rs))|
            && (forall i :: 0 <= i < |g| ==> r.tableData.rows[i] == AgentRow(g[i]))
  {
    var g := AgentFold(rs);
    assert rs[0].agentId in Dedup(AgentIds(rs)) by {
      assert AgentIds(rs)[0] == rs[0].agentId;
    }
    var header := [Text("Agent"), Text("Total Calls")];
    HeaderedRectangular(header, AgentBars(g));
    AnalyticsResponse(
      ChartData(ColumnChart, "Agent Performance - Total Calls", [header] + AgentBars(g)),
      AgentTable(g),
      AgentNarrative(g),
      StandardKpis(Analyze(rs)))
  }

  // -------------------------------------------------------- call records

  const CallHeaders: seq<string> := ["Call ID", "Agent", "Department", "Category", "Priority", "Status",
                                     "Duration", "Satisfaction", "FCR"]

  /** `call.duration ? `${call.duration}m` : 'N/A'`. */
  function DurationText(d: Option<nat>): string {
    if Truthy(d) then NatToString(d.value) + "m" else "N/A"
  }

  /** `call.customerSatisfaction ? `${s}/5` : 'N/A'`. */
  function ScoreText(s: Option<nat>): string {
    if Truthy(s) then NatToString(s.value) + "/5" else "N/A"
  }

  function CallRow(c: CallRecord): Row {
    [ Text(c.id), Text(c.agentName), Text(c.department), Text(c.category), Text(c.priority.Name()),
      Text(c.status.Name()), Text(DurationText(c.duration)), Text(ScoreText(c.customerSatisfaction)),
      Text(if c.firstCallResolution then "Yes" else "No") ]
  }

  /** The row object adds numeric shadows, with a missing duration or score
      as 0, and the call's notes. */
  function CallObject(c: CallRecord): (o: RowObject)
    ensures RowMatches(CallHeaders, CallRow(c), o)
    ensures "DurationValue" in o && o["DurationValue"] == Num(c.duration.GetOr(0) as real)
    ensures "SatisfactionValue" in o && o["SatisfactionValue"] == Num(c.customerSatisfaction.GetOr(0) as real)
    ensures "FCRValue" in o && o["FCRValue"] == Num(if c.firstCallResolution then 1.0 else 0.0)
    ensures "Notes" in o && o["Notes"] == Text(c.notes)
  {
    CallHeadersApart();
    RowObjectOf(CallHeaders, CallRow(c), map[
      "DurationValue" := Num(c.duration.GetOr(0) as real), "SatisfactionValue" := Num(c.customerSatisfaction.GetOr(0) as real),
      "FCRValue" := Num(if c.firstCallResolution then 1.0 else 0.0), "Notes" := Text(c.notes)])
  }

  lemma CallHeadersApart()
    ensures forall i, j :: 0 <= i < j < |CallHeaders| ==> CallHeaders[i] != CallHeaders[j]
    ensures forall k :: k in ["DurationValue", "SatisfactionValue", "FCRValue", "Notes"] ==> k !in CallHeaders
  {
  }

  function CallTable(rs: seq<CallRecord>): (t: TableData)
    ensures Consistent(t) && t.headers == CallHeaders && |t.rows| == |rs|
    ensures forall i :: 0 <= i < |rs| ==> t.rows[i] == CallRow(rs[i]) && t.data[i] == CallObject(rs[i])
  {
    TableData("Call Center Records", CallHeaders,
      seq(|rs|, i requires 0 <= i < |rs| => CallRow(rs[i])),
      seq(|rs|, i requires 0 <= i < |rs| => CallObject(rs[i])))
  }

  const CallRecordHeading: string := "\U{1F4CB} **Call Records Analysis:**\n\n"
  const CallRecordUses: string := "\n\n**Use the table filters to:**\n\U{2022} Filter by department, status, or priority\n"
    + "\U{2022} Search for specific agents or call IDs\n\U{2022} Sort by duration, satisfaction, or any column\n"
    + "\U{2022} View detailed call information"

  /** The narrative counts all records (`sampleCallCenterData.length`) and
      the resolved, in-progress and escalated calls. */
  function CallRecordNarrative(n: nat, a: Snapshot): string {
    CallRecordHeading + Bullet + "Total Records: " + NatToString(n) + "\n"
      + Bullet + "Resolved: " + NatToString(a.resolvedCalls) + "\n"
      + Bullet + "In Progress: " + NatToString(a.inProgressCalls) + "\n"
      + Bullet + "Escalated: " + NatToString(a.escalatedCalls) + CallRecordUses
  }

  /** The status chart the call-records branch draws: resolved, in progress
      and escalated counts. */
  function StatusGrid(a: Snapshot): (g: seq<Row>)
    ensures Rectangular(g) && |g| == 4
  {
    var grid := [[Text("Status"), Text("Count")], [Text("Resolved"), Num(a.resolvedCalls as real)],
                 [Text("In Progress"), Num(a.inProgressCalls as real)], [Text("Escalated"), Num(a.escalatedCalls as real)]];
    HeaderedRectangular(grid[0], grid[1..]);
    assert grid == [grid[0]] + grid[1..];
    grid
  }

  /** The call-records branch: one row and one row object per call, in order. */
  function CallRecordReport(rs: seq<CallRecord>): (r: AnalyticsResponse)
    requires |rs| > 0
    ensures Consistent(r.tableData) && Rectangular(r.chartData.grid)
    ensures r.kpis == StandardKpis(Analyze(rs))
    ensures r.tableData.headers == CallHeaders
    ensures |r.tableData.rows| == |rs|
    ensures forall i :: 0 <= i < |rs| ==> r.tableData.rows[i] == CallRow(rs[i]) && r.tableData.data[i] == CallObject(rs[i])
  {
    var a := Analyze(rs);
    AnalyticsResponse(
      ChartData(ColumnChart, "Call Status Distribution", StatusGrid(a)),
      CallTable(rs),
      CallRecordNarrative(|rs|, a),
      StandardKpis(a))
  }

  // ------------------------------------------------------------ overview

  const OverviewHeaders: seq<string> := ["Metric", "Value"]

  /** One metric of the overview table: its name, the cell shown and the
      number behind it. */
  datatype Figure = Figure(metric: string, shown: Cell, number: real)

  function OverviewObject(f: Figure): (o: RowObject)
    ensures RowMatches(OverviewHeaders, [Text(f.metric), f.shown], o)
    ensures "ValueNumber" in o && o["ValueNumber"] == Num(f.number)
  {
    assert OverviewHeaders[0] != OverviewHeaders[1] && "ValueNumber" !in OverviewHeaders;
    RowObjectOf(OverviewHeaders, [Text(f.metric), f.shown], map["ValueNumber" := Num(f.number)])
  }

  /** Four counts and four formatted rates, in table order. */
  function OverviewFigures(a: Snapshot): (fs: seq<Figure>)
    ensures |fs| == 8
    ensures forall i :: 0 <= i < 4 ==> fs[i].shown == Num(fs[i].number)
    ensures fs[0].number == a.totalCalls as real && fs[1].number == a.resolvedCalls as real
    ensures fs[2].number == a.inProgressCalls as real && fs[3].number == a.escalatedCalls as real
    ensures fs[4].number == a.resolutionRate && fs[5].number == a.avgHandleTime
    ensures fs[6].number == a.avgSatisfaction && fs[7].number == a.firstCallResolutionRate
  {
    [ CountFigure("Total Calls", a.totalCalls), CountFigure("Resolved Calls", a.resolvedCalls),
      CountFigure("In Progress", a.inProgressCalls), CountFigure("Escalated Calls", a.escalatedCalls),
      RateFigure("Resolution Rate", a.resolutionRate, "%"), RateFigure("Avg Handle Time", a.avgHandleTime, " minutes"),
      RateFigure("Customer Satisfaction", a.avgSatisfaction, "/5"),
      RateFigure("First Call Resolution", a.firstCallResolutionRate, "%") ]
  }

  /** A count, shown as the number itself. */
  function CountFigure(metric: string, n: nat): Figure {
    Figure(metric, Num(n as real), n as real)
  }

  /** A rate, shown as `${x.toFixed(1)}` and a unit. */
  function RateFigure(metric: string, x: real, unit: string): Figure {
    Figure(metric, Text(Fixed1(x) + unit), x)
  }

  /** The overview table: one row per figure, the row object carrying the
      number behind the row. */
  function OverviewTable(fs: seq<Figure>): (t: TableData)
    ensures Consistent(t) && |t.rows| == |fs|
    ensures forall i :: 0 <= i < |fs| ==> t.rows[i] == [Text(fs[i].metric), fs[i].shown]
    ensures forall i :: 0 <= i < |fs| ==> "ValueNumber" in t.data[i] && t.data[i]["ValueNumber"] == Num(fs[i].number)
  {
    TableData("Call Center Summary", OverviewHeaders,
      seq(|fs|, i requires 0 <= i < |fs| => [Text(fs[i].metric), fs[i].shown]),
      seq(|fs|, i requires 0 <= i < |fs| => OverviewObject(fs[i])))
  }

  const OverviewHeading: string := "\U{1F4DE} **Call Center Dashboard Overview:**\n\n**Key Metrics:**\n"
  const OverviewPrompts: string := "\n\n**Ask me about:**\n\U{2022} \"Show department breakdown\"\n"
    + "\U{2022} \"Analyze call categories\"\n\U{2022} \"Performance metrics\"\n\U{2022} \"Priority analysis\"\n"
    + "\U{2022} \"Hourly call trends\""

  function OverviewNarrative(a: Snapshot): string {
    OverviewHeading + Bullet + "Total Calls: " + NatToString(a.totalCalls) + "\n"
      + Bullet + "Resolution Rate: " + PctText(a.resolutionRate) + "\n"
      + Bullet + "Avg Handle Time: " + Fixed1(a.avgHandleTime) + " minutes\n"
      + Bullet + "Customer Satisfaction: " + Fixed1(a.avgSatisfaction) + "/5" + OverviewPrompts
  }

  /** The overview chart: a header and one bar per status count. */
  function OverviewGrid(a: Snapshot): (g: seq<Row>)
    ensures Rectangular(g) && |g| == 5 && |g[0]| == 2
    ensures forall i :: 0 <= i < 4 ==> |g[i + 1]| == 2 && g[i + 1][1] == OverviewFigures(a)[i].shown
  {
    var grid := [[Text("Metric"), Text("Count")], [Text("Total Calls"), Num(a.totalCalls as real)],
                 [Text("Resolved"), Num(a.resolvedCalls as real)], [Text("In Progress"), Num(a.inProgressCalls as real)],
                 [Text("Escalated"), Num(a.escalatedCalls as real)]];
    HeaderedRectangular(grid[0], grid[1..]);
    assert grid == [grid[0]] + grid[1..];
    grid
  }

  /** The fall-through branch: status counts and the headline figures. */
  function OverviewReport(a: Snapshot): (r: AnalyticsResponse)
    ensures Consistent(r.tableData) && Rectangular(r.chartData.grid)
    ensures |r.tableData.rows| == 8 && |r.chartData.grid| == 5
    ensures r.kpis == StandardKpis(a)
  {
    AnalyticsResponse(
      ChartData(ColumnChart, "Call Center Overview", OverviewGrid(a)),
      OverviewTable(OverviewFigures(a)),
      OverviewNarrative(a),
      StandardKpis(a))
  }

  /** In the overview, the chart's four bars show the counts of the table's
      first four rows, headed by the number of calls. */
  lemma OverviewCountsAgree(a: Snapshot)
    ensures var r := OverviewReport(a);
            && |r.tableData.rows| == 8 && |r.chartData.grid| == 5
            && (forall i :: 0 <= i < 4 ==>
                  |r.chartData.grid[i + 1]| == |r.tableData.rows[i]| == 2 && r.chartData.grid[i + 1][1] == r.tableData.rows[i][1])
            && r.tableData.rows[0][1] == Num(a.totalCalls as real)
  {
    var fs := OverviewFigures(a);
    var t, g := OverviewTable(fs), OverviewGrid(a);
    assert OverviewReport(a).tableData == t && OverviewReport(a).chartData.grid == g;
    assert forall i :: 0 <= i < 4 ==> t.rows[i] == [Text(fs[i].metric), fs[i].shown];
  }

  /** The overview's row objects carry the snapshot's four rates as numbers. */
  lemma OverviewRatesCarried(a: Snapshot)
    ensures var t := OverviewReport(a).tableData;
            && |t.data| == 8 && (forall i :: 0 <= i < 8 ==> "ValueNumber" in t.data[i])
            && t.data[4]["ValueNumber"] == Num(a.resolutionRate)
            && t.data[5]["ValueNumber"] == Num(a.avgHandleTime)
            && t.data[6]["ValueNumber"] == Num(a.avgSatisfaction)
            && t.data[7]["ValueNumber"] == Num(a.firstCallResolutionRate)
  {
    assert OverviewReport(a).tableData == OverviewTable(OverviewFigures(a));
  }

  // ---------------------------------------------------------- dispatcher

  /** The templates built from the snapshot alone. */
  predicate FromSnapshot(i: Intent) {
    i != TestTable && i != AgentPerformance && i != CallRecordList
  }

  function SnapshotAnswer(i: Intent, a: Snapshot): (r: AnalyticsResponse)
    requires FromSnapshot(i) && a.totalCalls > 0
    ensures Consistent(r.tableData) && Rectangular(r.chartData.grid)
    ensures r.kpis == StandardKpis(a)
    ensures i == TimeTrends ==> r.textResponse == TimeNarrativeAsWritten
  {
    match i
    case DepartmentBreakdown => DepartmentReport(a)
    case CategoryAnalysis => CategoryReport(a)
    case PriorityAnalysis => PriorityReport(a)
    case PerformanceMetrics => PerformanceReport(a)
    case TimeTrends => SlotsHaveCalls(); TimeReport(Slots, StandardKpis(a))
    case Overview => OverviewReport(a)
  }

  /** The template of branch `i` over the calls `rs`. Whatever the branch,
      the chart grid is rectangular and the table's rows and row objects
      agree; every branch but the test branch returns the same four KPIs,
      headed by the number of calls. */
  function Dispatch(i: Intent, rs: seq<CallRecord>): (r: AnalyticsResponse)
    requires |rs| > 0
    ensures Consistent(r.tableData) && Rectangular(r.chartData.grid)
    ensures i != TestTable ==> r.kpis == StandardKpis(Analyze(rs))
  {
    match i
    case TestTable => TestReport()
    case AgentPerformance => AgentReport(rs)
    case CallRecordList => CallRecordReport(rs)
    case _ => SnapshotAnswer(i, Analyze(rs))
  }

  /** A trends query is answered with the hard-coded narrative, not one read
      off the hourly figures (`Trends.CorrectedTextDiffers` shows the two
      differ). */
  lemma TrendsAnswer(query: string, rs: seq<CallRecord>)
    requires |rs| > 0 && Route(query) == TimeTrends
    ensures Generate(query, rs).textResponse == TimeNarrativeAsWritten
  {
    var a := Analyze(rs);
    assert Generate(query, rs) == SnapshotAnswer(TimeTrends, a);
  }

  /** `generateChartAndTableData(query, getCallCenterAnalytics())` over the
      calls `rs`: the routed template. */
  function Generate(query: string, rs: seq<CallRecord>): (r: AnalyticsResponse)
    requires |rs| > 0
    ensures Consistent(r.tableData) && Rectangular(r.chartData.grid)
    ensures Route(query) != TestTable ==>
              r.kpis == StandardKpis(Analyze(rs)) && r.kpis[0].value == Num(|rs| as real)
  {
    Dispatch(Route(query), rs)
  }
}
