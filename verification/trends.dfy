/** The time-trends branch of `generateChartAndTableData`: eight fixed
    hourly slots of incoming and resolved calls, a line chart, a table with a
    per-slot resolution rate, and a narrative about the busiest, best and
    quietest hours. */
module Trends {
  import opened Format
  import opened Analytics
  import opened Response
  import opened Strings

  datatype Slot = Slot(hour: string, incoming: nat, resolved: nat)

  /** The hourly figures the branch hard-codes. */
  const Slots: seq<Slot> := [
    Slot("9 AM", 15, 12), Slot("10 AM", 22, 18), Slot("11 AM", 28, 24), Slot("12 PM", 35, 30),
    Slot("1 PM", 32, 28), Slot("2 PM", 25, 22), Slot("3 PM", 30, 26), Slot("4 PM", 20, 18)]

  predicate HasCalls(slots: seq<Slot>) {
    forall i :: 0 <= i < |slots| ==> slots[i].incoming > 0
  }

  /** `(resolved / incoming) * 100`. */
  function Rate(s: Slot): real
    requires s.incoming > 0
  {
    Percent(s.resolved, s.incoming)
  }

  const TimeHeaders: seq<string> := ["Hour", "Incoming", "Resolved", "Resolution Rate"]

  function SlotRow(s: Slot): Row
    requires s.incoming > 0
  {
    [Text(s.hour), Num(s.incoming as real), Num(s.resolved as real), Text(Fixed1(Rate(s)) + "%")]
  }

  function SlotObject(s: Slot): (o: RowObject)
    requires s.incoming > 0
    ensures RowMatches(TimeHeaders, SlotRow(s), o)
    ensures "ResolutionRateValue" in o && o["ResolutionRateValue"] == Num(Rate(s))
  {
    assert forall i, j :: 0 <= i < j < |TimeHeaders| ==> TimeHeaders[i] != TimeHeaders[j];
    assert "ResolutionRateValue" !in TimeHeaders;
    RowObjectOf(TimeHeaders, SlotRow(s), map["ResolutionRateValue" := Num(Rate(s))])
  }

  /** The index of the first slot with the highest resolution rate. */
  function BestRate(slots: seq<Slot>): (k: nat)
    requires |slots| > 0 && HasCalls(slots)
    ensures k < |slots|
    ensures forall j :: 0 <= j < |slots| ==> Rate(slots[j]) <= Rate(slots[k])
    ensures forall j :: 0 <= j < k ==> Rate(slots[j]) < Rate(slots[k])
  {
    if |slots| == 1 then 0
    else
      var k := BestRate(slots[1..]) + 1;
      assert forall j :: 1 <= j < |slots| ==> slots[j] == slots[1..][j - 1];
      if Rate(slots[0]) >= Rate(slots[k]) then 0 else k
  }

  /** The index of the first slot with the fewest incoming calls. */
  function LowestVolume(slots: seq<Slot>): (k: nat)
    requires |slots| > 0
    ensures k < |slots|
    ensures forall j :: 0 <= j < |slots| ==> slots[k].incoming <= slots[j].incoming
    ensures forall j :: 0 <= j < k ==> slots[k].incoming < slots[j].incoming
  {
    if |slots| == 1 then 0
    else
      var k := LowestVolume(slots[1..]) + 1;
      assert forall j :: 1 <= j < |slots| ==> slots[j] == slots[1..][j - 1];
      if slots[0].incoming <= slots[k].incoming then 0 else k
  }

  const TrendsHeading: string := "\U{1F4C8} **Time-based Trends:**\n\n\U{2022} Peak hours: 12 PM - 1 PM\n"
  const TrendsInsight: string :=
    "\n\n**Insights:** Lunch hours show highest call volume. Consider staffing adjustments during peak times."

  /** The text before the best-rate slot's name. */
  const BestLineLead: string := TrendsHeading + "\U{2022} Best resolution rate: "

  /** The narrative naming `best` (with its `rate`) and `lowest`. */
  function Narrative(best: string, rate: string, lowest: string): string {
    BestLineLead + best + (" (" + rate + "%)\n\U{2022} Lowest volume: " + lowest + TrendsInsight)
  }

  /** The narrative exactly as the branch writes it: 11 AM named as the best
      resolution rate and 4 PM as the lowest volume. */
  const TimeNarrativeAsWritten: string := Narrative("11 AM", "85.7", "4 PM")

  /** The as-written claims are false of the slots beside them: 4 PM resolves
      90% against 11 AM's 85.7%, and 9 AM has fewer calls than 4 PM. */
  lemma TimeNarrativeMisreports()
    ensures Slots[2].hour == "11 AM" && Slots[7].hour == "4 PM" && Slots[0].hour == "9 AM"
    ensures Rate(Slots[2]) < Rate(Slots[7])
    ensures Slots[0].incoming < Slots[7].incoming
  {
    assert Rate(Slots[2]) == 24.0 / 28.0 * 100.0;
    assert Rate(Slots[7]) == 90.0;
  }

  /** The peak-hours line is right: 12 PM and 1 PM carry the two largest
      volumes. */
  lemma PeakHoursHold()
    ensures Slots[3].hour == "12 PM" && Slots[4].hour == "1 PM"
    ensures forall j :: 0 <= j < |Slots| && j != 3 && j != 4 ==>
              Slots[j].incoming < Slots[4].incoming < Slots[3].incoming
  {
  }

  /** The narrative with the best-rate and lowest-volume lines read off the
      slots themselves. */
  function TimeNarrative(slots: seq<Slot>): (text: string)
    requires |slots| > 0 && HasCalls(slots)
    ensures StartsWith(text, BestLineLead)
  {
    var b := slots[BestRate(slots)];
    Narrative(b.hour, Fixed1(Rate(b)), slots[LowestVolume(slots)].hour)
  }

  /** A slot whose rate beats every other slot's is the one `BestRate` picks. */
  lemma BestRateIs(slots: seq<Slot>, k: nat)
    requires |slots| > 0 && HasCalls(slots) && k < |slots|
    requires forall j :: 0 <= j < |slots| && j != k ==> Rate(slots[j]) < Rate(slots[k])
    ensures BestRate(slots) == k
  {
  }

  /** A slot quieter than every other slot is the one `LowestVolume` picks. */
  lemma LowestVolumeIs(slots: seq<Slot>, k: nat)
    requires |slots| > 0 && k < |slots|
    requires forall j :: 0 <= j < |slots| && j != k ==> slots[k].incoming < slots[j].incoming
    ensures LowestVolume(slots) == k
  {
  }

  /** When one slot has the best rate and one the fewest calls, the
      narrative names exactly those two, with the best slot's rate. */
  lemma TimeNarrativeNames(slots: seq<Slot>, b: nat, l: nat)
    requires |slots| > 0 && HasCalls(slots) && b < |slots| && l < |slots|
    requires forall j :: 0 <= j < |slots| && j != b ==> Rate(slots[j]) < Rate(slots[b])
    requires forall j :: 0 <= j < |slots| && j != l ==> slots[l].incoming < slots[j].incoming
    ensures TimeNarrative(slots) == Narrative(slots[b].hour, Fixed1(Rate(slots[b])), slots[l].hour)
  {
    BestRateIs(slots, b);
    LowestVolumeIs(slots, l);
  }

  /** The hard-coded rates: 4 PM resolves 90%, every other slot less. */
  lemma SlotRates(slots: seq<Slot>)
    requires slots == Slots
    ensures HasCalls(slots) && Rate(slots[7]) == 90.0
    ensures forall j :: 0 <= j < 7 ==> Rate(slots[j]) < 90.0
  {
    assert Rate(slots[0]) == 80.0;
    assert Rate(slots[1]) < 90.0 by { assert Rate(slots[1]) == 18.0 / 22.0 * 100.0; }
    assert Rate(slots[2]) < 90.0 by { assert Rate(slots[2]) == 24.0 / 28.0 * 100.0; }
    assert Rate(slots[3]) < 90.0 by { assert Rate(slots[3]) == 30.0 / 35.0 * 100.0; }
    assert Rate(slots[4]) == 87.5;
    assert Rate(slots[5]) == 88.0;
    assert Rate(slots[6]) < 90.0 by { assert Rate(slots[6]) == 26.0 / 30.0 * 100.0; }
  }

  /** On the hard-coded slots the corrected narrative names 4 PM as the best
      resolution rate and 9 AM as the lowest volume. */
  lemma NamesRightSlots(slots: seq<Slot>)
    requires slots == Slots
    ensures |slots| > 0 && HasCalls(slots)
    ensures BestRate(slots) == 7 && LowestVolume(slots) == 0
  {
    BestIsFourPm(slots);
    LowestIsNineAm(slots);
  }

  lemma LowestIsNineAm(slots: seq<Slot>)
    requires slots == Slots
    ensures |slots| > 0 && LowestVolume(slots) == 0
  {
    SlotVolumes(slots);
    LowestVolumeIs(slots, 0);
  }

  lemma BestIsFourPm(slots: seq<Slot>)
    requires slots == Slots
    ensures |slots| > 0 && HasCalls(slots) && BestRate(slots) == 7
  {
    SlotRates(slots);
    BestRateIs(slots, 7);
  }

  lemma SlotVolumes(slots: seq<Slot>)
    requires slots == Slots
    ensures |slots| == 8 && forall j :: 1 <= j < 8 ==> slots[0].incoming < slots[j].incoming
  {
  }

  lemma TimeNarrativeNamesRightSlots()
    ensures Slots[BestRate(Slots)].hour == "4 PM" && Slots[LowestVolume(Slots)].hour == "9 AM"
  {
    NamesRightSlots(Slots);
  }

  /** The text the branch returns is not the corrected narrative: the two
      differ at the best-rate line, where one names 11 AM and the other 4 PM. */
  lemma CorrectedTextDiffers(slots: seq<Slot>)
    requires slots == Slots
    ensures |slots| > 0 && HasCalls(slots)
    ensures TimeNarrative(slots) != TimeNarrativeAsWritten
  {
    NamesRightSlots(slots);
    var b := slots[7];
    assert b.hour == "4 PM";
    var t := TimeNarrative(slots);
    assert t == Narrative(b.hour, Fixed1(Rate(b)), slots[0].hour);
    NarrativeNamesBest(b.hour, Fixed1(Rate(b)), slots[0].hour);
    NarrativeNamesBest("11 AM", "85.7", "4 PM");
    assert t[|BestLineLead|] == '4';
  }

  /** The best slot's name starts right after the lead. */
  lemma NarrativeNamesBest(best: string, rate: string, lowest: string)
    requires |best| > 0
    ensures |BestLineLead| < |Narrative(best, rate, lowest)|
    ensures Narrative(best, rate, lowest)[|BestLineLead|] == best[0]
  {
  }

  /** The chart rows: hour, incoming and resolved per slot. */
  function SlotLines(slots: seq<Slot>): (g: seq<Row>)
    ensures |g| == |slots|
    ensures forall i :: 0 <= i < |slots| ==> g[i] == [Text(slots[i].hour), Num(slots[i].incoming as real), Num(slots[i].resolved as real)]
  {
    seq(|slots|, i requires 0 <= i < |slots| => [Text(slots[i].hour), Num(slots[i].incoming as real), Num(slots[i].resolved as real)])
  }

  /** The table: one row per slot, with the slot's resolution rate. */
  function SlotTable(slots: seq<Slot>): (t: TableData)
    requires HasCalls(slots)
    ensures Consistent(t)
    ensures |t.rows| == |slots|
    ensures forall i :: 0 <= i < |slots| ==> |t.rows[i]| == 4 && t.rows[i][..3] == SlotLines(slots)[i]
    ensures forall i :: 0 <= i < |slots| ==> "ResolutionRateValue" in t.data[i] && t.data[i]["ResolutionRateValue"] == Num(Rate(slots[i]))
  {
    TableData("Hourly Call Trends", TimeHeaders,
      seq(|slots|, i requires 0 <= i < |slots| => SlotRow(slots[i])),
      seq(|slots|, i requires 0 <= i < |slots| => SlotObject(slots[i])))
  }

  /** The time branch over the hourly `slots` (the hard-coded `Slots` in the
      source). The KPI list is the standard one, passed in. The narrative is
      the hard-coded text, whatever the slots say. */
  function TimeReport(slots: seq<Slot>, kpis: seq<Kpi>): (r: AnalyticsResponse)
    requires |slots| > 0 && HasCalls(slots)
    ensures Consistent(r.tableData) && Rectangular(r.chartData.grid)
    ensures |r.tableData.rows| == |slots| && |r.chartData.grid| == |slots| + 1
    ensures forall i :: 0 <= i < |slots| ==> |r.tableData.rows[i]| == 4 && r.tableData.rows[i][..3] == r.chartData.grid[i + 1]
    ensures r.kpis == kpis
    ensures r.textResponse == TimeNarrativeAsWritten
  {
    var header := [Text("Hour"), Text("Incoming Calls"), Text("Resolved Calls")];
    HeaderedRectangular(header, SlotLines(slots));
    AnalyticsResponse(
      ChartData(LineChart, "Hourly Call Volume", [header] + SlotLines(slots)),
      SlotTable(slots),
      TimeNarrativeAsWritten,
      kpis)
  }

  lemma SlotsHaveCalls()
    ensures |Slots| > 0 && HasCalls(Slots)
  {
  }
}
