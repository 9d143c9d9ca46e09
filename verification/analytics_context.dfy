/** The analytics context: the analytics on show and a short history of
    earlier answers, most recent first, at most one per query. */
module AnalyticsHistory {
  import opened Wrappers
  import opened Seqs
  import opened Response

  /** An assistant reply as the context receives it; each visual part may be
      missing. */
  datatype Reply = Reply(
    message: string,
    chartData: Option<ChartData>,
    tableData: Option<TableData>,
    kpis: Option<seq<Kpi>>,
    timestamp: string)

  /** A stored analytics entry: the reply's parts and the query that produced
      it, when known. */
  datatype Entry = Entry(
    message: string,
    chartData: Option<ChartData>,
    tableData: Option<TableData>,
    kpis: Option<seq<Kpi>>,
    timestamp: string,
    query: Option<string>)

  datatype Context = Context(current: Option<Entry>, history: seq<Entry>)

  const Empty: Context := Context(None, [])

  /** The most entries the history keeps. */
  const HistoryCap: nat := 10

  /** Objects and arrays are truthy, so any present part counts, even an
      empty KPI list. */
  predicate HasVisual(e: Entry) {
    e.chartData.Some? || e.tableData.Some? || e.kpis.Some?
  }

  /** No two history entries carry the same query. */
  predicate DistinctQueries(h: seq<Entry>) {
    forall i, j :: 0 <= i < j < |h| ==> h[i].query != h[j].query
  }

  function Stamp(query: string, reply: Reply): (e: Entry)
    ensures e.query == Some(query) && e.message == reply.message && e.timestamp == reply.timestamp
    ensures e.chartData == reply.chartData && e.tableData == reply.tableData && e.kpis == reply.kpis
  {
    Entry(reply.message, reply.chartData, reply.tableData, reply.kpis, reply.timestamp, Some(query))
  }

  /** The history without the entries of `query`. */
  function Others(h: seq<Entry>, query: string): (r: seq<Entry>)
    ensures forall x :: x in r <==> x in h && x.query != Some(query)
    ensures IsSubsequence(r, h)
  {
    FilterIsSubsequence(h, (x: Entry) => x.query != Some(query));
    Filter(h, (x: Entry) => x.query != Some(query))
  }

  /** `updateAnalytics`: the stamped reply is shown; when it has a chart, a
      table or KPIs it also goes to the front of the history, replacing any
      entry of the same query, and the history is cut to `HistoryCap`. */
  function UpdateAnalytics(c: Context, query: string, reply: Reply): (r: Context)
    ensures r.current == Some(Stamp(query, reply))
    ensures !HasVisual(Stamp(query, reply)) ==> r.history == c.history
    ensures |c.history| <= HistoryCap ==> |r.history| <= HistoryCap
    ensures HasVisual(Stamp(query, reply)) ==>
              && |r.history| == (if |Others(c.history, query)| < HistoryCap then |Others(c.history, query)| + 1 else HistoryCap)
              && r.history[0] == Stamp(query, reply)
              && r.history[1..] == Others(c.history, query)[..|r.history| - 1]
  {
    var e := Stamp(query, reply);
    if HasVisual(e) then
      var rest := Others(c.history, query);
      var h := ([e] + rest)[..if 1 + |rest| < HistoryCap then 1 + |rest| else HistoryCap];
      assert h[1..] == rest[..|h| - 1];
      Context(Some(e), h)
    else Context(Some(e), c.history)
  }

  /** Behind the new entry come only entries of other queries, in their
      earlier order. */
  lemma UpdateKeepsOrder(c: Context, query: string, reply: Reply)
    requires HasVisual(Stamp(query, reply))
    ensures var h := UpdateAnalytics(c, query, reply).history;
            && 1 <= |h| <= HistoryCap
            && (forall i :: 1 <= i < |h| ==> h[i].query != Some(query))
            && IsSubsequence(h[1..], c.history)
  {
    var h := UpdateAnalytics(c, query, reply).history;
    var rest := Others(c.history, query);
    assert h[1..] == rest[..|h| - 1];
    assert forall i :: 1 <= i < |h| ==> h[i] in rest by {
      forall i | 1 <= i < |h|
        ensures h[i] in rest
      {
        assert h[i] == rest[i - 1];
      }
    }
    PrefixIsSubsequence(rest, |h| - 1);
    SubsequenceTransitive(h[1..], rest, c.history);
  }

  /** The entries kept behind the new one are exactly the other queries'
      entries, as long as they fit. */
  lemma {:induction false} UpdateKeepsOthers(c: Context, query: string, reply: Reply)
    requires HasVisual(Stamp(query, reply))
    requires |Others(c.history, query)| < HistoryCap
    ensures forall x :: x in UpdateAnalytics(c, query, reply).history[1..] <==> x in c.history && x.query != Some(query)
  {
    var rest := Others(c.history, query);
    assert UpdateAnalytics(c, query, reply).history[1..] == rest;
  }

  /** `Others` keeps every entry of another query as often as the history
      holds it, and no entry of `query`. */
  lemma OthersCount(h: seq<Entry>, query: string, x: Entry)
    ensures multiset(Others(h, query))[x] == if x.query != Some(query) then multiset(h)[x] else 0
  {
    FilterCount(h, (e: Entry) => e.query != Some(query), x);
  }

  /** One step of `Others`: the first entry is kept exactly when it belongs
      to another query. */
  lemma OthersStep(h: seq<Entry>, query: string)
    requires |h| > 0
    ensures Others(h, query) == if h[0].query != Some(query) then [h[0]] + Others(h[1..], query) else Others(h[1..], query)
  {
  }

  /** Filtering keeps queries distinct. */
  lemma {:induction false} OthersDistinct(h: seq<Entry>, query: string)
    requires DistinctQueries(h)
    ensures DistinctQueries(Others(h, query))
  {
    if |h| > 0 {
      var tail := h[1..];
      assert DistinctQueries(tail) by {
        assert forall i :: 0 <= i < |tail| ==> tail[i] == h[i + 1];
      }
      OthersDistinct(tail, query);
      OthersStep(h, query);
      if h[0].query != Some(query) {
        var t := Others(tail, query);
        forall j | 0 <= j < |t|
          ensures h[0].query != t[j].query
        {
          assert t[j] in tail;
          var k :| 0 <= k < |tail| && tail[k] == t[j];
          assert h[k + 1] == t[j];
        }
        assert DistinctQueries([h[0]] + t);
      }
    }
  }

  /** An update keeps one history entry per query. */
  lemma {:induction false} UpdateKeepsDistinct(c: Context, query: string, reply: Reply)
    requires DistinctQueries(c.history)
    ensures DistinctQueries(UpdateAnalytics(c, query, reply).history)
  {
    var r := UpdateAnalytics(c, query, reply);
    if HasVisual(Stamp(query, reply)) {
      var rest := Others(c.history, query);
      OthersDistinct(c.history, query);
      assert r.history[1..] == rest[..|r.history| - 1];
      forall i, j | 0 <= i < j < |r.history|
        ensures r.history[i].query != r.history[j].query
      {
        if i > 0 {
          assert r.history[i] == rest[i - 1] && r.history[j] == rest[j - 1];
        }
      }
    }
  }

  /** `selectAnalytics`: shows a chosen entry; the history is left alone. */
  function SelectAnalytics(c: Context, e: Entry): (r: Context)
    ensures r.current == Some(e) && r.history == c.history
  {
    c.(current := Some(e))
  }
}
