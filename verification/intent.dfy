/** Query routing of `generateChartAndTableData`: the lower-cased query is
    matched against nine keyword groups in a fixed order, and the first group
    with a keyword the query contains picks the report template. */
module Intent {
  import opened Strings

  datatype Intent =
    | TestTable
    | DepartmentBreakdown
    | CategoryAnalysis
    | PriorityAnalysis
    | PerformanceMetrics
    | TimeTrends
    | AgentPerformance
    | CallRecordList
    | Overview

  /** The position of a branch in the if-chain; the overview is the fall-through. */
  function Rank(i: Intent): nat {
    match i
    case TestTable => 0
    case DepartmentBreakdown => 1
    case CategoryAnalysis => 2
    case PriorityAnalysis => 3
    case PerformanceMetrics => 4
    case TimeTrends => 5
    case AgentPerformance => 6
    case CallRecordList => 7
    case Overview => 8
  }

  /** The keywords of each branch; the overview has none. */
  function Keywords(i: Intent): seq<string> {
    match i
    case TestTable => TestKeywords
    case DepartmentBreakdown => DepartmentKeywords
    case CategoryAnalysis => CategoryKeywords
    case PriorityAnalysis => PriorityKeywords
    case PerformanceMetrics => PerformanceKeywords
    case TimeTrends => TimeKeywords
    case AgentPerformance => AgentKeywords
    case CallRecordList => CallRecordKeywords
    case Overview => []
  }

  const TestKeywords: seq<string> := ["test table"]
  const DepartmentKeywords: seq<string> := ["department", "team", "breakdown"]
  const CategoryKeywords: seq<string> := ["category", "issue", "type"]
  const PriorityKeywords: seq<string> := ["priority", "urgent", "escalation"]
  const PerformanceKeywords: seq<string> := ["performance", "resolution", "satisfaction", "fcr"]
  const TimeKeywords: seq<string> := ["time", "trend", "daily", "hourly"]
  const AgentKeywords: seq<string> := ["agent performance", "agent data", "agent metrics"]
  const CallRecordKeywords: seq<string> := ["call details", "call records", "all calls", "call list"]

  predicate ContainsAny(s: string, kws: seq<string>) {
    exists k :: 0 <= k < |kws| && Contains(s, kws[k])
  }

  /** The lower-cased query holds one of the keywords of branch `i`. */
  predicate Matches(lq: string, i: Intent) {
    ContainsAny(lq, Keywords(i))
  }

  /** The if-chain of `generateChartAndTableData`, read top to bottom: the
      result is a branch whose keywords match, or the overview. */
  function Route(query: string): (r: Intent)
    ensures r != Overview ==> Matches(Lower(query), r)
  {
    var lq := Lower(query);
    if Matches(lq, TestTable) then TestTable
    else if Matches(lq, DepartmentBreakdown) then DepartmentBreakdown
    else if Matches(lq, CategoryAnalysis) then CategoryAnalysis
    else if Matches(lq, PriorityAnalysis) then PriorityAnalysis
    else if Matches(lq, PerformanceMetrics) then PerformanceMetrics
    else if Matches(lq, TimeTrends) then TimeTrends
    else if Matches(lq, AgentPerformance) then AgentPerformance
    else if Matches(lq, CallRecordList) then CallRecordList
    else Overview
  }

  /** The routed branch is the first match of the chain: no branch placed
      earlier matches, and the overview is chosen exactly when nothing
      matches. */
  lemma RouteIsFirstMatch(query: string)
    ensures forall j :: Rank(j) < Rank(Route(query)) ==> !Matches(Lower(query), j)
    ensures Route(query) == Overview <==> forall j :: !Matches(Lower(query), j)
  {
  }

  /** Any branch whose keywords match is chosen or shadowed by an earlier one. */
  lemma RouteNoLaterThanMatch(query: string, i: Intent)
    requires Matches(Lower(query), i)
    ensures Rank(Route(query)) <= Rank(i)
  {
    RouteIsFirstMatch(query);
  }

  /** Routing ignores letter case: a query and its lower-cased form route alike. */
  lemma RouteCaseInsensitive(query: string)
    ensures Route(Lower(query)) == Route(query)
  {
    LowerIdempotent(query);
  }

  /** "agent performance" contains "performance", so such a query is taken by
      the performance branch or an earlier one and never by the agent branch. */
  lemma AgentPerformanceShadowed(query: string)
    requires Contains(Lower(query), "agent performance")
    ensures Route(query) != AgentPerformance
    ensures Rank(Route(query)) <= Rank(PerformanceMetrics)
  {
    ContainsMiddle("agent ", "performance", "");
    assert "agent performance" == "agent " + "performance" + "";
    ContainsTransitive(Lower(query), "agent performance", "performance");
    assert Contains(Lower(query), Keywords(PerformanceMetrics)[0]);
    RouteNoLaterThanMatch(query, PerformanceMetrics);
  }

  /** "category breakdown" contains "breakdown", so unless the query is a test
      query it lands on the department branch, not the category branch. */
  lemma CategoryBreakdownGoesToDepartments(query: string)
    requires Contains(Lower(query), "category breakdown")
    requires !Contains(Lower(query), "test table")
    ensures Route(query) == DepartmentBreakdown
  {
    ContainsMiddle("category ", "breakdown", "");
    assert "category breakdown" == "category " + "breakdown" + "";
    ContainsTransitive(Lower(query), "category breakdown", "breakdown");
    assert Contains(Lower(query), Keywords(DepartmentBreakdown)[2]);
    RouteNoLaterThanMatch(query, DepartmentBreakdown);
    assert !Matches(Lower(query), TestTable);
  }

  /** No occurrence of `t` when no adjacent pair of `s` equals `t`'s first two
      characters. */
  lemma NoLeadingPair(s: string, t: string)
    requires |t| >= 2
    requires forall i :: 0 <= i < |s| - 1 ==> s[i] != t[0] || s[i + 1] != t[1]
    ensures !Contains(s, t)
  {
    forall i | 0 <= i <= |s| - |t|
      ensures !OccursAt(s, t, i)
    {
      assert s[i..i + |t|][0] == s[i];
      assert s[i..i + |t|][1] == s[i + 1];
    }
  }

  predicate NoUpper(s: string) {
    forall i :: 0 <= i < |s| ==> !('A' <= s[i] <= 'Z')
  }

  /** Lower-casing works piecewise. */
  lemma LowerAppend(a: string, b: string)
    ensures Lower(a + b) == Lower(a) + Lower(b)
  {
    var l, r := Lower(a + b), Lower(a) + Lower(b);
    forall i | 0 <= i < |l|
      ensures l[i] == r[i]
    {
      if i >= |a| {
        assert (a + b)[i] == b[i - |a|];
      }
    }
  }

  lemma LowerNoUpper(s: string)
    requires NoUpper(s)
    ensures Lower(s) == s
  {
  }

  lemma LowerTestChatQuery(q: string, a: string, b: string, c: string)
    requires q == "Show me department breakdown"
    requires a == "Show me " && b == "department" && c == " breakdown"
    ensures Lower(q) == "show me " + b + c
  {
    assert q == a + b + c;
    LowerAppend(a + b, c);
    LowerAppend(a, b);
    assert Lower(a) == "show me ";
    LowerNoUpper(b);
    LowerNoUpper(c);
  }

  lemma TestChatQueryNotTest(s: string)
    requires s == "show me " + "department" + " breakdown"
    ensures !Contains(s, "test table")
  {
    NoLeadingPair(s, "test table");
  }

  /** A query that names a department keyword and not the test keyword is a
      department query. */
  lemma DepartmentQuery(query: string, k: nat)
    requires k < |Keywords(DepartmentBreakdown)| && Contains(Lower(query), Keywords(DepartmentBreakdown)[k])
    requires !Contains(Lower(query), "test table")
    ensures Route(query) == DepartmentBreakdown
  {
    assert !Matches(Lower(query), TestTable);
  }

  lemma TestChatQueryFacts(q: string)
    requires q == "Show me department breakdown"
    ensures Contains(Lower(q), Keywords(DepartmentBreakdown)[0]) && !Contains(Lower(q), "test table")
  {
    LowerTestChatQuery(q, "Show me ", "department", " breakdown");
    ContainsMiddle("show me ", "department", " breakdown");
    assert Lower(q) == "show me " + "department" + " breakdown";
    TestChatQueryNotTest(Lower(q));
  }

  /** The query of the test-chat route is a department query. */
  lemma TestChatQueryRoute()
    ensures Route("Show me department breakdown") == DepartmentBreakdown
  {
    TestChatQueryFacts("Show me department breakdown");
    DepartmentQuery("Show me department breakdown", 0);
  }
}
