/** The analytics snapshot computed from the call records: status counts,
    averages over the calls that carry a value, three percentage rates and
    three count breakdowns. */
module Analytics {
  import opened Wrappers
  import opened Seqs
  import opened CallRecords
  import opened Breakdown

  /** `records.filter(call => call.status === s).length`. */
  function CountStatus(rs: seq<CallRecord>, s: Status): (n: nat)
    ensures n <= |rs|
  {
    if |rs| == 0 then 0 else (if rs[0].status == s then 1 else 0) + CountStatus(rs[1..], s)
  }

  /** `records.filter(call => call.firstCallResolution).length`. */
  function CountFirstCallResolved(rs: seq<CallRecord>): (n: nat)
    ensures n <= |rs|
  {
    if |rs| == 0 then 0 else (if rs[0].firstCallResolution then 1 else 0) + CountFirstCallResolved(rs[1..])
  }

  /** The number of calls whose `duration !== undefined`. */
  function DurationCount(rs: seq<CallRecord>): (n: nat)
    ensures n <= |rs|
  {
    if |rs| == 0 then 0 else (if rs[0].duration.Some? then 1 else 0) + DurationCount(rs[1..])
  }

  /** The sum of the defined durations. */
  function DurationSum(rs: seq<CallRecord>): (s: nat)
    ensures (forall i :: 0 <= i < |rs| ==> rs[i].duration.None?) ==> s == 0
  {
    if |rs| == 0 then 0 else rs[0].duration.GetOr(0) + DurationSum(rs[1..])
  }

  /** The number of calls whose `customerSatisfaction !== undefined`. */
  function SatisfactionCount(rs: seq<CallRecord>): (n: nat)
    ensures n <= |rs|
  {
    if |rs| == 0 then 0 else (if rs[0].customerSatisfaction.Some? then 1 else 0) + SatisfactionCount(rs[1..])
  }

  /** The sum of the defined satisfaction scores. */
  function SatisfactionSum(rs: seq<CallRecord>): (s: nat)
    ensures (forall i :: 0 <= i < |rs| ==> rs[i].customerSatisfaction.None?) ==> s == 0
  {
    if |rs| == 0 then 0 else rs[0].customerSatisfaction.GetOr(0) + SatisfactionSum(rs[1..])
  }

  /** An average that is 0 when nothing qualifies, as the source guards it. */
  function Mean(sum: nat, count: nat): (m: real)
    ensures m >= 0.0
    ensures count == 0 ==> m == 0.0
    ensures count > 0 ==> m * count as real == sum as real
  {
    if count > 0 then sum as real / count as real else 0.0
  }

  /** `(part / whole) * 100`; the source divides without a zero guard. */
  function Percent(part: nat, whole: nat): (p: real)
    requires whole > 0
    ensures 0.0 <= p
    ensures part <= whole ==> p <= 100.0
    ensures p * whole as real == part as real * 100.0
  {
    part as real / whole as real * 100.0
  }

  /** `avgHandleTime`: the mean duration of the calls that have one. */
  function AvgHandleTime(rs: seq<CallRecord>): (a: real)
    ensures a >= 0.0
    ensures DurationCount(rs) == 0 ==> a == 0.0
    ensures DurationCount(rs) > 0 ==> a * DurationCount(rs) as real == DurationSum(rs) as real
  {
    Mean(DurationSum(rs), DurationCount(rs))
  }

  /** `avgSatisfaction`: the mean score of the calls that have one. */
  function AvgSatisfaction(rs: seq<CallRecord>): (a: real)
    ensures a >= 0.0
    ensures SatisfactionCount(rs) == 0 ==> a == 0.0
    ensures SatisfactionCount(rs) > 0 ==> a * SatisfactionCount(rs) as real == SatisfactionSum(rs) as real
  {
    Mean(SatisfactionSum(rs), SatisfactionCount(rs))
  }

  function Categories(rs: seq<CallRecord>): (ks: seq<string>)
    ensures |ks| == |rs| && forall i :: 0 <= i < |rs| ==> ks[i] == rs[i].category
  {
    seq(|rs|, i requires 0 <= i < |rs| => rs[i].category)
  }

  function Departments(rs: seq<CallRecord>): (ks: seq<string>)
    ensures |ks| == |rs| && forall i :: 0 <= i < |rs| ==> ks[i] == rs[i].department
  {
    seq(|rs|, i requires 0 <= i < |rs| => rs[i].department)
  }

  function PriorityNames(rs: seq<CallRecord>): (ks: seq<string>)
    ensures |ks| == |rs| && forall i :: 0 <= i < |rs| ==> ks[i] == rs[i].priority.Name()
  {
    seq(|rs|, i requires 0 <= i < |rs| => rs[i].priority.Name())
  }

  datatype Snapshot = Snapshot(
    totalCalls: nat,
    resolvedCalls: nat,
    inProgressCalls: nat,
    escalatedCalls: nat,
    avgHandleTime: real,
    firstCallResolutionRate: real,
    avgSatisfaction: real,
    categoryBreakdown: seq<Entry>,
    departmentBreakdown: seq<Entry>,
    priorityBreakdown: seq<Entry>,
    resolutionRate: real,
    escalationRate: real)

  /** `getCallCenterAnalytics` over the records `rs`. The three rates divide
      by the record count unguarded, so the records must not be empty. */
  function Analyze(rs: seq<CallRecord>): (a: Snapshot)
    requires |rs| > 0
    ensures a.totalCalls == |rs|
    ensures a.resolvedCalls + a.inProgressCalls + a.escalatedCalls <= a.totalCalls
    ensures 0.0 <= a.resolutionRate <= 100.0
    ensures 0.0 <= a.escalationRate <= 100.0
    ensures 0.0 <= a.firstCallResolutionRate <= 100.0
    ensures Total(a.categoryBreakdown) == a.totalCalls
    ensures Total(a.departmentBreakdown) == a.totalCalls
    ensures Total(a.priorityBreakdown) == a.totalCalls
  {
    StatusPartition(rs);
    TallyFacts(Categories(rs));
    TallyFacts(Departments(rs));
    TallyFacts(PriorityNames(rs));
    var total := |rs|;
    var resolved := CountStatus(rs, Resolved);
    var escalated := CountStatus(rs, Escalated);
    Snapshot(
      total,
      resolved,
      CountStatus(rs, InProgress),
      escalated,
      AvgHandleTime(rs),
      Percent(CountFirstCallResolved(rs), total),
      AvgSatisfaction(rs),
      Tally(Categories(rs)),
      Tally(Departments(rs)),
      Tally(PriorityNames(rs)),
      Percent(resolved, total),
      Percent(escalated, total))
  }

  /** Every call has exactly one of the five statuses. */
  lemma {:induction false} StatusPartition(rs: seq<CallRecord>)
    ensures CountStatus(rs, Open) + CountStatus(rs, InProgress) + CountStatus(rs, Resolved)
            + CountStatus(rs, Escalated) + CountStatus(rs, Closed) == |rs|
  {
    if |rs| > 0 {
      StatusPartition(rs[1..]);
    }
  }

  /** Open and closed calls are counted by none of the three status figures. */
  lemma OpenAndClosedUncounted(rs: seq<CallRecord>)
    requires |rs| > 0
    ensures var a := Analyze(rs);
            a.resolvedCalls + a.inProgressCalls + a.escalatedCalls
            == a.totalCalls - CountStatus(rs, Open) - CountStatus(rs, Closed)
  {
    StatusPartition(rs);
  }

  /** A breakdown's keys are exactly the values the records carry, each once,
      in order of first occurrence, and each count is that value's frequency. */
  lemma BreakdownKeys(rs: seq<CallRecord>, key: string)
    requires |rs| > 0
    ensures var a := Analyze(rs);
            && (key in Keys(a.departmentBreakdown) <==> exists i :: 0 <= i < |rs| && rs[i].department == key)
            && (key in Keys(a.categoryBreakdown) <==> exists i :: 0 <= i < |rs| && rs[i].category == key)
            && (key in Keys(a.priorityBreakdown) <==> exists i :: 0 <= i < |rs| && rs[i].priority.Name() == key)
            && Distinct(Keys(a.departmentBreakdown)) && Distinct(Keys(a.categoryBreakdown))
            && Distinct(Keys(a.priorityBreakdown))
            && Lookup(a.departmentBreakdown, key) == multiset(Departments(rs))[key]
            && Lookup(a.categoryBreakdown, key) == multiset(Categories(rs))[key]
            && Lookup(a.priorityBreakdown, key) == multiset(PriorityNames(rs))[key]
  {
    var a := Analyze(rs);
    TallyOf(Departments(rs), key);
    TallyOf(Categories(rs), key);
    TallyOf(PriorityNames(rs), key);
    assert key in Departments(rs) <==> exists i :: 0 <= i < |rs| && rs[i].department == key by {
      if exists i :: 0 <= i < |rs| && rs[i].department == key {
        var i :| 0 <= i < |rs| && rs[i].department == key;
        assert Departments(rs)[i] == key;
      }
    }
    assert key in Categories(rs) <==> exists i :: 0 <= i < |rs| && rs[i].category == key by {
      if exists i :: 0 <= i < |rs| && rs[i].category == key {
        var i :| 0 <= i < |rs| && rs[i].category == key;
        assert Categories(rs)[i] == key;
      }
    }
    assert key in PriorityNames(rs) <==> exists i :: 0 <= i < |rs| && rs[i].priority.Name() == key by {
      if exists i :: 0 <= i < |rs| && rs[i].priority.Name() == key {
        var i :| 0 <= i < |rs| && rs[i].priority.Name() == key;
        assert PriorityNames(rs)[i] == key;
      }
    }
  }

  /** One key of one tally: present exactly when it occurs, with its
      frequency, among distinct keys. */
  lemma TallyOf(keys: seq<string>, key: string)
    ensures key in Keys(Tally(keys)) <==> key in keys
    ensures Distinct(Keys(Tally(keys)))
    ensures Lookup(Tally(keys), key) == multiset(keys)[key]
  {
    TallyFacts(keys);
  }

  lemma {:induction false} DurationAppend(a: seq<CallRecord>, b: seq<CallRecord>)
    ensures DurationSum(a + b) == DurationSum(a) + DurationSum(b)
    ensures DurationCount(a + b) == DurationCount(a) + DurationCount(b)
  {
    if |a| == 0 {
      assert a + b == b;
    } else {
      assert (a + b)[1..] == a[1..] + b;
      DurationAppend(a[1..], b);
    }
  }

  lemma {:induction false} SatisfactionAppend(a: seq<CallRecord>, b: seq<CallRecord>)
    ensures SatisfactionSum(a + b) == SatisfactionSum(a) + SatisfactionSum(b)
    ensures SatisfactionCount(a + b) == SatisfactionCount(a) + SatisfactionCount(b)
  {
    if |a| == 0 {
      assert a + b == b;
    } else {
      assert (a + b)[1..] == a[1..] + b;
      SatisfactionAppend(a[1..], b);
    }
  }

  lemma {:induction false} CountStatusAppend(a: seq<CallRecord>, b: seq<CallRecord>, s: Status)
    ensures CountStatus(a + b, s) == CountStatus(a, s) + CountStatus(b, s)
  {
    if |a| == 0 {
      assert a + b == b;
    } else {
      assert (a + b)[1..] == a[1..] + b;
      CountStatusAppend(a[1..], b, s);
    }
  }

  lemma {:induction false} FirstCallResolvedAppend(a: seq<CallRecord>, b: seq<CallRecord>)
    ensures CountFirstCallResolved(a + b) == CountFirstCallResolved(a) + CountFirstCallResolved(b)
  {
    if |a| == 0 {
      assert a + b == b;
    } else {
      assert (a + b)[1..] == a[1..] + b;
      FirstCallResolvedAppend(a[1..], b);
    }
  }

  /** The averages only see calls that carry the value: adding a call without
      a duration (or without a score) leaves that average unchanged. */
  lemma AveragesIgnoreMissing(rs: seq<CallRecord>, r: CallRecord)
    ensures r.duration.None? ==> AvgHandleTime(rs + [r]) == AvgHandleTime(rs)
    ensures r.customerSatisfaction.None? ==> AvgSatisfaction(rs + [r]) == AvgSatisfaction(rs)
  {
    DurationAppend(rs, [r]);
    SatisfactionAppend(rs, [r]);
    assert [r][1..] == [];
  }

  /** With every score on the 1-5 scale the average score lies in [0, 5]. */
  lemma {:induction false} SatisfactionBounded(rs: seq<CallRecord>)
    requires forall i :: 0 <= i < |rs| ==> rs[i].customerSatisfaction.GetOr(0) <= 5
    ensures SatisfactionSum(rs) <= 5 * SatisfactionCount(rs)
    ensures 0.0 <= AvgSatisfaction(rs) <= 5.0
  {
    if |rs| > 0 {
      SatisfactionBounded(rs[1..]);
      var s, n := SatisfactionSum(rs), SatisfactionCount(rs);
      if n > 0 {
        assert s as real <= 5.0 * n as real;
        DivBound(s as real, n as real, 5.0);
      }
    }
  }

  lemma DivBound(s: real, n: real, m: real)
    requires n > 0.0 && s <= m * n
    ensures s / n <= m
  {
  }

  // ------------------------------------------------- the snapshot's figures

  /** `call => call.status === s`. */
  function HasStatus(s: Status): CallRecord -> bool {
    (r: CallRecord) => r.status == s
  }

  /** `call => call.firstCallResolution`. */
  predicate ResolvedFirstTime(r: CallRecord) {
    r.firstCallResolution
  }

  /** `call => call.duration !== undefined`. */
  predicate HasDuration(r: CallRecord) {
    r.duration.Some?
  }

  /** `call => call.customerSatisfaction !== undefined`. */
  predicate HasSatisfaction(r: CallRecord) {
    r.customerSatisfaction.Some?
  }

  lemma {:induction false} CountStatusIsFilter(rs: seq<CallRecord>, s: Status)
    ensures CountStatus(rs, s) == |Filter(rs, HasStatus(s))|
  {
    if |rs| > 0 {
      CountStatusIsFilter(rs[1..], s);
    }
  }

  lemma {:induction false} FirstCallResolvedIsFilter(rs: seq<CallRecord>)
    ensures CountFirstCallResolved(rs) == |Filter(rs, ResolvedFirstTime)|
  {
    if |rs| > 0 {
      FirstCallResolvedIsFilter(rs[1..]);
    }
  }

  lemma {:induction false} DurationCountIsFilter(rs: seq<CallRecord>)
    ensures DurationCount(rs) == |Filter(rs, HasDuration)|
  {
    if |rs| > 0 {
      DurationCountIsFilter(rs[1..]);
    }
  }

  lemma {:induction false} SatisfactionCountIsFilter(rs: seq<CallRecord>)
    ensures SatisfactionCount(rs) == |Filter(rs, HasSatisfaction)|
  {
    if |rs| > 0 {
      SatisfactionCountIsFilter(rs[1..]);
    }
  }

  /** The status figures count exact status matches. */
  lemma AnalyzeCounts(rs: seq<CallRecord>)
    requires |rs| > 0
    ensures var a := Analyze(rs);
            && a.resolvedCalls == |Filter(rs, HasStatus(Resolved))|
            && a.inProgressCalls == |Filter(rs, HasStatus(InProgress))|
            && a.escalatedCalls == |Filter(rs, HasStatus(Escalated))|
  {
    var a := Analyze(rs);
    assert a.resolvedCalls == CountStatus(rs, Resolved);
    assert a.inProgressCalls == CountStatus(rs, InProgress);
    assert a.escalatedCalls == CountStatus(rs, Escalated);
    CountStatusIsFilter(rs, Resolved);
    CountStatusIsFilter(rs, InProgress);
    CountStatusIsFilter(rs, Escalated);
  }

  /** The three rates are count / total × 100, each count taken by its own
      `filter`. */
  lemma AnalyzeRates(rs: seq<CallRecord>)
    requires |rs| > 0
    ensures var a := Analyze(rs);
            && a.resolutionRate == |Filter(rs, HasStatus(Resolved))| as real / |rs| as real * 100.0
            && a.escalationRate == |Filter(rs, HasStatus(Escalated))| as real / |rs| as real * 100.0
            && a.firstCallResolutionRate == |Filter(rs, ResolvedFirstTime)| as real / |rs| as real * 100.0
  {
    CountStatusIsFilter(rs, Resolved);
    CountStatusIsFilter(rs, Escalated);
    FirstCallResolvedIsFilter(rs);
  }

  /** Each average is taken over the calls that carry the value: the sum of
      their values over their number, and 0 when none does. */
  lemma AnalyzeAverages(rs: seq<CallRecord>)
    requires |rs| > 0
    ensures var a := Analyze(rs);
            var timed, scored := Filter(rs, HasDuration), Filter(rs, HasSatisfaction);
            && (|timed| > 0 ==> a.avgHandleTime == DurationSum(timed) as real / |timed| as real)
            && (|timed| == 0 ==> a.avgHandleTime == 0.0)
            && (|scored| > 0 ==> a.avgSatisfaction == SatisfactionSum(scored) as real / |scored| as real)
            && (|scored| == 0 ==> a.avgSatisfaction == 0.0)
  {
    DurationCountIsFilter(rs);
    SatisfactionCountIsFilter(rs);
    DurationSumIsFilter(rs);
    SatisfactionSumIsFilter(rs);
  }

  /** Summing over the calls that have a duration gives the same total as
      summing `duration || 0` over all calls. */
  lemma {:induction false} DurationSumIsFilter(rs: seq<CallRecord>)
    ensures DurationSum(Filter(rs, HasDuration)) == DurationSum(rs)
  {
    if |rs| > 0 {
      DurationSumIsFilter(rs[1..]);
      var t := Filter(rs[1..], HasDuration);
      if HasDuration(rs[0]) {
        assert ([rs[0]] + t)[1..] == t;
      }
    }
  }

  lemma {:induction false} SatisfactionSumIsFilter(rs: seq<CallRecord>)
    ensures SatisfactionSum(Filter(rs, HasSatisfaction)) == SatisfactionSum(rs)
  {
    if |rs| > 0 {
      SatisfactionSumIsFilter(rs[1..]);
      var t := Filter(rs[1..], HasSatisfaction);
      if HasSatisfaction(rs[0]) {
        assert ([rs[0]] + t)[1..] == t;
      }
    }
  }
}
