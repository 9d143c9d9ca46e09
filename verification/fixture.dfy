/** The analytics of the six-call fixture, worked out: the figures the
    test-chat route's query is answered with. */
module Fixture {
  import opened Wrappers
  import opened CallRecords
  import opened Analytics
  import opened Breakdown

  /** The fields of the fixture the figures depend on. */
  lemma SampleFields(rs: seq<CallRecord>)
    requires rs == SampleCallCenterData
    ensures |rs| == 6
    ensures rs[0].status == Resolved && rs[1].status == Resolved && rs[2].status == Closed
    ensures rs[3].status == Escalated && rs[4].status == Resolved && rs[5].status == InProgress
    ensures rs[0].firstCallResolution && rs[1].firstCallResolution && rs[2].firstCallResolution
    ensures !rs[3].firstCallResolution && rs[4].firstCallResolution && !rs[5].firstCallResolution
    ensures rs[0].duration == Some(15) && rs[1].duration == Some(13) && rs[2].duration == Some(12)
    ensures rs[3].duration == Some(45) && rs[4].duration == Some(8) && rs[5].duration.None?
    ensures rs[0].customerSatisfaction == Some(5) && rs[1].customerSatisfaction == Some(4)
    ensures rs[2].customerSatisfaction == Some(4) && rs[3].customerSatisfaction == Some(2)
    ensures rs[4].customerSatisfaction == Some(5) && rs[5].customerSatisfaction.None?
  {
  }

  /** The status and first-call counts of six calls with the fixture's
      statuses and first-call flags. */
  lemma StatusCounts(rs: seq<CallRecord>)
    requires |rs| == 6
    requires rs[0].status == Resolved && rs[1].status == Resolved && rs[2].status == Closed
    requires rs[3].status == Escalated && rs[4].status == Resolved && rs[5].status == InProgress
    requires rs[0].firstCallResolution && rs[1].firstCallResolution && rs[2].firstCallResolution
    requires !rs[3].firstCallResolution && rs[4].firstCallResolution && !rs[5].firstCallResolution
    ensures CountStatus(rs, Resolved) == 3 && CountStatus(rs, Escalated) == 1 && CountStatus(rs, InProgress) == 1
    ensures CountFirstCallResolved(rs) == 4
  {
    assert rs[5..][1..] == [];
    assert rs[4..][1..] == rs[5..];
    assert rs[3..][1..] == rs[4..];
    assert rs[2..][1..] == rs[3..];
    assert rs[1..][1..] == rs[2..];
    assert rs[0..] == rs;
    assert CountStatus(rs[4..], Resolved) == 1 && CountStatus(rs[2..], Resolved) == 1;
    assert CountStatus(rs[4..], Escalated) == 0 && CountStatus(rs[2..], Escalated) == 1;
    assert CountStatus(rs[4..], InProgress) == 1 && CountStatus(rs[2..], InProgress) == 1;
    assert CountFirstCallResolved(rs[4..]) == 1 && CountFirstCallResolved(rs[2..]) == 2;
  }

  /** The duration and score figures of six calls with the fixture's values. */
  lemma ValueSums(rs: seq<CallRecord>)
    requires |rs| == 6
    requires rs[0].duration == Some(15) && rs[1].duration == Some(13) && rs[2].duration == Some(12)
    requires rs[3].duration == Some(45) && rs[4].duration == Some(8) && rs[5].duration.None?
    requires rs[0].customerSatisfaction == Some(5) && rs[1].customerSatisfaction == Some(4)
    requires rs[2].customerSatisfaction == Some(4) && rs[3].customerSatisfaction == Some(2)
    requires rs[4].customerSatisfaction == Some(5) && rs[5].customerSatisfaction.None?
    ensures DurationCount(rs) == 5 && DurationSum(rs) == 93
    ensures SatisfactionCount(rs) == 5 && SatisfactionSum(rs) == 20
  {
    assert rs[5..][1..] == [];
    assert rs[4..][1..] == rs[5..];
    assert rs[3..][1..] == rs[4..];
    assert rs[2..][1..] == rs[3..];
    assert rs[1..][1..] == rs[2..];
    assert rs[0..] == rs;
    assert DurationCount(rs[5..]) == 0 && DurationSum(rs[5..]) == 0;
    assert DurationCount(rs[4..]) == 1 && DurationSum(rs[4..]) == 8;
    assert DurationCount(rs[3..]) == 2 && DurationSum(rs[3..]) == 53;
    assert DurationCount(rs[2..]) == 3 && DurationSum(rs[2..]) == 65;
    assert DurationCount(rs[1..]) == 4 && DurationSum(rs[1..]) == 78;
    assert SatisfactionCount(rs[5..]) == 0 && SatisfactionSum(rs[5..]) == 0;
    assert SatisfactionCount(rs[4..]) == 1 && SatisfactionSum(rs[4..]) == 5;
    assert SatisfactionCount(rs[3..]) == 2 && SatisfactionSum(rs[3..]) == 7;
    assert SatisfactionCount(rs[2..]) == 3 && SatisfactionSum(rs[2..]) == 11;
    assert SatisfactionCount(rs[1..]) == 4 && SatisfactionSum(rs[1..]) == 15;
  }

  /** The fixture's headline figures: half the calls resolved, one in six
      escalated, two thirds resolved on the first call, 18.6 minutes average
      handling and a 4.0 average score. */
  lemma SampleAnalytics(rs: seq<CallRecord>)
    requires rs == SampleCallCenterData
    ensures |rs| > 0
    ensures var a := Analyze(rs);
            && a.totalCalls == 6 && a.resolvedCalls == 3 && a.escalatedCalls == 1 && a.inProgressCalls == 1
            && a.resolutionRate == 50.0
            && a.escalationRate == 100.0 / 6.0
            && a.firstCallResolutionRate == 400.0 / 6.0
            && a.avgHandleTime == 18.6
            && a.avgSatisfaction == 4.0
  {
    SampleFields(rs);
    StatusCounts(rs);
    ValueSums(rs);
  }

  const SampleDepartments: seq<Entry> :=
    [Entry("Technical Support", 2), Entry("Billing", 2), Entry("Sales", 1), Entry("Customer Service", 1)]

  lemma SampleDepartmentNames(rs: seq<CallRecord>)
    requires rs == SampleCallCenterData
    ensures Departments(rs) == ["Technical Support", "Billing", "Sales", "Technical Support", "Customer Service", "Billing"]
  {
  }

  /** A tally grows by one bump per key. */
  lemma {:induction false} TallyStep(keys: seq<string>, k: string)
    ensures Tally(keys + [k]) == Bump(Tally(keys), k)
  {
    assert (keys + [k])[..|keys|] == keys;
  }

  /** Bumping a key the breakdown lacks appends it with a count of one. */
  lemma {:induction false} BumpAbsent(es: seq<Entry>, k: string)
    requires forall j :: 0 <= j < |es| ==> es[j].key != k
    ensures Bump(es, k) == es + [Entry(k, 1)]
  {
    if |es| > 0 {
      BumpAbsent(es[1..], k);
      assert [es[0]] + (es[1..] + [Entry(k, 1)]) == es + [Entry(k, 1)];
    }
  }

  /** Bumping the key at the head adds one to the head's count. */
  lemma BumpHead(e: Entry, rest: seq<Entry>, k: string)
    requires e.key == k
    ensures Bump([e] + rest, k) == [Entry(k, e.count + 1)] + rest
  {
    assert ([e] + rest)[1..] == rest;
  }

  /** Bumping another key leaves the head alone. */
  lemma BumpPast(e: Entry, rest: seq<Entry>, k: string)
    requires e.key != k
    ensures Bump([e] + rest, k) == [e] + Bump(rest, k)
  {
    assert ([e] + rest)[1..] == rest;
  }

  /** Bumping the key of the second entry. */
  lemma BumpSecond(e0: Entry, e1: Entry, rest: seq<Entry>, k: string)
    requires e0.key != k && e1.key == k
    ensures Bump([e0, e1] + rest, k) == [e0, Entry(k, e1.count + 1)] + rest
  {
    assert [e0, e1] + rest == [e0] + ([e1] + rest);
    BumpPast(e0, [e1] + rest, k);
    BumpHead(e1, rest, k);
  }

  /** A tally step on a new key. */
  lemma TallyNew(keys: seq<string>, es: seq<Entry>, k: string)
    requires Tally(keys) == es
    requires forall j :: 0 <= j < |es| ==> es[j].key != k
    ensures Tally(keys + [k]) == es + [Entry(k, 1)]
  {
    TallyStep(keys, k);
    BumpAbsent(es, k);
  }

  lemma TallyOne(t: string)
    ensures Tally([t]) == [Entry(t, 1)]
  {
    assert [t][..0] == [];
  }

  lemma TallyPattern2(t: string, b: string)
    requires t != b
    ensures Tally([t, b]) == [Entry(t, 1), Entry(b, 1)]
  {
    TallyOne(t);
    TallyNew([t], [Entry(t, 1)], b);
    assert [t] + [b] == [t, b];
  }

  lemma TallyPattern3(t: string, b: string, s: string)
    requires t != b && t != s && b != s
    ensures Tally([t, b, s]) == [Entry(t, 1), Entry(b, 1), Entry(s, 1)]
  {
    TallyPattern2(t, b);
    TallyNew([t, b], [Entry(t, 1), Entry(b, 1)], s);
    assert [t, b] + [s] == [t, b, s];
  }

  lemma TallyPattern4(t: string, b: string, s: string)
    requires t != b && t != s && b != s
    ensures Tally([t, b, s, t]) == [Entry(t, 2), Entry(b, 1), Entry(s, 1)]
  {
    TallyPattern3(t, b, s);
    TallyStep([t, b, s], t);
    assert [t, b, s] + [t] == [t, b, s, t];
    BumpHead(Entry(t, 1), [Entry(b, 1), Entry(s, 1)], t);
    assert [Entry(t, 1)] + [Entry(b, 1), Entry(s, 1)] == [Entry(t, 1), Entry(b, 1), Entry(s, 1)];
  }

  lemma TallyPattern5(t: string, b: string, s: string, c: string)
    requires t != b && t != s && t != c && b != s && b != c && s != c
    ensures Tally([t, b, s, t, c]) == [Entry(t, 2), Entry(b, 1), Entry(s, 1), Entry(c, 1)]
  {
    TallyPattern4(t, b, s);
    TallyNew([t, b, s, t], [Entry(t, 2), Entry(b, 1), Entry(s, 1)], c);
    assert [t, b, s, t] + [c] == [t, b, s, t, c];
  }

  /** Tallying four distinct names in the fixture's pattern: the first and
      second twice, the third and fourth once, in first-occurrence order. */
  lemma TallyPattern(t: string, b: string, s: string, c: string)
    requires t != b && t != s && t != c && b != s && b != c && s != c
    ensures Tally([t, b, s, t, c, b]) == [Entry(t, 2), Entry(b, 2), Entry(s, 1), Entry(c, 1)]
  {
    var keys := [t, b, s, t, c];
    var es := [Entry(t, 2), Entry(b, 1), Entry(s, 1), Entry(c, 1)];
    TallyPattern5(t, b, s, c);
    TallyStep(keys, b);
    assert keys + [b] == [t, b, s, t, c, b];
    assert es == [Entry(t, 2), Entry(b, 1)] + [Entry(s, 1), Entry(c, 1)];
    BumpSecond(Entry(t, 2), Entry(b, 1), [Entry(s, 1), Entry(c, 1)], b);
    assert [Entry(t, 2), Entry(b, 2)] + [Entry(s, 1), Entry(c, 1)] == [Entry(t, 2), Entry(b, 2), Entry(s, 1), Entry(c, 1)];
  }

  /** The fixture's department breakdown, in first-occurrence order. */
  lemma SampleDepartmentTally(rs: seq<CallRecord>)
    requires rs == SampleCallCenterData
    ensures |rs| > 0 && Analyze(rs).departmentBreakdown == SampleDepartments
  {
    SampleDepartmentNames(rs);
    TallyPattern("Technical Support", "Billing", "Sales", "Customer Service");
  }

  /** The sample breakdown is already ordered by count. */
  lemma SampleDepartmentsSorted(es: seq<Entry>)
    requires es == SampleDepartments
    ensures SortedDesc(es)
  {
  }

  /** Sorted by count, the department breakdown keeps the ties between
      Technical Support and Billing and between Sales and Customer Service in
      first-occurrence order. */
  lemma SampleDepartmentOrder(rs: seq<CallRecord>)
    requires rs == SampleCallCenterData
    ensures |rs| > 0 && SortByCount(Analyze(rs).departmentBreakdown) == SampleDepartments
  {
    SampleDepartmentTally(rs);
    SampleDepartmentsSorted(SampleDepartments);
    StableSortUnique(SortByCount(SampleDepartments), SampleDepartments);
  }
}
