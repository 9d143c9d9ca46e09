/** The per-agent accumulator of the agent-performance report: a `reduce`
    over the call records into an object keyed by `agentId`, read back with
    `Object.values`, hence one accumulator per agent in order of the agent's
    first call. */
module Agents {
  import opened Wrappers
  import opened Seqs
  import opened CallRecords
  import opened Analytics

  datatype AgentAcc = AgentAcc(
    agentId: string,
    agentName: string,
    department: string,
    totalCalls: nat,
    resolvedCalls: nat,
    totalDuration: nat,
    satisfactionSum: nat,
    satisfactionCount: nat,
    fcrCount: nat)

  /** JavaScript truthiness of an optional count: missing and 0 are falsy. */
  predicate Truthy(o: Option<nat>) {
    o.Some? && o.value != 0
  }

  /** The fresh accumulator created on an agent's first call; name and
      department are taken from that call. */
  function NewAcc(c: CallRecord): AgentAcc {
    AgentAcc(c.agentId, c.agentName, c.department, 0, 0, 0, 0, 0, 0)
  }

  /** The per-call update: the call is always counted; a duration or a score
      is added only when truthy, and only a truthy score counts as rated. */
  function Add(acc: AgentAcc, c: CallRecord): (r: AgentAcc)
    ensures r.agentId == acc.agentId && r.agentName == acc.agentName && r.department == acc.department
    ensures r.totalCalls == acc.totalCalls + 1
  {
    acc.(
      totalCalls := acc.totalCalls + 1,
      resolvedCalls := acc.resolvedCalls + (if c.status == Resolved then 1 else 0),
      totalDuration := acc.totalDuration + (if Truthy(c.duration) then c.duration.value else 0),
      satisfactionSum := acc.satisfactionSum + (if Truthy(c.customerSatisfaction) then c.customerSatisfaction.value else 0),
      satisfactionCount := acc.satisfactionCount + (if Truthy(c.customerSatisfaction) then 1 else 0),
      fcrCount := acc.fcrCount + (if c.firstCallResolution then 1 else 0))
  }

  function Ids(accs: seq<AgentAcc>): (ids: seq<string>)
    ensures |ids| == |accs|
    ensures forall i :: 0 <= i < |accs| ==> ids[i] == accs[i].agentId
  {
    seq(|accs|, i requires 0 <= i < |accs| => accs[i].agentId)
  }

  function CallsTotal(accs: seq<AgentAcc>): nat {
    if |accs| == 0 then 0 else accs[0].totalCalls + CallsTotal(accs[1..])
  }

  /** The agent ids of the calls, in call order. */
  function AgentIds(rs: seq<CallRecord>): (ids: seq<string>)
    ensures |ids| == |rs|
    ensures forall i :: 0 <= i < |rs| ==> ids[i] == rs[i].agentId
  {
    seq(|rs|, i requires 0 <= i < |rs| => rs[i].agentId)
  }

  /** One step of the `reduce`: the call's agent is updated in place, or a
      new accumulator for it is appended and then updated. */
  function Record(accs: seq<AgentAcc>, c: CallRecord): (r: seq<AgentAcc>)
    ensures |accs| <= |r| <= |accs| + 1
    ensures CallsTotal(r) == CallsTotal(accs) + 1
  {
    if |accs| == 0 then [Add(NewAcc(c), c)]
    else if accs[0].agentId == c.agentId then
      assert ([Add(accs[0], c)] + accs[1..])[1..] == accs[1..];
      [Add(accs[0], c)] + accs[1..]
    else
      assert ([accs[0]] + Record(accs[1..], c))[1..] == Record(accs[1..], c);
      [accs[0]] + Record(accs[1..], c)
  }

  /** A step keeps the agents in order of first call, appending a new one. */
  lemma {:induction false} RecordIds(accs: seq<AgentAcc>, c: CallRecord)
    ensures Ids(Record(accs, c)) == if c.agentId in Ids(accs) then Ids(accs) else Ids(accs) + [c.agentId]
  {
    if |accs| == 0 {
      assert Ids(Record(accs, c)) == [c.agentId];
    } else if accs[0].agentId == c.agentId {
      RecordIdsHere(accs, c);
    } else {
      RecordIds(accs[1..], c);
      RecordIdsPast(accs, c);
    }
  }

  lemma RecordIdsHere(accs: seq<AgentAcc>, c: CallRecord)
    requires |accs| > 0 && accs[0].agentId == c.agentId
    ensures c.agentId in Ids(accs) && Ids(Record(accs, c)) == Ids(accs)
  {
    var r := Record(accs, c);
    assert Ids(accs)[0] == c.agentId;
    assert |r| == |accs| && r[0].agentId == accs[0].agentId && r[1..] == accs[1..];
    assert forall i :: 0 < i < |r| ==> r[i] == r[1..][i - 1];
  }

  lemma RecordIdsPast(accs: seq<AgentAcc>, c: CallRecord)
    requires |accs| > 0 && accs[0].agentId != c.agentId
    ensures Ids(accs) == [accs[0].agentId] + Ids(accs[1..])
    ensures Ids(Record(accs, c)) == [accs[0].agentId] + Ids(Record(accs[1..], c))
  {
    assert accs == [accs[0]] + accs[1..];
    IdsCons(accs[0], accs[1..]);
    IdsCons(accs[0], Record(accs[1..], c));
  }

  lemma IdsCons(a: AgentAcc, rest: seq<AgentAcc>)
    ensures Ids([a] + rest) == [a.agentId] + Ids(rest)
  {
    var l, r := Ids([a] + rest), [a.agentId] + Ids(rest);
    assert |l| == |r|;
    forall i | 0 <= i < |l|
      ensures l[i] == r[i]
    {
      if i > 0 {
        assert ([a] + rest)[i] == rest[i - 1];
      }
    }
  }

  /** With one accumulator per agent, a step updates exactly the call's
      agent (appending it when new) and leaves every other agent alone. */
  lemma {:induction false} RecordUpdates(accs: seq<AgentAcc>, c: CallRecord)
    requires Distinct(Ids(accs))
    ensures forall i :: 0 <= i < |accs| ==>
              Record(accs, c)[i] == if accs[i].agentId == c.agentId then Add(accs[i], c) else accs[i]
    ensures c.agentId !in Ids(accs) ==> |Record(accs, c)| == |accs| + 1 && Record(accs, c)[|accs|] == Add(NewAcc(c), c)
  {
    if |accs| > 0 {
      if accs[0].agentId == c.agentId {
        forall i | 1 <= i < |accs|
          ensures accs[i].agentId != c.agentId
        {
          assert Ids(accs)[0] != Ids(accs)[i];
        }
      } else {
        RecordIdsPast(accs, c);
        assert Distinct(Ids(accs[1..])) by {
          assert forall i :: 0 <= i < |accs| - 1 ==> Ids(accs[1..])[i] == Ids(accs)[i + 1];
        }
        RecordUpdates(accs[1..], c);
        assert Record(accs, c) == [accs[0]] + Record(accs[1..], c);
      }
    }
  }

  lemma {:induction false} RecordPositive(accs: seq<AgentAcc>, c: CallRecord)
    requires forall i :: 0 <= i < |accs| ==> accs[i].totalCalls > 0
    ensures forall i :: 0 <= i < |Record(accs, c)| ==> Record(accs, c)[i].totalCalls > 0
  {
    if |accs| > 0 && accs[0].agentId != c.agentId {
      RecordPositive(accs[1..], c);
      var r := Record(accs, c);
      assert r[1..] == Record(accs[1..], c);
    }
  }

  /** The `reduce` over the calls, left to right. */
  function AgentFold(rs: seq<CallRecord>): (r: seq<AgentAcc>)
    ensures Ids(r) == Dedup(AgentIds(rs))
    ensures CallsTotal(r) == |rs|
    ensures forall i :: 0 <= i < |r| ==> r[i].totalCalls > 0
  {
    if |rs| == 0 then []
    else
      var p := rs[..|rs| - 1];
      assert AgentIds(rs) == AgentIds(p) + [rs[|rs| - 1].agentId];
      RecordPositive(AgentFold(p), rs[|rs| - 1]);
      RecordIds(AgentFold(p), rs[|rs| - 1]);
      Record(AgentFold(p), rs[|rs| - 1])
  }

  /** The calls handled by agent `id`. */
  function ById(id: string): CallRecord -> bool {
    (c: CallRecord) => c.agentId == id
  }

  /** The number of calls with a truthy score. */
  function ScoredCount(rs: seq<CallRecord>): (n: nat)
    ensures n <= |rs|
  {
    if |rs| == 0 then 0 else (if Truthy(rs[0].customerSatisfaction) then 1 else 0) + ScoredCount(rs[1..])
  }

  lemma {:induction false} ScoredCountAppend(a: seq<CallRecord>, b: seq<CallRecord>)
    ensures ScoredCount(a + b) == ScoredCount(a) + ScoredCount(b)
  {
    if |a| == 0 {
      assert a + b == b;
    } else {
      assert (a + b)[1..] == a[1..] + b;
      ScoredCountAppend(a[1..], b);
    }
  }

  /** Reference figures for one agent, read off the agent's own calls `xs`
      with the aggregate counters of the analytics snapshot. The sums agree
      with the guarded additions because a falsy value adds 0 either way. */
  function Summary(xs: seq<CallRecord>): AgentAcc
    requires |xs| > 0
  {
    AgentAcc(xs[0].agentId, xs[0].agentName, xs[0].department, |xs|,
      CountStatus(xs, Resolved), DurationSum(xs), SatisfactionSum(xs), ScoredCount(xs),
      CountFirstCallResolved(xs))
  }

  lemma SummaryAppend(xs: seq<CallRecord>, c: CallRecord)
    requires |xs| > 0
    ensures Summary(xs + [c]) == Add(Summary(xs), c)
  {
    CountStatusAppend(xs, [c], Resolved);
    DurationAppend(xs, [c]);
    SatisfactionAppend(xs, [c]);
    ScoredCountAppend(xs, [c]);
    FirstCallResolvedAppend(xs, [c]);
    assert [c][1..] == [];
    assert (xs + [c])[0] == xs[0];
  }

  lemma SummarySingle(c: CallRecord)
    ensures Summary([c]) == Add(NewAcc(c), c)
  {
    assert [c][1..] == [];
    assert DurationSum([c]) == c.duration.GetOr(0);
    assert SatisfactionSum([c]) == c.customerSatisfaction.GetOr(0);
    assert ScoredCount([c]) == if Truthy(c.customerSatisfaction) then 1 else 0;
    assert CountStatus([c], Resolved) == if c.status == Resolved then 1 else 0;
    assert CountFirstCallResolved([c]) == if c.firstCallResolution then 1 else 0;
  }

  /** Every accumulator in `accs` holds exactly the figures of its agent's
      own calls among `rs`. */
  predicate Summarizes(rs: seq<CallRecord>, accs: seq<AgentAcc>) {
    forall i :: 0 <= i < |accs| ==> SummarizesAgent(rs, accs[i])
  }

  /** `a` holds exactly the figures of its agent's own calls among `rs`. */
  predicate SummarizesAgent(rs: seq<CallRecord>, a: AgentAcc) {
    |Filter(rs, ById(a.agentId))| > 0 && a == Summary(Filter(rs, ById(a.agentId)))
  }

  /** An agent that handled none of the calls has no calls to summarise. */
  lemma AbsentAgentHasNoCalls(p: seq<CallRecord>, id: string)
    requires id !in AgentIds(p)
    ensures Filter(p, ById(id)) == []
  {
  }

  /** The calls of agent `id` after one more call. */
  lemma FilterStep(p: seq<CallRecord>, c: CallRecord, id: string)
    ensures Filter(p + [c], ById(id)) == if c.agentId == id then Filter(p, ById(id)) + [c] else Filter(p, ById(id))
  {
    FilterAppend(p, [c], ById(id));
    assert [c][1..] == [];
    assert Filter([c], ById(id)) == if c.agentId == id then [c] else [];
  }

  /** A fold step keeps the summary of an agent already seen. */
  lemma StepKeepsSummary(p: seq<CallRecord>, c: CallRecord, accs: seq<AgentAcc>, i: nat)
    requires Distinct(Ids(accs)) && i < |accs| && SummarizesAgent(p, accs[i])
    ensures i < |Record(accs, c)| && SummarizesAgent(p + [c], Record(accs, c)[i])
  {
    var id := accs[i].agentId;
    var xs := Filter(p, ById(id));
    RecordUpdates(accs, c);
    FilterStep(p, c, id);
    if id == c.agentId {
      SummaryAppend(xs, c);
    }
  }

  /** A fold step summarises a new agent by its one call. */
  lemma StepSummarizesNew(p: seq<CallRecord>, c: CallRecord, accs: seq<AgentAcc>)
    requires Distinct(Ids(accs)) && c.agentId !in Ids(accs) && c.agentId !in AgentIds(p)
    ensures |accs| < |Record(accs, c)| && SummarizesAgent(p + [c], Record(accs, c)[|accs|])
  {
    RecordUpdates(accs, c);
    FilterStep(p, c, c.agentId);
    AbsentAgentHasNoCalls(p, c.agentId);
    assert Filter(p, ById(c.agentId)) + [c] == [c];
    SummarySingle(c);
  }

  /** One fold step keeps the summary of the accumulator at index `i`. */
  lemma StepSummarizes(p: seq<CallRecord>, c: CallRecord, accs: seq<AgentAcc>, i: nat)
    requires Summarizes(p, accs) && Distinct(Ids(accs))
    requires forall id :: id in Ids(accs) <==> id in AgentIds(p)
    requires i < |Record(accs, c)|
    ensures SummarizesAgent(p + [c], Record(accs, c)[i])
  {
    if i < |accs| {
      StepKeepsSummary(p, c, accs, i);
    } else {
      RecordIds(accs, c);
      StepSummarizesNew(p, c, accs);
    }
  }

  /** One fold step keeps every accumulator a summary of its agent's calls. */
  lemma StepKeepsSummaries(p: seq<CallRecord>, c: CallRecord)
    requires Summarizes(p, AgentFold(p))
    ensures Summarizes(p + [c], Record(AgentFold(p), c))
  {
    var accs := AgentFold(p);
    forall i | 0 <= i < |Record(accs, c)|
      ensures SummarizesAgent(p + [c], Record(accs, c)[i])
    {
      StepSummarizes(p, c, accs, i);
    }
  }

  lemma AgentFoldStep(rs: seq<CallRecord>)
    requires |rs| > 0
    ensures AgentFold(rs) == Record(AgentFold(rs[..|rs| - 1]), rs[|rs| - 1])
  {
  }

  /** Each agent's accumulator holds exactly the figures of that agent's own
      calls: name and department of the first, and counts and sums over all. */
  lemma {:induction false} AgentFoldSummaries(rs: seq<CallRecord>)
    ensures Summarizes(rs, AgentFold(rs))
  {
    if |rs| > 0 {
      var p := rs[..|rs| - 1];
      var c := rs[|rs| - 1];
      assert rs == p + [c];
      AgentFoldStep(rs);
      AgentFoldSummaries(p);
      StepKeepsSummaries(p, c);
    }
  }
}
