/** The metrics aggregator: dashboard-wide counts and revenue sums per tier,
    open work on at-risk accounts, distinct owners and the average time
    at-risk accounts have spent in their stage. Recomputed from scratch on
    every call. */
module Metrics {
  import opened Accounts
  import opened Scoring

  /** The scored accounts of one tier, in their original order. */
  function WithStatus(s: seq<Scored>, t: Tier): (r: seq<Scored>)
    ensures |r| <= |s|
    ensures forall x :: x in r <==> x in s && x.healthStatus == t
  {
    if s == [] then []
    else (if s[0].healthStatus == t then [s[0]] else []) + WithStatus(s[1..], t)
  }

  function SumMrr(s: seq<Scored>): int {
    if s == [] then 0 else s[0].customer.mrr + SumMrr(s[1..])
  }

  function TotalMrr(cs: seq<Customer>): int {
    if cs == [] then 0 else cs[0].mrr + TotalMrr(cs[1..])
  }

  function OpenTaskCount(ts: seq<Task>): nat {
    if ts == [] then 0 else (if ts[0].status == Open then 1 else 0) + OpenTaskCount(ts[1..])
  }

  /** Open tasks summed over a list of scored accounts. */
  function SumOpenTasks(s: seq<Scored>): nat {
    if s == [] then 0 else OpenTaskCount(s[0].customer.tasks) + SumOpenTasks(s[1..])
  }

  function SumDaysInStage(s: seq<Scored>): int {
    if s == [] then 0 else s[0].customer.daysInStage + SumDaysInStage(s[1..])
  }

  /** The distinct CS owners over all accounts. */
  function Owners(cs: seq<Customer>): set<string> {
    set c | c in cs :: c.csOwner
  }

  /** `Math.round(sum / n)`: the integer nearest the mean, halves rounded up. */
  function RoundedMean(sum: int, n: int): (r: int)
    requires n > 0
    ensures 2 * n * r - n <= 2 * sum < 2 * n * r + n
  {
    var q := (2 * sum + n) / (2 * n);
    assert 2 * n * q <= 2 * sum + n < 2 * n * q + 2 * n by {
      var d := 2 * n;
      assert d * q + (2 * sum + n) % d == 2 * sum + n;
    }
    q
  }

  datatype DashboardMetrics = DashboardMetrics(
    totalCustomers: int,
    healthyCount: int,
    monitorCount: int,
    atRiskCount: int,
    totalMRR: int,
    healthyMRR: int,
    monitorMRR: int,
    atRiskMRR: int,
    protectedMRR: int,
    riskMRR: int,
    atRiskCustomers: int,
    totalTasks: int,
    csReps: int,
    avgDaysAtRisk: int)

  /** The dashboard metrics of a collection under a weight set. The tiers
      partition the accounts and their revenue; protected revenue is the
      healthy tier's, revenue at risk the other two tiers'. */
  function CalculateMetrics(cs: seq<Customer>, w: Weights): (m: DashboardMetrics)
    ensures m.totalCustomers == |cs|
    ensures m.healthyCount == |WithStatus(ScoreAll(cs, w), Healthy)|
    ensures m.monitorCount == |WithStatus(ScoreAll(cs, w), Monitor)|
    ensures m.atRiskCount == |WithStatus(ScoreAll(cs, w), AtRisk)|
    ensures m.totalMRR == TotalMrr(cs)
    ensures m.healthyMRR == SumMrr(WithStatus(ScoreAll(cs, w), Healthy))
    ensures m.monitorMRR == SumMrr(WithStatus(ScoreAll(cs, w), Monitor))
    ensures m.atRiskMRR == SumMrr(WithStatus(ScoreAll(cs, w), AtRisk))
    ensures m.totalTasks == SumOpenTasks(WithStatus(ScoreAll(cs, w), AtRisk))
    ensures m.csReps == |Owners(cs)|
    ensures m.healthyCount + m.monitorCount + m.atRiskCount == m.totalCustomers
    ensures m.healthyMRR + m.monitorMRR + m.atRiskMRR == m.totalMRR
    ensures m.protectedMRR == m.healthyMRR
    ensures m.riskMRR == m.totalMRR - m.protectedMRR
    ensures m.atRiskCustomers == m.atRiskCount
    ensures m.atRiskCount == 0 ==> m.avgDaysAtRisk == 0
    ensures m.atRiskCount > 0 ==>
      var days := SumDaysInStage(WithStatus(ScoreAll(cs, w), AtRisk));
      2 * m.atRiskCount * m.avgDaysAtRisk - m.atRiskCount <= 2 * days < 2 * m.atRiskCount * m.avgDaysAtRisk + m.atRiskCount
    ensures 0 <= m.totalTasks
    ensures 0 <= m.csReps <= |cs| && (cs != [] ==> 1 <= m.csReps)
  {
    var scored := ScoreAll(cs, w);
    var healthy := WithStatus(scored, Healthy);
    var monitor := WithStatus(scored, Monitor);
    var atRisk := WithStatus(scored, AtRisk);
    var healthyMRR := SumMrr(healthy);
    var monitorMRR := SumMrr(monitor);
    var atRiskMRR := SumMrr(atRisk);
    StatusPartition(scored);
    ScoredMrrIsTotal(cs, w);
    OwnersBounds(cs);
    DashboardMetrics(
      |scored|,
      |healthy|,
      |monitor|,
      |atRisk|,
      TotalMrr(cs),
      healthyMRR,
      monitorMRR,
      atRiskMRR,
      healthyMRR,
      monitorMRR + atRiskMRR,
      |atRisk|,
      SumOpenTasks(atRisk),
      |Owners(cs)|,
      if |atRisk| > 0 then RoundedMean(SumDaysInStage(atRisk), |atRisk|) else 0)
  }

  /** The three tiers split any scored list: their sizes and revenues add up
      to the whole. */
  lemma {:induction false} StatusPartition(s: seq<Scored>)
    ensures |WithStatus(s, Healthy)| + |WithStatus(s, Monitor)| + |WithStatus(s, AtRisk)| == |s|
    ensures SumMrr(WithStatus(s, Healthy)) + SumMrr(WithStatus(s, Monitor)) + SumMrr(WithStatus(s, AtRisk)) == SumMrr(s)
  {
    if s != [] {
      StatusPartition(s[1..]);
      SumMrrAppend(if s[0].healthStatus == Healthy then [s[0]] else [], WithStatus(s[1..], Healthy));
      SumMrrAppend(if s[0].healthStatus == Monitor then [s[0]] else [], WithStatus(s[1..], Monitor));
      SumMrrAppend(if s[0].healthStatus == AtRisk then [s[0]] else [], WithStatus(s[1..], AtRisk));
      assert SumMrr([s[0]]) == s[0].customer.mrr;
    }
  }

  lemma {:induction false} SumMrrAppend(a: seq<Scored>, b: seq<Scored>)
    ensures SumMrr(a + b) == SumMrr(a) + SumMrr(b)
  {
    if a != [] {
      assert (a + b)[1..] == a[1..] + b;
      SumMrrAppend(a[1..], b);
    } else {
      assert a + b == b;
    }
  }

  /** Summing revenue over the scored view equals summing it over the raw accounts. */
  lemma {:induction false} ScoredMrrIsTotal(cs: seq<Customer>, w: Weights)
    ensures SumMrr(ScoreAll(cs, w)) == TotalMrr(cs)
  {
    if cs != [] {
      ScoredMrrIsTotal(cs[1..], w);
      assert ScoreAll(cs, w)[1..] == ScoreAll(cs[1..], w);
    }
  }

  /** There are no more owners than accounts, and at least one when there is
      an account. */
  lemma {:induction false} OwnersBounds(cs: seq<Customer>)
    ensures |Owners(cs)| <= |cs|
    ensures cs != [] ==> |Owners(cs)| >= 1
  {
    if cs != [] {
      OwnersBounds(cs[1..]);
      assert Owners(cs) == {cs[0].csOwner} + Owners(cs[1..]) by {
        assert forall c :: c in cs <==> c == cs[0] || c in cs[1..];
      }
      assert cs[0].csOwner in Owners(cs);
    }
  }

  lemma {:induction false} WithStatusAppend(a: seq<Scored>, b: seq<Scored>, t: Tier)
    ensures WithStatus(a + b, t) == WithStatus(a, t) + WithStatus(b, t)
  {
    if a == [] {
      assert a + b == b;
    } else {
      assert (a + b)[1..] == a[1..] + b;
      WithStatusAppend(a[1..], b, t);
    }
  }

  lemma {:induction false} SumOpenTasksAppend(a: seq<Scored>, b: seq<Scored>)
    ensures SumOpenTasks(a + b) == SumOpenTasks(a) + SumOpenTasks(b)
  {
    if a == [] {
      assert a + b == b;
    } else {
      assert (a + b)[1..] == a[1..] + b;
      SumOpenTasksAppend(a[1..], b);
    }
  }

  /** Only at-risk accounts contribute open work: adding an account raises
      the open-task total by its open tasks if it is at risk, and by nothing
      otherwise. */
  lemma OpenWorkCountsAtRiskOnly(cs: seq<Customer>, c: Customer, w: Weights)
    ensures CalculateMetrics(cs + [c], w).totalTasks ==
      CalculateMetrics(cs, w).totalTasks
      + (if Classify(HealthScore(c, w)) == AtRisk then OpenTaskCount(c.tasks) else 0)
  {
    var x := ScoreOne(c, w);
    assert ScoreAll(cs + [c], w) == ScoreAll(cs, w) + [x];
    WithStatusAppend(ScoreAll(cs, w), [x], AtRisk);
    SumOpenTasksAppend(WithStatus(ScoreAll(cs, w), AtRisk), WithStatus([x], AtRisk));
    assert [x][1..] == [];
  }

  /** The seed accounts have two distinct owners. */
  lemma SeedOwners()
    ensures |Owners(SeedCustomers)| == 2
  {
    var mike := "Mike Rodriguez";
    var jessica := "Jessica Park";
    forall c | c in SeedCustomers ensures c.csOwner == mike || c.csOwner == jessica {
    }
    assert SeedCustomers[0].csOwner == mike && SeedCustomers[1].csOwner == jessica;
    assert Owners(SeedCustomers) == {mike, jessica};
    assert mike != jessica by { assert mike[0] != jessica[0]; }
  }
}
