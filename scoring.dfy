/** The scoring engine: five bucketed sub-scores combined into a 0..100
    health score by a weighted sum, and the three-way classification of a
    score. Arithmetic is exact: the source's `/ 100`, `* 1.5` and
    `Math.round` are stated over the integers. */
module Scoring {
  import opened Accounts

  // ---------------------------------------------------------------------
  // A generic "first matching band wins" table, the reference definition
  // every bucketed sub-score is checked against.

  /** Scores every value up to and including `upTo` that no earlier band took. */
  datatype Band = Band(upTo: int, score: int)

  function Bucket(bands: seq<Band>, x: int, fallback: int): int {
    if bands == [] then fallback
    else if x <= bands[0].upTo then bands[0].score
    else Bucket(bands[1..], x, fallback)
  }

  /** Bounds rise and scores fall from band to band, and the fallback is
      below every band. */
  predicate Descending(bands: seq<Band>, fallback: int) {
    && (forall i, j :: 0 <= i < j < |bands| ==> bands[i].upTo < bands[j].upTo)
    && (forall i, j :: 0 <= i < j < |bands| ==> bands[i].score >= bands[j].score)
    && (forall i :: 0 <= i < |bands| ==> bands[i].score >= fallback)
  }

  /** A descending table never scores a larger value higher than a smaller one. */
  lemma {:induction false} BucketAntitone(bands: seq<Band>, x: int, y: int, fallback: int)
    requires Descending(bands, fallback)
    requires x <= y
    ensures Bucket(bands, x, fallback) >= Bucket(bands, y, fallback)
  {
    if bands != [] && x > bands[0].upTo {
      assert Descending(bands[1..], fallback) by {
        forall i | 0 <= i < |bands[1..]| ensures bands[1..][i] == bands[i + 1] { }
      }
      BucketAntitone(bands[1..], x, y, fallback);
    } else if bands != [] && y > bands[0].upTo {
      BucketBelowFirst(bands, y, fallback);
    }
  }

  /** Past the first band, a descending table scores no more than that band. */
  lemma {:induction false} BucketBelowFirst(bands: seq<Band>, y: int, fallback: int)
    requires Descending(bands, fallback) && bands != []
    ensures Bucket(bands, y, fallback) <= bands[0].score
  {
    if y > bands[0].upTo && |bands| > 1 {
      assert Descending(bands[1..], fallback) by {
        forall i | 0 <= i < |bands[1..]| ensures bands[1..][i] == bands[i + 1] { }
      }
      BucketBelowFirst(bands[1..], y, fallback);
    }
  }

  // ---------------------------------------------------------------------
  // The five sub-scores

  const LoginBands := [Band(7, 100), Band(14, 70), Band(30, 40)]
  const SupportBands := [Band(2, 100), Band(5, 70), Band(10, 40)]

  /** Days since the last login. */
  function LoginScore(lastLogin: int): (r: int)
    ensures 0 <= r <= 100
  {
    if lastLogin <= 7 then 100
    else if lastLogin <= 14 then 70
    else if lastLogin <= 30 then 40
    else 0
  }

  /** Open support tickets. */
  function SupportScore(tickets: int): (r: int)
    ensures 20 <= r <= 100
  {
    if tickets <= 2 then 100
    else if tickets <= 5 then 70
    else if tickets <= 10 then 40
    else 20
  }

  /** Billing status: `current`, `late`, and anything else. */
  function PaymentScore(status: string): (r: int)
    ensures 0 <= r <= 100
    ensures r == 100 <==> status == "current"
    ensures r == 50 <==> status == "late"
    ensures r > 0 <==> status == "current" || status == "late"
  {
    if status == "current" then 100
    else if status == "late" then 50
    else 0
  }

  /** Days in the current stage against the stage's expected duration:
      `days <= expected * 1.5` is `2 * days <= 3 * expected` over the integers. */
  function StageScore(stage: string, daysInStage: int): (r: int)
    ensures 30 <= r <= 100
  {
    var expected := ExpectedStageDays(stage);
    if daysInStage <= expected then 100
    else if 2 * daysInStage <= 3 * expected then 60
    else 30
  }

  function StageBands(stage: string): seq<Band> {
    var expected := ExpectedStageDays(stage);
    [Band(expected, 100), Band(3 * expected / 2, 60)]
  }

  lemma LoginScoreIsBanded(lastLogin: int)
    ensures LoginScore(lastLogin) == Bucket(LoginBands, lastLogin, 0)
    ensures Descending(LoginBands, 0)
  {
    var rest := LoginBands[1..];
    assert rest == [Band(14, 70), Band(30, 40)];
    assert rest[1..] == [Band(30, 40)];
    assert rest[1..][1..] == [];
    assert Bucket(rest[1..], lastLogin, 0) == if lastLogin <= 30 then 40 else 0;
    assert Bucket(rest, lastLogin, 0) == if lastLogin <= 14 then 70 else Bucket(rest[1..], lastLogin, 0);
  }

  lemma SupportScoreIsBanded(tickets: int)
    ensures SupportScore(tickets) == Bucket(SupportBands, tickets, 20)
    ensures Descending(SupportBands, 20)
  {
    var rest := SupportBands[1..];
    assert rest == [Band(5, 70), Band(10, 40)];
    assert rest[1..] == [Band(10, 40)];
    assert rest[1..][1..] == [];
    assert Bucket(rest[1..], tickets, 20) == if tickets <= 10 then 40 else 20;
    assert Bucket(rest, tickets, 20) == if tickets <= 5 then 70 else Bucket(rest[1..], tickets, 20);
  }

  /** The 1.5x threshold agrees with the integer band `3 * expected / 2`. */
  lemma StageScoreIsBanded(stage: string, daysInStage: int)
    ensures StageScore(stage, daysInStage) == Bucket(StageBands(stage), daysInStage, 30)
    ensures Descending(StageBands(stage), 30)
  {
    var expected := ExpectedStageDays(stage);
    var bands := StageBands(stage);
    assert bands[1..] == [Band(3 * expected / 2, 60)];
    assert bands[1..][1..] == [];
    assert Bucket(bands[1..], daysInStage, 30) == if daysInStage <= 3 * expected / 2 then 60 else 30;
    assert 2 * daysInStage <= 3 * expected <==> daysInStage <= 3 * expected / 2;
  }

  /** Logging in later never raises the login sub-score. */
  lemma LoginScoreAntitone(x: int, y: int)
    requires x <= y
    ensures LoginScore(x) >= LoginScore(y)
  {
    LoginScoreIsBanded(x);
    LoginScoreIsBanded(y);
    BucketAntitone(LoginBands, x, y, 0);
  }

  /** More open tickets never raise the support sub-score. */
  lemma SupportScoreAntitone(x: int, y: int)
    requires x <= y
    ensures SupportScore(x) >= SupportScore(y)
  {
    SupportScoreIsBanded(x);
    SupportScoreIsBanded(y);
    BucketAntitone(SupportBands, x, y, 20);
  }

  /** Staying longer in a stage never raises the stage sub-score. */
  lemma StageScoreAntitone(stage: string, x: int, y: int)
    requires x <= y
    ensures StageScore(stage, x) >= StageScore(stage, y)
  {
    StageScoreIsBanded(stage, x);
    StageScoreIsBanded(stage, y);
    BucketAntitone(StageBands(stage), x, y, 30);
  }

  // ---------------------------------------------------------------------
  // The weighted score

  /** One hundred times the unrounded score: each sub-score times its weight. */
  function WeightedSum(c: Customer, w: Weights): int {
    LoginScore(c.lastLogin) * w.login
    + c.apiUsage * w.api
    + SupportScore(c.supportTickets) * w.support
    + PaymentScore(c.paymentStatus) * w.payment
    + StageScore(c.stage, c.daysInStage) * w.stage
  }

  /** `Math.round(WeightedSum / 100)`: the nearest integer, halves rounded up. */
  function HealthScore(c: Customer, w: Weights): (r: int)
    ensures 100 * r - 50 <= WeightedSum(c, w) < 100 * r + 50
  {
    (WeightedSum(c, w) + 50) / 100
  }

  lemma ProductBounds(sub: int, weight: int)
    requires 0 <= sub <= 100 && weight >= 0
    ensures 0 <= sub * weight <= 100 * weight
  {
  }

  /** With non-negative weights summing to 100 and API usage a percentage,
      the health score is itself a percentage. */
  lemma HealthScoreInRange(c: Customer, w: Weights)
    requires NonNegative(w) && WeightTotal(w) == 100
    requires 0 <= c.apiUsage <= 100
    ensures 0 <= HealthScore(c, w) <= 100
  {
    ProductBounds(LoginScore(c.lastLogin), w.login);
    ProductBounds(c.apiUsage, w.api);
    ProductBounds(SupportScore(c.supportTickets), w.support);
    ProductBounds(PaymentScore(c.paymentStatus), w.payment);
    ProductBounds(StageScore(c.stage, c.daysInStage), w.stage);
    assert 0 <= WeightedSum(c, w) <= 10000;
  }

  /** The first seed account under the default weights: login 40, API 45,
      support 40 (eight tickets fall in the "up to 10" band), payment 100,
      stage 60 (52 days against 45 expected), so 53.25 before rounding. */
  lemma FirstSeedAccountScores53()
    ensures WeightedSum(SeedCustomers[0], DefaultWeights) == 5325
    ensures HealthScore(SeedCustomers[0], DefaultWeights) == 53
    ensures Classify(HealthScore(SeedCustomers[0], DefaultWeights)) == AtRisk
  {
    var c := SeedCustomers[0];
    assert ExpectedStageDays(c.stage) == 45;
    assert LoginScore(c.lastLogin) == 40;
    assert SupportScore(c.supportTickets) == 40;
    assert PaymentScore(c.paymentStatus) == 100;
    assert StageScore(c.stage, c.daysInStage) == 60;
  }

  // ---------------------------------------------------------------------
  // Classification

  datatype Tier = Healthy | Monitor | AtRisk

  /** Higher rank means healthier. */
  function Rank(t: Tier): int {
    match t
    case AtRisk => 0
    case Monitor => 1
    case Healthy => 2
  }

  /** Each band includes its lower bound: 80 and up, 60 to 79, below 60. */
  function Classify(score: int): (t: Tier)
    ensures t == Healthy <==> score >= 80
    ensures t == Monitor <==> 60 <= score < 80
    ensures t == AtRisk <==> score < 60
  {
    if score >= 80 then Healthy
    else if score >= 60 then Monitor
    else AtRisk
  }

  /** A higher score never lands in a less healthy tier. */
  lemma ClassifyMonotone(x: int, y: int)
    requires x <= y
    ensures Rank(Classify(x)) <= Rank(Classify(y))
  {
  }

  /** An account with its score and tier attached, as the views carry it. */
  datatype Scored = Scored(customer: Customer, healthScore: int, healthStatus: Tier)

  function ScoreOne(c: Customer, w: Weights): (s: Scored)
    ensures s.customer == c
    ensures s.healthScore == HealthScore(c, w)
    ensures s.healthStatus == Classify(s.healthScore)
  {
    var score := HealthScore(c, w);
    Scored(c, score, Classify(score))
  }

  function ScoreAll(cs: seq<Customer>, w: Weights): (r: seq<Scored>)
    ensures |r| == |cs|
    ensures forall i :: 0 <= i < |cs| ==> r[i] == ScoreOne(cs[i], w)
  {
    if cs == [] then [] else [ScoreOne(cs[0], w)] + ScoreAll(cs[1..], w)
  }
}
