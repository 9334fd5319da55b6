/** The automation-trigger evaluator: which of the five fixed rules apply to
    an account, in declaration order, each gated by its `enabled` flag. */
module Triggers {
  import opened Accounts
  import opened Scoring

  /** Declaration order of the five triggers. */
  function Position(t: TriggerId): int {
    match t
    case NoLogin => 0
    case LowApi => 1
    case LowHealth => 2
    case StalledStage => 3
    case RenewalRisk => 4
  }

  /** The rule behind each trigger, for an account and its health score.
      "More than 1.5x the expected days" is `2 * days > 3 * expected`. */
  predicate Condition(t: TriggerId, c: Customer, score: int) {
    match t
    case NoLogin => c.lastLogin > 14
    case LowApi => c.apiUsage < 40
    case LowHealth => score < 60
    case StalledStage => 2 * c.daysInStage > 3 * ExpectedStageDays(c.stage)
    case RenewalRisk => c.renewalDays <= 60 && score < 70
  }

  /** A trigger fires when it is enabled and its rule holds. */
  predicate Fires(cfg: TriggerConfig, t: TriggerId, c: Customer, score: int) {
    Enabled(cfg, t) && Condition(t, c, score)
  }

  /** Strictly increasing in declaration order: no repeats, fixed order. */
  predicate InDeclarationOrder(ids: seq<TriggerId>) {
    forall i, j :: 0 <= i < j < |ids| ==> Position(ids[i]) < Position(ids[j])
  }

  /** `[t]` when trigger `t` fires, otherwise nothing. */
  function IfFires(cfg: TriggerConfig, t: TriggerId, c: Customer, score: int): (r: seq<TriggerId>)
    ensures forall x :: x in r <==> x == t && Fires(cfg, t, c, score)
  {
    if Fires(cfg, t, c, score) then [t] else []
  }

  /** The reference list of active triggers: each trigger that fires, once,
      laid out in declaration order. */
  function Firing(cfg: TriggerConfig, c: Customer, score: int): seq<TriggerId> {
    IfFires(cfg, NoLogin, c, score) + IfFires(cfg, LowApi, c, score)
    + IfFires(cfg, LowHealth, c, score) + IfFires(cfg, StalledStage, c, score)
    + IfFires(cfg, RenewalRisk, c, score)
  }

  /** Appending a trigger declared after everything in an ordered list keeps it ordered. */
  lemma AppendInOrder(ids: seq<TriggerId>, t: TriggerId, cfg: TriggerConfig, c: Customer, score: int)
    requires InDeclarationOrder(ids)
    requires forall i :: 0 <= i < |ids| ==> Position(ids[i]) < Position(t)
    ensures InDeclarationOrder(ids + IfFires(cfg, t, c, score))
    ensures forall i :: 0 <= i < |ids + IfFires(cfg, t, c, score)| ==> Position((ids + IfFires(cfg, t, c, score))[i]) <= Position(t)
  {
  }

  /** The reference list is in declaration order, so no trigger appears twice. */
  lemma FiringOrdered(cfg: TriggerConfig, c: Customer, score: int)
    ensures InDeclarationOrder(Firing(cfg, c, score))
  {
    var r1 := IfFires(cfg, NoLogin, c, score);
    var r2 := r1 + IfFires(cfg, LowApi, c, score);
    var r3 := r2 + IfFires(cfg, LowHealth, c, score);
    var r4 := r3 + IfFires(cfg, StalledStage, c, score);
    AppendInOrder([], NoLogin, cfg, c, score);
    AppendInOrder(r1, LowApi, cfg, c, score);
    AppendInOrder(r2, LowHealth, cfg, c, score);
    AppendInOrder(r3, StalledStage, cfg, c, score);
    AppendInOrder(r4, RenewalRisk, cfg, c, score);
    assert [] + r1 == r1;
  }

  /** A trigger is in the reference list exactly when it fires. */
  lemma FiringMembers(cfg: TriggerConfig, c: Customer, score: int)
    ensures forall t :: t in Firing(cfg, c, score) <==> Fires(cfg, t, c, score)
  {
    forall t ensures t in Firing(cfg, c, score) <==> Fires(cfg, t, c, score) {
      assert t in Firing(cfg, c, score) <==>
        t in IfFires(cfg, NoLogin, c, score) || t in IfFires(cfg, LowApi, c, score)
        || t in IfFires(cfg, LowHealth, c, score) || t in IfFires(cfg, StalledStage, c, score)
        || t in IfFires(cfg, RenewalRisk, c, score);
    }
  }

  /** The active triggers of an account under the current weights, built by
      appending rule after rule: exactly the firing triggers, each once, in
      declaration order. */
  method ActiveTriggers(c: Customer, w: Weights, cfg: TriggerConfig) returns (ids: seq<TriggerId>)
    ensures ids == Firing(cfg, c, HealthScore(c, w))
    ensures InDeclarationOrder(ids)
    ensures forall t :: t in ids <==> Fires(cfg, t, c, HealthScore(c, w))
  {
    var score := HealthScore(c, w);
    ids := [];
    if cfg.noLogin.enabled && c.lastLogin > 14 {
      ids := ids + [NoLogin];
    }
    assert ids == IfFires(cfg, NoLogin, c, score);
    if cfg.lowApi.enabled && c.apiUsage < 40 {
      ids := ids + [LowApi];
    }
    assert ids == IfFires(cfg, NoLogin, c, score) + IfFires(cfg, LowApi, c, score);
    if cfg.lowHealth.enabled && score < 60 {
      ids := ids + [LowHealth];
    }
    assert ids == IfFires(cfg, NoLogin, c, score) + IfFires(cfg, LowApi, c, score)
                + IfFires(cfg, LowHealth, c, score);
    if cfg.stalledStage.enabled {
      var expectedDays := ExpectedStageDays(c.stage);
      if 2 * c.daysInStage > 3 * expectedDays {
        ids := ids + [StalledStage];
      }
    }
    assert ids == IfFires(cfg, NoLogin, c, score) + IfFires(cfg, LowApi, c, score)
                + IfFires(cfg, LowHealth, c, score) + IfFires(cfg, StalledStage, c, score);
    if cfg.renewalRisk.enabled && c.renewalDays <= 60 && score < 70 {
      ids := ids + [RenewalRisk];
    }
    FiringOrdered(cfg, c, score);
    FiringMembers(cfg, c, score);
  }

  /** A disabled trigger never appears, whatever the account. */
  lemma DisabledNeverFires(cfg: TriggerConfig, t: TriggerId, c: Customer, score: int)
    requires !Enabled(cfg, t)
    ensures !Fires(cfg, t, c, score)
  {
  }

  /** The low-health rule fires exactly for at-risk accounts. */
  lemma LowHealthMeansAtRisk(cfg: TriggerConfig, c: Customer, score: int)
    requires Enabled(cfg, LowHealth)
    ensures Fires(cfg, LowHealth, c, score) <==> Classify(score) == AtRisk
  {
  }

  /** Whenever the low-health rule fires for an account renewing within 60
      days, the renewal-risk rule fires too, if enabled. */
  lemma LowHealthImpliesRenewalRisk(cfg: TriggerConfig, c: Customer, score: int)
    requires Enabled(cfg, RenewalRisk) && c.renewalDays <= 60
    requires Fires(cfg, LowHealth, c, score)
    ensures Fires(cfg, RenewalRisk, c, score)
  {
  }

  /** The stalled-stage boundary: an Integration account (45 expected days)
      is stalled from 68 days on, so 52 and 67 days do not fire it. */
  lemma IntegrationStallBoundary(cfg: TriggerConfig, c: Customer, score: int)
    requires c.stage == "Integration"
    ensures ExpectedStageDays(c.stage) == 45
    ensures c.daysInStage <= 67 ==> !Fires(cfg, StalledStage, c, score)
    ensures Enabled(cfg, StalledStage) && c.daysInStage >= 68 ==> Fires(cfg, StalledStage, c, score)
  {
  }
}
