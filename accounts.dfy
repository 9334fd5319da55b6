/** The records of the customer-success dashboard: accounts, their tasks,
    the health-score weights and the automation-trigger configuration,
    together with the fixed tables and the seed dataset. */
module Accounts {

  datatype Option<T> = None | Some(value: T)

  datatype Priority = Low | Medium | High | Critical

  datatype TaskStatus = Open | Completed

  datatype TriggerId = NoLogin | LowApi | LowHealth | StalledStage | RenewalRisk

  /** An intervention task attached to one account. */
  datatype Task = Task(
    id: int,
    name: string,
    priority: Priority,
    status: TaskStatus,
    dueDate: string,
    triggerId: Option<TriggerId>,
    completedDate: Option<string>)

  /** A tracked account. Numbers are whatever the form produced: nothing
      here is range-checked, exactly as in the dashboard. */
  datatype Customer = Customer(
    id: int,
    name: string,
    mrr: int,
    stage: string,
    daysInStage: int,
    lastLogin: int,
    apiUsage: int,
    supportTickets: int,
    paymentStatus: string,
    renewalDays: int,
    contractStart: string,
    trend: string,
    closedBy: string,
    csOwner: string,
    dealSource: string,
    lastTouchDate: string,
    tasks: seq<Task>)

  /** The five health-score weights, in percent. */
  datatype Weights = Weights(login: int, api: int, support: int, payment: int, stage: int)

  function WeightTotal(w: Weights): int {
    w.login + w.api + w.support + w.payment + w.stage
  }

  /** The settings dialog's sliders only produce values in 0..100. */
  predicate NonNegative(w: Weights) {
    w.login >= 0 && w.api >= 0 && w.support >= 0 && w.payment >= 0 && w.stage >= 0
  }

  const DefaultWeights := Weights(25, 25, 20, 15, 15)

  /** One entry of the automation-trigger table. Only `enabled` is read by
      the engine; the rest is display text. */
  datatype TriggerDef = TriggerDef(
    name: string,
    condition: string,
    action: string,
    priority: Priority,
    enabled: bool)

  /** The fixed, closed set of five triggers, each with its own settings. */
  datatype TriggerConfig = TriggerConfig(
    noLogin: TriggerDef,
    lowApi: TriggerDef,
    lowHealth: TriggerDef,
    stalledStage: TriggerDef,
    renewalRisk: TriggerDef)

  function Setting(cfg: TriggerConfig, t: TriggerId): TriggerDef {
    match t
    case NoLogin => cfg.noLogin
    case LowApi => cfg.lowApi
    case LowHealth => cfg.lowHealth
    case StalledStage => cfg.stalledStage
    case RenewalRisk => cfg.renewalRisk
  }

  function Enabled(cfg: TriggerConfig, t: TriggerId): bool {
    Setting(cfg, t).enabled
  }

  const DefaultTriggers := TriggerConfig(
    TriggerDef("No Recent Login", "Last login > 14 days", "CS check-in call", High, true),
    TriggerDef("Low API Usage", "API usage < 40%", "Send optimization email", Medium, true),
    TriggerDef("Low Health Score", "Health score < 60", "Slack alert to CS team", High, true),
    TriggerDef("Stalled in Stage", "Days in stage > 1.5× expected", "Escalation call", High, true),
    TriggerDef("Renewal at Risk", "Renewal ≤ 60 days AND score < 70", "Flag for renewal team", Critical, true))

  /** The stages with an entry in the expected-days table. */
  const KnownStages: set<string> := {"Signed", "Kickoff", "Integration", "Training", "Go-Live"}

  /** Expected days per onboarding stage; any other stage name counts as 30. */
  function ExpectedStageDays(stage: string): (days: int)
    ensures days > 0
    ensures stage == "Signed" ==> days == 14
    ensures stage == "Kickoff" ==> days == 30
    ensures stage == "Integration" ==> days == 45
    ensures stage == "Training" ==> days == 21
    ensures stage == "Go-Live" ==> days == 30
    ensures stage !in KnownStages ==> days == 30
  {
    if stage == "Signed" then 14
    else if stage == "Kickoff" then 30
    else if stage == "Integration" then 45
    else if stage == "Training" then 21
    else if stage == "Go-Live" then 30
    else 30
  }

  /** The six accounts the dashboard starts from when nothing is stored. */
  const SeedCustomers: seq<Customer> := [
    Customer(1, "Sunrise Home Health", 2850, "Integration", 52, 18, 45, 8, "current", 145,
             "2024-09-15", "down", "Sarah Chen", "Mike Rodriguez", "Inbound", "2025-01-28",
             [Task(1, "Schedule integration review call", High, Open, "2025-02-18", Some(StalledStage), None),
              Task(2, "Send API optimization guide", Medium, Open, "2025-02-20", Some(LowApi), None)]),
    Customer(2, "MediSupply Partners", 4200, "Go-Live", 12, 2, 88, 1, "current", 280,
             "2024-05-10", "up", "Tom Martinez", "Jessica Park", "Partner Referral", "2025-02-10", []),
    Customer(3, "CarePath Solutions", 3100, "Training", 25, 9, 62, 4, "current", 198,
             "2024-08-01", "stable", "Sarah Chen", "Mike Rodriguez", "Outbound", "2025-02-05",
             [Task(3, "Follow up on training session feedback", Medium, Open, "2025-02-17", None, None)]),
    Customer(4, "Velocity DME", 5800, "Go-Live", 8, 1, 92, 0, "current", 312,
             "2024-04-05", "up", "Tom Martinez", "Jessica Park", "Inbound", "2025-02-12", []),
    Customer(5, "HealthBridge Equipment", 1950, "Kickoff", 48, 35, 18, 12, "late", 52,
             "2024-12-20", "down", "Lisa Wang", "Mike Rodriguez", "Outbound", "2025-01-15",
             [Task(4, "URGENT: Executive escalation call", Critical, Open, "2025-02-15", Some(LowHealth), None),
              Task(5, "Payment follow-up", Critical, Open, "2025-02-16", Some(RenewalRisk), None),
              Task(6, "Check-in call - no recent login", High, Open, "2025-02-17", Some(NoLogin), None)]),
    Customer(6, "Premier Home Care", 3600, "Go-Live", 15, 3, 85, 2, "current", 245,
             "2024-06-12", "up", "Sarah Chen", "Jessica Park", "Inbound", "2025-02-11", [])
  ]
}
