/** `UsageTracker`: prices and records usage, evaluates the provider's spend
    against its monthly budget, records warning/critical alerts and builds the
    dashboard feed. Its `budgets` map is the budget store the evaluator reads. */
module Tracker {
  import opened Common
  import opened Pricing
  import opened UsageDb

  /** The providers the dashboard always lists, in order. */
  const TrackedProviders: seq<string> := ["openai", "gemini"]

  const DefaultOpenaiBudget: real := 10.0
  const DefaultGeminiBudget: real := 8.0
  const DefaultWarning: real := 0.8
  const DefaultCritical: real := 0.95

  /** A budget status: the dashboard's `status` and the kind of alert due. */
  datatype Level = Normal | Warning | Critical

  /** `parseFloat(env) || fallback`: an unset, unparsable or zero setting
      takes the fallback. */
  function ConfigOr(env: Option<real>, fallback: real): real
  {
    if env.Some? && env.value != 0.0 then env.value else fallback
  }

  /** `currentSpending / budgetLimit`; None where JavaScript computes NaN
      because the provider has no budget entry. */
  function UsageRatio(spend: real, limit: Option<real>): Option<real>
    requires limit.Some? ==> limit.value != 0.0
  {
    if limit.None? then None else Some(spend / limit.value)
  }

  /** The alert a spend ratio calls for, read from the top: critical at or
      above the critical threshold, else warning at or above the warning one.
      The three levels are exclusive and exhaustive; a NaN ratio calls for none. */
  function Classify(ratio: Option<real>, warning: real, critical: real): (level: Level)
    ensures level == Critical <==> ratio.Some? && ratio.value >= critical
    ensures level == Warning <==> ratio.Some? && warning <= ratio.value < critical
    ensures level == Normal <==> ratio.None? || (ratio.value < warning && ratio.value < critical)
  {
    match ratio
    case None => Normal
    case Some(x) => if x >= critical then Critical else if x >= warning then Warning else Normal
  }

  /** The dashboard's status choice on a percentage, with its fixed 80/95 cut-offs. */
  function DashboardStatus(percent: real): (status: Level)
    ensures status == Critical <==> percent >= 95.0
    ensures status == Warning <==> 80.0 <= percent < 95.0
    ensures status == Normal <==> percent < 80.0
  {
    if percent >= 95.0 then Critical else if percent >= 80.0 then Warning else Normal
  }

  /** The alert_type string recorded for an alert level. */
  function LevelName(level: Level): string
  {
    match level
    case Normal => "normal"
    case Warning => "warning"
    case Critical => "critical"
  }

  /** The threshold an alert of the given level reports. */
  function ThresholdOf(level: Level, warning: real, critical: real): real
  {
    if level == Critical then critical else warning
  }

  /** The row checkBudgetAlerts records for an alert of `level`. */
  function AlertRowFor(id: nat, provider: string, level: Level, warning: real, critical: real,
                       spend: real, limit: real, now: Clock): AlertRow
  {
    var threshold := ThresholdOf(level, warning, critical);
    AlertRow(id, provider, LevelName(level), threshold, spend, limit,
             AlertMessage(LevelName(level), provider, threshold, spend, limit), now.month, now.year)
  }

  /** checkBudgetAlerts' result; None stands for JavaScript's undefined/NaN. */
  datatype BudgetCheck = BudgetCheck(currentSpending: real, budgetLimit: Option<real>,
                                     usagePercent: Option<real>, remainingBudget: Option<real>)

  /** trackUsage's result (its constant `success: true` is not kept). */
  datatype Tracked = Tracked(cost: real, tokens: int, provider: string, model: string)

  /** getUsageStats' result. */
  datatype UsageStats = UsageStats(usage: seq<Aggregate<(string, string)>>, currentSpending: real,
                                   budgetLimit: Option<real>, remainingBudget: Option<real>,
                                   usagePercent: Option<real>)

  /** One entry of the dashboard feed. */
  datatype ProviderSummary = ProviderSummary(provider: string, totalTokens: int, totalCost: real,
                                             totalRequests: nat, budgetLimit: real, remainingBudget: real,
                                             usagePercent: real, status: Level)

  /** With the default thresholds the dashboard's percentage status is the
      alert checkBudgetAlerts would raise for the same spend and limit. */
  lemma StatusMatchesAlert(spend: real, limit: real)
    requires limit != 0.0
    ensures DashboardStatus(spend / limit * 100.0)
         == Classify(UsageRatio(spend, Some(limit)), DefaultWarning, DefaultCritical)
  {
  }

  /** Scenario: $8.50 of a $10 budget calls for a warning at 0.8; $9.60 for
      a critical alert at 0.95; $0.0015 for none. */
  lemma ScenarioLevels()
    ensures Classify(UsageRatio(8.5, Some(10.0)), DefaultWarning, DefaultCritical) == Warning
    ensures ThresholdOf(Warning, DefaultWarning, DefaultCritical) == 0.8
    ensures Classify(UsageRatio(9.6, Some(10.0)), DefaultWarning, DefaultCritical) == Critical
    ensures ThresholdOf(Critical, DefaultWarning, DefaultCritical) == 0.95
    ensures Classify(UsageRatio(0.0015, Some(10.0)), DefaultWarning, DefaultCritical) == Normal
  {
  }

  class UsageTracker {
    const db: Database
    var budgets: map<string, real>
    var warning: real
    var critical: real

    /** The store is consistent, both tracked providers have a budget and no
        budget is zero (the environment's `|| default` and the handler's
        positivity check keep zero out). */
    ghost predicate Valid()
      reads this, db
    {
      && db.Valid()
      && (forall p :: p in TrackedProviders ==> p in budgets)
      && (forall p :: p in budgets ==> budgets[p] != 0.0)
    }

    /** `this.budgets[provider]`, None when the key is absent. */
    function Limit(provider: string): (limit: Option<real>)
      reads this
      ensures limit.Some? <==> provider in budgets
      ensures limit.Some? ==> limit.value == budgets[provider]
    {
      if provider in budgets then Some(budgets[provider]) else None
    }

    /** The alert the provider's spend this month calls for. */
    ghost function DueLevel(provider: string, now: Clock): Level
      reads this, db
      requires Valid()
    {
      Classify(UsageRatio(MonthSpending(db.usage, provider, now.month, now.year), Limit(provider)), warning, critical)
    }

    /** The constructor: an empty database, budgets and thresholds from the
        environment with their defaults. */
    constructor (openaiEnv: Option<real>, geminiEnv: Option<real>, warningEnv: Option<real>, criticalEnv: Option<real>)
      ensures Valid() && fresh(db)
      ensures db.usage == [] && db.budgets == map[] && db.alerts == []
      ensures budgets == map["openai" := ConfigOr(openaiEnv, DefaultOpenaiBudget),
                             "gemini" := ConfigOr(geminiEnv, DefaultGeminiBudget)]
      ensures warning == ConfigOr(warningEnv, DefaultWarning)
      ensures critical == ConfigOr(criticalEnv, DefaultCritical)
    {
      db := new Database();
      budgets := map["openai" := ConfigOr(openaiEnv, DefaultOpenaiBudget),
                     "gemini" := ConfigOr(geminiEnv, DefaultGeminiBudget)];
      warning := ConfigOr(warningEnv, DefaultWarning);
      critical := ConfigOr(criticalEnv, DefaultCritical);
    }

    /** sendAlert: records one alert row and returns the message's contents. */
    method SendAlert(provider: string, alertType: string, threshold: real, currentSpend: real,
                     budgetLimit: real, now: Clock, stored: bool)
      returns (r: Result<AlertMessage, DbError>)
      requires Valid()
      modifies db
      ensures Valid()
      ensures db.usage == old(db.usage) && db.budgets == old(db.budgets)
      ensures db.usageSeq == old(db.usageSeq) && db.budgetSeq == old(db.budgetSeq)
      ensures var message := AlertMessage(alertType, provider, threshold, currentSpend, budgetLimit);
              if stored then
                && r == Ok(message)
                && db.alerts == old(db.alerts) + [AlertRow(old(db.alertSeq) + 1, provider, alertType, threshold,
                                                           currentSpend, budgetLimit, message, now.month, now.year)]
                && db.alertSeq == old(db.alertSeq) + 1
              else
                r.Err? && db.alerts == old(db.alerts) && db.alertSeq == old(db.alertSeq)
    {
      var message := AlertMessage(alertType, provider, threshold, currentSpend, budgetLimit);
      var id := db.RecordAlert(provider, alertType, threshold, currentSpend, budgetLimit, message, now, stored);
      if id.Err? {
        return Err(id.error);
      }
      r := Ok(message);
    }

    /** checkBudgetAlerts: divides the month's spend by the budget and records
        at most one alert, warning or critical, as Classify says; an alert is
        recorded again on every call while the spend stays above a threshold. */
    method CheckBudgetAlerts(provider: string, now: Clock, alertStored: bool)
      returns (r: Result<BudgetCheck, DbError>)
      requires Valid()
      modifies db
      ensures Valid()
      ensures db.usage == old(db.usage) && db.budgets == old(db.budgets)
      ensures db.usageSeq == old(db.usageSeq) && db.budgetSeq == old(db.budgetSeq)
      ensures var spend := MonthSpending(db.usage, provider, now.month, now.year);
              var level := DueLevel(provider, now);
              && |db.alerts| <= |old(db.alerts)| + 1
              && db.alertSeq == old(db.alertSeq) + (if level != Normal && alertStored then 1 else 0)
              && (r.Ok? <==> level == Normal || alertStored)
              && db.alerts == old(db.alerts)
                   + (if level != Normal && alertStored
                      then [AlertRowFor(old(db.alertSeq) + 1, provider, level, warning, critical,
                                        spend, budgets[provider], now)]
                      else [])
              && (r.Ok? ==> r.value == BudgetCheck(spend, Limit(provider), UsageRatio(spend, Limit(provider)),
                                                   if provider in budgets then Some(budgets[provider] - spend) else None))
    {
      var currentSpending := MonthSpending(db.usage, provider, now.month, now.year);
      var budgetLimit := Limit(provider);
      var usagePercent := UsageRatio(currentSpending, budgetLimit);

      if usagePercent.Some? && usagePercent.value >= warning && usagePercent.value < critical {
        var sent := SendAlert(provider, "warning", warning, currentSpending, budgetLimit.value, now, alertStored);
        if sent.Err? {
          return Err(sent.error);
        }
      }

      if usagePercent.Some? && usagePercent.value >= critical {
        var sent := SendAlert(provider, "critical", critical, currentSpending, budgetLimit.value, now, alertStored);
        if sent.Err? {
          return Err(sent.error);
        }
      }

      var remaining := if budgetLimit.Some? then Some(budgetLimit.value - currentSpending) else None;
      r := Ok(BudgetCheck(currentSpending, budgetLimit, usagePercent, remaining));
    }

    /** trackUsage: prices the request, appends exactly one ledger row with
        that cost, then runs the alert check; the ledger row stays even when
        recording the alert fails. */
    method TrackUsage(provider: string, model: string, tokens: int, requestType: string, now: Clock,
                      usageStored: bool, alertStored: bool)
      returns (r: Result<Tracked, DbError>)
      requires Valid()
      modifies db
      ensures Valid()
      ensures db.budgets == old(db.budgets) && db.budgetSeq == old(db.budgetSeq)
      ensures !usageStored ==>
                && r == Err(WriteFailed("api_usage"))
                && db.usage == old(db.usage) && db.usageSeq == old(db.usageSeq)
                && db.alerts == old(db.alerts) && db.alertSeq == old(db.alertSeq)
      ensures usageStored ==>
                var cost := CalculateCost(provider, model, tokens, requestType);
                var spend := MonthSpending(db.usage, provider, now.month, now.year);
                var level := DueLevel(provider, now);
                && db.usage == old(db.usage) + [UsageRow(old(db.usageSeq) + 1, provider, model, tokens, cost,
                                                         requestType, now.month, now.year)]
                && db.usageSeq == old(db.usageSeq) + 1
                && spend == MonthSpending(old(db.usage), provider, now.month, now.year) + cost
                && db.alerts == old(db.alerts)
                     + (if level != Normal && alertStored
                        then [AlertRowFor(old(db.alertSeq) + 1, provider, level, warning, critical,
                                          spend, budgets[provider], now)]
                        else [])
                && db.alertSeq == old(db.alertSeq) + (if level != Normal && alertStored then 1 else 0)
                && (r.Ok? <==> level == Normal || alertStored)
                && (r.Ok? ==> r.value == Tracked(cost, tokens, provider, model))
    {
      var cost := CalculateCost(provider, model, tokens, requestType);
      ghost var before := db.usage;
      var id := db.RecordUsage(provider, model, tokens, cost, requestType, now, usageStored);
      if id.Err? {
        return Err(id.error);
      }
      SpendingAfterRecord(before, db.usage[|db.usage| - 1], provider, now.month, now.year);
      assert db.alerts == old(db.alerts) && db.alertSeq == old(db.alertSeq);
      var check := CheckBudgetAlerts(provider, now, alertStored);
      if check.Err? {
        return Err(check.error);
      }
      r := Ok(Tracked(cost, tokens, provider, model));
    }

    /** getUsageStats: the grouped usage of the requested month, but the
        spending, remaining budget and percentage of the CURRENT month,
        whatever month and year are asked for. */
    method GetUsageStats(provider: string, month: string, year: int, now: Clock) returns (stats: UsageStats)
      requires Valid()
      ensures stats.usage == MonthlyUsage(db.usage, provider, month, year)
      ensures stats.currentSpending == MonthSpending(db.usage, provider, now.month, now.year)
      ensures stats.budgetLimit.Some? <==> provider in budgets
      ensures provider in budgets ==>
                && stats.budgetLimit == Some(budgets[provider])
                && stats.remainingBudget == Some(budgets[provider] - stats.currentSpending)
                && stats.usagePercent == Some(stats.currentSpending / budgets[provider] * 100.0)
      ensures provider !in budgets ==> stats.remainingBudget.None? && stats.usagePercent.None?
    {
      var usage := MonthlyUsage(db.usage, provider, month, year);
      var currentSpending := MonthSpending(db.usage, provider, now.month, now.year);
      var budgetLimit := Limit(provider);
      var remaining := if budgetLimit.Some? then Some(budgetLimit.value - currentSpending) else None;
      var percent := if budgetLimit.Some? then Some(currentSpending / budgetLimit.value * 100.0) else None;
      stats := UsageStats(usage, currentSpending, budgetLimit, remaining, percent);
    }

    /** A dashboard entry for `provider`: its ledger totals for the month,
        its budget, `remainingBudget = limit - cost`, and the 80/95 percent
        status of cost / limit. */
    ghost predicate SummaryOf(summary: ProviderSummary, provider: string, now: Clock)
      reads this, db
      requires Valid()
    {
      var rows := MonthRows(db.usage, provider, now.month, now.year);
      && provider in budgets
      && summary.provider == provider
      && summary.totalTokens == SumTokens(rows)
      && summary.totalCost == MonthSpending(db.usage, provider, now.month, now.year)
      && summary.totalRequests == |rows|
      && summary.budgetLimit == budgets[provider]
      && summary.remainingBudget == budgets[provider] - summary.totalCost
      && summary.usagePercent == summary.totalCost / budgets[provider] * 100.0
      && summary.status == DashboardStatus(summary.usagePercent)
    }

    /** getDashboardData: exactly one summary per tracked provider, in order;
        its totals are the provider's ledger totals for the month (zeros when
        it has no usage), `remainingBudget = limit - cost`, and its status
        is the 80/95 percent classification of cost / limit. */
    method GetDashboardData(now: Clock) returns (result: seq<ProviderSummary>)
      requires Valid()
      ensures |result| == |TrackedProviders|
      ensures forall i :: 0 <= i < |result| ==> SummaryOf(result[i], TrackedProviders[i], now)
    {
      var dashboardData := DashboardRows(db.usage, now.month, now.year);
      result := [];
      for i := 0 to |TrackedProviders|
        invariant |result| == i
        invariant forall j :: 0 <= j < i ==> SummaryOf(result[j], TrackedProviders[j], now)
      {
        var provider := TrackedProviders[i];
        var providerData := FindOrZero(dashboardData, provider);
        DashboardRowFor(db.usage, provider, now.month, now.year);
        var budgetLimit := budgets[provider];
        var usagePercent := providerData.totalCost / budgetLimit * 100.0;
        var summary := ProviderSummary(provider, providerData.totalTokens, providerData.totalCost,
                                       providerData.totalRequests, budgetLimit,
                                       budgetLimit - providerData.totalCost, usagePercent,
                                       DashboardStatus(usagePercent));
        assert SummaryOf(summary, provider, now);
        result := result + [summary];
      }
    }
  }
}
