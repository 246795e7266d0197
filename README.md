# AI API usage tracking and budget alerts: a Dafny model

This project models the backend of an AI API usage dashboard for two providers, OpenAI and Gemini. It covers five parts:

- **Pricing table.** `calculateCost` looks up a per-token rate by provider, model and request type. Unknown pairs and unknown request types get permissive fallbacks.
- **SQLite store.** There are three tables:
  - the `api_usage` ledger;
  - `monthly_budgets`, with one row per (provider, month, year);
  - the `alert_notifications` log.

  The store also answers three read-only aggregates: month spending, monthly usage grouped by request type and model, and dashboard rows grouped by provider.
- **`UsageTracker`.** It holds the in-memory `budgets` map that the evaluator reads. It records usage, compares the month's spend with the budget, and records at most one alert per check, either warning or critical. It also builds the dashboard feed.
- **Express handlers.** These are the validation of `POST /api/track-usage` and `PUT /api/budget/:provider`, the in-place update of the budget map, and the tracking middleware with its token estimate.
- **Monthly budget reset.** This scheduled job works on a budget store keyed by (year, month). If the month already has a budget it does nothing. Otherwise it creates the month's budget, copying the previous month's limit (default $100), and deactivates the previous month. When a step throws, it tries to log a `system_error` and then re-raises.

Modelling choices:

- Money is `real`. A JavaScript `NaN` or `undefined` becomes `None` in an `Option`. This happens, for example, when dividing by the budget of a provider that has no entry.
- The clock is a parameter. For the backend it is `Clock(month, year)`: the month comes from the UTC ISO string and the year is local. For the reset job it is two integers.
- Whether a store write succeeds is also a parameter (`stored`, `usageStored`, `alertStored`, or `fault` for the reset job). This lets the model cover the error paths:
  - an alert that fails to record does not roll back the ledger row written before it;
  - the track-usage handler answers 500;
  - the middleware still calls `next` once;
  - the reset job tries to log a `system_error`, then re-raises.

Behaviour of the code that is easy to misread, kept as written:

- The dashboard's status uses fixed cut-offs of 80 % and 95 %. It does not use the configured thresholds. It agrees with the alert check only when the thresholds have their defaults (`StatusMatchesAlert`).
- The evaluator reads the tracker's in-memory `budgets` map. The `monthly_budgets` table is never read, and nothing in the backend calls `updateMonthlyBudget`.
- `getUsageStats` groups the usage of the requested month. Its spending, remaining budget and percentage are always for the current month.
- Track-usage rejects a zero token count as well as a missing one. It accepts negative counts, which are priced at a negative cost (`TokenCountValidation`). It accepts any request type.
- The reset job's store has no provider column. It is keyed by (year, month) only.
- The `threshold_percent` column of an alert stores the ratio (0.8 or 0.95), not a percentage. `usagePercent` in `checkBudgetAlerts`' result is also a ratio.

## Model

| member | source | states |
|---|---|---|
| `Pricing.CalculateCost` | backend/src/usageTracker.js:41-73 | An unknown (provider, model) costs tokens × 0.001/1000 for any request type. A listed model costs tokens × its output rate for "output". For every other request type, including unrecognised ones, it costs tokens × the input rate. |
| `Pricing.OutputRateAtLeastInput` | backend/src/usageTracker.js:42-63 | Every listed model has a positive input rate and an output rate at least as large. |
| `Pricing.CostNonNegative` | backend/src/usageTracker.js:65-72 | A non-negative token count never costs a negative amount. |
| `Pricing.CostLinear` | backend/src/usageTracker.js:65-72 | Cost is additive in tokens: cost(t1+t2) = cost(t1)+cost(t2) and cost(2t) = 2·cost(t). |
| `Pricing.GptTurboThousandInputTokens` | backend/src/usageTracker.js:44-46 | 1000 input tokens of gpt-3.5-turbo cost $0.0015. |
| `UsageDb.Database.constructor` | backend/src/database.js:10-58 | The three tables start empty, with their id counters at 0. |
| `UsageDb.Database.RecordUsage` | backend/src/database.js:61-81 | On success it appends exactly one ledger row with the given provider, model, tokens, cost and request type, stamped with the clock's month and year. It returns the new id, which is larger than every existing id. On failure nothing changes. The other tables are untouched. |
| `UsageDb.MonthRowsFilter` | backend/src/database.js:112-116 | The query's WHERE clause selects a row iff it is in the ledger and matches the provider, month and year. The selection is never longer than the ledger. |
| `UsageDb.MonthSpending` | backend/src/database.js:107-125 | getCurrentMonthSpending is 0 when no row matches (`SUM` is NULL, so `\|\| 0` applies). It is never negative when no ledger cost is negative. |
| `UsageDb.SpendingAfterRecord` | backend/src/database.js:107-125 | After a row is appended, the spending for its own (provider, month, year) grows by exactly its cost. Every other provider's or month's spending is unchanged. |
| `UsageDb.NoRowsNoSpending` | backend/src/database.js:112-122 | A provider with no rows in the month has no matching rows, and its spending is 0. |
| `UsageDb.MonthlyUsage` | backend/src/database.js:84-104 | getMonthlyUsage has one group per (request_type, model) pair at most. Its counts, tokens and costs add up to the number, tokens and costs of the provider's rows for the month. |
| `UsageDb.MonthlyUsageGroups` | backend/src/database.js:84-104 | getMonthlyUsage has distinct (request_type, model) groups, one exactly for each pair among the matching rows. Each group sums its own rows. Group counts add up to the number of matching rows, and group costs add up to the month's spending. |
| `UsageDb.GroupByFind` | backend/src/database.js:86-95 | GROUP BY has a group for a key exactly when some row has that key. That group's tokens, cost and count are the sums over exactly those rows. |
| `UsageDb.GroupByDistinct` | backend/src/database.js:86-95 | GROUP BY yields at most one group per key. |
| `UsageDb.GroupByTotals` | backend/src/database.js:86-95 | Group counts add up to the number of rows grouped. Group costs and group tokens add up to the rows' totals. |
| `UsageDb.PeriodRowsByProvider` | backend/src/database.js:177-185 | Among the month's rows, those of one provider are exactly that provider's rows for the month. |
| `UsageDb.DashboardRows` | backend/src/database.js:171-194 | getDashboardData has one row per provider at most. Its counts, tokens and costs add up to those of all the month's rows. |
| `UsageDb.DashboardRowFor` | backend/src/database.js:171-194 | getDashboardData has a row for a provider exactly when the provider has usage in the month. Providers without usage are absent. A provider's row totals its rows for the month, and its cost equals getCurrentMonthSpending. |
| `UsageDb.Database.UpdateMonthlyBudget` | backend/src/database.js:128-144 | INSERT OR REPLACE: on success the (provider, month, year) key holds a new row with a fresh id, the given limit and current_spend 0. Every other key is unchanged. On failure nothing changes. |
| `UsageDb.UpsertIdempotent` | backend/src/database.js:29-39 | After the upsert the key holds (limit, 0) and other keys keep their values. Repeating the upsert changes nothing except the row's id. |
| `UsageDb.Database.RecordAlert` | backend/src/database.js:147-168 | On success it appends exactly one alert row with the given type, threshold, spend and limit, stamped with the clock. It returns the new id. There is no deduplication. |
| `Tracker.UsageTracker.constructor` | backend/src/usageTracker.js:4-14 | The budgets are openai = env or 10 and gemini = env or 8. The thresholds are warning = env or 0.8 and critical = env or 0.95. An unset or zero setting takes the default. |
| `Tracker.Classify` | backend/src/usageTracker.js:83-90 | An alert is critical iff ratio ≥ critical. It is a warning iff warning ≤ ratio < critical. There is none iff the ratio is below both thresholds or is NaN. |
| `Tracker.DashboardStatus` | backend/src/usageTracker.js:159 | The status is critical iff the percentage is ≥ 95. It is warning iff the percentage is in [80, 95), and normal iff it is below 80. |
| `Tracker.StatusMatchesAlert` | backend/src/usageTracker.js:152-159 | With the default thresholds, the dashboard status of cost/limit·100 equals the alert level of cost/limit. |
| `Tracker.ScenarioLevels` | backend/src/usageTracker.js:80-90 | Against a $10 budget: $8.50 gives a warning at 0.8, $9.60 a critical alert at 0.95, and $0.0015 no alert. |
| `Tracker.UsageTracker.SendAlert` | backend/src/usageTracker.js:105-115 | On success it records one alert row carrying the message's inputs and returns them. On failure it records nothing. |
| `Tracker.UsageTracker.CheckBudgetAlerts` | backend/src/usageTracker.js:76-102 | At most one alert row is appended, and the alert counter moves by the same amount. The ledger and budgets are unchanged. It is a warning or critical row exactly as the classification of the month's spend over the budget says, with that level's threshold and a snapshot of spend and limit. A repeated call appends it again. The result is Ok unless a due alert fails to record. It returns remainingBudget = limit − spend, which may be negative, and None when the provider has no budget. |
| `Tracker.UsageTracker.TrackUsage` | backend/src/usageTracker.js:17-38 | It appends exactly one ledger row whose cost is CalculateCost(...), so the month's spending grows by exactly that cost. Then the alert check runs on the new spending. The row stays even if the alert fails to record. Both id counters move by the number of rows added. When the ledger write fails, nothing changes. On success it returns (cost, tokens, provider, model). |
| `Tracker.UsageTracker.GetUsageStats` | backend/src/usageTracker.js:118-135 | usage is getMonthlyUsage for the requested month and year. The spending is the current month's, whatever month and year are asked for. Limit, remaining and percentage come from the budget map, and are None when the provider has no entry. |
| `Tracker.UsageTracker.GetDashboardData` | backend/src/usageTracker.js:138-168 | It returns exactly two summaries, openai then gemini. Tokens, cost and requests are the provider's ledger totals for the month, and zeros with no usage. The cost equals getCurrentMonthSpending. remaining = limit − cost, and the status is critical at ≥ 95 %, warning at ≥ 80 %, otherwise normal. |
| `Server.MissingRequiredField` | backend/src/server.js:90-95 | A request is rejected iff provider or model is absent or empty, or tokens is absent or 0. |
| `Server.RequestTypeOrInput` | backend/src/server.js:97 | An absent or empty requestType becomes "input". Any other value is kept. |
| `Server.AcceptableBudgetLimit` | backend/src/server.js:169-174 | A budget limit passes iff it is present and positive. |
| `Server.EstimateTokens` | backend/src/server.js:26 | Given JavaScript's `length` of the content, the estimate is the least n with 4n ≥ length. It is 25 when the length is undefined or 0. |
| `Server.TokenCountValidation` | backend/src/server.js:88-97 | A zero token count is rejected. A negative count passes validation and is priced at a negative cost. |
| `Server.HandleTrackUsage` | backend/src/server.js:86-109 | Missing fields give 400 and record nothing. Otherwise the handler records exactly one ledger row, with requestType defaulting to "input". When the spend is due for an alert and the write succeeds, it also appends that alert row. It answers 200 with the priced usage, or 500 when a store write fails. A failed ledger write leaves the alert log unchanged. The id counters advance by the rows added, and a 400 leaves them unchanged. |
| `Server.HandleBudgetUpdate` | backend/src/server.js:164-191 | An absent, zero or negative limit gives 400 and leaves budgets unchanged. Otherwise budgets[provider] takes the limit, for any provider string, and no other key changes. |
| `Server.TrackApiUsage` | backend/src/server.js:21-35 | When the write succeeds, the middleware records the estimated tokens and any due alert whose write succeeds. When it fails, the ledger and alert log are unchanged. The id counters advance by the rows added. Either way it calls next exactly once. |
| `MonthlyReset.PreviousMonth` | scripts/cron-monthly-reset.ts:48-54 | The previous month is exactly one month earlier: month 1 wraps to month 12 of year − 1, otherwise it is month − 1 of the same year. |
| `MonthlyReset.CarriedLimit` | scripts/cron-monthly-reset.ts:66 | The new limit is the previous record's limit when that exists and is non-zero, else 100. It is never zero. |
| `MonthlyReset.ResetAlerts` | scripts/cron-monthly-reset.ts:94-108 | At most one budget_reset entry is logged, for the created budget's year, month and limit. It is logged iff usage / limit × 100 > 0, that is, iff the usage is non-zero and has the limit's sign. |
| `MonthlyReset.NoResetAlertForFreshBudget` | scripts/cron-monthly-reset.ts:94-108 | A new budget has zero usage, so usagePercentage > 0 is false and no budget_reset entry is logged. |
| `MonthlyReset.Rolled` | scripts/cron-monthly-reset.ts:24-135 | After a run that does not raise, the current month has a budget. No budget is removed, the alert log only grows, and ids only increase. |
| `MonthlyReset.RolledIdempotent` | scripts/cron-monthly-reset.ts:33-45 | When the month's budget exists, a run changes nothing. After any run it exists, so a second run in the same month is a no-op. |
| `MonthlyReset.RolledEffect` | scripts/cron-monthly-reset.ts:65-91 | A run for a new month creates (year, month, carried limit, usage 0, active) with a fresh id. Of the previous month's record, only isActive changes, to false. All other records are untouched, nothing is logged, and the store stays consistent. |
| `MonthlyReset.BudgetStore.FindUnique` | scripts/cron-monthly-reset.ts:33-40 | Returns the record stored under the (year, month) key, if any. |
| `MonthlyReset.BudgetStore.Create` | scripts/cron-monthly-reset.ts:68-76 | Stores the given record under its (year, month), which has no record yet, with the next id. |
| `MonthlyReset.BudgetStore.Deactivate` | scripts/cron-monthly-reset.ts:81-89 | Sets isActive to false on the record at the key and changes nothing else. |
| `MonthlyReset.BudgetStore.LogAlerts` | scripts/cron-monthly-reset.ts:117-126 | Appends the given entries to the alert log and leaves the budgets and the id counter unchanged. |
| `MonthlyReset.RaiseAfterLogging` | scripts/cron-monthly-reset.ts:112-131 | It appends one system_error entry naming the failed step when that write succeeds, and swallows its failure otherwise. Then it re-raises the original error. Budgets are unchanged. |
| `MonthlyReset.MonthlyBudgetReset` | scripts/cron-monthly-reset.ts:24-135 | A run raises iff the failing store operation is one it reaches. A run that does not raise leaves the store exactly as `Rolled` describes, and reports AlreadyExists iff the month's budget was there. A run that raises has tried to log a system_error. A run that raises before creating the record leaves the budgets and the id counter unchanged. If deactivation failed, the new record is kept with its id, and the previous record is unchanged. |

## Left out

- Express setup, CORS, the health, 404 and 500 handlers, `app.listen`, the `/api/dashboard` and `/api/usage/:provider` route wrappers and their 500 answers, the simulated chat responses and the cron route's bearer check: HTTP plumbing with no logic beyond the calls modelled.
- The daily `node-cron` schedule (backend/src/server.js:194-202) and the reset job's schedule: an external trigger. The schedule only calls `CheckBudgetAlerts` for the two providers.
- Console logging, `stmt.finalize`, `close` and Prisma's `$disconnect`: no observable state.
- Clock access (`new Date()`, `toISOString`, `getFullYear`, `getMonth`): the readings are parameters. The UTC month and local year can disagree around New Year; the model stores whatever it is given.
- Tracker.UsageTracker.TrackUsage: the source reads the clock twice, once when recording the row and once when summing the month's spending. The model passes one `now` to both. So "the alert check runs on the new spending" is not promised for a call that crosses a month boundary between the two readings.
- Timestamp columns (`timestamp`, `created_at`, `sent_at`): their values come from the clock and nothing reads them.
- Failures of read queries: reads always succeed. Only write failures are parameters.
- Floating point: money is exact `real`. `NaN`/`undefined` is `None`.
- Alert message text: `toFixed` and `toUpperCase` formatting is not rendered. `AlertMessage` keeps the values the text is built from.
- Row order of `GROUP BY`: SQLite does not fix it. The model lists groups in order of first appearance. The properties its lemmas state do not depend on that order: distinct keys, per-key sums and totals.
- Data already in the database file at start-up: `CREATE TABLE IF NOT EXISTS` keeps old rows, but the model starts from empty tables.
- JSON bodies of other types: tokens are integers and budgetLimit a number. A string budgetLimit, which `parseFloat` may turn into `NaN`, is not modelled. Neither are object-prototype names such as "constructor" used as provider, model or request type.
- Server.EstimateTokens: takes JavaScript's `length` of the body's `content` as its input. That is UTF-16 code units for a string, the element count for an array, and undefined for an absent content or a number. Computing that length from the JSON body is not modelled, because Dafny strings count Unicode scalar values, not UTF-16 units.
- MonthlyReset.BudgetStore.Create: requires the (year, month) key to be free. Prisma throws on a duplicate of the unique key, but the only caller creates a record just after finding none, so that throw is not modelled.
- Environment parsing: settings are given as `Option<real>` (None for unset or unparsable).
- The Prisma/stub client switch and the SQLite driver: replaced by the in-memory `BudgetStore` and `Database`.
- Budget record ids: the reset job's store numbers records with a counter (`lastId + 1`), whereas Prisma generates string ids. Nothing in the job depends on their order, so "the next id" and "ids only increase" describe the model, not the database.
- MonthlyReset.BudgetStore.Deactivate: updates the record at the previous (year, month) key, whereas the source updates by id. The store keeps one record per key, so this is the same record.
- MonthlyReset.MonthlyBudgetReset: a failure of the `budget_reset` write is not modelled, because that write is never attempted (`NoResetAlertForFreshBudget`). `budgetLimitUsd` is a number, as the dashboard page types it, so a zero limit is falsy and `\|\| 100` replaces it.
- Concurrency between requests: each operation runs to completion. The evaluate-then-alert race is not modelled.
