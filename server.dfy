/** The Express handlers of the backend that carry logic: field validation on
    `POST /api/track-usage` and `PUT /api/budget/:provider`, the in-place update
    of the tracker's budget map, and the usage-tracking middleware with its
    token estimate. */
module Server {
  import opened Common
  import opened Pricing
  import opened UsageDb
  import opened Tracker

  /** The JSON body of `POST /api/track-usage`; None is an absent field. */
  datatype TrackUsageBody = TrackUsageBody(provider: Option<string>, model: Option<string>,
                                           tokens: Option<int>, requestType: Option<string>)

  datatype ResponseBody =
    | TrackedData(data: Tracked)
    | BudgetData(provider: string, budgetLimit: real)
    | ErrorMessage(error: string)

  datatype Response = Response(status: int, body: ResponseBody)

  const MissingFieldsError: string := "Missing required fields: provider, model, tokens"
  const InvalidBudgetError: string := "Invalid budget limit"
  const TrackFailedError: string := "Failed to track usage"

  /** JavaScript truthiness of an optional string and an optional number. */
  predicate TextTruthy(s: Option<string>) { s.Some? && s.value != "" }

  predicate NumberTruthy(n: Option<int>) { n.Some? && n.value != 0 }

  /** `!provider || !model || !tokens`: a field is missing, empty, or the token
      count is zero. A negative token count passes. */
  function MissingRequiredField(body: TrackUsageBody): (missing: bool)
    ensures missing <==> || body.provider.None? || body.provider.value == ""
                         || body.model.None? || body.model.value == ""
                         || body.tokens.None? || body.tokens.value == 0
  {
    !TextTruthy(body.provider) || !TextTruthy(body.model) || !NumberTruthy(body.tokens)
  }

  /** `requestType || 'input'`. */
  function RequestTypeOrInput(requestType: Option<string>): (t: string)
    ensures t != ""
    ensures requestType.Some? && requestType.value != "" ==> t == requestType.value
    ensures requestType.None? || requestType.value == "" ==> t == "input"
  {
    if TextTruthy(requestType) then requestType.value else "input"
  }

  /** `!budgetLimit || budgetLimit <= 0` rejects; what passes is exactly a
      positive limit. */
  function AcceptableBudgetLimit(budgetLimit: Option<real>): (ok: bool)
    ensures ok <==> budgetLimit.Some? && budgetLimit.value > 0.0
  {
    !(budgetLimit.None? || budgetLimit.value == 0.0 || budgetLimit.value <= 0.0)
  }

  /** `Math.ceil((content?.length || 100) / 4)`: a quarter of the content's
      length rounded up, and 25 when the length is undefined or 0.
      `contentLength` is JavaScript's `length` of the body's `content`: UTF-16
      code units for a string, the element count for an array, and None for
      an absent content or a value without a `length`. */
  function EstimateTokens(contentLength: Option<nat>): (n: int)
    ensures n >= 1
    ensures contentLength.None? || contentLength.value == 0 ==> n == 25
    ensures contentLength.Some? && contentLength.value != 0 ==> 4 * (n - 1) < contentLength.value <= 4 * n
  {
    var length := if contentLength.Some? && contentLength.value != 0 then contentLength.value else 100;
    (length + 3) / 4
  }

  /** A zero token count is rejected like a missing one, while a negative
      count is accepted and is priced at a negative cost. */
  lemma TokenCountValidation(provider: string, model: string, tokens: int, requestType: Option<string>)
    requires provider != "" && model != ""
    ensures MissingRequiredField(TrackUsageBody(Some(provider), Some(model), Some(0), requestType))
    ensures tokens < 0 ==>
              && !MissingRequiredField(TrackUsageBody(Some(provider), Some(model), Some(tokens), requestType))
              && CalculateCost(provider, model, tokens, RequestTypeOrInput(requestType)) < 0.0
  {
    if tokens < 0 && ModelRates(provider, model).Some? {
      OutputRateAtLeastInput(provider, model);
    }
  }

  /** `POST /api/track-usage`: 400 and nothing recorded when a required field
      is missing; otherwise one ledger row through trackUsage, answered with
      200 and the priced usage, or 500 when a store write fails. */
  method HandleTrackUsage(tracker: UsageTracker, body: TrackUsageBody, now: Clock,
                          usageStored: bool, alertStored: bool) returns (resp: Response)
    requires tracker.Valid()
    modifies tracker.db
    ensures tracker.Valid()
    ensures tracker.db.budgets == old(tracker.db.budgets) && tracker.db.budgetSeq == old(tracker.db.budgetSeq)
    ensures MissingRequiredField(body) ==>
              && resp == Response(400, ErrorMessage(MissingFieldsError))
              && tracker.db.usage == old(tracker.db.usage) && tracker.db.usageSeq == old(tracker.db.usageSeq)
              && tracker.db.alerts == old(tracker.db.alerts) && tracker.db.alertSeq == old(tracker.db.alertSeq)
    ensures !MissingRequiredField(body) ==>
              var requestType := RequestTypeOrInput(body.requestType);
              var cost := CalculateCost(body.provider.value, body.model.value, body.tokens.value, requestType);
              && (usageStored ==>
                    tracker.db.usage == old(tracker.db.usage)
                      + [UsageRow(old(tracker.db.usageSeq) + 1, body.provider.value, body.model.value,
                                  body.tokens.value, cost, requestType, now.month, now.year)])
              && (!usageStored ==>
                    && tracker.db.usage == old(tracker.db.usage) && tracker.db.usageSeq == old(tracker.db.usageSeq)
                    && tracker.db.alerts == old(tracker.db.alerts) && tracker.db.alertSeq == old(tracker.db.alertSeq))
              && (usageStored ==>
                    var level := tracker.DueLevel(body.provider.value, now);
                    && tracker.db.usageSeq == old(tracker.db.usageSeq) + 1
                    && tracker.db.alertSeq == old(tracker.db.alertSeq) + (if level != Normal && alertStored then 1 else 0)
                    && tracker.db.alerts == old(tracker.db.alerts)
                      + (if level != Normal && alertStored
                         then [AlertRowFor(old(tracker.db.alertSeq) + 1, body.provider.value, level,
                                           tracker.warning, tracker.critical,
                                           MonthSpending(tracker.db.usage, body.provider.value, now.month, now.year),
                                           tracker.budgets[body.provider.value], now)]
                         else []))
              && (resp.status == 200 ==>
                    resp.body == TrackedData(Tracked(cost, body.tokens.value, body.provider.value, body.model.value)))
              && (resp.status != 200 ==> resp == Response(500, ErrorMessage(TrackFailedError)))
              && (resp.status == 200 <==>
                    usageStored && (alertStored || tracker.DueLevel(body.provider.value, now) == Normal))
  {
    if MissingRequiredField(body) {
      return Response(400, ErrorMessage(MissingFieldsError));
    }
    var result := tracker.TrackUsage(body.provider.value, body.model.value, body.tokens.value,
                                     RequestTypeOrInput(body.requestType), now, usageStored, alertStored);
    if result.Err? {
      return Response(500, ErrorMessage(TrackFailedError));
    }
    resp := Response(200, TrackedData(result.value));
  }

  /** `PUT /api/budget/:provider`: 400 and no change unless the limit is
      positive; otherwise `budgets[provider]` takes the new limit, any provider
      string is accepted, and no other key changes. */
  method HandleBudgetUpdate(tracker: UsageTracker, provider: string, budgetLimit: Option<real>)
    returns (resp: Response)
    requires tracker.Valid()
    modifies tracker
    ensures tracker.Valid()
    ensures tracker.warning == old(tracker.warning) && tracker.critical == old(tracker.critical)
    ensures !AcceptableBudgetLimit(budgetLimit) ==>
              resp == Response(400, ErrorMessage(InvalidBudgetError)) && tracker.budgets == old(tracker.budgets)
    ensures AcceptableBudgetLimit(budgetLimit) ==>
              && resp == Response(200, BudgetData(provider, budgetLimit.value))
              && tracker.budgets == old(tracker.budgets)[provider := budgetLimit.value]
              && tracker.Limit(provider) == Some(budgetLimit.value)
              && forall p :: p != provider ==> tracker.Limit(p) == old(tracker.Limit(p))
  {
    if !AcceptableBudgetLimit(budgetLimit) {
      return Response(400, ErrorMessage(InvalidBudgetError));
    }
    tracker.budgets := tracker.budgets[provider := budgetLimit.value];
    resp := Response(200, BudgetData(provider, budgetLimit.value));
  }

  /** The `trackApiUsage` middleware: records the estimated usage and calls
      `next` exactly once, whether tracking succeeds or throws. */
  method TrackApiUsage(tracker: UsageTracker, provider: string, model: string, requestType: string,
                       contentLength: Option<nat>, now: Clock, usageStored: bool, alertStored: bool)
    returns (nextCalls: nat)
    requires tracker.Valid()
    modifies tracker.db
    ensures tracker.Valid()
    ensures nextCalls == 1
    ensures usageStored ==>
              tracker.db.usage == old(tracker.db.usage)
                + [UsageRow(old(tracker.db.usageSeq) + 1, provider, model, EstimateTokens(contentLength),
                            CalculateCost(provider, model, EstimateTokens(contentLength), requestType),
                            requestType, now.month, now.year)]
    ensures tracker.db.budgets == old(tracker.db.budgets) && tracker.db.budgetSeq == old(tracker.db.budgetSeq)
    ensures usageStored ==>
              var level := tracker.DueLevel(provider, now);
              && tracker.db.usageSeq == old(tracker.db.usageSeq) + 1
              && tracker.db.alertSeq == old(tracker.db.alertSeq) + (if level != Normal && alertStored then 1 else 0)
              && tracker.db.alerts == old(tracker.db.alerts)
                + (if level != Normal && alertStored
                   then [AlertRowFor(old(tracker.db.alertSeq) + 1, provider, level, tracker.warning, tracker.critical,
                                     MonthSpending(tracker.db.usage, provider, now.month, now.year),
                                     tracker.budgets[provider], now)]
                   else [])
    ensures !usageStored ==>
              && tracker.db.usage == old(tracker.db.usage) && tracker.db.usageSeq == old(tracker.db.usageSeq)
              && tracker.db.alerts == old(tracker.db.alerts) && tracker.db.alertSeq == old(tracker.db.alertSeq)
  {
    nextCalls := 0;
    var estimatedTokens := EstimateTokens(contentLength);
    var tracked := tracker.TrackUsage(provider, model, estimatedTokens, requestType, now, usageStored, alertStored);
    // The try block calls `next` after tracking; the catch block logs the
    // error and calls `next` as well.
    if tracked.Ok? {
      nextCalls := nextCalls + 1;
    } else {
      nextCalls := nextCalls + 1;
    }
  }
}
