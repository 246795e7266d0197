/** The SQLite store of the backend (`Database`): the api_usage ledger, the
    monthly_budgets table keyed by (provider, month, year) and the
    alert_notifications log, with the read-only aggregates over the ledger. */
module UsageDb {
  import opened Common

  /** A row of api_usage. `id` is its AUTOINCREMENT key. */
  datatype UsageRow = UsageRow(id: nat, provider: string, model: string, tokensUsed: int,
                               cost: real, requestType: string, month: string, year: int)

  /** The UNIQUE(provider, month, year) key of monthly_budgets. */
  datatype BudgetKey = BudgetKey(provider: string, month: string, year: int)

  /** The rest of a monthly_budgets row. */
  datatype BudgetRow = BudgetRow(id: nat, budgetLimit: real, currentSpend: real)

  /** The values an alert's message text is formatted from. */
  datatype AlertMessage = AlertMessage(alertType: string, provider: string, threshold: real,
                                       currentSpend: real, budgetLimit: real)

  /** A row of alert_notifications. */
  datatype AlertRow = AlertRow(id: nat, provider: string, alertType: string, thresholdPercent: real,
                               currentSpend: real, budgetLimit: real, message: AlertMessage,
                               month: string, year: int)

  /** The table whose write the driver reported as failed. */
  datatype DbError = WriteFailed(table: string)

  /** One row of a `SUM(tokens_used), SUM(cost), COUNT(*) ... GROUP BY` query. */
  datatype Aggregate<K> = Aggregate(key: K, totalTokens: int, totalCost: real, totalRequests: nat)

  // ---------------------------------------------------------------------------
  // Sums and filters over the ledger

  function SumCost(rows: seq<UsageRow>): real
  {
    if rows == [] then 0.0 else SumCost(rows[..|rows| - 1]) + rows[|rows| - 1].cost
  }

  function SumTokens(rows: seq<UsageRow>): int
  {
    if rows == [] then 0 else SumTokens(rows[..|rows| - 1]) + rows[|rows| - 1].tokensUsed
  }

  /** `WHERE month = ? AND year = ?` */
  function PeriodRows(rows: seq<UsageRow>, month: string, year: int): seq<UsageRow>
  {
    if rows == [] then []
    else
      var last := rows[|rows| - 1];
      PeriodRows(rows[..|rows| - 1], month, year) + if last.month == month && last.year == year then [last] else []
  }

  /** `WHERE provider = ? AND month = ? AND year = ?` */
  function MonthRows(rows: seq<UsageRow>, provider: string, month: string, year: int): seq<UsageRow>
  {
    if rows == [] then []
    else
      var last := rows[|rows| - 1];
      MonthRows(rows[..|rows| - 1], provider, month, year)
        + if last.provider == provider && last.month == month && last.year == year then [last] else []
  }

  /** The rows whose grouping key is `k`. */
  function ForKey<K(==)>(rows: seq<UsageRow>, key: UsageRow -> K, k: K): seq<UsageRow>
  {
    if rows == [] then []
    else
      var last := rows[|rows| - 1];
      ForKey(rows[..|rows| - 1], key, k) + if key(last) == k then [last] else []
  }

  // ---------------------------------------------------------------------------
  // GROUP BY

  /** The aggregate of a set of rows sharing one key; `Summarize(k, [])` is the
      all-zero row. */
  function Summarize<K>(k: K, rows: seq<UsageRow>): Aggregate<K>
  {
    Aggregate(k, SumTokens(rows), SumCost(rows), |rows|)
  }

  function Add<K>(a: Aggregate<K>, r: UsageRow): Aggregate<K>
  {
    Aggregate(a.key, a.totalTokens + r.tokensUsed, a.totalCost + r.cost, a.totalRequests + 1)
  }

  /** Folds row `r` with key `k` into the groups built so far. */
  function Insert<K(==)>(groups: seq<Aggregate<K>>, k: K, r: UsageRow): seq<Aggregate<K>>
  {
    if groups == [] then [Add(Summarize(k, []), r)]
    else if groups[0].key == k then [Add(groups[0], r)] + groups[1..]
    else [groups[0]] + Insert(groups[1..], k, r)
  }

  /** `GROUP BY key`, one aggregate per distinct key, in order of first appearance. */
  function GroupBy<K(==)>(rows: seq<UsageRow>, key: UsageRow -> K): seq<Aggregate<K>>
  {
    if rows == [] then []
    else Insert(GroupBy(rows[..|rows| - 1], key), key(rows[|rows| - 1]), rows[|rows| - 1])
  }

  /** `Array.prototype.find(d => d.key === k)`: the first group with key `k`. */
  function Find<K(==)>(groups: seq<Aggregate<K>>, k: K): Option<Aggregate<K>>
  {
    if groups == [] then None
    else if groups[0].key == k then Some(groups[0])
    else Find(groups[1..], k)
  }

  function FindOrZero<K(==)>(groups: seq<Aggregate<K>>, k: K): Aggregate<K>
  {
    match Find(groups, k)
    case Some(a) => a
    case None => Summarize(k, [])
  }

  function TotalRequests<K>(groups: seq<Aggregate<K>>): nat
  {
    if groups == [] then 0 else groups[0].totalRequests + TotalRequests(groups[1..])
  }

  function TotalCost<K>(groups: seq<Aggregate<K>>): real
  {
    if groups == [] then 0.0 else groups[0].totalCost + TotalCost(groups[1..])
  }

  function TotalTokens<K>(groups: seq<Aggregate<K>>): int
  {
    if groups == [] then 0 else groups[0].totalTokens + TotalTokens(groups[1..])
  }

  predicate DistinctKeys<K(==)>(groups: seq<Aggregate<K>>)
  {
    forall i, j :: 0 <= i < j < |groups| ==> groups[i].key != groups[j].key
  }

  // ---------------------------------------------------------------------------
  // The three read-only queries

  function ProviderOf(r: UsageRow): string { r.provider }

  function RequestTypeAndModel(r: UsageRow): (string, string) { (r.requestType, r.model) }

  /** getCurrentMonthSpending: `SUM(cost)` of the provider's rows of the month,
      0 when there are none (`row?.total_spending || 0`). */
  function MonthSpending(rows: seq<UsageRow>, provider: string, month: string, year: int): (spending: real)
    ensures MonthRows(rows, provider, month, year) == [] ==> spending == 0.0
    ensures (forall i :: 0 <= i < |rows| ==> rows[i].cost >= 0.0) ==> spending >= 0.0
  {
    MonthRowsFilter(rows, provider, month, year);
    SumCostNonNegative(MonthRows(rows, provider, month, year));
    SumCost(MonthRows(rows, provider, month, year))
  }

  /** getMonthlyUsage: the provider's rows of the month grouped by (request_type, model). */
  function MonthlyUsage(rows: seq<UsageRow>, provider: string, month: string, year: int)
    : (usage: seq<Aggregate<(string, string)>>)
    ensures DistinctKeys(usage)
    ensures TotalRequests(usage) == |MonthRows(rows, provider, month, year)|
    ensures TotalTokens(usage) == SumTokens(MonthRows(rows, provider, month, year))
    ensures TotalCost(usage) == SumCost(MonthRows(rows, provider, month, year))
  {
    GroupByDistinct(MonthRows(rows, provider, month, year), RequestTypeAndModel);
    GroupByTotals(MonthRows(rows, provider, month, year), RequestTypeAndModel);
    GroupBy(MonthRows(rows, provider, month, year), RequestTypeAndModel)
  }

  /** getDashboardData: the month's rows grouped by provider. */
  function DashboardRows(rows: seq<UsageRow>, month: string, year: int): (dashboard: seq<Aggregate<string>>)
    ensures DistinctKeys(dashboard)
    ensures TotalRequests(dashboard) == |PeriodRows(rows, month, year)|
    ensures TotalTokens(dashboard) == SumTokens(PeriodRows(rows, month, year))
    ensures TotalCost(dashboard) == SumCost(PeriodRows(rows, month, year))
  {
    GroupByDistinct(PeriodRows(rows, month, year), ProviderOf);
    GroupByTotals(PeriodRows(rows, month, year), ProviderOf);
    GroupBy(PeriodRows(rows, month, year), ProviderOf)
  }

  // ---------------------------------------------------------------------------
  // Lemmas: appending to the ledger

  lemma MonthRowsAppend(rows: seq<UsageRow>, r: UsageRow, provider: string, month: string, year: int)
    ensures MonthRows(rows + [r], provider, month, year)
         == MonthRows(rows, provider, month, year)
            + if r.provider == provider && r.month == month && r.year == year then [r] else []
  {
    assert (rows + [r])[..|rows|] == rows;
  }

  /** The WHERE clause of the per-provider queries: a row is selected iff it
      is in the ledger and matches the provider, month and year; the selection
      is never longer than the ledger. */
  lemma {:induction false} MonthRowsFilter(rows: seq<UsageRow>, provider: string, month: string, year: int)
    ensures |MonthRows(rows, provider, month, year)| <= |rows|
    ensures forall r :: r in MonthRows(rows, provider, month, year)
                        <==> r in rows && r.provider == provider && r.month == month && r.year == year
  {
    if rows != [] {
      var pre := rows[..|rows| - 1];
      MonthRowsFilter(pre, provider, month, year);
      assert rows == pre + [rows[|rows| - 1]];
    }
  }

  /** Sums of costs that are all non-negative are non-negative. */
  lemma {:induction false} SumCostNonNegative(rows: seq<UsageRow>)
    ensures (forall i :: 0 <= i < |rows| ==> rows[i].cost >= 0.0) ==> SumCost(rows) >= 0.0
  {
    if rows != [] {
      var pre := rows[..|rows| - 1];
      assert forall i :: 0 <= i < |pre| ==> pre[i] == rows[i];
      SumCostNonNegative(pre);
    }
  }

  lemma SumCostAppend(rows: seq<UsageRow>, r: UsageRow)
    ensures SumCost(rows + [r]) == SumCost(rows) + r.cost
  {
    assert (rows + [r])[..|rows|] == rows;
  }

  lemma SumTokensAppend(rows: seq<UsageRow>, r: UsageRow)
    ensures SumTokens(rows + [r]) == SumTokens(rows) + r.tokensUsed
  {
    assert (rows + [r])[..|rows|] == rows;
  }

  /** Recording a row raises its own provider's spending for its month by
      exactly its cost and leaves every other (provider, month, year) total as it was. */
  lemma SpendingAfterRecord(rows: seq<UsageRow>, r: UsageRow, provider: string, month: string, year: int)
    ensures MonthSpending(rows + [r], provider, month, year)
         == MonthSpending(rows, provider, month, year)
            + if r.provider == provider && r.month == month && r.year == year then r.cost else 0.0
  {
    MonthRowsAppend(rows, r, provider, month, year);
    var before := MonthRows(rows, provider, month, year);
    if r.provider == provider && r.month == month && r.year == year {
      assert MonthRows(rows + [r], provider, month, year) == before + [r];
      SumCostAppend(before, r);
    } else {
      assert MonthRows(rows + [r], provider, month, year) == before + [];
      assert before + [] == before;
    }
  }

  /** A provider with no rows in the month has spent nothing. */
  lemma {:induction false} NoRowsNoSpending(rows: seq<UsageRow>, provider: string, month: string, year: int)
    requires forall i :: 0 <= i < |rows| ==> !(rows[i].provider == provider && rows[i].month == month && rows[i].year == year)
    ensures MonthRows(rows, provider, month, year) == []
    ensures MonthSpending(rows, provider, month, year) == 0.0
  {
    if rows != [] {
      NoRowsNoSpending(rows[..|rows| - 1], provider, month, year);
    }
  }

  // ---------------------------------------------------------------------------
  // Lemmas: GROUP BY

  /** Summarize grows by one row exactly as Add does. */
  lemma SummarizeAppend<K>(k: K, rows: seq<UsageRow>, r: UsageRow)
    ensures Summarize(k, rows + [r]) == Add(Summarize(k, rows), r)
  {
    SumCostAppend(rows, r);
    SumTokensAppend(rows, r);
  }

  lemma {:induction false} FindNoneIff<K>(groups: seq<Aggregate<K>>, k: K)
    ensures Find(groups, k).None? <==> forall i :: 0 <= i < |groups| ==> groups[i].key != k
    ensures Find(groups, k).Some? ==> Find(groups, k).value.key == k
  {
    if groups != [] && groups[0].key != k {
      FindNoneIff(groups[1..], k);
    }
  }

  /** Folding in a row updates exactly the group of its key. */
  lemma {:induction false} InsertFind<K>(groups: seq<Aggregate<K>>, k: K, r: UsageRow, j: K)
    ensures Find(Insert(groups, k, r), j)
         == if j == k then Some(Add(FindOrZero(groups, k), r)) else Find(groups, j)
  {
    if groups != [] && groups[0].key != k && groups[0].key != j {
      InsertFind(groups[1..], k, r, j);
    } else if groups != [] && groups[0].key != k {
      FindNoneIff(groups, j);
    }
  }

  /** Folding in a row keeps every existing key in place and appends its key
      when it is new. */
  lemma {:induction false} InsertKeys<K>(groups: seq<Aggregate<K>>, k: K, r: UsageRow)
    ensures |Insert(groups, k, r)| == if Find(groups, k).Some? then |groups| else |groups| + 1
    ensures forall i :: 0 <= i < |groups| ==> Insert(groups, k, r)[i].key == groups[i].key
    ensures Find(groups, k).None? ==> Insert(groups, k, r)[|groups|].key == k
  {
    if groups != [] && groups[0].key != k {
      InsertKeys(groups[1..], k, r);
    }
  }

  lemma InsertDistinct<K>(groups: seq<Aggregate<K>>, k: K, r: UsageRow)
    requires DistinctKeys(groups)
    ensures DistinctKeys(Insert(groups, k, r))
  {
    InsertKeys(groups, k, r);
    FindNoneIff(groups, k);
  }

  /** Folding in a row adds one request, its tokens and its cost to the totals. */
  lemma {:induction false} InsertTotals<K>(groups: seq<Aggregate<K>>, k: K, r: UsageRow)
    ensures TotalRequests(Insert(groups, k, r)) == TotalRequests(groups) + 1
    ensures TotalCost(Insert(groups, k, r)) == TotalCost(groups) + r.cost
    ensures TotalTokens(Insert(groups, k, r)) == TotalTokens(groups) + r.tokensUsed
  {
    if groups != [] {
      var ins := Insert(groups, k, r);
      if groups[0].key == k {
        assert ins[1..] == groups[1..];
      } else {
        InsertTotals(groups[1..], k, r);
        assert ins[1..] == Insert(groups[1..], k, r);
      }
    }
  }

  /** GROUP BY yields one aggregate per distinct key present, and that
      aggregate sums exactly the rows with its key. */
  lemma {:induction false} GroupByFind<K>(rows: seq<UsageRow>, key: UsageRow -> K, k: K)
    ensures Find(GroupBy(rows, key), k)
         == if ForKey(rows, key, k) == [] then None else Some(Summarize(k, ForKey(rows, key, k)))
  {
    if rows != [] {
      var pre, last := rows[..|rows| - 1], rows[|rows| - 1];
      assert rows == pre + [last];
      GroupByFind(pre, key, k);
      InsertFind(GroupBy(pre, key), key(last), last, k);
      assert GroupBy(rows, key) == Insert(GroupBy(pre, key), key(last), last);
      if key(last) == k {
        assert ForKey(rows, key, k) == ForKey(pre, key, k) + [last];
        assert FindOrZero(GroupBy(pre, key), k) == Summarize(k, ForKey(pre, key, k));
        SummarizeAppend(k, ForKey(pre, key, k), last);
      } else {
        assert ForKey(rows, key, k) == ForKey(pre, key, k) + [];
        assert ForKey(pre, key, k) + [] == ForKey(pre, key, k);
      }
    }
  }

  lemma {:induction false} GroupByDistinct<K>(rows: seq<UsageRow>, key: UsageRow -> K)
    ensures DistinctKeys(GroupBy(rows, key))
  {
    if rows != [] {
      GroupByDistinct(rows[..|rows| - 1], key);
      InsertDistinct(GroupBy(rows[..|rows| - 1], key), key(rows[|rows| - 1]), rows[|rows| - 1]);
    }
  }

  /** The group counts add up to the number of rows grouped, and the group
      costs and tokens to their totals. */
  lemma {:induction false} GroupByTotals<K>(rows: seq<UsageRow>, key: UsageRow -> K)
    ensures TotalRequests(GroupBy(rows, key)) == |rows|
    ensures TotalCost(GroupBy(rows, key)) == SumCost(rows)
    ensures TotalTokens(GroupBy(rows, key)) == SumTokens(rows)
  {
    if rows != [] {
      GroupByTotals(rows[..|rows| - 1], key);
      InsertTotals(GroupBy(rows[..|rows| - 1], key), key(rows[|rows| - 1]), rows[|rows| - 1]);
    }
  }

  lemma {:induction false} ForKeyEmptyIff<K>(rows: seq<UsageRow>, key: UsageRow -> K, k: K)
    ensures ForKey(rows, key, k) == [] <==> forall i :: 0 <= i < |rows| ==> key(rows[i]) != k
  {
    if rows != [] {
      ForKeyEmptyIff(rows[..|rows| - 1], key, k);
    }
  }

  /** getMonthlyUsage has one group for each distinct (request_type, model)
      among the provider's rows of the month, each summing exactly its rows;
      the counts add up to the number of those rows and the costs to the
      month's spending. */
  lemma MonthlyUsageGroups(rows: seq<UsageRow>, provider: string, month: string, year: int, requestType: string, model: string)
    ensures var matching := MonthRows(rows, provider, month, year);
            var groups := MonthlyUsage(rows, provider, month, year);
            && DistinctKeys(groups)
            && TotalRequests(groups) == |matching|
            && TotalCost(groups) == MonthSpending(rows, provider, month, year)
            && (Find(groups, (requestType, model)).Some?
                <==> exists i :: 0 <= i < |matching| && matching[i].requestType == requestType && matching[i].model == model)
            && (Find(groups, (requestType, model)).Some? ==>
                  Find(groups, (requestType, model)).value
                  == Summarize((requestType, model), ForKey(matching, RequestTypeAndModel, (requestType, model))))
  {
    var matching := MonthRows(rows, provider, month, year);
    GroupByDistinct(matching, RequestTypeAndModel);
    GroupByTotals(matching, RequestTypeAndModel);
    GroupByFind(matching, RequestTypeAndModel, (requestType, model));
    ForKeyEmptyIff(matching, RequestTypeAndModel, (requestType, model));
    if Find(MonthlyUsage(rows, provider, month, year), (requestType, model)).None? {
      forall i | 0 <= i < |matching|
        ensures !(matching[i].requestType == requestType && matching[i].model == model)
      {
        assert RequestTypeAndModel(matching[i]) != (requestType, model);
      }
    }
  }

  /** The rows of the month whose provider is `provider` are that provider's
      rows of the month. */
  lemma {:induction false} PeriodRowsByProvider(rows: seq<UsageRow>, provider: string, month: string, year: int)
    ensures ForKey(PeriodRows(rows, month, year), ProviderOf, provider) == MonthRows(rows, provider, month, year)
  {
    if rows != [] {
      var pre, last := rows[..|rows| - 1], rows[|rows| - 1];
      PeriodRowsByProvider(pre, provider, month, year);
      var period := PeriodRows(pre, month, year);
      if last.month == month && last.year == year {
        assert PeriodRows(rows, month, year) == period + [last];
        assert (period + [last])[..|period|] == period;
        assert ForKey(period + [last], ProviderOf, provider)
            == ForKey(period, ProviderOf, provider) + if ProviderOf(last) == provider then [last] else [];
      } else {
        assert PeriodRows(rows, month, year) == period + [];
        assert period + [] == period;
        assert MonthRows(rows, provider, month, year) == MonthRows(pre, provider, month, year) + [];
      }
    }
  }

  /** getDashboardData has a row for a provider exactly when the provider has
      usage in the month, and that row totals the provider's rows of the month;
      its cost is getCurrentMonthSpending's total. */
  lemma DashboardRowFor(rows: seq<UsageRow>, provider: string, month: string, year: int)
    ensures DistinctKeys(DashboardRows(rows, month, year))
    ensures Find(DashboardRows(rows, month, year), provider)
         == if MonthRows(rows, provider, month, year) == [] then None
            else Some(Summarize(provider, MonthRows(rows, provider, month, year)))
    ensures FindOrZero(DashboardRows(rows, month, year), provider)
         == Summarize(provider, MonthRows(rows, provider, month, year))
    ensures FindOrZero(DashboardRows(rows, month, year), provider).totalCost
         == MonthSpending(rows, provider, month, year)
  {
    GroupByDistinct(PeriodRows(rows, month, year), ProviderOf);
    GroupByFind(PeriodRows(rows, month, year), ProviderOf, provider);
    PeriodRowsByProvider(rows, provider, month, year);
  }

  // ---------------------------------------------------------------------------
  // The store

  /** The effect of `INSERT OR REPLACE INTO monthly_budgets`: the row for the
      key is replaced by a fresh one whose current_spend is the column default 0. */
  function Upserted(budgets: map<BudgetKey, BudgetRow>, key: BudgetKey, id: nat, budgetLimit: real)
    : map<BudgetKey, BudgetRow>
  {
    budgets[key := BudgetRow(id, budgetLimit, 0.0)]
  }

  /** The budget table without its surrogate ids: key to (budget_limit, current_spend). */
  function Limits(budgets: map<BudgetKey, BudgetRow>): map<BudgetKey, (real, real)>
  {
    map k | k in budgets :: (budgets[k].budgetLimit, budgets[k].currentSpend)
  }

  /** After an upsert the key holds exactly the given limit with zero spend,
      every other key is unchanged, and repeating the upsert changes nothing
      but the row's id. */
  lemma UpsertIdempotent(budgets: map<BudgetKey, BudgetRow>, key: BudgetKey, id1: nat, id2: nat, budgetLimit: real)
    ensures key in Limits(Upserted(budgets, key, id1, budgetLimit))
    ensures Limits(Upserted(budgets, key, id1, budgetLimit))[key] == (budgetLimit, 0.0)
    ensures forall k :: k in budgets && k != key ==>
              (k in Limits(Upserted(budgets, key, id1, budgetLimit))
               && Limits(Upserted(budgets, key, id1, budgetLimit))[k] == Limits(budgets)[k])
    ensures Limits(Upserted(Upserted(budgets, key, id1, budgetLimit), key, id2, budgetLimit))
         == Limits(Upserted(budgets, key, id1, budgetLimit))
  {
    var once := Upserted(budgets, key, id1, budgetLimit);
    var twice := Upserted(once, key, id2, budgetLimit);
    assert twice.Keys == once.Keys;
  }

  class Database {
    var usage: seq<UsageRow>
    var budgets: map<BudgetKey, BudgetRow>
    var alerts: seq<AlertRow>
    /** The AUTOINCREMENT counters (sqlite_sequence) of the three tables. */
    var usageSeq: nat
    var budgetSeq: nat
    var alertSeq: nat

    /** Every row id was handed out by its table's counter. */
    ghost predicate Valid()
      reads this
    {
      && (forall i :: 0 <= i < |usage| ==> usage[i].id <= usageSeq)
      && (forall k :: k in budgets ==> budgets[k].id <= budgetSeq)
      && (forall i :: 0 <= i < |alerts| ==> alerts[i].id <= alertSeq)
    }

    /** `init`: the three tables, empty. */
    constructor ()
      ensures Valid()
      ensures usage == [] && budgets == map[] && alerts == []
      ensures usageSeq == 0 && budgetSeq == 0 && alertSeq == 0
    {
      usage, budgets, alerts := [], map[], [];
      usageSeq, budgetSeq, alertSeq := 0, 0, 0;
    }

    /** recordUsage: appends one ledger row stamped with the clock's month and
        year and returns its new id; `stored` is the driver's report. */
    method RecordUsage(provider: string, model: string, tokens: int, cost: real, requestType: string,
                       now: Clock, stored: bool) returns (r: Result<nat, DbError>)
      requires Valid()
      modifies this
      ensures Valid()
      ensures budgets == old(budgets) && alerts == old(alerts)
      ensures budgetSeq == old(budgetSeq) && alertSeq == old(alertSeq)
      ensures stored ==> r == Ok(old(usageSeq) + 1) && usageSeq == r.value
      ensures stored ==>
                usage == old(usage) + [UsageRow(r.value, provider, model, tokens, cost, requestType, now.month, now.year)]
      ensures stored ==> forall i :: 0 <= i < |old(usage)| ==> old(usage)[i].id < r.value
      ensures !stored ==> r == Err(WriteFailed("api_usage")) && usage == old(usage) && usageSeq == old(usageSeq)
    {
      if !stored {
        return Err(WriteFailed("api_usage"));
      }
      usageSeq := usageSeq + 1;
      usage := usage + [UsageRow(usageSeq, provider, model, tokens, cost, requestType, now.month, now.year)];
      r := Ok(usageSeq);
    }

    /** updateMonthlyBudget: `INSERT OR REPLACE` of the (provider, month, year) row. */
    method UpdateMonthlyBudget(provider: string, month: string, year: int, budgetLimit: real, stored: bool)
      returns (r: Result<nat, DbError>)
      requires Valid()
      modifies this
      ensures Valid()
      ensures usage == old(usage) && alerts == old(alerts)
      ensures usageSeq == old(usageSeq) && alertSeq == old(alertSeq)
      ensures stored ==> r == Ok(old(budgetSeq) + 1) && budgetSeq == r.value
      ensures stored ==> budgets == Upserted(old(budgets), BudgetKey(provider, month, year), r.value, budgetLimit)
      ensures !stored ==> r == Err(WriteFailed("monthly_budgets")) && budgets == old(budgets) && budgetSeq == old(budgetSeq)
    {
      if !stored {
        return Err(WriteFailed("monthly_budgets"));
      }
      budgetSeq := budgetSeq + 1;
      budgets := budgets[BudgetKey(provider, month, year) := BudgetRow(budgetSeq, budgetLimit, 0.0)];
      r := Ok(budgetSeq);
    }

    /** recordAlert: appends one alert row with the given snapshot; there is no
        deduplication. */
    method RecordAlert(provider: string, alertType: string, thresholdPercent: real, currentSpend: real,
                       budgetLimit: real, message: AlertMessage, now: Clock, stored: bool)
      returns (r: Result<nat, DbError>)
      requires Valid()
      modifies this
      ensures Valid()
      ensures usage == old(usage) && budgets == old(budgets)
      ensures usageSeq == old(usageSeq) && budgetSeq == old(budgetSeq)
      ensures stored ==> r == Ok(old(alertSeq) + 1) && alertSeq == r.value
      ensures stored ==>
                alerts == old(alerts) + [AlertRow(r.value, provider, alertType, thresholdPercent, currentSpend,
                                                  budgetLimit, message, now.month, now.year)]
      ensures !stored ==> r == Err(WriteFailed("alert_notifications")) && alerts == old(alerts) && alertSeq == old(alertSeq)
    {
      if !stored {
        return Err(WriteFailed("alert_notifications"));
      }
      alertSeq := alertSeq + 1;
      alerts := alerts + [AlertRow(alertSeq, provider, alertType, thresholdPercent, currentSpend, budgetLimit,
                                   message, now.month, now.year)];
      r := Ok(alertSeq);
    }
  }
}
