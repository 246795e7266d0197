/** The scheduled monthly budget reset (`monthlyBudgetReset`) over a budget
    store keyed by (year, month) and an alert log. */
module MonthlyReset {
  import opened Common

  /** The unique `year_month` key of the budget store. */
  datatype YearMonth = YearMonth(year: int, month: int)

  datatype MonthlyBudget = MonthlyBudget(id: nat, year: int, month: int, budgetLimitUsd: real,
                                         currentUsageUsd: real, isActive: bool)

  /** The store operations of a run, in the order the run performs them. */
  datatype Step = FindCurrent | FindPrevious | CreateCurrent | DeactivatePrevious

  /** An alert-log entry: a `budget_reset` notice or a `system_error` naming
      the step that threw. */
  datatype AlertLog = BudgetReset(year: int, month: int, budgetLimitUsd: real) | SystemError(failedAt: Step)

  /** How a run that throws nothing ends. */
  datatype Outcome = AlreadyExists | Created(budget: MonthlyBudget)

  /** The limit a new month gets when the previous month has none to copy. */
  const DefaultLimit: real := 100.0

  /** Months counted from year 0, month 1. */
  function MonthIndex(ym: YearMonth): int
  {
    ym.year * 12 + ym.month - 1
  }

  /** The month before (year, month): January wraps to December of the
      previous year. */
  function PreviousMonth(year: int, month: int): (prev: YearMonth)
    requires 1 <= month <= 12
    ensures 1 <= prev.month <= 12
    ensures MonthIndex(prev) == MonthIndex(YearMonth(year, month)) - 1
    ensures month == 1 ==> prev == YearMonth(year - 1, 12)
    ensures month != 1 ==> prev == YearMonth(year, month - 1)
  {
    if month == 1 then YearMonth(year - 1, 12) else YearMonth(year, month - 1)
  }

  /** `previousBudget?.budgetLimitUsd || 100`: the previous month's limit when
      there is one and it is non-zero, else 100. Never zero. */
  function CarriedLimit(previous: Option<MonthlyBudget>): (limit: real)
    ensures limit != 0.0
    ensures previous.Some? && previous.value.budgetLimitUsd != 0.0 ==> limit == previous.value.budgetLimitUsd
    ensures previous.None? || previous.value.budgetLimitUsd == 0.0 ==> limit == DefaultLimit
  {
    if previous.Some? && previous.value.budgetLimitUsd != 0.0 then previous.value.budgetLimitUsd else DefaultLimit
  }

  /** The `budget_reset` entries a run logs for the budget it created: one
      when `usagePercentage > 0`. */
  function ResetAlerts(created: MonthlyBudget): (alerts: seq<AlertLog>)
    requires created.budgetLimitUsd != 0.0
    ensures |alerts| <= 1
    ensures alerts != [] ==> alerts == [BudgetReset(created.year, created.month, created.budgetLimitUsd)]
    ensures alerts != [] <==>
              created.currentUsageUsd != 0.0 && ((created.currentUsageUsd > 0.0) == (created.budgetLimitUsd > 0.0))
  {
    var usagePercentage := created.currentUsageUsd / created.budgetLimitUsd * 100.0;
    if usagePercentage > 0.0 then [BudgetReset(created.year, created.month, created.budgetLimitUsd)] else []
  }

  /** A freshly created budget has zero usage, so no `budget_reset` entry is
      ever logged. */
  lemma NoResetAlertForFreshBudget(created: MonthlyBudget)
    requires created.budgetLimitUsd != 0.0 && created.currentUsageUsd == 0.0
    ensures ResetAlerts(created) == []
  {
    assert created.currentUsageUsd / created.budgetLimitUsd == 0.0;
  }

  /** The contents of the store. */
  datatype StoreState = StoreState(budgets: map<YearMonth, MonthlyBudget>, alertLog: seq<AlertLog>, lastId: nat)

  /** Every record sits under its own (year, month) and was numbered by the store. */
  ghost predicate StoreValid(s: StoreState)
  {
    forall k :: k in s.budgets ==> s.budgets[k].year == k.year && s.budgets[k].month == k.month && s.budgets[k].id <= s.lastId
  }

  function Lookup(s: StoreState, key: YearMonth): Option<MonthlyBudget>
  {
    if key in s.budgets then Some(s.budgets[key]) else None
  }

  /** The record a run creates for (year, month) in store `s`. */
  function NewBudget(s: StoreState, year: int, month: int): MonthlyBudget
    requires 1 <= month <= 12
  {
    MonthlyBudget(s.lastId + 1, year, month, CarriedLimit(Lookup(s, PreviousMonth(year, month))), 0.0, true)
  }

  /** The store after a run that throws nothing. */
  function Rolled(s: StoreState, year: int, month: int): (r: StoreState)
    requires 1 <= month <= 12
    ensures YearMonth(year, month) in r.budgets
    ensures s.budgets.Keys <= r.budgets.Keys
    ensures s.alertLog <= r.alertLog && s.lastId <= r.lastId
  {
    var current := YearMonth(year, month);
    if current in s.budgets then s
    else
      var prevKey := PreviousMonth(year, month);
      var created := NewBudget(s, year, month);
      var withNew := s.budgets[current := created];
      var budgets := if prevKey in s.budgets then withNew[prevKey := s.budgets[prevKey].(isActive := false)] else withNew;
      StoreState(budgets, s.alertLog + ResetAlerts(created), s.lastId + 1)
  }

  /** Whether a run on store `s` reaches `step`. */
  function Reaches(s: StoreState, year: int, month: int, step: Step): bool
    requires 1 <= month <= 12
  {
    match step
    case FindCurrent => true
    case FindPrevious => YearMonth(year, month) !in s.budgets
    case CreateCurrent => YearMonth(year, month) !in s.budgets
    case DeactivatePrevious => YearMonth(year, month) !in s.budgets && PreviousMonth(year, month) in s.budgets
  }

  /** A run when the month's budget already exists changes nothing, so a
      second run in the same month is a no-op. */
  lemma RolledIdempotent(s: StoreState, year: int, month: int)
    requires 1 <= month <= 12
    ensures YearMonth(year, month) in s.budgets ==> Rolled(s, year, month) == s
    ensures YearMonth(year, month) in Rolled(s, year, month).budgets
    ensures Rolled(Rolled(s, year, month), year, month) == Rolled(s, year, month)
  {
  }

  /** A run for a new month creates the month's record with the carried
      limit, zero usage and active flag; deactivates the previous month's
      record and changes nothing else in it; leaves every other record as it
      was; logs nothing; and keeps the store consistent. */
  lemma RolledEffect(s: StoreState, year: int, month: int)
    requires 1 <= month <= 12
    requires StoreValid(s)
    requires YearMonth(year, month) !in s.budgets
    ensures var r := Rolled(s, year, month);
            var prevKey := PreviousMonth(year, month);
            && StoreValid(r)
            && r.budgets.Keys == s.budgets.Keys + {YearMonth(year, month)}
            && r.budgets[YearMonth(year, month)]
               == MonthlyBudget(s.lastId + 1, year, month, CarriedLimit(Lookup(s, prevKey)), 0.0, true)
            && (prevKey in s.budgets ==> r.budgets[prevKey] == s.budgets[prevKey].(isActive := false))
            && (forall k :: k in s.budgets && k != prevKey ==> r.budgets[k] == s.budgets[k])
            && (forall k :: k in s.budgets ==> r.budgets[k].id == s.budgets[k].id)
            && r.alertLog == s.alertLog
  {
    NoResetAlertForFreshBudget(NewBudget(s, year, month));
  }

  class BudgetStore {
    var budgets: map<YearMonth, MonthlyBudget>
    var alertLog: seq<AlertLog>
    var lastId: nat

    function State(): StoreState
      reads this
    {
      StoreState(budgets, alertLog, lastId)
    }

    ghost predicate Valid()
      reads this
    {
      StoreValid(State())
    }

    constructor ()
      ensures Valid() && budgets == map[] && alertLog == [] && lastId == 0
    {
      budgets, alertLog, lastId := map[], [], 0;
    }

    /** `monthlyBudget.findUnique({ where: { year_month } })`. */
    method FindUnique(key: YearMonth) returns (found: Option<MonthlyBudget>)
      ensures found == Lookup(State(), key)
    {
      found := if key in budgets then Some(budgets[key]) else None;
    }

    /** `monthlyBudget.create`: a new record with a fresh id, under a
        (year, month) key that the unique index has no record for yet. */
    method Create(year: int, month: int, budgetLimitUsd: real, currentUsageUsd: real, isActive: bool)
      returns (created: MonthlyBudget)
      requires Valid()
      requires YearMonth(year, month) !in budgets
      modifies this
      ensures Valid()
      ensures created == MonthlyBudget(old(lastId) + 1, year, month, budgetLimitUsd, currentUsageUsd, isActive)
      ensures budgets == old(budgets)[YearMonth(year, month) := created]
      ensures alertLog == old(alertLog) && lastId == old(lastId) + 1
    {
      lastId := lastId + 1;
      created := MonthlyBudget(lastId, year, month, budgetLimitUsd, currentUsageUsd, isActive);
      budgets := budgets[YearMonth(year, month) := created];
    }

    /** `monthlyBudget.update({ data: { isActive: false } })` of the record at `key`. */
    method Deactivate(key: YearMonth)
      requires Valid() && key in budgets
      modifies this
      ensures Valid()
      ensures budgets == old(budgets)[key := old(budgets)[key].(isActive := false)]
      ensures alertLog == old(alertLog) && lastId == old(lastId)
    {
      budgets := budgets[key := budgets[key].(isActive := false)];
    }

    /** `alertLog.create` of each entry, in order. */
    method LogAlerts(entries: seq<AlertLog>)
      requires Valid()
      modifies this
      ensures Valid()
      ensures alertLog == old(alertLog) + entries
      ensures budgets == old(budgets) && lastId == old(lastId)
    {
      alertLog := alertLog + entries;
    }
  }

  /** The catch block: try to log a `system_error` entry naming the failed
      step (swallowing a failure of that write), then re-raise. */
  method RaiseAfterLogging(store: BudgetStore, failed: Step, errorLogStored: bool) returns (r: Result<Outcome, Step>)
    requires store.Valid()
    modifies store
    ensures store.Valid()
    ensures r == Err(failed)
    ensures store.budgets == old(store.budgets) && store.lastId == old(store.lastId)
    ensures store.alertLog == old(store.alertLog) + if errorLogStored then [SystemError(failed)] else []
  {
    if errorLogStored {
      store.LogAlerts([SystemError(failed)]);
    }
    r := Err(failed);
  }

  /** monthlyBudgetReset for the clock's (currentYear, currentMonth).
      `fault` names the store operation that throws, if the run reaches it;
      `errorLogStored` says whether the `system_error` write then succeeds. */
  method MonthlyBudgetReset(store: BudgetStore, currentYear: int, currentMonth: int,
                            fault: Option<Step>, errorLogStored: bool)
    returns (r: Result<Outcome, Step>)
    requires store.Valid()
    requires 1 <= currentMonth <= 12
    modifies store
    ensures store.Valid()
    ensures r.Err? <==> fault.Some? && Reaches(old(store.State()), currentYear, currentMonth, fault.value)
    ensures r.Ok? ==> store.State() == Rolled(old(store.State()), currentYear, currentMonth)
    ensures r.Ok? ==>
              (r.value == AlreadyExists <==> YearMonth(currentYear, currentMonth) in old(store.budgets))
    ensures r.Ok? && r.value.Created? ==> r.value.budget == NewBudget(old(store.State()), currentYear, currentMonth)
    ensures r.Err? ==>
              && fault == Some(r.error)
              && store.alertLog == old(store.alertLog) + (if errorLogStored then [SystemError(r.error)] else [])
    ensures r.Err? && r.error != DeactivatePrevious ==>
              store.budgets == old(store.budgets) && store.lastId == old(store.lastId)
    ensures r == Err(DeactivatePrevious) ==>
              && store.budgets == old(store.budgets)[YearMonth(currentYear, currentMonth)
                                                     := NewBudget(old(store.State()), currentYear, currentMonth)]
              && store.lastId == old(store.lastId) + 1
  {
    ghost var s := store.State();

    if fault == Some(FindCurrent) {
      r := RaiseAfterLogging(store, FindCurrent, errorLogStored);
      return;
    }
    var existingBudget := store.FindUnique(YearMonth(currentYear, currentMonth));
    if existingBudget.Some? {
      return Ok(AlreadyExists);
    }

    var previousMonth := currentMonth - 1;
    var previousYear := currentYear;
    if previousMonth == 0 {
      previousMonth := 12;
      previousYear := currentYear - 1;
    }
    assert YearMonth(previousYear, previousMonth) == PreviousMonth(currentYear, currentMonth);

    if fault == Some(FindPrevious) {
      r := RaiseAfterLogging(store, FindPrevious, errorLogStored);
      return;
    }
    var previousBudget := store.FindUnique(YearMonth(previousYear, previousMonth));
    assert previousBudget.None? <==> PreviousMonth(currentYear, currentMonth) !in s.budgets;

    var budgetLimit := CarriedLimit(previousBudget);

    if fault == Some(CreateCurrent) {
      r := RaiseAfterLogging(store, CreateCurrent, errorLogStored);
      return;
    }
    var newBudget := store.Create(currentYear, currentMonth, budgetLimit, 0.0, true);

    if previousBudget.Some? {
      if fault == Some(DeactivatePrevious) {
        r := RaiseAfterLogging(store, DeactivatePrevious, errorLogStored);
        return;
      }
      store.Deactivate(YearMonth(previousYear, previousMonth));
    }

    store.LogAlerts(ResetAlerts(newBudget));
    r := Ok(Created(newBudget));
    if fault.Some? {
      assert fault.value == DeactivatePrevious;
      assert PreviousMonth(currentYear, currentMonth) !in s.budgets;
    }
  }
}
