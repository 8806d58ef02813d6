/**
 A key's limits, its prepaid allowance as the request path enforces it, and the same
 allowance as the dashboard's meter shows it.
 */
module Budget {
  import opened Calendar
  import opened UsageReport
  import opened Wrappers

  const UNLIMITED: int := -1
  const MONTHLY: string := "monthly"
  const LIFETIME: string := "lifetime"
  const NORMAL_PRIORITY: int := 0
  const MAX_PRIORITY: int := 9

  datatype Limits = Limits(batchMax: int, ratePerMin: int, tokenBudget: int, budgetPeriod: string, priority: int)

  datatype ApiKey = ApiKey(id: nat, limits: Limits)

  datatype LimitError = BadBatch | BadRate | BadBudget | BadPeriod | BadPriority

  /** The first thing wrong with the limits, if anything is. */
  function Validate(l: Limits): Option<LimitError> {
    if l.batchMax < 1 then Some(BadBatch)
    else if l.ratePerMin < 1 then Some(BadRate)
    else if l.tokenBudget < UNLIMITED || l.tokenBudget == 0 then Some(BadBudget)
    else if l.budgetPeriod != MONTHLY && l.budgetPeriod != LIFETIME then Some(BadPeriod)
    else if !(NORMAL_PRIORITY <= l.priority <= MAX_PRIORITY) then Some(BadPriority)
    else None
  }

  /** Limits are accepted exactly if all five bounds hold, and each complaint is made exactly
      if its bound is the first that does not. */
  lemma ValidatedExactly(l: Limits)
    ensures var batch, rate, budget := l.batchMax >= 1, l.ratePerMin >= 1, l.tokenBudget == -1 || l.tokenBudget > 0;
            var period, priority := l.budgetPeriod == "monthly" || l.budgetPeriod == "lifetime", 0 <= l.priority <= 9;
            && (Validate(l) == None <==> batch && rate && budget && period && priority)
            && (Validate(l) == Some(BadBatch) <==> !batch)
            && (Validate(l) == Some(BadRate) <==> batch && !rate)
            && (Validate(l) == Some(BadBudget) <==> batch && rate && !budget)
            && (Validate(l) == Some(BadPeriod) <==> batch && rate && budget && !period)
            && (Validate(l) == Some(BadPriority) <==> batch && rate && budget && period && !priority)
  {
  }

  predicate IsUnlimited(k: ApiKey) {
    k.limits.tokenBudget == UNLIMITED
  }

  predicate AllowsBatch(l: Limits, n: int) {
    n >= 1 && n <= l.batchMax
  }

  // ---------------------------------------------------------------- enforcement

  function UsedForPeriod(k: ApiKey, usedThisMonth: int, usedLifetime: int): int {
    if k.limits.budgetPeriod == MONTHLY then usedThisMonth else usedLifetime
  }

  predicate BudgetExhausted(k: ApiKey, usedThisMonth: int, usedLifetime: int) {
    !IsUnlimited(k) && UsedForPeriod(k, usedThisMonth, usedLifetime) >= k.limits.tokenBudget
  }

  function Remaining(k: ApiKey, usedThisMonth: int, usedLifetime: int): int {
    if IsUnlimited(k) then UNLIMITED else
      var rem := k.limits.tokenBudget - UsedForPeriod(k, usedThisMonth, usedLifetime);
      if rem > 0 then rem else 0
  }

  datatype Status = Status(exhausted: bool, remaining: int)

  /** The pre-flight check.  An unlimited key asks the store nothing; a limited one asks
      one query, over the month to date or over all time. */
  function CheckBudget<E>(k: ApiKey, now: Moment, sum: Range -> Result<int, E>): Result<Status, E> {
    if IsUnlimited(k) then Ok(Status(false, UNLIMITED))
    else if k.limits.budgetPeriod == MONTHLY then
      match sum(Range(ReportWindows(now).thisMonth.from, now.at)) {
        case Err(e) => Err(e)
        case Ok(used) => Ok(Status(BudgetExhausted(k, used, 0), Remaining(k, used, 0)))
      }
    else
      match sum(Range(0, now.at)) {
        case Err(e) => Err(e)
        case Ok(used) => Ok(Status(BudgetExhausted(k, 0, used), Remaining(k, 0, used)))
      }
  }

  /** The instant a key's current budget period began. */
  function PeriodStart(k: ApiKey, now: Moment): int {
    if k.limits.budgetPeriod == MONTHLY then ReportWindows(now).thisMonth.from else 0
  }

  /** A limited key passes the check exactly when the tokens recorded in its period and
      stamped strictly before the check are below its budget. */
  lemma CheckPassesExactly(k: ApiKey, now: Moment, log: seq<Event>)
    requires !IsUnlimited(k)
    ensures var used := SumTokens(log, k.id, Range(PeriodStart(k, now), now.at));
            CheckBudget(k, now, StoreSum(log, k.id))
            == Ok(Status(used >= k.limits.tokenBudget,
                         if used < k.limits.tokenBudget then k.limits.tokenBudget - used else 0))
  {
    hide ReportWindows;
  }

  // ---------------------------------------------------------------- the dashboard's meter

  datatype Meter = NoMeter | Meter(used: int, remaining: int, over: bool, width: int)

  /** The budget meter, derived from the report's buckets alone. */
  function DetailMeter(k: ApiKey, rep: Report): Meter
    requires k.limits.tokenBudget != 0
  {
    if IsUnlimited(k) then NoMeter else
      var lifetimeUsed := rep.thisMonth + rep.pastMonth + rep.before;
      var used := if k.limits.budgetPeriod == MONTHLY then rep.thisMonth else lifetimeUsed;
      var remaining := if k.limits.tokenBudget - used > 0 then k.limits.tokenBudget - used else 0;
      var pct := TruncatedDiv(used * 100, k.limits.tokenBudget);
      Meter(used, remaining, used >= k.limits.tokenBudget, if pct < 100 then pct else 100)
  }

  /** Integer division as the program's language defines it: towards zero. */
  function TruncatedDiv(a: int, b: int): int
    requires b != 0
  {
    if (a >= 0) == (b > 0) then Abs(a) / Abs(b) else -(Abs(a) / Abs(b))
  }

  function Abs(a: int): nat { if a >= 0 then a else -a }

  /** The meter on screen and the check on the request path agree, for both periods, over
      any log and at any instant: same use, same remainder, same verdict. */
  lemma MeterAgreesWithEnforcement(k: ApiKey, now: Moment, log: seq<Event>)
    requires Validate(k.limits) == None && NoneBeforeZero(log)
    ensures var report := BuildReport(ReportWindows(now), StoreSum(log, k.id));
            var check := CheckBudget(k, now, StoreSum(log, k.id));
            && report.Ok? && check.Ok?
            && match DetailMeter(k, report.value) {
                 case NoMeter => IsUnlimited(k) && check.value == Status(false, UNLIMITED)
                 case Meter(used, remaining, over, _) =>
                   && used == SumTokens(log, k.id, Range(PeriodStart(k, now), now.at))
                   && remaining == check.value.remaining
                   && over == check.value.exhausted
               }
  {
    hide ReportWindows, TruncatedDiv;
    WindowsTile(now);
    BucketsAddUpToLifetime(log, k.id, now);
    if !IsUnlimited(k) {
      CheckPassesExactly(k, now, log);
    }
  }

  /** What a quotient of non-negative numbers is. */
  lemma QuotientOf(a: int, b: int)
    requires a >= 0 && b > 0
    ensures var q := TruncatedDiv(a, b); q >= 0 && q * b <= a < q * b + b
  {
    assert a == a / b * b + a % b;
  }

  lemma FullWidth(used: int, budget: int)
    requires budget > 0 && used >= 0
    ensures TruncatedDiv(used * 100, budget) >= 0
    ensures TruncatedDiv(used * 100, budget) >= 100 <==> used >= budget
  {
    hide TruncatedDiv;
    QuotientOf(used * 100, budget);
    var q := TruncatedDiv(used * 100, budget);
    if q < 100 {
      TimesInOrder(q, 99, budget);
    } else {
      TimesInOrder(100, q, budget);
    }
  }

  /** The bar is full exactly when the meter says the budget is used up. */
  lemma BarIsFullExactlyWhenOver(k: ApiKey, rep: Report)
    requires Validate(k.limits) == None && rep.thisMonth >= 0 && rep.pastMonth >= 0 && rep.before >= 0
    ensures var m := DetailMeter(k, rep); m.Meter? ==> 0 <= m.width <= 100 && (m.width == 100 <==> m.over)
  {
    if !IsUnlimited(k) {
      FullWidth(rep.thisMonth, k.limits.tokenBudget);
      FullWidth(rep.thisMonth + rep.pastMonth + rep.before, k.limits.tokenBudget);
    }
  }

  /** The bar of a key within its budget shows the share used, in whole per cent rounded
      down, of the month's tokens for a monthly key and of all tokens for a lifetime key. */
  lemma BarShowsTheShareUsed(k: ApiKey, rep: Report)
    requires Validate(k.limits) == None && rep.thisMonth >= 0 && rep.pastMonth >= 0 && rep.before >= 0
    requires DetailMeter(k, rep).Meter? && !DetailMeter(k, rep).over
    ensures var m, budget := DetailMeter(k, rep), k.limits.tokenBudget;
            && m.used == (if k.limits.budgetPeriod == "monthly" then rep.thisMonth else rep.thisMonth + rep.pastMonth + rep.before)
            && m.remaining == budget - m.used
            && m.width * budget <= m.used * 100 < (m.width + 1) * budget
  {
    hide TruncatedDiv;
    var m, budget := DetailMeter(k, rep), k.limits.tokenBudget;
    FullWidth(m.used, budget);
    QuotientOf(m.used * 100, budget);
    assert (m.width + 1) * budget == m.width * budget + budget;
  }
}
