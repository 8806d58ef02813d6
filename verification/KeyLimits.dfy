/** What the bounds on a key's limits are for: a key that violates one is useless. */
module KeyLimits {
  import opened Budget
  import opened Calendar
  import opened RateLimiter
  import opened UsageReport
  import opened Wrappers

  /** Some request size is accepted. */
  ghost predicate BatchUsable(l: Limits) {
    exists n :: AllowsBatch(l, n)
  }

  /** A key's first call is within its rate. */
  predicate RateUsable(l: Limits, now: int) {
    Decide(None, now, l.ratePerMin).Allowed?
  }

  /** A key that has spent nothing passes the budget check. */
  predicate BudgetUsable(k: ApiKey, now: Moment) {
    !CheckBudget(k, now, StoreSum([], k.id)).value.exhausted
  }

  /** Limits that pass validation leave a fresh key usable, and each of the three numeric
      bounds on use is needed: without it no request of the key gets through. */
  lemma ValidLimitsAreUsable(k: ApiKey, now: Moment)
    ensures Validate(k.limits) == None ==> BatchUsable(k.limits) && RateUsable(k.limits, now.at) && BudgetUsable(k, now)
    ensures Validate(k.limits) == Some(BadBatch) ==> !BatchUsable(k.limits)
    ensures Validate(k.limits) == Some(BadRate) ==> !RateUsable(k.limits, now.at)
    ensures Validate(k.limits) == Some(BadBudget) ==> !BudgetUsable(k, now)
  {
    hide ReportWindows;
    if !IsUnlimited(k) {
      CheckPassesExactly(k, now, []);
    }
    if k.limits.batchMax >= 1 {
      assert AllowsBatch(k.limits, 1);
    }
  }
}
