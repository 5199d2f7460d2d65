/**
  The rate limiter against the ledger. `calls` below is the history since the
  policy was set; a call is a settlement that policy enforced.
*/
module RateLimit {
  import opened Numbers
  import opened Accounts
  import opened Ledger
  import opened Windows
  import opened Machine

  /** Enforced calls of a history in a half-open interval. */
  function CallsIn(l: Limits, calls: seq<Record>, lo: int, hi: int): nat {
    Tally(calls, CallsFrom(l.highValueThreshold), lo, hi)
  }

  /** Enforced calls at or after a time. */
  function CallsSince(l: Limits, calls: seq<Record>, lo: int): nat {
    CallsIn(l, calls, lo, I64_MAX + 1)
  }

  predicate IsCall(l: Limits, r: Record) {
    r.policyPassed && l.Enforces(r.amount)
  }

  /** The counter is the number of calls in its window, and windows are a whole period apart. */
  ghost predicate CounterAgrees(p: Policy, calls: seq<Record>, now: int) {
    var start: int, secs: int := p.rateLimitWindowStart, p.limits.rateLimitWindowSecs;
    && 0 <= start <= now <= MAX_CLOCK
    && p.rateLimitCallCount == Clamp32(CallsSince(p.limits, calls, start))
    && (forall i :: 0 <= i < |calls| ==> calls[i].settledAt <= now)
    && (secs > 0 ==> forall i :: 0 <= i < |calls| && IsCall(p.limits, calls[i]) ==> calls[i].settledAt < start + secs)
    && (secs == 0 ==> forall i :: 0 <= i < |calls| ==> start <= calls[i].settledAt)
  }

  /** How many windows a half-open period no longer than a window can meet. A second meets one. */
  function WindowsMet(length: int): int {
    if length <= 1 then 1 else 2
  }

  /** A period that holds at most one limit for each window it can meet. */
  predicate PeriodWithin(l: Limits, calls: seq<Record>, lo: int, hi: int) {
    CallsIn(l, calls, lo, hi) <= WindowsMet(hi - lo) * l.rateLimitCalls
  }

  /** With a limit in force: it holds in the window, in the period before it, and once per window met in any period. */
  ghost predicate LimitHolds(p: Policy, calls: seq<Record>) {
    var start: int, secs: int := p.rateLimitWindowStart, p.limits.rateLimitWindowSecs;
    var limit: int := p.limits.rateLimitCalls;
    limit > 0 ==>
      && CallsSince(p.limits, calls, start) <= limit
      && (secs > 0 ==> CallsIn(p.limits, calls, start - secs, start) <= limit)
      && (secs > 0 ==>
            forall lo, hi :: lo <= hi <= lo + secs ==> PeriodWithin(p.limits, calls, lo, hi))
  }

  ghost predicate RateAgrees(p: Policy, calls: seq<Record>, now: int) {
    CounterAgrees(p, calls, now) && LimitHolds(p, calls)
  }

  /** A freshly set policy has counted nothing. */
  lemma SetPolicyAgrees(agentWallet: Address, limits: Limits, now: I64)
    requires 0 <= now <= MAX_CLOCK
    ensures RateAgrees(Policy(agentWallet, limits, 0, now), [], now)
  {
  }

  /** Time passing changes nothing. */
  lemma TimeAgrees(p: Policy, calls: seq<Record>, now: int, later: int)
    requires RateAgrees(p, calls, now) && now <= later <= MAX_CLOCK
    ensures RateAgrees(p, calls, later)
  {
  }

  /** A record that is no enforced call leaves the limiter alone. */
  lemma UncountedAgrees(p: Policy, calls: seq<Record>, now: int, r: Record)
    requires RateAgrees(p, calls, now) && r.settledAt == now && !IsCall(p.limits, r)
    ensures RateAgrees(p, calls + [r], now)
  {
    forall lo, hi ensures CallsIn(p.limits, calls + [r], lo, hi) == CallsIn(p.limits, calls, lo, hi) {
      TallyAppend(calls, r, CallsFrom(p.limits.highValueThreshold), lo, hi);
    }
    forall lo, hi | PeriodWithin(p.limits, calls, lo, hi) ensures PeriodWithin(p.limits, calls + [r], lo, hi) {
    }
  }

  /** Rolling never traps, and the rolled counter is the number of calls the ledger shows in the rolled window. */
  lemma RollRateAgrees(p: Policy, calls: seq<Record>, now: I64)
    requires RateAgrees(p, calls, now)
    ensures RollRateWindow(p, now).Ok?
    ensures RateAgrees(RollRateWindow(p, now).value, calls, now)
    ensures var q := RollRateWindow(p, now).value;
            && q.limits == p.limits
            && (q.limits.rateLimitWindowSecs > 0 ==> now < q.rateLimitWindowStart + q.limits.rateLimitWindowSecs)
  {
    var start: int, secs: int := p.rateLimitWindowStart, p.limits.rateLimitWindowSecs;
    if secs > 0 && start + secs <= now {
      var m := CallsFrom(p.limits.highValueThreshold);
      TallyEmpty(calls, m, now, I64_MAX + 1);
      TallyWiden(calls, m, now - secs, now, start, I64_MAX + 1);
    }
  }

  /** Any period that holds the new call is still within the limits of the windows it meets. */
  lemma PeriodKept(p: Policy, calls: seq<Record>, now: I64, r: Record, lo: int, hi: int)
    requires RateAgrees(p, calls, now) && WithinRateLimit(p)
    requires p.limits.rateLimitCalls > 0 && p.limits.rateLimitWindowSecs > 0
    requires now < p.rateLimitWindowStart + p.limits.rateLimitWindowSecs
    requires r.settledAt == now && lo <= hi <= lo + p.limits.rateLimitWindowSecs
    ensures PeriodWithin(p.limits, calls + [r], lo, hi)
  {
    TallyAppend(calls, r, CallsFrom(p.limits.highValueThreshold), lo, hi);
    assert PeriodWithin(p.limits, calls, lo, hi);
    if lo <= now < hi {
      PeriodBound(p, calls, lo, hi);
    }
  }

  /** A call inside a window that still has room keeps the limit, in the window and in every period. */
  lemma CallAgrees(p: Policy, calls: seq<Record>, now: I64, r: Record)
    requires RateAgrees(p, calls, now) && WithinRateLimit(p)
    requires p.limits.rateLimitWindowSecs > 0 ==> now < p.rateLimitWindowStart + p.limits.rateLimitWindowSecs
    requires r.settledAt == now && IsCall(p.limits, r)
    ensures RateAgrees(p.(rateLimitCallCount := SaturatingAdd32(p.rateLimitCallCount, 1)), calls + [r], now)
  {
    CounterKept(p, calls, now, r);
    LimitKept(p, calls, now, r);
  }

  /** Counting the call keeps the counter the number of calls in its window. */
  lemma CounterKept(p: Policy, calls: seq<Record>, now: I64, r: Record)
    requires CounterAgrees(p, calls, now)
    requires p.limits.rateLimitWindowSecs > 0 ==> now < p.rateLimitWindowStart + p.limits.rateLimitWindowSecs
    requires r.settledAt == now && IsCall(p.limits, r)
    ensures CounterAgrees(p.(rateLimitCallCount := SaturatingAdd32(p.rateLimitCallCount, 1)), calls + [r], now)
  {
    TallyAppend(calls, r, CallsFrom(p.limits.highValueThreshold), p.rateLimitWindowStart, I64_MAX + 1);
  }

  /** A call where there is room keeps the limit. */
  lemma LimitKept(p: Policy, calls: seq<Record>, now: I64, r: Record)
    requires RateAgrees(p, calls, now) && WithinRateLimit(p)
    requires p.limits.rateLimitWindowSecs > 0 ==> now < p.rateLimitWindowStart + p.limits.rateLimitWindowSecs
    requires r.settledAt == now && IsCall(p.limits, r)
    ensures LimitHolds(p.(rateLimitCallCount := SaturatingAdd32(p.rateLimitCallCount, 1)), calls + [r])
  {
    var m := CallsFrom(p.limits.highValueThreshold);
    var start: int, secs: int := p.rateLimitWindowStart, p.limits.rateLimitWindowSecs;
    var limit: int := p.limits.rateLimitCalls;
    TallyAppend(calls, r, m, start, I64_MAX + 1);
    TallyAppend(calls, r, m, start - secs, start);
    if limit > 0 && secs > 0 {
      forall lo, hi | lo <= hi <= lo + secs
        ensures PeriodWithin(p.limits, calls + [r], lo, hi)
      {
        PeriodKept(p, calls, now, r, lo, hi);
      }
    }
  }

  /** A period that reaches into the current window meets at most it and the one before; within the window, only it. */
  lemma PeriodBound(p: Policy, calls: seq<Record>, lo: int, hi: int)
    requires LimitHolds(p, calls)
    requires p.limits.rateLimitCalls > 0 && p.limits.rateLimitWindowSecs > 0
    requires p.rateLimitWindowStart - p.limits.rateLimitWindowSecs <= lo <= hi
    requires p.rateLimitWindowStart <= hi <= I64_MAX + 1
    ensures var current := CallsSince(p.limits, calls, p.rateLimitWindowStart);
            CallsIn(p.limits, calls, lo, hi)
            <= if p.rateLimitWindowStart <= lo then current else p.limits.rateLimitCalls + current
  {
    var m := CallsFrom(p.limits.highValueThreshold);
    var start: int, secs: int := p.rateLimitWindowStart, p.limits.rateLimitWindowSecs;
    if start <= lo {
      TallyWiden(calls, m, lo, hi, start, I64_MAX + 1);
    } else {
      TallySplit(calls, m, lo, start, hi);
      TallyWiden(calls, m, start, hi, start, I64_MAX + 1);
      TallyWiden(calls, m, lo, start, start - secs, start);
    }
  }
}
