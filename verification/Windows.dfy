/** Window resets and the pure checks of a spend policy. */
module Windows {
  import opened Numbers
  import opened Results
  import opened Accounts
  import opened Grid

  /**
    Reset of one accumulator, in the division form the program uses. Every
    intermediate sum that leaves the 64-bit range traps.
  */
  function RollWindow(w: Window, now: I64, span: Span): Result<Window, Error> {
    var period := Period(span);
    if w.start + period > I64_MAX then Err(ArithmeticOverflow) else
    if now < w.start + period then Ok(w) else
    if now - w.start > I64_MAX then Err(ArithmeticOverflow) else
    Ok(Window(0, CellStart(w.start, now, period)))
  }

  /** The three resets, in order. */
  function RollWindows(w: Wallet, now: I64): Result<Wallet, Error> {
    match RollWindow(w.daily, now, Daily)
    case Err(e) => Err(e)
    case Ok(daily) =>
      match RollWindow(w.weekly, now, Weekly)
      case Err(e) => Err(e)
      case Ok(weekly) =>
        match RollWindow(w.monthly, now, Monthly)
        case Err(e) => Err(e)
        case Ok(monthly) => Ok(w.(daily := daily, weekly := weekly, monthly := monthly))
  }

  /** Reset of the rate-limit window: it restarts at the call, not on a grid. */
  function RollRateWindow(p: Policy, now: I64): Result<Policy, Error> {
    var secs := p.limits.rateLimitWindowSecs;
    if secs == 0 then Ok(p) else
    if p.rateLimitWindowStart + secs > I64_MAX then Err(ArithmeticOverflow) else
    if now < p.rateLimitWindowStart + secs then Ok(p) else
    Ok(p.(rateLimitCallCount := 0, rateLimitWindowStart := now))
  }

  predicate WithinPerCallLimit(limit: U64, amount: U64) {
    limit == 0 || amount <= limit
  }

  predicate WithinBudget(budget: U64, spend: U64, amount: U64) {
    budget == 0 || SaturatingAdd64(spend, amount) <= budget
  }

  predicate WithinRateLimit(p: Policy) {
    p.limits.rateLimitCalls == 0 || p.rateLimitCallCount < p.limits.rateLimitCalls
  }

  predicate DomainAdmitted(l: Limits, domain: Hash) {
    l.allowed == [] || domain in l.allowed
  }

  /** Reference reset: move the start on one period at a time, clearing the spend whenever it moves. */
  function AdvanceByPeriods(w: Window, now: I64, period: int): Window
    requires period > 0
    decreases now - w.start
  {
    if now < w.start + period then w
    else AdvanceByPeriods(Window(0, w.start + period), now, period)
  }

  /** Where the one-period-at-a-time reset ends up, spend and start. */
  lemma {:induction false} AdvanceEndsInCell(w: Window, now: I64, period: int)
    requires period > 0
    ensures AdvanceByPeriods(w, now, period)
         == if now < w.start + period then w else Window(0, CellStart(w.start, now, period))
    decreases now - w.start
  {
    if w.start + period <= now {
      AdvanceEndsInCell(Window(0, w.start + period), now, period);
      assert CellAt(w.start, 1, period) == w.start + period;
      CellUnique(w.start, w.start + period, period, 1);
      CellStartReanchored(w.start, w.start + period, now, period);
      if now < w.start + period + period {
        CellUnique(w.start, now, period, 1);
      }
    }
  }

  /** The division form computes the loop form, and lands in the window that holds `now`. */
  lemma RollRefinesLoop(w: Window, now: I64, span: Span)
    requires RollWindow(w, now, span).Ok?
    ensures RollWindow(w, now, span).value == AdvanceByPeriods(w, now, Period(span))
    ensures w.start <= now ==>
              var start := RollWindow(w, now, span).value.start;
              start <= now < start + Period(span)
  {
    AdvanceEndsInCell(w, now, Period(span));
  }

  /** A reset at `t1` and another at `t2` leave exactly what one reset at `t2` leaves. */
  lemma RollPathIndependent(w: Window, t1: I64, t2: I64, span: Span)
    requires w.start <= t1 <= t2 && 0 <= w.start
    requires t2 <= I64_MAX - U32_MAX
    ensures RollWindow(w, t1, span).Ok? && RollWindow(w, t2, span).Ok?
    ensures RollWindow(RollWindow(w, t1, span).value, t2, span) == RollWindow(w, t2, span)
  {
    var period := Period(span);
    var w1 := RollWindow(w, t1, span).value;
    if w.start + period <= t1 {
      CellStartReanchored(w.start, t1, t2, period);
      if t2 < w1.start + period {
        CellUnique(w.start, t2, period, CellIndex(w.start, t1, period));
      }
    }
  }
}
