/** What the counters of a live wallet mean, in every reachable state. */
module Counters {
  import opened Numbers
  import opened Results
  import opened Accounts
  import opened Grid
  import opened Ledger
  import opened Machine
  import opened Runs
  import opened Books
  import opened RateLimit
  import opened Reachable

  /** An agreeing window shows everything settled since it began: nothing is later than its cell. */
  lemma WindowShowsSince(w: Window, span: Span, h: seq<Record>, agent: AgentId, anchor: int, now: int)
    requires anchor <= now && HistorySound(h, agent, anchor, now) && WindowAgrees(w, span, h, anchor)
    ensures w.spend == Clamp64(Tally(h, Spend, w.start, I64_MAX + 1))
  {
    LastPaidInRange(h, agent, anchor, now);
    TallySame(h, Spend, w.start, w.start + Period(span), w.start, I64_MAX + 1);
  }

  /**
    Each accumulator is the saturated total of the successful payments at or
    after its window's start, also when the window is stale.
  */
  lemma {:induction false} AccumulatorsAreLedgerSums(run: Run, agent: AgentId, span: Span)
    requires Valid(run) && Live(End(run), agent)
    ensures GapFree(End(run).records, agent)
    ensures var w := End(run).wallets[agent].Of(span);
            w.spend == Clamp64(Tally(History(End(run).records, agent), Spend, w.start, I64_MAX + 1))
  {
    RunSound(run, agent);
    var s, anchor := End(run), RegisteredAt(run, agent);
    var w, h := s.wallets[agent], History(s.records, agent);
    assert WindowAgrees(w.Of(span), span, h, anchor);
    WindowShowsSince(w.Of(span), span, h, agent, anchor, s.now);
  }

  /** Sequence, payment count, volume and last payment time summarise the ledger, whose times never go back. */
  lemma {:induction false} LifetimeCounters(run: Run, agent: AgentId)
    requires Valid(run) && Live(End(run), agent)
    ensures GapFree(End(run).records, agent)
    ensures var w, h := End(run).wallets[agent], History(End(run).records, agent);
            && w.totalPayments == w.paymentSequence == Clamp64(|h|)
            && w.totalVolume == Clamp64(GrandTotal(h, Spend))
            && Chronological(h)
            && (forall i :: 0 <= i < |h| && h[i].policyPassed && (forall j :: i < j < |h| ==> !h[j].policyPassed)
                  ==> w.lastPaymentAt == h[i].settledAt)
            && ((forall i :: 0 <= i < |h| ==> !h[i].policyPassed) ==> w.lastPaymentAt == 0)
  {
    RunSound(run, agent);
    var h := History(End(run).records, agent);
    forall i | 0 <= i < |h| && h[i].policyPassed && (forall j :: i < j < |h| ==> !h[j].policyPassed)
      ensures LastPaid(h, 0) == h[i].settledAt
    {
      LastPaidIs(h, 0, i);
    }
    if forall i :: 0 <= i < |h| ==> !h[i].policyPassed {
      NeverPaid(h, 0);
    }
  }

  ghost predicate OnGrid(anchor: int, t: int, period: int) {
    exists k :: t == CellAt(anchor, k, period)
  }

  lemma WindowOnGrid(w: Window, span: Span, h: seq<Record>, agent: AgentId, anchor: int, now: int)
    requires anchor <= now && HistorySound(h, agent, anchor, now) && WindowAgrees(w, span, h, anchor)
    ensures OnGrid(anchor, w.start, Period(span)) && anchor <= w.start <= now
  {
    LastPaidInRange(h, agent, anchor, now);
    assert w.start == CellAt(anchor, CellIndex(anchor, LastPaid(h, anchor), Period(span)), Period(span));
  }

  /** A daily window lies inside a coarser one that agrees with the same history. */
  lemma DailyNests(daily: Window, w: Window, span: Span, n: nat, h: seq<Record>, anchor: int)
    requires WindowAgrees(daily, Daily, h, anchor) && WindowAgrees(w, span, h, anchor)
    requires Period(span) == n * Period(Daily)
    ensures w.start <= daily.start && daily.spend <= w.spend <= Clamp64(GrandTotal(h, Spend))
  {
    CellNested(anchor, LastPaid(h, anchor), Period(Daily), n);
    TallyWiden(h, Spend, daily.start, daily.start + Period(Daily), w.start, w.start + Period(span));
    WithinLifetime(h, w.start, w.start + Period(span));
  }

  /** Whatever the interval, it holds no more than the lifetime total. */
  lemma {:induction false} WithinLifetime(h: seq<Record>, lo: int, hi: int)
    ensures Tally(h, Spend, lo, hi) <= GrandTotal(h, Spend)
  {
    if h != [] {
      WithinLifetime(h[..|h| - 1], lo, hi);
    }
  }

  /** Windows lie on grids laid at registration and are nested: their starts, and therefore what they hold. */
  lemma {:induction false} WindowsNest(run: Run, agent: AgentId)
    requires Valid(run) && Live(End(run), agent)
    ensures var w, anchor := End(run).wallets[agent], RegisteredAt(run, agent);
            && (forall span ::
                  OnGrid(anchor, w.Of(span).start, Period(span)) && anchor <= w.Of(span).start <= End(run).now)
            && w.weekly.start <= w.daily.start && w.monthly.start <= w.daily.start
            && w.daily.spend <= w.weekly.spend <= w.totalVolume
            && w.daily.spend <= w.monthly.spend <= w.totalVolume
  {
    RunSound(run, agent);
    var s, anchor := End(run), RegisteredAt(run, agent);
    var w, h := s.wallets[agent], History(s.records, agent);
    forall span ensures OnGrid(anchor, w.Of(span).start, Period(span)) && anchor <= w.Of(span).start <= s.now {
      assert WindowAgrees(w.Of(span), span, h, anchor);
      WindowOnGrid(w.Of(span), span, h, agent, anchor, s.now);
    }
    assert WindowAgrees(w.Of(Daily), Daily, h, anchor);
    assert WindowAgrees(w.Of(Weekly), Weekly, h, anchor);
    assert WindowAgrees(w.Of(Monthly), Monthly, h, anchor);
    DailyNests(w.daily, w.weekly, Weekly, 7, h, anchor);
    DailyNests(w.daily, w.monthly, Monthly, 30, h, anchor);
  }

  /** The rate limiter's counter is the number of enforced calls since the policy was set that fall in its window. */
  lemma {:induction false} RateCounterIsLedgerCount(run: Run, agent: AgentId)
    requires Valid(run) && Live(End(run), agent) && agent in End(run).policies
    ensures GapFree(End(run).records, agent) && PolicySince(run, agent) <= Count(End(run).records, agent)
    ensures var p := End(run).policies[agent];
            var calls := History(End(run).records, agent)[PolicySince(run, agent)..];
            p.rateLimitCallCount == Clamp32(CallsSince(p.limits, calls, p.rateLimitWindowStart))
  {
    RunSound(run, agent);
  }

  /**
    A nonzero limit is never exceeded in the limiter's window, nor twice over in
    any half-open period of the window's length, nor at all in any period of one
    second if that is the window's length; a window of zero seconds makes it a
    cap on all calls until the policy is set again.
  */
  lemma {:induction false} RateLimitOverRuns(run: Run, agent: AgentId, lo: int)
    requires Valid(run) && Live(End(run), agent) && agent in End(run).policies
    requires End(run).policies[agent].limits.rateLimitCalls > 0
    ensures GapFree(End(run).records, agent) && PolicySince(run, agent) <= Count(End(run).records, agent)
    ensures var p := End(run).policies[agent];
            var calls := History(End(run).records, agent)[PolicySince(run, agent)..];
            var secs := p.limits.rateLimitWindowSecs;
            && p.rateLimitCallCount <= p.limits.rateLimitCalls
            && (secs > 0 ==> CallsIn(p.limits, calls, lo, lo + secs) <= WindowsMet(secs) * p.limits.rateLimitCalls)
            && (secs == 0 ==> CallsIn(p.limits, calls, I64_MIN, I64_MAX + 1) <= p.limits.rateLimitCalls)
  {
    RunSound(run, agent);
    var p := End(run).policies[agent];
    var calls := History(End(run).records, agent)[PolicySince(run, agent)..];
    assert p.limits.rateLimitWindowSecs > 0 ==> PeriodWithin(p.limits, calls, lo, lo + p.limits.rateLimitWindowSecs);
    if p.limits.rateLimitWindowSecs == 0 {
      TallySame(calls, CallsFrom(p.limits.highValueThreshold), p.rateLimitWindowStart, I64_MAX + 1, I64_MIN,
                I64_MAX + 1);
    }
  }

  /** The checks of an agreeing wallet and policy never trap. */
  lemma ApproveNeverTraps(cap: U64, w: Wallet, p: Policy, sequence: U64, payment: Payment, now: I64,
                          h: seq<Record>, anchor: int, calls: seq<Record>)
    requires BooksAgree(w, h, anchor, now) && RateAgrees(p, calls, now)
    ensures Approve(cap, w, p, sequence, payment, now) != Err(ArithmeticOverflow)
  {
    RollsAgree(w, h, anchor, now);
    RollRateAgrees(p, calls, now);
  }

  /** Only the checks can trap, and only past the sequence check. */
  lemma TrapComesFromApprove(s: State, signer: Address, sequence: U64, payment: Payment, mint: Address, payee: Address)
    requires Settle(s, signer, sequence, payment, mint, payee) == Err(ArithmeticOverflow)
    ensures var agent := payment.agentId;
            && agent in s.wallets && agent in s.policies && s.config.Some?
            && RecordKey(agent, s.wallets[agent].paymentSequence) !in s.records
            && Approve(s.config.value.maxSinglePaymentUsdc, s.wallets[agent], s.policies[agent], sequence, payment,
                       s.now)
               == Err(ArithmeticOverflow)
  {
  }

  /** In a reachable state no window arithmetic ever traps. */
  lemma {:induction false} NoOverflow(run: Run, signer: Address, sequence: U64, payment: Payment, mint: Address,
                                      payee: Address)
    requires Valid(run)
    ensures Settle(End(run), signer, sequence, payment, mint, payee) != Err(ArithmeticOverflow)
  {
    var s, agent := End(run), payment.agentId;
    if Settle(s, signer, sequence, payment, mint, payee) == Err(ArithmeticOverflow) {
      TrapComesFromApprove(s, signer, sequence, payment, mint, payee);
      RunSound(run, agent);
      NextKeyIsCount(s, agent, RegisteredAt(run, agent), PolicySince(run, agent));
      var h := History(s.records, agent);
      ApproveNeverTraps(s.config.value.maxSinglePaymentUsdc, s.wallets[agent], s.policies[agent], sequence, payment,
                        s.now, h, RegisteredAt(run, agent), h[PolicySince(run, agent)..]);
    }
  }
}
