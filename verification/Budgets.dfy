/**
  What the budgets bound over whole runs. Windows are cells of a grid laid at
  registration, so a budget bounds each cell; everything else follows from how
  many cells an interval can meet.
*/
module Budgets {
  import opened Numbers
  import opened Results
  import opened Accounts
  import opened Grid
  import opened Ledger
  import opened Windows
  import opened Machine
  import opened Runs
  import opened Books
  import opened Reachable

  /** Payments from `threshold` up are enforced, against a nonzero budget of at most `budget`. */
  predicate Strict(l: Limits, span: Span, budget: U64, threshold: U64) {
    0 < l.highValueThreshold <= threshold && 0 < l.Budget(span) <= budget
  }

  /** Threshold one enforces every payment; no other threshold does, and zero in particular enforces none. */
  lemma EnforcesEverythingIff(l: Limits)
    ensures (forall amount: U64 :: amount > 0 ==> l.Enforces(amount)) <==> l.highValueThreshold == 1
    ensures (exists amount: U64 :: l.Enforces(amount)) <==> l.highValueThreshold > 0
  {
    assert l.Enforces(1) <==> l.highValueThreshold == 1;
    assert l.highValueThreshold > 0 ==> l.Enforces(U64_MAX);
  }

  /** Every policy the agent had at any point of the run was that strict. */
  predicate StrictAlong(run: Run, agent: AgentId, span: Span, budget: U64, threshold: U64) {
    match run
    case Boot(_) => true
    case After(prev, step) =>
      && StrictAlong(prev, agent, span, budget, threshold)
      && (agent in End(run).policies ==> Strict(End(run).policies[agent].limits, span, budget, threshold))
  }

  /** One cell: the spend exceeds the budget by no more than what was paid below the threshold. */
  ghost predicate CellHolds(h: seq<Record>, anchor: int, span: Span, budget: U64, threshold: U64, k: int) {
    var lo := CellAt(anchor, k, Period(span));
    Tally(h, Spend, lo, lo + Period(span)) <= budget + Tally(h, SpendBelow(threshold), lo, lo + Period(span))
  }

  ghost predicate CellsHold(h: seq<Record>, anchor: int, span: Span, budget: U64, threshold: U64) {
    forall k :: CellHolds(h, anchor, span, budget, threshold, k)
  }

  lemma EmptyCellsHold(anchor: int, span: Span, budget: U64, threshold: U64)
    ensures CellsHold([], anchor, span, budget, threshold)
  {
  }

  /** An enforced payment leaves the accumulator within the budget it was checked against. */
  lemma EnforcedWithinBudget(p: Policy, rolled: Wallet, payment: Payment, now: I64, span: Span)
    requires Enforce(p, rolled, payment, now).Ok? && p.limits.Enforces(payment.amount)
    ensures p.limits.Budget(span) > 0 ==>
              Book(rolled, payment.amount, now).Of(span).spend <= p.limits.Budget(span)
  {
  }

  /** One cell after a payment: either it was enforced against the cell's spend, or it was small. */
  lemma CellKept(w: Window, h: seq<Record>, r: Record, anchor: int, span: Span, budget: U64, threshold: U64, k: int,
                 enforced: bool)
    requires r.policyPassed
    requires ShowsCell(w, span, h, anchor, r.settledAt)
    requires enforced ==> SaturatingAdd64(w.spend, r.amount) <= budget < U64_MAX
    requires !enforced ==> r.amount < threshold
    requires CellHolds(h, anchor, span, budget, threshold, k)
    ensures CellHolds(h + [r], anchor, span, budget, threshold, k)
  {
    var lo := CellAt(anchor, k, Period(span));
    TallyAppend(h, r, Spend, lo, lo + Period(span));
    TallyAppend(h, r, SpendBelow(threshold), lo, lo + Period(span));
    if lo <= r.settledAt < lo + Period(span) {
      CellUnique(anchor, r.settledAt, Period(span), k);
    }
  }

  /** A settlement that passed a strict policy keeps every cell within its bound. */
  lemma SettlementHolds(w: Wallet, p: Policy, payment: Payment, h: seq<Record>, anchor: int, now: I64, r: Record,
                        span: Span, budget: U64, threshold: U64)
    requires BooksAgree(w, h, anchor, now) && RollWindows(w, now).Ok?
    requires Enforce(p, RollWindows(w, now).value, payment, now).Ok?
    requires r.policyPassed && r.amount == payment.amount && r.settledAt == now
    requires Strict(p.limits, span, budget, threshold) && budget < U64_MAX
    requires CellsHold(h, anchor, span, budget, threshold)
    ensures CellsHold(h + [r], anchor, span, budget, threshold)
  {
    RollsAgree(w, h, anchor, now);
    var rolled := RollWindows(w, now).value;
    if p.limits.Enforces(payment.amount) {
      EnforcedWithinBudget(p, rolled, payment, now, span);
      assert Book(rolled, payment.amount, now).Of(span) == Charge(rolled.Of(span), payment.amount);
    }
    forall k ensures CellHolds(h + [r], anchor, span, budget, threshold, k) {
      assert CellHolds(h, anchor, span, budget, threshold, k);
      CellKept(rolled.Of(span), h, r, anchor, span, budget, threshold, k, p.limits.Enforces(payment.amount));
    }
  }

  /** A record of a violation weighs nothing. */
  lemma ViolationHolds(h: seq<Record>, r: Record, anchor: int, span: Span, budget: U64, threshold: U64)
    requires CellsHold(h, anchor, span, budget, threshold) && !r.policyPassed
    ensures CellsHold(h + [r], anchor, span, budget, threshold)
  {
    forall k ensures CellHolds(h + [r], anchor, span, budget, threshold, k) {
      var lo := CellAt(anchor, k, Period(span));
      assert CellHolds(h, anchor, span, budget, threshold, k);
      TallyAppend(h, r, Spend, lo, lo + Period(span));
      TallyAppend(h, r, SpendBelow(threshold), lo, lo + Period(span));
    }
  }

  /** The grid of a live wallet is within its bounds. */
  ghost predicate GridHolds(s: State, agent: AgentId, anchor: int, span: Span, budget: U64, threshold: U64) {
    && GapFree(s.records, agent)
    && (Live(s, agent) ==> CellsHold(History(s.records, agent), anchor, span, budget, threshold))
  }

  lemma SettleHolds(s: State, signer: Address, i: Instruction, anchor: int, since: nat, span: Span, budget: U64,
                    threshold: U64)
    requires i.SettlePayment? && Execute(s, signer, i).Ok? && budget < U64_MAX
    requires AgentSound(s, i.payment.agentId, anchor, since)
    requires Strict(s.policies[i.payment.agentId].limits, span, budget, threshold)
    requires GridHolds(s, i.payment.agentId, anchor, span, budget, threshold)
    ensures GridHolds(Execute(s, signer, i).value, i.payment.agentId, anchor, span, budget, threshold)
  {
    var agent, s' := i.payment.agentId, Execute(s, signer, i).value;
    SettleCommits(s, signer, i.sequence, i.payment, i.mint, i.payee);
    NextKeyIsCount(s, agent, anchor, since);
    var r, h := s'.records[RecordKey(agent, i.sequence)], History(s.records, agent);
    HistoryGrows(s.records, agent, r);
    SettlementHolds(s.wallets[agent], s.policies[agent], i.payment, h, anchor, s.now, r, span, budget, threshold);
  }

  lemma {:induction false} RecordViolationHolds(s: State, signer: Address, i: Instruction, anchor: int, since: nat,
                                                span: Span, budget: U64, threshold: U64)
    requires i.RecordPolicyViolation? && Execute(s, signer, i).Ok?
    requires AgentSound(s, i.payment.agentId, anchor, since)
    requires GridHolds(s, i.payment.agentId, anchor, span, budget, threshold)
    ensures GridHolds(Execute(s, signer, i).value, i.payment.agentId, anchor, span, budget, threshold)
  {
    var agent, s' := i.payment.agentId, Execute(s, signer, i).value;
    NextKeyIsCount(s, agent, anchor, since);
    var r := s'.records[RecordKey(agent, i.sequence)];
    HistoryGrows(s.records, agent, r);
    ViolationHolds(History(s.records, agent), r, anchor, span, budget, threshold);
  }

  lemma RegisterHolds(s: State, signer: Address, i: Instruction, anchor: int, span: Span, budget: U64, threshold: U64)
    requires i.RegisterAgent? && Execute(s, signer, i).Ok? && GapFree(s.records, i.agent)
    ensures GridHolds(Execute(s, signer, i).value, i.agent, anchor, span, budget, threshold)
  {
    if Count(s.records, i.agent) == 0 {
      assert History(s.records, i.agent) == [];
      EmptyCellsHold(anchor, span, budget, threshold);
    }
  }

  /** One step of the two-layer bound. */
  lemma StepHolds(s: State, step: Step, agent: AgentId, anchor: int, since: nat, span: Span, budget: U64,
                  threshold: U64)
    requires budget < U64_MAX && AgentSound(s, agent, anchor, since)
    requires agent in s.policies ==> Strict(s.policies[agent].limits, span, budget, threshold)
    requires GridHolds(s, agent, anchor, span, budget, threshold)
    ensures GridHolds(Next(s, step), agent, NextAnchor(s, step, agent, anchor), span, budget, threshold)
  {
    if Writes(step) != Some(agent) || !Applies(s, step) {
      OtherStepsAlike(s, step, agent);
      HistoryFrame(s.records, Next(s, step).records, agent);
    } else {
      var signer, i := step.signer, step.instruction;
      match i
      case RegisterAgent(_, _) => RegisterHolds(s, signer, i, s.now, span, budget, threshold);
      case SettlePayment(sequence, _, mint, payee) =>
        SettleCommits(s, signer, sequence, i.payment, mint, payee);
        SettleHolds(s, signer, i, anchor, since, span, budget, threshold);
      case RecordPolicyViolation(_, _) => RecordViolationHolds(s, signer, i, anchor, since, span, budget, threshold);
      case _ =>
    }
  }

  /** Along a run with strict policies, every cell of a live wallet's grid is within its bound. */
  lemma {:induction false} RunHolds(run: Run, agent: AgentId, span: Span, budget: U64, threshold: U64)
    requires Valid(run) && budget < U64_MAX
    requires StrictAlong(run, agent, span, budget, threshold)
    ensures AgentSound(End(run), agent, RegisteredAt(run, agent), PolicySince(run, agent))
    ensures GridHolds(End(run), agent, RegisteredAt(run, agent), span, budget, threshold)
  {
    RunSound(run, agent);
    match run
    case Boot(_) =>
    case After(prev, step) =>
      RunHolds(prev, agent, span, budget, threshold);
      StepHolds(End(prev), step, agent, RegisteredAt(prev, agent), PolicySince(prev, agent), span, budget, threshold);
  }

  // ----- Consequences -----

  /** The wallet and the ledger just after a settlement: the accumulator, and the cell it then stands for. */
  lemma {:induction false} EnforcedCommit(s: State, signer: Address, i: Instruction, anchor: int, since: nat,
                                          span: Span)
    requires i.SettlePayment? && Execute(s, signer, i).Ok?
    requires AgentSound(s, i.payment.agentId, anchor, since) && i.payment.agentId in s.policies
    requires s.policies[i.payment.agentId].limits.Enforces(i.payment.amount)
    requires s.policies[i.payment.agentId].limits.Budget(span) > 0
    ensures var agent, s' := i.payment.agentId, Execute(s, signer, i).value;
            && AgentSound(s', agent, anchor, since) && Live(s', agent) && s'.now == s.now
            && s'.wallets[agent].Of(span).spend <= s.policies[agent].limits.Budget(span)
            && LastPaid(History(s'.records, agent), anchor) == s.now
  {
    var agent, s' := i.payment.agentId, Execute(s, signer, i).value;
    SettleCommits(s, signer, i.sequence, i.payment, i.mint, i.payee);
    NextKeyIsCount(s, agent, anchor, since);
    var r, h := s'.records[RecordKey(agent, i.sequence)], History(s.records, agent);
    EnforcedWithinBudget(s.policies[agent], RollWindows(s.wallets[agent], s.now).value, i.payment, s.now, span);
    HistoryGrows(s.records, agent, r);
    LastPaidAppend(h, r, anchor);
    SettleKeeps(s, signer, i.sequence, i.payment, i.mint, i.payee, anchor, since);
  }

  /** An accumulator within a budget below the top value shows a ledger within it. */
  lemma LedgerWithin(s: State, agent: AgentId, anchor: int, since: nat, span: Span, budget: U64)
    requires AgentSound(s, agent, anchor, since) && Live(s, agent)
    requires s.wallets[agent].Of(span).spend <= budget < U64_MAX
    ensures var start := CellStart(anchor, LastPaid(History(s.records, agent), anchor), Period(span));
            Tally(History(s.records, agent), Spend, start, start + Period(span)) <= budget
  {
    assert WindowAgrees(s.wallets[agent].Of(span), span, History(s.records, agent), anchor);
  }

  /** One accumulator, and the cell of the present, are within a nonzero budget, unless that is the top value. */
  ghost predicate PresentWithin(s: State, agent: AgentId, anchor: int, span: Span, budget: U64) {
    && GapFree(s.records, agent) && agent in s.wallets
    && s.wallets[agent].Of(span).spend <= budget
    && (budget < U64_MAX ==>
          var start := CellStart(anchor, s.now, Period(span));
          Tally(History(s.records, agent), Spend, start, start + Period(span)) <= budget)
  }

  lemma PresentIsWithin(s: State, agent: AgentId, anchor: int, since: nat, span: Span, budget: U64)
    requires AgentSound(s, agent, anchor, since) && Live(s, agent)
    requires LastPaid(History(s.records, agent), anchor) == s.now
    requires s.wallets[agent].Of(span).spend <= budget
    ensures PresentWithin(s, agent, anchor, span, budget)
  {
    if budget < U64_MAX {
      LedgerWithin(s, agent, anchor, since, span, budget);
    }
  }

  /**
    After an enforced settlement each accumulator is within its nonzero budget,
    and so is what the ledger shows spent in the window of the present.
  */
  lemma {:induction false} EnforcedSettlementWithinBudget(run: Run, signer: Address, i: Instruction, span: Span)
    requires Valid(run) && i.SettlePayment? && Execute(End(run), signer, i).Ok?
    requires i.payment.agentId in End(run).policies
    requires End(run).policies[i.payment.agentId].limits.Enforces(i.payment.amount)
    requires End(run).policies[i.payment.agentId].limits.Budget(span) > 0
    ensures PresentWithin(Execute(End(run), signer, i).value, i.payment.agentId, RegisteredAt(run, i.payment.agentId),
                          span, End(run).policies[i.payment.agentId].limits.Budget(span))
  {
    var s, agent, anchor := End(run), i.payment.agentId, RegisteredAt(run, i.payment.agentId);
    RunSound(run, agent);
    EnforcedCommit(s, signer, i, anchor, PolicySince(run, agent), span);
    PresentIsWithin(Execute(s, signer, i).value, agent, anchor, PolicySince(run, agent), span,
                    s.policies[agent].limits.Budget(span));
  }

  /** The two-layer bound on one agreeing window. */
  lemma WindowLeak(w: Window, span: Span, h: seq<Record>, anchor: int, budget: U64, threshold: U64)
    requires threshold > 0 && WindowAgrees(w, span, h, anchor)
    requires CellsHold(h, anchor, span, budget, threshold)
    ensures var small := Tally(h, SpendBelow(threshold), w.start, w.start + Period(span));
            && w.spend <= budget + small
            && small <= Tally(h, CallsBelow(threshold), w.start, w.start + Period(span)) * (threshold - 1)
  {
    assert CellHolds(h, anchor, span, budget, threshold, CellIndex(anchor, LastPaid(h, anchor), Period(span)));
    SmallPaymentsBound(h, threshold, w.start, w.start + Period(span));
  }

  /** Two-layer bound: the accumulator exceeds the budget by no more than the unenforced payments of its window. */
  lemma {:induction false} LeakBound(run: Run, agent: AgentId, span: Span, budget: U64, threshold: U64)
    requires Valid(run) && budget < U64_MAX && threshold > 0
    requires StrictAlong(run, agent, span, budget, threshold)
    requires Live(End(run), agent)
    ensures GapFree(End(run).records, agent)
    ensures var w, h := End(run).wallets[agent].Of(span), History(End(run).records, agent);
            var small := Tally(h, SpendBelow(threshold), w.start, w.start + Period(span));
            && w.spend <= budget + small
            && small <= Tally(h, CallsBelow(threshold), w.start, w.start + Period(span)) * (threshold - 1)
  {
    RunHolds(run, agent, span, budget, threshold);
    var w, h := End(run).wallets[agent].Of(span), History(End(run).records, agent);
    assert WindowAgrees(w, span, h, RegisteredAt(run, agent));
    WindowLeak(w, span, h, RegisteredAt(run, agent), budget, threshold);
  }

  /** With threshold one there are no unenforced payments. */
  lemma {:induction false} NothingBelowOne(h: seq<Record>, lo: int, hi: int)
    ensures Tally(h, SpendBelow(1), lo, hi) == 0
  {
    if h != [] {
      NothingBelowOne(h[..|h| - 1], lo, hi);
    }
  }

  /** A stretch of `n` cells holds at most `n` budgets. */
  lemma {:induction false} StretchBound(h: seq<Record>, anchor: int, span: Span, budget: U64, first: int, n: nat)
    requires CellsHold(h, anchor, span, budget, 1)
    ensures CellAt(anchor, first, Period(span)) <= CellAt(anchor, first + n, Period(span))
    ensures Tally(h, Spend, CellAt(anchor, first, Period(span)), CellAt(anchor, first + n, Period(span))) <= n * budget
  {
    var period := Period(span);
    var lo := CellAt(anchor, first, period);
    if n == 0 {
      TallyEmpty(h, Spend, lo, lo);
    } else {
      StretchBound(h, anchor, span, budget, first, n - 1);
      var mid := CellAt(anchor, first + n - 1, period);
      assert CellAt(anchor, first + n, period) == mid + period by {
        assert (first + n) * period == (first + n - 1) * period + period;
      }
      TallySplit(h, Spend, lo, mid, mid + period);
      assert CellHolds(h, anchor, span, budget, 1, first + n - 1);
      NothingBelowOne(h, mid, mid + period);
      assert n * budget == (n - 1) * budget + budget;
    }
  }

  /** An interval inside a stretch of `n` cells holds at most `n` budgets. */
  lemma CoveredBound(h: seq<Record>, anchor: int, span: Span, budget: U64, first: int, n: nat, lo: int, hi: int)
    requires CellsHold(h, anchor, span, budget, 1)
    requires CellAt(anchor, first, Period(span)) <= lo && hi <= CellAt(anchor, first + n, Period(span))
    ensures Tally(h, Spend, lo, hi) <= n * budget
  {
    StretchBound(h, anchor, span, budget, first, n);
    TallyWiden(h, Spend, lo, hi, CellAt(anchor, first, Period(span)), CellAt(anchor, first + n, Period(span)));
  }

  /** One period meets two cells at most. */
  lemma AnyPeriodBound(h: seq<Record>, anchor: int, span: Span, budget: U64, lo: int)
    requires CellsHold(h, anchor, span, budget, 1)
    ensures Tally(h, Spend, lo, lo + Period(span)) <= 2 * budget
  {
    var period := Period(span);
    var first := CellIndex(anchor, lo, period);
    assert (first + 2) * period == first * period + 2 * period;
    CoveredBound(h, anchor, span, budget, first, 2, lo, lo + period);
  }

  /**
    Sliding bound: with every payment enforced, no half-open interval of one
    period, wherever it starts, holds more than twice the budget, across any
    number of policy updates.
  */
  lemma SlidingBound(run: Run, agent: AgentId, span: Span, budget: U64, lo: int)
    requires Valid(run) && budget < U64_MAX
    requires StrictAlong(run, agent, span, budget, 1)
    requires Live(End(run), agent)
    ensures GapFree(End(run).records, agent)
    ensures Tally(History(End(run).records, agent), Spend, lo, lo + Period(span)) <= 2 * budget
  {
    RunHolds(run, agent, span, budget, 1);
    AnyPeriodBound(History(End(run).records, agent), RegisteredAt(run, agent), span, budget, lo);
  }

  /** Budgets of a shorter window bound the accumulators of the longer ones, even where those are unlimited. */
  lemma {:induction false} CrossWindowBounds(run: Run, agent: AgentId, daily: U64)
    requires Valid(run) && daily < U64_MAX
    requires StrictAlong(run, agent, Daily, daily, 1)
    requires Live(End(run), agent)
    ensures End(run).wallets[agent].weekly.spend <= 7 * daily
    ensures End(run).wallets[agent].monthly.spend <= 30 * daily
  {
    RunHolds(run, agent, Daily, daily, 1);
    var s, anchor := End(run), RegisteredAt(run, agent);
    var w, h := s.wallets[agent], History(s.records, agent);
    assert WindowAgrees(w.Of(Weekly), Weekly, h, anchor);
    assert WindowAgrees(w.Of(Monthly), Monthly, h, anchor);
    CoarseSpendBound(w.weekly, h, anchor, daily, Weekly, 7);
    CoarseSpendBound(w.monthly, h, anchor, daily, Monthly, 30);
  }

  /** A window that is `n` days long is `n` cells of the daily grid. */
  lemma CoarseSpendBound(w: Window, h: seq<Record>, anchor: int, daily: U64, span: Span, n: nat)
    requires WindowAgrees(w, span, h, anchor)
    requires CellsHold(h, anchor, Daily, daily, 1)
    requires Period(span) == n * Period(Daily)
    ensures w.spend <= n * daily
  {
    var k := CellIndex(anchor, LastPaid(h, anchor), Period(span));
    CoarseCell(anchor, k, Period(Daily), n);
    CoveredBound(h, anchor, Daily, daily, k * n, n, w.start, w.start + Period(span));
  }

  /** A month meets at most six weeks of the weekly grid. */
  lemma MonthMeetsSixWeeks(anchor: int, start: int)
    ensures var week := Period(Weekly);
            && CellAt(anchor, CellIndex(anchor, start, week), week) <= start
            && start + Period(Monthly) <= CellAt(anchor, CellIndex(anchor, start, week) + 6, week)
  {
  }

  /** So six weekly budgets bound the monthly accumulator, even where the month is unlimited. */
  lemma {:induction false} MonthlyFromWeekly(run: Run, agent: AgentId, weekly: U64)
    requires Valid(run) && weekly < U64_MAX
    requires StrictAlong(run, agent, Weekly, weekly, 1)
    requires Live(End(run), agent)
    ensures End(run).wallets[agent].monthly.spend <= 6 * weekly
  {
    RunHolds(run, agent, Weekly, weekly, 1);
    var anchor, h := RegisteredAt(run, agent), History(End(run).records, agent);
    assert WindowAgrees(End(run).wallets[agent].Of(Monthly), Monthly, h, anchor);
    MonthSpendBound(End(run).wallets[agent].monthly, h, anchor, weekly);
  }

  lemma MonthSpendBound(w: Window, h: seq<Record>, anchor: int, weekly: U64)
    requires WindowAgrees(w, Monthly, h, anchor) && CellsHold(h, anchor, Weekly, weekly, 1)
    ensures w.spend <= 6 * weekly
  {
    MonthMeetsSixWeeks(anchor, w.start);
    CoveredBound(h, anchor, Weekly, weekly, CellIndex(anchor, w.start, Period(Weekly)), 6, w.start,
                 w.start + Period(Monthly));
  }
}
