/** The two-layer bound on an accumulator, exactly: how far unenforced payments can take it past its budget. */
module LeakTightness {
  import opened Numbers
  import opened Accounts
  import opened Grid
  import opened Ledger
  import opened Machine
  import opened Runs
  import opened Books
  import opened Reachable
  import opened Budgets
  import opened Refinement
  import opened Scenes
  import opened Tightness

  /** Payments below the threshold in the accumulator's window. */
  ghost function SmallCalls(run: Run, agent: AgentId, span: Span, threshold: U64): nat
    requires agent in End(run).wallets && GapFree(End(run).records, agent)
  {
    var start := End(run).wallets[agent].Of(span).start;
    Tally(History(End(run).records, agent), CallsBelow(threshold), start, start + Period(span))
  }

  /** The most that many payments below the threshold come to. */
  function Dust(threshold: U64, small: nat): nat
    requires threshold > 0
  {
    small * (threshold - 1)
  }

  /**
    What an accumulator can show after `small` payments below the threshold. A
    budget below the threshold is of no use.
  */
  function MostSpend(budget: U64, threshold: U64, small: nat): U64
    requires threshold > 0
  {
    Clamp64((if threshold <= budget then budget else 0) + Dust(threshold, small))
  }

  // ----- Never more -----

  /** Enforced payments, if there are any, come to the threshold at least. */
  lemma {:induction false} LargePaymentsCount(h: seq<Record>, threshold: U64, lo: int, hi: int)
    ensures var spend, small := Tally(h, Spend, lo, hi), Tally(h, SpendBelow(threshold), lo, hi);
            spend == small || spend >= small + threshold
  {
    if h != [] {
      LargePaymentsCount(h[..|h| - 1], threshold, lo, hi);
    }
  }

  /** In a cell that holds, a budget below the threshold buys nothing. */
  lemma {:induction false} CellSpend(h: seq<Record>, anchor: int, span: Span, budget: U64, threshold: U64, k: int)
    requires threshold > 0 && CellHolds(h, anchor, span, budget, threshold, k)
    ensures var lo := CellAt(anchor, k, Period(span));
            Tally(h, Spend, lo, lo + Period(span))
            <= (if threshold <= budget then budget else 0) + Tally(h, SpendBelow(threshold), lo, lo + Period(span))
  {
    var lo := CellAt(anchor, k, Period(span));
    LargePaymentsCount(h, threshold, lo, lo + Period(span));
  }

  /** The accumulator of a wallet with few small payments. */
  lemma {:induction false} WindowWithin(w: Window, span: Span, h: seq<Record>, anchor: int, budget: U64, threshold: U64,
                                        small: nat)
    requires threshold > 0 && WindowAgrees(w, span, h, anchor) && CellsHold(h, anchor, span, budget, threshold)
    requires Tally(h, CallsBelow(threshold), w.start, w.start + Period(span)) <= small
    ensures w.spend <= MostSpend(budget, threshold, small)
  {
    var k := CellIndex(anchor, LastPaid(h, anchor), Period(span));
    assert CellHolds(h, anchor, span, budget, threshold, k);
    CellSpend(h, anchor, span, budget, threshold, k);
    FewSmallPayments(h, threshold, w.start, w.start + Period(span), small);
    assert w.start == CellAt(anchor, k, Period(span));
  }

  lemma FewSmallPayments(h: seq<Record>, threshold: U64, lo: int, hi: int, small: nat)
    requires threshold > 0 && Tally(h, CallsBelow(threshold), lo, hi) <= small
    ensures Tally(h, SpendBelow(threshold), lo, hi) <= Dust(threshold, small)
  {
    SmallPaymentsBound(h, threshold, lo, hi);
    DustGrows(threshold, Tally(h, CallsBelow(threshold), lo, hi), small);
  }

  lemma DustGrows(threshold: U64, few: nat, many: nat)
    requires threshold > 0 && few <= many
    ensures Dust(threshold, few) <= Dust(threshold, many)
  {
    assert Dust(threshold, many) == Dust(threshold, few) + (many - few) * (threshold - 1);
  }

  lemma {:induction false} SpendWithinMost(run: Run, agent: AgentId, span: Span, budget: U64, threshold: U64,
                                           small: nat)
    requires Valid(run) && budget < U64_MAX && threshold > 0
    requires StrictAlong(run, agent, span, budget, threshold) && Live(End(run), agent)
    requires GapFree(End(run).records, agent) && SmallCalls(run, agent, span, threshold) <= small
    ensures End(run).wallets[agent].Of(span).spend <= MostSpend(budget, threshold, small)
  {
    RunHolds(run, agent, span, budget, threshold);
    var w, h := End(run).wallets[agent].Of(span), History(End(run).records, agent);
    assert WindowAgrees(w, span, h, RegisteredAt(run, agent));
    WindowWithin(w, span, h, RegisteredAt(run, agent), budget, threshold, small);
  }

  // ----- As much as that -----

  /** One budget, enforced from the threshold up. */
  function Leaky(span: Span, budget: U64, threshold: U64): Limits {
    OnlyBudget(span, budget).(highValueThreshold := threshold)
  }

  /** The whole budget in one payment, large enough to be enforced, if nothing has been spent. */
  lemma {:induction false} BudgetScene(run: Run, span: Span, budget: U64, threshold: U64, h: seq<Record>, now: I64)
    requires 0 < threshold <= budget < U64_MAX && h == []
    requires Scene(run, Leaky(span, budget, threshold), h, now, 0, 0)
    ensures Scene(After(run, Call(OWNER, PayInstruction(|h|, budget))), Leaky(span, budget, threshold),
                  h + [Paid(|h|, budget, now)], now, 0, 0)
  {
    FirstAdmitted(span, budget, threshold, PastAt(h, 0, 0), now);
    PayAdmitted(run, Leaky(span, budget, threshold), h, now, 0, 0, budget);
  }

  lemma FirstAdmitted(span: Span, budget: U64, threshold: U64, past: Past, now: int)
    requires past.history == []
    ensures NaiveEnforce(Leaky(span, budget, threshold), Pay(budget), now, past).Ok?
  {
    assert NaiveSpend(past, now, span) == 0;
  }

  /** Then, or to begin with, payments below the threshold. */
  lemma {:induction false} DustScene(run: Run, l: Limits, h: seq<Record>, amount: U64, n: nat)
    requires Scene(run, l, h, 0, 0, 0) && NoTopBudget(l) && |h| + n <= U64_MAX + 1
    requires amount > 0 && !l.Enforces(amount)
    ensures Scene(PayMany(run, |h|, amount, n), l, PaidMany(h, amount, n, 0), 0, 0, 0)
  {
    PayManyScene(run, l, h, 0, 0, 0, amount, n);
  }

  lemma {:induction false} DustTallies(h: seq<Record>, threshold: U64, amount: U64, n: nat, hi: int)
    requires amount == threshold - 1 && |h| + n <= U64_MAX + 1 && hi > 0
    ensures Tally(PaidMany(h, amount, n, 0), Spend, 0, hi) == Tally(h, Spend, 0, hi) + Dust(threshold, n)
    ensures Tally(PaidMany(h, amount, n, 0), CallsBelow(threshold), 0, hi) == Tally(h, CallsBelow(threshold), 0, hi) + n
  {
    PaidManyTally(h, amount, n, 0, Spend, 0, hi, amount);
    PaidManyTally(h, amount, n, 0, CallsBelow(threshold), 0, hi, 1);
  }

  /** A history with one large payment, or none, before the dust. */
  function LargeFirst(budget: U64, threshold: U64): seq<Record> {
    if threshold <= budget then [Paid(0, budget, 0)] else []
  }

  lemma LargeFirstTallies(budget: U64, threshold: U64, hi: int)
    requires hi > 0
    ensures var h := LargeFirst(budget, threshold);
            && Tally(h, Spend, 0, hi) == (if threshold <= budget then budget else 0)
            && Tally(h, CallsBelow(threshold), 0, hi) == 0
  {
    if threshold <= budget {
      assert LargeFirst(budget, threshold) == [] + [Paid(0, budget, 0)];
      OneMorePaid([], budget, 0, Spend, 0, hi, budget);
      OneMorePaid([], budget, 0, CallsBelow(threshold), 0, hi, 0);
    }
  }

  lemma {:induction false} LargeFirstScene(span: Span, budget: U64, threshold: U64) returns (run: Run)
    requires 0 < budget < U64_MAX && threshold > 0
    ensures Scene(run, Leaky(span, budget, threshold), LargeFirst(budget, threshold), 0, 0, 0)
  {
    SetUpScene(Leaky(span, budget, threshold));
    run := SetUp(Leaky(span, budget, threshold));
    if threshold <= budget {
      var h: seq<Record>, now: I64 := [], 0;
      BudgetScene(run, span, budget, threshold, h, now);
      assert h + [Paid(|h|, budget, now)] == LargeFirst(budget, threshold);
      run := After(run, Call(OWNER, PayInstruction(0, budget)));
    }
  }

  /** The history with the small payments. */
  function LeakHistory(budget: U64, threshold: U64, n: nat): seq<Record>
    requires threshold > 0 && n <= U64_MAX
  {
    PaidMany(LargeFirst(budget, threshold), threshold - 1, n, 0)
  }

  /** A run that makes the large payment, if there is one, and then the small ones. */
  lemma {:induction false} LeakScene(span: Span, budget: U64, threshold: U64, n: nat) returns (run: Run)
    requires 0 < budget < U64_MAX && threshold > 0 && n <= U64_MAX && (threshold == 1 ==> n == 0)
    ensures Scene(run, Leaky(span, budget, threshold), LeakHistory(budget, threshold, n), 0, 0, 0)
  {
    var l := Leaky(span, budget, threshold);
    run := LargeFirstScene(span, budget, threshold);
    if n > 0 {
      DustScene(run, l, LargeFirst(budget, threshold), threshold - 1, n);
      run := PayMany(run, |LargeFirst(budget, threshold)|, threshold - 1, n);
    }
  }

  lemma LeakTallies(budget: U64, threshold: U64, n: nat, hi: int)
    requires threshold > 0 && n <= U64_MAX && hi > 0
    ensures Clamp64(Tally(LeakHistory(budget, threshold, n), Spend, 0, hi)) == MostSpend(budget, threshold, n)
    ensures Tally(LeakHistory(budget, threshold, n), CallsBelow(threshold), 0, hi) == n
  {
    DustTallies(LargeFirst(budget, threshold), threshold, threshold - 1, n, hi);
    LargeFirstTallies(budget, threshold, hi);
  }

  lemma {:induction false} PolicyAlongIsStrictFrom(run: Run, span: Span, budget: U64, threshold: U64)
    requires 0 < budget && threshold > 0 && PolicyAlong(run, Leaky(span, budget, threshold))
    ensures StrictAlong(run, AGENT, span, budget, threshold)
  {
    if run.After? {
      PolicyAlongIsStrictFrom(run.prev, span, budget, threshold);
    }
  }

  /** The window of a wallet whose payments were all made at time zero. */
  lemma {:induction false} WindowAtZero(run: Run, l: Limits, h: seq<Record>, span: Span)
    requires Scene(run, l, h, 0, 0, 0)
    ensures End(run).wallets[AGENT].Of(span) == Window(Clamp64(Tally(h, Spend, 0, Period(span))), 0)
  {
    RunSound(run, AGENT);
    var w := End(run).wallets[AGENT].Of(span);
    assert WindowAgrees(w, span, h, RegisteredAt(run, AGENT));
    FirstCell(w, span, h, AGENT, RegisteredAt(run, AGENT));
  }

  /** An agreeing window while no time has passed since registration. */
  lemma FirstCell(w: Window, span: Span, h: seq<Record>, agent: AgentId, anchor: int)
    requires HistorySound(h, agent, anchor, anchor) && WindowAgrees(w, span, h, anchor)
    ensures w.start == anchor && w.spend == Clamp64(Tally(h, Spend, anchor, anchor + Period(span)))
  {
    LastPaidInRange(h, agent, anchor, anchor);
    CellUnique(anchor, anchor, Period(span), 0);
  }

  /** More small payments than records can be made add nothing to what the accumulator can show. */
  function Possible(threshold: U64, small: nat): (n: nat)
    ensures n <= small && n <= U64_MAX && (threshold == 1 ==> n == 0)
  {
    if threshold == 1 then 0 else if small <= U64_MAX then small else U64_MAX
  }

  lemma PossibleIsEnough(budget: U64, threshold: U64, small: nat)
    requires threshold > 0
    ensures MostSpend(budget, threshold, Possible(threshold, small)) == MostSpend(budget, threshold, small)
  {
    if threshold > 1 && small > U64_MAX {
      DustIsMany(threshold, small);
      DustIsMany(threshold, U64_MAX);
    }
  }

  lemma DustIsMany(threshold: U64, n: nat)
    requires threshold > 1
    ensures Dust(threshold, n) >= n
  {
    assert Dust(threshold, n) == n + n * (threshold - 2);
  }

  /** Some run shows the most there can be. */
  lemma {:induction false} LeakReached(span: Span, budget: U64, threshold: U64, small: nat) returns (run: Run)
    requires 0 < budget < U64_MAX && threshold > 0
    ensures Valid(run) && StrictAlong(run, AGENT, span, budget, threshold) && Live(End(run), AGENT)
    ensures GapFree(End(run).records, AGENT) && SmallCalls(run, AGENT, span, threshold) <= small
    ensures End(run).wallets[AGENT].Of(span).spend == MostSpend(budget, threshold, small)
  {
    var n := Possible(threshold, small);
    run := LeakScene(span, budget, threshold, n);
    WindowAtZero(run, Leaky(span, budget, threshold), LeakHistory(budget, threshold, n), span);
    LeakTallies(budget, threshold, n, Period(span));
    PossibleIsEnough(budget, threshold, small);
    PolicyAlongIsStrictFrom(run, span, budget, threshold);
  }

  // ----- Exactly -----

  /** With at most `small` payments below the threshold in its window, an accumulator is within `bound`, always. */
  ghost predicate LeakWithin(span: Span, budget: U64, threshold: U64, small: nat, bound: nat) {
    forall run: Run, agent: AgentId ::
      && Valid(run) && StrictAlong(run, agent, span, budget, threshold) && Live(End(run), agent)
      && GapFree(End(run).records, agent) && SmallCalls(run, agent, span, threshold) <= small ==>
        End(run).wallets[agent].Of(span).spend <= bound
  }

  /**
    The budget and `small` payments of one less than the threshold are the least
    such bound; the payments alone, if the budget is below the threshold.
  */
  lemma {:induction false} LeakWithinIff(span: Span, budget: U64, threshold: U64, small: nat, bound: nat)
    requires 0 < budget < U64_MAX && threshold > 0
    ensures LeakWithin(span, budget, threshold, small, bound) <==> MostSpend(budget, threshold, small) <= bound
  {
    if MostSpend(budget, threshold, small) <= bound {
      forall run: Run, agent: AgentId
        | && Valid(run) && StrictAlong(run, agent, span, budget, threshold) && Live(End(run), agent)
          && GapFree(End(run).records, agent) && SmallCalls(run, agent, span, threshold) <= small
        ensures End(run).wallets[agent].Of(span).spend <= bound
      {
        SpendWithinMost(run, agent, span, budget, threshold, small);
      }
    } else {
      var run := LeakReached(span, budget, threshold, small);
    }
  }
}
