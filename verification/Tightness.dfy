/**
  When the documented limits hold as documented, exactly, and that the bounds
  proved in their place cannot be lowered.
*/
module Tightness {
  import opened Numbers
  import opened Accounts
  import opened Grid
  import opened Ledger
  import opened Machine
  import opened Runs
  import opened Books
  import opened Reachable
  import opened Budgets
  import opened Refinement
  import opened Scenes

  // ----- Payments of a whole budget, each in a cell of its own -----

  /** One budget on one window, every payment enforced, nothing else limited. */
  function OnlyBudget(span: Span, budget: U64): Limits {
    Limits(if span.Daily? then budget else 0, if span.Weekly? then budget else 0, if span.Monthly? then budget else 0,
           0, 0, 0, 1, [], [])
  }

  /** No payment falls in the cell of a later one, cells counted from zero. */
  ghost predicate CellsOfTheirOwn(times: seq<I64>, period: int)
    requires period > 0
  {
    forall i, j :: 0 <= i < j < |times| ==> times[i] < CellStart(0, times[j], period)
  }

  lemma OwnCellsAdmitted(span: Span, budget: U64, times: seq<I64>)
    requires 0 < budget < U64_MAX && |times| <= U64_MAX
    requires CellsOfTheirOwn(times, Period(span))
    ensures AllAdmitted(OnlyBudget(span, budget), times, budget)
  {
    forall i | 0 <= i < |times|
      ensures var h := Payments(times[..i], budget);
              NaiveEnforce(OnlyBudget(span, budget), Pay(budget), times[i], PastAt(h, 0, 0)).Ok?
    {
      FreshCellAdmits(span, budget, times[..i], times[i]);
    }
  }

  /** A payment of the budget is admitted in a cell that lies after all the others. */
  lemma FreshCellAdmits(span: Span, budget: U64, times: seq<I64>, now: I64)
    requires 0 < budget < U64_MAX && |times| <= U64_MAX
    requires forall i :: 0 <= i < |times| ==> times[i] < CellStart(0, now, Period(span))
    ensures var h := Payments(times, budget);
            NaiveEnforce(OnlyBudget(span, budget), Pay(budget), now, PastAt(h, 0, 0)).Ok?
  {
    var start := CellStart(0, now, Period(span));
    PaymentsOutside(times, budget, Spend, start, start + Period(span));
  }

  lemma {:induction false} PolicyAlongIsStrict(run: Run, span: Span, budget: U64)
    requires budget > 0 && PolicyAlong(run, OnlyBudget(span, budget))
    ensures StrictAlong(run, AGENT, span, budget, 1)
  {
    if run.After? {
      PolicyAlongIsStrict(run.prev, span, budget);
    }
  }

  /** Such payments are all made in some run, with everything enforced, by a wallet registered at time zero. */
  lemma OwnCellsReached(span: Span, budget: U64, times: seq<I64>) returns (run: Run)
    requires 0 < budget < U64_MAX && |times| <= U64_MAX
    requires Rising(times) && CellsOfTheirOwn(times, Period(span))
    ensures Scene(run, OnlyBudget(span, budget), Payments(times, budget), LastTime(times), 0, 0)
    ensures StrictAlong(run, AGENT, span, budget, 1)
  {
    OwnCellsAdmitted(span, budget, times);
    PaymentsReached(OnlyBudget(span, budget), times, budget);
    run := PayAtTimes(OnlyBudget(span, budget), times, budget);
    PolicyAlongIsStrict(run, span, budget);
  }

  // ----- A budget over one period -----

  /** The agent's spend over one period that starts `d` seconds after registration. */
  ghost function SpendFrom(run: Run, agent: AgentId, span: Span, d: int): nat
    requires GapFree(End(run).records, agent)
  {
    var lo := RegisteredAt(run, agent) + d;
    Tally(History(End(run).records, agent), Spend, lo, lo + Period(span))
  }

  /** With every payment enforced, that spend is within the budget, in every run. */
  ghost predicate BudgetHoldsFrom(span: Span, budget: U64, d: int) {
    forall run: Run, agent: AgentId ::
      && Valid(run) && StrictAlong(run, agent, span, budget, 1)
      && Live(End(run), agent) && GapFree(End(run).records, agent) ==>
        SpendFrom(run, agent, span, d) <= budget
  }

  /** Does a boundary between two windows fall strictly inside that period, while the clock still runs? */
  predicate Straddles(span: Span, d: int) {
    d > 0 && d % Period(span) != 0 && CellAt(0, CellIndex(0, d, Period(span)) + 1, Period(span)) <= MAX_CLOCK
  }

  /** Two payments, in the last second of one window and in the first of the next. */
  function BoundaryTimes(span: Span, d: int): seq<int> {
    var boundary := CellAt(0, CellIndex(0, d, Period(span)) + 1, Period(span));
    [boundary - 1, boundary]
  }

  lemma BoundaryInside(span: Span, d: int)
    requires Straddles(span, d)
    ensures var times := BoundaryTimes(span, d);
            && d <= times[0] < times[1] < d + Period(span)
            && 0 <= times[0] < times[1] <= MAX_CLOCK
            && times[0] < CellStart(0, times[1], Period(span))
  {
    var period := Period(span);
    var k := CellIndex(0, d, period);
    NextCell(k, period);
    CellUnique(0, CellAt(0, k + 1, period), period, k + 1);
  }

  lemma BoundaryTotal(span: Span, budget: U64, d: int)
    requires Straddles(span, d)
    ensures var times: seq<I64> := BoundaryTimes(span, d);
            Tally(Payments(times, budget), Spend, d, d + Period(span)) == 2 * budget
  {
    BoundaryInside(span, d);
    PaymentsInside(BoundaryTimes(span, d), budget, Spend, d, d + Period(span));
  }

  /** A period that straddles a boundary holds twice the budget in some run. */
  lemma TwiceTheBudget(span: Span, budget: U64, d: int) returns (run: Run)
    requires 0 < budget < U64_MAX && Straddles(span, d)
    ensures Valid(run) && StrictAlong(run, AGENT, span, budget, 1) && Live(End(run), AGENT)
    ensures GapFree(End(run).records, AGENT)
    ensures SpendFrom(run, AGENT, span, d) == 2 * budget
  {
    BoundaryInside(span, d);
    BoundaryTotal(span, budget, d);
    run := OwnCellsReached(span, budget, BoundaryTimes(span, d));
  }

  /** The cell a period that straddles no boundary falls in, as far as there is time on both sides. */
  function OnlyCell(span: Span, d: int): int {
    if d <= 0 then 0 else CellIndex(0, d, Period(span))
  }

  lemma {:induction false} SeenInOneCell(anchor: int, span: Span, d: int, t: int)
    requires 0 <= anchor <= t <= MAX_CLOCK && !Straddles(span, d)
    requires anchor + d <= t < anchor + d + Period(span)
    ensures var cell := CellAt(anchor, OnlyCell(span, d), Period(span));
            cell <= t < cell + Period(span)
  {
    var k := OnlyCell(span, d);
    assert CellAt(anchor, k, Period(span)) == anchor + CellAt(0, k, Period(span));
    NextCell(k, Period(span));
    if 0 < d && d % Period(span) == 0 {
      assert CellAt(0, k, Period(span)) == d;
    }
  }

  lemma NextCell(k: int, period: int)
    ensures CellAt(0, k + 1, period) == CellAt(0, k, period) + period
  {
    assert (k + 1) * period == k * period + period;
  }

  /** A period that straddles no boundary, as far as the clock runs, is inside one cell. */
  lemma WithinOneCell(h: seq<Record>, agent: AgentId, anchor: int, now: int, span: Span, budget: U64, d: int)
    requires 0 <= anchor && now <= MAX_CLOCK && HistorySound(h, agent, anchor, now)
    requires CellsHold(h, anchor, span, budget, 1)
    requires !Straddles(span, d)
    ensures Tally(h, Spend, anchor + d, anchor + d + Period(span)) <= budget
  {
    var cell := CellAt(anchor, OnlyCell(span, d), Period(span));
    assert CellHolds(h, anchor, span, budget, 1, OnlyCell(span, d));
    NothingBelowOne(h, cell, cell + Period(span));
    forall i | 0 <= i < |h| && anchor + d <= h[i].settledAt < anchor + d + Period(span)
      ensures cell <= h[i].settledAt < cell + Period(span)
    {
      SeenInOneCell(anchor, span, d, h[i].settledAt);
    }
    TallyClipped(h, cell, cell + Period(span), anchor + d, anchor + d + Period(span));
  }

  /** An interval weighs no more than another that catches whatever it catches. */
  lemma {:induction false} TallyClipped(h: seq<Record>, lo: int, hi: int, lo': int, hi': int)
    requires forall i :: 0 <= i < |h| && lo' <= h[i].settledAt < hi' ==> lo <= h[i].settledAt < hi
    ensures Tally(h, Spend, lo', hi') <= Tally(h, Spend, lo, hi)
  {
    if h != [] {
      TallyClipped(h[..|h| - 1], lo, hi, lo', hi');
    }
  }

  /**
    A budget holds over the period that starts `d` seconds after registration
    exactly when no boundary falls inside it.
  */
  lemma {:induction false} BudgetHoldsIff(span: Span, budget: U64, d: int)
    requires 0 < budget < U64_MAX
    ensures BudgetHoldsFrom(span, budget, d) <==> !Straddles(span, d)
  {
    if Straddles(span, d) {
      var run := TwiceTheBudget(span, budget, d);
      assert SpendFrom(run, AGENT, span, d) > budget;
    } else {
      forall run: Run, agent: AgentId
        | && Valid(run) && StrictAlong(run, agent, span, budget, 1)
          && Live(End(run), agent) && GapFree(End(run).records, agent)
        ensures SpendFrom(run, agent, span, d) <= budget
      {
        RunHolds(run, agent, span, budget, 1);
        WithinOneCell(History(End(run).records, agent), agent, RegisteredAt(run, agent), End(run).now, span, budget, d);
      }
    }
  }

  // ----- Shorter windows against longer ones -----

  /** Starts of `n` consecutive daily cells. */
  function DailyTimes(n: nat): (times: seq<I64>)
    requires n <= 30
    ensures |times| == n
  {
    seq(n, i requires 0 <= i < n => i * SECONDS_PER_DAY)
  }

  lemma DailyTimesApart(n: nat)
    requires n <= 30
    ensures Rising(DailyTimes(n)) && CellsOfTheirOwn(DailyTimes(n), Period(Daily))
  {
    var times := DailyTimes(n);
    forall i, j | 0 <= i < j < n ensures times[i] < CellStart(0, times[j], Period(Daily)) {
      CellUnique(0, times[j], Period(Daily), j);
    }
  }

  /** An agreeing window after payments that all fall in the cell of the last one. */
  lemma WindowAddsUp(w: Window, span: Span, times: seq<I64>, amount: U64, start: int)
    requires 0 < |times| <= U64_MAX && start == CellStart(0, LastTime(times), Period(span))
    requires forall i :: 0 <= i < |times| ==> start <= times[i] < start + Period(span)
    requires WindowAgrees(w, span, Payments(times, amount), 0)
    ensures w.spend == Clamp64(|times| * amount)
  {
    var h := Payments(times, amount);
    assert LastPaid(h, 0) == h[|h| - 1].settledAt;
    PaymentsInside(times, amount, Spend, start, start + Period(span));
  }

  /** So the accumulator of a wallet that has made them shows their total. */
  lemma AccumulatorOfScene(run: Run, l: Limits, times: seq<I64>, amount: U64, span: Span, start: int)
    requires 0 < |times| <= U64_MAX && start == CellStart(0, LastTime(times), Period(span))
    requires forall i :: 0 <= i < |times| ==> start <= times[i] < start + Period(span)
    requires Scene(run, l, Payments(times, amount), LastTime(times), 0, 0)
    ensures End(run).wallets[AGENT].Of(span).spend == Clamp64(|times| * amount)
  {
    RunSound(run, AGENT);
    var w := End(run).wallets[AGENT];
    assert WindowAgrees(w.Of(span), span, History(End(run).records, AGENT), RegisteredAt(run, AGENT));
    WindowAddsUp(w.Of(span), span, times, amount, start);
  }

  /** One daily budget on each day of a week, or of a month, is what the longer accumulator then shows. */
  lemma DailyBudgetAddsUp(budget: U64, span: Span, n: nat) returns (run: Run)
    requires 0 < budget < U64_MAX && 0 < n <= 30 && Period(span) == n * Period(Daily)
    ensures Valid(run) && StrictAlong(run, AGENT, Daily, budget, 1) && Live(End(run), AGENT)
    ensures End(run).wallets[AGENT].Of(span).spend == Clamp64(n * budget)
  {
    var times := DailyTimes(n);
    DailyTimesApart(n);
    run := OwnCellsReached(Daily, budget, times);
    CellUnique(0, LastTime(times), Period(span), 0);
    AccumulatorOfScene(run, OnlyBudget(Daily, budget), times, budget, span, 0);
  }

  /** The fourth month begins in the last day of a week: six weekly cells meet it. */
  const SIX_WEEKS: seq<I64> :=
    [90 * SECONDS_PER_DAY, 91 * SECONDS_PER_DAY, 98 * SECONDS_PER_DAY, 105 * SECONDS_PER_DAY, 112 * SECONDS_PER_DAY,
     119 * SECONDS_PER_DAY]

  lemma SixWeeksApart()
    ensures Rising(SIX_WEEKS) && CellsOfTheirOwn(SIX_WEEKS, Period(Weekly))
    ensures CellStart(0, LastTime(SIX_WEEKS), Period(Monthly)) == 90 * SECONDS_PER_DAY
  {
    CellUnique(0, LastTime(SIX_WEEKS), Period(Monthly), 3);
  }

  lemma WeeklyBudgetAddsUp(budget: U64) returns (run: Run)
    requires 0 < budget < U64_MAX
    ensures Valid(run) && StrictAlong(run, AGENT, Weekly, budget, 1) && Live(End(run), AGENT)
    ensures End(run).wallets[AGENT].monthly.spend == Clamp64(6 * budget)
  {
    SixWeeksApart();
    run := OwnCellsReached(Weekly, budget, SIX_WEEKS);
    AccumulatorOfScene(run, OnlyBudget(Weekly, budget), SIX_WEEKS, budget, Monthly, 90 * SECONDS_PER_DAY);
    assert End(run).wallets[AGENT].monthly == End(run).wallets[AGENT].Of(Monthly);
  }

  /** With every payment enforced, the accumulator of one window is within `factor` budgets of another, in every run. */
  ghost predicate FactorHolds(short: Span, long: Span, budget: U64, factor: nat) {
    forall run: Run, agent: AgentId ::
      Valid(run) && StrictAlong(run, agent, short, budget, 1) && Live(End(run), agent) ==>
        End(run).wallets[agent].Of(long).spend <= factor * budget
  }

  /** A daily budget, over a week or a month of `n` days: `n` is the least factor, as far as the accumulator reaches. */
  lemma {:induction false} DailyFactorIff(long: Span, n: nat, budget: U64, factor: nat)
    requires 0 < budget < U64_MAX && (long, n) in {(Weekly, 7), (Monthly, 30)}
    ensures FactorHolds(Daily, long, budget, factor) <==> Clamp64(n * budget) <= factor * budget
  {
    var full := DailyBudgetAddsUp(budget, long, n);
    if Clamp64(n * budget) <= factor * budget {
      forall run: Run, agent: AgentId | Valid(run) && StrictAlong(run, agent, Daily, budget, 1) && Live(End(run), agent)
        ensures End(run).wallets[agent].Of(long).spend <= factor * budget
      {
        CrossWindowBounds(run, agent, budget);
      }
    }
  }

  /** A weekly budget over a month: six is. */
  lemma {:induction false} WeeklyFactorIff(budget: U64, factor: nat)
    requires 0 < budget < U64_MAX
    ensures FactorHolds(Weekly, Monthly, budget, factor) <==> Clamp64(6 * budget) <= factor * budget
  {
    var full := WeeklyBudgetAddsUp(budget);
    if Clamp64(6 * budget) <= factor * budget {
      forall run: Run, agent: AgentId
        | Valid(run) && StrictAlong(run, agent, Weekly, budget, 1) && Live(End(run), agent)
        ensures End(run).wallets[agent].Of(Monthly).spend <= factor * budget
      {
        MonthlyFromWeekly(run, agent, budget);
      }
    }
  }
}
