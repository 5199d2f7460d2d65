/** The one budget value the program does not enforce, shown on a run. */
module TopBudget {
  import opened Numbers
  import opened Results
  import opened Accounts
  import opened Grid
  import opened Ledger
  import opened Windows
  import opened Machine
  import opened Runs
  import opened Books
  import opened Reachable
  import opened Refinement
  import opened Scenes
  import opened Tightness

  /** The settlement a reachable state makes of this instruction is the naive checker's. */
  ghost predicate SettlesAsNaive(run: Run, signer: Address, i: Instruction)
    requires i.SettlePayment?
  {
    var agent, s := i.payment.agentId, End(run);
    && GapFree(s.records, agent)
    && SameOutcome(s, RecordKey(agent, i.sequence), Execute(s, signer, i),
                   NaiveSettle(s, signer, i, PastOf(run, s.records, agent), LimitsIn(s, agent)))
  }

  /** Is this the budget of one span, with no other budget at the top of the range? */
  predicate BudgetOf(l: Limits, span: Span, budget: U64) {
    l.Budget(span) == budget && forall other :: l.Budget(other) == U64_MAX ==> other == span
  }

  /** A top budget, with nothing else limited, admits everything. */
  lemma {:induction false} TopBudgetAdmits(run: Run, span: Span, h: seq<Record>, now: I64, amount: U64)
    requires Scene(run, OnlyBudget(span, U64_MAX), h, now, 0, 0) && |h| <= U64_MAX && amount > 0
    ensures Execute(End(run), OWNER, PayInstruction(|h|, amount)).Ok?
  {
    RunSound(run, AGENT);
    var s := End(run);
    RollsAgree(s.wallets[AGENT], h, 0, now);
    assert Enforce(s.policies[AGENT], RollWindows(s.wallets[AGENT], now).value, Pay(amount), now).Ok?;
    assert Approve(0, s.wallets[AGENT], s.policies[AGENT], |h|, Pay(amount), now).Ok?;
  }

  /** A wallet whose top budget is spent. */
  lemma SpentRun(span: Span) returns (run: Run)
    ensures Scene(run, OnlyBudget(span, U64_MAX), [Paid(0, U64_MAX, 0)], 0, 0, 0)
  {
    var l := OnlyBudget(span, U64_MAX);
    SetUpScene(l);
    TopBudgetAdmits(SetUp(l), span, [], 0, U64_MAX);
    PayScene(SetUp(l), l, [], 0, 0, 0, U64_MAX);
    run := After(SetUp(l), Call(OWNER, PayInstruction(0, U64_MAX)));
  }

  /** The program settles one unit more; the ledger shows the budget is gone. */
  lemma TopBudgetDiverges(span: Span) returns (run: Run)
    ensures Valid(run) && Live(End(run), AGENT) && AGENT in End(run).policies
    ensures End(run).policies[AGENT].limits == OnlyBudget(span, U64_MAX)
    ensures Execute(End(run), OWNER, PayInstruction(1, 1)).Ok?
    ensures !SettlesAsNaive(run, OWNER, PayInstruction(1, 1))
  {
    run := SpentRun(span);
    var h, l := [Paid(0, U64_MAX, 0)], OnlyBudget(span, U64_MAX);
    TopBudgetAdmits(run, span, h, 0, 1);
    assert h[0..] == h;
    NaiveRefuses(span);
  }

  lemma NaiveRefuses(span: Span)
    ensures var h := [Paid(0, U64_MAX, 0)];
            NaiveEnforce(OnlyBudget(span, U64_MAX), Pay(1), 0, PastAt(h, 0, 0)) == Err(BudgetExceeded(span))
  {
    CellUnique(0, 0, Period(span), 0);
    assert [Paid(0, U64_MAX, 0)] == [] + [Paid(0, U64_MAX, 0)];
    TallyAppend([], Paid(0, U64_MAX, 0), Spend, 0, Period(span));
  }

  /** Settlement decides every payment as the ledger does, whatever the run, exactly for budgets below the top value. */
  lemma {:induction false} SettlesAsNaiveIff(span: Span, budget: U64)
    ensures (forall run: Run, signer: Address, i: Instruction ::
               && Valid(run) && i.SettlePayment?
               && !Stuck(End(run), i.payment.agentId) && i.payment.agentId in End(run).policies
               && BudgetOf(End(run).policies[i.payment.agentId].limits, span, budget) ==>
                 SettlesAsNaive(run, signer, i))
            <==> budget != U64_MAX
  {
    if budget == U64_MAX {
      var run := TopBudgetDiverges(span);
      var i := PayInstruction(1, 1);
      assert !SettlesAsNaive(run, OWNER, i) && BudgetOf(End(run).policies[i.payment.agentId].limits, span, budget);
    } else {
      forall run: Run, signer: Address, i: Instruction
        | && Valid(run) && i.SettlePayment?
          && !Stuck(End(run), i.payment.agentId) && i.payment.agentId in End(run).policies
          && BudgetOf(End(run).policies[i.payment.agentId].limits, span, budget)
        ensures SettlesAsNaive(run, signer, i)
      {
        var l := End(run).policies[i.payment.agentId].limits;
        assert l.Budget(Daily) != U64_MAX && l.Budget(Weekly) != U64_MAX && l.Budget(Monthly) != U64_MAX;
        SettleRefinesNaive(run, signer, i);
      }
    }
  }
}
