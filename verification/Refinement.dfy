/**
  Settlement with counters refines a checker that keeps none: it adds up the
  ledger, in unbounded integers, every time it is asked.
*/
module Refinement {
  import opened Numbers
  import opened Results
  import opened Accounts
  import opened Grid
  import opened Ledger
  import opened Windows
  import opened TokenProgram
  import opened Machine
  import opened Runs
  import opened Books
  import opened RateLimit
  import opened Reachable
  import opened Replay

  /**
    All the naive checker knows of the past: the records, those since the policy was
    set, and when wallet and policy began.
  */
  datatype Past = Past(history: seq<Record>, registeredAt: int, calls: seq<Record>, policySetAt: int)

  /** Spend of the grid cell that holds `now`. */
  function NaiveSpend(past: Past, now: int, span: Span): nat {
    var start := CellStart(past.registeredAt, now, Period(span));
    Tally(past.history, Spend, start, start + Period(span))
  }

  predicate NaiveWithinBudget(budget: U64, total: nat, amount: U64) {
    budget == 0 || total + amount <= budget
  }

  /** Enforced calls in the rate-limit window as it stands at `now`, the window itself replayed from the calls. */
  function NaiveCalls(l: Limits, past: Past, now: int): nat {
    var start := ReplayStart(l, past.policySetAt, past.calls);
    var elapsed := 0 < l.rateLimitWindowSecs <= now - start;
    CallsSince(l, past.calls, if elapsed then now else start)
  }

  /** The policy checks, in the program's order, from the ledger. */
  function NaiveEnforce(l: Limits, payment: Payment, now: int, past: Past): Result<(), Error> {
    var amount := payment.amount;
    if !l.Enforces(amount) then Ok(()) else
    if l.perCallLimit > 0 && amount > l.perCallLimit then Err(PerCallLimitExceeded) else
    if !NaiveWithinBudget(l.dailyBudget, NaiveSpend(past, now, Daily), amount) then Err(BudgetExceeded(Daily)) else
    if !NaiveWithinBudget(l.weeklyBudget, NaiveSpend(past, now, Weekly), amount) then Err(BudgetExceeded(Weekly)) else
    var monthly := NaiveSpend(past, now, Monthly);
    if !NaiveWithinBudget(l.monthlyBudget, monthly, amount) then Err(BudgetExceeded(Monthly)) else
    if l.rateLimitCalls > 0 && NaiveCalls(l, past, now) >= l.rateLimitCalls then Err(RateLimitExceeded) else
    if payment.domainHash in l.blocked then Err(DomainBlocked) else
    if l.allowed != [] && payment.domainHash !in l.allowed then Err(DomainNotAllowed) else
    Ok(())
  }

  /** All the checks of a settlement. */
  function NaiveVerdict(cap: U64, active: bool, frozen: bool, l: Limits, sequence: U64, payment: Payment, now: int,
                        past: Past)
    : Result<(), Error>
  {
    if payment.amount == 0 then Err(ZeroPaymentAmount) else
    if FromDiscriminant(payment.protocol).None? then Err(InvalidProtocol) else
    if sequence != |past.history| then Err(SequenceMismatch) else
    if cap > 0 && payment.amount > cap then Err(GlobalPaymentCapExceeded) else
    if !active then Err(AgentNotActive) else
    if frozen then Err(AgentFrozen) else
    NaiveEnforce(l, payment, now, past)
  }

  /** The saturating check on a saturated accumulator decides the true sum, unless the budget is the top value. */
  lemma BudgetCheckDecides(budget: U64, total: nat, amount: U64)
    ensures WithinBudget(budget, Clamp64(total), amount)
            <==> NaiveWithinBudget(budget, total, amount) || budget == U64_MAX
  {
  }

  /** It decides the true sum for every spend and every amount exactly when the budget is not the top value. */
  lemma BudgetCheckExactIff(budget: U64)
    ensures (forall total: nat, amount: U64 ::
               WithinBudget(budget, Clamp64(total), amount) <==> NaiveWithinBudget(budget, total, amount))
            <==> budget != U64_MAX
  {
    forall total: nat, amount: U64
      ensures WithinBudget(budget, Clamp64(total), amount)
              <==> NaiveWithinBudget(budget, total, amount) || budget == U64_MAX
    {
      BudgetCheckDecides(budget, total, amount);
    }
    assert !NaiveWithinBudget(U64_MAX, U64_MAX, 1);
  }

  /** The stored counters and the past agree. */
  ghost predicate Agrees(w: Wallet, p: Policy, past: Past, now: int) {
    && BooksAgree(w, past.history, past.registeredAt, now)
    && RateAgrees(p, past.calls, now)
    && p.rateLimitWindowStart == ReplayStart(p.limits, past.policySetAt, past.calls)
  }

  /** The rolled counter admits a call exactly when the ledger shows room for it. */
  lemma RateCheckDecides(p: Policy, past: Past, now: I64)
    requires RateAgrees(p, past.calls, now)
    requires p.rateLimitWindowStart == ReplayStart(p.limits, past.policySetAt, past.calls)
    ensures RollRateWindow(p, now).Ok?
    ensures WithinRateLimit(RollRateWindow(p, now).value)
            <==> p.limits.rateLimitCalls == 0 || NaiveCalls(p.limits, past, now) < p.limits.rateLimitCalls
  {
    RollRateAgrees(p, past.calls, now);
    var q := RollRateWindow(p, now).value;
    assert CallsSince(q.limits, past.calls, q.rateLimitWindowStart) == NaiveCalls(p.limits, past, now);
  }

  lemma EnforceRefines(p: Policy, rolled: Wallet, payment: Payment, now: I64, past: Past)
    requires RateAgrees(p, past.calls, now)
    requires p.rateLimitWindowStart == ReplayStart(p.limits, past.policySetAt, past.calls)
    requires NoTopBudget(p.limits)
    requires forall span :: rolled.Of(span).spend == Clamp64(NaiveSpend(past, now, span))
    ensures match Enforce(p, rolled, payment, now)
            case Ok(_) => NaiveEnforce(p.limits, payment, now, past).Ok?
            case Err(e) => NaiveEnforce(p.limits, payment, now, past) == Err(e)
  {
    RateCheckDecides(p, past, now);
    assert rolled.Of(Daily) == rolled.daily;
    assert rolled.Of(Weekly) == rolled.weekly && rolled.Of(Monthly) == rolled.monthly;
    BudgetCheckDecides(p.limits.dailyBudget, NaiveSpend(past, now, Daily), payment.amount);
    BudgetCheckDecides(p.limits.weeklyBudget, NaiveSpend(past, now, Weekly), payment.amount);
    BudgetCheckDecides(p.limits.monthlyBudget, NaiveSpend(past, now, Monthly), payment.amount);
  }

  predicate NoTopBudget(l: Limits) {
    l.dailyBudget != U64_MAX && l.weeklyBudget != U64_MAX && l.monthlyBudget != U64_MAX
  }

  /** The counters answer as the ledger does: same verdict, same first error. */
  lemma ApproveRefines(cap: U64, w: Wallet, p: Policy, sequence: U64, payment: Payment, now: I64, past: Past)
    requires Agrees(w, p, past, now) && |past.history| <= U64_MAX && NoTopBudget(p.limits)
    ensures var verdict := NaiveVerdict(cap, w.isActive, w.isFrozen, p.limits, sequence, payment, now, past);
            match Approve(cap, w, p, sequence, payment, now)
            case Ok(_) => verdict.Ok?
            case Err(e) => verdict == Err(e)
  {
    RollsAgree(w, past.history, past.registeredAt, now);
    var rolled := RollWindows(w, now).value;
    forall span ensures rolled.Of(span).spend == Clamp64(NaiveSpend(past, now, span)) {
      assert ShowsCell(rolled.Of(span), span, past.history, past.registeredAt, now);
    }
    EnforceRefines(p, rolled, payment, now, past);
  }

  // ----- Budgets at the top of the range -----

  /** A budget that may be the top value, as one that never refuses if it is. */
  function UnlessTop(budget: U64): U64 {
    if budget == U64_MAX then 0 else budget
  }

  /** The settings with each budget at the top of the range taken for no budget. */
  function Lenient(l: Limits): Limits {
    l.(dailyBudget := UnlessTop(l.dailyBudget), weeklyBudget := UnlessTop(l.weeklyBudget),
       monthlyBudget := UnlessTop(l.monthlyBudget))
  }

  /** Budgets have no part in the limiter. */
  lemma {:induction false} LenientReplays(l: Limits, setAt: int, calls: seq<Record>)
    ensures ReplayStart(Lenient(l), setAt, calls) == ReplayStart(l, setAt, calls)
  {
    if calls != [] {
      LenientReplays(l, setAt, calls[..|calls| - 1]);
    }
  }

  lemma LenientAgrees(w: Wallet, p: Policy, past: Past, now: int)
    requires Agrees(w, p, past, now)
    ensures Agrees(w, p.(limits := Lenient(p.limits)), past, now)
  {
    LenientReplays(p.limits, past.policySetAt, past.calls);
    assert forall lo, hi :: CallsIn(Lenient(p.limits), past.calls, lo, hi) == CallsIn(p.limits, past.calls, lo, hi);
    assert forall lo, hi ::
        PeriodWithin(Lenient(p.limits), past.calls, lo, hi) == PeriodWithin(p.limits, past.calls, lo, hi);
  }

  /** A top budget refuses nothing, and so may as well be absent. */
  lemma LenientApproves(cap: U64, w: Wallet, p: Policy, sequence: U64, payment: Payment, now: I64)
    ensures match Approve(cap, w, p, sequence, payment, now)
            case Ok(_) => Approve(cap, w, p.(limits := Lenient(p.limits)), sequence, payment, now).Ok?
            case Err(e) => Approve(cap, w, p.(limits := Lenient(p.limits)), sequence, payment, now) == Err(e)
  {
    var q := p.(limits := Lenient(p.limits));
    assert forall w: Wallet ::
        match Enforce(p, w, payment, now)
        case Ok(_) => Enforce(q, w, payment, now).Ok?
        case Err(e) => Enforce(q, w, payment, now) == Err(e);
  }

  // ----- A whole settlement -----

  /** The settings of the agent's policy, if it has one. */
  function LimitsIn(s: State, agent: AgentId): Limits {
    if agent in s.policies then s.policies[agent].limits else Limits(0, 0, 0, 0, 0, 0, 0, [], [])
  }

  /** A settlement by the ledger and these settings alone: what is recorded and what the token balances become. */
  function NaiveSettle(s: State, signer: Address, i: Instruction, past: Past, l: Limits)
    : Result<(Record, Tokens), Error>
    requires i.SettlePayment?
  {
    var agent, payment := i.payment.agentId, i.payment;
    var ata := AgentAta(agent, i.mint);
    var present := agent in s.policies && s.config.Some? && ata in s.tokens && i.payee in s.tokens;
    match OwnedWallet(s, signer, agent, present, RecordKey(agent, i.sequence) !in s.records)
    case Err(e) => Err(e)
    case Ok(w) =>
      var cap := s.config.value.maxSinglePaymentUsdc;
      match NaiveVerdict(cap, w.isActive, w.isFrozen, l, i.sequence, payment, s.now, past)
      case Err(e) => Err(e)
      case Ok(_) =>
        match Transfer(s.tokens, ata, i.payee, payment.amount)
        case Err(e) => Err(e)
        case Ok(tokens) =>
          Ok((Record(WalletPda(agent), i.sequence, payment.endpointHash, s.tokens[i.payee].owner, payment.amount,
                     if payment.protocol == 0 then X402 else Mpp, s.now, true, payment.parentPayment), tokens))
  }

  /** Agreement of a settlement with the naive one, in verdict and in everything a reader of the ledger sees. */
  ghost predicate SameOutcome(s: State, key: RecordKey, fast: Result<State, Error>,
                              naive: Result<(Record, Tokens), Error>)
  {
    match naive
    case Err(e) => fast == Err(e)
    case Ok((r, tokens)) => fast.Ok? && fast.value.records == s.records[key := r] && fast.value.tokens == tokens
  }

  lemma SettleFollowsApprove(s: State, signer: Address, i: Instruction, past: Past, l: Limits)
    requires i.SettlePayment?
    requires i.payment.agentId in s.policies ==>
               s.policies[i.payment.agentId].agentWallet == WalletPda(i.payment.agentId)
    requires i.payment.agentId in s.wallets && i.payment.agentId in s.policies && s.config.Some?
             && RecordKey(i.payment.agentId, i.sequence) !in s.records ==>
               var w, p := s.wallets[i.payment.agentId], s.policies[i.payment.agentId];
               var cap := s.config.value.maxSinglePaymentUsdc;
               var verdict := NaiveVerdict(cap, w.isActive, w.isFrozen, l, i.sequence, i.payment, s.now, past);
               match Approve(cap, w, p, i.sequence, i.payment, s.now)
               case Ok(_) => verdict.Ok?
               case Err(e) => verdict == Err(e)
    ensures SameOutcome(s, RecordKey(i.payment.agentId, i.sequence), Execute(s, signer, i),
                        NaiveSettle(s, signer, i, past, l))
  {
    assert Execute(s, signer, i) == Settle(s, signer, i.sequence, i.payment, i.mint, i.payee);
  }

  /** What a run leaves the naive checker to work from, given a ledger. */
  ghost function PastOf(run: Run, ledger: Records, agent: AgentId): Past
    requires GapFree(ledger, agent)
  {
    var h, since := History(ledger, agent), PolicySince(run, agent);
    Past(h, RegisteredAt(run, agent), if since <= |h| then h[since..] else [], PolicySetAt(run, agent))
  }

  /**
    In every reachable state of a wallet that is not stuck, whatever its budgets,
    settlement accepts exactly the payments the naive checker accepts when a budget
    at the top of the range never refuses, refuses the others with the same error,
    and writes the same record and the same balances.
  */
  lemma {:induction false} SettleRefinesLenient(run: Run, signer: Address, i: Instruction)
    requires Valid(run) && i.SettlePayment? && !Stuck(End(run), i.payment.agentId)
    ensures GapFree(End(run).records, i.payment.agentId)
    ensures SameOutcome(End(run), RecordKey(i.payment.agentId, i.sequence), Execute(End(run), signer, i),
                        NaiveSettle(End(run), signer, i, PastOf(run, End(run).records, i.payment.agentId),
                                    Lenient(LimitsIn(End(run), i.payment.agentId))))
  {
    var s, agent := End(run), i.payment.agentId;
    RunSound(run, agent);
    RunReplays(run, agent);
    var past := PastOf(run, s.records, agent);
    if agent in s.wallets && agent in s.policies && s.config.Some? && RecordKey(agent, i.sequence) !in s.records {
      var w, p, cap := s.wallets[agent], s.policies[agent], s.config.value.maxSinglePaymentUsdc;
      FreeKeyMeansRoom(s, agent, i.sequence);
      LenientAgrees(w, p, past, s.now);
      LenientApproves(cap, w, p, i.sequence, i.payment, s.now);
      ApproveRefines(cap, w, p.(limits := Lenient(p.limits)), i.sequence, i.payment, s.now, past);
    }
    SettleFollowsApprove(s, signer, i, past, Lenient(LimitsIn(s, agent)));
  }

  /** With no budget at the top of the range, that is the plain naive checker. */
  lemma {:induction false} SettleRefinesNaive(run: Run, signer: Address, i: Instruction)
    requires Valid(run) && i.SettlePayment? && !Stuck(End(run), i.payment.agentId)
    requires i.payment.agentId in End(run).policies ==> NoTopBudget(End(run).policies[i.payment.agentId].limits)
    ensures GapFree(End(run).records, i.payment.agentId)
    ensures SameOutcome(End(run), RecordKey(i.payment.agentId, i.sequence), Execute(End(run), signer, i),
                        NaiveSettle(End(run), signer, i, PastOf(run, End(run).records, i.payment.agentId),
                                    LimitsIn(End(run), i.payment.agentId)))
  {
    SettleRefinesLenient(run, signer, i);
    assert Lenient(LimitsIn(End(run), i.payment.agentId)) == LimitsIn(End(run), i.payment.agentId);
  }

  lemma FreeKeyMeansRoom(s: State, agent: AgentId, sequence: U64)
    requires GapFree(s.records, agent) && RecordKey(agent, sequence) !in s.records
    ensures Count(s.records, agent) <= U64_MAX
  {
  }
}
