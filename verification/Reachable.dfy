/** The invariant of every reachable state, agent by agent. */
module Reachable {
  import opened Numbers
  import opened Results
  import opened Accounts
  import opened Windows
  import opened Machine
  import opened Runs
  import opened Books
  import opened RateLimit

  /**
    A wallet registered again over the records of an earlier incarnation: its
    sequence is back at zero while record zero already exists.
  */
  ghost predicate Stuck(s: State, agent: AgentId) {
    agent in s.wallets && s.wallets[agent].paymentSequence == 0 && RecordKey(agent, 0) in s.records
  }

  /** Present and not stuck. */
  ghost predicate Live(s: State, agent: AgentId) {
    agent in s.wallets && !Stuck(s, agent)
  }

  /** A stuck wallet never booked anything. */
  ghost predicate Untouched(w: Wallet) {
    && w.totalPayments == 0 && w.totalVolume == 0 && w.lastPaymentAt == 0
    && w.daily.spend == 0 && w.weekly.spend == 0 && w.monthly.spend == 0
  }

  ghost predicate WalletSound(s: State, agent: AgentId, anchor: int)
    requires GapFree(s.records, agent) && agent in s.wallets
  {
    var w := s.wallets[agent];
    && w.agentId == agent
    && if Stuck(s, agent) then Untouched(w) else BooksAgree(w, History(s.records, agent), anchor, s.now)
  }

  ghost predicate PolicySound(s: State, agent: AgentId, since: nat)
    requires GapFree(s.records, agent) && agent in s.policies
  {
    var p := s.policies[agent];
    && p.agentWallet == WalletPda(agent)
    && agent in s.wallets
    && (!Stuck(s, agent) ==>
          since <= Count(s.records, agent) && RateAgrees(p, History(s.records, agent)[since..], s.now))
  }

  ghost predicate AgentSound(s: State, agent: AgentId, anchor: int, since: nat) {
    && 0 <= s.now <= MAX_CLOCK
    && GapFree(s.records, agent)
    && Count(s.records, agent) <= U64_MAX + 1
    && (agent in s.wallets ==> WalletSound(s, agent, anchor))
    && (agent in s.policies ==> PolicySound(s, agent, since))
  }

  /** Steps that leave an agent's wallet books, policy and records as they are. */
  ghost predicate Alike(s: State, s': State, agent: AgentId) {
    && s.now <= s'.now <= MAX_CLOCK
    && (agent in s.wallets <==> agent in s'.wallets)
    && (agent in s.wallets ==>
          var w, w' := s.wallets[agent], s'.wallets[agent];
          w' == w.(owner := w'.owner, isActive := w'.isActive, isFrozen := w'.isFrozen))
    && (agent in s.policies <==> agent in s'.policies)
    && (agent in s.policies ==> s.policies[agent] == s'.policies[agent])
    && (forall k: RecordKey :: k.agent == agent ==>
          (k in s.records <==> k in s'.records) && (k in s.records ==> s.records[k] == s'.records[k]))
  }

  lemma AlikeKeeps(s: State, s': State, agent: AgentId, anchor: int, since: nat)
    requires AgentSound(s, agent, anchor, since) && Alike(s, s', agent)
    ensures AgentSound(s', agent, anchor, since)
  {
    HistoryFrame(s.records, s'.records, agent);
    if agent in s.wallets && !Stuck(s, agent) {
      var w, w', h := s.wallets[agent], s'.wallets[agent], History(s.records, agent);
      assert forall span :: w'.Of(span) == w.Of(span);
      assert forall span :: WindowAgrees(w.Of(span), span, h, anchor);
      if agent in s.policies {
        TimeAgrees(s.policies[agent], h[since..], s.now, s'.now);
      }
    }
  }

  /** What a successful settlement commits. */
  lemma SettleCommits(s: State, signer: Address, sequence: U64, payment: Payment, mint: Address, payee: Address)
    requires Settle(s, signer, sequence, payment, mint, payee).Ok?
    ensures var agent := payment.agentId;
            var s' := Settle(s, signer, sequence, payment, mint, payee).value;
            var key := RecordKey(agent, sequence);
            && agent in s.wallets && agent in s.policies && key !in s.records && key in s'.records
            && sequence == s.wallets[agent].paymentSequence
            && s'.now == s.now
            && s'.records == s.records[key := s'.records[key]]
            && var r := s'.records[key];
               var rolled := RollWindows(s.wallets[agent], s.now);
               && r.settledAt == s.now && r.agentWallet == WalletPda(agent) && r.sequence == sequence
               && r.policyPassed && r.amount == payment.amount > 0
               && rolled.Ok?
               && s'.wallets == s.wallets[agent := Book(rolled.value, r.amount, s.now)]
               && Enforce(s.policies[agent], rolled.value, payment, s.now).Ok?
               && s'.policies == s.policies[agent := Enforce(s.policies[agent], rolled.value, payment, s.now).value]
  {
  }

  /** What passing the policy checks does to the policy. */
  lemma EnforceCounts(p: Policy, w: Wallet, payment: Payment, now: I64)
    requires Enforce(p, w, payment, now).Ok?
    ensures var q := Enforce(p, w, payment, now).value;
            if p.limits.Enforces(payment.amount) then
              var rolled := RollRateWindow(p, now);
              && rolled.Ok? && WithinRateLimit(rolled.value)
              && q == rolled.value.(rateLimitCallCount := SaturatingAdd32(rolled.value.rateLimitCallCount, 1))
            else q == p
    ensures Enforce(p, w, payment, now).value.agentWallet == p.agentWallet
  {
  }

  /** The limiter after one more settlement, enforced or not. */
  lemma RollAndCallAgrees(p: Policy, calls: seq<Record>, now: I64, r: Record)
    requires RateAgrees(p, calls, now) && r.settledAt == now && r.policyPassed
    requires p.limits.Enforces(r.amount)
    requires RollRateWindow(p, now).Ok? && WithinRateLimit(RollRateWindow(p, now).value)
    ensures var rolled := RollRateWindow(p, now).value;
            RateAgrees(rolled.(rateLimitCallCount := SaturatingAdd32(rolled.rateLimitCallCount, 1)), calls + [r], now)
  {
    RollRateAgrees(p, calls, now);
    CallAgrees(RollRateWindow(p, now).value, calls, now, r);
  }

  /** The limiter after the policy checks have passed a payment. */
  lemma EnforceAgrees(p: Policy, w: Wallet, payment: Payment, calls: seq<Record>, now: I64, r: Record)
    requires RateAgrees(p, calls, now)
    requires Enforce(p, w, payment, now).Ok?
    requires r.settledAt == now && r.policyPassed && r.amount == payment.amount
    ensures RateAgrees(Enforce(p, w, payment, now).value, calls + [r], now)
    ensures Enforce(p, w, payment, now).value.agentWallet == p.agentWallet
  {
    EnforceCounts(p, w, payment, now);
    if p.limits.Enforces(r.amount) {
      RollAndCallAgrees(p, calls, now, r);
    } else {
      UncountedAgrees(p, calls, now, r);
    }
  }

  /** A wallet whose next record key is free is not stuck, and that key is the number of its records. */
  lemma NextKeyIsCount(s: State, agent: AgentId, anchor: int, since: nat)
    requires AgentSound(s, agent, anchor, since) && agent in s.wallets
    requires RecordKey(agent, s.wallets[agent].paymentSequence) !in s.records
    ensures !Stuck(s, agent)
    ensures s.wallets[agent].paymentSequence == Count(s.records, agent) <= U64_MAX
  {
    assert RecordKey(agent, U64_MAX) in s.records <==> U64_MAX < Count(s.records, agent);
  }

  lemma SettleKeeps(s: State, signer: Address, sequence: U64, payment: Payment, mint: Address, payee: Address,
                    anchor: int, since: nat)
    requires AgentSound(s, payment.agentId, anchor, since)
    requires Settle(s, signer, sequence, payment, mint, payee).Ok?
    ensures AgentSound(Settle(s, signer, sequence, payment, mint, payee).value, payment.agentId, anchor, since)
  {
    SettleCommits(s, signer, sequence, payment, mint, payee);
    NextKeyIsCount(s, payment.agentId, anchor, since);
    var s' := Settle(s, signer, sequence, payment, mint, payee).value;
    BookedKeeps(s, s', payment, s'.records[RecordKey(payment.agentId, sequence)], anchor, since);
  }

  /** A state change that appends one record and leaves wallet and policy agreeing with the longer history. */
  lemma AppendKeeps(s: State, s': State, agent: AgentId, r: Record, anchor: int, since: nat)
    requires AgentSound(s, agent, anchor, since) && agent in s.wallets && !Stuck(s, agent)
    requires Count(s.records, agent) <= U64_MAX && s'.now == s.now
    requires s'.records == s.records[RecordKey(agent, Count(s.records, agent)) := r]
    requires agent in s'.wallets && s'.wallets[agent].agentId == agent
    requires BooksAgree(s'.wallets[agent], History(s.records, agent) + [r], anchor, s'.now)
    requires agent in s'.policies ==> agent in s.policies && s'.policies[agent].agentWallet == WalletPda(agent)
    requires agent in s'.policies ==> RateAgrees(s'.policies[agent], History(s.records, agent)[since..] + [r], s'.now)
    ensures AgentSound(s', agent, anchor, since)
  {
    var h := History(s.records, agent);
    HistoryGrows(s.records, agent, r);
    if agent in s'.policies {
      assert (h + [r])[since..] == h[since..] + [r];
    }
  }

  /** The commit of a settlement, as a change of state, keeps the agent sound. */
  lemma BookedKeeps(s: State, s': State, payment: Payment, r: Record, anchor: int, since: nat)
    requires AgentSound(s, payment.agentId, anchor, since)
    requires payment.agentId in s.wallets && payment.agentId in s.policies && !Stuck(s, payment.agentId)
    requires Count(s.records, payment.agentId) <= U64_MAX
    requires s'.now == s.now
    requires s'.records == s.records[RecordKey(payment.agentId, Count(s.records, payment.agentId)) := r]
    requires r.settledAt == s.now && r.agentWallet == WalletPda(payment.agentId)
             && r.sequence == Count(s.records, payment.agentId) && r.policyPassed && r.amount == payment.amount > 0
    requires var rolled := RollWindows(s.wallets[payment.agentId], s.now);
             && rolled.Ok?
             && s'.wallets == s.wallets[payment.agentId := Book(rolled.value, r.amount, s.now)]
             && var counted := Enforce(s.policies[payment.agentId], rolled.value, payment, s.now);
                counted.Ok? && s'.policies == s.policies[payment.agentId := counted.value]
    ensures AgentSound(s', payment.agentId, anchor, since)
  {
    var agent := payment.agentId;
    var w, p, h := s.wallets[agent], s.policies[agent], History(s.records, agent);
    SettlementAgrees(w, h, anchor, s.now, r);
    EnforceAgrees(p, RollWindows(w, s.now).value, payment, h[since..], s.now, r);
    RollKeepsRest(w, s.now);
    AppendKeeps(s, s', agent, r, anchor, since);
  }

  lemma RollKeepsRest(w: Wallet, now: I64)
    requires RollWindows(w, now).Ok?
    ensures RollWindows(w, now).value.agentId == w.agentId
  {
  }

  lemma ViolationKeeps(s: State, signer: Address, sequence: U64, payment: Payment, anchor: int, since: nat)
    requires AgentSound(s, payment.agentId, anchor, since)
    requires RecordViolation(s, signer, sequence, payment).Ok?
    ensures AgentSound(RecordViolation(s, signer, sequence, payment).value, payment.agentId, anchor, since)
  {
    var agent := payment.agentId;
    var s' := RecordViolation(s, signer, sequence, payment).value;
    var r := s'.records[RecordKey(agent, sequence)];
    NextKeyIsCount(s, agent, anchor, since);
    var h := History(s.records, agent);
    ViolationAgrees(s.wallets[agent], h, anchor, s.now, r);
    if agent in s.policies {
      UncountedAgrees(s.policies[agent], h[since..], s.now, r);
    }
    AppendKeeps(s, s', agent, r, anchor, since);
  }

  lemma RegisterKeeps(s: State, signer: Address, agent: AgentId, mint: Address, anchor: int, since: nat)
    requires AgentSound(s, agent, anchor, since)
    requires Register(s, signer, agent, mint).Ok?
    ensures AgentSound(Register(s, signer, agent, mint).value, agent, s.now, since)
  {
    if Count(s.records, agent) == 0 {
      assert History(s.records, agent) == [];
      NewWalletAgrees(agent, signer, mint, s.now);
    }
  }

  lemma SetPolicyKeeps(s: State, signer: Address, agent: AgentId, limits: Limits, anchor: int, since: nat)
    requires AgentSound(s, agent, anchor, since)
    requires SetPolicy(s, signer, agent, limits).Ok?
    ensures AgentSound(SetPolicy(s, signer, agent, limits).value, agent, anchor, Count(s.records, agent))
  {
    var h := History(s.records, agent);
    assert h[|h|..] == [];
    SetPolicyAgrees(WalletPda(agent), limits, s.now);
  }

  function NextAnchor(s: State, step: Step, agent: AgentId, anchor: int): int {
    if Registers(s, step, agent) then s.now else anchor
  }

  ghost function NextSince(s: State, step: Step, agent: AgentId, since: nat): nat {
    if SetsPolicy(s, step, agent) then Count(s.records, agent) else since
  }

  /** Which agent's books does this step write, if any? */
  function Writes(step: Step): Option<AgentId> {
    if !step.Call? then None else
    match step.instruction
    case RegisterAgent(agent, _) => Some(agent)
    case SetSpendPolicy(agent, _) => Some(agent)
    case SettlePayment(_, payment, _, _) => Some(payment.agentId)
    case RecordPolicyViolation(_, payment) => Some(payment.agentId)
    case CloseAgent(agent, _) => Some(agent)
    case _ => None
  }

  lemma EnvironmentAlike(s: State, step: Step, agent: AgentId)
    requires 0 <= s.now <= MAX_CLOCK && !step.Call?
    ensures Alike(s, Next(s, step), agent)
  {
  }

  lemma ConfigurationAlike(s: State, signer: Address, i: Instruction, agent: AgentId)
    requires 0 <= s.now <= MAX_CLOCK && Execute(s, signer, i).Ok?
    requires i.InitProtocol? || i.RotateProtocolAdmin? || i.UpdateProtocolConfig?
    ensures Alike(s, Execute(s, signer, i).value, agent)
  {
  }

  lemma SwitchesAlike(s: State, signer: Address, i: Instruction, agent: AgentId)
    requires 0 <= s.now <= MAX_CLOCK && Execute(s, signer, i).Ok?
    requires i.SetActive? || i.SetFrozen? || i.TransferOwnership?
    ensures Alike(s, Execute(s, signer, i).value, agent)
  {
  }

  lemma WithdrawalsAlike(s: State, signer: Address, i: Instruction, agent: AgentId)
    requires 0 <= s.now <= MAX_CLOCK && Execute(s, signer, i).Ok?
    requires i.WithdrawFunds? || i.WithdrawAll?
    ensures Alike(s, Execute(s, signer, i).value, agent)
  {
  }

  lemma OtherPaymentsAlike(s: State, signer: Address, i: Instruction, agent: AgentId)
    requires 0 <= s.now <= MAX_CLOCK && Execute(s, signer, i).Ok?
    requires (i.SettlePayment? || i.RecordPolicyViolation?) && i.payment.agentId != agent
    ensures Alike(s, Execute(s, signer, i).value, agent)
  {
    if i.SettlePayment? {
      SettleCommits(s, signer, i.sequence, i.payment, i.mint, i.payee);
    }
  }

  lemma OtherWalletsAlike(s: State, signer: Address, i: Instruction, agent: AgentId)
    requires 0 <= s.now <= MAX_CLOCK && Execute(s, signer, i).Ok?
    requires (i.RegisterAgent? || i.SetSpendPolicy? || i.CloseAgent?) && i.agent != agent
    ensures Alike(s, Execute(s, signer, i).value, agent)
  {
  }

  /** A step that writes no books of this agent leaves them alike. */
  lemma {:induction false} OtherStepsAlike(s: State, step: Step, agent: AgentId)
    requires 0 <= s.now <= MAX_CLOCK
    requires Writes(step) != Some(agent) || !Applies(s, step)
    ensures Alike(s, Next(s, step), agent)
  {
    if Applies(s, step) {
      if !step.Call? {
        EnvironmentAlike(s, step, agent);
      } else {
        var signer, i := step.signer, step.instruction;
        match i {
          case InitProtocol(_) => ConfigurationAlike(s, signer, i, agent);
          case RotateProtocolAdmin(_) => ConfigurationAlike(s, signer, i, agent);
          case UpdateProtocolConfig(_) => ConfigurationAlike(s, signer, i, agent);
          case SetActive(_, _) => SwitchesAlike(s, signer, i, agent);
          case SetFrozen(_, _) => SwitchesAlike(s, signer, i, agent);
          case TransferOwnership(_, _) => SwitchesAlike(s, signer, i, agent);
          case WithdrawFunds(_, _, _) => WithdrawalsAlike(s, signer, i, agent);
          case WithdrawAll(_, _) => WithdrawalsAlike(s, signer, i, agent);
          case SettlePayment(_, _, _, _) => OtherPaymentsAlike(s, signer, i, agent);
          case RecordPolicyViolation(_, _) => OtherPaymentsAlike(s, signer, i, agent);
          case _ => OtherWalletsAlike(s, signer, i, agent);
        }
      }
    }
  }

  /** Every step keeps every agent sound. */
  lemma {:induction false} StepKeeps(s: State, step: Step, agent: AgentId, anchor: int, since: nat)
    requires AgentSound(s, agent, anchor, since)
    ensures AgentSound(Next(s, step), agent, NextAnchor(s, step, agent, anchor), NextSince(s, step, agent, since))
  {
    if Writes(step) != Some(agent) || !Applies(s, step) {
      OtherStepsAlike(s, step, agent);
      AlikeKeeps(s, Next(s, step), agent, anchor, since);
    } else {
      match step.instruction
      case RegisterAgent(_, mint) => RegisterKeeps(s, step.signer, agent, mint, anchor, since);
      case SetSpendPolicy(_, limits) => SetPolicyKeeps(s, step.signer, agent, limits, anchor, since);
      case SettlePayment(sequence, payment, mint, payee) =>
        SettleKeeps(s, step.signer, sequence, payment, mint, payee, anchor, since);
      case RecordPolicyViolation(sequence, payment) =>
        ViolationKeeps(s, step.signer, sequence, payment, anchor, since);
      case CloseAgent(_, _) =>
    }
  }

  /** In every reachable state every agent is sound. */
  lemma {:induction false} RunSound(run: Run, agent: AgentId)
    requires Valid(run)
    ensures AgentSound(End(run), agent, RegisteredAt(run, agent), PolicySince(run, agent))
  {
    match run
    case Boot(s) =>
      assert KeysOf(s.records, agent) == {};
    case After(prev, step) =>
      RunSound(prev, agent);
      StepKeeps(End(prev), step, agent, RegisteredAt(prev, agent), PolicySince(prev, agent));
  }

  lemma ClockInRange(run: Run)
    requires Valid(run)
    ensures 0 <= End(run).now <= MAX_CLOCK
  {
    RunSound(run, []);
  }
}
