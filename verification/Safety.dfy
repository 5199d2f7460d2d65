/** Suspension, the protocol cap, and who may do what, over whole runs. */
module Safety {
  import opened Numbers
  import opened Results
  import opened Accounts
  import opened TokenProgram
  import opened Machine
  import opened Runs
  import opened Reachable
  import opened Conservation
  import opened Lifecycle

  // ----- Suspension and cap -----

  ghost predicate Suspended(s: State, agent: AgentId) {
    agent in s.wallets && (!s.wallets[agent].isActive || s.wallets[agent].isFrozen)
  }

  /** The wallet was suspended, by either flag, at every stage from `base` to the end of the run. */
  ghost predicate SuspendedSince(run: Run, base: Run, agent: AgentId) {
    Suspended(End(run), agent) && (run == base || (run.After? && SuspendedSince(run.prev, base, agent)))
  }

  /** Nothing was booked between these two states of a wallet. */
  predicate SameBooks(w: Wallet, w': Wallet) {
    w'.daily == w.daily && w'.weekly == w.weekly && w'.monthly == w.monthly
    && w'.totalVolume == w.totalVolume && w'.lastPaymentAt == w.lastPaymentAt
  }

  /** No successful payment of the agent is new. */
  ghost predicate NoNewPayment(records: Records, records': Records, agent: AgentId) {
    forall k :: k in records' && k.agent == agent && records'[k].policyPassed ==>
      k in records && records[k] == records'[k]
  }

  /** A settlement needs an operational wallet and respects a cap in force. */
  lemma SettlementIsPermitted(s: State, signer: Address, i: Instruction)
    requires i.SettlePayment? && Execute(s, signer, i).Ok?
    ensures i.payment.agentId in s.wallets && !Suspended(s, i.payment.agentId)
    ensures s.config.Some?
    ensures s.config.value.maxSinglePaymentUsdc > 0 ==> i.payment.amount <= s.config.value.maxSinglePaymentUsdc
  {
  }

  /** While a wallet is suspended it settles nothing and its accumulators and volume stand still. */
  lemma {:induction false} SuspensionStopsPayments(run: Run, base: Run, agent: AgentId)
    requires Valid(run) && SuspendedSince(run, base, agent)
    ensures Suspended(End(base), agent)
    ensures SameBooks(End(base).wallets[agent], End(run).wallets[agent])
    ensures NoNewPayment(End(base).records, End(run).records, agent)
  {
    if run != base {
      var s := End(run.prev);
      SuspensionStopsPayments(run.prev, base, agent);
      ClockInRange(run.prev);
      SuspendedStep(s, run.step, agent);
    }
  }

  lemma {:induction false} SuspendedStep(s: State, step: Step, agent: AgentId)
    requires 0 <= s.now <= MAX_CLOCK && Suspended(s, agent)
    ensures agent in Next(s, step).wallets ==>
              SameBooks(s.wallets[agent], Next(s, step).wallets[agent])
    ensures NoNewPayment(s.records, Next(s, step).records, agent)
  {
    if Writes(step) != Some(agent) || !Applies(s, step) {
      OtherStepsAlike(s, step, agent);
    } else if step.instruction.SettlePayment? {
      SettlementIsPermitted(s, step.signer, step.instruction);
    } else {
      OwnStepWhileSuspended(s, step.signer, step.instruction, agent);
    }
  }

  lemma OwnStepWhileSuspended(s: State, signer: Address, i: Instruction, agent: AgentId)
    requires Suspended(s, agent) && Execute(s, signer, i).Ok?
    requires Writes(Call(signer, i)) == Some(agent) && !i.SettlePayment?
    ensures var s' := Execute(s, signer, i).value;
            && (agent in s'.wallets ==> SameBooks(s.wallets[agent], s'.wallets[agent]))
            && NoNewPayment(s.records, s'.records, agent)
  {
  }

  /** A cap between one and `cap` was in force at every stage after `base` and up to the end of the run. */
  ghost predicate CappedSince(run: Run, base: Run, cap: U64) {
    run == base ||
    (run.After? && CappedSince(run.prev, base, cap)
     && End(run.prev).config.Some? && 0 < End(run.prev).config.value.maxSinglePaymentUsdc <= cap)
  }

  /** Every successful payment made under the cap, by any agent, respects it. */
  lemma {:induction false} CapHolds(run: Run, base: Run, cap: U64, k: RecordKey)
    requires CappedSince(run, base, cap)
    requires k in End(run).records && k !in End(base).records && End(run).records[k].policyPassed
    ensures End(run).records[k].amount <= cap
  {
    var s := End(run.prev);
    if k in s.records {
      LedgerIsAppendOnly(run, run.prev);
      CapHolds(run.prev, base, cap, k);
    } else {
      CallKeepsRecords(s, run.step.signer, run.step.instruction);
      if run.step.instruction.SettlePayment? {
        var i := run.step.instruction;
        SettleCommits(s, run.step.signer, i.sequence, i.payment, i.mint, i.payee);
        SettlementIsPermitted(s, run.step.signer, i);
      }
    }
  }

  /** Violations can be recorded whatever the flags, the cap and the amount, as long as the wallet has a key left. */
  lemma {:induction false} ViolationStaysPossible(run: Run, payment: Payment)
    requires Valid(run) && Live(End(run), payment.agentId)
    requires RecordKey(payment.agentId, U64_MAX) !in End(run).records
    requires End(run).wallets[payment.agentId].owner.Key?
    requires FromDiscriminant(payment.protocol).Some?
    ensures var w := End(run).wallets[payment.agentId];
            RecordViolation(End(run), w.owner, w.paymentSequence, payment).Ok?
  {
    RecordKeysAreExact(run, payment.agentId, End(run).wallets[payment.agentId].paymentSequence);
  }

  // ----- Authority -----

  /** Everything about an agent that its owner decides. */
  ghost predicate OwnersPartChanges(s: State, s': State, agent: AgentId) {
    || (agent in s.wallets && agent !in s'.wallets)
    || (agent in s.wallets && agent in s'.wallets
        && s'.wallets[agent] != s.wallets[agent].(isFrozen := s'.wallets[agent].isFrozen))
    || (agent in s.policies && agent !in s'.policies)
    || (agent in s'.policies && (agent !in s.policies || s'.policies[agent] != s.policies[agent]))
    || (exists i: nat :: RecordKey(agent, i) in s'.records && RecordKey(agent, i) !in s.records)
    || (exists mint :: Balance(s'.tokens, AgentAta(agent, mint)) < Balance(s.tokens, AgentAta(agent, mint)))
  }

  ghost predicate FlagChanges(s: State, s': State, agent: AgentId) {
    agent in s.wallets && agent in s'.wallets && s'.wallets[agent].isFrozen != s.wallets[agent].isFrozen
  }

  /** Which agent's owner must sign this instruction? */
  function Controls(i: Instruction): Option<AgentId> {
    match i
    case SetSpendPolicy(agent, _) => Some(agent)
    case SettlePayment(_, payment, _, _) => Some(payment.agentId)
    case RecordPolicyViolation(_, payment) => Some(payment.agentId)
    case SetActive(agent, _) => Some(agent)
    case WithdrawFunds(agent, _, _) => Some(agent)
    case WithdrawAll(agent, _) => Some(agent)
    case TransferOwnership(agent, _) => Some(agent)
    case CloseAgent(agent, _) => Some(agent)
    case _ => None
  }

  /** Such an instruction goes through only with that owner's signature. */
  lemma ControlsNeedOwner(s: State, signer: Address, i: Instruction)
    requires Controls(i).Some? && Execute(s, signer, i).Ok?
    ensures var agent := Controls(i).value;
            agent in s.wallets && s.wallets[agent].owner == signer && signer.Key?
  {
  }

  /** Nobody debits an agent's account but an instruction of its own. */
  lemma {:induction false} DebitsAreControlled(s: State, step: Step, agent: AgentId, mint: Address)
    requires TokensSound(s)
    requires Balance(Next(s, step).tokens, AgentAta(agent, mint)) < Balance(s.tokens, AgentAta(agent, mint))
    ensures step.Call? && Applies(s, step) && Controls(step.instruction) == Some(agent)
  {
    if step.Call? {
      CallMovesPayout(s, step.signer, step.instruction);
    }
  }

  /** Other instructions leave the owner's part of an agent alone. */
  lemma UncontrolledLeavesAlone(s: State, signer: Address, i: Instruction, agent: AgentId)
    requires Execute(s, signer, i).Ok? && Controls(i) != Some(agent)
    ensures var s' := Execute(s, signer, i).value;
            && (agent in s.wallets ==> agent in s'.wallets)
            && (agent in s.wallets ==>
                  s'.wallets[agent] == s.wallets[agent].(isFrozen := s'.wallets[agent].isFrozen))
            && (agent in s.policies <==> agent in s'.policies)
            && (agent in s.policies ==> s'.policies[agent] == s.policies[agent])
            && (forall k: RecordKey :: k.agent == agent ==> (k in s'.records <==> k in s.records))
  {
    match i
    case SettlePayment(sequence, payment, mint, payee) => SettleCommits(s, signer, sequence, payment, mint, payee);
    case _ =>
  }

  /**
    In a reachable state nothing of an agent that its owner decides, and none of
    its tokens, changes without the owner's signature; the freeze flag needs the
    protocol admin's.
  */
  lemma {:induction false} OnlyTheOwner(run: Run, step: Step, agent: AgentId)
    requires Valid(run)
    ensures OwnersPartChanges(End(run), Next(End(run), step), agent) ==>
              step.Call? && agent in End(run).wallets && End(run).wallets[agent].owner == step.signer
    ensures FlagChanges(End(run), Next(End(run), step), agent) ==>
              step.Call? && End(run).config.Some? && End(run).config.value.admin == step.signer
  {
    var s, s' := End(run), Next(End(run), step);
    RunTokensSound(run);
    if Applies(s, step) {
      if step.Call? && Controls(step.instruction) == Some(agent) {
        ControlsNeedOwner(s, step.signer, step.instruction);
        ControlsKeepFlag(s, step.signer, step.instruction, agent);
      } else {
        forall mint ensures Balance(s'.tokens, AgentAta(agent, mint)) >= Balance(s.tokens, AgentAta(agent, mint)) {
          if Balance(s'.tokens, AgentAta(agent, mint)) < Balance(s.tokens, AgentAta(agent, mint)) {
            DebitsAreControlled(s, step, agent, mint);
          }
        }
        if step.Call? {
          UncontrolledLeavesAlone(s, step.signer, step.instruction, agent);
          if FlagChanges(s, s', agent) {
            FlagNeedsAdmin(s, step.signer, step.instruction, agent);
          }
        }
      }
    }
  }

  lemma ControlsKeepFlag(s: State, signer: Address, i: Instruction, agent: AgentId)
    requires Execute(s, signer, i).Ok? && Controls(i) == Some(agent)
    ensures !FlagChanges(s, Execute(s, signer, i).value, agent)
  {
  }

  lemma FlagNeedsAdmin(s: State, signer: Address, i: Instruction, agent: AgentId)
    requires Execute(s, signer, i).Ok? && FlagChanges(s, Execute(s, signer, i).value, agent)
    ensures s.config.Some? && s.config.value.admin == signer
  {
  }
}
