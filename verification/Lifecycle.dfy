/** The life of records and wallets over whole runs: what is never lost, never repeated and always possible. */
module Lifecycle {
  import opened Numbers
  import opened Results
  import opened Accounts
  import opened Machine
  import opened Runs
  import opened Reachable
  import opened Conservation

  // ----- The ledger only grows -----

  /** Nothing recorded is removed or changed. */
  ghost predicate Keeps(before: Records, after: Records) {
    forall k :: k in before ==> k in after && after[k] == before[k]
  }

  lemma CallKeepsRecords(s: State, signer: Address, i: Instruction)
    requires Execute(s, signer, i).Ok?
    ensures Keeps(s.records, Execute(s, signer, i).value.records)
    ensures !i.SettlePayment? && !i.RecordPolicyViolation? ==> Execute(s, signer, i).value.records == s.records
  {
    match i
    case SettlePayment(sequence, payment, mint, payee) => SettleCommits(s, signer, sequence, payment, mint, payee);
    case _ =>
  }

  /** Once written, a record stays as it is, whatever happens to its wallet afterwards. */
  lemma {:induction false} LedgerIsAppendOnly(run: Run, base: Run)
    requires Extends(run, base)
    ensures Keeps(End(base).records, End(run).records)
  {
    if run != base {
      LedgerIsAppendOnly(run.prev, base);
      if Applies(End(run.prev), run.step) && run.step.Call? {
        CallKeepsRecords(End(run.prev), run.step.signer, run.step.instruction);
      }
    }
  }

  /**
    A live wallet's record keys are exactly those below its sequence number, and the
    last one too once that saturates.
  */
  lemma {:induction false} RecordKeysAreExact(run: Run, agent: AgentId, i: nat)
    requires Valid(run) && Live(End(run), agent)
    ensures var last, full := End(run).wallets[agent].paymentSequence, RecordKey(agent, U64_MAX) in End(run).records;
            && (RecordKey(agent, i) in End(run).records <==> i < last || (full && i == U64_MAX))
            && (full ==> last == U64_MAX && Sealed(End(run), agent))
  {
    RunSound(run, agent);
    assert RecordKey(agent, U64_MAX) in End(run).records <==> U64_MAX < Count(End(run).records, agent);
  }

  // ----- Sealed agents -----

  /** There are records, and the key a wallet would write next, if there is one, is taken. */
  ghost predicate Sealed(s: State, agent: AgentId) {
    && RecordKey(agent, 0) in s.records
    && (agent in s.wallets ==> RecordKey(agent, s.wallets[agent].paymentSequence) in s.records)
  }

  /** Both record-creating instructions refuse a sealed agent. */
  lemma SealedRefuses(s: State, signer: Address, i: Instruction)
    requires i.SettlePayment? || i.RecordPolicyViolation?
    requires Sealed(s, i.payment.agentId)
    ensures Execute(s, signer, i).Err?
  {
    if i.SettlePayment? && Execute(s, signer, i).Ok? {
      SettleCommits(s, signer, i.sequence, i.payment, i.mint, i.payee);
    }
  }

  lemma {:induction false} SealedStep(s: State, step: Step, agent: AgentId)
    requires 0 <= s.now <= MAX_CLOCK && Sealed(s, agent)
    ensures Sealed(Next(s, step), agent)
    ensures forall i: nat :: RecordKey(agent, i) in Next(s, step).records <==> RecordKey(agent, i) in s.records
    ensures agent in s.wallets && agent in Next(s, step).wallets ==>
              Next(s, step).wallets[agent].paymentSequence == s.wallets[agent].paymentSequence
    ensures agent !in s.wallets && agent in Next(s, step).wallets ==> Stuck(Next(s, step), agent)
  {
    if Writes(step) != Some(agent) || !Applies(s, step) {
      OtherStepsAlike(s, step, agent);
    } else if step.instruction.SettlePayment? || step.instruction.RecordPolicyViolation? {
      SealedRefuses(s, step.signer, step.instruction);
    }
  }

  /** A sealed agent never gets another record: a saturated wallet is full for good, closed and re-registered or not. */
  lemma {:induction false} SealedForever(run: Run, base: Run, agent: AgentId)
    requires Valid(run) && Extends(run, base) && Sealed(End(base), agent)
    ensures Sealed(End(run), agent)
    ensures forall i: nat :: RecordKey(agent, i) in End(run).records <==> RecordKey(agent, i) in End(base).records
  {
    if run != base {
      SealedForever(run.prev, base, agent);
      ClockInRange(run.prev);
      SealedStep(End(run.prev), run.step, agent);
    }
  }

  /**
    When a wallet's sequence has saturated, no payment and no violation is ever
    recorded for the agent again.
  */
  lemma {:induction false} SaturationIsFinal(run: Run, base: Run, signer: Address, i: Instruction)
    requires i.SettlePayment? || i.RecordPolicyViolation?
    requires Valid(run) && Extends(run, base) && Valid(base)
    requires Live(End(base), i.payment.agentId) && RecordKey(i.payment.agentId, U64_MAX) in End(base).records
    ensures Execute(End(run), signer, i).Err?
  {
    RecordKeysAreExact(base, i.payment.agentId, 0);
    SealedForever(run, base, i.payment.agentId);
    SealedRefuses(End(run), signer, i);
  }

  /** A wallet registered over older records keeps its sequence, and its books, at zero for ever. */
  lemma {:induction false} ReRegisteredStaysAtZero(run: Run, base: Run, agent: AgentId)
    requires Valid(run) && Extends(run, base)
    requires agent !in End(base).wallets && RecordKey(agent, 0) in End(base).records
    ensures Sealed(End(run), agent)
    ensures agent in End(run).wallets ==> Stuck(End(run), agent) && Untouched(End(run).wallets[agent])
  {
    RunSound(run, agent);
    if run != base {
      ReRegisteredStaysAtZero(run.prev, base, agent);
      ClockInRange(run.prev);
      SealedStep(End(run.prev), run.step, agent);
    }
  }

  // ----- One incarnation per agent -----

  /** Token accounts are never closed. */
  lemma {:induction false} AccountsPersist(s: State, step: Step, account: Address)
    requires account in s.tokens
    ensures account in Next(s, step).tokens
  {
    if step.Call? && Applies(s, step) {
      CallMovesPayout(s, step.signer, step.instruction);
    }
  }

  /** With one mint the leftover token account makes registration possible only once. */
  lemma {:induction false} OneIncarnation(run: Run, agent: AgentId, mint: Address)
    requires Valid(run) && OneMint(run, mint)
    ensures Incarnations(run, agent) <= 1
    ensures Incarnations(run, agent) == 1 ==> AgentAta(agent, mint) in End(run).tokens
    ensures Incarnations(run, agent) == 0 ==> agent !in End(run).wallets && Count(End(run).records, agent) == 0
    ensures agent in End(run).wallets ==> Live(End(run), agent)
  {
    match run
    case Boot(s) =>
      assert KeysOf(s.records, agent) == {};
    case After(prev, step) =>
      OneIncarnation(prev, agent, mint);
      RunSound(prev, agent);
      var s := End(prev);
      if AgentAta(agent, mint) in s.tokens {
        AccountsPersist(s, step, AgentAta(agent, mint));
      }
      if Writes(step) != Some(agent) || !Applies(s, step) {
        OtherStepsAlike(s, step, agent);
        HistoryFrame(s.records, Next(s, step).records, agent);
      } else {
        OwnStepStaysLive(s, step.signer, step.instruction, agent, RegisteredAt(prev, agent), PolicySince(prev, agent));
      }
  }

  /** What a step on the agent's own books can do to a wallet that is live or absent. */
  lemma OwnStepStaysLive(s: State, signer: Address, i: Instruction, agent: AgentId, anchor: int, since: nat)
    requires AgentSound(s, agent, anchor, since) && Execute(s, signer, i).Ok?
    requires Writes(Call(signer, i)) == Some(agent)
    requires agent in s.wallets ==> Live(s, agent)
    ensures var s' := Execute(s, signer, i).value;
            if i.RegisterAgent? then
              && agent !in s.wallets && (Count(s.records, agent) == 0 ==> Live(s', agent))
              && AgentAta(agent, i.mint) in s'.tokens
              && AgentAta(agent, i.mint) !in s.tokens
            else agent in s.wallets && (agent in s'.wallets ==> Live(s', agent))
  {
    match i
    case SettlePayment(sequence, payment, mint, payee) => SettleCommits(s, signer, sequence, payment, mint, payee);
    case _ =>
  }
}
