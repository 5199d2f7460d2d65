/** The ledger against the token accounts: what was settled is what left them, mint by mint. */
module Outflow {
  import opened Numbers
  import opened Results
  import opened Accounts
  import opened Ledger
  import opened Machine
  import opened Runs
  import opened Reachable
  import opened Conservation
  import opened Exit

  /** A settlement adds its amount to the ledger. */
  lemma SettlementTotal(s: State, signer: Address, i: Instruction, anchor: int, since: nat)
    requires i.SettlePayment? && Execute(s, signer, i).Ok?
    requires AgentSound(s, i.payment.agentId, anchor, since)
    ensures var agent, s' := i.payment.agentId, Execute(s, signer, i).value;
            && GapFree(s'.records, agent) && i.payment.amount > 0
            && GrandTotal(History(s'.records, agent), Spend)
               == GrandTotal(History(s.records, agent), Spend) + i.payment.amount
  {
    var agent, s' := i.payment.agentId, Execute(s, signer, i).value;
    SettleCommits(s, signer, i.sequence, i.payment, i.mint, i.payee);
    NextKeyIsCount(s, agent, anchor, since);
    var r := s'.records[RecordKey(agent, i.sequence)];
    HistoryGrows(s.records, agent, r);
    TallyAppend(History(s.records, agent), r, Spend, I64_MIN, I64_MAX + 1);
  }

  predicate SettlesFor(step: Step, agent: AgentId) {
    step.Call? && step.instruction.SettlePayment? && step.instruction.payment.agentId == agent
  }

  /** A step that settles nothing for this agent is no payment outflow of its account. */
  lemma OtherStepFlows(s: State, step: Step, agent: AgentId, mint: Address)
    requires !SettlesFor(step, agent)
    ensures var f := FlowsOfStep(s, step, AgentAta(agent, mint));
            f.settled == f.selfPaid == 0
  {
  }

  lemma ViolationTotal(s: State, signer: Address, i: Instruction, anchor: int, since: nat)
    requires i.RecordPolicyViolation? && Execute(s, signer, i).Ok?
    requires AgentSound(s, i.payment.agentId, anchor, since)
    ensures var agent, s' := i.payment.agentId, Execute(s, signer, i).value;
            && GapFree(s'.records, agent)
            && GrandTotal(History(s'.records, agent), Spend) == GrandTotal(History(s.records, agent), Spend)
  {
    var agent := i.payment.agentId;
    NextKeyIsCount(s, agent, anchor, since);
    var r := Execute(s, signer, i).value.records[RecordKey(agent, i.sequence)];
    HistoryGrows(s.records, agent, r);
    TallyAppend(History(s.records, agent), r, Spend, I64_MIN, I64_MAX + 1);
  }

  /** Nor does it add to this agent's ledger total. */
  lemma {:induction false} OtherStepTotal(s: State, step: Step, agent: AgentId, anchor: int, since: nat)
    requires AgentSound(s, agent, anchor, since) && Applies(s, step) && !SettlesFor(step, agent)
    ensures GapFree(Next(s, step).records, agent)
    ensures GrandTotal(History(Next(s, step).records, agent), Spend) == GrandTotal(History(s.records, agent), Spend)
  {
    if Writes(step) != Some(agent) {
      OtherStepsAlike(s, step, agent);
      HistoryFrame(s.records, Next(s, step).records, agent);
    } else if step.instruction.RecordPolicyViolation? {
      ViolationTotal(s, step.signer, step.instruction, anchor, since);
    }
  }

  /** What the agent's account of one mint has settled, payments to itself included. */
  function PaidOut(run: Run, agent: AgentId, mint: Address): nat {
    var f := FlowsOf(run, AgentAta(agent, mint));
    f.settled + f.selfPaid
  }

  /** A settlement of this agent that goes through, and in which mint. */
  predicate SettlesIn(s: State, step: Step, agent: AgentId, mint: Address) {
    SettlesFor(step, agent) && Applies(s, step) && step.instruction.mint == mint
  }

  /** A step adds a settlement's amount to the outflow of its mint, and to no other. */
  lemma {:induction false} PaidOutStep(run: Run, step: Step, agent: AgentId, mint: Address)
    ensures PaidOut(After(run, step), agent, mint)
         == PaidOut(run, agent, mint)
            + if SettlesIn(End(run), step, agent, mint) then step.instruction.payment.amount else 0
  {
    if SettlesFor(step, agent) {
      SettlementFlows(End(run), step.signer, step.instruction, mint);
    } else {
      OtherStepFlows(End(run), step, agent, mint);
    }
    PaidOutAdds(run, step, agent, mint);
  }

  /** A settlement leaves the account of the mint it names, or stays in it, and leaves no other. */
  lemma SettlementFlows(s: State, signer: Address, i: Instruction, mint: Address)
    requires i.SettlePayment?
    ensures var f := FlowsOfStep(s, Call(signer, i), AgentAta(i.payment.agentId, mint));
            f.settled + f.selfPaid == if i.mint == mint then i.payment.amount else 0
  {
  }

  lemma {:induction false} PaidOutAdds(run: Run, step: Step, agent: AgentId, mint: Address)
    ensures var f := FlowsOfStep(End(run), step, AgentAta(agent, mint));
            PaidOut(After(run, step), agent, mint)
            == PaidOut(run, agent, mint) + if Applies(End(run), step) then f.settled + f.selfPaid else 0
  {
    FlowsAdd(run, step, AgentAta(agent, mint));
  }

  lemma {:induction false} FlowsAdd(run: Run, step: Step, account: Address)
    ensures FlowsOf(After(run, step), account)
         == if Applies(End(run), step) then AddFlows(FlowsOf(run, account), FlowsOfStep(End(run), step, account))
            else FlowsOf(run, account)
  {
  }

  /** A step adds a settlement's amount to the ledger's total, whatever the mint. */
  lemma {:induction false} TotalStep(run: Run, step: Step, agent: AgentId)
    requires Valid(run)
    ensures GapFree(End(run).records, agent) && GapFree(Next(End(run), step).records, agent)
    ensures var settled := SettlesFor(step, agent) && Applies(End(run), step);
            && GrandTotal(History(Next(End(run), step).records, agent), Spend)
               == GrandTotal(History(End(run).records, agent), Spend)
                  + (if settled then step.instruction.payment.amount else 0)
            && (settled ==> step.instruction.payment.amount > 0)
  {
    RunSound(run, agent);
    if Applies(End(run), step) {
      if SettlesFor(step, agent) {
        SettlementTotal(End(run), step.signer, step.instruction, RegisteredAt(run, agent), PolicySince(run, agent));
      } else {
        OtherStepTotal(End(run), step, agent, RegisteredAt(run, agent), PolicySince(run, agent));
      }
    }
  }

  // ----- All mints together -----

  ghost function PaidOutOver(run: Run, agent: AgentId, mints: set<Address>): nat {
    if mints == {} then 0
    else
      var mint :| mint in mints;
      PaidOut(run, agent, mint) + PaidOutOver(run, agent, mints - {mint})
  }

  /** The sum does not depend on the order the mints are taken in. */
  lemma {:induction false} PaidOutTake(run: Run, agent: AgentId, mints: set<Address>, mint: Address)
    requires mint in mints
    ensures PaidOutOver(run, agent, mints) == PaidOut(run, agent, mint) + PaidOutOver(run, agent, mints - {mint})
    decreases |mints|
  {
    var first :| first in mints
                 && PaidOutOver(run, agent, mints)
                    == PaidOut(run, agent, first) + PaidOutOver(run, agent, mints - {first});
    if first != mint {
      PaidOutTake(run, agent, mints - {first}, mint);
      PaidOutTake(run, agent, mints - {mint}, first);
      assert mints - {first} - {mint} == mints - {mint} - {first};
    }
  }

  lemma {:induction false} PaidOutSame(run: Run, later: Run, agent: AgentId, mints: set<Address>)
    requires forall mint :: mint in mints ==> PaidOut(later, agent, mint) == PaidOut(run, agent, mint)
    ensures PaidOutOver(later, agent, mints) == PaidOutOver(run, agent, mints)
    decreases |mints|
  {
    if mints != {} {
      var mint :| mint in mints;
      PaidOutTake(run, agent, mints, mint);
      PaidOutTake(later, agent, mints, mint);
      PaidOutSame(run, later, agent, mints - {mint});
    }
  }

  lemma {:induction false} PaidOutOverStep(run: Run, step: Step, agent: AgentId, mints: set<Address>)
    requires SettlesFor(step, agent) && Applies(End(run), step) ==> step.instruction.mint in mints
    ensures PaidOutOver(After(run, step), agent, mints)
         == PaidOutOver(run, agent, mints)
            + if SettlesFor(step, agent) && Applies(End(run), step) then step.instruction.payment.amount else 0
  {
    var later := After(run, step);
    forall mint | !SettlesIn(End(run), step, agent, mint)
      ensures PaidOut(later, agent, mint) == PaidOut(run, agent, mint)
    {
      PaidOutStep(run, step, agent, mint);
    }
    if SettlesFor(step, agent) && Applies(End(run), step) {
      var mint := step.instruction.mint;
      PaidOutStep(run, step, agent, mint);
      PaidOutTake(run, agent, mints, mint);
      PaidOutTake(later, agent, mints, mint);
      PaidOutSame(run, later, agent, mints - {mint});
    } else {
      PaidOutSame(run, later, agent, mints);
    }
  }

  /** A settlement's mint exists. */
  lemma SettlementNamesMint(s: State, step: Step, agent: AgentId)
    requires TokensSound(s) && SettlesFor(step, agent) && Applies(s, step)
    ensures step.instruction.mint in s.supply
  {
    assert AgentAta(agent, step.instruction.mint) in s.tokens;
  }

  /**
    The ledger and the token program tell the same story: the ledger's total is
    what was settled out of the agent's accounts, of all mints together.
  */
  lemma {:induction false} LedgerIsOutflow(run: Run, agent: AgentId)
    requires Valid(run)
    ensures GapFree(End(run).records, agent)
    ensures GrandTotal(History(End(run).records, agent), Spend) == PaidOutOver(run, agent, End(run).supply.Keys)
  {
    match run
    case Boot(s) =>
      assert KeysOf(s.records, agent) == {};
      NothingPaidYet(run, agent, s.supply.Keys);
    case After(prev, step) =>
      LedgerIsOutflow(prev, agent);
      TotalStep(prev, step, agent);
      MintsAreFixed(End(prev), step);
      RunTokensSound(prev);
      if SettlesFor(step, agent) && Applies(End(prev), step) {
        SettlementNamesMint(End(prev), step, agent);
      }
      PaidOutOverStep(prev, step, agent, End(prev).supply.Keys);
  }

  lemma {:induction false} NothingPaidYet(run: Run, agent: AgentId, mints: set<Address>)
    requires run.Boot?
    ensures PaidOutOver(run, agent, mints) == 0
    decreases |mints|
  {
    if mints != {} {
      var mint :| mint in mints;
      PaidOutTake(run, agent, mints, mint);
      NothingPaidYet(run, agent, mints - {mint});
    }
  }

  // ----- One mint against the ledger -----

  /** Every settlement of the agent in the run was made in this mint. */
  predicate SettlesOnlyIn(run: Run, agent: AgentId, mint: Address) {
    match run
    case Boot(_) => true
    case After(prev, step) =>
      && SettlesOnlyIn(prev, agent, mint)
      && (SettlesFor(step, agent) && Applies(End(prev), step) ==> step.instruction.mint == mint)
  }

  /** One mint's outflow is part of the ledger's total, and all of it exactly when every settlement was made in it. */
  lemma {:induction false} OneOutflowIff(run: Run, agent: AgentId, mint: Address)
    requires Valid(run)
    ensures GapFree(End(run).records, agent)
    ensures var total := GrandTotal(History(End(run).records, agent), Spend);
            && PaidOut(run, agent, mint) <= total
            && (PaidOut(run, agent, mint) == total <==> SettlesOnlyIn(run, agent, mint))
  {
    match run
    case Boot(s) => assert KeysOf(s.records, agent) == {};
    case After(prev, step) =>
      OneOutflowIff(prev, agent, mint);
      TotalStep(prev, step, agent);
      PaidOutStep(prev, step, agent, mint);
  }

  /**
    The volume a live wallet shows is the outflow of its own account exactly when
    every settlement named the mint it was registered with, short of saturation.
  */
  lemma {:induction false} VolumeIsHomeOutflowIff(run: Run, agent: AgentId)
    requires Valid(run) && Live(End(run), agent)
    ensures var w := End(run).wallets[agent];
            var f := FlowsOf(run, w.usdcTokenAccount);
            w.totalVolume == Clamp64(f.settled + f.selfPaid)
            <==> SettlesOnlyIn(run, agent, HomeMint(w)) || f.settled + f.selfPaid >= U64_MAX
  {
    RunSound(run, agent);
    RunHasAccount(run, agent);
    OneOutflowIff(run, agent, HomeMint(End(run).wallets[agent]));
  }

  /** If every instruction names one mint, every settlement is made in it. */
  lemma {:induction false} OneMintSettles(run: Run, agent: AgentId, mint: Address)
    requires OneMint(run, mint)
    ensures SettlesOnlyIn(run, agent, mint)
  {
    if run.After? {
      OneMintSettles(run.prev, agent, mint);
    }
  }
}
