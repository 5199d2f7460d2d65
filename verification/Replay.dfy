/** Replaying the rate limiter: its window, too, is determined by the ledger. */
module Replay {
  import opened Numbers
  import opened Results
  import opened Accounts
  import opened Windows
  import opened Machine
  import opened Runs
  import opened RateLimit
  import opened Reachable

  /** Start of the window after these calls: it restarts at the first call past its end. */
  function ReplayStart(l: Limits, setAt: int, calls: seq<Record>): int {
    if calls == [] then setAt
    else
      var start := ReplayStart(l, setAt, calls[..|calls| - 1]);
      StartAfter(l, start, calls[|calls| - 1])
  }

  function StartAfter(l: Limits, start: int, r: Record): int {
    if IsCall(l, r) && 0 < l.rateLimitWindowSecs <= r.settledAt - start then r.settledAt else start
  }

  lemma ReplayAppend(l: Limits, setAt: int, calls: seq<Record>, r: Record)
    ensures ReplayStart(l, setAt, calls + [r]) == StartAfter(l, ReplayStart(l, setAt, calls), r)
  {
    assert (calls + [r])[..|calls|] == calls;
  }

  /** The stored window start is the replayed one. */
  ghost predicate StartAgrees(s: State, agent: AgentId, since: nat, setAt: int) {
    && GapFree(s.records, agent)
    && (Live(s, agent) && agent in s.policies ==>
          && since <= Count(s.records, agent)
          && s.policies[agent].rateLimitWindowStart
             == ReplayStart(s.policies[agent].limits, setAt, History(s.records, agent)[since..]))
  }

  /** A state change that appends one record and moves the window start as the replay does. */
  lemma AppendReplays(s: State, s': State, agent: AgentId, r: Record, since: nat, setAt: int)
    requires StartAgrees(s, agent, since, setAt) && Live(s, agent)
    requires s'.records == s.records[RecordKey(agent, Count(s.records, agent)) := r]
    requires agent in s'.policies ==>
               && agent in s.policies && s'.policies[agent].limits == s.policies[agent].limits
               && s'.policies[agent].rateLimitWindowStart
                  == StartAfter(s.policies[agent].limits, s.policies[agent].rateLimitWindowStart, r)
    ensures StartAgrees(s', agent, since, setAt)
  {
    HistoryGrows(s.records, agent, r);
    if agent in s'.policies {
      var h := History(s.records, agent);
      assert (h + [r])[since..] == h[since..] + [r];
      ReplayAppend(s.policies[agent].limits, setAt, h[since..], r);
    }
  }

  /** The policy checks move the window start as the replay does. */
  lemma EnforceReplays(p: Policy, w: Wallet, payment: Payment, now: I64, r: Record)
    requires Enforce(p, w, payment, now).Ok?
    requires r.policyPassed && r.amount == payment.amount && r.settledAt == now
    ensures var q := Enforce(p, w, payment, now).value;
            q.limits == p.limits && q.rateLimitWindowStart == StartAfter(p.limits, p.rateLimitWindowStart, r)
  {
    EnforceCounts(p, w, payment, now);
  }

  lemma SettleReplays(s: State, signer: Address, i: Instruction, anchor: int, since: nat, setAt: int)
    requires i.SettlePayment? && Execute(s, signer, i).Ok?
    requires AgentSound(s, i.payment.agentId, anchor, since) && StartAgrees(s, i.payment.agentId, since, setAt)
    ensures StartAgrees(Execute(s, signer, i).value, i.payment.agentId, since, setAt)
  {
    var agent, s' := i.payment.agentId, Execute(s, signer, i).value;
    SettleCommits(s, signer, i.sequence, i.payment, i.mint, i.payee);
    NextKeyIsCount(s, agent, anchor, since);
    var r := s'.records[RecordKey(agent, i.sequence)];
    EnforceReplays(s.policies[agent], RollWindows(s.wallets[agent], s.now).value, i.payment, s.now, r);
    AppendReplays(s, s', agent, r, since, setAt);
  }

  lemma ViolationReplays(s: State, signer: Address, i: Instruction, anchor: int, since: nat, setAt: int)
    requires i.RecordPolicyViolation? && Execute(s, signer, i).Ok?
    requires AgentSound(s, i.payment.agentId, anchor, since) && StartAgrees(s, i.payment.agentId, since, setAt)
    ensures StartAgrees(Execute(s, signer, i).value, i.payment.agentId, since, setAt)
  {
    var agent, s' := i.payment.agentId, Execute(s, signer, i).value;
    NextKeyIsCount(s, agent, anchor, since);
    AppendReplays(s, s', agent, s'.records[RecordKey(agent, i.sequence)], since, setAt);
  }

  lemma SetPolicyReplays(s: State, signer: Address, i: Instruction, anchor: int, since: nat)
    requires i.SetSpendPolicy? && Execute(s, signer, i).Ok? && AgentSound(s, i.agent, anchor, since)
    ensures StartAgrees(Execute(s, signer, i).value, i.agent, Count(s.records, i.agent), s.now)
  {
    assert History(s.records, i.agent)[Count(s.records, i.agent)..] == [];
  }

  lemma StepReplays(s: State, step: Step, agent: AgentId, anchor: int, since: nat, setAt: int)
    requires AgentSound(s, agent, anchor, since) && StartAgrees(s, agent, since, setAt)
    ensures StartAgrees(Next(s, step), agent, NextSince(s, step, agent, since),
                        if SetsPolicy(s, step, agent) then s.now else setAt)
  {
    if Writes(step) != Some(agent) || !Applies(s, step) {
      OtherStepsAlike(s, step, agent);
      HistoryFrame(s.records, Next(s, step).records, agent);
    } else {
      var signer, i := step.signer, step.instruction;
      match i
      case SettlePayment(_, _, _, _) => SettleReplays(s, signer, i, anchor, since, setAt);
      case RecordPolicyViolation(_, _) => ViolationReplays(s, signer, i, anchor, since, setAt);
      case SetSpendPolicy(_, _) => SetPolicyReplays(s, signer, i, anchor, since);
      case _ =>
    }
  }

  /**
    In every reachable state the limiter's window is the one a replay of the calls
    since the policy was set ends in.
  */
  lemma {:induction false} RunReplays(run: Run, agent: AgentId)
    requires Valid(run)
    ensures StartAgrees(End(run), agent, PolicySince(run, agent), PolicySetAt(run, agent))
  {
    RunSound(run, agent);
    match run
    case Boot(_) =>
    case After(prev, step) =>
      RunReplays(prev, agent);
      RunSound(prev, agent);
      StepReplays(End(prev), step, agent, RegisteredAt(prev, agent), PolicySince(prev, agent),
                  PolicySetAt(prev, agent));
  }
}
