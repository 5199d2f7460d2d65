/**
  Everything the owner and the admin decide, read off the steps of a run: in every
  reachable state it is what was last successfully asked for.
*/
module Settings {
  import opened Results
  import opened Numbers
  import opened Accounts
  import opened Windows
  import opened Machine
  import opened Runs
  import opened Reachable
  import opened Safety

  /** What has been decided about a registered agent. */
  datatype Settings = Settings(owner: Address, home: Address, active: bool, frozen: bool, limits: Option<Limits>)

  /** How a successful instruction changes that. */
  function Decided(before: Option<Settings>, signer: Address, i: Instruction, agent: AgentId): Option<Settings> {
    if i.RegisterAgent? && i.agent == agent then Some(Settings(signer, i.mint, true, false, None)) else
    if before.None? then None else
    match i
    case TransferOwnership(a, newOwner) => if a == agent then Some(before.value.(owner := newOwner)) else before
    case SetActive(a, active) => if a == agent then Some(before.value.(active := active)) else before
    case SetFrozen(a, frozen) => if a == agent then Some(before.value.(frozen := frozen)) else before
    case SetSpendPolicy(a, limits) => if a == agent then Some(before.value.(limits := Some(limits))) else before
    case CloseAgent(a, _) => if a == agent then None else before
    case _ => before
  }

  /** The decisions of a whole run. */
  function SettingsOf(run: Run, agent: AgentId): Option<Settings> {
    match run
    case Boot(_) => None
    case After(prev, step) =>
      var before := SettingsOf(prev, agent);
      if step.Call? && Applies(End(prev), step) then Decided(before, step.signer, step.instruction, agent) else before
  }

  /** The state shows these decisions. */
  ghost predicate Shows(s: State, agent: AgentId, decided: Option<Settings>) {
    match decided
    case None => agent !in s.wallets && agent !in s.policies
    case Some(d) =>
      && agent in s.wallets && s.wallets[agent].owner == d.owner
      && s.wallets[agent].usdcTokenAccount == Ata(WalletPda(agent), d.home)
      && s.wallets[agent].isActive == d.active && s.wallets[agent].isFrozen == d.frozen
      && (agent in s.policies <==> d.limits.Some?)
      && (d.limits.Some? ==> s.policies[agent].limits == d.limits.value)
  }

  lemma LifeShows(s: State, signer: Address, i: Instruction, agent: AgentId, decided: Option<Settings>)
    requires Execute(s, signer, i).Ok? && Shows(s, agent, decided)
    requires i.RegisterAgent? || i.SetSpendPolicy? || i.CloseAgent?
    ensures Shows(Execute(s, signer, i).value, agent, Decided(decided, signer, i, agent))
  {
  }

  lemma SwitchShows(s: State, signer: Address, i: Instruction, agent: AgentId, decided: Option<Settings>)
    requires Execute(s, signer, i).Ok? && Shows(s, agent, decided)
    requires i.TransferOwnership? || i.SetActive? || i.SetFrozen?
    ensures Shows(Execute(s, signer, i).value, agent, Decided(decided, signer, i, agent))
  {
  }

  lemma OtherShows(s: State, signer: Address, i: Instruction, agent: AgentId, decided: Option<Settings>)
    requires Execute(s, signer, i).Ok? && Shows(s, agent, decided)
    requires i.InitProtocol? || i.RotateProtocolAdmin? || i.UpdateProtocolConfig? || i.WithdrawFunds? || i.WithdrawAll?
    ensures Shows(Execute(s, signer, i).value, agent, Decided(decided, signer, i, agent))
  {
  }

  lemma PaymentShows(s: State, signer: Address, i: Instruction, agent: AgentId, decided: Option<Settings>)
    requires Execute(s, signer, i).Ok? && Shows(s, agent, decided)
    requires i.SettlePayment? || i.RecordPolicyViolation?
    ensures Shows(Execute(s, signer, i).value, agent, Decided(decided, signer, i, agent))
  {
    if i.SettlePayment? {
      var payer := i.payment.agentId;
      SettleCommits(s, signer, i.sequence, i.payment, i.mint, i.payee);
      EnforceCounts(s.policies[payer], RollWindows(s.wallets[payer], s.now).value, i.payment, s.now);
    }
  }

  /**
    In every reachable state an agent's owner, home mint, flags and limits are
    those last decided: at registration, or by the last successful transfer,
    switch, freeze or policy update since, and there are none after a close.
  */
  lemma {:induction false} SettingsAreLastDecided(run: Run, agent: AgentId)
    requires Valid(run)
    ensures Shows(End(run), agent, SettingsOf(run, agent))
  {
    if run.After? {
      SettingsAreLastDecided(run.prev, agent);
      var s, step, decided := End(run.prev), run.step, SettingsOf(run.prev, agent);
      if step.Call? && Applies(s, step) {
        CallShows(s, step.signer, step.instruction, agent, decided);
      }
    }
  }

  lemma CallShows(s: State, signer: Address, i: Instruction, agent: AgentId, decided: Option<Settings>)
    requires Execute(s, signer, i).Ok? && Shows(s, agent, decided)
    ensures Shows(Execute(s, signer, i).value, agent, Decided(decided, signer, i, agent))
  {
    if i.SettlePayment? || i.RecordPolicyViolation? {
      PaymentShows(s, signer, i, agent, decided);
    } else if i.RegisterAgent? || i.SetSpendPolicy? || i.CloseAgent? {
      LifeShows(s, signer, i, agent, decided);
    } else if i.TransferOwnership? || i.SetActive? || i.SetFrozen? {
      SwitchShows(s, signer, i, agent, decided);
    } else {
      OtherShows(s, signer, i, agent, decided);
    }
  }

  // ----- Ownership -----

  predicate Owns(s: State, agent: AgentId, owner: Address) {
    agent in s.wallets && s.wallets[agent].owner == owner
  }

  /** Does this step make `owner` the owner, by a transfer or by registering? */
  predicate Names(s: State, step: Step, agent: AgentId, owner: Address) {
    && step.Call? && Applies(s, step)
    && (step.instruction == TransferOwnership(agent, owner)
        || (step.instruction.RegisterAgent? && step.instruction.agent == agent && step.signer == owner))
  }

  /** No step since `base` does. */
  predicate NeverNamedSince(run: Run, base: Run, agent: AgentId, owner: Address) {
    run == base
    || (run.After? && NeverNamedSince(run.prev, base, agent, owner) && !Names(End(run.prev), run.step, agent, owner))
  }

  /** Who is not the owner does not become it otherwise. */
  lemma {:induction false} NotNamedNotOwner(run: Run, base: Run, agent: AgentId, owner: Address)
    requires Valid(run) && Extends(run, base)
    requires !Owns(End(base), agent, owner) && NeverNamedSince(run, base, agent, owner)
    ensures !Owns(End(run), agent, owner)
  {
    if run != base {
      NotNamedNotOwner(run.prev, base, agent, owner);
      SettingsAreLastDecided(run.prev, agent);
      SettingsAreLastDecided(run, agent);
    }
  }

  /**
    Key rotation: once the wallet has been transferred, the old owner is refused
    every instruction on the agent, until it is named owner again; the new owner is
    the one whose signature counts.
  */
  lemma {:induction false} TransferHandsOver(run: Run, base: Run, agent: AgentId, former: Address, successor: Address,
                                             i: Instruction)
    requires Valid(run) && Applies(End(base), Call(former, TransferOwnership(agent, successor)))
    requires var handed := After(base, Call(former, TransferOwnership(agent, successor)));
             Extends(run, handed) && NeverNamedSince(run, handed, agent, former)
    requires Controls(i) == Some(agent)
    ensures Owns(Next(End(base), Call(former, TransferOwnership(agent, successor))), agent, successor)
    ensures Execute(End(run), former, i).Err?
  {
    NotNamedNotOwner(run, After(base, Call(former, TransferOwnership(agent, successor))), agent, former);
    if Execute(End(run), former, i).Ok? {
      ControlsNeedOwner(End(run), former, i);
    }
  }

  // ----- The configuration -----

  /** What has been decided about the protocol. */
  datatype Governance = Governance(admin: Address, cap: U64)

  /** How a successful instruction changes that. */
  function GovernedBy(before: Option<Governance>, i: Instruction): Option<Governance> {
    if i.InitProtocol? then Some(Governance(i.admin, 0)) else
    if before.None? then None else
    match i
    case RotateProtocolAdmin(newAdmin) => Some(before.value.(admin := newAdmin))
    case UpdateProtocolConfig(cap) => Some(before.value.(cap := cap))
    case _ => before
  }

  /** The admin and the cap of a whole run. */
  function GovernanceOf(run: Run): Option<Governance> {
    match run
    case Boot(_) => None
    case After(prev, step) =>
      if step.Call? && Applies(End(prev), step) then GovernedBy(GovernanceOf(prev), step.instruction)
      else GovernanceOf(prev)
  }

  /** The configuration shows these decisions. */
  predicate Configured(config: Option<Config>, g: Option<Governance>) {
    match g
    case None => config.None?
    case Some(g) => config.Some? && config.value.admin == g.admin && config.value.maxSinglePaymentUsdc == g.cap
  }

  /** Admin and cap are the arguments of the last successful calls that set them. */
  lemma {:induction false} GovernanceIsLastDecided(run: Run)
    requires Valid(run)
    ensures Configured(End(run).config, GovernanceOf(run))
  {
    if run.After? {
      var s, step := End(run.prev), run.step;
      GovernanceIsLastDecided(run.prev);
      if step.Call? && Applies(s, step) {
        ConfigStep(s, step.signer, step.instruction, GovernanceOf(run.prev));
      }
    }
  }

  /** What an instruction does to the configuration, and whose signature that takes. */
  lemma ConfigStep(s: State, signer: Address, i: Instruction, g: Option<Governance>)
    requires Execute(s, signer, i).Ok? && Configured(s.config, g)
    ensures Configured(Execute(s, signer, i).value.config, GovernedBy(g, i))
  {
  }

  lemma ConfigNeedsAdmin(s: State, signer: Address, i: Instruction)
    requires Execute(s, signer, i).Ok? && s.config.Some? && Execute(s, signer, i).value.config != s.config
    ensures (i.RotateProtocolAdmin? || i.UpdateProtocolConfig?) && signer.Key? && signer == s.config.value.admin
  {
  }

  /** Once there is a configuration, it changes only with the signature of the admin in it. */
  lemma OnlyTheAdmin(s: State, step: Step)
    requires s.config.Some? && Next(s, step).config != s.config
    ensures step.Call? && step.signer == s.config.value.admin && step.signer.Key?
    ensures step.instruction.RotateProtocolAdmin? || step.instruction.UpdateProtocolConfig?
  {
    if step.Call? && Applies(s, step) {
      ConfigNeedsAdmin(s, step.signer, step.instruction);
    }
  }
}
