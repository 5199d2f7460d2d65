/** Token conservation over whole runs, and every account's balance as the sum of its flows. */
module Conservation {
  import opened Numbers
  import opened Results
  import opened Accounts
  import opened TokenProgram
  import opened Machine
  import opened Runs

  // ----- Supply -----

  /** The transfer an instruction asks of the token program, if it gets that far. */
  datatype Payout = Payout(from: Address, to: Address, amount: U64)

  /** The one token movement of a successful program instruction, if it has one. */
  function PayoutOf(s: State, signer: Address, i: Instruction): Option<Payout> {
    match i
    case SettlePayment(_, payment, mint, payee) => Some(Payout(AgentAta(payment.agentId, mint), payee, payment.amount))
    case WithdrawFunds(agent, mint, amount) => Some(Payout(AgentAta(agent, mint), Ata(signer, mint), amount))
    case WithdrawAll(agent, mint) =>
      Some(Payout(AgentAta(agent, mint), Ata(signer, mint), Balance(s.tokens, AgentAta(agent, mint))))
    case _ => None
  }

  /** A successful instruction changes balances by exactly that transfer, and supplies not at all. */
  lemma CallMovesPayout(s: State, signer: Address, i: Instruction)
    requires Execute(s, signer, i).Ok?
    ensures Execute(s, signer, i).value.supply == s.supply
    ensures var s' := Execute(s, signer, i).value;
            match PayoutOf(s, signer, i)
            case Some(p) => Transfer(s.tokens, p.from, p.to, p.amount) == Ok(s'.tokens)
            case None =>
              if i.RegisterAgent? then
                var ata := AgentAta(i.agent, i.mint);
                && ata !in s.tokens && i.mint in s.supply
                && s'.tokens == s.tokens[ata := TokenAccount(i.mint, ata.authority, 0)]
              else s'.tokens == s.tokens
  {
    match i
    case SettlePayment(_, _, _, _) => assert Execute(s, signer, i).value.supply == s.supply;
    case _ =>
  }

  lemma TransferSound(s: State, s': State, from: Address, to: Address, amount: U64)
    requires TokensSound(s) && s'.supply == s.supply
    requires Transfer(s.tokens, from, to, amount) == Ok(s'.tokens)
    ensures TokensSound(s')
  {
    forall m | m in s.supply ensures Held(s'.tokens, m) == s.supply[m] {
      TransferConserves(s.tokens, from, to, amount, m);
    }
  }

  /** Opening an empty account. */
  lemma OpenSound(s: State, s': State, at: Address, a: TokenAccount)
    requires TokensSound(s) && s'.supply == s.supply
    requires at !in s.tokens && a.mint in s.supply && a.amount == 0
    requires at.Ata? ==> a.owner == at.authority && a.mint == at.mint
    requires s'.tokens == s.tokens[at := a]
    ensures TokensSound(s')
  {
    forall m | m in s.supply ensures Held(s'.tokens, m) == s.supply[m] {
      HeldUpdate(s.tokens, m, at, a);
    }
  }

  lemma MintSound(s: State, to: Address, amount: U64)
    requires TokensSound(s) && Applies(s, Mint(to, amount))
    ensures TokensSound(Next(s, Mint(to, amount)))
  {
    var s' := Next(s, Mint(to, amount));
    forall m | m in s'.supply ensures Held(s'.tokens, m) == s'.supply[m] {
      HeldUpdate(s.tokens, m, to, s'.tokens[to]);
    }
  }

  lemma EnvironmentSound(s: State, step: Step)
    requires TokensSound(s) && !step.Call? && Applies(s, step)
    ensures TokensSound(Next(s, step))
  {
    match step
    case Tick(_) =>
    case OpenAccount(at, owner, mint) => OpenSound(s, Next(s, step), at, TokenAccount(mint, owner, 0));
    case Mint(to, amount) => MintSound(s, to, amount);
    case Move(from, to, amount) => TransferSound(s, Next(s, step), from, to, amount);
  }

  lemma CallSound(s: State, signer: Address, i: Instruction)
    requires TokensSound(s) && Execute(s, signer, i).Ok?
    ensures TokensSound(Execute(s, signer, i).value)
  {
    CallMovesPayout(s, signer, i);
    var s' := Execute(s, signer, i).value;
    match PayoutOf(s, signer, i)
    case Some(p) => TransferSound(s, s', p.from, p.to, p.amount);
    case None =>
      if i.RegisterAgent? {
        OpenSound(s, s', AgentAta(i.agent, i.mint), TokenAccount(i.mint, WalletPda(i.agent), 0));
      }
  }

  /** No instruction of the program creates or destroys tokens of any mint. */
  lemma ProgramConserves(s: State, signer: Address, i: Instruction, mint: Address)
    ensures Held(Next(s, Call(signer, i)).tokens, mint) == Held(s.tokens, mint)
  {
    if Execute(s, signer, i).Ok? {
      CallMovesPayout(s, signer, i);
      match PayoutOf(s, signer, i)
      case Some(p) => TransferConserves(s.tokens, p.from, p.to, p.amount, mint);
      case None =>
        if i.RegisterAgent? {
          HeldUpdate(s.tokens, mint, AgentAta(i.agent, i.mint), TokenAccount(i.mint, WalletPda(i.agent), 0));
        }
    }
  }

  /** In every reachable state the balances of a mint add up to its supply. */
  lemma {:induction false} RunTokensSound(run: Run)
    requires Valid(run)
    ensures TokensSound(End(run))
  {
    match run
    case Boot(_) =>
    case After(prev, step) =>
      RunTokensSound(prev);
      if Applies(End(prev), step) {
        if step.Call? {
          CallSound(End(prev), step.signer, step.instruction);
        } else {
          EnvironmentSound(End(prev), step);
        }
      }
  }

  /** Mints neither appear nor disappear. */
  lemma MintsAreFixed(s: State, step: Step)
    ensures Next(s, step).supply.Keys == s.supply.Keys
  {
    if step.Call? && Applies(s, step) {
      CallMovesPayout(s, step.signer, step.instruction);
    }
  }

  // ----- Flows -----

  /** What has gone into and out of one token account, by cause. A payment to itself is not a flow. */
  datatype Flows = Flows(deposited: nat, received: nat, settled: nat, withdrawn: nat, moved: nat, selfPaid: nat)

  const NO_FLOWS := Flows(0, 0, 0, 0, 0, 0)

  /** Flows of one successful step. */
  function FlowsOfStep(s: State, step: Step, account: Address): Flows {
    match step
    case Call(signer, i) =>
      var p := PayoutOf(s, signer, i);
      if p == None || (p.value.from != account && p.value.to != account) then NO_FLOWS
      else if p.value.from == p.value.to then
        NO_FLOWS.(selfPaid := if i.SettlePayment? then p.value.amount else 0)
      else if p.value.to == account then NO_FLOWS.(received := p.value.amount)
      else if i.SettlePayment? then NO_FLOWS.(settled := p.value.amount)
      else NO_FLOWS.(withdrawn := p.value.amount)
    case Mint(to, amount) => if to == account then NO_FLOWS.(deposited := amount) else NO_FLOWS
    case Move(from, to, amount) =>
      if from == to then NO_FLOWS
      else if to == account then NO_FLOWS.(deposited := amount)
      else if from == account then NO_FLOWS.(moved := amount)
      else NO_FLOWS
    case _ => NO_FLOWS
  }

  function AddFlows(a: Flows, b: Flows): Flows {
    Flows(a.deposited + b.deposited, a.received + b.received, a.settled + b.settled,
          a.withdrawn + b.withdrawn, a.moved + b.moved, a.selfPaid + b.selfPaid)
  }

  function FlowsOf(run: Run, account: Address): Flows {
    match run
    case Boot(_) => NO_FLOWS
    case After(prev, step) =>
      if Applies(End(prev), step) then AddFlows(FlowsOf(prev, account), FlowsOfStep(End(prev), step, account))
      else FlowsOf(prev, account)
  }

  /** One step changes a balance by the step's flows, aliased accounts included. */
  lemma {:induction false} StepBalance(s: State, step: Step, account: Address)
    requires Applies(s, step)
    ensures var f := FlowsOfStep(s, step, account);
            Balance(Next(s, step).tokens, account) + f.settled + f.withdrawn + f.moved
            == Balance(s.tokens, account) + f.deposited + f.received
  {
    if step.Call? {
      CallBalance(s, step.signer, step.instruction, account);
    }
  }

  lemma CallBalance(s: State, signer: Address, i: Instruction, account: Address)
    requires Execute(s, signer, i).Ok?
    ensures var f := FlowsOfStep(s, Call(signer, i), account);
            Balance(Execute(s, signer, i).value.tokens, account) + f.settled + f.withdrawn + f.moved
            == Balance(s.tokens, account) + f.deposited + f.received
  {
    CallMovesPayout(s, signer, i);
  }

  /** The balance of any account is its opening balance, plus all that came in, less all that went out. */
  lemma {:induction false} BalanceIsFlows(run: Run, account: Address)
    ensures var f := FlowsOf(run, account);
            Balance(End(run).tokens, account) + f.settled + f.withdrawn + f.moved
            == Balance(Origin(run).tokens, account) + f.deposited + f.received
  {
    match run
    case Boot(_) =>
    case After(prev, step) =>
      BalanceIsFlows(prev, account);
      if Applies(End(prev), step) {
        StepBalance(End(prev), step, account);
      }
  }

  /** The program alone moves tokens out of an agent's account. */
  lemma {:induction false} OutsidersNeverDebit(run: Run, agent: AgentId, mint: Address)
    requires Valid(run)
    ensures FlowsOf(run, AgentAta(agent, mint)).moved == 0
  {
    match run
    case Boot(_) =>
    case After(prev, step) =>
      OutsidersNeverDebit(prev, agent, mint);
      RunTokensSound(prev);
      if Applies(End(prev), step) {
        StepNeverMoved(End(prev), step, agent, mint);
      }
  }

  /** An outsider's move starts at an account an agent's wallet has no authority over. */
  lemma StepNeverMoved(s: State, step: Step, agent: AgentId, mint: Address)
    requires TokensSound(s) && Applies(s, step)
    ensures FlowsOfStep(s, step, AgentAta(agent, mint)).moved == 0
  {
    var account := AgentAta(agent, mint);
    assert account in s.tokens ==> s.tokens[account].owner == WalletPda(agent);
  }

  /** Every instruction of the run that names a mint for this purpose names this one. */
  predicate OneMint(run: Run, mint: Address) {
    match run
    case Boot(_) => true
    case After(prev, step) =>
      && OneMint(prev, mint)
      && (step.Call? && step.instruction.RegisterAgent? ==> step.instruction.mint == mint)
      && (step.Call? && step.instruction.SettlePayment? ==> step.instruction.mint == mint)
  }
}
