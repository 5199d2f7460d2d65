/**
  The instruction handlers in the program's own form: they check, load accounts,
  change them in place, call the token program and write back, in that order,
  and may abort half-way. `Process` is the runtime around them.
*/
module Handlers {
  import opened Numbers
  import opened Results
  import opened Accounts
  import opened Windows
  import opened TokenProgram
  import opened Machine
  import opened LoadedAccounts

  /** A handler that succeeds has made the specified change; one that aborts reports the specified error. */
  predicate Handled(spec: Result<State, Error>, r: Result<(), Error>, post: State) {
    match r
    case Ok(_) => spec == Ok(post)
    case Err(e) => spec == Err(e)
  }

  /** The same for the part of a settlement that works on the two loaded accounts. */
  predicate Approved(spec: Result<(Wallet, Policy), Error>, r: Result<(), Error>, w: Wallet, p: Policy) {
    match r
    case Ok(_) => spec == Ok((w, p))
    case Err(e) => spec == Err(e)
  }

  method EnforcePolicy(wallet: AgentWallet, policy: SpendPolicy, params: Payment, now: I64)
    returns (r: Result<(), Error>)
    modifies policy`rateLimitCallCount, policy`rateLimitWindowStart
    ensures match r
            case Ok(_) => Enforce(old(policy.View()), wallet.View(), params, now) == Ok(policy.View())
            case Err(e) => Enforce(old(policy.View()), wallet.View(), params, now) == Err(e)
  {
    var enforceOnChain := policy.highValueThreshold > 0 && params.amount >= policy.highValueThreshold;
    if enforceOnChain {
      :- Require(WithinPerCallLimit(policy.perCallLimit, params.amount), PerCallLimitExceeded);
      :- Require(WithinBudget(policy.dailyBudget, wallet.dailySpend, params.amount), BudgetExceeded(Daily));
      :- Require(WithinBudget(policy.weeklyBudget, wallet.weeklySpend, params.amount), BudgetExceeded(Weekly));
      :- Require(WithinBudget(policy.monthlyBudget, wallet.monthlySpend, params.amount), BudgetExceeded(Monthly));
      var _ :- policy.ResetRateWindowIfElapsed(now);
      :- Require(WithinRateLimit(policy.View()), RateLimitExceeded);
      if policy.blockedDomainHashes != [] {
        :- Require(params.domainHash !in policy.blockedDomainHashes, DomainBlocked);
      }
      if policy.allowedDomainHashes != [] {
        :- Require(params.domainHash in policy.allowedDomainHashes, DomainNotAllowed);
      }
      policy.rateLimitCallCount := SaturatingAdd32(policy.rateLimitCallCount, 1);
    }
    return Ok(());
  }

  method ResetWindows(wallet: AgentWallet, now: I64) returns (r: Result<(), Error>)
    modifies wallet
    ensures match r
            case Ok(_) => RollWindows(old(wallet.View()), now) == Ok(wallet.View())
            case Err(e) => RollWindows(old(wallet.View()), now) == Err(e)
  {
    var _ :- wallet.ResetDailyWindowIfElapsed(now);
    var _ :- wallet.ResetWeeklyWindowIfElapsed(now);
    var _ :- wallet.ResetMonthlyWindowIfElapsed(now);
    return Ok(());
  }

  /** The body of `settle_payment` up to the transfer: guards, window resets and policy, on the loaded accounts. */
  method ApprovePayment(cap: U64, wallet: AgentWallet, policy: SpendPolicy, sequence: U64, params: Payment, now: I64)
    returns (r: Result<(), Error>)
    modifies wallet, policy
    ensures Approved(Approve(cap, old(wallet.View()), old(policy.View()), sequence, params, now), r,
                     wallet.View(), policy.View())
    ensures r.Ok? ==> FromDiscriminant(params.protocol).Some?
  {
    r := Ok(());
    :- Require(params.amount > 0, ZeroPaymentAmount);
    :- Require(FromDiscriminant(params.protocol).Some?, InvalidProtocol);
    :- Require(sequence == wallet.paymentSequence, SequenceMismatch);
    if cap > 0 {
      :- Require(params.amount <= cap, GlobalPaymentCapExceeded);
    }
    :- Require(wallet.isActive, AgentNotActive);
    :- Require(!wallet.isFrozen, AgentFrozen);
    var _ :- ResetWindows(wallet, now);
    var _ :- EnforcePolicy(wallet, policy, params, now);
  }

  /** The bookkeeping after the transfer. */
  method BookPayment(wallet: AgentWallet, amount: U64, now: I64)
    modifies wallet
    ensures wallet.View() == Book(old(wallet.View()), amount, now)
  {
    wallet.dailySpend := SaturatingAdd64(wallet.dailySpend, amount);
    wallet.weeklySpend := SaturatingAdd64(wallet.weeklySpend, amount);
    wallet.monthlySpend := SaturatingAdd64(wallet.monthlySpend, amount);
    wallet.totalVolume := SaturatingAdd64(wallet.totalVolume, amount);
    wallet.lastPaymentAt := now;
    wallet.paymentSequence := SaturatingAdd64(wallet.paymentSequence, 1);
    wallet.totalPayments := SaturatingAdd64(wallet.totalPayments, 1);
  }

  /** The fields `register_agent` sets. */
  method FillNewWallet(wallet: AgentWallet, agent: AgentId, owner: Address, ata: Address, now: I64)
    requires ata.Ata? && ata == AgentAta(agent, ata.mint)
    modifies wallet
    ensures wallet.View() == NewWallet(agent, owner, ata.mint, now)
  {
    wallet.agentId := agent;
    wallet.owner := owner;
    wallet.usdcTokenAccount := ata;
    wallet.dailySpend := 0;
    wallet.dailyWindowStart := now;
    wallet.weeklySpend := 0;
    wallet.weeklyWindowStart := now;
    wallet.monthlySpend := 0;
    wallet.monthlyWindowStart := now;
    wallet.paymentSequence := 0;
    wallet.lastPaymentAt := 0;
    wallet.totalPayments := 0;
    wallet.totalVolume := 0;
    wallet.isActive := true;
    wallet.isFrozen := false;
  }

  /** The fields `set_spend_policy` sets: every one, with the call counter back at zero. */
  method FillPolicy(policy: SpendPolicy, agent: AgentId, limits: Limits, now: I64)
    modifies policy
    ensures policy.View() == Policy(WalletPda(agent), limits, 0, now)
  {
    policy.agentWallet := WalletPda(agent);
    policy.dailyBudget := limits.dailyBudget;
    policy.weeklyBudget := limits.weeklyBudget;
    policy.monthlyBudget := limits.monthlyBudget;
    policy.perCallLimit := limits.perCallLimit;
    policy.rateLimitCalls := limits.rateLimitCalls;
    policy.rateLimitWindowSecs := limits.rateLimitWindowSecs;
    policy.rateLimitCallCount := 0;
    policy.rateLimitWindowStart := now;
    policy.highValueThreshold := limits.highValueThreshold;
    policy.allowedDomainHashes := limits.allowed;
    policy.blockedDomainHashes := limits.blocked;
  }

  /** The chain's account store. */
  class Chain {
    var now: I64
    var config: Option<Config>
    var wallets: map<AgentId, Wallet>
    var policies: map<AgentId, Policy>
    var tokens: Tokens
    var supply: map<Address, U64>
    var records: Records

    constructor (s: State)
      ensures View() == s
    {
      now, config, wallets, policies := s.now, s.config, s.wallets, s.policies;
      tokens, supply, records := s.tokens, s.supply, s.records;
    }

    function View(): State
      reads this
    {
      State(now, config, wallets, policies, tokens, supply, records)
    }

    method TransferTokens(from: Address, to: Address, amount: U64) returns (r: Result<(), Error>)
      modifies this`tokens
      ensures match r
              case Ok(_) => Transfer(old(tokens), from, to, amount) == Ok(tokens)
              case Err(e) => Transfer(old(tokens), from, to, amount) == Err(e) && tokens == old(tokens)
    {
      r := Ok(());
      :- Require(from in tokens && to in tokens, AccountMissing);
      :- Require(tokens[from].amount >= amount, TokenBalanceTooLow);
      :- Require(tokens[from].mint == tokens[to].mint, TokenMintMismatch);
      if from != to {
        :- Require(tokens[to].amount + amount <= U64_MAX, TokenOverflow);
        tokens := tokens[from := tokens[from].(amount := tokens[from].amount - amount)];
        tokens := tokens[to := tokens[to].(amount := tokens[to].amount + amount)];
      }
    }

    method RequireOwner(signer: Address, agent: AgentId) returns (r: Result<AgentWallet, Error>)
      ensures match r
              case Ok(w) => fresh(w) && OwnedWallet(View(), signer, agent) == Ok(w.View())
              case Err(e) => OwnedWallet(View(), signer, agent) == Err(e)
    {
      if !signer.Key? {
        return Err(MissingSignature);
      }
      :- Require(agent in wallets, AccountMissing);
      :- Require(wallets[agent].owner == signer, Unauthorized);
      var w := new AgentWallet(wallets[agent]);
      return Ok(w);
    }

    method RequireAdmin(signer: Address) returns (r: Result<(), Error>)
      ensures match r
              case Ok(_) => AdminConfig(View(), signer).Ok?
              case Err(e) => AdminConfig(View(), signer) == Err(e)
    {
      r := Ok(());
      :- Require(signer.Key?, MissingSignature);
      :- Require(config.Some?, AccountMissing);
      :- Require(config.value.admin == signer, Unauthorized);
    }

    // ----- Configuration -----

    method InitProtocol(signer: Address, admin: Address) returns (r: Result<(), Error>)
      modifies this
      ensures Handled(Init(old(View()), signer, admin), r, View())
    {
      r := Ok(());
      :- Require(signer.Key?, MissingSignature);
      :- Require(config.None?, AccountInUse);
      config := Some(Config(DefaultKey, 0, 0));
      :- Require(admin != DefaultKey, InvalidOwner);
      config := Some(config.value.(admin := admin, version := PROGRAM_VERSION, maxSinglePaymentUsdc := 0));
    }

    method RotateProtocolAdmin(signer: Address, newAdmin: Address) returns (r: Result<(), Error>)
      modifies this
      ensures Handled(RotateAdmin(old(View()), signer, newAdmin), r, View())
    {
      var _ :- RequireAdmin(signer);
      :- Require(newAdmin != DefaultKey, InvalidOwner);
      config := Some(config.value.(admin := newAdmin));
      return Ok(());
    }

    method UpdateProtocolConfig(signer: Address, cap: U64) returns (r: Result<(), Error>)
      modifies this
      ensures Handled(UpdateConfig(old(View()), signer, cap), r, View())
    {
      var _ :- RequireAdmin(signer);
      config := Some(config.value.(maxSinglePaymentUsdc := cap));
      return Ok(());
    }

    // ----- Wallets and policies -----

    method RegisterAgent(signer: Address, agent: AgentId, mint: Address) returns (r: Result<(), Error>)
      modifies this
      ensures Handled(Register(old(View()), signer, agent, mint), r, View())
    {
      var ata := AgentAta(agent, mint);
      :- Require(signer.Key?, MissingSignature);
      :- Require(mint in supply, AccountMissing);
      :- Require(agent !in wallets && ata !in tokens, AccountInUse);
      tokens := tokens[ata := TokenAccount(mint, WalletPda(agent), 0)];
      :- Require(agent != [] && |agent| <= MAX_AGENT_ID_LEN, AgentIdTooLong);
      :- Require(forall i :: 0 <= i < |agent| ==> IsIdByte(agent[i]), InvalidAgentId);
      var wallet := new AgentWallet.Zeroed();
      FillNewWallet(wallet, agent, signer, ata, now);
      wallets := wallets[agent := wallet.View()];
      return Ok(());
    }

    /** `init_if_needed`: the policy there is, or a zeroed one. */
    method LoadPolicyOrInit(agent: AgentId) returns (policy: SpendPolicy)
      ensures fresh(policy)
    {
      if agent in policies {
        policy := new SpendPolicy(policies[agent]);
      } else {
        policy := new SpendPolicy.Zeroed();
      }
    }

    method SetSpendPolicy(signer: Address, agent: AgentId, limits: Limits) returns (r: Result<(), Error>)
      modifies this
      ensures Handled(SetPolicy(old(View()), signer, agent, limits), r, View())
    {
      var _ :- RequireOwner(signer, agent);
      :- Require(|limits.allowed| <= MAX_DOMAIN_ENTRIES, DomainListFull);
      :- Require(|limits.blocked| <= MAX_DOMAIN_ENTRIES, DomainListFull);
      var policy := LoadPolicyOrInit(agent);
      FillPolicy(policy, agent, limits, now);
      policies := policies[agent := policy.View()];
      return Ok(());
    }

    method SetAgentActive(signer: Address, agent: AgentId, active: bool) returns (r: Result<(), Error>)
      modifies this
      ensures Handled(ChangeActive(old(View()), signer, agent, active), r, View())
    {
      var wallet :- RequireOwner(signer, agent);
      wallet.isActive := active;
      wallets := wallets[agent := wallet.View()];
      return Ok(());
    }

    method SetAgentFrozen(signer: Address, agent: AgentId, frozen: bool) returns (r: Result<(), Error>)
      modifies this
      ensures Handled(ChangeFrozen(old(View()), signer, agent, frozen), r, View())
    {
      r := Ok(());
      :- Require(signer.Key?, MissingSignature);
      :- Require(config.Some? && agent in wallets, AccountMissing);
      :- Require(config.value.admin == signer, Unauthorized);
      var wallet := new AgentWallet(wallets[agent]);
      wallet.isFrozen := frozen;
      wallets := wallets[agent := wallet.View()];
    }

    method TransferOwnership(signer: Address, agent: AgentId, newOwner: Address) returns (r: Result<(), Error>)
      modifies this
      ensures Handled(ChangeOwner(old(View()), signer, agent, newOwner), r, View())
    {
      var wallet :- RequireOwner(signer, agent);
      :- Require(newOwner != DefaultKey, InvalidOwner);
      :- Require(newOwner != wallet.owner, OwnerUnchanged);
      wallet.owner := newOwner;
      wallets := wallets[agent := wallet.View()];
      return Ok(());
    }

    method CloseAgent(signer: Address, agent: AgentId, mint: Address) returns (r: Result<(), Error>)
      modifies this
      ensures Handled(Close(old(View()), signer, agent, mint), r, View())
    {
      var ata := AgentAta(agent, mint);
      :- Require(signer.Key?, MissingSignature);
      :- Require(agent in wallets && agent in policies && ata in tokens, AccountMissing);
      :- Require(wallets[agent].owner == signer, Unauthorized);
      :- Require(!wallets[agent].isActive, AgentStillActive);
      :- Require(tokens[ata].amount == 0, TokenAccountNotEmpty);
      wallets := wallets - {agent};
      policies := policies - {agent};
      return Ok(());
    }

    // ----- Withdrawals -----

    method WithdrawFunds(signer: Address, agent: AgentId, mint: Address, amount: U64) returns (r: Result<(), Error>)
      modifies this
      ensures Handled(Withdraw(old(View()), signer, agent, mint, amount), r, View())
    {
      var ata, dest := AgentAta(agent, mint), Ata(signer, mint);
      :- Require(signer.Key?, MissingSignature);
      :- Require(agent in wallets && ata in tokens && dest in tokens, AccountMissing);
      :- Require(wallets[agent].owner == signer, Unauthorized);
      :- Require(amount > 0, ZeroPaymentAmount);
      :- Require(tokens[ata].amount >= amount, InsufficientFunds);
      var _ :- TransferTokens(ata, dest, amount);
      return Ok(());
    }

    method WithdrawAll(signer: Address, agent: AgentId, mint: Address) returns (r: Result<(), Error>)
      modifies this
      ensures Handled(WithdrawEverything(old(View()), signer, agent, mint), r, View())
    {
      var ata, dest := AgentAta(agent, mint), Ata(signer, mint);
      :- Require(signer.Key?, MissingSignature);
      :- Require(agent in wallets && ata in tokens && dest in tokens, AccountMissing);
      :- Require(wallets[agent].owner == signer, Unauthorized);
      var amount := tokens[ata].amount;
      :- Require(amount > 0, ZeroPaymentAmount);
      var _ :- TransferTokens(ata, dest, amount);
      return Ok(());
    }

    // ----- Payments -----

    /** `init` of the record: the account exists, zeroed, before the handler runs. */
    method AllocateRecord(key: RecordKey)
      requires key.sequence <= U64_MAX
      modifies this`records
      ensures records == old(records)[key := Record(DefaultKey, 0, 0, DefaultKey, 0, X402, 0, false, None)]
    {
      records := records[key := Record(DefaultKey, 0, 0, DefaultKey, 0, X402, 0, false, None)];
    }

    /** Check the constraints of `settle_payment` and allocate the record. */
    method CheckSettlement(signer: Address, sequence: U64, agent: AgentId, mint: Address, payee: Address)
      returns (r: Result<(), Error>)
      modifies this`records
      ensures match r
              case Err(e) => SettlementAccounts(old(View()), signer, sequence, agent, mint, payee) == Err(e)
              case Ok(_) =>
                && agent in wallets && agent in policies && config.Some? && payee in tokens
                && SettlementAccounts(old(View()), signer, sequence, agent, mint, payee) == Ok(wallets[agent])
                && RecordKey(agent, sequence) in records
                && records == old(records)[RecordKey(agent, sequence) := records[RecordKey(agent, sequence)]]
    {
      var ata, key := AgentAta(agent, mint), RecordKey(agent, sequence);
      :- Require(signer.Key?, MissingSignature);
      :- Require(agent in wallets && agent in policies && config.Some? && ata in tokens && payee in tokens,
                 AccountMissing);
      :- Require(key !in records, AccountInUse);
      AllocateRecord(key);
      :- Require(wallets[agent].owner == signer, Unauthorized);
      :- Require(policies[agent].agentWallet == WalletPda(agent), ConstraintRaw);
      return Ok(());
    }

    /** The transfer, the bookkeeping, and the write-back of the loaded accounts and the finished record. */
    method FinishSettlement(wallet: AgentWallet, policy: SpendPolicy, sequence: U64, params: Payment, mint: Address,
                            payee: Address, ghost before: State)
      returns (r: Result<(), Error>)
      requires payee in tokens && FromDiscriminant(params.protocol).Some?
      requires before == View().(records := before.records)
      requires var key := RecordKey(params.agentId, sequence);
               key in records && records == before.records[key := records[key]]
      modifies this, wallet
      ensures Handled(Complete(before, sequence, params, mint, payee, old(wallet.View()), old(policy.View())), r,
                      View())
    {
      var agent := params.agentId;
      var key := RecordKey(agent, sequence);
      var payeeOwner := tokens[payee].owner;
      var _ :- TransferTokens(AgentAta(agent, mint), payee, params.amount);
      BookPayment(wallet, params.amount, now);
      var protocol := FromDiscriminant(params.protocol).value;
      records := records[key := Record(WalletPda(agent), sequence, params.endpointHash, payeeOwner, params.amount,
                                       protocol, now, true, params.parentPayment)];
      assert records == before.records[key := records[key]];
      wallets := wallets[agent := wallet.View()];
      policies := policies[agent := policy.View()];
      return Ok(());
    }

    /** The body of `settle_payment` on the loaded accounts. */
    method ConcludeSettlement(cap: U64, wallet: AgentWallet, policy: SpendPolicy, sequence: U64, params: Payment,
                              mint: Address, payee: Address, ghost before: State)
      returns (r: Result<(), Error>)
      requires payee in tokens
      requires before == View().(records := before.records)
      requires var key := RecordKey(params.agentId, sequence);
               key in records && records == before.records[key := records[key]]
      modifies this, wallet, policy
      ensures Handled(Conclude(before, sequence, params, mint, payee, cap, old(wallet.View()), old(policy.View())), r,
                      View())
    {
      var _ :- ApprovePayment(cap, wallet, policy, sequence, params, now);
      r := FinishSettlement(wallet, policy, sequence, params, mint, payee, before);
    }

    /** Load the wallet and the policy, and settle on them. */
    method LoadAndConclude(sequence: U64, params: Payment, mint: Address, payee: Address, ghost before: State)
      returns (r: Result<(), Error>)
      requires params.agentId in wallets && params.agentId in policies && config.Some? && payee in tokens
      requires before == View().(records := before.records)
      requires var key := RecordKey(params.agentId, sequence);
               key in records && records == before.records[key := records[key]]
      modifies this
      ensures Handled(Conclude(before, sequence, params, mint, payee, before.config.value.maxSinglePaymentUsdc,
                               before.wallets[params.agentId], before.policies[params.agentId]), r, View())
    {
      var wallet := new AgentWallet(wallets[params.agentId]);
      var policy := new SpendPolicy(policies[params.agentId]);
      r := ConcludeSettlement(config.value.maxSinglePaymentUsdc, wallet, policy, sequence, params, mint, payee, before);
    }

    method SettlePayment(signer: Address, sequence: U64, params: Payment, mint: Address, payee: Address)
      returns (r: Result<(), Error>)
      modifies this
      ensures Handled(Settle(old(View()), signer, sequence, params, mint, payee), r, View())
    {
      var _ :- CheckSettlement(signer, sequence, params.agentId, mint, payee);
      r := LoadAndConclude(sequence, params, mint, payee, old(View()));
    }

    /** Check the constraints of `record_policy_violation` and allocate the record. */
    method CheckViolation(signer: Address, sequence: U64, agent: AgentId) returns (r: Result<(), Error>)
      modifies this`records
      ensures var key := RecordKey(agent, sequence);
              match r
              case Err(e) => OwnedWallet(old(View()), signer, agent, true, key !in old(records)) == Err(e)
              case Ok(_) =>
                && agent in wallets
                && OwnedWallet(old(View()), signer, agent, true, key !in old(records)) == Ok(wallets[agent])
                && key in records && records == old(records)[key := records[key]]
    {
      var key := RecordKey(agent, sequence);
      :- Require(signer.Key?, MissingSignature);
      :- Require(agent in wallets, AccountMissing);
      :- Require(key !in records, AccountInUse);
      AllocateRecord(key);
      :- Require(wallets[agent].owner == signer, Unauthorized);
      return Ok(());
    }

    method RecordPolicyViolation(signer: Address, sequence: U64, params: Payment) returns (r: Result<(), Error>)
      modifies this
      ensures Handled(RecordViolation(old(View()), signer, sequence, params), r, View())
    {
      var agent := params.agentId;
      var key := RecordKey(agent, sequence);
      var _ :- CheckViolation(signer, sequence, agent);
      var wallet := new AgentWallet(wallets[agent]);
      :- Require(FromDiscriminant(params.protocol).Some?, InvalidProtocol);
      :- Require(sequence == wallet.paymentSequence, SequenceMismatch);
      wallet.paymentSequence := SaturatingAdd64(wallet.paymentSequence, 1);
      wallet.totalPayments := SaturatingAdd64(wallet.totalPayments, 1);

      var protocol := FromDiscriminant(params.protocol).value;
      records := records[key := Record(WalletPda(agent), sequence, params.endpointHash, DefaultKey, params.amount,
                                       protocol, now, false, None)];
      wallets := wallets[agent := wallet.View()];
      assert records == old(records)[key := records[key]];
      return Ok(());
    }

    // ----- The runtime -----

    method Dispatch(signer: Address, instruction: Instruction) returns (r: Result<(), Error>)
      modifies this
      ensures Handled(Execute(old(View()), signer, instruction), r, View())
    {
      match instruction
      case InitProtocol(admin) => r := InitProtocol(signer, admin);
      case RotateProtocolAdmin(newAdmin) => r := RotateProtocolAdmin(signer, newAdmin);
      case UpdateProtocolConfig(cap) => r := UpdateProtocolConfig(signer, cap);
      case RegisterAgent(agent, mint) => r := RegisterAgent(signer, agent, mint);
      case SetSpendPolicy(agent, limits) => r := SetSpendPolicy(signer, agent, limits);
      case SettlePayment(sequence, payment, mint, payee) => r := SettlePayment(signer, sequence, payment, mint, payee);
      case RecordPolicyViolation(sequence, payment) => r := RecordPolicyViolation(signer, sequence, payment);
      case SetActive(agent, active) => r := SetAgentActive(signer, agent, active);
      case SetFrozen(agent, frozen) => r := SetAgentFrozen(signer, agent, frozen);
      case WithdrawFunds(agent, mint, amount) => r := WithdrawFunds(signer, agent, mint, amount);
      case WithdrawAll(agent, mint) => r := WithdrawAll(signer, agent, mint);
      case TransferOwnership(agent, newOwner) => r := TransferOwnership(signer, agent, newOwner);
      case CloseAgent(agent, mint) => r := CloseAgent(signer, agent, mint);
    }

    /** One transaction: whatever an aborted handler had already written is undone. */
    method Process(signer: Address, instruction: Instruction) returns (r: Result<(), Error>)
      modifies this
      ensures View() == OrRollBack(old(View()), Execute(old(View()), signer, instruction))
      ensures match r
              case Ok(_) => Execute(old(View()), signer, instruction).Ok?
              case Err(e) => Execute(old(View()), signer, instruction) == Err(e) && View() == old(View())
    {
      var saved := View();
      r := Dispatch(signer, instruction);
      if r.Err? {
        Restore(saved);
      }
    }

    method Restore(saved: State)
      modifies this
      ensures View() == saved
    {
      now, config, wallets, policies := saved.now, saved.config, saved.wallets, saved.policies;
      tokens, supply, records := saved.tokens, saved.supply, saved.records;
    }
  }
}
