/**
  The settlement program as a state machine. `Apply` says, for every
  instruction, either which new state it commits or the first error it aborts
  with; `Next` adds the runtime's rule that an aborted instruction leaves no trace.
*/
module Machine {
  import opened Numbers
  import opened Results
  import opened Accounts
  import opened Windows
  import opened TokenProgram

  const MAX_AGENT_ID_LEN: nat := 64
  const MAX_DOMAIN_ENTRIES: nat := 32
  const PROGRAM_VERSION: U8 := 2

  /** The clock stays far enough from the 64-bit limit for one more 32-bit window. */
  const MAX_CLOCK: int := I64_MAX - U32_MAX

  datatype State = State(
    now: I64,
    config: Option<Config>,
    wallets: map<AgentId, Wallet>,
    policies: map<AgentId, Policy>,
    tokens: Tokens,
    supply: map<Address, U64>,
    records: Records)

  datatype Instruction =
    | InitProtocol(admin: Address)
    | RotateProtocolAdmin(newAdmin: Address)
    | UpdateProtocolConfig(cap: U64)
    | RegisterAgent(agent: AgentId, mint: Address)
    | SetSpendPolicy(agent: AgentId, limits: Limits)
    | SettlePayment(sequence: U64, payment: Payment, mint: Address, payee: Address)
    | RecordPolicyViolation(sequence: U64, payment: Payment)
    | SetActive(agent: AgentId, active: bool)
    | SetFrozen(agent: AgentId, frozen: bool)
    | WithdrawFunds(agent: AgentId, mint: Address, amount: U64)
    | WithdrawAll(agent: AgentId, mint: Address)
    | TransferOwnership(agent: AgentId, newOwner: Address)
    | CloseAgent(agent: AgentId, mint: Address)

  /** An instruction of the program, or something that happens around it. */
  datatype Step =
    | Call(signer: Address, instruction: Instruction)
    | Tick(time: I64)
    | OpenAccount(at: Address, owner: Address, mint: Address)
    | Mint(to: Address, amount: U64)
    | Move(from: Address, to: Address, amount: U64)

  // ----- Account constraints -----

  /**
    Constraints shared by the owner's instructions: a signature, every account
    present, every account to be created vacant, and the signer the owner.
  */
  function OwnedWallet(s: State, signer: Address, agent: AgentId, present: bool := true, vacant: bool := true)
    : Result<Wallet, Error>
  {
    if !signer.Key? then Err(MissingSignature) else
    if agent !in s.wallets || !present then Err(AccountMissing) else
    if !vacant then Err(AccountInUse) else
    if s.wallets[agent].owner != signer then Err(Unauthorized) else
    Ok(s.wallets[agent])
  }

  /** Constraints shared by the admin's instructions. */
  function AdminConfig(s: State, signer: Address, present: bool := true): Result<Config, Error> {
    if !signer.Key? then Err(MissingSignature) else
    if s.config.None? || !present then Err(AccountMissing) else
    if s.config.value.admin != signer then Err(Unauthorized) else
    Ok(s.config.value)
  }

  function AgentAta(agent: AgentId, mint: Address): Address {
    Ata(WalletPda(agent), mint)
  }

  // ----- Configuration -----

  function Init(s: State, signer: Address, admin: Address): Result<State, Error> {
    if !signer.Key? then Err(MissingSignature) else
    if s.config.Some? then Err(AccountInUse) else
    if admin == DefaultKey then Err(InvalidOwner) else
    Ok(s.(config := Some(Config(admin, PROGRAM_VERSION, 0))))
  }

  function RotateAdmin(s: State, signer: Address, newAdmin: Address): Result<State, Error> {
    match AdminConfig(s, signer)
    case Err(e) => Err(e)
    case Ok(config) =>
      if newAdmin == DefaultKey then Err(InvalidOwner) else
      Ok(s.(config := Some(config.(admin := newAdmin))))
  }

  function UpdateConfig(s: State, signer: Address, cap: U64): Result<State, Error> {
    match AdminConfig(s, signer)
    case Err(e) => Err(e)
    case Ok(config) =>
      Ok(s.(config := Some(config.(maxSinglePaymentUsdc := cap))))
  }

  // ----- Wallets and policies -----

  /** ASCII letters, digits, hyphen and underscore. */
  predicate IsIdByte(b: U8) {
    48 <= b <= 57 || 65 <= b <= 90 || 97 <= b <= 122 || b == 45 || b == 95
  }

  function NewWallet(agent: AgentId, owner: Address, mint: Address, now: I64): Wallet {
    Wallet(agent, owner, AgentAta(agent, mint), Window(0, now), Window(0, now), Window(0, now), 0, 0, 0, 0, true, false)
  }

  function Register(s: State, signer: Address, agent: AgentId, mint: Address): Result<State, Error> {
    var ata := AgentAta(agent, mint);
    if !signer.Key? then Err(MissingSignature) else
    if mint !in s.supply then Err(AccountMissing) else
    if agent in s.wallets || ata in s.tokens then Err(AccountInUse) else
    if agent == [] || |agent| > MAX_AGENT_ID_LEN then Err(AgentIdTooLong) else
    if exists i :: 0 <= i < |agent| && !IsIdByte(agent[i]) then Err(InvalidAgentId) else
    Ok(s.(wallets := s.wallets[agent := NewWallet(agent, signer, mint, s.now)],
          tokens := s.tokens[ata := TokenAccount(mint, WalletPda(agent), 0)]))
  }

  function SetPolicy(s: State, signer: Address, agent: AgentId, limits: Limits): Result<State, Error> {
    match OwnedWallet(s, signer, agent)
    case Err(e) => Err(e)
    case Ok(_) =>
      if |limits.allowed| > MAX_DOMAIN_ENTRIES then Err(DomainListFull) else
      if |limits.blocked| > MAX_DOMAIN_ENTRIES then Err(DomainListFull) else
      Ok(s.(policies := s.policies[agent := Policy(WalletPda(agent), limits, 0, s.now)]))
  }

  function ChangeActive(s: State, signer: Address, agent: AgentId, active: bool): Result<State, Error> {
    match OwnedWallet(s, signer, agent)
    case Err(e) => Err(e)
    case Ok(w) =>
      Ok(s.(wallets := s.wallets[agent := w.(isActive := active)]))
  }

  function ChangeFrozen(s: State, signer: Address, agent: AgentId, frozen: bool): Result<State, Error> {
    match AdminConfig(s, signer, agent in s.wallets)
    case Err(e) => Err(e)
    case Ok(_) =>
      Ok(s.(wallets := s.wallets[agent := s.wallets[agent].(isFrozen := frozen)]))
  }

  function ChangeOwner(s: State, signer: Address, agent: AgentId, newOwner: Address): Result<State, Error> {
    match OwnedWallet(s, signer, agent)
    case Err(e) => Err(e)
    case Ok(w) =>
      if newOwner == DefaultKey then Err(InvalidOwner) else
      if newOwner == w.owner then Err(OwnerUnchanged) else
      Ok(s.(wallets := s.wallets[agent := w.(owner := newOwner)]))
  }

  function Close(s: State, signer: Address, agent: AgentId, mint: Address): Result<State, Error> {
    var ata := AgentAta(agent, mint);
    match OwnedWallet(s, signer, agent, agent in s.policies && ata in s.tokens)
    case Err(e) => Err(e)
    case Ok(w) =>
      if w.isActive then Err(AgentStillActive) else
      if s.tokens[ata].amount != 0 then Err(TokenAccountNotEmpty) else
      Ok(s.(wallets := s.wallets - {agent}, policies := s.policies - {agent}))
  }

  // ----- Withdrawals -----

  function Withdraw(s: State, signer: Address, agent: AgentId, mint: Address, amount: U64): Result<State, Error> {
    var ata, dest := AgentAta(agent, mint), Ata(signer, mint);
    match OwnedWallet(s, signer, agent, ata in s.tokens && dest in s.tokens)
    case Err(e) => Err(e)
    case Ok(_) =>
      if amount == 0 then Err(ZeroPaymentAmount) else
      if s.tokens[ata].amount < amount then Err(InsufficientFunds) else
      match Transfer(s.tokens, ata, dest, amount)
      case Err(e) => Err(e)
      case Ok(tokens) => Ok(s.(tokens := tokens))
  }

  function WithdrawEverything(s: State, signer: Address, agent: AgentId, mint: Address): Result<State, Error> {
    var ata, dest := AgentAta(agent, mint), Ata(signer, mint);
    match OwnedWallet(s, signer, agent, ata in s.tokens && dest in s.tokens)
    case Err(e) => Err(e)
    case Ok(_) =>
      var amount := s.tokens[ata].amount;
      if amount == 0 then Err(ZeroPaymentAmount) else
      match Transfer(s.tokens, ata, dest, amount)
      case Err(e) => Err(e)
      case Ok(tokens) => Ok(s.(tokens := tokens))
  }

  // ----- Payments -----

  /** The on-chain policy checks, in order; the result is the policy with the call counted. */
  function Enforce(p: Policy, w: Wallet, payment: Payment, now: I64): Result<Policy, Error> {
    var limits, amount := p.limits, payment.amount;
    if !limits.Enforces(amount) then Ok(p) else
    if !WithinPerCallLimit(limits.perCallLimit, amount) then Err(PerCallLimitExceeded) else
    if !WithinBudget(limits.dailyBudget, w.daily.spend, amount) then Err(BudgetExceeded(Daily)) else
    if !WithinBudget(limits.weeklyBudget, w.weekly.spend, amount) then Err(BudgetExceeded(Weekly)) else
    if !WithinBudget(limits.monthlyBudget, w.monthly.spend, amount) then Err(BudgetExceeded(Monthly)) else
    match RollRateWindow(p, now)
    case Err(e) => Err(e)
    case Ok(rolled) =>
      if !WithinRateLimit(rolled) then Err(RateLimitExceeded) else
      if payment.domainHash in limits.blocked then Err(DomainBlocked) else
      if !DomainAdmitted(limits, payment.domainHash) then Err(DomainNotAllowed) else
      Ok(rolled.(rateLimitCallCount := SaturatingAdd32(rolled.rateLimitCallCount, 1)))
  }

  /** Everything `settle_payment` decides before the transfer: the rolled wallet and the counted policy. */
  function Approve(cap: U64, w: Wallet, p: Policy, sequence: U64, payment: Payment, now: I64)
    : Result<(Wallet, Policy), Error>
  {
    if payment.amount == 0 then Err(ZeroPaymentAmount) else
    if FromDiscriminant(payment.protocol).None? then Err(InvalidProtocol) else
    if sequence != w.paymentSequence then Err(SequenceMismatch) else
    if cap > 0 && payment.amount > cap then Err(GlobalPaymentCapExceeded) else
    if !w.isActive then Err(AgentNotActive) else
    if w.isFrozen then Err(AgentFrozen) else
    match RollWindows(w, now)
    case Err(e) => Err(e)
    case Ok(rolled) =>
      match Enforce(p, rolled, payment, now)
      case Err(e) => Err(e)
      case Ok(counted) => Ok((rolled, counted))
  }

  function Charge(w: Window, amount: U64): Window {
    w.(spend := SaturatingAdd64(w.spend, amount))
  }

  /** The wallet's books after a settlement of `amount`. */
  function Book(w: Wallet, amount: U64, now: I64): Wallet {
    w.(daily := Charge(w.daily, amount),
       weekly := Charge(w.weekly, amount),
       monthly := Charge(w.monthly, amount),
       totalVolume := SaturatingAdd64(w.totalVolume, amount),
       lastPaymentAt := now,
       paymentSequence := SaturatingAdd64(w.paymentSequence, 1),
       totalPayments := SaturatingAdd64(w.totalPayments, 1))
  }

  function SettlementRecord(payment: Payment, sequence: U64, payee: Address, protocol: Protocol, now: I64): Record {
    Record(WalletPda(payment.agentId), sequence, payment.endpointHash, payee, payment.amount,
           protocol, now, true, payment.parentPayment)
  }

  /** The account constraints of `settle_payment`. */
  function SettlementAccounts(s: State, signer: Address, sequence: U64, agent: AgentId, mint: Address, payee: Address)
    : Result<Wallet, Error>
  {
    var present := agent in s.policies && s.config.Some? && AgentAta(agent, mint) in s.tokens && payee in s.tokens;
    match OwnedWallet(s, signer, agent, present, RecordKey(agent, sequence) !in s.records)
    case Err(e) => Err(e)
    case Ok(w) =>
      if s.policies[agent].agentWallet != WalletPda(agent) then Err(ConstraintRaw) else
      Ok(w)
  }

  /** The transfer and the commit of an approved settlement. */
  function Complete(s: State, sequence: U64, payment: Payment, mint: Address, payee: Address, rolled: Wallet,
                    counted: Policy)
    : Result<State, Error>
    requires payee in s.tokens && FromDiscriminant(payment.protocol).Some?
  {
    var agent := payment.agentId;
    match Transfer(s.tokens, AgentAta(agent, mint), payee, payment.amount)
    case Err(e) => Err(e)
    case Ok(tokens) =>
      var r := SettlementRecord(payment, sequence, s.tokens[payee].owner, FromDiscriminant(payment.protocol).value,
                                s.now);
      Ok(s.(wallets := s.wallets[agent := Book(rolled, payment.amount, s.now)],
            policies := s.policies[agent := counted],
            tokens := tokens,
            records := s.records[RecordKey(agent, sequence) := r]))
  }

  /** The body of `settle_payment` on the accounts it was given. */
  function Conclude(s: State, sequence: U64, payment: Payment, mint: Address, payee: Address, cap: U64, w: Wallet,
                    p: Policy)
    : Result<State, Error>
    requires payee in s.tokens
  {
    match Approve(cap, w, p, sequence, payment, s.now)
    case Err(e) => Err(e)
    case Ok((rolled, counted)) => Complete(s, sequence, payment, mint, payee, rolled, counted)
  }

  function Settle(s: State, signer: Address, sequence: U64, payment: Payment, mint: Address, payee: Address)
    : Result<State, Error>
  {
    match SettlementAccounts(s, signer, sequence, payment.agentId, mint, payee)
    case Err(e) => Err(e)
    case Ok(w) =>
      Conclude(s, sequence, payment, mint, payee, s.config.value.maxSinglePaymentUsdc, w, s.policies[payment.agentId])
  }

  function ViolationRecord(payment: Payment, sequence: U64, protocol: Protocol, now: I64): Record {
    Record(WalletPda(payment.agentId), sequence, payment.endpointHash, DefaultKey, payment.amount,
           protocol, now, false, None)
  }

  function RecordViolation(s: State, signer: Address, sequence: U64, payment: Payment): Result<State, Error> {
    var agent := payment.agentId;
    var key := RecordKey(agent, sequence);
    match OwnedWallet(s, signer, agent, true, key !in s.records)
    case Err(e) => Err(e)
    case Ok(w) =>
      if FromDiscriminant(payment.protocol).None? then Err(InvalidProtocol) else
      if sequence != w.paymentSequence then Err(SequenceMismatch) else
      var protocol := FromDiscriminant(payment.protocol).value;
      var counted := w.(paymentSequence := SaturatingAdd64(w.paymentSequence, 1),
                        totalPayments := SaturatingAdd64(w.totalPayments, 1));
      Ok(s.(wallets := s.wallets[agent := counted],
            records := s.records[key := ViolationRecord(payment, sequence, protocol, s.now)]))
  }

  // ----- The machine -----

  function Execute(s: State, signer: Address, instruction: Instruction): Result<State, Error> {
    match instruction
    case InitProtocol(admin) => Init(s, signer, admin)
    case RotateProtocolAdmin(newAdmin) => RotateAdmin(s, signer, newAdmin)
    case UpdateProtocolConfig(cap) => UpdateConfig(s, signer, cap)
    case RegisterAgent(agent, mint) => Register(s, signer, agent, mint)
    case SetSpendPolicy(agent, limits) => SetPolicy(s, signer, agent, limits)
    case SettlePayment(sequence, payment, mint, payee) => Settle(s, signer, sequence, payment, mint, payee)
    case RecordPolicyViolation(sequence, payment) => RecordViolation(s, signer, sequence, payment)
    case SetActive(agent, active) => ChangeActive(s, signer, agent, active)
    case SetFrozen(agent, frozen) => ChangeFrozen(s, signer, agent, frozen)
    case WithdrawFunds(agent, mint, amount) => Withdraw(s, signer, agent, mint, amount)
    case WithdrawAll(agent, mint) => WithdrawEverything(s, signer, agent, mint)
    case TransferOwnership(agent, newOwner) => ChangeOwner(s, signer, agent, newOwner)
    case CloseAgent(agent, mint) => Close(s, signer, agent, mint)
  }

  /** What the outside world does: time passes, and people open accounts, mint tokens and move their own. */
  function Environment(s: State, step: Step): Result<State, Error>
    requires !step.Call?
  {
    match step
    case Tick(time) =>
      if time < s.now || time > MAX_CLOCK then Err(Impossible) else
      Ok(s.(now := time))
    case OpenAccount(at, owner, mint) =>
      if at in s.tokens || mint !in s.supply || (at != Ata(owner, mint) && !at.Other?) then Err(Impossible) else
      Ok(s.(tokens := s.tokens[at := TokenAccount(mint, owner, 0)]))
    case Mint(to, amount) =>
      if to !in s.tokens || s.tokens[to].mint !in s.supply then Err(Impossible) else
      var a := s.tokens[to];
      if s.supply[a.mint] + amount > U64_MAX || a.amount + amount > U64_MAX then Err(Impossible) else
      Ok(s.(tokens := s.tokens[to := a.(amount := a.amount + amount)],
            supply := s.supply[a.mint := s.supply[a.mint] + amount]))
    case Move(from, to, amount) =>
      if from !in s.tokens || s.tokens[from].owner.WalletPda? then Err(Impossible) else
      match Transfer(s.tokens, from, to, amount)
      case Err(e) => Err(e)
      case Ok(tokens) => Ok(s.(tokens := tokens))
  }

  function Apply(s: State, step: Step): Result<State, Error> {
    if step.Call? then Execute(s, step.signer, step.instruction) else Environment(s, step)
  }

  /** The runtime rolls an aborted step back. */
  function OrRollBack(s: State, result: Result<State, Error>): State {
    match result
    case Ok(s') => s'
    case Err(_) => s
  }

  function Next(s: State, step: Step): State {
    OrRollBack(s, Apply(s, step))
  }

  predicate Applies(s: State, step: Step) {
    Apply(s, step).Ok?
  }
}
