/** The accounts the program reads and writes, as values. */
module Accounts {
  import opened Numbers
  import opened Results

  /** The UTF-8 bytes of an agent identifier. */
  type AgentId = seq<U8>

  /** A SHA-256 digest; only ever compared for equality. */
  type Hash = nat

  /**
    An account address. Program-derived addresses are constructors, so they are
    injective in their seeds and disjoint from keypairs. Only a `Key` can sign.
  */
  datatype Address =
    | DefaultKey
    | Key(id: nat)
    | WalletPda(agent: AgentId)
    | Ata(authority: Address, mint: Address)
    | Other(id: nat)

  /** The three accounting windows of a wallet. */
  datatype Span = Daily | Weekly | Monthly

  const SECONDS_PER_DAY: int := 86_400
  const SECONDS_PER_WEEK: int := 604_800
  const SECONDS_PER_MONTH: int := 2_592_000

  function Period(span: Span): (seconds: int)
    ensures 0 < seconds <= U32_MAX
  {
    match span
    case Daily => SECONDS_PER_DAY
    case Weekly => SECONDS_PER_WEEK
    case Monthly => SECONDS_PER_MONTH
  }

  /** One accumulator: the spend so far, and when its window began. */
  datatype Window = Window(spend: U64, start: I64)

  datatype Wallet = Wallet(
    agentId: AgentId,
    owner: Address,
    usdcTokenAccount: Address,
    daily: Window,
    weekly: Window,
    monthly: Window,
    paymentSequence: U64,
    totalPayments: U64,
    totalVolume: U64,
    lastPaymentAt: I64,
    isActive: bool,
    isFrozen: bool)
  {
    function Of(span: Span): Window {
      match span
      case Daily => daily
      case Weekly => weekly
      case Monthly => monthly
    }
  }

  /** The settings an owner passes to `set_spend_policy`. */
  datatype Limits = Limits(
    dailyBudget: U64,
    weeklyBudget: U64,
    monthlyBudget: U64,
    perCallLimit: U64,
    rateLimitCalls: U32,
    rateLimitWindowSecs: U32,
    highValueThreshold: U64,
    allowed: seq<Hash>,
    blocked: seq<Hash>)
  {
    function Budget(span: Span): U64 {
      match span
      case Daily => dailyBudget
      case Weekly => weeklyBudget
      case Monthly => monthlyBudget
    }

    /** Is a payment of this amount checked on-chain at all? Threshold zero means never. */
    predicate Enforces(amount: U64) {
      highValueThreshold > 0 && amount >= highValueThreshold
    }
  }

  datatype Policy = Policy(
    agentWallet: Address,
    limits: Limits,
    rateLimitCallCount: U32,
    rateLimitWindowStart: I64)

  datatype Config = Config(admin: Address, version: U8, maxSinglePaymentUsdc: U64)

  datatype TokenAccount = TokenAccount(mint: Address, owner: Address, amount: U64)

  type Tokens = map<Address, TokenAccount>

  datatype Protocol = X402 | Mpp

  function FromDiscriminant(v: U8): Option<Protocol> {
    match v
    case 0 => Some(X402)
    case 1 => Some(Mpp)
    case _ => None
  }

  /** Arguments of `settle_payment` and `record_policy_violation`. */
  datatype Payment = Payment(
    agentId: AgentId,
    endpointHash: Hash,
    domainHash: Hash,
    amount: U64,
    protocol: U8,
    parentPayment: Option<Address>)

  /** The seeds of a payment record's address. */
  datatype RecordKey = RecordKey(agent: AgentId, sequence: nat)

  datatype Record = Record(
    agentWallet: Address,
    sequence: U64,
    endpointHash: Hash,
    payee: Address,
    amount: U64,
    protocol: Protocol,
    settledAt: I64,
    policyPassed: bool,
    parentPayment: Option<Address>)

  type Records = map<RecordKey, Record>

  datatype Error =
    // raised by the program
    | AgentIdTooLong
    | InvalidAgentId
    | AgentNotActive
    | AgentFrozen
    | Unauthorized
    | ZeroPaymentAmount
    | InvalidProtocol
    | BudgetExceeded(span: Span)
    | PerCallLimitExceeded
    | RateLimitExceeded
    | DomainNotAllowed
    | DomainBlocked
    | DomainListFull
    | InvalidOwner
    | OwnerUnchanged
    | InsufficientFunds
    | AgentStillActive
    | TokenAccountNotEmpty
    | SequenceMismatch
    | GlobalPaymentCapExceeded
    // raised by the runtime, the account constraints and the token program
    | MissingSignature
    | AccountMissing
    | AccountInUse
    | ConstraintRaw
    | ArithmeticOverflow
    | TokenBalanceTooLow
    | TokenMintMismatch
    | TokenOverflow
    // an environment step that cannot happen
    | Impossible
}
