/**
  What each instruction asks for and what it does, to the unit: it succeeds if and
  only if the conditions stated here hold, and then changes what is stated here
  and nothing else.
*/
module Acceptance {
  import opened Numbers
  import opened Results
  import opened Accounts
  import opened TokenProgram
  import opened Machine
  import opened Runs
  import opened Reachable
  import opened Refinement
  import opened Conservation
  import opened Safety

  /** The owner of the agent's wallet has signed. */
  predicate OwnerSigns(s: State, signer: Address, agent: AgentId) {
    signer.Key? && agent in s.wallets && s.wallets[agent].owner == signer
  }

  /** The protocol admin has signed. */
  predicate AdminSigns(s: State, signer: Address) {
    signer.Key? && s.config.Some? && s.config.value.admin == signer
  }

  /** Somebody else has signed for the agent. */
  predicate StrangerSigns(s: State, signer: Address, agent: AgentId) {
    signer.Key? && agent in s.wallets && s.wallets[agent].owner != signer
  }

  /** Only this agent's wallet differs. */
  ghost predicate OnlyWallet(s: State, s': State, agent: AgentId) {
    && s' == s.(wallets := s'.wallets)
    && agent in s'.wallets && s'.wallets == s.wallets[agent := s'.wallets[agent]]
  }

  /** A day, a week, and a month of thirty days. */
  lemma Periods()
    ensures Period(Daily) == 24 * 60 * 60
    ensures Period(Weekly) == 7 * 24 * 60 * 60
    ensures Period(Monthly) == 30 * 24 * 60 * 60
  {
  }

  // ----- Instructions that are not asked for properly -----

  /** Only an address that can sign gets anywhere. */
  lemma UnsignedIsRefused(s: State, signer: Address, i: Instruction)
    requires !signer.Key?
    ensures Execute(s, signer, i) == Err(MissingSignature)
  {
  }

  /** Without a wallet, every instruction that needs its owner misses an account. */
  lemma WalletIsMissing(s: State, signer: Address, i: Instruction)
    requires signer.Key? && Controls(i).Some? && Controls(i).value !in s.wallets
    ensures Execute(s, signer, i) == Err(AccountMissing)
  {
  }

  /** A record number that is taken is refused, whoever the signer, if every account is there. */
  lemma NumberIsTaken(s: State, signer: Address, i: Instruction)
    requires signer.Key? && (i.SettlePayment? || i.RecordPolicyViolation?) && i.payment.agentId in s.wallets
    requires RecordKey(i.payment.agentId, i.sequence) in s.records
    requires i.SettlePayment? ==>
               && i.payment.agentId in s.policies && s.config.Some?
               && Ata(WalletPda(i.payment.agentId), i.mint) in s.tokens && i.payee in s.tokens
    ensures Execute(s, signer, i) == Err(AccountInUse)
  {
  }

  // ----- Configuration -----

  lemma InitSucceedsIff(s: State, signer: Address, admin: Address)
    ensures var result := Execute(s, signer, InitProtocol(admin));
            && (result.Ok? <==> signer.Key? && s.config.None? && admin != DefaultKey)
            && (result == Err(AccountInUse) <==> signer.Key? && s.config.Some?)
            && (result == Err(InvalidOwner) <==> signer.Key? && s.config.None? && admin == DefaultKey)
            && (result.Ok? ==>
                  var s' := result.value;
                  && s'.(config := None) == s && s'.config.Some?
                  && s'.config.value.admin == admin && s'.config.value.version == 2
                  && s'.config.value.maxSinglePaymentUsdc == 0)
  {
  }

  lemma RotateSucceedsIff(s: State, signer: Address, newAdmin: Address)
    ensures var result := Execute(s, signer, RotateProtocolAdmin(newAdmin));
            && (result.Ok? <==> AdminSigns(s, signer) && newAdmin != DefaultKey)
            && (result == Err(InvalidOwner) <==> AdminSigns(s, signer) && newAdmin == DefaultKey)
            && (result == Err(Unauthorized) <==> signer.Key? && s.config.Some? && s.config.value.admin != signer)
            && (result.Ok? ==>
                  var s' := result.value;
                  && s'.(config := s.config) == s && s'.config.Some?
                  && s'.config.value.admin == newAdmin && s'.config.value.version == s.config.value.version
                  && s'.config.value.maxSinglePaymentUsdc == s.config.value.maxSinglePaymentUsdc)
  {
  }

  lemma UpdateConfigSucceedsIff(s: State, signer: Address, cap: U64)
    ensures var result := Execute(s, signer, UpdateProtocolConfig(cap));
            && (result.Ok? <==> AdminSigns(s, signer))
            && (result == Err(Unauthorized) <==> signer.Key? && s.config.Some? && s.config.value.admin != signer)
            && (result.Ok? ==>
                  var s' := result.value;
                  && s'.(config := s.config) == s && s'.config.Some?
                  && s'.config.value.admin == signer && s'.config.value.version == s.config.value.version
                  && s'.config.value.maxSinglePaymentUsdc == cap)
  {
  }

  // ----- Wallets and policies -----

  /** Is this the byte of a letter, a digit, a hyphen or an underscore? */
  predicate IdCharacter(b: U8) {
    var c := b as char;
    'a' <= c <= 'z' || 'A' <= c <= 'Z' || '0' <= c <= '9' || c == '-' || c == '_'
  }

  lemma IdCharacters(b: U8)
    ensures IsIdByte(b) <==> IdCharacter(b)
  {
  }

  lemma {:induction false} RegisterSucceedsIff(s: State, signer: Address, agent: AgentId, mint: Address)
    ensures var ata := Ata(WalletPda(agent), mint);
            var result := Execute(s, signer, RegisterAgent(agent, mint));
            var asked := signer.Key? && mint in s.supply && agent !in s.wallets && ata !in s.tokens;
            var legible := forall i :: 0 <= i < |agent| ==> IdCharacter(agent[i]);
            && (result.Ok? <==> asked && 1 <= |agent| <= 64 && legible)
            && (result == Err(AgentIdTooLong) <==> asked && (|agent| == 0 || |agent| > 64))
            && (result == Err(InvalidAgentId) <==> asked && 1 <= |agent| <= 64 && !legible)
            && (result.Ok? ==>
                  var s' := result.value;
                  && s' == s.(wallets := s'.wallets, tokens := s.tokens[ata := TokenAccount(mint, WalletPda(agent), 0)])
                  && agent in s'.wallets && s'.wallets == s.wallets[agent := s'.wallets[agent]]
                  && var w := s'.wallets[agent];
                     && w.agentId == agent && w.owner == signer && w.usdcTokenAccount == ata
                     && (forall span :: w.Of(span).spend == 0 && w.Of(span).start == s.now)
                     && w.paymentSequence == w.totalPayments == w.totalVolume == w.lastPaymentAt == 0
                     && w.isActive && !w.isFrozen)
  {
    forall i | 0 <= i < |agent| ensures IsIdByte(agent[i]) <==> IdCharacter(agent[i]) {
      IdCharacters(agent[i]);
    }
  }

  /** A first policy or an update: the settings are the argument, and the limiter starts afresh. */
  lemma SetPolicySucceedsIff(s: State, signer: Address, agent: AgentId, limits: Limits)
    ensures var result := Execute(s, signer, SetSpendPolicy(agent, limits));
            && (result.Ok? <==> OwnerSigns(s, signer, agent) && |limits.allowed| <= 32 && |limits.blocked| <= 32)
            && (result == Err(DomainListFull) <==>
                  OwnerSigns(s, signer, agent) && (|limits.allowed| > 32 || |limits.blocked| > 32))
            && (result == Err(Unauthorized) <==> StrangerSigns(s, signer, agent))
            && (result.Ok? ==>
                  var s' := result.value;
                  && s' == s.(policies := s'.policies)
                  && agent in s'.policies && s'.policies == s.policies[agent := s'.policies[agent]]
                  && var p := s'.policies[agent];
                     && p.agentWallet == WalletPda(agent) && p.limits == limits
                     && p.rateLimitCallCount == 0 && p.rateLimitWindowStart == s.now)
  {
  }

  lemma SetActiveSucceedsIff(s: State, signer: Address, agent: AgentId, active: bool)
    ensures var result := Execute(s, signer, SetActive(agent, active));
            && (result.Ok? <==> OwnerSigns(s, signer, agent))
            && (result == Err(Unauthorized) <==> StrangerSigns(s, signer, agent))
            && (result.Ok? ==>
                  && OnlyWallet(s, result.value, agent)
                  && result.value.wallets[agent].isActive == active
                  && result.value.wallets[agent].(isActive := s.wallets[agent].isActive) == s.wallets[agent])
  {
  }

  lemma SetFrozenSucceedsIff(s: State, signer: Address, agent: AgentId, frozen: bool)
    ensures var result := Execute(s, signer, SetFrozen(agent, frozen));
            && (result.Ok? <==> AdminSigns(s, signer) && agent in s.wallets)
            && (result == Err(Unauthorized) <==>
                  signer.Key? && s.config.Some? && agent in s.wallets && s.config.value.admin != signer)
            && (result.Ok? ==>
                  && OnlyWallet(s, result.value, agent)
                  && result.value.wallets[agent].isFrozen == frozen
                  && result.value.wallets[agent].(isFrozen := s.wallets[agent].isFrozen) == s.wallets[agent])
  {
  }

  /** Any owner but the present one and the default address. */
  lemma TransferOwnershipSucceedsIff(s: State, signer: Address, agent: AgentId, newOwner: Address)
    ensures var result := Execute(s, signer, TransferOwnership(agent, newOwner));
            && (result.Ok? <==> OwnerSigns(s, signer, agent) && newOwner != DefaultKey && newOwner != signer)
            && (result == Err(InvalidOwner) <==> OwnerSigns(s, signer, agent) && newOwner == DefaultKey)
            && (result == Err(OwnerUnchanged) <==> OwnerSigns(s, signer, agent) && newOwner == signer)
            && (result == Err(Unauthorized) <==> StrangerSigns(s, signer, agent))
            && (result.Ok? ==>
                  && OnlyWallet(s, result.value, agent)
                  && result.value.wallets[agent].owner == newOwner
                  && result.value.wallets[agent].(owner := signer) == s.wallets[agent])
  {
  }

  /** Closing needs the wallet switched off and the named account empty. */
  lemma CloseSucceedsIff(s: State, signer: Address, agent: AgentId, mint: Address)
    ensures var ata := Ata(WalletPda(agent), mint);
            var result := Execute(s, signer, CloseAgent(agent, mint));
            var asked := OwnerSigns(s, signer, agent) && agent in s.policies && ata in s.tokens;
            && (result == Err(Unauthorized) <==>
                  StrangerSigns(s, signer, agent) && agent in s.policies && ata in s.tokens)
            && (result.Ok? <==> asked && !s.wallets[agent].isActive && s.tokens[ata].amount == 0)
            && (result == Err(AgentStillActive) <==> asked && s.wallets[agent].isActive)
            && (result == Err(TokenAccountNotEmpty) <==>
                  asked && !s.wallets[agent].isActive && s.tokens[ata].amount > 0)
            && (result.Ok? ==>
                  var s' := result.value;
                  && s' == s.(wallets := s'.wallets, policies := s'.policies)
                  && agent !in s'.wallets && s'.wallets == s.wallets - {agent}
                  && agent !in s'.policies && s'.policies == s.policies - {agent})
  {
  }

  // ----- Withdrawals -----

  /** Where supplies are 64-bit, two accounts of one mint can always be joined. */
  lemma NoTokenOverflow(s: State, from: Address, to: Address)
    requires TokensSound(s) && from in s.tokens && to in s.tokens && from != to
    requires s.tokens[from].mint == s.tokens[to].mint
    ensures s.tokens[from].amount + s.tokens[to].amount <= U64_MAX
  {
    HeldCovers(s.tokens, s.tokens[from].mint, from, to);
  }

  /** So a transfer between accounts of one mint goes through if and only if it is covered. */
  lemma CoveredSucceedsIff(s: State, from: Address, to: Address, amount: U64)
    requires TokensSound(s)
    ensures Transfer(s.tokens, from, to, amount).Ok?
            <==> && from in s.tokens && to in s.tokens && s.tokens[from].mint == s.tokens[to].mint
                 && amount <= s.tokens[from].amount
  {
    TransferSucceedsIff(s.tokens, from, to, amount);
    if from in s.tokens && to in s.tokens && from != to && s.tokens[from].mint == s.tokens[to].mint {
      NoTokenOverflow(s, from, to);
    }
  }

  /** A state in which nothing but an amount of tokens has moved. */
  ghost predicate OnlyMoves(s: State, s': State, from: Address, to: Address, amount: U64) {
    s' == s.(tokens := s'.tokens) && Moves(s.tokens, s'.tokens, from, to, amount)
  }

  lemma {:induction false} WithdrawalIff(s: State, signer: Address, agent: AgentId, mint: Address, amount: U64)
    requires TokensSound(s)
    ensures var from, to := Ata(WalletPda(agent), mint), Ata(signer, mint);
            var result := Withdraw(s, signer, agent, mint, amount);
            var asked := OwnerSigns(s, signer, agent) && from in s.tokens && to in s.tokens;
            && (result == Err(Unauthorized) <==>
                  StrangerSigns(s, signer, agent) && from in s.tokens && to in s.tokens)
            && (result.Ok? <==> asked && 0 < amount <= s.tokens[from].amount)
            && (result == Err(ZeroPaymentAmount) <==> asked && amount == 0)
            && (result == Err(InsufficientFunds) <==> asked && amount > s.tokens[from].amount)
            && (result.Ok? ==> OnlyMoves(s, result.value, from, to, amount))
  {
    var from, to := Ata(WalletPda(agent), mint), Ata(signer, mint);
    CoveredSucceedsIff(s, from, to, amount);
    TransferSucceedsIff(s.tokens, from, to, amount);
  }

  lemma {:induction false} WithdrawalOfAllIff(s: State, signer: Address, agent: AgentId, mint: Address)
    requires TokensSound(s)
    ensures var from, to := Ata(WalletPda(agent), mint), Ata(signer, mint);
            var result := WithdrawEverything(s, signer, agent, mint);
            var asked := OwnerSigns(s, signer, agent) && from in s.tokens && to in s.tokens;
            && (result == Err(Unauthorized) <==>
                  StrangerSigns(s, signer, agent) && from in s.tokens && to in s.tokens)
            && (result.Ok? <==> asked && s.tokens[from].amount > 0)
            && (result == Err(ZeroPaymentAmount) <==> asked && s.tokens[from].amount == 0)
            && (result.Ok? ==> OnlyMoves(s, result.value, from, to, s.tokens[from].amount))
  {
    var from, to := Ata(WalletPda(agent), mint), Ata(signer, mint);
    CoveredSucceedsIff(s, from, to, Balance(s.tokens, from));
    TransferSucceedsIff(s.tokens, from, to, Balance(s.tokens, from));
  }

  /**
    In every reachable state, whatever the flags, the owner can withdraw any
    positive amount the agent's account covers, and that amount goes to the owner's
    own account of the same mint.
  */
  lemma {:induction false} WithdrawSucceedsIff(run: Run, signer: Address, agent: AgentId, mint: Address, amount: U64)
    requires Valid(run)
    ensures var s, from, to := End(run), Ata(WalletPda(agent), mint), Ata(signer, mint);
            var result := Execute(s, signer, WithdrawFunds(agent, mint, amount));
            && (result.Ok? <==>
                  && OwnerSigns(s, signer, agent) && from in s.tokens && to in s.tokens
                  && 0 < amount <= s.tokens[from].amount)
            && (result.Ok? ==> OnlyMoves(s, result.value, from, to, amount))
  {
    RunTokensSound(run);
    WithdrawalIff(End(run), signer, agent, mint, amount);
  }

  /** The same for the whole balance, if there is one. */
  lemma {:induction false} WithdrawAllSucceedsIff(run: Run, signer: Address, agent: AgentId, mint: Address)
    requires Valid(run)
    ensures var s, from, to := End(run), Ata(WalletPda(agent), mint), Ata(signer, mint);
            var result := Execute(s, signer, WithdrawAll(agent, mint));
            && (result.Ok? <==>
                  OwnerSigns(s, signer, agent) && from in s.tokens && to in s.tokens && s.tokens[from].amount > 0)
            && (result.Ok? ==> OnlyMoves(s, result.value, from, to, s.tokens[from].amount))
  {
    RunTokensSound(run);
    WithdrawalOfAllIff(End(run), signer, agent, mint);
  }

  // ----- Payments -----

  /** The two protocols, by number. */
  function ProtocolOf(number: U8): Option<Protocol> {
    if number == 0 then Some(X402) else if number == 1 then Some(Mpp) else None
  }

  /** The owner signs, every account is there, and the record's address is free. */
  predicate SettlementAsked(s: State, signer: Address, i: Instruction)
    requires i.SettlePayment?
  {
    var agent := i.payment.agentId;
    && OwnerSigns(s, signer, agent) && agent in s.policies && s.config.Some?
    && RecordKey(agent, i.sequence) !in s.records
    && Ata(WalletPda(agent), i.mint) in s.tokens && i.payee in s.tokens
  }

  /** What the ledger says to a settlement that is asked for so. */
  function LedgerVerdict(s: State, i: Instruction, past: Past, l: Limits): Result<(), Error>
    requires i.SettlePayment? && i.payment.agentId in s.wallets && s.config.Some?
  {
    var w, cap := s.wallets[i.payment.agentId], s.config.value.maxSinglePaymentUsdc;
    NaiveVerdict(cap, w.isActive, w.isFrozen, l, i.sequence, i.payment, s.now, past)
  }

  /** The payee's account has the named mint, and the agent's covers the amount. */
  predicate Payable(s: State, i: Instruction)
    requires i.SettlePayment? && Ata(WalletPda(i.payment.agentId), i.mint) in s.tokens && i.payee in s.tokens
  {
    && s.tokens[i.payee].mint == i.mint
    && i.payment.amount <= s.tokens[Ata(WalletPda(i.payment.agentId), i.mint)].amount
  }

  lemma {:induction false} NaiveSettleIff(s: State, signer: Address, i: Instruction, past: Past, l: Limits)
    requires i.SettlePayment? && TokensSound(s)
    ensures var result := NaiveSettle(s, signer, i, past, l);
            && (result.Ok? <==> SettlementAsked(s, signer, i) && LedgerVerdict(s, i, past, l).Ok? && Payable(s, i))
            && (result.Ok? ==>
                  Moves(s.tokens, result.value.1, Ata(WalletPda(i.payment.agentId), i.mint), i.payee, i.payment.amount))
  {
    var from := Ata(WalletPda(i.payment.agentId), i.mint);
    CoveredSucceedsIff(s, from, i.payee, i.payment.amount);
    TransferSucceedsIff(s.tokens, from, i.payee, i.payment.amount);
  }

  lemma NaiveRecord(s: State, signer: Address, i: Instruction, past: Past, l: Limits)
    requires i.SettlePayment? && NaiveSettle(s, signer, i, past, l).Ok?
    ensures i.payee in s.tokens && ProtocolOf(i.payment.protocol).Some?
    ensures NaiveSettle(s, signer, i, past, l).value.0
         == Record(WalletPda(i.payment.agentId), i.sequence, i.payment.endpointHash, s.tokens[i.payee].owner,
                   i.payment.amount, ProtocolOf(i.payment.protocol).value, s.now, true, i.payment.parentPayment)
  {
  }

  /**
    In every reachable state of a wallet that is not stuck, a settlement succeeds
    if and only if it is asked for properly, the ledger's verdict is favourable,
    and the named account covers a payment to an account of its mint. The payee
    then has exactly the amount more and the agent's account as much less, unless
    they are one, and exactly this record is added.
  */
  lemma {:induction false} SettleSucceedsIff(run: Run, signer: Address, i: Instruction)
    requires Valid(run) && i.SettlePayment? && !Stuck(End(run), i.payment.agentId)
    ensures GapFree(End(run).records, i.payment.agentId)
    ensures var s, agent, payment := End(run), i.payment.agentId, i.payment;
            var past, l := PastOf(run, s.records, agent), Lenient(LimitsIn(s, agent));
            var result := Execute(s, signer, i);
            && (result.Ok? <==> SettlementAsked(s, signer, i) && LedgerVerdict(s, i, past, l).Ok? && Payable(s, i))
            && (result.Ok? ==>
                  && Moves(s.tokens, result.value.tokens, Ata(WalletPda(agent), i.mint), i.payee, payment.amount)
                  && i.payee in s.tokens && ProtocolOf(payment.protocol).Some?
                  && result.value.records == s.records[RecordKey(agent, i.sequence) :=
                       Record(WalletPda(agent), i.sequence, payment.endpointHash, s.tokens[i.payee].owner,
                              payment.amount, ProtocolOf(payment.protocol).value, s.now, true,
                              payment.parentPayment)])
  {
    var s, agent := End(run), i.payment.agentId;
    RunTokensSound(run);
    SettleRefinesLenient(run, signer, i);
    var past, l := PastOf(run, s.records, agent), Lenient(LimitsIn(s, agent));
    NaiveSettleIff(s, signer, i, past, l);
    if NaiveSettle(s, signer, i, past, l).Ok? {
      NaiveRecord(s, signer, i, past, l);
    }
  }

  // ----- Violations -----

  lemma ViolationIff(s: State, signer: Address, i: Instruction)
    requires i.RecordPolicyViolation?
    ensures var agent, payment, key := i.payment.agentId, i.payment, RecordKey(i.payment.agentId, i.sequence);
            var result := Execute(s, signer, i);
            && (result.Ok? <==>
                  && OwnerSigns(s, signer, agent) && key !in s.records && ProtocolOf(payment.protocol).Some?
                  && i.sequence == s.wallets[agent].paymentSequence)
            && (result == Err(Unauthorized) <==> StrangerSigns(s, signer, agent) && key !in s.records)
            && (result == Err(InvalidProtocol) <==>
                  OwnerSigns(s, signer, agent) && key !in s.records && ProtocolOf(payment.protocol).None?)
            && (result == Err(SequenceMismatch) <==>
                  && OwnerSigns(s, signer, agent) && key !in s.records && ProtocolOf(payment.protocol).Some?
                  && i.sequence != s.wallets[agent].paymentSequence)
            && (result.Ok? ==>
                  && OnlyWallet(s, result.value.(records := s.records), agent)
                  && result.value.records == s.records[key :=
                       Record(WalletPda(agent), i.sequence, payment.endpointHash, DefaultKey, payment.amount,
                              ProtocolOf(payment.protocol).value, s.now, false, None)])
  {
  }

  /**
    In every reachable state a violation is recorded if and only if the owner of a
    live wallet signs for it, under the next record number, with a protocol there
    is. Exactly this record is added, and no token moves.
  */
  lemma {:induction false} ViolationSucceedsIff(run: Run, signer: Address, i: Instruction)
    requires Valid(run) && i.RecordPolicyViolation?
    ensures var s, agent, payment := End(run), i.payment.agentId, i.payment;
            var result := Execute(s, signer, i);
            && (result.Ok? <==>
                  && OwnerSigns(s, signer, agent) && Live(s, agent)
                  && i.sequence == Count(s.records, agent) && ProtocolOf(payment.protocol).Some?)
            && (result.Ok? ==>
                  && result.value.tokens == s.tokens && result.value.policies == s.policies
                  && ProtocolOf(payment.protocol).Some?
                  && result.value.records == s.records[RecordKey(agent, i.sequence) :=
                       Record(WalletPda(agent), i.sequence, payment.endpointHash, DefaultKey, payment.amount,
                              ProtocolOf(payment.protocol).value, s.now, false, None)])
  {
    var s, agent := End(run), i.payment.agentId;
    RunSound(run, agent);
    ViolationIff(s, signer, i);
    NextNumberFree(s, agent, i.sequence, RegisteredAt(run, agent), PolicySince(run, agent));
  }

  /** The number a wallet would use next is free exactly if the wallet is live and it is how many records there are. */
  lemma NextNumberFree(s: State, agent: AgentId, sequence: U64, anchor: int, since: nat)
    requires AgentSound(s, agent, anchor, since)
    ensures agent in s.wallets ==>
              (sequence == s.wallets[agent].paymentSequence && RecordKey(agent, sequence) !in s.records
               <==> Live(s, agent) && sequence == Count(s.records, agent))
  {
    if agent in s.wallets && RecordKey(agent, s.wallets[agent].paymentSequence) !in s.records {
      NextKeyIsCount(s, agent, anchor, since);
    }
  }

  // ----- The outside world -----

  /** What people outside the program can do, and the clock. */
  lemma {:induction false} OutsideSucceedsIff(s: State, step: Step)
    requires TokensSound(s) && !step.Call?
    ensures match step
            case Tick(time) =>
              && (Applies(s, step) <==> s.now <= time <= MAX_CLOCK)
              && (Applies(s, step) ==> Next(s, step) == s.(now := time))
            case OpenAccount(at, owner, mint) =>
              (at == Ata(owner, mint) && at !in s.tokens && mint in s.supply ==>
                 Next(s, step) == s.(tokens := s.tokens[at := TokenAccount(mint, owner, 0)]))
            case Mint(to, amount) =>
              Applies(s, step) ==> Balance(Next(s, step).tokens, to) == Balance(s.tokens, to) + amount
            case Move(from, to, amount) =>
              && (Applies(s, step) <==>
                    && from in s.tokens && to in s.tokens && !s.tokens[from].owner.WalletPda?
                    && s.tokens[from].mint == s.tokens[to].mint && amount <= s.tokens[from].amount)
              && (Applies(s, step) ==> OnlyMoves(s, Next(s, step), from, to, amount))
  {
    if step.Move? {
      CoveredSucceedsIff(s, step.from, step.to, step.amount);
      TransferSucceedsIff(s.tokens, step.from, step.to, step.amount);
    }
  }
}
