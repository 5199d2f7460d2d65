/**
  The program without counters, as a machine of its own: it keeps settings, flags,
  tokens and the ledger, and decides every payment by adding up the ledger. The
  program runs in lock-step with it.
*/
module Reference {
  import opened Numbers
  import opened Results
  import opened Accounts
  import opened Windows
  import opened Machine
  import opened Runs
  import opened Reachable
  import opened Refinement

  // ----- The reference machine -----

  /**
    Wallets and policies hold what registration and `set_spend_policy` wrote:
    their counters never move, and their window starts are the times these
    happened. `before` and `since` are how many records there were then.
  */
  datatype Reference = Reference(state: State, before: map<AgentId, nat>, since: map<AgentId, nat>)

  function Mark(marks: map<AgentId, nat>, agent: AgentId): nat {
    if agent in marks then marks[agent] else 0
  }

  function DropTo(h: seq<Record>, mark: nat): seq<Record> {
    if mark <= |h| then h[mark..] else []
  }

  /** The records since the wallet was registered. */
  ghost function OwnHistory(ref: Reference, agent: AgentId): seq<Record> {
    if GapFree(ref.state.records, agent) then DropTo(History(ref.state.records, agent), Mark(ref.before, agent)) else []
  }

  /** The records since the policy was set. */
  ghost function OwnCalls(ref: Reference, agent: AgentId): seq<Record> {
    if GapFree(ref.state.records, agent) then DropTo(History(ref.state.records, agent), Mark(ref.since, agent)) else []
  }

  ghost function OwnPast(ref: Reference, agent: AgentId): Past {
    var t := ref.state;
    Past(OwnHistory(ref, agent), if agent in t.wallets then t.wallets[agent].daily.start else 0,
         OwnCalls(ref, agent), if agent in t.policies then t.policies[agent].rateLimitWindowStart else 0)
  }

  /** The agent's settings, in which a budget at the top of the range never refuses. */
  function OwnLimits(ref: Reference, agent: AgentId): Limits {
    Lenient(LimitsIn(ref.state, agent))
  }

  ghost function ReferenceSettle(ref: Reference, signer: Address, i: Instruction): Result<State, Error>
    requires i.SettlePayment?
  {
    match NaiveSettle(ref.state, signer, i, OwnPast(ref, i.payment.agentId), OwnLimits(ref, i.payment.agentId))
    case Err(e) => Err(e)
    case Ok((r, tokens)) =>
      Ok(ref.state.(records := ref.state.records[RecordKey(i.payment.agentId, i.sequence) := r], tokens := tokens))
  }

  /** A violation recorded by the ledger alone, `next` being the next record number. */
  function NaiveViolation(t: State, signer: Address, i: Instruction, next: nat): Result<State, Error>
    requires i.RecordPolicyViolation?
  {
    var agent, key := i.payment.agentId, RecordKey(i.payment.agentId, i.sequence);
    match OwnedWallet(t, signer, agent, true, key !in t.records)
    case Err(e) => Err(e)
    case Ok(_) =>
      if FromDiscriminant(i.payment.protocol).None? then Err(InvalidProtocol) else
      if i.sequence != next then Err(SequenceMismatch) else
      var r := Record(WalletPda(agent), i.sequence, i.payment.endpointHash, DefaultKey, i.payment.amount,
                      if i.payment.protocol == 0 then X402 else Mpp, t.now, false, None);
      Ok(t.(records := t.records[key := r]))
  }

  ghost function ReferenceViolation(ref: Reference, signer: Address, i: Instruction): Result<State, Error>
    requires i.RecordPolicyViolation?
  {
    NaiveViolation(ref.state, signer, i, |OwnHistory(ref, i.payment.agentId)|)
  }

  /** Does this step record a payment or a violation? */
  predicate Records(step: Step) {
    step.Call? && (step.instruction.SettlePayment? || step.instruction.RecordPolicyViolation?)
  }

  /** The state after a step, or the error. Only the steps that record something differ from the program's. */
  ghost function ReferenceApply(ref: Reference, step: Step): Result<State, Error> {
    if !Records(step) then Apply(ref.state, step) else
    if step.instruction.SettlePayment? then ReferenceSettle(ref, step.signer, step.instruction) else
    ReferenceViolation(ref, step.signer, step.instruction)
  }

  ghost function ReferenceNext(ref: Reference, step: Step): Reference {
    match ReferenceApply(ref, step)
    case Err(_) => ref
    case Ok(t) =>
      Reference(t,
        if step.Call? && step.instruction.RegisterAgent? then
          ref.before[step.instruction.agent := Count(ref.state.records, step.instruction.agent)]
        else ref.before,
        if step.Call? && step.instruction.SetSpendPolicy? then
          ref.since[step.instruction.agent := Count(ref.state.records, step.instruction.agent)]
        else ref.since)
  }

  /** The reference machine taken through the same steps. */
  ghost function ReferenceEnd(run: Run): Reference {
    match run
    case Boot(s) => Reference(s, map[], map[])
    case After(prev, step) => ReferenceNext(ReferenceEnd(prev), step)
  }

  // ----- Twins: two states that differ in counters only -----

  predicate WalletTwins(w: Wallet, v: Wallet) {
    v == w.(daily := v.daily, weekly := v.weekly, monthly := v.monthly, paymentSequence := v.paymentSequence,
            totalPayments := v.totalPayments, totalVolume := v.totalVolume, lastPaymentAt := v.lastPaymentAt)
  }

  predicate PolicyTwins(p: Policy, q: Policy) {
    p.agentWallet == q.agentWallet && p.limits == q.limits
  }

  ghost predicate Twins(s: State, t: State) {
    && t == s.(wallets := t.wallets, policies := t.policies)
    && s.wallets.Keys == t.wallets.Keys && s.policies.Keys == t.policies.Keys
    && (forall agent :: agent in s.wallets ==> WalletTwins(s.wallets[agent], t.wallets[agent]))
    && (forall agent :: agent in s.policies ==> PolicyTwins(s.policies[agent], t.policies[agent]))
  }

  /** Same verdict, and twins again. */
  ghost predicate StepTwins(result: Result<State, Error>, other: Result<State, Error>) {
    match result
    case Err(e) => other == Err(e)
    case Ok(s) => other.Ok? && Twins(s, other.value)
  }

  lemma ClockAndSupplyTwins(s: State, t: State, step: Step)
    requires Twins(s, t) && (step.Tick? || step.Mint?)
    ensures StepTwins(Environment(s, step), Environment(t, step))
  {
  }

  lemma AccountsTwins(s: State, t: State, step: Step)
    requires Twins(s, t) && (step.OpenAccount? || step.Move?)
    ensures StepTwins(Environment(s, step), Environment(t, step))
  {
  }

  lemma AdminTwins(s: State, t: State, signer: Address, i: Instruction)
    requires Twins(s, t)
    requires i.InitProtocol? || i.RotateProtocolAdmin? || i.UpdateProtocolConfig? || i.SetFrozen?
    ensures StepTwins(Execute(s, signer, i), Execute(t, signer, i))
  {
  }

  lemma OwnerTwins(s: State, t: State, signer: Address, i: Instruction)
    requires Twins(s, t)
    requires i.SetActive? || i.TransferOwnership?
    ensures StepTwins(Execute(s, signer, i), Execute(t, signer, i))
  {
  }

  lemma WithdrawTwins(s: State, t: State, signer: Address, i: Instruction)
    requires Twins(s, t)
    requires i.WithdrawFunds? || i.WithdrawAll?
    ensures StepTwins(Execute(s, signer, i), Execute(t, signer, i))
  {
  }

  lemma RegisterTwins(s: State, t: State, signer: Address, agent: AgentId, mint: Address)
    requires Twins(s, t)
    ensures StepTwins(Register(s, signer, agent, mint), Register(t, signer, agent, mint))
  {
  }

  lemma SetPolicyTwins(s: State, t: State, signer: Address, agent: AgentId, limits: Limits)
    requires Twins(s, t)
    ensures StepTwins(SetPolicy(s, signer, agent, limits), SetPolicy(t, signer, agent, limits))
  {
  }

  lemma CloseTwins(s: State, t: State, signer: Address, agent: AgentId, mint: Address)
    requires Twins(s, t)
    ensures StepTwins(Close(s, signer, agent, mint), Close(t, signer, agent, mint))
  {
  }

  /** No other instruction looks at a counter. */
  lemma {:induction false} OtherStepTwins(s: State, t: State, step: Step)
    requires Twins(s, t) && !Records(step)
    ensures StepTwins(Apply(s, step), Apply(t, step))
  {
    if step.Tick? || step.Mint? {
      ClockAndSupplyTwins(s, t, step);
    } else if !step.Call? {
      AccountsTwins(s, t, step);
    } else {
      var signer, i := step.signer, step.instruction;
      match i {
        case RegisterAgent(agent, mint) => RegisterTwins(s, t, signer, agent, mint);
        case SetSpendPolicy(agent, limits) => SetPolicyTwins(s, t, signer, agent, limits);
        case CloseAgent(agent, mint) => CloseTwins(s, t, signer, agent, mint);
        case SetActive(_, _) => OwnerTwins(s, t, signer, i);
        case TransferOwnership(_, _) => OwnerTwins(s, t, signer, i);
        case WithdrawFunds(_, _, _) => WithdrawTwins(s, t, signer, i);
        case WithdrawAll(_, _) => WithdrawTwins(s, t, signer, i);
        case _ => AdminTwins(s, t, signer, i);
      }
    }
  }

  // ----- What the reference machine remembers -----

  /** How many records existed when the agent's wallet was registered. */
  ghost function RegisteredOver(run: Run, agent: AgentId): nat {
    match run
    case Boot(_) => 0
    case After(prev, step) =>
      if Registers(End(prev), step, agent) then Count(End(prev).records, agent) else RegisteredOver(prev, agent)
  }

  /** A wallet is stuck exactly when it was registered over older records, and then there are no newer ones. */
  ghost predicate OverAgrees(s: State, agent: AgentId, over: nat) {
    agent in s.wallets ==> if Stuck(s, agent) then 0 < over == Count(s.records, agent) else over == 0
  }

  lemma {:induction false} OverStep(s: State, step: Step, agent: AgentId, anchor: int, since: nat, over: nat)
    requires AgentSound(s, agent, anchor, since) && OverAgrees(s, agent, over)
    ensures OverAgrees(Next(s, step), agent, if Registers(s, step, agent) then Count(s.records, agent) else over)
  {
    if Writes(step) != Some(agent) || !Applies(s, step) {
      OtherStepsAlike(s, step, agent);
      HistoryFrame(s.records, Next(s, step).records, agent);
    } else {
      OwnStepOver(s, step.signer, step.instruction, agent, anchor, since, over);
    }
  }

  lemma OwnStepOver(s: State, signer: Address, i: Instruction, agent: AgentId, anchor: int, since: nat, over: nat)
    requires AgentSound(s, agent, anchor, since) && OverAgrees(s, agent, over)
    requires Execute(s, signer, i).Ok? && Writes(Call(signer, i)) == Some(agent)
    ensures OverAgrees(Execute(s, signer, i).value, agent, if i.RegisterAgent? then Count(s.records, agent) else over)
  {
    match i
    case SettlePayment(sequence, payment, mint, payee) =>
      SettleCommits(s, signer, sequence, payment, mint, payee);
      NextKeyIsCount(s, agent, anchor, since);
    case RecordPolicyViolation(_, _) => NextKeyIsCount(s, agent, anchor, since);
    case _ =>
  }

  lemma {:induction false} RunOver(run: Run, agent: AgentId)
    requires Valid(run)
    ensures OverAgrees(End(run), agent, RegisteredOver(run, agent))
  {
    if run.After? {
      RunOver(run.prev, agent);
      RunSound(run.prev, agent);
      OverStep(End(run.prev), run.step, agent, RegisteredAt(run.prev, agent), PolicySince(run.prev, agent),
               RegisteredOver(run.prev, agent));
    }
  }

  /** The reference wallet and policy remember when they began, and count nothing. */
  ghost predicate Bare(t: State, agent: AgentId, registeredAt: int, setAt: int) {
    && (agent in t.wallets ==>
          var w := t.wallets[agent];
          && (forall span :: w.Of(span).spend == 0 && w.Of(span).start == registeredAt)
          && w.paymentSequence == w.totalPayments == w.totalVolume == w.lastPaymentAt == 0)
    && (agent in t.policies ==>
          t.policies[agent].rateLimitCallCount == 0 && t.policies[agent].rateLimitWindowStart == setAt)
  }

  lemma {:induction false} BareStep(t: State, step: Step, agent: AgentId, registeredAt: int, setAt: int)
    requires 0 <= t.now <= MAX_CLOCK && Bare(t, agent, registeredAt, setAt) && !Records(step)
    ensures Bare(Next(t, step), agent, if Registers(t, step, agent) then t.now else registeredAt,
                 if SetsPolicy(t, step, agent) then t.now else setAt)
  {
    if Writes(step) != Some(agent) || !Applies(t, step) {
      OtherStepsAlike(t, step, agent);
      if agent in t.wallets {
        assert forall span :: Next(t, step).wallets[agent].Of(span) == t.wallets[agent].Of(span);
      }
    }
  }

  /** The program's state and the reference machine's, after the same steps. */
  ghost predicate Mirrors(run: Run, ref: Reference) {
    && Twins(End(run), ref.state)
    && (forall agent :: Bare(ref.state, agent, RegisteredAt(run, agent), PolicySetAt(run, agent)))
    && (forall agent :: Mark(ref.before, agent) == RegisteredOver(run, agent))
    && (forall agent :: Mark(ref.since, agent) == PolicySince(run, agent))
  }

  // ----- Lock-step -----

  /** The naive decision depends on the state only through what twins share, and the past. */
  lemma NaiveSettleTwins(s: State, t: State, signer: Address, i: Instruction, past: Past, l: Limits)
    requires i.SettlePayment? && Twins(s, t)
    ensures NaiveSettle(s, signer, i, past, l) == NaiveSettle(t, signer, i, past, l)
  {
  }

  /** The past a settlement is decided from matters only if there is a wallet and a policy. */
  lemma PastMatters(s: State, signer: Address, i: Instruction, past: Past, past': Past, l: Limits)
    requires i.SettlePayment?
    requires i.payment.agentId in s.wallets && i.payment.agentId in s.policies ==> past == past'
    ensures NaiveSettle(s, signer, i, past, l) == NaiveSettle(s, signer, i, past', l)
  {
  }

  lemma PastIsRemembered(run: Run, ref: Reference, agent: AgentId)
    requires Valid(run) && Mirrors(run, ref) && Live(End(run), agent) && agent in End(run).policies
    ensures GapFree(End(run).records, agent) && OwnPast(ref, agent) == PastOf(run, End(run).records, agent)
  {
    RunSound(run, agent);
    RunOver(run, agent);
    assert Bare(ref.state, agent, RegisteredAt(run, agent), PolicySetAt(run, agent));
    assert ref.state.wallets[agent].Of(Daily) == ref.state.wallets[agent].daily;
    var h := History(End(run).records, agent);
    assert h[0..] == h;
  }

  /** A stuck wallet settles nothing, in either machine, for the same reason. */
  lemma StuckSettles(s: State, signer: Address, i: Instruction, past: Past, l: Limits)
    requires i.SettlePayment? && Stuck(s, i.payment.agentId)
    requires i.payment.agentId in s.policies ==>
               s.policies[i.payment.agentId].agentWallet == WalletPda(i.payment.agentId)
    requires past.history == []
    ensures Execute(s, signer, i).Err?
    ensures NaiveSettle(s, signer, i, past, l) == Err(Execute(s, signer, i).error)
  {
  }

  lemma {:induction false} SettleInStep(run: Run, ref: Reference, signer: Address, i: Instruction)
    requires Valid(run) && Mirrors(run, ref) && i.SettlePayment?
    ensures SameOutcome(End(run), RecordKey(i.payment.agentId, i.sequence), Execute(End(run), signer, i),
                        NaiveSettle(ref.state, signer, i, OwnPast(ref, i.payment.agentId),
                                    OwnLimits(ref, i.payment.agentId)))
  {
    var s, agent := End(run), i.payment.agentId;
    var past := OwnPast(ref, agent);
    var l := Lenient(LimitsIn(s, agent));
    assert OwnLimits(ref, agent) == l;
    NaiveSettleTwins(s, ref.state, signer, i, past, l);
    RunSound(run, agent);
    if Stuck(s, agent) {
      RunOver(run, agent);
      assert Mark(ref.before, agent) == Count(s.records, agent);
      assert past.history == [];
      StuckSettles(s, signer, i, past, l);
    } else {
      SettleRefinesLenient(run, signer, i);
      if agent in s.wallets && agent in s.policies {
        PastIsRemembered(run, ref, agent);
      }
      PastMatters(s, signer, i, past, PastOf(run, s.records, agent), l);
    }
  }

  /** What a settlement leaves alone. */
  lemma SettleTouches(s: State, signer: Address, i: Instruction)
    requires i.SettlePayment? && Execute(s, signer, i).Ok?
    ensures var s' := Execute(s, signer, i).value;
            s' == s.(wallets := s'.wallets, policies := s'.policies, tokens := s'.tokens, records := s'.records)
  {
  }

  /** Booking a payment changes a wallet in its counters only. */
  lemma BookedTwin(w: Wallet, amount: U64, now: I64)
    requires RollWindows(w, now).Ok?
    ensures WalletTwins(Book(RollWindows(w, now).value, amount, now), w)
  {
  }

  /** Nor do the policy checks change a setting. */
  lemma EnforcedTwin(p: Policy, w: Wallet, payment: Payment, now: I64)
    requires Enforce(p, w, payment, now).Ok?
    ensures PolicyTwins(Enforce(p, w, payment, now).value, p)
  {
    EnforceCounts(p, w, payment, now);
  }

  /** Replacing one wallet and its policy by twins of theirs. */
  lemma ReplacedTwins(s: State, t: State, s': State, agent: AgentId, w: Wallet, p: Policy)
    requires Twins(s, t) && agent in s.wallets && agent in s.policies
    requires s' == s.(wallets := s.wallets[agent := w], policies := s.policies[agent := p],
                      tokens := s'.tokens, records := s'.records)
    requires WalletTwins(w, s.wallets[agent]) && PolicyTwins(p, s.policies[agent])
    ensures Twins(s', t.(records := s'.records, tokens := s'.tokens))
  {
  }

  lemma {:induction false} SettlementTwins(s: State, t: State, signer: Address, i: Instruction)
    requires i.SettlePayment? && Twins(s, t) && Execute(s, signer, i).Ok?
    ensures var s' := Execute(s, signer, i).value;
            Twins(s', t.(records := s'.records, tokens := s'.tokens))
  {
    var agent, s' := i.payment.agentId, Execute(s, signer, i).value;
    SettleCommits(s, signer, i.sequence, i.payment, i.mint, i.payee);
    SettleTouches(s, signer, i);
    var rolled := RollWindows(s.wallets[agent], s.now).value;
    var p := Enforce(s.policies[agent], rolled, i.payment, s.now).value;
    BookedTwin(s.wallets[agent], i.payment.amount, s.now);
    EnforcedTwin(s.policies[agent], rolled, i.payment, s.now);
    ReplacedTwins(s, t, s', agent, Book(rolled, i.payment.amount, s.now), p);
  }

  lemma SettleTwins(run: Run, ref: Reference, signer: Address, i: Instruction)
    requires Valid(run) && Mirrors(run, ref) && i.SettlePayment?
    ensures StepTwins(Execute(End(run), signer, i), ReferenceSettle(ref, signer, i))
  {
    SettleInStep(run, ref, signer, i);
    var naive := NaiveSettle(ref.state, signer, i, OwnPast(ref, i.payment.agentId), OwnLimits(ref, i.payment.agentId));
    if naive.Ok? {
      SettlementTwins(End(run), ref.state, signer, i);
    }
  }

  /** The next record number is the number of records since registration, as long as there is a free one. */
  lemma NextNumber(run: Run, ref: Reference, agent: AgentId, sequence: U64)
    requires Valid(run) && Mirrors(run, ref) && agent in End(run).wallets
    requires RecordKey(agent, sequence) !in End(run).records
    ensures |OwnHistory(ref, agent)| == End(run).wallets[agent].paymentSequence
  {
    RunSound(run, agent);
    RunOver(run, agent);
    FreeKeyMeansRoom(End(run), agent, sequence);
    assert Mark(ref.before, agent) == RegisteredOver(run, agent);
  }

  lemma NaiveViolationTwins(s: State, t: State, signer: Address, i: Instruction, next: nat)
    requires Twins(s, t) && i.RecordPolicyViolation?
    requires i.payment.agentId in s.wallets && RecordKey(i.payment.agentId, i.sequence) !in s.records ==>
               next == s.wallets[i.payment.agentId].paymentSequence
    ensures StepTwins(RecordViolation(s, signer, i.sequence, i.payment), NaiveViolation(t, signer, i, next))
  {
  }

  lemma {:induction false} ViolationTwins(run: Run, ref: Reference, signer: Address, i: Instruction)
    requires Valid(run) && Mirrors(run, ref) && i.RecordPolicyViolation?
    ensures StepTwins(Execute(End(run), signer, i), ReferenceViolation(ref, signer, i))
  {
    var s, agent := End(run), i.payment.agentId;
    if agent in s.wallets && RecordKey(agent, i.sequence) !in s.records {
      NextNumber(run, ref, agent, i.sequence);
    }
    NaiveViolationTwins(s, ref.state, signer, i, |OwnHistory(ref, agent)|);
  }

  /** From mirroring states, every step has the same outcome in both machines. */
  lemma {:induction false} StepInStep(run: Run, ref: Reference, step: Step)
    requires Valid(run) && Mirrors(run, ref)
    ensures StepTwins(Apply(End(run), step), ReferenceApply(ref, step))
  {
    if !Records(step) {
      OtherStepTwins(End(run), ref.state, step);
    } else if step.instruction.SettlePayment? {
      SettleTwins(run, ref, step.signer, step.instruction);
    } else {
      ViolationTwins(run, ref, step.signer, step.instruction);
    }
  }

  lemma RecordingLeavesBare(ref: Reference, step: Step)
    requires Records(step)
    ensures ReferenceNext(ref, step).state.wallets == ref.state.wallets
    ensures ReferenceNext(ref, step).state.policies == ref.state.policies
    ensures ReferenceNext(ref, step).before == ref.before && ReferenceNext(ref, step).since == ref.since
  {
  }

  /** What the reference machine remembers keeps up with the run. */
  lemma {:induction false} MirrorsKept(run: Run, ref: Reference, step: Step)
    requires Valid(run) && Mirrors(run, ref)
    requires StepTwins(Apply(End(run), step), ReferenceApply(ref, step))
    ensures Mirrors(After(run, step), ReferenceNext(ref, step))
  {
    ClockInRange(run);
    var later, ref' := After(run, step), ReferenceNext(ref, step);
    forall agent ensures Bare(ref'.state, agent, RegisteredAt(later, agent), PolicySetAt(later, agent)) {
      assert Bare(ref.state, agent, RegisteredAt(run, agent), PolicySetAt(run, agent));
      if Records(step) {
        RecordingLeavesBare(ref, step);
      } else {
        BareStep(ref.state, step, agent, RegisteredAt(run, agent), PolicySetAt(run, agent));
      }
    }
  }

  /**
    Over every run, the program and the machine without counters hold the same
    ledger, tokens, flags and settings at every stage, and give the same verdict,
    with the same error, on every step that could come next.
  */
  lemma {:induction false} LockStep(run: Run, step: Step)
    requires Valid(run)
    ensures Twins(End(run), ReferenceEnd(run).state)
    ensures StepTwins(Apply(End(run), step), ReferenceApply(ReferenceEnd(run), step))
  {
    RunMirrors(run);
    StepInStep(run, ReferenceEnd(run), step);
  }

  lemma {:induction false} RunMirrors(run: Run)
    requires Valid(run)
    ensures Mirrors(run, ReferenceEnd(run))
  {
    if run.After? {
      RunMirrors(run.prev);
      StepInStep(run.prev, ReferenceEnd(run.prev), run.step);
      MirrorsKept(run.prev, ReferenceEnd(run.prev), run.step);
    }
  }
}
