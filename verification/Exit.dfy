/** The owner's way out: exactly when it exists, and what it pays. */
module Exit {
  import opened Results
  import opened Accounts
  import opened TokenProgram
  import opened Machine
  import opened Runs
  import opened Reachable
  import opened Conservation
  import opened Safety

  /** The mint the wallet was registered with. */
  function HomeMint(w: Wallet): Address {
    if w.usdcTokenAccount.Ata? then w.usdcTokenAccount.mint else DefaultKey
  }

  ghost predicate HasAccount(s: State, agent: AgentId) {
    agent in s.wallets ==>
      && s.wallets[agent].usdcTokenAccount == AgentAta(agent, HomeMint(s.wallets[agent]))
      && s.wallets[agent].usdcTokenAccount in s.tokens
  }

  lemma OwnStepHasAccount(s: State, signer: Address, i: Instruction, agent: AgentId)
    requires HasAccount(s, agent) && Execute(s, signer, i).Ok? && Writes(Call(signer, i)) == Some(agent)
    ensures HasAccount(Execute(s, signer, i).value, agent)
  {
    CallMovesPayout(s, signer, i);
    match i
    case SettlePayment(sequence, payment, mint, payee) => SettleCommits(s, signer, sequence, payment, mint, payee);
    case _ =>
  }

  /** A wallet's token account exists as long as the wallet does. */
  lemma {:induction false} RunHasAccount(run: Run, agent: AgentId)
    requires Valid(run)
    ensures HasAccount(End(run), agent)
  {
    if run.After? {
      var s, step := End(run.prev), run.step;
      RunHasAccount(run.prev, agent);
      ClockInRange(run.prev);
      if Writes(step) != Some(agent) || !Applies(s, step) {
        OtherStepsAlike(s, step, agent);
        if agent in s.wallets {
          Lifecycle.AccountsPersist(s, step, s.wallets[agent].usdcTokenAccount);
        }
      } else {
        OwnStepHasAccount(s, step.signer, step.instruction, agent);
      }
    }
  }

  // ----- The way out -----

  /** Every step taken since `base` went through. */
  predicate AllApplied(run: Run, base: Run) {
    run == base || (run.After? && Applies(End(run.prev), run.step) && AllApplied(run.prev, base))
  }

  /** Open the owner's token account if it has none. */
  function Opened(run: Run, owner: Address, mint: Address): Run {
    if Ata(owner, mint) in End(run).tokens then run else After(run, OpenAccount(Ata(owner, mint), owner, mint))
  }

  /** Withdraw everything, if there is anything. */
  function Drained(run: Run, agent: AgentId, owner: Address, mint: Address): Run {
    if Balance(End(run).tokens, AgentAta(agent, mint)) == 0 then run
    else After(run, Call(owner, WithdrawAll(agent, mint)))
  }

  /** Set some policy if there is none, because closing closes one. */
  function Governed(run: Run, agent: AgentId, owner: Address, limits: Limits): Run {
    if agent in End(run).policies then run else After(run, Call(owner, SetSpendPolicy(agent, limits)))
  }

  function Closed(run: Run, agent: AgentId, owner: Address, mint: Address): Run {
    After(After(run, Call(owner, SetActive(agent, false))), Call(owner, CloseAgent(agent, mint)))
  }

  /** The whole way out. */
  function ExitRun(run: Run, agent: AgentId, owner: Address, mint: Address, limits: Limits): Run {
    Closed(Governed(Drained(Opened(run, owner, mint), agent, owner, mint), agent, owner, limits), agent, owner, mint)
  }

  /** Tokens after everything on one account has gone to another. */
  ghost predicate AllPaidOver(t: Tokens, t': Tokens, from: Address, to: Address) {
    && Balance(t', from) == 0
    && Balance(t', to) == Balance(t, to) + Balance(t, from)
    && forall a :: a != from && a != to ==> Balance(t', a) == Balance(t, a)
  }

  /** A wallet of this owner whose account for this mint exists. */
  predicate Owned(s: State, agent: AgentId, owner: Address, mint: Address) {
    && owner.Key?
    && agent in s.wallets && s.wallets[agent].owner == owner
    && AgentAta(agent, mint) in s.tokens
  }

  lemma OpeningApplies(run: Run, agent: AgentId, owner: Address, mint: Address)
    requires Valid(run) && Owned(End(run), agent, owner, mint)
    ensures var r := Opened(run, owner, mint);
            && Valid(r) && AllApplied(r, run)
            && Owned(End(r), agent, owner, mint) && Ata(owner, mint) in End(r).tokens
            && End(r).records == End(run).records
            && forall a :: Balance(End(r).tokens, a) == Balance(End(run).tokens, a)
  {
    RunTokensSound(run);
    assert AllApplied(run, run);
  }

  /** Withdrawing a positive balance to an existing account goes through and pays all of it over. */
  lemma WithdrawalApplies(s: State, agent: AgentId, owner: Address, mint: Address)
    requires TokensSound(s) && Owned(s, agent, owner, mint) && Ata(owner, mint) in s.tokens
    requires s.tokens[AgentAta(agent, mint)].amount > 0
    ensures var result := WithdrawEverything(s, owner, agent, mint);
            && result.Ok?
            && result.value == s.(tokens := result.value.tokens)
            && (forall a :: a in s.tokens ==> a in result.value.tokens)
            && AllPaidOver(s.tokens, result.value.tokens, AgentAta(agent, mint), Ata(owner, mint))
  {
    HeldCovers(s.tokens, mint, AgentAta(agent, mint), Ata(owner, mint));
  }

  lemma DrainingApplies(run: Run, agent: AgentId, owner: Address, mint: Address)
    requires Valid(run) && Owned(End(run), agent, owner, mint) && Ata(owner, mint) in End(run).tokens
    ensures var r := Drained(run, agent, owner, mint);
            && Valid(r) && AllApplied(r, run)
            && Owned(End(r), agent, owner, mint)
            && End(r).records == End(run).records
            && AllPaidOver(End(run).tokens, End(r).tokens, AgentAta(agent, mint), Ata(owner, mint))
  {
    assert AllApplied(run, run);
    if Balance(End(run).tokens, AgentAta(agent, mint)) > 0 {
      RunTokensSound(run);
      WithdrawalApplies(End(run), agent, owner, mint);
      assert Apply(End(run), Call(owner, WithdrawAll(agent, mint))) == WithdrawEverything(End(run), owner, agent, mint);
    }
  }

  lemma GoverningApplies(run: Run, agent: AgentId, owner: Address, mint: Address, limits: Limits)
    requires Valid(run) && Owned(End(run), agent, owner, mint)
    requires |limits.allowed| <= MAX_DOMAIN_ENTRIES && |limits.blocked| <= MAX_DOMAIN_ENTRIES
    ensures var r := Governed(run, agent, owner, limits);
            && Valid(r) && AllApplied(r, run)
            && Owned(End(r), agent, owner, mint) && agent in End(r).policies
            && End(r).records == End(run).records && End(r).tokens == End(run).tokens
  {
    assert AllApplied(run, run);
  }

  lemma ClosingApplies(run: Run, agent: AgentId, owner: Address, mint: Address)
    requires Valid(run) && Owned(End(run), agent, owner, mint)
    requires agent in End(run).policies && Balance(End(run).tokens, AgentAta(agent, mint)) == 0
    ensures var r := Closed(run, agent, owner, mint);
            && Valid(r) && AllApplied(r, run)
            && agent !in End(r).wallets && agent !in End(r).policies
            && End(r).records == End(run).records && End(r).tokens == End(run).tokens
  {
    var quiet := After(run, Call(owner, SetActive(agent, false)));
    assert AllApplied(run, run);
    assert Applies(End(run), quiet.step);
    assert Applies(End(quiet), Call(owner, CloseAgent(agent, mint)));
  }

  lemma {:induction false} AppliedTransitive(run: Run, middle: Run, base: Run)
    requires AllApplied(run, middle) && AllApplied(middle, base)
    ensures AllApplied(run, base)
  {
    if run != middle {
      AppliedTransitive(run.prev, middle, base);
    }
  }

  lemma {:induction false} AppliedExtends(run: Run, base: Run)
    requires AllApplied(run, base)
    ensures Extends(run, base)
  {
    if run != base {
      AppliedExtends(run.prev, base);
    }
  }

  /**
    From every reachable state with a live wallet, frozen or active or not, the
    owner's run out goes through at every step, closes wallet and policy, and
    pays the whole balance to the owner and to nobody else.
  */
  lemma OwnerCanExit(run: Run, agent: AgentId, limits: Limits)
    requires Valid(run) && agent in End(run).wallets && End(run).wallets[agent].owner.Key?
    requires |limits.allowed| <= MAX_DOMAIN_ENTRIES && |limits.blocked| <= MAX_DOMAIN_ENTRIES
    ensures var w := End(run).wallets[agent];
            var mint := HomeMint(w);
            var out := ExitRun(run, agent, w.owner, mint, limits);
            && AllApplied(out, run)
            && agent !in End(out).wallets && agent !in End(out).policies
            && End(out).records == End(run).records
            && AllPaidOver(End(run).tokens, End(out).tokens, w.usdcTokenAccount, Ata(w.owner, mint))
  {
    RunHasAccount(run, agent);
    var w := End(run).wallets[agent];
    var owner, mint := w.owner, HomeMint(w);
    var ready := Opened(run, owner, mint);
    var drained := Drained(ready, agent, owner, mint);
    var governed := Governed(drained, agent, owner, limits);
    var closed := Closed(governed, agent, owner, mint);
    OpeningApplies(run, agent, owner, mint);
    DrainingApplies(ready, agent, owner, mint);
    GoverningApplies(drained, agent, owner, mint, limits);
    ClosingApplies(governed, agent, owner, mint);
    AppliedTransitive(drained, ready, run);
    AppliedTransitive(governed, drained, run);
    AppliedTransitive(closed, governed, run);
  }

  /** An owner that cannot sign stays the owner, and its wallet stays open and is never paid out, whatever happens. */
  lemma {:induction false} UnsignableOwnerIsForever(run: Run, base: Run, agent: AgentId, mint: Address)
    requires Valid(run) && Extends(run, base)
    requires agent in End(base).wallets && !End(base).wallets[agent].owner.Key?
    ensures agent in End(run).wallets && End(run).wallets[agent].owner == End(base).wallets[agent].owner
    ensures Balance(End(run).tokens, AgentAta(agent, mint)) >= Balance(End(base).tokens, AgentAta(agent, mint))
  {
    if run != base {
      UnsignableOwnerIsForever(run.prev, base, agent, mint);
      RunTokensSound(run.prev);
      UnsignableStep(End(run.prev), run.step, agent, mint);
    }
  }

  lemma {:induction false} UnsignableStep(s: State, step: Step, agent: AgentId, mint: Address)
    requires TokensSound(s) && agent in s.wallets && !s.wallets[agent].owner.Key?
    ensures agent in Next(s, step).wallets && Next(s, step).wallets[agent].owner == s.wallets[agent].owner
    ensures Balance(Next(s, step).tokens, AgentAta(agent, mint)) >= Balance(s.tokens, AgentAta(agent, mint))
  {
    if Balance(Next(s, step).tokens, AgentAta(agent, mint)) < Balance(s.tokens, AgentAta(agent, mint)) {
      DebitsAreControlled(s, step, agent, mint);
      ControlsNeedOwner(s, step.signer, step.instruction);
    }
    if step.Call? && Applies(s, step) {
      if Controls(step.instruction) == Some(agent) {
        ControlsNeedOwner(s, step.signer, step.instruction);
      } else {
        UncontrolledLeavesAlone(s, step.signer, step.instruction, agent);
      }
    }
  }

  /** A wallet can still be closed exactly when its owner is an address that can sign. */
  lemma {:induction false} ExitExistsIff(run: Run, agent: AgentId)
    requires Valid(run) && agent in End(run).wallets
    ensures (exists later: Run :: Extends(later, run) && agent !in End(later).wallets)
            <==> End(run).wallets[agent].owner.Key?
  {
    if End(run).wallets[agent].owner.Key? {
      var limits := Limits(0, 0, 0, 0, 0, 0, 0, [], []);
      OwnerCanExit(run, agent, limits);
      var out := ExitRun(run, agent, End(run).wallets[agent].owner, HomeMint(End(run).wallets[agent]), limits);
      AppliedExtends(out, run);
      assert Extends(out, run) && agent !in End(out).wallets;
    } else {
      forall later: Run | Extends(later, run) ensures agent in End(later).wallets {
        ExtendsOrigin(later, run);
        UnsignableOwnerIsForever(later, run, agent, DefaultKey);
      }
    }
  }

  lemma {:induction false} ExtendsOrigin(run: Run, base: Run)
    requires Extends(run, base)
    ensures Origin(run) == Origin(base)
  {
    if run != base {
      ExtendsOrigin(run.prev, base);
    }
  }

  /** Nothing stops an owner from handing the wallet to such an address: only the default address is refused. */
  lemma OwnershipCanBeLost(s: State, agent: AgentId, owner: Address)
    requires agent in s.wallets && s.wallets[agent].owner == owner && owner.Key?
    ensures var s' := Next(s, Call(owner, TransferOwnership(agent, WalletPda(agent))));
            agent in s'.wallets && s'.wallets[agent].owner == WalletPda(agent) && !s'.wallets[agent].owner.Key?
  {
  }
}
