/**
  When an identifier without a wallet can be registered, who then holds what its
  accounts kept, and what an account opened by an outsider does to it.
*/
module Registration {
  import opened Results
  import opened Accounts
  import opened TokenProgram
  import opened Machine
  import opened Runs
  import opened Reachable
  import opened Conservation
  import opened Lifecycle
  import opened Safety
  import opened Exit

  predicate ValidId(agent: AgentId) {
    0 < |agent| <= MAX_AGENT_ID_LEN && forall i :: 0 <= i < |agent| ==> IsIdByte(agent[i])
  }

  /** Is there a mint whose account for this agent is not open yet? */
  ghost predicate Registrable(s: State, agent: AgentId) {
    ValidId(agent) && exists mint :: mint in s.supply && AgentAta(agent, mint) !in s.tokens
  }

  // ----- Never, if every account is open -----

  /** Accounts stay open, so what cannot be registered stays so. */
  lemma {:induction false} RegistrableOnlyFalls(s: State, step: Step, agent: AgentId)
    requires !Registrable(s, agent)
    ensures !Registrable(Next(s, step), agent)
  {
    var s' := Next(s, step);
    MintsAreFixed(s, step);
    forall mint | mint in s'.supply && ValidId(agent) ensures AgentAta(agent, mint) in s'.tokens {
      assert mint in s.supply.Keys;
      AccountsPersist(s, step, AgentAta(agent, mint));
    }
  }

  lemma RegisteringNeedsRoom(s: State, step: Step, agent: AgentId)
    requires Registers(s, step, agent)
    ensures Registrable(s, agent) && step.signer.Key?
  {
    assert AgentAta(agent, step.instruction.mint) !in s.tokens;
  }

  /** Only a registration brings back a wallet that is absent, and nothing debits its accounts meanwhile. */
  lemma {:induction false} AbsentStep(s: State, step: Step, agent: AgentId, mint: Address)
    requires TokensSound(s) && 0 <= s.now <= MAX_CLOCK && agent !in s.wallets
    ensures agent in Next(s, step).wallets ==> Registers(s, step, agent)
    ensures Balance(Next(s, step).tokens, AgentAta(agent, mint)) >= Balance(s.tokens, AgentAta(agent, mint))
  {
    if Balance(Next(s, step).tokens, AgentAta(agent, mint)) < Balance(s.tokens, AgentAta(agent, mint)) {
      DebitsAreControlled(s, step, agent, mint);
      ControlsNeedOwner(s, step.signer, step.instruction);
    }
    if Writes(step) != Some(agent) || !Applies(s, step) {
      OtherStepsAlike(s, step, agent);
    } else if !step.instruction.RegisterAgent? {
      ControlsNeedOwner(s, step.signer, step.instruction);
    }
  }

  lemma {:induction false} AbsentForGood(run: Run, base: Run, agent: AgentId, mint: Address)
    requires Valid(run) && Extends(run, base)
    requires agent !in End(base).wallets && !Registrable(End(base), agent)
    ensures agent !in End(run).wallets && !Registrable(End(run), agent)
    ensures Balance(End(run).tokens, AgentAta(agent, mint)) >= Balance(End(base).tokens, AgentAta(agent, mint))
  {
    if run != base {
      var s := End(run.prev);
      AbsentForGood(run.prev, base, agent, mint);
      RunTokensSound(run.prev);
      ClockInRange(run.prev);
      AbsentStep(s, run.step, agent, mint);
      RegistrableOnlyFalls(s, run.step, agent);
      if Registers(s, run.step, agent) {
        RegisteringNeedsRoom(s, run.step, agent);
      }
    }
  }

  // ----- By anyone, otherwise -----

  /** Any key that can sign registers the agent with such a mint, at once. */
  lemma RegistrationApplies(run: Run, agent: AgentId, key: Address) returns (later: Run)
    requires Valid(run) && agent !in End(run).wallets && Registrable(End(run), agent) && key.Key?
    ensures Valid(later) && AllApplied(later, run)
    ensures agent in End(later).wallets && End(later).wallets[agent].owner == key
    ensures forall a :: a in End(run).tokens ==> a in End(later).tokens
    ensures forall a :: Balance(End(later).tokens, a) == Balance(End(run).tokens, a)
  {
    var s := End(run);
    var mint :| mint in s.supply && AgentAta(agent, mint) !in s.tokens;
    assert Register(s, key, agent, mint).Ok?;
    later := After(run, Call(key, RegisterAgent(agent, mint)));
    assert AllApplied(run, run);
    assert Execute(s, key, RegisterAgent(agent, mint)) == Register(s, key, agent, mint);
  }

  /** And it can then have everything an older account of the agent holds. */
  lemma {:induction false} LeftoverPaidOut(run: Run, agent: AgentId, mint: Address, key: Address) returns (later: Run)
    requires Valid(run) && agent !in End(run).wallets && Registrable(End(run), agent) && key.Key?
    requires AgentAta(agent, mint) in End(run).tokens
    ensures AllApplied(later, run) && Extends(later, run)
    ensures agent in End(later).wallets && End(later).wallets[agent].owner == key
    ensures AllPaidOver(End(run).tokens, End(later).tokens, AgentAta(agent, mint), Ata(key, mint))
  {
    var registered := RegistrationApplies(run, agent, key);
    var ready := Opened(registered, key, mint);
    later := Drained(ready, agent, key, mint);
    OpeningApplies(registered, agent, key, mint);
    DrainingApplies(ready, agent, key, mint);
    AppliedTransitive(ready, registered, run);
    AppliedTransitive(later, ready, run);
    AppliedExtends(later, run);
  }

  /** An identifier without a wallet can have one again, by some continuation, exactly when it is registrable. */
  lemma {:induction false} RegistrableIff(run: Run, agent: AgentId)
    requires Valid(run) && agent !in End(run).wallets
    ensures (exists later: Run :: Extends(later, run) && agent in End(later).wallets) <==> Registrable(End(run), agent)
  {
    if Registrable(End(run), agent) {
      var later := RegistrationApplies(run, agent, Key(0));
      AppliedExtends(later, run);
    } else {
      forall later: Run | Extends(later, run) ensures agent !in End(later).wallets {
        ExtendsOrigin(later, run);
        AbsentForGood(later, run, agent, DefaultKey);
      }
    }
  }

  /** What an account of such an identifier holds can leave it, and go to `key`, in some continuation. */
  ghost predicate CanReceive(run: Run, agent: AgentId, mint: Address, key: Address) {
    exists later: Run ::
      Extends(later, run) && AllPaidOver(End(run).tokens, End(later).tokens, AgentAta(agent, mint), Ata(key, mint))
  }

  /**
    Tokens left in an account of an identifier without a wallet can go to any key
    whatever, and to some key at all, exactly when the identifier is registrable.
  */
  lemma {:induction false} LeftoverIff(run: Run, agent: AgentId, mint: Address)
    requires Valid(run) && agent !in End(run).wallets && Balance(End(run).tokens, AgentAta(agent, mint)) > 0
    ensures (forall key: Address :: key.Key? ==> CanReceive(run, agent, mint, key)) <==> Registrable(End(run), agent)
    ensures (exists key: Address :: key.Key? && CanReceive(run, agent, mint, key)) <==> Registrable(End(run), agent)
  {
    if Registrable(End(run), agent) {
      forall key: Address | key.Key? ensures CanReceive(run, agent, mint, key) {
        var later := LeftoverPaidOut(run, agent, mint, key);
      }
      assert Key(0).Key? && CanReceive(run, agent, mint, Key(0));
    } else {
      forall key: Address ensures !CanReceive(run, agent, mint, key) {
        forall later: Run | Extends(later, run)
          ensures !AllPaidOver(End(run).tokens, End(later).tokens, AgentAta(agent, mint), Ata(key, mint))
        {
          ExtendsOrigin(later, run);
          AbsentForGood(later, run, agent, mint);
        }
      }
      assert Key(0).Key?;
    }
  }

  // ----- One mint -----

  /**
    With one mint, an identifier without a wallet whose account is open is never
    registered again, and what the account holds never leaves it.
  */
  lemma {:induction false} OpenAccountBlocks(run: Run, base: Run, agent: AgentId, mint: Address, other: Address)
    requires Valid(run) && Extends(run, base) && OneMint(run, mint)
    requires agent !in End(base).wallets && AgentAta(agent, mint) in End(base).tokens
    ensures agent !in End(run).wallets && AgentAta(agent, mint) in End(run).tokens
    ensures Balance(End(run).tokens, AgentAta(agent, other)) >= Balance(End(base).tokens, AgentAta(agent, other))
  {
    if run != base {
      OpenAccountBlocks(run.prev, base, agent, mint, other);
      RunTokensSound(run.prev);
      ClockInRange(run.prev);
      AbsentStep(End(run.prev), run.step, agent, other);
      AccountsPersist(End(run.prev), run.step, AgentAta(agent, mint));
    }
  }

  /** Anyone may open that account first, and then the agent is never registered. */
  lemma {:induction false} OutsiderBlocks(run: Run, base: Run, agent: AgentId, mint: Address)
    requires Valid(run) && OneMint(run, mint)
    requires agent !in End(base).wallets && mint in End(base).supply
    requires Extends(run, After(base, OpenAccount(AgentAta(agent, mint), WalletPda(agent), mint)))
    ensures agent !in End(run).wallets
  {
    var step := OpenAccount(AgentAta(agent, mint), WalletPda(agent), mint);
    assert Next(End(base), step).wallets == End(base).wallets && AgentAta(agent, mint) in Next(End(base), step).tokens;
    OpenAccountBlocks(run, After(base, step), agent, mint, mint);
  }
}
