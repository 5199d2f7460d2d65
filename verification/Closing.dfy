/** What closing a wallet leaves behind in its token accounts. */
module Closing {
  import opened Results
  import opened Accounts
  import opened TokenProgram
  import opened Machine
  import opened Runs
  import opened Conservation
  import opened Lifecycle
  import opened Exit
  import opened Registration
  import opened Scenes

  // ----- Which account must be empty -----

  /** Closing by naming this mint leaves nothing in the wallet's own account, in any run. */
  ghost predicate CloseLeavesNothing(home: Address, mint: Address) {
    forall run: Run, agent: AgentId, signer: Address ::
      && Valid(run) && agent in End(run).wallets && HomeMint(End(run).wallets[agent]) == home
      && Applies(End(run), Call(signer, CloseAgent(agent, mint))) ==>
        Balance(Next(End(run), Call(signer, CloseAgent(agent, mint))).tokens,
                End(run).wallets[agent].usdcTokenAccount) == 0
  }

  /** A wallet with one token in its own account, an empty account of another mint, a policy, and switched off. */
  function IdleRun(home: Address, mint: Address, limits: Limits): Run {
    var r0 := Boot(Start().(supply := map[home := 0, mint := 0]));
    var r1 := After(r0, Call(OWNER, RegisterAgent(AGENT, home)));
    var r2 := After(r1, Mint(AgentAta(AGENT, home), 1));
    var r3 := After(r2, OpenAccount(AgentAta(AGENT, mint), WalletPda(AGENT), mint));
    var r4 := After(r3, Call(OWNER, SetSpendPolicy(AGENT, limits)));
    After(r4, Call(OWNER, SetActive(AGENT, false)))
  }

  /** The wallet with its two accounts, before it has a policy. */
  ghost predicate Holds(s: State, home: Address, mint: Address) {
    && AGENT in s.wallets && s.wallets[AGENT] == NewWallet(AGENT, OWNER, home, 0)
    && AgentAta(AGENT, home) in s.tokens && s.tokens[AgentAta(AGENT, home)].amount == 1
    && AgentAta(AGENT, mint) in s.tokens && s.tokens[AgentAta(AGENT, mint)].amount == 0
  }

  lemma {:induction false} IdleRunHolds(home: Address, mint: Address, limits: Limits)
    requires home != mint
    ensures Valid(IdleRun(home, mint, limits))
    ensures Holds(End(IdleRun(home, mint, limits).prev.prev), home, mint)
  {
    var r0 := Boot(Start().(supply := map[home := 0, mint := 0]));
    var r1 := After(r0, Call(OWNER, RegisterAgent(AGENT, home)));
    var r2 := After(r1, Mint(AgentAta(AGENT, home), 1));
    var r3 := After(r2, OpenAccount(AgentAta(AGENT, mint), WalletPda(AGENT), mint));
    assert IdleRun(home, mint, limits).prev.prev == r3;
    assert Origin(r1) == Origin(r0) && Origin(r2) == Origin(r1) && Origin(r3) == Origin(r2);
    assert Origin(IdleRun(home, mint, limits).prev) == Origin(r3);
    var account := TokenAccount(home, WalletPda(AGENT), 0);
    assert End(r1) == r0.start.(wallets := r0.start.wallets[AGENT := NewWallet(AGENT, OWNER, home, 0)],
                                tokens := r0.start.tokens[AgentAta(AGENT, home) := account]);
    assert End(r2) == End(r1).(tokens := End(r1).tokens[AgentAta(AGENT, home) := account.(amount := 1)],
                               supply := End(r1).supply[home := 1]);
    assert Applies(End(r2), r3.step);
  }

  lemma IdleCloses(s: State, home: Address, mint: Address, limits: Limits)
    requires Holds(s, home, mint) && limits.allowed == limits.blocked == []
    ensures var s' := Next(Next(s, Call(OWNER, SetSpendPolicy(AGENT, limits))), Call(OWNER, SetActive(AGENT, false)));
            && AGENT in s'.wallets && s'.wallets[AGENT].usdcTokenAccount == AgentAta(AGENT, home)
            && Applies(s', Call(OWNER, CloseAgent(AGENT, mint)))
            && Next(s', Call(OWNER, CloseAgent(AGENT, mint))).tokens == s.tokens
  {
    var s1 := Next(s, Call(OWNER, SetSpendPolicy(AGENT, limits)));
    assert SetPolicy(s, OWNER, AGENT, limits) == Ok(s1);
    assert ChangeActive(s1, OWNER, AGENT, false) == Ok(Next(s1, Call(OWNER, SetActive(AGENT, false))));
  }

  lemma {:induction false} IdleRunCloses(home: Address, mint: Address, limits: Limits)
    requires home != mint && limits.allowed == limits.blocked == []
    ensures var run := IdleRun(home, mint, limits);
            && Valid(run) && AGENT in End(run).wallets && HomeMint(End(run).wallets[AGENT]) == home
            && Applies(End(run), Call(OWNER, CloseAgent(AGENT, mint)))
            && Balance(Next(End(run), Call(OWNER, CloseAgent(AGENT, mint))).tokens,
                       End(run).wallets[AGENT].usdcTokenAccount) == 1
  {
    IdleRunHolds(home, mint, limits);
    var run := IdleRun(home, mint, limits);
    IdleCloses(End(run.prev.prev), home, mint, limits);
  }

  /**
    A successful close leaves the wallet's own account empty, whatever the run,
    exactly when the mint it names is the one the wallet was registered with.
  */
  lemma {:induction false} CloseLeavesNothingIff(home: Address, mint: Address)
    ensures CloseLeavesNothing(home, mint) <==> mint == home
  {
    if mint == home {
      forall run: Run, agent: AgentId, signer: Address
        | && Valid(run) && agent in End(run).wallets && HomeMint(End(run).wallets[agent]) == home
          && Applies(End(run), Call(signer, CloseAgent(agent, mint)))
        ensures Balance(Next(End(run), Call(signer, CloseAgent(agent, mint))).tokens,
                        End(run).wallets[agent].usdcTokenAccount) == 0
      {
        RunHasAccount(run, agent);
      }
    } else {
      var limits := Limits(0, 0, 0, 0, 0, 0, 0, [], []);
      var run := IdleRun(home, mint, limits);
      IdleRunCloses(home, mint, limits);
      assert Applies(End(run), Call(OWNER, CloseAgent(AGENT, mint)));
    }
  }

  // ----- After a close -----

  /**
    With one mint, a wallet that has been closed never comes back, and what its
    accounts hold or later receive never leaves them.
  */
  lemma {:induction false} ClosedForGood(run: Run, base: Run, agent: AgentId, mint: Address, other: Address)
    requires Valid(run) && Extends(run, base) && OneMint(run, mint)
    requires agent !in End(base).wallets && Incarnations(base, agent) > 0
    ensures agent !in End(run).wallets && Incarnations(run, agent) > 0
    ensures Balance(End(run).tokens, AgentAta(agent, other)) >= Balance(End(base).tokens, AgentAta(agent, other))
  {
    OneMintBefore(run, base, mint);
    ExtendsOrigin(run, base);
    OneIncarnation(base, agent, mint);
    OneIncarnation(run, agent, mint);
    OpenAccountBlocks(run, base, agent, mint, other);
    IncarnationsGrow(run, base, agent);
  }

  lemma {:induction false} OneMintBefore(run: Run, base: Run, mint: Address)
    requires Extends(run, base) && OneMint(run, mint)
    ensures OneMint(base, mint)
  {
    if run != base {
      OneMintBefore(run.prev, base, mint);
    }
  }

  lemma {:induction false} IncarnationsGrow(run: Run, base: Run, agent: AgentId)
    requires Extends(run, base)
    ensures Incarnations(base, agent) <= Incarnations(run, agent)
  {
    if run != base {
      IncarnationsGrow(run.prev, base, agent);
    }
  }
}
