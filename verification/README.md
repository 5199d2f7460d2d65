# Maxim Protocol settlement: a verified model

This project models the on-chain settlement program of the Maxim Protocol: agent
wallets with three accounting windows, spend policies with a threshold, budgets
and a rate limit, the protocol configuration, token balances, and the append-only
ledger of payment records. It proves what the counters, budgets and lifecycle
rules mean over every run of the program.

## How the model is built

- `Machine.dfy` is the program as a state machine. `Apply` gives, for each
  instruction, the new state or the first error; `Next` adds that an aborted
  instruction leaves no trace. Environment steps let time pass and let people
  open token accounts, receive newly minted tokens and move tokens they own.
- `Runs.dfy` defines runs: a starting state and any sequence of steps, failed
  ones included. Every theorem about runs is about all of them.
- `LoadedAccounts.dfy` and `Handlers.dfy` are the program in its own form:
  accounts are loaded into objects, changed field by field, interleaved with
  guards, record allocation and a token transfer, and written back. Each handler
  is proved to do what the state machine says, error for error, and
  `Handlers.Chain.Process` restores the store when a handler aborts half-way.
- `Acceptance.dfy` says for every instruction exactly when it succeeds and exactly
  what it then changes; `Settings.dfy` reads owner, home mint, flags, limits, admin
  and cap off the steps of a run.
- `Ledger.dfy` adds up a history in unbounded integers (`Tally`). It is the
  reference for all counters.
- `Books.dfy`, `RateLimit.dfy` and `Reachable.dfy` hold the invariant of every
  reachable state.
- `Refinement.dfy` decides one payment from the ledger alone; `Reference.dfy` makes
  that a machine of its own, without counters, and runs the program in lock-step
  with it.
- `Updates.dfy` bounds the calls of a whole history, in which the policy is set
  again and again; `Outflow.dfy` sets the ledger against the token accounts.
- `Scenes.dfy` builds runs with payments at chosen times; `Tightness.dfy`,
  `LimitTightness.dfy`, `LeakTightness.dfy`, `TopBudget.dfy`, `Closing.dfy` and
  `Registration.dfy` use constructed runs to say exactly when a documented rule
  holds. The other files draw further consequences of the invariant.

Terms. A wallet's three windows are cells of grids laid at its registration
(`Runs.RegisteredAt`). A wallet is *stuck* if it was registered again over the
records of an earlier incarnation (its sequence is zero but record zero exists);
*live* means present and not stuck. With one mint no wallet is ever stuck
(`Lifecycle.OneIncarnation`), so the theorems about live wallets are then about
all wallets.

Environment assumptions: the clock never goes back and stays between 0 and
2^63 - 2^32; program-derived addresses are injective in their seeds and cannot
sign; the balances of a mint add up to its supply, which fits 64 bits, before the
program is first called; no token account is frozen by its mint's freeze authority,
which would make transfers fail (`Exit.OwnerCanExit` relies on this). Overflow
traps are part of the model; that none occurs is proved (`Counters.NoOverflow`).

## Where code and documentation differ

The model follows the code.

- A threshold of zero enforces nothing and a threshold of one enforces everything
  (lib.rs:374-375); spend_policy.rs:17-18 says zero enforces everything. See
  `Budgets.EnforcesEverythingIff`.
- Budgets are described as holding in "any" window (spend_policy.rs:27-39). They
  hold per grid cell. A period of a window's length that starts a given number of
  seconds after registration keeps within the budget in every run exactly when no
  boundary between two cells falls strictly inside it while the clock runs
  (`Tightness.BudgetHoldsIff`); otherwise it can hold twice the budget, and never
  more (`Tightness.TwiceTheBudget`, `Budgets.SlidingBound`).
- A rate limit of so many calls "within `rate_limit_window_secs`" (spend_policy.rs:45-51)
  can be exceeded in two ways: a period of that length can meet two windows, and
  setting the policy, to whatever values, clears the counter and restarts the
  window (lib.rs:289-290). A period holds at most one limit for each window it can
  meet and one for each time the policy is set in it (`Updates.LimitAcrossUpdates`),
  and no less will do (`LimitTightness.BoundHoldsIff`). So the documented limit
  holds exactly for windows of one second in which the policy is not set
  (`LimitTightness.DocumentedLimitHoldsIff`). Counting only the calls since the
  policy was last set, it holds exactly for windows of one second
  (`LimitTightness.LimitHoldsIff`).
- Closing asks for a drained token account (lib.rs:730-732), but the account checked
  is that of whatever mint the instruction names (lib.rs:1106-1113). The wallet's own
  account is empty after every successful close exactly when that mint is the one
  the wallet was registered with (`Closing.CloseLeavesNothingIff`). What an account
  holds when its wallet is gone can then go to any key that can sign, by registering
  the identifier again, exactly when the identifier is valid and there is some mint
  whose account for it is not open yet (`Registration.LeftoverIff`); otherwise it
  stays there for good. If every registration and every settlement of a run names
  one mint, a closed wallet never comes back (`Closing.ClosedForGood`).
- Registration is said to fail only if the wallet exists (lib.rs:213-215), but the
  token account is created too (lib.rs:858-866), and anyone can open it first. An
  identifier without a wallet can be registered at some later time exactly when
  some mint's account for it is not open (`Registration.RegistrableIff`); with one
  mint, an outsider who opens that account shuts the identifier out for good
  (`Registration.OutsiderBlocks`).
- `total_volume` is described as the tokens "transferred from this wallet"
  (agent_wallet.rs:73-75), but a settlement names its mint freely
  (lib.rs:946-958) and the volume adds up the amounts of all mints
  (`Outflow.LedgerIsOutflow`). Short of saturation it is the outflow of the wallet's
  own account exactly when every settlement named the mint of registration
  (`Outflow.VolumeIsHomeOutflowIff`).
- A budget of 2^64 - 1 limits nothing, because the check saturates
  (`Refinement.BudgetCheckExactIff`, `TopBudget.SettlesAsNaiveIff`).
- The owner "can always recover" the funds (lib.rs:659) unless ownership was
  transferred to an address that cannot sign; only the default address is refused
  (`Exit.ExitExistsIff`, `Exit.OwnershipCanBeLost`).
- The handlers write a memo into the record (lib.rs:477, lib.rs:538), but the
  record declares no such field; the model's record has none.

## Model

| member | source | states |
|---|---|---|
| Windows.RollRefinesLoop | programs/maxim_protocol/src/state/agent_wallet.rs:121-146 | the division form of a window reset equals moving the start on one period at a time and clearing the spend whenever it moves, and lands in the window that holds the present |
| Windows.RollPathIndependent | programs/maxim_protocol/src/state/agent_wallet.rs:121-146 | resetting at one time and again later leaves exactly what one reset at the later time leaves, without overflow |
| LoadedAccounts.AgentWallet.ResetDailyWindowIfElapsed | programs/maxim_protocol/src/state/agent_wallet.rs:122-128 | the in-place daily reset is the specified roll of the daily window, traps included |
| LoadedAccounts.AgentWallet.ResetWeeklyWindowIfElapsed | programs/maxim_protocol/src/state/agent_wallet.rs:131-137 | the same for the weekly window |
| LoadedAccounts.AgentWallet.ResetMonthlyWindowIfElapsed | programs/maxim_protocol/src/state/agent_wallet.rs:140-146 | the same for the monthly window |
| LoadedAccounts.SpendPolicy.ResetRateWindowIfElapsed | programs/maxim_protocol/src/state/spend_policy.rs:128-135 | the in-place rate-window reset is the specified roll, which restarts the window at the call |
| Handlers.EnforcePolicy | programs/maxim_protocol/src/lib.rs:370-423 | the in-place policy enforcement returns the first failing check in the specified order, or counts the call exactly when the payment is enforced |
| Handlers.ApprovePayment | programs/maxim_protocol/src/lib.rs:331-423 | guards, three window resets and policy enforcement on the loaded accounts, with the same first error as the pure ordered check |
| Handlers.BookPayment | programs/maxim_protocol/src/lib.rs:452-462 | the bookkeeping after the transfer, field by field, is the specified update |
| Handlers.Chain.TransferTokens | programs/maxim_protocol/src/lib.rs:428-450 | the token transfer is the specified one, which `TokenProgram.TransferSucceedsIff` describes, nothing moves on a transfer to itself, and balances are left alone when it fails |
| TokenProgram.TransferSucceedsIff | programs/maxim_protocol/src/lib.rs:428-450 | a transfer succeeds if and only if both accounts exist, have one mint, and the first covers the amount, whole balance or part, with room in the second; the two then differ by exactly the amount |
| Handlers.Chain.SettlePayment | programs/maxim_protocol/src/lib.rs:326-493 | the mutate-then-check handler commits the specified state or aborts with the specified first error |
| Handlers.Chain.RecordPolicyViolation | programs/maxim_protocol/src/lib.rs:505-550 | the violation handler commits the specified state or aborts with the specified first error |
| Handlers.Chain.RegisterAgent | programs/maxim_protocol/src/lib.rs:221-252 | registration creates wallet and token account as specified, or aborts as specified |
| Handlers.Chain.SetSpendPolicy | programs/maxim_protocol/src/lib.rs:266-307 | creating or updating a policy sets every setting and clears the call counter, and touches no spend |
| Handlers.Chain.WithdrawFunds | programs/maxim_protocol/src/lib.rs:664-693 | a withdrawal pays the owner's own account, whatever the flags |
| Handlers.Chain.WithdrawAll | programs/maxim_protocol/src/lib.rs:746-772 | the same for the whole balance |
| Handlers.Chain.CloseAgent | programs/maxim_protocol/src/lib.rs:1083-1121 | closing removes wallet and policy, and leaves token account and records |
| Handlers.Chain.Process | programs/maxim_protocol/src/lib.rs:331-462 | an instruction that fails, at whatever point, leaves the whole store as it was and reports the specified error; one that succeeds makes the specified change |
| Ledger.SmallPaymentsBound | programs/maxim_protocol/src/lib.rs:416-421 | payments below a threshold total at most their number times the threshold less one |
| Books.RollAgrees | programs/maxim_protocol/src/lib.rs:360-362 | rolling an accumulator that agrees with the ledger never traps and gives the ledger's spend of the cell of the present |
| Books.SettlementAgrees | programs/maxim_protocol/src/lib.rs:452-462 | a settlement keeps every counter of the wallet in agreement with the longer history, under saturation and stale windows |
| Books.ViolationAgrees | programs/maxim_protocol/src/lib.rs:522-536 | a violation record advances sequence and count and leaves every accumulator in agreement |
| RateLimit.RollRateAgrees | programs/maxim_protocol/src/state/spend_policy.rs:128-135 | rolling the limiter never traps and leaves its counter equal to the calls the ledger shows in the rolled window |
| RateLimit.CallAgrees | programs/maxim_protocol/src/lib.rs:394-421 | counting a call in a window with room keeps the limit in the window and twice the limit, or the limit itself if the window is one second, in every period, among the calls since the policy was set |
| Reachable.NextKeyIsCount | programs/maxim_protocol/src/lib.rs:912-922 | a wallet whose next record address is free is not stuck, and that address is numbered by how many records exist |
| Reachable.StepKeeps | programs/maxim_protocol/src/lib.rs:157-773 | every instruction and every environment step keeps every agent's wallet, policy and records in agreement |
| Reachable.RunSound | programs/maxim_protocol/src/lib.rs:157-773 | in every reachable state every agent's wallet, policy and records agree |
| Counters.AccumulatorsAreLedgerSums | programs/maxim_protocol/src/lib.rs:452-462 | each accumulator is the saturated total of the successful payments at or after its window's start, stale windows included |
| Counters.LifetimeCounters | programs/maxim_protocol/src/lib.rs:458-461 | sequence and payment count are the number of records, volume is the saturated total settled, times never go back, and the last payment time is that of the last successful record, or zero |
| Counters.WindowsNest | programs/maxim_protocol/src/lib.rs:237-242 | window starts lie on grids laid at registration, the daily one not before the others, so daily spend is within weekly and monthly spend, and those within the volume |
| Counters.RateCounterIsLedgerCount | programs/maxim_protocol/src/lib.rs:416-421 | the call counter is the saturated number of enforced settlements since the policy was set that fall in its window |
| Counters.RateLimitOverRuns | programs/maxim_protocol/src/state/spend_policy.rs:123-135 | the counter never exceeds a nonzero limit, among the calls since the policy was set, any half-open period of the window's length holds at most twice the limit, or the limit itself if that length is one second, and a window of zero seconds is a cap until the policy is set again |
| Replay.RunReplays | programs/maxim_protocol/src/state/spend_policy.rs:128-135 | in every reachable state the rate-limit window begins where a replay of the calls since the policy was set would have it begin |
| Counters.NoOverflow | programs/maxim_protocol/src/state/agent_wallet.rs:122-146 | no settlement in a reachable state traps on window arithmetic |
| Refinement.BudgetCheckDecides | programs/maxim_protocol/src/state/spend_policy.rs:105-119 | the saturating check on a saturated accumulator decides the true sum, unless the budget is the top value |
| Refinement.BudgetCheckExactIff | programs/maxim_protocol/src/state/spend_policy.rs:105-119 | it does so for all spends and amounts if and only if the budget is not the top value |
| Refinement.ApproveRefines | programs/maxim_protocol/src/lib.rs:331-423 | the counters give the same verdict and the same first error as a checker that keeps none and adds up the ledger |
| Refinement.SettleRefinesLenient | programs/maxim_protocol/src/lib.rs:326-493 | in every reachable state of a wallet that is not stuck, whatever its budgets, settlement accepts exactly what that checker accepts if a budget at the top of the range never refuses, with the same errors, record and balances |
| Refinement.SettleRefinesNaive | programs/maxim_protocol/src/lib.rs:326-493 | with no budget at the top of the range, it is the plain checker |
| TopBudget.SettlesAsNaiveIff | programs/maxim_protocol/src/state/spend_policy.rs:105-119 | for a given budget, settlement decides as that checker in every run if and only if the budget is not the top value; for the top value a run is built in which they differ |
| Reference.OtherStepTwins | programs/maxim_protocol/src/lib.rs:157-773 | no instruction but the two that write records looks at a counter: same verdict, and states that still differ in counters only |
| Reference.RunOver | programs/maxim_protocol/src/lib.rs:912-922 | a wallet is stuck exactly when records existed at its registration, and then none has been added since |
| Reference.LockStep | programs/maxim_protocol/src/lib.rs:326-550 | over every run, stuck wallets and top budgets included, the program and a machine that keeps no counters hold the same ledger, tokens, flags and settings, and give the same verdict and error on every next step |
| Acceptance.SettleSucceedsIff | programs/maxim_protocol/src/lib.rs:326-493 | in every reachable state of a wallet that is not stuck a settlement succeeds if and only if the owner signs, the accounts are there with the record number free, the verdict read off the ledger is favourable, the payee account has the named mint and the agent's covers the amount; payee and agent then differ by exactly the amount, and exactly this record is added |
| Acceptance.ViolationSucceedsIff | programs/maxim_protocol/src/lib.rs:505-550 | in every reachable state a violation is recorded if and only if the owner of a live wallet signs for the next record number with a known protocol; the record is spelled out field by field, and no token or policy changes |
| Acceptance.ViolationIff | programs/maxim_protocol/src/lib.rs:505-550 | in every state, with the error for a stranger, an unknown protocol and a wrong sequence |
| Acceptance.WithdrawSucceedsIff | programs/maxim_protocol/src/lib.rs:664-693 | in every reachable state, whatever the flags, a withdrawal succeeds if and only if the owner signs, both accounts exist and the amount is positive and covered; exactly that amount moves and nothing else changes |
| Acceptance.WithdrawalIff | programs/maxim_protocol/src/lib.rs:664-693 | the same wherever balances add up, with the error for a stranger, a zero amount and an uncovered one |
| Acceptance.WithdrawAllSucceedsIff | programs/maxim_protocol/src/lib.rs:746-772 | the same for the whole balance, which must be positive |
| Acceptance.SetPolicySucceedsIff | programs/maxim_protocol/src/lib.rs:266-307 | a first policy or an update succeeds if and only if the owner signs and both lists have at most 32 entries; the stored limits are then the argument, the count is zero and the window starts now |
| Acceptance.TransferOwnershipSucceedsIff | programs/maxim_protocol/src/lib.rs:704-725 | a transfer succeeds if and only if the owner signs and the new owner is neither the default address nor the present one; the new owner is then the owner, and nothing else changes |
| Acceptance.RegisterSucceedsIff | programs/maxim_protocol/src/lib.rs:221-252 | a registration succeeds if and only if wallet and token account are vacant and the identifier has 1 to 64 letters, digits, hyphens and underscores; every field of the new accounts is stated |
| Acceptance.SetActiveSucceedsIff | programs/maxim_protocol/src/lib.rs:561-606 | switching succeeds if and only if the owner signs, and changes the one flag |
| Acceptance.SetFrozenSucceedsIff | programs/maxim_protocol/src/lib.rs:611-656 | freezing succeeds if and only if the admin signs, and changes the one flag |
| Acceptance.CloseSucceedsIff | programs/maxim_protocol/src/lib.rs:1083-1121 | a close succeeds if and only if the owner signs, wallet, policy and named account are there, the wallet is inactive and that account is empty, with the error for an active wallet and for a balance; wallet and policy are then gone and nothing else is |
| Acceptance.InitSucceedsIff | programs/maxim_protocol/src/lib.rs:169-177 | initialisation succeeds once, for an admin other than the default address, and sets admin, version 2 and no cap |
| Acceptance.RotateSucceedsIff | programs/maxim_protocol/src/lib.rs:184-191 | rotation succeeds if and only if the admin signs for another than the default address, and changes the admin |
| Acceptance.UpdateConfigSucceedsIff | programs/maxim_protocol/src/lib.rs:202-208 | a cap update succeeds if and only if the admin signs, and changes the cap |
| Settings.SettingsAreLastDecided | programs/maxim_protocol/src/lib.rs:157-773 | in every reachable state owner, home mint, both flags and limits of an agent are those last successfully decided since its registration, read off the steps, and there are none without a wallet |
| Settings.TransferHandsOver | programs/maxim_protocol/src/lib.rs:704-725 | after a transfer the former owner is refused every instruction on the agent, in every later state, until it is named owner again |
| Settings.GovernanceIsLastDecided | programs/maxim_protocol/src/lib.rs:169-208 | in every reachable state admin and cap are the arguments of the last successful calls that set them |
| Settings.OnlyTheAdmin | programs/maxim_protocol/src/lib.rs:186-208 | the configuration changes only with the signature of the admin in it |
| Budgets.EnforcesEverythingIff | programs/maxim_protocol/src/lib.rs:374-375 | a threshold enforces every payment exactly when it is one, and any payment exactly when it is not zero |
| Budgets.EnforcedSettlementWithinBudget | programs/maxim_protocol/src/lib.rs:382-393 | in every run, after an enforced settlement, each accumulator is within its nonzero budget, and so is what the ledger shows spent in the cell of the present, unless the budget is the top value |
| Budgets.RunHolds | programs/maxim_protocol/src/lib.rs:374-393 | along a run with strict policies every cell of the grid holds at most the budget plus the unenforced payments made in it |
| Budgets.LeakBound | programs/maxim_protocol/src/lib.rs:374-393 | an accumulator exceeds the budget by at most the window's unenforced payments, hence by at most their number times the threshold less one |
| LeakTightness.LeakWithinIff | programs/maxim_protocol/src/lib.rs:374-393 | with at most so many unenforced payments in its window, a bound on an accumulator holds in every strict run if and only if it covers the budget plus those payments at one less than the threshold, or those payments alone if the budget is below the threshold, up to saturation |
| Budgets.SlidingBound | programs/maxim_protocol/src/lib.rs:282-294 | with every payment enforced, any half-open interval of one period holds at most twice the budget, across policy updates |
| Budgets.CrossWindowBounds | programs/maxim_protocol/src/state/agent_wallet.rs:4-6 | a daily budget bounds the weekly accumulator sevenfold and the monthly one thirtyfold, whether or not those have budgets |
| Budgets.MonthlyFromWeekly | programs/maxim_protocol/src/state/agent_wallet.rs:4-6 | a weekly budget bounds the monthly accumulator sixfold |
| Tightness.BudgetHoldsIff | programs/maxim_protocol/src/state/spend_policy.rs:27-39 | a budget holds over the period starting a given number of seconds after registration, in every run with everything enforced, if and only if no cell boundary within the clock's range falls strictly inside it |
| Tightness.TwiceTheBudget | programs/maxim_protocol/src/state/spend_policy.rs:27-39 | for every period that a boundary does fall inside, some run spends exactly twice the budget in it |
| LimitTightness.TwiceTheLimit | programs/maxim_protocol/src/state/spend_policy.rs:123-135 | for every limit and every window of two seconds or more, some run makes twice the limit of enforced payments within one window's length, under one policy |
| LimitTightness.LimitHoldsIff | programs/maxim_protocol/src/state/spend_policy.rs:123-135 | among the calls since the policy was last set, a nonzero limit with a nonzero window holds over every period of the window's length, in every run, if and only if the window is one second |
| Updates.LimitAcrossUpdates | programs/maxim_protocol/src/lib.rs:279-294 | over the whole history, with policies at least as strict throughout, a period of the window's length holds at most one limit for each window it can meet and one for each time the policy was set in it |
| LimitTightness.BoundHoldsIff | programs/maxim_protocol/src/lib.rs:279-294 | for every number of times the policy is set in a period, a bound on its enforced settlements holds in every run if and only if it is no less than that sum, or than the number of records there can be |
| LimitTightness.DocumentedLimitHoldsIff | programs/maxim_protocol/src/state/spend_policy.rs:45-51 | the limit itself bounds the enforced settlements of a period of the window's length, in every run, if and only if the window is one second and the policy is not set in the period |
| Tightness.DailyFactorIff | programs/maxim_protocol/src/state/agent_wallet.rs:4-6 | with everything enforced, a multiple of the daily budget bounds the weekly accumulator in every run if and only if it covers seven budgets, and the monthly one if and only if it covers thirty, or the accumulator's whole range |
| Tightness.WeeklyFactorIff | programs/maxim_protocol/src/state/agent_wallet.rs:4-6 | with everything enforced, a multiple of the weekly budget bounds the monthly accumulator in every run if and only if it covers six budgets, or the accumulator's whole range |
| Conservation.ProgramConserves | programs/maxim_protocol/src/lib.rs:775-795 | no instruction changes the sum of all balances of any mint |
| Conservation.RunTokensSound | programs/maxim_protocol/src/lib.rs:664-693 | in every reachable state the balances of a mint add up to its supply |
| Conservation.BalanceIsFlows | programs/maxim_protocol/src/lib.rs:428-450 | every account's balance is its opening balance plus what came in less what went out, aliased accounts and payments to itself included |
| Conservation.OutsidersNeverDebit | programs/maxim_protocol/src/lib.rs:946-952 | nothing but this program's instructions takes tokens out of an agent's account |
| Outflow.LedgerIsOutflow | programs/maxim_protocol/src/lib.rs:466-478 | in every run the ledger's total is what was settled out of the agent's accounts of all mints, payments to itself included |
| Outflow.OneOutflowIff | programs/maxim_protocol/src/lib.rs:946-958 | the outflow of the agent's account of one mint is at most the ledger's total, and equal to it if and only if every settlement of the run named that mint |
| Outflow.VolumeIsHomeOutflowIff | programs/maxim_protocol/src/state/agent_wallet.rs:73-75 | a live wallet's volume is the outflow of its own account if and only if every settlement named the mint of registration, or that outflow saturates |
| Lifecycle.LedgerIsAppendOnly | programs/maxim_protocol/src/lib.rs:912-922 | no later step removes or changes a record, closing and registering again included |
| Lifecycle.RecordKeysAreExact | programs/maxim_protocol/src/lib.rs:460 | a live wallet's record numbers are exactly those below its sequence, and the top number too once the sequence has saturated |
| Lifecycle.SealedForever | programs/maxim_protocol/src/lib.rs:336-339 | an agent whose next record address is taken never gets another record |
| Lifecycle.SaturationIsFinal | programs/maxim_protocol/src/lib.rs:515-526 | once the sequence has saturated both record-creating instructions are refused for ever |
| Lifecycle.OneIncarnation | programs/maxim_protocol/src/lib.rs:858-866 | with one mint an agent identifier has at most one wallet incarnation in any run, because the token account outlives the wallet, and no wallet is ever stuck |
| Lifecycle.ReRegisteredStaysAtZero | programs/maxim_protocol/src/lib.rs:1083-1111 | a wallet registered over older records keeps its sequence and books at zero for ever |
| Safety.SuspensionStopsPayments | programs/maxim_protocol/src/lib.rs:355-359 | while a wallet is inactive or frozen, by any interleaving of the two flags, it settles nothing and its accumulators stand still |
| Safety.CapHolds | programs/maxim_protocol/src/lib.rs:345-353 | every successful payment made while a protocol cap is in force is within it |
| Safety.ViolationStaysPossible | programs/maxim_protocol/src/lib.rs:505-519 | violations can be recorded whatever flags and cap say, while the wallet has a record number left |
| Safety.OnlyTheOwner | programs/maxim_protocol/src/lib.rs:884-1081 | nothing the owner decides, and none of the agent's tokens, changes without the owner's signature, and the freeze flag not without the admin's |
| Exit.OwnerCanExit | programs/maxim_protocol/src/lib.rs:1083-1121 | from every reachable state an owner that can sign gets out: each step goes through, wallet and policy are closed, and the whole balance goes to the owner and to nobody else |
| Exit.UnsignableOwnerIsForever | programs/maxim_protocol/src/lib.rs:704-725 | an owner that cannot sign stays the owner, and the wallet stays open and is never paid out |
| Exit.ExitExistsIff | programs/maxim_protocol/src/lib.rs:746-772 | a wallet can still be closed, by some continuation of the run, exactly when its owner can sign |
| Exit.OwnershipCanBeLost | programs/maxim_protocol/src/lib.rs:704-715 | an owner can hand the wallet to an address that cannot sign |
| Closing.CloseLeavesNothingIff | programs/maxim_protocol/src/lib.rs:1106-1113 | a successful close that names a mint leaves the wallet's own account empty in every run if and only if that is the mint the wallet was registered with |
| Closing.ClosedForGood | programs/maxim_protocol/src/lib.rs:730-732 | with one mint a closed wallet never comes back, and what its accounts hold or later receive never leaves them |
| Registration.RegistrableIff | programs/maxim_protocol/src/lib.rs:858-866 | an identifier without a wallet can be registered by some continuation if and only if it is valid and some mint's account for it is not open |
| Registration.LeftoverIff | programs/maxim_protocol/src/lib.rs:1106-1113 | tokens left in an account of an identifier without a wallet can go to any key that can sign if and only if the identifier can be registered, and to no key otherwise |
| Registration.OpenAccountBlocks | programs/maxim_protocol/src/lib.rs:858-866 | with one mint, an identifier without a wallet whose account is open is never registered, and its accounts' balances never fall |
| Registration.OutsiderBlocks | programs/maxim_protocol/src/lib.rs:213-215 | with one mint, opening that account, which anyone may, is enough |

## Left out

- Account serialisation, rent, lamports, bump seeds, signer seeds of the token call, events and the memo: account creation and closing are existence in the store.
- Hashes, signatures and address derivation: digests are opaque numbers, addresses are constructors; the runtime's 32-byte limit on one seed is not modelled.
- The order among failing account constraints is fixed by the account framework, which is not part of this model: missing accounts come first, then occupied addresses, then ownership.
- The parent-payment link: stored unchecked by the program and carried in the record; nothing is claimed about chains of links.
- The off-chain gateway: payments below the threshold are unchecked here.
- The default-key, protocol-discriminant, domain-list and identifier checks have no theorem of their own: each is one branch of a handler.
- Token burns, closing of outside token accounts, and changing an account's authority: outside users only open accounts, receive new tokens and move their own.
- The wallet and policy objects of a handler are loaded copies, as in the account framework; two handlers never share one.
