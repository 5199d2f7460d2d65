/**
  A small world to build runs in: one agent, one mint, a funded account that pays
  itself, and one policy set at time zero. Used to show that bounds are attained.
*/
module Scenes {
  import opened Numbers
  import opened Results
  import opened Accounts
  import opened Ledger
  import opened Windows
  import opened Machine
  import opened Runs
  import opened Reachable
  import opened Refinement

  const OWNER: Address := Key(0)
  const USDC: Address := Other(0)
  const AGENT: AgentId := [97]
  const ATA: Address := AgentAta(AGENT, USDC)

  function Pay(amount: U64): Payment {
    Payment(AGENT, 0, 0, amount, 0, None)
  }

  function PayInstruction(sequence: U64, amount: U64): Instruction {
    SettlePayment(sequence, Pay(amount), USDC, ATA)
  }

  /** The record such a payment leaves. */
  function Paid(sequence: U64, amount: U64, at: I64): Record {
    Record(WalletPda(AGENT), sequence, 0, WalletPda(AGENT), amount, X402, at, true, None)
  }

  /** Let time pass, then pay. */
  function PayAt(run: Run, sequence: U64, amount: U64, at: I64): Run {
    After(After(run, Tick(at)), Call(OWNER, PayInstruction(sequence, amount)))
  }

  /** The world before the program is first called. */
  function Start(): State {
    State(0, None, map[], map[], map[], map[USDC := 0], map[])
  }

  /** A wallet registered, funded and given its policy at time zero. */
  function SetUp(l: Limits): Run {
    var r0 := Boot(Start());
    var r1 := After(r0, Call(OWNER, InitProtocol(OWNER)));
    var r2 := After(r1, Call(OWNER, RegisterAgent(AGENT, USDC)));
    var r3 := After(r2, Mint(ATA, U64_MAX));
    After(r3, Call(OWNER, SetSpendPolicy(AGENT, l)))
  }

  /** The agent's policy was never another one. */
  ghost predicate PolicyAlong(run: Run, l: Limits) {
    && (AGENT in End(run).policies ==> End(run).policies[AGENT].limits == l)
    && (run.After? ==> PolicyAlong(run.prev, l))
  }

  /** The funded, operating wallet of this world, at time `now`. */
  ghost predicate Stage(s: State, l: Limits, now: int) {
    && s.now == now && s.config == Some(Config(OWNER, PROGRAM_VERSION, 0))
    && Live(s, AGENT) && AGENT in s.policies
    && s.wallets[AGENT].owner == OWNER && s.wallets[AGENT].isActive && !s.wallets[AGENT].isFrozen
    && s.policies[AGENT].limits == l
    && ATA in s.tokens && s.tokens[ATA] == TokenAccount(USDC, WalletPda(AGENT), U64_MAX)
  }

  /**
    A run in this world that has come to time `now` with history `h`, the policy
    having been set last at `setAt`, after `since` records.
  */
  ghost predicate Scene(run: Run, l: Limits, h: seq<Record>, now: int, since: nat, setAt: int) {
    && Valid(run) && Stage(End(run), l, now) && PolicyAlong(run, l)
    && GapFree(End(run).records, AGENT) && History(End(run).records, AGENT) == h
    && RegisteredAt(run, AGENT) == 0
    && PolicySince(run, AGENT) == since <= |h| && PolicySetAt(run, AGENT) == setAt
  }

  /** What the naive checker then works from. */
  function PastAt(h: seq<Record>, since: nat, setAt: int): Past
    requires since <= |h|
  {
    Past(h, 0, h[since..], setAt)
  }

  // ----- Building runs -----

  function Registered(): State {
    Start().(config := Some(Config(OWNER, PROGRAM_VERSION, 0)),
             wallets := map[][AGENT := NewWallet(AGENT, OWNER, USDC, 0)],
             tokens := map[][ATA := TokenAccount(USDC, WalletPda(AGENT), 0)])
  }

  function Funded(): State {
    Registered().(tokens := Registered().tokens[ATA := TokenAccount(USDC, WalletPda(AGENT), U64_MAX)],
                  supply := Registered().supply[USDC := U64_MAX])
  }

  lemma {:induction false} FundingEnds(l: Limits)
    ensures Origin(SetUp(l)) == Start() && Valid(SetUp(l))
    ensures End(SetUp(l).prev) == Funded()
    ensures PolicyAlong(SetUp(l).prev, l)
    ensures RegisteredAt(SetUp(l).prev, AGENT) == PolicySetAt(SetUp(l).prev, AGENT) == 0
    ensures PolicySince(SetUp(l).prev, AGENT) == 0
  {
    var r0 := Boot(Start());
    var r1 := After(r0, Call(OWNER, InitProtocol(OWNER)));
    var r2 := After(r1, Call(OWNER, RegisterAgent(AGENT, USDC)));
    var r3 := After(r2, Mint(ATA, U64_MAX));
    assert SetUp(l).prev == r3;
    assert End(r1) == Start().(config := Some(Config(OWNER, PROGRAM_VERSION, 0)));
    assert End(r2) == Registered();
    assert PolicyAlong(r1, l) && PolicyAlong(r2, l);
  }

  lemma {:induction false} SetUpScene(l: Limits)
    requires |l.allowed| <= MAX_DOMAIN_ENTRIES && |l.blocked| <= MAX_DOMAIN_ENTRIES
    ensures Scene(SetUp(l), l, [], 0, 0, 0)
  {
    FundingEnds(l);
    var p := Policy(WalletPda(AGENT), l, 0, 0);
    assert End(SetUp(l)) == Funded().(policies := Funded().policies[AGENT := p]);
    assert KeysOf(Funded().records, AGENT) == {};
  }

  lemma WaitScene(run: Run, l: Limits, h: seq<Record>, now: int, since: nat, setAt: int, later: I64)
    requires Scene(run, l, h, now, since, setAt) && now <= later <= MAX_CLOCK
    ensures Scene(After(run, Tick(later)), l, h, later, since, setAt)
  {
  }

  /** The owner sets the same policy again. */
  function ResetStep(l: Limits): Step {
    Call(OWNER, SetSpendPolicy(AGENT, l))
  }

  lemma ResetScene(run: Run, l: Limits, h: seq<Record>, now: int, since: nat, setAt: int)
    requires Scene(run, l, h, now, since, setAt)
    requires |l.allowed| <= MAX_DOMAIN_ENTRIES && |l.blocked| <= MAX_DOMAIN_ENTRIES
    ensures SetsPolicy(End(run), ResetStep(l), AGENT)
    ensures Scene(After(run, ResetStep(l)), l, h, now, |h|, now)
  {
  }

  /** A payment that goes through adds its record and keeps the scene. */
  lemma {:induction false} PayScene(run: Run, l: Limits, h: seq<Record>, now: I64, since: nat, setAt: int, amount: U64)
    requires Scene(run, l, h, now, since, setAt) && |h| <= U64_MAX
    requires Execute(End(run), OWNER, PayInstruction(|h|, amount)).Ok?
    ensures Scene(After(run, Call(OWNER, PayInstruction(|h|, amount))), l, h + [Paid(|h|, amount, now)], now, since,
                  setAt)
  {
    var s := End(run);
    var s' := Execute(s, OWNER, PayInstruction(|h|, amount)).value;
    SettleCommits(s, OWNER, |h|, Pay(amount), USDC, ATA);
    EnforceCounts(s.policies[AGENT], RollWindows(s.wallets[AGENT], now).value, Pay(amount), now);
    assert s'.tokens == s.tokens && s'.records == s.records[RecordKey(AGENT, |h|) := Paid(|h|, amount, now)];
    HistoryGrows(s.records, AGENT, Paid(|h|, amount, now));
  }

  /** A payment goes through whenever the policy, read off the ledger, admits it. */
  lemma {:induction false} Admitted(run: Run, l: Limits, h: seq<Record>, now: I64, since: nat, setAt: int, amount: U64)
    requires Scene(run, l, h, now, since, setAt) && |h| <= U64_MAX && NoTopBudget(l) && amount > 0
    requires NaiveEnforce(l, Pay(amount), now, PastAt(h, since, setAt)).Ok?
    ensures Execute(End(run), OWNER, PayInstruction(|h|, amount)).Ok?
  {
    SettleRefinesNaive(run, OWNER, PayInstruction(|h|, amount));
  }

  /** A payment the policy admits, made. */
  lemma {:induction false} PayAdmitted(run: Run, l: Limits, h: seq<Record>, now: I64, since: nat, setAt: int,
                                       amount: U64)
    requires Scene(run, l, h, now, since, setAt) && |h| <= U64_MAX && NoTopBudget(l) && amount > 0
    requires NaiveEnforce(l, Pay(amount), now, PastAt(h, since, setAt)).Ok?
    ensures Scene(After(run, Call(OWNER, PayInstruction(|h|, amount))), l, h + [Paid(|h|, amount, now)], now, since,
                  setAt)
  {
    Admitted(run, l, h, now, since, setAt, amount);
    PayScene(run, l, h, now, since, setAt, amount);
  }

  // ----- Equal payments at one time -----

  function PayMany(run: Run, first: nat, amount: U64, n: nat): Run
    requires first + n <= U64_MAX + 1
  {
    if n == 0 then run
    else After(PayMany(run, first, amount, n - 1), Call(OWNER, PayInstruction(first + n - 1, amount)))
  }

  /** The history after `n` such payments. */
  function PaidMany(h: seq<Record>, amount: U64, n: nat, now: I64): (h': seq<Record>)
    requires |h| + n <= U64_MAX + 1
    ensures |h'| == |h| + n
  {
    if n == 0 then h else PaidMany(h, amount, n - 1, now) + [Paid(|h| + n - 1, amount, now)]
  }

  /** If each is admitted after those before it, they all go through. */
  lemma {:induction false} PayManyScene(run: Run, l: Limits, h: seq<Record>, now: I64, since: nat, setAt: int,
                                        amount: U64, n: nat)
    requires Scene(run, l, h, now, since, setAt) && NoTopBudget(l) && amount > 0 && |h| + n <= U64_MAX + 1
    requires forall i: nat | i < n ::
               NaiveEnforce(l, Pay(amount), now, PastAt(PaidMany(h, amount, i, now), since, setAt)).Ok?
    ensures Scene(PayMany(run, |h|, amount, n), l, PaidMany(h, amount, n, now), now, since, setAt)
  {
    if n > 0 {
      var before, h' := PayMany(run, |h|, amount, n - 1), PaidMany(h, amount, n - 1, now);
      PayManyScene(run, l, h, now, since, setAt, amount, n - 1);
      PayAdmitted(before, l, h', now, since, setAt, amount);
      LastPayment(run, h, amount, n, now);
    }
  }

  lemma LastPayment(run: Run, h: seq<Record>, amount: U64, n: nat, now: I64)
    requires 0 < n && |h| + n <= U64_MAX + 1
    ensures var before, h' := PayMany(run, |h|, amount, n - 1), PaidMany(h, amount, n - 1, now);
            && PayMany(run, |h|, amount, n) == After(before, Call(OWNER, PayInstruction(|h'|, amount)))
            && PaidMany(h, amount, n, now) == h' + [Paid(|h'|, amount, now)]
  {
  }

  /** Each of them weighs the same. */
  lemma {:induction false} PaidManyTally(h: seq<Record>, amount: U64, n: nat, now: I64, m: Measure, lo: int, hi: int,
                                         weight: nat)
    requires |h| + n <= U64_MAX + 1 && lo <= now < hi && weight == Weight(m, Paid(0, amount, 0))
    ensures Tally(PaidMany(h, amount, n, now), m, lo, hi) == Tally(h, m, lo, hi) + n * weight
  {
    if n > 0 {
      var before := PaidMany(h, amount, n - 1, now);
      PaidManyTally(h, amount, n - 1, now, m, lo, hi, weight);
      OneMorePaid(before, amount, now, m, lo, hi, weight);
      assert PaidMany(h, amount, n, now) == before + [Paid(|before|, amount, now)];
      TimesOneMore(n, weight);
    }
  }

  lemma OneMorePaid(h: seq<Record>, amount: U64, now: I64, m: Measure, lo: int, hi: int, weight: nat)
    requires |h| <= U64_MAX && lo <= now < hi && weight == Weight(m, Paid(0, amount, 0))
    ensures Tally(h + [Paid(|h|, amount, now)], m, lo, hi) == Tally(h, m, lo, hi) + weight
  {
    TallyAppend(h, Paid(|h|, amount, now), m, lo, hi);
  }

  lemma TimesOneMore(n: nat, weight: nat)
    requires n > 0
    ensures n * weight == (n - 1) * weight + weight
  {
  }

  // ----- Equal payments at given times -----

  /** Settlement records of payments of `amount` at these times. */
  function Payments(times: seq<I64>, amount: U64): (h: seq<Record>)
    requires |times| <= U64_MAX
    ensures |h| == |times|
  {
    seq(|times|, i requires 0 <= i < |times| => Paid(i, amount, times[i]))
  }

  function PayAtTimes(l: Limits, times: seq<I64>, amount: U64): Run
    requires |times| <= U64_MAX
  {
    if times == [] then SetUp(l)
    else PayAt(PayAtTimes(l, times[..|times| - 1], amount), |times| - 1, amount, times[|times| - 1])
  }

  ghost predicate Rising(times: seq<I64>) {
    && (forall i, j :: 0 <= i < j < |times| ==> times[i] <= times[j])
    && (forall i :: 0 <= i < |times| ==> 0 <= times[i] <= MAX_CLOCK)
  }

  /** Each payment is admitted by the policy, read off the payments before it. */
  ghost predicate AllAdmitted(l: Limits, times: seq<I64>, amount: U64)
    requires |times| <= U64_MAX
  {
    forall i :: 0 <= i < |times| ==>
      var h := Payments(times[..i], amount);
      NaiveEnforce(l, Pay(amount), times[i], PastAt(h, 0, 0)).Ok?
  }

  function LastTime(times: seq<I64>): I64 {
    if times == [] then 0 else times[|times| - 1]
  }

  lemma AdmittedBefore(l: Limits, times: seq<I64>, amount: U64)
    requires 0 < |times| <= U64_MAX && Rising(times) && AllAdmitted(l, times, amount)
    ensures var before := times[..|times| - 1];
            Rising(before) && AllAdmitted(l, before, amount) && LastTime(before) <= LastTime(times)
  {
    var before := times[..|times| - 1];
    forall i | 0 <= i < |before| ensures before[..i] == times[..i] {
    }
  }

  /** Waiting, and a payment the policy admits. */
  lemma {:induction false} PayAtScene(run: Run, l: Limits, h: seq<Record>, now: int, later: I64, amount: U64)
    requires Scene(run, l, h, now, 0, 0) && now <= later <= MAX_CLOCK
    requires |h| <= U64_MAX && NoTopBudget(l) && amount > 0
    requires NaiveEnforce(l, Pay(amount), later, PastAt(h, 0, 0)).Ok?
    ensures Scene(PayAt(run, |h|, amount, later), l, h + [Paid(|h|, amount, later)], later, 0, 0)
  {
    WaitScene(run, l, h, now, 0, 0, later);
    PayAdmitted(After(run, Tick(later)), l, h, later, 0, 0, amount);
  }

  /** Then there is a run that makes them all. */
  lemma {:induction false} PaymentsReached(l: Limits, times: seq<I64>, amount: U64)
    requires |l.allowed| <= MAX_DOMAIN_ENTRIES && |l.blocked| <= MAX_DOMAIN_ENTRIES && NoTopBudget(l)
    requires amount > 0 && |times| <= U64_MAX && Rising(times) && AllAdmitted(l, times, amount)
    ensures Scene(PayAtTimes(l, times, amount), l, Payments(times, amount), LastTime(times), 0, 0)
  {
    if times == [] {
      SetUpScene(l);
    } else {
      var n := |times| - 1;
      var h := Payments(times[..n], amount);
      AdmittedBefore(l, times, amount);
      PaymentsReached(l, times[..n], amount);
      assert NaiveEnforce(l, Pay(amount), times[n], PastAt(h, 0, 0)).Ok?;
      PayAtScene(PayAtTimes(l, times[..n], amount), l, h, LastTime(times[..n]), times[n], amount);
      assert Payments(times, amount) == h + [Paid(n, amount, times[n])];
    }
  }

  /** What the payments weigh in an interval, one payment at a time. */
  lemma PaymentsTally(times: seq<I64>, amount: U64, m: Measure, lo: int, hi: int)
    requires 0 < |times| <= U64_MAX
    ensures var n := |times| - 1;
            Tally(Payments(times, amount), m, lo, hi)
            == Tally(Payments(times[..n], amount), m, lo, hi) + Share(Paid(n, amount, times[n]), m, lo, hi)
  {
    var n := |times| - 1;
    assert Payments(times, amount) == Payments(times[..n], amount) + [Paid(n, amount, times[n])];
    TallyAppend(Payments(times[..n], amount), Paid(n, amount, times[n]), m, lo, hi);
  }

  /** Payments that all fall in the interval weigh the same each. */
  lemma {:induction false} PaymentsInside(times: seq<I64>, amount: U64, m: Measure, lo: int, hi: int)
    requires |times| <= U64_MAX && forall i :: 0 <= i < |times| ==> lo <= times[i] < hi
    ensures Tally(Payments(times, amount), m, lo, hi) == |times| * Weight(m, Paid(0, amount, 0))
  {
    if times != [] {
      PaymentsTally(times, amount, m, lo, hi);
      PaymentsInside(times[..|times| - 1], amount, m, lo, hi);
      TimesOneMore(|times|, Weight(m, Paid(0, amount, 0)));
    }
  }

  /** Payments that all fall outside it weigh nothing. */
  lemma PaymentsOutside(times: seq<I64>, amount: U64, m: Measure, lo: int, hi: int)
    requires |times| <= U64_MAX && forall i :: 0 <= i < |times| ==> times[i] < lo || hi <= times[i]
    ensures Tally(Payments(times, amount), m, lo, hi) == 0
  {
    TallyEmpty(Payments(times, amount), m, lo, hi);
  }
}
