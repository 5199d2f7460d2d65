/**
  The rate limit over a whole history. Setting the policy clears the counter and
  restarts the window, so each time it is set may add one more limit to a period.
*/
module Updates {
  import opened Numbers
  import opened Results
  import opened Accounts
  import opened Ledger
  import opened Machine
  import opened Runs
  import opened RateLimit
  import opened Reachable
  import opened Replay

  /**
    At least as strict as `limit` enforced calls per `secs`, for payments from
    `threshold` up. A window of zero seconds is a cap on all calls.
  */
  predicate Limiting(l: Limits, limit: U32, secs: int, threshold: U64) {
    && 0 < l.rateLimitCalls <= limit
    && (l.rateLimitWindowSecs == 0 || secs <= l.rateLimitWindowSecs)
    && 0 < l.highValueThreshold <= threshold
  }

  /** Every policy the agent had at any point of the run was that strict. */
  predicate LimitedAlong(run: Run, agent: AgentId, limit: U32, secs: int, threshold: U64) {
    && (agent in End(run).policies ==> Limiting(End(run).policies[agent].limits, limit, secs, threshold))
    && (run.After? ==> LimitedAlong(run.prev, agent, limit, secs, threshold))
  }

  /** How many times the agent's policy was set while the clock stood in the half-open interval. */
  function Resets(run: Run, agent: AgentId, lo: int, hi: int): nat {
    match run
    case Boot(_) => 0
    case After(prev, step) =>
      Resets(prev, agent, lo, hi)
      + if SetsPolicy(End(prev), step, agent) && lo <= End(prev).now < hi then 1 else 0
  }

  /** One limit for each window met, and one for each time the policy was set. */
  function Allowance(limit: U32, length: int, resets: nat): nat {
    (WindowsMet(length) + resets) * limit
  }

  lemma OneMoreReset(limit: U32, length: int, resets: nat)
    ensures Allowance(limit, length, resets + 1) == Allowance(limit, length, resets) + limit
  {
  }

  // ----- One policy's own calls -----

  /** A lower threshold enforces at least as much. */
  lemma {:induction false} LowerThreshold(h: seq<Record>, low: U64, high: U64, lo: int, hi: int)
    requires 0 < low <= high
    ensures Tally(h, CallsFrom(high), lo, hi) <= Tally(h, CallsFrom(low), lo, hi)
  {
    if h != [] {
      LowerThreshold(h[..|h| - 1], low, high, lo, hi);
    }
  }

  /** The calls of one policy in a period no longer than its window. */
  lemma PolicyPeriod(p: Policy, calls: seq<Record>, now: int, lo: int, hi: int)
    requires RateAgrees(p, calls, now) && p.limits.rateLimitCalls > 0
    requires lo <= hi && (p.limits.rateLimitWindowSecs == 0 || hi <= lo + p.limits.rateLimitWindowSecs)
    ensures CallsIn(p.limits, calls, lo, hi) <= WindowsMet(hi - lo) * p.limits.rateLimitCalls
  {
    if p.limits.rateLimitWindowSecs == 0 {
      CappedPeriod(p, calls, now, lo, hi);
    } else {
      assert PeriodWithin(p.limits, calls, lo, hi);
    }
  }

  /** A window of zero seconds: everything since the policy was set is within the limit. */
  lemma CappedPeriod(p: Policy, calls: seq<Record>, now: int, lo: int, hi: int)
    requires RateAgrees(p, calls, now) && p.limits.rateLimitCalls > 0 && p.limits.rateLimitWindowSecs == 0
    ensures CallsIn(p.limits, calls, lo, hi) <= p.limits.rateLimitCalls
  {
    CaughtSince(p.limits, calls, p.rateLimitWindowStart, lo, hi);
  }

  /** If no call is earlier than `start`, none escapes the count from there. */
  lemma {:induction false} CaughtSince(l: Limits, calls: seq<Record>, start: int, lo: int, hi: int)
    requires forall i :: 0 <= i < |calls| ==> start <= calls[i].settledAt <= I64_MAX
    ensures CallsIn(l, calls, lo, hi) <= CallsSince(l, calls, start)
  {
    if calls != [] {
      CaughtSince(l, calls[..|calls| - 1], start, lo, hi);
    }
  }

  /** Calls that all fall within the first window leave it where the policy put it. */
  lemma {:induction false} FirstWindow(l: Limits, setAt: int, calls: seq<Record>)
    requires forall i :: 0 <= i < |calls| ==> calls[i].settledAt < setAt + l.rateLimitWindowSecs
    ensures ReplayStart(l, setAt, calls) == setAt
  {
    if calls != [] {
      FirstWindow(l, setAt, calls[..|calls| - 1]);
    }
  }

  /** A policy set inside a period that is not over stays in its first window there. */
  lemma {:induction false} EpochPeriod(p: Policy, calls: seq<Record>, setAt: int, now: int, lo: int, hi: int)
    requires RateAgrees(p, calls, now) && p.limits.rateLimitCalls > 0
    requires p.rateLimitWindowStart == ReplayStart(p.limits, setAt, calls)
    requires lo <= setAt && now < hi && (p.limits.rateLimitWindowSecs == 0 || hi <= lo + p.limits.rateLimitWindowSecs)
    requires forall i :: 0 <= i < |calls| ==> setAt <= calls[i].settledAt <= now
    ensures CallsIn(p.limits, calls, lo, hi) <= p.limits.rateLimitCalls
  {
    if p.limits.rateLimitWindowSecs == 0 {
      CappedPeriod(p, calls, now, lo, hi);
    } else {
      FirstWindow(p.limits, setAt, calls);
      CaughtSince(p.limits, calls, setAt, lo, hi);
    }
  }

  // ----- The invariant of one period -----

  lemma {:induction false} TallyConcat(h: seq<Record>, n: nat, m: Measure, lo: int, hi: int)
    requires n <= |h|
    ensures Tally(h, m, lo, hi) == Tally(h[..n], m, lo, hi) + Tally(h[n..], m, lo, hi)
  {
    if n < |h| {
      var last := |h| - 1;
      assert h[..last][..n] == h[..n] && h[n..][..last - n] == h[..last][n..];
      TallyConcat(h[..last], n, m, lo, hi);
    } else {
      assert h[..n] == h;
    }
  }

  /** A period, and what is asked of the calls in it. */
  datatype Quota = Quota(limit: U32, threshold: U64, lo: int, hi: int)

  /** The history splits at the time the policy was set. */
  ghost predicate SplitsAt(h: seq<Record>, since: nat, setAt: int, now: int) {
    && since <= |h| && setAt <= now
    && (forall i :: 0 <= i < since ==> h[i].settledAt <= setAt)
    && (forall i :: since <= i < |h| ==> setAt <= h[i].settledAt <= now)
  }

  /** What came before a policy that was set inside the period left room for one more limit. */
  ghost predicate RoomLeft(h: seq<Record>, since: nat, setAt: int, q: Quota, resets: nat)
    requires since <= |h|
  {
    q.lo <= setAt < q.hi ==>
      && resets > 0
      && Tally(h[..since], CallsFrom(q.threshold), q.lo, q.hi) <= Allowance(q.limit, q.hi - q.lo, resets - 1)
  }

  /** One period within its allowance, now and after whatever the present policy may still let through. */
  ghost predicate PeriodHolds(s: State, agent: AgentId, since: nat, setAt: int, q: Quota, resets: nat) {
    && GapFree(s.records, agent)
    && Tally(History(s.records, agent), CallsFrom(q.threshold), q.lo, q.hi) <= Allowance(q.limit, q.hi - q.lo, resets)
    && (Live(s, agent) && agent in s.policies ==>
          && SplitsAt(History(s.records, agent), since, setAt, s.now)
          && RoomLeft(History(s.records, agent), since, setAt, q, resets))
  }

  /** A history whose latest record is made now, under a policy whose calls agree with it, is within its allowance. */
  lemma {:induction false} LatestWithin(p: Policy, h: seq<Record>, since: nat, setAt: int, now: int, q: Quota,
                                        resets: nat)
    requires SplitsAt(h, since, setAt, now) && RoomLeft(h, since, setAt, q, resets)
    requires RateAgrees(p, h[since..], now)
    requires p.rateLimitWindowStart == ReplayStart(p.limits, setAt, h[since..])
    requires q.lo <= now < q.hi && Limiting(p.limits, q.limit, q.hi - q.lo, q.threshold)
    ensures Tally(h, CallsFrom(q.threshold), q.lo, q.hi) <= Allowance(q.limit, q.hi - q.lo, resets)
  {
    var m, calls, lo, hi := CallsFrom(q.threshold), h[since..], q.lo, q.hi;
    TallyConcat(h, since, m, lo, hi);
    LowerThreshold(calls, p.limits.highValueThreshold, q.threshold, lo, hi);
    if setAt < q.lo {
      TallyEmpty(h[..since], m, lo, hi);
      PolicyPeriod(p, calls, now, lo, hi);
      MoreAllowed(p.limits.rateLimitCalls, q.limit, hi - lo, resets);
    } else {
      EpochPeriod(p, calls, setAt, now, lo, hi);
      OneMoreReset(q.limit, q.hi - q.lo, resets - 1);
    }
  }

  lemma MoreAllowed(low: U32, limit: U32, length: int, resets: nat)
    requires low <= limit
    ensures WindowsMet(length) * low <= Allowance(limit, length, resets)
  {
    assert WindowsMet(length) * low <= WindowsMet(length) * limit;
    assert Allowance(limit, length, resets) == WindowsMet(length) * limit + resets * limit;
  }

  // ----- Steps -----

  /** The history split and the room left, one record later. */
  lemma SplitAppend(h: seq<Record>, r: Record, since: nat, setAt: int, now: int, q: Quota, resets: nat)
    requires SplitsAt(h, since, setAt, now) && RoomLeft(h, since, setAt, q, resets)
    requires r.settledAt == now
    ensures SplitsAt(h + [r], since, setAt, now)
    ensures RoomLeft(h + [r], since, setAt, q, resets)
  {
    assert (h + [r])[..since] == h[..since];
  }

  /** A state change that appends one record, made now. */
  lemma {:induction false} AppendHolds(s: State, s': State, agent: AgentId, r: Record, anchor: int, since: nat,
                                       setAt: int, q: Quota, resets: nat)
    requires PeriodHolds(s, agent, since, setAt, q, resets)
    requires Live(s, agent) && Live(s', agent) && s'.now == s.now == r.settledAt
    requires s'.records == s.records[RecordKey(agent, Count(s.records, agent)) := r]
    requires AgentSound(s', agent, anchor, since) && StartAgrees(s', agent, since, setAt)
    requires agent in s.policies <==> agent in s'.policies
    requires agent in s'.policies ==> Limiting(s'.policies[agent].limits, q.limit, q.hi - q.lo, q.threshold)
    requires agent !in s.policies ==> !r.policyPassed
    ensures PeriodHolds(s', agent, since, setAt, q, resets)
  {
    var h := History(s.records, agent);
    HistoryGrows(s.records, agent, r);
    TallyAppend(h, r, CallsFrom(q.threshold), q.lo, q.hi);
    if agent in s.policies {
      SplitAppend(h, r, since, setAt, s.now, q, resets);
      if q.lo <= s.now < q.hi {
        LatestWithin(s'.policies[agent], h + [r], since, setAt, s.now, q, resets);
      }
    }
  }

  /** A payment or a violation of this agent. */
  lemma {:induction false} RecordHolds(s: State, signer: Address, i: Instruction, anchor: int, since: nat, setAt: int,
                                       q: Quota, resets: nat)
    requires (i.SettlePayment? || i.RecordPolicyViolation?) && Execute(s, signer, i).Ok?
    requires AgentSound(s, i.payment.agentId, anchor, since) && StartAgrees(s, i.payment.agentId, since, setAt)
    requires PeriodHolds(s, i.payment.agentId, since, setAt, q, resets)
    requires var agent, s' := i.payment.agentId, Execute(s, signer, i).value;
             agent in s'.policies ==> Limiting(s'.policies[agent].limits, q.limit, q.hi - q.lo, q.threshold)
    ensures PeriodHolds(Execute(s, signer, i).value, i.payment.agentId, since, setAt, q, resets)
  {
    var agent, s' := i.payment.agentId, Execute(s, signer, i).value;
    var r := s'.records[RecordKey(agent, i.sequence)];
    if i.SettlePayment? {
      SettleCommits(s, signer, i.sequence, i.payment, i.mint, i.payee);
      SettleKeeps(s, signer, i.sequence, i.payment, i.mint, i.payee, anchor, since);
      SettleReplays(s, signer, i, anchor, since, setAt);
    } else {
      ViolationKeeps(s, signer, i.sequence, i.payment, anchor, since);
      ViolationReplays(s, signer, i, anchor, since, setAt);
    }
    NextKeyIsCount(s, agent, anchor, since);
    AppendHolds(s, s', agent, r, anchor, since, setAt, q, resets);
  }

  /** Setting the policy: the whole history so far comes before it. */
  lemma SetPolicyHolds(s: State, signer: Address, agent: AgentId, limits: Limits, anchor: int, since: nat, setAt: int,
                       q: Quota, resets: nat)
    requires SetPolicy(s, signer, agent, limits).Ok? && AgentSound(s, agent, anchor, since)
    requires PeriodHolds(s, agent, since, setAt, q, resets)
    ensures PeriodHolds(SetPolicy(s, signer, agent, limits).value, agent, Count(s.records, agent), s.now, q,
                        resets + if q.lo <= s.now < q.hi then 1 else 0)
  {
    var h := History(s.records, agent);
    assert h[..|h|] == h;
    OneMoreReset(q.limit, q.hi - q.lo, resets);
  }

  lemma AlikeHolds(s: State, s': State, agent: AgentId, since: nat, setAt: int, q: Quota, resets: nat)
    requires Alike(s, s', agent) && PeriodHolds(s, agent, since, setAt, q, resets)
    ensures PeriodHolds(s', agent, since, setAt, q, resets)
  {
    HistoryFrame(s.records, s'.records, agent);
  }

  /** Registering and closing leave no policy, and the records as they are. */
  lemma NoPolicyHolds(s: State, s': State, agent: AgentId, since: nat, setAt: int, q: Quota, resets: nat)
    requires PeriodHolds(s, agent, since, setAt, q, resets)
    requires s'.records == s.records && agent !in s'.policies
    ensures PeriodHolds(s', agent, since, setAt, q, resets)
  {
  }

  function NextSetAt(s: State, step: Step, agent: AgentId, setAt: int): int {
    if SetsPolicy(s, step, agent) then s.now else setAt
  }

  function NextResets(s: State, step: Step, agent: AgentId, q: Quota, resets: nat): nat {
    resets + if SetsPolicy(s, step, agent) && q.lo <= s.now < q.hi then 1 else 0
  }

  lemma {:induction false} OwnStepHolds(s: State, signer: Address, i: Instruction, agent: AgentId, anchor: int,
                                        since: nat, setAt: int, q: Quota, resets: nat)
    requires Execute(s, signer, i).Ok? && Writes(Call(signer, i)) == Some(agent)
    requires AgentSound(s, agent, anchor, since) && StartAgrees(s, agent, since, setAt)
    requires PeriodHolds(s, agent, since, setAt, q, resets)
    requires var s' := Execute(s, signer, i).value;
             agent in s'.policies ==> Limiting(s'.policies[agent].limits, q.limit, q.hi - q.lo, q.threshold)
    ensures PeriodHolds(Execute(s, signer, i).value, agent, NextSince(s, Call(signer, i), agent, since),
                        NextSetAt(s, Call(signer, i), agent, setAt), q,
                        NextResets(s, Call(signer, i), agent, q, resets))
  {
    match i
    case SetSpendPolicy(_, limits) =>
      SetPolicyHolds(s, signer, agent, limits, anchor, since, setAt, q, resets);
    case SettlePayment(_, _, _, _) => RecordHolds(s, signer, i, anchor, since, setAt, q, resets);
    case RecordPolicyViolation(_, _) => RecordHolds(s, signer, i, anchor, since, setAt, q, resets);
    case RegisterAgent(_, mint) =>
      NoPolicyHolds(s, Register(s, signer, agent, mint).value, agent, since, setAt, q, resets);
    case CloseAgent(_, mint) =>
      NoPolicyHolds(s, Close(s, signer, agent, mint).value, agent, since, setAt, q, resets);
  }

  /** Every step keeps the period within its allowance. */
  lemma {:induction false} StepHolds(s: State, step: Step, agent: AgentId, anchor: int, since: nat, setAt: int,
                                     q: Quota, resets: nat)
    requires AgentSound(s, agent, anchor, since) && StartAgrees(s, agent, since, setAt)
    requires PeriodHolds(s, agent, since, setAt, q, resets)
    requires agent in Next(s, step).policies ==>
               Limiting(Next(s, step).policies[agent].limits, q.limit, q.hi - q.lo, q.threshold)
    ensures PeriodHolds(Next(s, step), agent, NextSince(s, step, agent, since), NextSetAt(s, step, agent, setAt), q,
                        NextResets(s, step, agent, q, resets))
  {
    if Writes(step) != Some(agent) || !Applies(s, step) {
      OtherStepsAlike(s, step, agent);
      AlikeHolds(s, Next(s, step), agent, since, setAt, q, resets);
    } else {
      OwnStepHolds(s, step.signer, step.instruction, agent, anchor, since, setAt, q, resets);
    }
  }

  // ----- Whole runs -----

  lemma GenesisHolds(s: State, agent: AgentId, q: Quota)
    requires Genesis(s)
    ensures PeriodHolds(s, agent, 0, 0, q, 0)
  {
    assert KeysOf(s.records, agent) == {};
    assert History(s.records, agent) == [];
  }

  ghost predicate QuotaHolds(run: Run, agent: AgentId, q: Quota) {
    PeriodHolds(End(run), agent, PolicySince(run, agent), PolicySetAt(run, agent), q, Resets(run, agent, q.lo, q.hi))
  }

  lemma {:induction false} QuotaStep(run: Run, step: Step, agent: AgentId, q: Quota)
    requires Valid(run) && QuotaHolds(run, agent, q)
    requires agent in Next(End(run), step).policies ==>
               Limiting(Next(End(run), step).policies[agent].limits, q.limit, q.hi - q.lo, q.threshold)
    ensures QuotaHolds(After(run, step), agent, q)
  {
    var since, setAt, resets := PolicySince(run, agent), PolicySetAt(run, agent), Resets(run, agent, q.lo, q.hi);
    RunSound(run, agent);
    RunReplays(run, agent);
    StepHolds(End(run), step, agent, RegisteredAt(run, agent), since, setAt, q, resets);
    assert PolicySince(After(run, step), agent) == NextSince(End(run), step, agent, since);
    assert PolicySetAt(After(run, step), agent) == NextSetAt(End(run), step, agent, setAt);
    assert Resets(After(run, step), agent, q.lo, q.hi) == NextResets(End(run), step, agent, q, resets);
  }

  lemma {:induction false} RunQuotaHolds(run: Run, agent: AgentId, q: Quota)
    requires Valid(run) && LimitedAlong(run, agent, q.limit, q.hi - q.lo, q.threshold)
    ensures QuotaHolds(run, agent, q)
  {
    match run
    case Boot(s) => GenesisHolds(s, agent, q);
    case After(prev, step) =>
      RunQuotaHolds(prev, agent, q);
      QuotaStep(prev, step, agent, q);
  }

  lemma {:induction false} QuotaKept(run: Run, agent: AgentId, q: Quota)
    requires Valid(run) && LimitedAlong(run, agent, q.limit, q.hi - q.lo, q.threshold)
    ensures GapFree(End(run).records, agent)
    ensures Tally(History(End(run).records, agent), CallsFrom(q.threshold), q.lo, q.hi)
         <= Allowance(q.limit, q.hi - q.lo, Resets(run, agent, q.lo, q.hi))
  {
    RunQuotaHolds(run, agent, q);
  }

  /** The agent's enforced settlements in a period of `secs` seconds, under whatever policies. */
  ghost function CallsOver(run: Run, agent: AgentId, threshold: U64, lo: int, secs: int): nat
    requires GapFree(End(run).records, agent)
  {
    Tally(History(End(run).records, agent), CallsFrom(threshold), lo, lo + secs)
  }

  /**
    Over the whole history, across any number of policy updates and closed
    wallets, a period of a window's length holds at most one limit for each window
    it can meet and one for each time the policy was set in it.
  */
  lemma {:induction false} LimitAcrossUpdates(run: Run, agent: AgentId, limit: U32, secs: U32, threshold: U64, lo: int)
    requires Valid(run) && LimitedAlong(run, agent, limit, secs, threshold)
    ensures GapFree(End(run).records, agent)
    ensures CallsOver(run, agent, threshold, lo, secs) <= Allowance(limit, secs, Resets(run, agent, lo, lo + secs))
  {
    var q := Quota(limit, threshold, lo, lo + secs);
    assert q.hi - q.lo == secs;
    QuotaKept(run, agent, q);
  }
}
