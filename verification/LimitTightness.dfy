/**
  When the documented rate limit holds as documented, exactly: over the calls of
  one policy, and over a whole history in which the policy is set again.
*/
module LimitTightness {
  import opened Numbers
  import opened Accounts
  import opened Ledger
  import opened Machine
  import opened Runs
  import opened RateLimit
  import opened Reachable
  import opened Replay
  import opened Counters
  import opened Updates
  import opened Refinement
  import opened Scenes

  /** One rate limit, enforced from `threshold` up, and no budget. */
  function OnlyCalls(limit: U32, secs: U32, threshold: U64): Limits {
    Limits(0, 0, 0, 0, limit, secs, threshold, [], [])
  }

  // ----- As many calls as there is room for -----

  /** A call made now is one more in the window as it stands now. */
  lemma OneMoreCall(l: Limits, h: seq<Record>, since: nat, setAt: int, now: int, r: Record)
    requires since <= |h| && l.rateLimitWindowSecs > 0
    requires ReplayStart(l, setAt, h[since..]) <= now <= I64_MAX
    requires IsCall(l, r) && r.settledAt == now
    ensures ReplayStart(l, setAt, (h + [r])[since..]) <= now
    ensures NaiveCalls(l, PastAt(h + [r], since, setAt), now) == NaiveCalls(l, PastAt(h, since, setAt), now) + 1
  {
    var calls, start := h[since..], ReplayStart(l, setAt, h[since..]);
    assert (h + [r])[since..] == calls + [r];
    ReplayAppend(l, setAt, calls, r);
    TallyAppend(calls, r, CallsFrom(l.highValueThreshold), start, I64_MAX + 1);
    TallyAppend(calls, r, CallsFrom(l.highValueThreshold), now, I64_MAX + 1);
  }

  lemma {:induction false} ManyMoreCalls(l: Limits, h: seq<Record>, since: nat, setAt: int, now: I64, n: nat)
    requires since <= |h| && l.rateLimitWindowSecs > 0 && l.highValueThreshold > 0
    requires ReplayStart(l, setAt, h[since..]) <= now && |h| + n <= U64_MAX + 1
    ensures var h' := PaidMany(h, l.highValueThreshold, n, now);
            && ReplayStart(l, setAt, h'[since..]) <= now
            && NaiveCalls(l, PastAt(h', since, setAt), now) == NaiveCalls(l, PastAt(h, since, setAt), now) + n
  {
    if n > 0 {
      var before := PaidMany(h, l.highValueThreshold, n - 1, now);
      ManyMoreCalls(l, h, since, setAt, now, n - 1);
      OneMoreCall(l, before, since, setAt, now, Paid(|before|, l.highValueThreshold, now));
    }
  }

  /** Up to the limit, calls go through. */
  lemma {:induction false} BatchScene(run: Run, limit: U32, secs: U32, threshold: U64, h: seq<Record>, now: I64,
                                      since: nat, setAt: int, n: nat)
    requires limit > 0 && secs > 0 && threshold > 0 && |h| + n <= U64_MAX + 1
    requires Scene(run, OnlyCalls(limit, secs, threshold), h, now, since, setAt)
    requires ReplayStart(OnlyCalls(limit, secs, threshold), setAt, h[since..]) <= now
    requires NaiveCalls(OnlyCalls(limit, secs, threshold), PastAt(h, since, setAt), now) + n <= limit
    ensures Scene(PayMany(run, |h|, threshold, n), OnlyCalls(limit, secs, threshold), PaidMany(h, threshold, n, now),
                  now, since, setAt)
  {
    var l := OnlyCalls(limit, secs, threshold);
    forall i: nat | i < n
      ensures NaiveEnforce(l, Pay(threshold), now, PastAt(PaidMany(h, threshold, i, now), since, setAt)).Ok?
    {
      ManyMoreCalls(l, h, since, setAt, now, i);
    }
    PayManyScene(run, l, h, now, since, setAt, threshold, n);
  }

  /** A window that has run out leaves room for a whole limit. */
  lemma {:induction false} NewWindowIsEmpty(l: Limits, h: seq<Record>, now: int)
    requires 0 < l.rateLimitWindowSecs <= now
    requires AllBefore(h, l.rateLimitWindowSecs)
    ensures h[0..] == h && ReplayStart(l, 0, h) == 0
    ensures NaiveCalls(l, PastAt(h, 0, 0), now) == 0
  {
    FirstWindow(l, 0, h);
    TallyEmpty(h, CallsFrom(l.highValueThreshold), now, I64_MAX + 1);
  }

  // ----- One limit for each window -----

  /** From here a period is counted: the last second of the first window, or the only second of the second. */
  function From(secs: U32): int {
    if secs <= 1 then 1 else secs - 1
  }

  /** A limit in the last second of the first window, unless that window has but one. */
  function FirstBatch(limit: U32, secs: U32, threshold: U64): Run
    requires secs > 0
  {
    var setUp := SetUp(OnlyCalls(limit, secs, threshold));
    if secs == 1 then setUp else PayMany(After(setUp, Tick(secs - 1)), 0, threshold, limit)
  }

  /** And another limit in the first second of the second. */
  function Batches(limit: U32, secs: U32, threshold: U64): Run
    requires secs > 0
  {
    PayMany(After(FirstBatch(limit, secs, threshold), Tick(secs)), if secs == 1 then 0 else limit, threshold, limit)
  }

  function FirstHistory(limit: U32, secs: U32, threshold: U64): seq<Record>
    requires secs > 0
  {
    if secs == 1 then [] else PaidMany([], threshold, limit, secs - 1)
  }

  lemma {:induction false} FirstBatchScene(limit: U32, secs: U32, threshold: U64)
    requires limit > 0 && secs > 0 && threshold > 0
    ensures Scene(FirstBatch(limit, secs, threshold), OnlyCalls(limit, secs, threshold),
                  FirstHistory(limit, secs, threshold), secs - 1, 0, 0)
  {
    var l := OnlyCalls(limit, secs, threshold);
    SetUpScene(l);
    if secs > 1 {
      WaitScene(SetUp(l), l, [], 0, 0, 0, secs - 1);
      BatchScene(After(SetUp(l), Tick(secs - 1)), limit, secs, threshold, [], secs - 1, 0, 0, limit);
    }
  }

  ghost predicate AllBefore(h: seq<Record>, end: int) {
    forall i :: 0 <= i < |h| ==> h[i].settledAt < end
  }

  lemma {:induction false} PaidManyBefore(h: seq<Record>, amount: U64, n: nat, now: I64, end: int)
    requires |h| + n <= U64_MAX + 1 && now < end && AllBefore(h, end)
    ensures AllBefore(PaidMany(h, amount, n, now), end)
  {
    if n > 0 {
      PaidManyBefore(h, amount, n - 1, now, end);
    }
  }

  /** The first batch is over before the second window, and counts. */
  lemma {:induction false} FirstHistoryCounts(limit: U32, secs: U32, threshold: U64)
    requires secs > 0 && threshold > 0
    ensures var first := FirstHistory(limit, secs, threshold);
            && |first| == (if secs == 1 then 0 else limit)
            && AllBefore(first, secs)
            && Tally(first, CallsFrom(threshold), From(secs), From(secs) + secs) == |first|
  {
    if secs > 1 {
      PaidManyBefore([], threshold, limit, secs - 1, secs);
      PaidManyTally([], threshold, limit, secs - 1, CallsFrom(threshold), From(secs), From(secs) + secs, 1);
    }
  }

  function BatchesHistory(limit: U32, secs: U32, threshold: U64): (h: seq<Record>)
    requires secs > 0
  {
    PaidMany(FirstHistory(limit, secs, threshold), threshold, limit, secs)
  }

  lemma {:induction false} BatchesScene(limit: U32, secs: U32, threshold: U64)
    requires limit > 0 && secs > 0 && threshold > 0
    ensures Scene(Batches(limit, secs, threshold), OnlyCalls(limit, secs, threshold),
                  BatchesHistory(limit, secs, threshold), secs, 0, 0)
  {
    var l, first := OnlyCalls(limit, secs, threshold), FirstHistory(limit, secs, threshold);
    FirstBatchScene(limit, secs, threshold);
    FirstHistoryCounts(limit, secs, threshold);
    WaitScene(FirstBatch(limit, secs, threshold), l, first, secs - 1, 0, 0, secs);
    NewWindowIsEmpty(l, first, secs);
    BatchScene(After(FirstBatch(limit, secs, threshold), Tick(secs)), limit, secs, threshold, first, secs, 0, 0, limit);
  }

  lemma BatchesLength(limit: U32, secs: U32, threshold: U64)
    requires secs > 0
    ensures |BatchesHistory(limit, secs, threshold)| == WindowsMet(secs) * limit == MostCalls(limit, secs, 0)
  {
  }

  /** Every call of both batches falls in one period. */
  lemma {:induction false} BatchesCount(limit: U32, secs: U32, threshold: U64)
    requires secs > 0 && threshold > 0
    ensures var h := BatchesHistory(limit, secs, threshold);
            && |h| == WindowsMet(secs) * limit
            && Tally(h, CallsFrom(threshold), From(secs), From(secs) + secs) == |h|
  {
    FirstHistoryCounts(limit, secs, threshold);
    PaidManyTally(FirstHistory(limit, secs, threshold), threshold, limit, secs, CallsFrom(threshold), From(secs),
                  From(secs) + secs, 1);
  }

  // ----- One policy -----

  /** Enforced calls under the agent's present policy, over one length of its rate-limit window from `lo`. */
  ghost function CallsFromTime(run: Run, agent: AgentId, lo: int): nat
    requires agent in End(run).policies && GapFree(End(run).records, agent)
    requires PolicySince(run, agent) <= Count(End(run).records, agent)
  {
    var l, calls := End(run).policies[agent].limits, History(End(run).records, agent)[PolicySince(run, agent)..];
    CallsIn(l, calls, lo, lo + l.rateLimitWindowSecs)
  }

  /**
    For every limit and every window longer than a second, some run puts twice
    the limit into one window's length, without the policy being set again.
  */
  lemma {:induction false} TwiceTheLimit(limit: U32, secs: U32) returns (run: Run)
    requires limit > 0 && secs >= 2
    ensures Valid(run) && Live(End(run), AGENT) && AGENT in End(run).policies
    ensures End(run).policies[AGENT].limits == OnlyCalls(limit, secs, 1)
    ensures GapFree(End(run).records, AGENT) && PolicySince(run, AGENT) <= Count(End(run).records, AGENT)
    ensures CallsFromTime(run, AGENT, secs - 1) == 2 * limit
  {
    run := Batches(limit, secs, 1);
    BatchesScene(limit, secs, 1);
    BatchesCount(limit, secs, 1);
    CallsOfScene(run, OnlyCalls(limit, secs, 1), BatchesHistory(limit, secs, 1), secs, secs - 1);
  }

  /** Where the policy was set before there were records, all calls are its own. */
  lemma CallsOfScene(run: Run, l: Limits, h: seq<Record>, now: int, lo: int)
    requires Scene(run, l, h, now, 0, 0)
    ensures CallsFromTime(run, AGENT, lo) == CallsIn(l, h, lo, lo + l.rateLimitWindowSecs)
  {
    assert h[0..] == h;
  }

  /**
    The limit holds, for the calls since the policy was set, over every period of
    the window's length, in every run whose present policy has these settings.
  */
  ghost predicate LimitHoldsAnywhere(limit: U32, secs: U32) {
    forall run: Run, agent: AgentId, lo: int ::
      && Valid(run) && Live(End(run), agent) && agent in End(run).policies
      && End(run).policies[agent].limits.rateLimitCalls == limit
      && End(run).policies[agent].limits.rateLimitWindowSecs == secs
      && GapFree(End(run).records, agent) && PolicySince(run, agent) <= Count(End(run).records, agent) ==>
        CallsFromTime(run, agent, lo) <= limit
  }

  /** Since the policy was set, its limit holds over every such period exactly when the window is one second long. */
  lemma {:induction false} LimitHoldsIff(limit: U32, secs: U32)
    requires limit > 0 && secs > 0
    ensures LimitHoldsAnywhere(limit, secs) <==> secs == 1
  {
    if secs == 1 {
      forall run: Run, agent: AgentId, lo: int
        | && Valid(run) && Live(End(run), agent) && agent in End(run).policies
          && End(run).policies[agent].limits.rateLimitCalls == limit
          && End(run).policies[agent].limits.rateLimitWindowSecs == secs
          && GapFree(End(run).records, agent) && PolicySince(run, agent) <= Count(End(run).records, agent)
        ensures CallsFromTime(run, agent, lo) <= limit
      {
        RateLimitOverRuns(run, agent, lo);
      }
    } else {
      var run := TwiceTheLimit(limit, secs);
      assert CallsFromTime(run, AGENT, secs - 1) > limit;
    }
  }

  // ----- Setting the policy again -----

  /** An agent's records are numbered in 64 bits. */
  const MAX_RECORDS: nat := U64_MAX + 1

  /** The most calls a period can hold in which the policy is set so many times. */
  function MostCalls(limit: U32, secs: U32, resets: nat): (n: nat)
    ensures n <= MAX_RECORDS
  {
    var allowed := Allowance(limit, secs, resets);
    if allowed <= MAX_RECORDS then allowed else MAX_RECORDS
  }

  /** The calls of the last of so many rounds. */
  function RoundCalls(limit: U32, secs: U32, resets: nat): (n: nat)
    requires resets > 0
    ensures n <= limit && MostCalls(limit, secs, resets - 1) + n == MostCalls(limit, secs, resets)
  {
    OneMoreReset(limit, secs, resets - 1);
    MostCalls(limit, secs, resets) - MostCalls(limit, secs, resets - 1)
  }

  /** After the two batches, set the policy and use up its limit, again and again. */
  function Rounds(limit: U32, secs: U32, threshold: U64, resets: nat): Run
    requires secs > 0
  {
    if resets == 0 then Batches(limit, secs, threshold)
    else
      var n := RoundCalls(limit, secs, resets);
      Round(Rounds(limit, secs, threshold, resets - 1), OnlyCalls(limit, secs, threshold),
            MostCalls(limit, secs, resets - 1), n)
  }

  /** Payments set no policy. */
  lemma {:induction false} PayManyResets(run: Run, first: nat, amount: U64, n: nat, lo: int, hi: int)
    requires first + n <= U64_MAX + 1
    ensures Resets(PayMany(run, first, amount, n), AGENT, lo, hi) == Resets(run, AGENT, lo, hi)
  {
    if n > 0 {
      PayManyResets(run, first, amount, n - 1, lo, hi);
    }
  }

  lemma {:induction false} SetUpResets(l: Limits, lo: int, hi: int)
    requires lo > 0
    ensures Resets(SetUp(l), AGENT, lo, hi) == 0
  {
    FundingEnds(l);
    var r3 := SetUp(l).prev;
    assert Resets(r3.prev.prev, AGENT, lo, hi) == 0;
    assert Resets(r3, AGENT, lo, hi) == 0;
  }

  lemma {:induction false} BatchesResets(limit: U32, secs: U32, threshold: U64, lo: int, hi: int)
    requires secs > 0 && lo > 0
    ensures Resets(Batches(limit, secs, threshold), AGENT, lo, hi) == 0
  {
    FirstBatchResets(limit, secs, threshold, lo, hi);
    PayManyResets(After(FirstBatch(limit, secs, threshold), Tick(secs)), if secs == 1 then 0 else limit, threshold,
                  limit, lo, hi);
  }

  lemma {:induction false} FirstBatchResets(limit: U32, secs: U32, threshold: U64, lo: int, hi: int)
    requires secs > 0 && lo > 0
    ensures Resets(FirstBatch(limit, secs, threshold), AGENT, lo, hi) == 0
  {
    var l := OnlyCalls(limit, secs, threshold);
    SetUpResets(l, lo, hi);
    if secs > 1 {
      PayManyResets(After(SetUp(l), Tick(secs - 1)), 0, threshold, limit, lo, hi);
    }
  }

  /** A newly set policy has room for its whole limit. */
  lemma NewPolicyIsEmpty(l: Limits, h: seq<Record>, now: int)
    ensures ReplayStart(l, now, h[|h|..]) == now
    ensures NaiveCalls(l, PastAt(h, |h|, now), now) == 0
  {
  }

  /** The policy set again, and `n` calls under it. */
  function Round(run: Run, l: Limits, first: nat, n: nat): Run
    requires first + n <= MAX_RECORDS
  {
    PayMany(After(run, ResetStep(l)), first, l.highValueThreshold, n)
  }

  /** One more round goes through, and its calls count. */
  lemma {:induction false} RoundScene(run: Run, limit: U32, secs: U32, threshold: U64, h: seq<Record>, now: I64,
                                      since: nat, setAt: int, n: nat)
    requires 0 < limit && n <= limit && secs > 0 && threshold > 0 && |h| + n <= MAX_RECORDS
    requires Scene(run, OnlyCalls(limit, secs, threshold), h, now, since, setAt)
    ensures Scene(Round(run, OnlyCalls(limit, secs, threshold), |h|, n), OnlyCalls(limit, secs, threshold),
                  PaidMany(h, threshold, n, now), now, |h|, now)
  {
    var l := OnlyCalls(limit, secs, threshold);
    ResetScene(run, l, h, now, since, setAt);
    NewPolicyIsEmpty(l, h, now);
    BatchScene(After(run, ResetStep(l)), limit, secs, threshold, h, now, |h|, now, n);
  }

  lemma {:induction false} RoundResets(run: Run, l: Limits, first: nat, n: nat, lo: int, hi: int)
    requires first + n <= MAX_RECORDS
    requires SetsPolicy(End(run), ResetStep(l), AGENT) && lo <= End(run).now < hi
    ensures Resets(Round(run, l, first, n), AGENT, lo, hi) == Resets(run, AGENT, lo, hi) + 1
  {
    PayManyResets(After(run, ResetStep(l)), first, l.highValueThreshold, n, lo, hi);
  }

  /** The history the rounds leave. */
  function RoundsHistory(limit: U32, secs: U32, threshold: U64, resets: nat): (h: seq<Record>)
    requires secs > 0
    ensures |h| == MostCalls(limit, secs, resets)
  {
    if resets == 0 then
      BatchesLength(limit, secs, threshold);
      BatchesHistory(limit, secs, threshold)
    else
      var n := RoundCalls(limit, secs, resets);
      PaidMany(RoundsHistory(limit, secs, threshold, resets - 1), threshold, n, secs)
  }

  /** How many records there were when the policy was last set, and when that was. */
  function RoundsSince(limit: U32, secs: U32, resets: nat): nat {
    if resets == 0 then 0 else MostCalls(limit, secs, resets - 1)
  }

  function RoundsSetAt(secs: U32, resets: nat): int {
    if resets == 0 then 0 else secs
  }

  /** What the rounds have come to. */
  ghost predicate RoundsCome(limit: U32, secs: U32, threshold: U64, resets: nat)
    requires secs > 0
  {
    Scene(Rounds(limit, secs, threshold, resets), OnlyCalls(limit, secs, threshold),
          RoundsHistory(limit, secs, threshold, resets), secs, RoundsSince(limit, secs, resets),
          RoundsSetAt(secs, resets))
  }

  lemma {:induction false} LastRoundScene(limit: U32, secs: U32, threshold: U64, resets: nat)
    requires limit > 0 && secs > 0 && threshold > 0 && resets > 0
    requires RoundsCome(limit, secs, threshold, resets - 1)
    ensures RoundsCome(limit, secs, threshold, resets)
  {
    var before, h := Rounds(limit, secs, threshold, resets - 1), RoundsHistory(limit, secs, threshold, resets - 1);
    var n, since, setAt := RoundCalls(limit, secs, resets), RoundsSince(limit, secs, resets - 1),
                           RoundsSetAt(secs, resets - 1);
    RoundScene(before, limit, secs, threshold, h, secs, since, setAt, n);
    LastRound(limit, secs, threshold, resets);
  }

  lemma LastRound(limit: U32, secs: U32, threshold: U64, resets: nat)
    requires secs > 0 && resets > 0
    ensures var before := Rounds(limit, secs, threshold, resets - 1);
            var h := RoundsHistory(limit, secs, threshold, resets - 1);
            var n := RoundCalls(limit, secs, resets);
            && Rounds(limit, secs, threshold, resets) == Round(before, OnlyCalls(limit, secs, threshold), |h|, n)
            && RoundsHistory(limit, secs, threshold, resets) == PaidMany(h, threshold, n, secs)
  {
  }

  /** The rounds go through. */
  lemma {:induction false} RoundsScene(limit: U32, secs: U32, threshold: U64, resets: nat)
    requires limit > 0 && secs > 0 && threshold > 0
    ensures RoundsCome(limit, secs, threshold, resets)
  {
    if resets == 0 {
      BatchesScene(limit, secs, threshold);
    } else {
      RoundsScene(limit, secs, threshold, resets - 1);
      LastRoundScene(limit, secs, threshold, resets);
    }
  }

  /** Every call of theirs falls in one period. */
  lemma {:induction false} RoundsCount(limit: U32, secs: U32, threshold: U64, resets: nat)
    requires secs > 0 && threshold > 0
    ensures Tally(RoundsHistory(limit, secs, threshold, resets), CallsFrom(threshold), From(secs), From(secs) + secs)
         == MostCalls(limit, secs, resets)
  {
    if resets == 0 {
      BatchesLength(limit, secs, threshold);
      BatchesCount(limit, secs, threshold);
    } else {
      RoundsCount(limit, secs, threshold, resets - 1);
      LastRound(limit, secs, threshold, resets);
      PaidManyTally(RoundsHistory(limit, secs, threshold, resets - 1), threshold, RoundCalls(limit, secs, resets), secs,
                    CallsFrom(threshold), From(secs), From(secs) + secs, 1);
    }
  }

  lemma {:induction false} RoundsMayReset(limit: U32, secs: U32, threshold: U64, resets: nat)
    requires limit > 0 && secs > 0 && threshold > 0
    ensures var s := End(Rounds(limit, secs, threshold, resets));
            SetsPolicy(s, ResetStep(OnlyCalls(limit, secs, threshold)), AGENT) && s.now == secs
  {
    RoundsScene(limit, secs, threshold, resets);
    ResetScene(Rounds(limit, secs, threshold, resets), OnlyCalls(limit, secs, threshold),
               RoundsHistory(limit, secs, threshold, resets), secs, RoundsSince(limit, secs, resets),
               RoundsSetAt(secs, resets));
  }

  /** And the policy is set in it once a round. */
  lemma {:induction false} RoundsResets(limit: U32, secs: U32, threshold: U64, resets: nat, lo: int, hi: int)
    requires limit > 0 && secs > 0 && threshold > 0 && 0 < lo <= secs < hi
    ensures Resets(Rounds(limit, secs, threshold, resets), AGENT, lo, hi) == resets
  {
    if resets == 0 {
      BatchesResets(limit, secs, threshold, lo, hi);
    } else {
      RoundsResets(limit, secs, threshold, resets - 1, lo, hi);
      RoundsResetsStep(limit, secs, threshold, resets, lo, hi);
    }
  }

  lemma {:induction false} RoundsResetsStep(limit: U32, secs: U32, threshold: U64, resets: nat, lo: int, hi: int)
    requires limit > 0 && secs > 0 && threshold > 0 && resets > 0 && lo <= secs < hi
    ensures Resets(Rounds(limit, secs, threshold, resets), AGENT, lo, hi)
         == Resets(Rounds(limit, secs, threshold, resets - 1), AGENT, lo, hi) + 1
  {
    var before := Rounds(limit, secs, threshold, resets - 1);
    RoundsMayReset(limit, secs, threshold, resets - 1);
    RoundResets(before, OnlyCalls(limit, secs, threshold), MostCalls(limit, secs, resets - 1),
                RoundCalls(limit, secs, resets), lo, hi);
    LastRound(limit, secs, threshold, resets);
  }

  // ----- The exact bound -----

  lemma {:induction false} PolicyAlongLimits(run: Run, limit: U32, secs: U32, threshold: U64)
    requires limit > 0 && threshold > 0 && PolicyAlong(run, OnlyCalls(limit, secs, threshold))
    ensures LimitedAlong(run, AGENT, limit, secs, threshold)
  {
    if run.After? {
      PolicyAlongLimits(run.prev, limit, secs, threshold);
    }
  }

  /**
    A bound on the enforced settlements of a period of `secs` seconds in which the
    policy is set `resets` times, over every run with a limit of this strictness.
  */
  ghost predicate BoundHolds(limit: U32, secs: U32, threshold: U64, resets: nat, bound: nat) {
    forall run: Run, agent: AgentId, lo: int ::
      && Valid(run) && LimitedAlong(run, agent, limit, secs, threshold)
      && Resets(run, agent, lo, lo + secs) == resets && GapFree(End(run).records, agent) ==>
        CallsOver(run, agent, threshold, lo, secs) <= bound
  }

  /** No more calls than records. */
  lemma {:induction false} CallsAreRecords(h: seq<Record>, threshold: U64, lo: int, hi: int)
    ensures Tally(h, CallsFrom(threshold), lo, hi) <= |h|
  {
    if h != [] {
      CallsAreRecords(h[..|h| - 1], threshold, lo, hi);
    }
  }

  lemma {:induction false} CallsWithinMost(run: Run, agent: AgentId, limit: U32, secs: U32, threshold: U64, lo: int)
    requires Valid(run) && LimitedAlong(run, agent, limit, secs, threshold)
    ensures GapFree(End(run).records, agent)
    ensures CallsOver(run, agent, threshold, lo, secs)
         <= MostCalls(limit, secs, Resets(run, agent, lo, lo + secs))
  {
    LimitAcrossUpdates(run, agent, limit, secs, threshold, lo);
    RunSound(run, agent);
    CallsAreRecords(History(End(run).records, agent), threshold, lo, lo + secs);
  }

  /** For any number of times the policy is set: one limit for each, and one for each window met, is the least bound. */
  lemma {:induction false} BoundHoldsIff(limit: U32, secs: U32, threshold: U64, resets: nat, bound: nat)
    requires limit > 0 && secs > 0 && threshold > 0
    ensures BoundHolds(limit, secs, threshold, resets, bound) <==> MostCalls(limit, secs, resets) <= bound
  {
    if MostCalls(limit, secs, resets) <= bound {
      forall run: Run, agent: AgentId, lo: int
        | && Valid(run) && LimitedAlong(run, agent, limit, secs, threshold)
          && Resets(run, agent, lo, lo + secs) == resets && GapFree(End(run).records, agent)
        ensures CallsOver(run, agent, threshold, lo, secs) <= bound
      {
        CallsWithinMost(run, agent, limit, secs, threshold, lo);
      }
    } else {
      var run := Rounds(limit, secs, threshold, resets);
      RoundsScene(limit, secs, threshold, resets);
      RoundsCount(limit, secs, threshold, resets);
      RoundsResets(limit, secs, threshold, resets, From(secs), From(secs) + secs);
      PolicyAlongLimits(run, limit, secs, threshold);
      assert CallsOver(run, AGENT, threshold, From(secs), secs) > bound;
    }
  }

  /**
    The documented limit, at most that many enforced settlements in any window,
    holds exactly when the window is one second long and the policy is not set in it.
  */
  lemma {:induction false} DocumentedLimitHoldsIff(limit: U32, secs: U32, threshold: U64, resets: nat)
    requires limit > 0 && secs > 0 && threshold > 0
    ensures BoundHolds(limit, secs, threshold, resets, limit) <==> secs == 1 && resets == 0
  {
    BoundHoldsIff(limit, secs, threshold, resets, limit);
    MostIsLimitIff(limit, secs, resets);
  }

  lemma MostIsLimitIff(limit: U32, secs: U32, resets: nat)
    requires limit > 0 && secs > 0
    ensures MostCalls(limit, secs, resets) <= limit <==> secs == 1 && resets == 0
  {
    var met := WindowsMet(secs) + resets;
    if met == 1 {
      assert Allowance(limit, secs, resets) == limit;
    } else {
      assert met * limit >= 2 * limit by {
        assert met * limit == 2 * limit + (met - 2) * limit;
      }
    }
  }
}
