/** Accounts as a handler sees them: loaded into memory, and changed in place. */
module LoadedAccounts {
  import opened Numbers
  import opened Results
  import opened Accounts
  import opened Windows

  class AgentWallet {
    var agentId: AgentId
    var owner: Address
    var usdcTokenAccount: Address
    var dailySpend: U64
    var dailyWindowStart: I64
    var weeklySpend: U64
    var weeklyWindowStart: I64
    var monthlySpend: U64
    var monthlyWindowStart: I64
    var paymentSequence: U64
    var totalPayments: U64
    var totalVolume: U64
    var lastPaymentAt: I64
    var isActive: bool
    var isFrozen: bool

    constructor (data: Wallet)
      ensures View() == data
    {
      agentId, owner, usdcTokenAccount := data.agentId, data.owner, data.usdcTokenAccount;
      dailySpend, dailyWindowStart := data.daily.spend, data.daily.start;
      weeklySpend, weeklyWindowStart := data.weekly.spend, data.weekly.start;
      monthlySpend, monthlyWindowStart := data.monthly.spend, data.monthly.start;
      paymentSequence, totalPayments := data.paymentSequence, data.totalPayments;
      totalVolume, lastPaymentAt := data.totalVolume, data.lastPaymentAt;
      isActive, isFrozen := data.isActive, data.isFrozen;
    }

    /** The zeroed account that `init` hands to a handler. */
    constructor Zeroed()
    {
      agentId, owner, usdcTokenAccount := [], DefaultKey, DefaultKey;
      dailySpend, dailyWindowStart := 0, 0;
      weeklySpend, weeklyWindowStart := 0, 0;
      monthlySpend, monthlyWindowStart := 0, 0;
      paymentSequence, totalPayments, totalVolume, lastPaymentAt := 0, 0, 0, 0;
      isActive, isFrozen := false, false;
    }

    /** The account data these fields stand for. */
    function View(): Wallet
      reads this
    {
      Wallet(agentId, owner, usdcTokenAccount,
             Window(dailySpend, dailyWindowStart),
             Window(weeklySpend, weeklyWindowStart),
             Window(monthlySpend, monthlyWindowStart),
             paymentSequence, totalPayments, totalVolume, lastPaymentAt, isActive, isFrozen)
    }

    method ResetDailyWindowIfElapsed(now: I64) returns (r: Result<(), Error>)
      modifies this`dailySpend, this`dailyWindowStart
      ensures match r
              case Ok(_) => RollWindow(old(View().daily), now, Daily) == Ok(View().daily)
              case Err(e) => RollWindow(old(View().daily), now, Daily) == Err(e)
    {
      r := Ok(());
      :- Require(dailyWindowStart + SECONDS_PER_DAY <= I64_MAX, ArithmeticOverflow);
      if now >= dailyWindowStart + SECONDS_PER_DAY {
        dailySpend := 0;
        :- Require(now - dailyWindowStart <= I64_MAX, ArithmeticOverflow);
        var periods := (now - dailyWindowStart) / SECONDS_PER_DAY;
        dailyWindowStart := dailyWindowStart + periods * SECONDS_PER_DAY;
      }
    }

    method ResetWeeklyWindowIfElapsed(now: I64) returns (r: Result<(), Error>)
      modifies this`weeklySpend, this`weeklyWindowStart
      ensures match r
              case Ok(_) => RollWindow(old(View().weekly), now, Weekly) == Ok(View().weekly)
              case Err(e) => RollWindow(old(View().weekly), now, Weekly) == Err(e)
    {
      r := Ok(());
      :- Require(weeklyWindowStart + SECONDS_PER_WEEK <= I64_MAX, ArithmeticOverflow);
      if now >= weeklyWindowStart + SECONDS_PER_WEEK {
        weeklySpend := 0;
        :- Require(now - weeklyWindowStart <= I64_MAX, ArithmeticOverflow);
        var periods := (now - weeklyWindowStart) / SECONDS_PER_WEEK;
        weeklyWindowStart := weeklyWindowStart + periods * SECONDS_PER_WEEK;
      }
    }

    method ResetMonthlyWindowIfElapsed(now: I64) returns (r: Result<(), Error>)
      modifies this`monthlySpend, this`monthlyWindowStart
      ensures match r
              case Ok(_) => RollWindow(old(View().monthly), now, Monthly) == Ok(View().monthly)
              case Err(e) => RollWindow(old(View().monthly), now, Monthly) == Err(e)
    {
      r := Ok(());
      :- Require(monthlyWindowStart + SECONDS_PER_MONTH <= I64_MAX, ArithmeticOverflow);
      if now >= monthlyWindowStart + SECONDS_PER_MONTH {
        monthlySpend := 0;
        :- Require(now - monthlyWindowStart <= I64_MAX, ArithmeticOverflow);
        var periods := (now - monthlyWindowStart) / SECONDS_PER_MONTH;
        monthlyWindowStart := monthlyWindowStart + periods * SECONDS_PER_MONTH;
      }
    }
  }

  class SpendPolicy {
    var agentWallet: Address
    var dailyBudget: U64
    var weeklyBudget: U64
    var monthlyBudget: U64
    var perCallLimit: U64
    var rateLimitCalls: U32
    var rateLimitWindowSecs: U32
    var rateLimitCallCount: U32
    var rateLimitWindowStart: I64
    var highValueThreshold: U64
    var allowedDomainHashes: seq<Hash>
    var blockedDomainHashes: seq<Hash>

    constructor (data: Policy)
      ensures View() == data
    {
      var l := data.limits;
      agentWallet := data.agentWallet;
      dailyBudget, weeklyBudget, monthlyBudget := l.dailyBudget, l.weeklyBudget, l.monthlyBudget;
      perCallLimit, rateLimitCalls, rateLimitWindowSecs := l.perCallLimit, l.rateLimitCalls, l.rateLimitWindowSecs;
      rateLimitCallCount, rateLimitWindowStart := data.rateLimitCallCount, data.rateLimitWindowStart;
      highValueThreshold := l.highValueThreshold;
      allowedDomainHashes, blockedDomainHashes := l.allowed, l.blocked;
    }

    /** The zeroed account that `init_if_needed` hands to a handler the first time. */
    constructor Zeroed()
    {
      agentWallet := DefaultKey;
      dailyBudget, weeklyBudget, monthlyBudget, perCallLimit := 0, 0, 0, 0;
      rateLimitCalls, rateLimitWindowSecs, rateLimitCallCount, rateLimitWindowStart := 0, 0, 0, 0;
      highValueThreshold := 0;
      allowedDomainHashes, blockedDomainHashes := [], [];
    }

    function View(): Policy
      reads this
    {
      Policy(agentWallet,
             Limits(dailyBudget, weeklyBudget, monthlyBudget, perCallLimit, rateLimitCalls, rateLimitWindowSecs,
                    highValueThreshold, allowedDomainHashes, blockedDomainHashes),
             rateLimitCallCount, rateLimitWindowStart)
    }

    method ResetRateWindowIfElapsed(now: I64) returns (r: Result<(), Error>)
      modifies this`rateLimitCallCount, this`rateLimitWindowStart
      ensures match r
              case Ok(_) => RollRateWindow(old(View()), now) == Ok(View())
              case Err(e) => RollRateWindow(old(View()), now) == Err(e)
    {
      if rateLimitWindowSecs > 0 {
        :- Require(rateLimitWindowStart + rateLimitWindowSecs <= I64_MAX, ArithmeticOverflow);
        if now >= rateLimitWindowStart + rateLimitWindowSecs {
          rateLimitCallCount := 0;
          rateLimitWindowStart := now;
        }
      }
      return Ok(());
    }
  }
}
