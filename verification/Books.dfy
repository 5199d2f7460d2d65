/**
  Agreement of a wallet's counters with its payment history: the invariant of
  one wallet, and how each instruction that touches the books keeps it.
*/
module Books {
  import opened Numbers
  import opened Accounts
  import opened Grid
  import opened Ledger
  import opened Windows
  import opened Machine

  /** The accumulator is the spend of the grid cell that holds time `t`. */
  ghost predicate ShowsCell(w: Window, span: Span, h: seq<Record>, anchor: int, t: int) {
    && w.start == CellStart(anchor, t, Period(span))
    && w.spend == Clamp64(Tally(h, Spend, w.start, w.start + Period(span)))
  }

  /** The accumulator is the spend of the grid cell of the last payment, stale or not. */
  ghost predicate WindowAgrees(w: Window, span: Span, h: seq<Record>, anchor: int) {
    ShowsCell(w, span, h, anchor, LastPaid(h, anchor))
  }

  /** Records in time order since registration, numbered from zero, and never for nothing. */
  ghost predicate HistorySound(h: seq<Record>, agent: AgentId, anchor: int, now: int) {
    && Chronological(h)
    && (forall i :: 0 <= i < |h| ==> anchor <= h[i].settledAt <= now)
    && (forall i :: 0 <= i < |h| ==> h[i].agentWallet == WalletPda(agent) && h[i].sequence == i)
    && (forall i :: 0 <= i < |h| && h[i].policyPassed ==> h[i].amount > 0)
  }

  ghost predicate BooksAgree(w: Wallet, h: seq<Record>, anchor: int, now: int) {
    && 0 <= anchor <= now <= MAX_CLOCK
    && HistorySound(h, w.agentId, anchor, now)
    && (forall span :: WindowAgrees(w.Of(span), span, h, anchor))
    && w.totalVolume == Clamp64(GrandTotal(h, Spend))
    && w.paymentSequence == Clamp64(|h|)
    && w.totalPayments == Clamp64(|h|)
    && w.lastPaymentAt == LastPaid(h, 0)
  }

  /** No payment of a sound history is later than the present, or before registration. */
  lemma LastPaidInRange(h: seq<Record>, agent: AgentId, anchor: int, now: int)
    requires HistorySound(h, agent, anchor, now) && anchor <= now
    ensures anchor <= LastPaid(h, anchor) <= now
    ensures forall i :: 0 <= i < |h| && h[i].policyPassed ==> h[i].settledAt <= LastPaid(h, anchor)
  {
    LastPaidIsLast(h, anchor);
  }

  /**
    Rolling an agreeing window to `now` never traps, and gives the cell of `now`
    with exactly what the ledger says was spent in it.
  */
  lemma RollAgrees(w: Window, span: Span, h: seq<Record>, agent: AgentId, anchor: int, now: I64)
    requires 0 <= anchor <= now <= MAX_CLOCK
    requires HistorySound(h, agent, anchor, now)
    requires WindowAgrees(w, span, h, anchor)
    ensures RollWindow(w, now, span).Ok?
    ensures ShowsCell(RollWindow(w, now, span).value, span, h, anchor, now)
  {
    LastPaidInRange(h, agent, anchor, now);
    if now < w.start + Period(span) {
      SameCell(anchor, LastPaid(h, anchor), now, Period(span));
    } else {
      MovedWindowIsEmpty(w, span, h, agent, anchor, now);
    }
  }

  /** A time not past the end of an earlier time's cell is in that cell. */
  lemma SameCell(anchor: int, earlier: int, t: int, period: int)
    requires period > 0 && earlier <= t < CellStart(anchor, earlier, period) + period
    ensures CellStart(anchor, t, period) == CellStart(anchor, earlier, period)
  {
    CellUnique(anchor, t, period, CellIndex(anchor, earlier, period));
  }

  /** A roll that moves the window lands in the cell of `now`, where nothing has been spent. */
  lemma MovedWindowIsEmpty(w: Window, span: Span, h: seq<Record>, agent: AgentId, anchor: int, now: int)
    requires HistorySound(h, agent, anchor, now) && WindowAgrees(w, span, h, anchor)
    requires anchor <= now && w.start + Period(span) <= now
    ensures CellStart(w.start, now, Period(span)) == CellStart(anchor, now, Period(span))
    ensures var start := CellStart(anchor, now, Period(span));
            Tally(h, Spend, start, start + Period(span)) == 0
  {
    var start := CellStart(anchor, now, Period(span));
    CellStartReanchored(anchor, LastPaid(h, anchor), now, Period(span));
    CellWithinOrder(w.start, now, Period(span));
    NothingAfterLastPaid(h, agent, anchor, now, start, start + Period(span));
  }

  lemma NothingAfterLastPaid(h: seq<Record>, agent: AgentId, anchor: int, now: int, lo: int, hi: int)
    requires HistorySound(h, agent, anchor, now) && anchor <= now && LastPaid(h, anchor) < lo
    ensures Tally(h, Spend, lo, hi) == 0
  {
    LastPaidInRange(h, agent, anchor, now);
    TallyEmpty(h, Spend, lo, hi);
  }

  /** A roll that moves the start moves it past the old cell. */
  lemma CellWithinOrder(start: int, now: int, period: int)
    requires period > 0 && start + period <= now
    ensures start + period <= CellStart(start, now, period)
  {
    var k := CellIndex(start, now, period);
    if k < 1 {
      assert CellAt(start, 0, period) == start;
      if k < 0 {
        CellsApart(start, k, 0, period);
      }
    } else if 1 < k {
      assert CellAt(start, 1, period) == start + period;
      CellsApart(start, 1, k, period);
    }
  }

  /** All three rolls of an agreeing wallet succeed; nothing but the windows changes. */
  lemma RollsAgree(w: Wallet, h: seq<Record>, anchor: int, now: I64)
    requires BooksAgree(w, h, anchor, now)
    ensures RollWindows(w, now).Ok?
    ensures var rolled := RollWindows(w, now).value;
            && rolled == w.(daily := rolled.daily, weekly := rolled.weekly, monthly := rolled.monthly)
            && forall span :: ShowsCell(rolled.Of(span), span, h, anchor, now)
  {
    assert WindowAgrees(w.Of(Daily), Daily, h, anchor);
    assert WindowAgrees(w.Of(Weekly), Weekly, h, anchor);
    assert WindowAgrees(w.Of(Monthly), Monthly, h, anchor);
    RollAgrees(w.daily, Daily, h, w.agentId, anchor, now);
    RollAgrees(w.weekly, Weekly, h, w.agentId, anchor, now);
    RollAgrees(w.monthly, Monthly, h, w.agentId, anchor, now);
  }

  /** Charging a window that shows the spend of the cell of `now` shows it with the new payment too. */
  lemma ChargeAgrees(w: Window, span: Span, h: seq<Record>, anchor: int, r: Record)
    requires r.policyPassed && ShowsCell(w, span, h, anchor, r.settledAt)
    ensures WindowAgrees(Charge(w, r.amount), span, h + [r], anchor)
  {
    LastPaidAppend(h, r, anchor);
    TallyAppend(h, r, Spend, w.start, w.start + Period(span));
  }

  lemma HistorySoundAppend(h: seq<Record>, agent: AgentId, anchor: int, now: int, r: Record)
    requires HistorySound(h, agent, anchor, now) && anchor <= now
    requires r.settledAt == now && r.agentWallet == WalletPda(agent) && r.sequence == |h|
    requires r.policyPassed ==> r.amount > 0
    ensures HistorySound(h + [r], agent, anchor, now)
  {
  }

  /** The same for all three windows of a wallet. */
  lemma ChargesAgree(rolled: Wallet, h: seq<Record>, anchor: int, r: Record)
    requires r.policyPassed && forall span :: ShowsCell(rolled.Of(span), span, h, anchor, r.settledAt)
    ensures forall span :: WindowAgrees(Book(rolled, r.amount, r.settledAt).Of(span), span, h + [r], anchor)
  {
    var booked := Book(rolled, r.amount, r.settledAt);
    forall span ensures WindowAgrees(booked.Of(span), span, h + [r], anchor) {
      assert ShowsCell(rolled.Of(span), span, h, anchor, r.settledAt);
      ChargeAgrees(rolled.Of(span), span, h, anchor, r);
      assert booked.Of(span) == Charge(rolled.Of(span), r.amount);
    }
  }

  /** The lifetime counters after one more record. */
  lemma LifetimeAppend(h: seq<Record>, r: Record)
    ensures GrandTotal(h + [r], Spend) == GrandTotal(h, Spend) + if r.policyPassed then r.amount else 0
    ensures LastPaid(h + [r], 0) == if r.policyPassed then r.settledAt else LastPaid(h, 0)
  {
    TallyAppend(h, r, Spend, I64_MIN, I64_MAX + 1);
    LastPaidAppend(h, r, 0);
  }

  /** A settlement keeps the books in agreement. */
  lemma SettlementAgrees(w: Wallet, h: seq<Record>, anchor: int, now: I64, r: Record)
    requires BooksAgree(w, h, anchor, now) && |h| <= U64_MAX
    requires r.settledAt == now && r.agentWallet == WalletPda(w.agentId) && r.sequence == |h|
    requires r.policyPassed && r.amount > 0
    ensures RollWindows(w, now).Ok?
    ensures BooksAgree(Book(RollWindows(w, now).value, r.amount, now), h + [r], anchor, now)
  {
    RollsAgree(w, h, anchor, now);
    HistorySoundAppend(h, w.agentId, anchor, now, r);
    LifetimeAppend(h, r);
    ChargesAgree(RollWindows(w, now).value, h, anchor, r);
  }

  /** A violation record advances the sequence and nothing else. */
  lemma ViolationAgrees(w: Wallet, h: seq<Record>, anchor: int, now: I64, r: Record)
    requires BooksAgree(w, h, anchor, now) && |h| <= U64_MAX
    requires r.settledAt == now && r.agentWallet == WalletPda(w.agentId) && r.sequence == |h|
    requires !r.policyPassed
    ensures BooksAgree(w.(paymentSequence := SaturatingAdd64(w.paymentSequence, 1),
                          totalPayments := SaturatingAdd64(w.totalPayments, 1)), h + [r], anchor, now)
  {
    HistorySoundAppend(h, w.agentId, anchor, now, r);
    LifetimeAppend(h, r);
    ViolationWindowsAgree(w, h, anchor, r);
    var w' := w.(paymentSequence := SaturatingAdd64(w.paymentSequence, 1),
                 totalPayments := SaturatingAdd64(w.totalPayments, 1));
    assert forall span :: w'.Of(span) == w.Of(span);
  }

  lemma ViolationWindowsAgree(w: Wallet, h: seq<Record>, anchor: int, r: Record)
    requires !r.policyPassed && forall span :: WindowAgrees(w.Of(span), span, h, anchor)
    ensures forall span :: WindowAgrees(w.Of(span), span, h + [r], anchor)
  {
    LastPaidAppend(h, r, anchor);
    forall span ensures WindowAgrees(w.Of(span), span, h + [r], anchor) {
      TallyAppend(h, r, Spend, w.Of(span).start, w.Of(span).start + Period(span));
      assert WindowAgrees(w.Of(span), span, h, anchor);
    }
  }

  /** A new wallet agrees with an empty history. */
  lemma NewWalletAgrees(agent: AgentId, owner: Address, mint: Address, now: I64)
    requires 0 <= now <= MAX_CLOCK
    ensures BooksAgree(NewWallet(agent, owner, mint, now), [], now, now)
  {
    forall span ensures CellStart(now, now, Period(span)) == now {
      CellUnique(now, now, Period(span), 0);
    }
  }
}
