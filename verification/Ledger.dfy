/**
  What a wallet's payment history says, computed from the records alone and in
  unbounded integers. This is the reference the counters are measured against.
*/
module Ledger {
  import opened Numbers
  import opened Accounts

  /** What to add up. Violation records never weigh anything. */
  datatype Measure =
    | Spend                          // amounts settled
    | SpendBelow(threshold: U64)     // amounts settled below a threshold
    | CallsBelow(threshold: U64)     // number of settlements below a threshold
    | CallsFrom(threshold: U64)      // number of settlements a policy with this threshold enforces

  function Weight(m: Measure, r: Record): nat {
    if !r.policyPassed then 0 else
    match m
    case Spend => r.amount
    case SpendBelow(t) => if r.amount < t then r.amount else 0
    case CallsBelow(t) => if r.amount < t then 1 else 0
    case CallsFrom(t) => if 0 < t <= r.amount then 1 else 0
  }

  /** Weight of a record if it falls in the half-open interval. */
  function Share(r: Record, m: Measure, lo: int, hi: int): nat {
    if lo <= r.settledAt < hi then Weight(m, r) else 0
  }

  /** Total weight of the records settled in the half-open interval from `lo` to `hi`. */
  function Tally(h: seq<Record>, m: Measure, lo: int, hi: int): nat {
    if h == [] then 0
    else Tally(h[..|h| - 1], m, lo, hi) + Share(h[|h| - 1], m, lo, hi)
  }

  /** Total weight of the whole history. */
  function GrandTotal(h: seq<Record>, m: Measure): nat {
    Tally(h, m, I64_MIN, I64_MAX + 1)
  }

  /** Settlement time of the last successful payment, or `default` if there is none. */
  function LastPaid(h: seq<Record>, default: int): int {
    if h == [] then default
    else if h[|h| - 1].policyPassed then h[|h| - 1].settledAt
    else LastPaid(h[..|h| - 1], default)
  }

  /** Settlement times never go back. */
  ghost predicate Chronological(h: seq<Record>) {
    forall i, j :: 0 <= i < j < |h| ==> h[i].settledAt <= h[j].settledAt
  }

  lemma TallyAppend(h: seq<Record>, r: Record, m: Measure, lo: int, hi: int)
    ensures Tally(h + [r], m, lo, hi) == Tally(h, m, lo, hi) + Share(r, m, lo, hi)
  {
    assert (h + [r])[..|h|] == h;
  }

  lemma LastPaidAppend(h: seq<Record>, r: Record, default: int)
    ensures LastPaid(h + [r], default) == if r.policyPassed then r.settledAt else LastPaid(h, default)
  {
    assert (h + [r])[..|h|] == h;
  }

  lemma {:induction false} TallySplit(h: seq<Record>, m: Measure, lo: int, mid: int, hi: int)
    requires lo <= mid <= hi
    ensures Tally(h, m, lo, hi) == Tally(h, m, lo, mid) + Tally(h, m, mid, hi)
  {
    if h != [] {
      TallySplit(h[..|h| - 1], m, lo, mid, hi);
    }
  }

  lemma {:induction false} TallyWiden(h: seq<Record>, m: Measure, lo: int, hi: int, lo': int, hi': int)
    requires lo' <= lo && hi <= hi'
    ensures Tally(h, m, lo, hi) <= Tally(h, m, lo', hi')
  {
    if h != [] {
      TallyWiden(h[..|h| - 1], m, lo, hi, lo', hi');
    }
  }

  /** Nothing is tallied in an interval no weighing record falls in. */
  lemma {:induction false} TallyEmpty(h: seq<Record>, m: Measure, lo: int, hi: int)
    requires forall i :: 0 <= i < |h| ==> Share(h[i], m, lo, hi) == 0
    ensures Tally(h, m, lo, hi) == 0
  {
    if h != [] {
      TallyEmpty(h[..|h| - 1], m, lo, hi);
    }
  }

  /** Two intervals that catch the same records tally the same. */
  lemma {:induction false} TallySame(h: seq<Record>, m: Measure, lo: int, hi: int, lo': int, hi': int)
    requires forall i :: 0 <= i < |h| ==> Share(h[i], m, lo, hi) == Share(h[i], m, lo', hi')
    ensures Tally(h, m, lo, hi) == Tally(h, m, lo', hi')
  {
    if h != [] {
      TallySame(h[..|h| - 1], m, lo, hi, lo', hi');
    }
  }

  /** In time order, no successful payment is later than the last one. */
  lemma {:induction false} LastPaidIsLast(h: seq<Record>, default: int)
    requires Chronological(h)
    ensures forall i :: 0 <= i < |h| && h[i].policyPassed ==> h[i].settledAt <= LastPaid(h, default)
    ensures || LastPaid(h, default) == default
            || exists i :: 0 <= i < |h| && h[i].policyPassed && h[i].settledAt == LastPaid(h, default)
  {
    if h != [] && !h[|h| - 1].policyPassed {
      LastPaidIsLast(h[..|h| - 1], default);
    }
  }

  /** The last successful payment is the one with only violations after it. */
  lemma {:induction false} LastPaidIs(h: seq<Record>, default: int, i: nat)
    requires i < |h| && h[i].policyPassed
    requires forall j :: i < j < |h| ==> !h[j].policyPassed
    ensures LastPaid(h, default) == h[i].settledAt
  {
    if i < |h| - 1 {
      LastPaidIs(h[..|h| - 1], default, i);
    }
  }

  lemma {:induction false} NeverPaid(h: seq<Record>, default: int)
    requires forall j :: 0 <= j < |h| ==> !h[j].policyPassed
    ensures LastPaid(h, default) == default
  {
    if h != [] {
      NeverPaid(h[..|h| - 1], default);
    }
  }

  /** Small payments: their total is bounded by how many there were. */
  lemma {:induction false} SmallPaymentsBound(h: seq<Record>, threshold: U64, lo: int, hi: int)
    requires threshold > 0
    ensures Tally(h, SpendBelow(threshold), lo, hi) <= Tally(h, CallsBelow(threshold), lo, hi) * (threshold - 1)
  {
    if h != [] {
      SmallPaymentsBound(h[..|h| - 1], threshold, lo, hi);
    }
  }
}
