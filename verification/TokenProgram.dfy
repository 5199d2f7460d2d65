/** The token program's transfer, and what the accounts of one mint hold together. */
module TokenProgram {
  import opened Numbers
  import opened Results
  import opened Accounts

  /** Move tokens. A transfer to the same account needs the balance but moves nothing. */
  function Transfer(t: Tokens, from: Address, to: Address, amount: U64): Result<Tokens, Error> {
    if from !in t || to !in t then Err(AccountMissing) else
    if t[from].amount < amount then Err(TokenBalanceTooLow) else
    if t[from].mint != t[to].mint then Err(TokenMintMismatch) else
    if from == to then Ok(t) else
    if t[to].amount + amount > U64_MAX then Err(TokenOverflow) else
    var debited := t[from].(amount := t[from].amount - amount);
    var credited := t[to].(amount := t[to].amount + amount);
    Ok(t[from := debited][to := credited])
  }

  function Balance(t: Tokens, account: Address): U64 {
    if account in t then t[account].amount else 0
  }

  /** One account has the amount less and another the same amount more, or, if they are one, nothing has changed. */
  ghost predicate Moves(t: Tokens, t': Tokens, from: Address, to: Address, amount: U64) {
    && t'.Keys == t.Keys && from in t && to in t
    && (forall a :: a in t ==> t'[a].mint == t[a].mint && t'[a].owner == t[a].owner)
    && (forall a :: a in t && a != from && a != to ==> t'[a].amount == t[a].amount)
    && (from != to ==> t'[from].amount == t[from].amount - amount && t'[to].amount == t[to].amount + amount)
    && (from == to ==> t'[from].amount == t[from].amount)
  }

  /** A covered transfer goes through, whole balance or part, and moves the amount to the unit. */
  lemma TransferSucceedsIff(t: Tokens, from: Address, to: Address, amount: U64)
    ensures Transfer(t, from, to, amount).Ok?
            <==> && from in t && to in t && amount <= t[from].amount && t[from].mint == t[to].mint
                 && (from != to ==> t[to].amount + amount <= U64_MAX)
    ensures Transfer(t, from, to, amount).Ok? ==> Moves(t, Transfer(t, from, to, amount).value, from, to, amount)
    ensures Transfer(t, from, to, amount) == Err(TokenBalanceTooLow)
            <==> from in t && to in t && amount > t[from].amount
    ensures Transfer(t, from, to, amount) == Err(TokenMintMismatch)
            <==> from in t && to in t && amount <= t[from].amount && t[from].mint != t[to].mint
  {
  }

  function Holding(a: TokenAccount, mint: Address): nat {
    if a.mint == mint then a.amount else 0
  }

  /** Sum of all balances of a mint. */
  ghost function Held(t: Tokens, mint: Address): nat {
    if t == map[] then 0
    else
      var account :| account in t;
      Holding(t[account], mint) + Held(t - {account}, mint)
  }

  /** The sum does not depend on the order the accounts are taken in. */
  lemma {:induction false} HeldTake(t: Tokens, mint: Address, account: Address)
    requires account in t
    ensures Held(t, mint) == Holding(t[account], mint) + Held(t - {account}, mint)
    decreases |t|
  {
    var first :| first in t && Held(t, mint) == Holding(t[first], mint) + Held(t - {first}, mint);
    if first != account {
      HeldTake(t - {first}, mint, account);
      HeldTake(t - {account}, mint, first);
      assert t - {first} - {account} == t - {account} - {first};
    }
  }

  /** Replacing or adding one account changes the sum by that account alone. */
  lemma HeldUpdate(t: Tokens, mint: Address, account: Address, a: TokenAccount)
    ensures Held(t[account := a], mint) + (if account in t then Holding(t[account], mint) else 0)
         == Held(t, mint) + Holding(a, mint)
  {
    var t' := t[account := a];
    HeldTake(t', mint, account);
    if account in t {
      HeldTake(t, mint, account);
      assert t' - {account} == t - {account};
    } else {
      assert t' - {account} == t;
    }
  }

  lemma TransferConserves(t: Tokens, from: Address, to: Address, amount: U64, mint: Address)
    requires Transfer(t, from, to, amount).Ok?
    ensures Held(Transfer(t, from, to, amount).value, mint) == Held(t, mint)
  {
    if from != to {
      var debited := t[from].(amount := t[from].amount - amount);
      var credited := t[to].(amount := t[to].amount + amount);
      HeldUpdate(t, mint, from, debited);
      HeldUpdate(t[from := debited], mint, to, credited);
    }
  }

  /** Two accounts of one mint never hold more than the sum. */
  lemma HeldCovers(t: Tokens, mint: Address, a: Address, b: Address)
    requires a in t && b in t && a != b
    ensures Holding(t[a], mint) + Holding(t[b], mint) <= Held(t, mint)
  {
    HeldTake(t, mint, a);
    HeldTake(t - {a}, mint, b);
  }
}
