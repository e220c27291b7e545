/** What each crowdfund entry point answers in a reachable state, from the clock, the holdings, the
    claim flag and the records, and everything it changes. */
module CrowdfundEntryPoints {
  import opened Base
  import opened Sums
  import opened AbundanceToken
  import opened AbundanceProofs
  import opened TokenCalls
  import opened Crowdfund
  import opened CrowdfundProofs

  /** A reachable state whose token supply is an i128. */
  ghost predicate Bounded(f: Fund)
  {
    FundOk(f) && Supply(f.tok) <= I128_MAX
  }

  lemma InitializeExact(f: Fund, recipient: Address, deadline: u64, target: i128)
    ensures
      var r := Initialize(f, recipient, deadline, target);
      if f.campaign.Some? then r == Err(Trap)
      else r == Ok(f.(campaign := Some(Campaign(recipient, false, f.env.timestamp, deadline, target, map[]))))
  {
  }

  // ---- Deposits ----

  /** When a deposit is taken. */
  ghost predicate Depositable(f: Fund, user: Address, amount: i128)
  {
    && f.campaign.Some? && f.env.timestamp < f.campaign.value.deadline
    && user != f.env.self && user != f.campaign.value.recipient
    && 0 < amount <= Balance(f.tok, user)
  }

  /** What a deposit leaves. */
  ghost predicate DepositTaken(f: Fund, f': Fund, user: Address, amount: int)
    requires f.campaign.Some?
  {
    var c := f.campaign.value;
    && f'.env == f.env && Transferred(f.tok, f'.tok, user, f.env.self, amount)
    && f'.campaign.Some? && f'.campaign.value == c.(deposits := f'.campaign.value.deposits)
    && (forall u :: Deposited(f'.campaign.value, u) == Deposited(c, u) + (if u == user then amount else 0))
    && |f'.log| >= |f.log| + 2 && I128_MIN <= amount <= I128_MAX
    && f'.log[..|f.log| + 2] == f.log + [PaidIn(user, amount), PledgedAmountChanged(Holdings(f'))]
    && f'.log[|f.log| + 2..]
       == (if Holdings(f) < c.target <= Holdings(f) + amount then [TargetReached(Holdings(f'), c.target)] else [])
  }

  lemma DepositExact(f: Fund, user: Address, amount: i128)
    requires Bounded(f)
    ensures
      var r := Deposit(f, user, amount);
      if Depositable(f, user, amount) then r.Ok? && DepositTaken(f, r.value, user, amount) else r == Err(Trap)
  {
    hide Count, MapSum, Supply, Move;
    MoveTraps(f.tok, user, f.env.self, amount);
    MoveEffect(f.tok, user, f.env.self, amount);
    if Depositable(f, user, amount) {
      AffordableMoveSucceeds(f.tok, user, f.env.self, amount);
      MapSumBounds(f.campaign.value.deposits, user, user);
    }
  }

  // ---- Withdrawals ----

  ghost predicate Ended(f: Fund)
  {
    f.campaign.Some? && f.campaign.value.deadline <= f.env.timestamp
  }

  ghost predicate Succeeded(f: Fund)
  {
    Ended(f) && (f.campaign.value.recipientClaimed || f.campaign.value.target <= Holdings(f))
  }

  /** After a successful campaign the recipient, and nobody else, withdraws once, and gets everything the
      contract holds. */
  lemma ClaimExact(f: Fund, to: Address)
    requires Bounded(f) && Succeeded(f)
    ensures
      var r, c := Withdraw(f, to), f.campaign.value;
      if to != c.recipient || c.recipientClaimed then r == Err(Trap)
      else
        && r.Ok? && r.value == f.(tok := r.value.tok, campaign := Some(c.(recipientClaimed := true)),
                                  log := f.log + [PaidOut(to, Holdings(f), true)])
        && Transferred(f.tok, r.value.tok, f.env.self, to, Holdings(f))
        && (to != f.env.self ==>
              Holdings(r.value) == 0 && Balance(r.value.tok, to) == Balance(f.tok, to) + Holdings(f))
  {
    hide Count, MapSum, Supply, Move;
    assert Holdings(f) >= 0;
    MoveEffect(f.tok, f.env.self, f.campaign.value.recipient, Holdings(f));
    AffordableMoveSucceeds(f.tok, f.env.self, f.campaign.value.recipient, Holdings(f));
  }

  /** After a campaign that fell short everybody but the recipient withdraws the recorded deposit, which
      is then gone from the records. */
  lemma RefundExact(f: Fund, to: Address)
    requires Bounded(f) && Ended(f) && !Succeeded(f)
    ensures
      var r, c := Withdraw(f, to), f.campaign.value;
      if to == c.recipient then r == Err(Trap)
      else
        && r.Ok? && r.value.env == f.env && r.value.campaign.Some?
        && r.value.campaign.value == c.(deposits := r.value.campaign.value.deposits)
        && (forall u :: Deposited(r.value.campaign.value, u) == if u == to then 0 else Deposited(c, u))
        && Transferred(f.tok, r.value.tok, f.env.self, to, Deposited(c, to))
        && r.value.log == f.log + [PaidOut(to, Deposited(c, to), false), PledgedAmountChanged(Holdings(r.value))]
  {
    hide Count, MapSum, Supply, Move;
    var c := f.campaign.value;
    if to != c.recipient {
      MapSumBounds(c.deposits, to, to);
      MoveEffect(f.tok, f.env.self, to, Deposited(c, to));
      AffordableMoveSucceeds(f.tok, f.env.self, to, Deposited(c, to));
    }
  }

  /** Before the end, and before initialization, nobody withdraws. */
  lemma NoWithdrawalBeforeEnd(f: Fund, to: Address)
    requires !Ended(f)
    ensures Withdraw(f, to) == Err(Trap)
  {
  }

  // ---- The balance view ----

  /** The view is, in a successful campaign, the whole holdings for the recipient and nothing for others;
      before that, everybody's deposits less refunds. */
  lemma ViewExact(f0: Fund, acts: seq<FundAction>, u: Address)
    requires Initial(f0)
    ensures
      var f := Run(f0, acts);
      if f.campaign.None? then BalanceView(f, u) == Err(Trap)
      else if !Succeeded(f) then BalanceView(f, u) == Ok(Contributions(f.log, u))
      else BalanceView(f, u) == Ok(if u == f.campaign.value.recipient then Holdings(f) else 0)
  {
    hide Run, Contributions, Initial;
    DonorAccount(f0, acts, u);
  }

  /** Once the campaign has ended, the view is what a withdrawal pays to anybody who may withdraw. */
  lemma ViewIsPayable(f: Fund, u: Address)
    requires Bounded(f) && Ended(f) && u != f.env.self && Withdraw(f, u).Ok?
    ensures BalanceView(f, u) == Ok(Balance(Withdraw(f, u).value.tok, u) - Balance(f.tok, u))
  {
    hide Bounded, Withdraw;
    if Succeeded(f) {
      ClaimExact(f, u);
    } else {
      RefundExact(f, u);
    }
  }
}
