/** When each token call succeeds, what it changes, and on whose authority. */
module TokenCalls {
  import opened Base
  import opened AbundanceToken
  import opened AbundanceProofs

  /** Exactly one transfer: the two balances move, for any aliasing of the parties, and nothing else. */
  ghost predicate Transferred(t: TokenState, t': TokenState, from: Address, to: Address, amount: int)
  {
    && t'.allowances == t.allowances
    && forall a :: Balance(t', a) == Balance(t, a) - (if a == from then amount else 0)
                                                  + (if a == to then amount else 0)
  }

  /** Exactly the balance of `a` changed, by `amount`. */
  ghost predicate Credited(t: TokenState, t': TokenState, a: Address, amount: int)
  {
    forall x :: Balance(t', x) == Balance(t, x) + (if x == a then amount else 0)
  }

  /** Exactly the allowance `k` fell, by `amount`; expiries stay. */
  ghost predicate Drawn(t: TokenState, t': TokenState, now: u32, k: AllowanceKey, amount: int)
  {
    forall x :: ReadAllowance(t', now, x).expiration == ReadAllowance(t, now, x).expiration
                && ReadAllowance(t', now, x).amount == ReadAllowance(t, now, x).amount - (if x == k then amount else 0)
  }

  /** A transfer that fails panics. */
  lemma MoveTraps(t: TokenState, from: Address, to: Address, amount: i128)
    ensures Move(t, from, to, amount).Err? ==> Move(t, from, to, amount) == Err(Trap)
  {
  }

  lemma MintEffect(t: TokenState, now: u32, to: Address, amount: i128)
    ensures
      var r := Invoke(t, now, TokenCall.Mint(to, amount));
      && (r.Ok? <==> amount >= 0 && Balance(t, to) + amount <= I128_MAX)
      && (r.Ok? ==> Credited(t, r.value, to, amount) && r.value.allowances == t.allowances)
  {
  }

  /** An approval leaves exactly what it names, until the named ledger; no balance and no other
      allowance changes. */
  lemma ApproveEffect(t: TokenState, now: u32, from: Address, spender: Address, amount: i128, expiration: u32)
    ensures
      var r := Invoke(t, now, TokenCall.Approve(from, spender, amount, expiration));
      && (r.Ok? <==> amount == 0 || (amount > 0 && now <= expiration))
      && (r.Ok? ==>
            && Credited(t, r.value, from, 0)
            && forall later: u32, k ::
                 ReadAllowance(r.value, later, k) ==
                 if k != AllowanceKey(from, spender) then ReadAllowance(t, later, k)
                 else AllowanceValue(if later <= expiration then amount else 0, expiration))
  {
  }

  lemma TransferEffect(t: TokenState, now: u32, from: Address, to: Address, amount: i128)
    requires TokenInv(t)
    ensures
      var r := Invoke(t, now, TokenCall.Transfer(from, to, amount));
      && (r.Ok? <==> 0 <= amount <= Balance(t, from) && (from == to || Balance(t, to) + amount <= I128_MAX))
      && (r.Ok? ==> Transferred(t, r.value, from, to, amount))
  {
    hide Move, Supply;
    MoveEffect(t, from, to, amount);
  }

  /** A transfer on allowance debits the owner, never the spender, and draws on their allowance alone. */
  lemma TransferFromEffect(t: TokenState, now: u32, spender: Address, from: Address, to: Address, amount: i128)
    requires TokenInv(t)
    ensures
      var r, k := Invoke(t, now, TokenCall.TransferFrom(spender, from, to, amount)), AllowanceKey(from, spender);
      && (r.Ok? <==>
            && 0 <= amount <= ReadAllowance(t, now, k).amount && amount <= Balance(t, from)
            && (from == to || Balance(t, to) + amount <= I128_MAX))
      && (r.Ok? ==>
            && Drawn(t, r.value, now, k, amount)
            && forall a :: Balance(r.value, a) == Balance(t, a) - (if a == from then amount else 0)
                                                               + (if a == to then amount else 0))
  {
    hide Move, Supply, SpendAllowance;
    if amount >= 0 {
      var k := AllowanceKey(from, spender);
      SpendAllowanceExact(t, now, k, amount);
      if SpendAllowance(t, now, k, amount).Ok? {
        MoveEffect(SpendAllowance(t, now, k, amount).value, from, to, amount);
      }
    }
  }

  lemma BurnEffect(t: TokenState, now: u32, from: Address, amount: i128)
    requires TokenInv(t)
    ensures
      var r := Invoke(t, now, TokenCall.Burn(from, amount));
      && (r.Ok? <==> 0 <= amount <= Balance(t, from))
      && (r.Ok? ==> Credited(t, r.value, from, 0 - amount as int) && r.value.allowances == t.allowances)
  {
  }

  lemma BurnFromEffect(t: TokenState, now: u32, spender: Address, from: Address, amount: i128)
    requires TokenInv(t)
    ensures
      var r, k := Invoke(t, now, TokenCall.BurnFrom(spender, from, amount)), AllowanceKey(from, spender);
      && (r.Ok? <==> 0 <= amount <= ReadAllowance(t, now, k).amount && amount <= Balance(t, from))
      && (r.Ok? ==> Drawn(t, r.value, now, k, amount) && Credited(t, r.value, from, 0 - amount as int))
  {
    hide SpendAllowance;
    if amount >= 0 {
      SpendAllowanceExact(t, now, AllowanceKey(from, spender), amount);
    }
  }

  // ---- Authority ----

  /** No balance falls without its owner's signature or an allowance the owner gave the signer, which pays
      for it in full; no allowance rises without the owner's signature, or is drawn on without the
      spender's; only the receiver mints. */
  lemma OnlyAuthorised(t: TokenState, now: u32, c: TokenCall, x: Address, spender: Address)
    requires TokenInv(t) && Invoke(t, now, c).Ok?
    ensures
      var t' := Invoke(t, now, c).value;
      var lost := Balance(t, x) - Balance(t', x);
      && (lost > 0 && c.Signer() != x ==>
            ReadAllowance(t', now, AllowanceKey(x, c.Signer())).amount + lost
            <= ReadAllowance(t, now, AllowanceKey(x, c.Signer())).amount)
      && var k := AllowanceKey(x, spender);
      && (ReadAllowance(t', now, k).amount > ReadAllowance(t, now, k).amount ==> c.Signer() == x)
      && (ReadAllowance(t', now, k).amount < ReadAllowance(t, now, k).amount && !c.Approve? ==> c.Signer() == spender)
      && (Supply(t') > Supply(t) ==> c.Mint? && c.Signer() == c.to)
  {
    hide Invoke, Supply;
    InvokeKeeps(t, now, c);
    match c
    case Mint(to, amount) => MintEffect(t, now, to, amount);
    case Approve(from, s, amount, expiration) => ApproveEffect(t, now, from, s, amount, expiration);
    case Transfer(from, to, amount) => TransferEffect(t, now, from, to, amount);
    case TransferFrom(s, from, to, amount) => TransferFromEffect(t, now, s, from, to, amount);
    case Burn(from, amount) => BurnEffect(t, now, from, amount);
    case BurnFrom(s, from, amount) => BurnFromEffect(t, now, s, from, amount);
  }
}
