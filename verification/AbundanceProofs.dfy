/** What the token ledger keeps over every run. */
module AbundanceProofs {
  import opened Base
  import opened Sums
  import opened AbundanceToken

  /** No negative balance, no negative allowance. */
  ghost predicate TokenInv(t: TokenState)
  {
    && (forall a :: a in t.balances ==> t.balances[a] >= 0)
    && (forall k :: k in t.allowances ==> t.allowances[k].amount >= 0)
  }

  ghost function Supply(t: TokenState): int
  {
    MapSum(t.balances)
  }

  lemma ReceiveEffect(t: TokenState, a: Address, amount: i128)
    requires TokenInv(t) && amount >= 0 && ReceiveBalance(t, a, amount).Ok?
    ensures TokenInv(ReceiveBalance(t, a, amount).value)
    ensures Supply(ReceiveBalance(t, a, amount).value) == Supply(t) + amount
  {
    MapSumUpdate(t.balances, a, Balance(t, a) + amount);
  }

  lemma SpendEffect(t: TokenState, a: Address, amount: i128)
    requires TokenInv(t) && amount >= 0 && SpendBalance(t, a, amount).Ok?
    ensures TokenInv(SpendBalance(t, a, amount).value)
    ensures Supply(SpendBalance(t, a, amount).value) == Supply(t) - amount
  {
    MapSumUpdate(t.balances, a, Balance(t, a) - amount);
  }

  /** Exactly when a transfer succeeds, and the balance of every address after it, for any
      aliasing of the two parties. */
  lemma MoveEffect(t: TokenState, from: Address, to: Address, amount: i128)
    requires TokenInv(t)
    ensures Move(t, from, to, amount).Ok? <==>
              && 0 <= amount <= Balance(t, from)
              && (from == to || Balance(t, to) + amount <= I128_MAX)
    ensures Move(t, from, to, amount).Ok? ==>
              var t' := Move(t, from, to, amount).value;
              && TokenInv(t') && Supply(t') == Supply(t) && t'.allowances == t.allowances
              && forall a :: Balance(t', a) == Balance(t, a) - (if a == from then amount else 0)
                                                             + (if a == to then amount else 0)
  {
    if Move(t, from, to, amount).Ok? {
      var spent := SpendBalance(t, from, amount).value;
      SpendEffect(t, from, amount);
      ReceiveEffect(spent, to, amount);
    }
  }

  /** With the supply within i128, a transfer the sender can afford always succeeds. */
  lemma AffordableMoveSucceeds(t: TokenState, from: Address, to: Address, amount: i128)
    requires TokenInv(t) && Supply(t) <= I128_MAX
    requires 0 <= amount <= Balance(t, from)
    ensures Move(t, from, to, amount).Ok?
  {
    MoveEffect(t, from, to, amount);
    MapSumBounds(t.balances, from, to);
  }

  /** A spend succeeds exactly when the unexpired allowance covers it: once the amount check has
      passed, the expiry panic of the write is never reached. */
  lemma SpendAllowanceExact(t: TokenState, now: u32, k: AllowanceKey, amount: i128)
    requires TokenInv(t) && amount >= 0
    ensures SpendAllowance(t, now, k, amount).Ok? <==> amount <= ReadAllowance(t, now, k).amount
    ensures SpendAllowance(t, now, k, amount).Ok? && ReadAllowance(t, now, k).expiration < now ==> amount == 0
    ensures SpendAllowance(t, now, k, amount).Ok? ==>
              var t' := SpendAllowance(t, now, k, amount).value;
              && TokenInv(t') && t'.balances == t.balances
              && ReadAllowance(t', now, k)
                 == ReadAllowance(t, now, k).(amount := ReadAllowance(t, now, k).amount - amount)
              && forall k' :: k' != k ==> ReadAllowance(t', now, k') == ReadAllowance(t, now, k')
  {
  }

  /** What a call issues: minted less burned. */
  function Issued(c: TokenCall): int
  {
    match c
    case Mint(_, amount) => amount
    case Burn(_, amount) => 0 - amount as int
    case BurnFrom(_, _, amount) => 0 - amount as int
    case _ => 0
  }

  lemma InvokeKeeps(t: TokenState, now: u32, c: TokenCall)
    requires TokenInv(t) && Invoke(t, now, c).Ok?
    ensures TokenInv(Invoke(t, now, c).value)
    ensures Supply(Invoke(t, now, c).value) == Supply(t) + Issued(c)
  {
    match c
    case Mint(to, amount) => ReceiveEffect(t, to, amount);
    case Approve(_, _, _, _) =>
    case Transfer(from, to, amount) => MoveEffect(t, from, to, amount);
    case TransferFrom(spender, from, to, amount) =>
      var k := AllowanceKey(from, spender);
      SpendAllowanceExact(t, now, k, amount);
      MoveEffect(SpendAllowance(t, now, k, amount).value, from, to, amount);
    case Burn(from, amount) => SpendEffect(t, from, amount);
    case BurnFrom(spender, from, amount) =>
      var k := AllowanceKey(from, spender);
      SpendAllowanceExact(t, now, k, amount);
      SpendEffect(SpendAllowance(t, now, k, amount).value, from, amount);
  }

  /** `self` has approved nobody. */
  ghost predicate GrantsNothing(t: TokenState, self: Address)
  {
    forall k :: k in t.allowances && k.from == self ==> t.allowances[k].amount == 0
  }

  /** A call that an address did not authorise takes nothing from it, if it never approved anyone. */
  lemma ForeignCall(t: TokenState, now: u32, c: TokenCall, self: Address)
    requires TokenInv(t) && GrantsNothing(t, self) && c.Signer() != self && Invoke(t, now, c).Ok?
    ensures
      var t' := Invoke(t, now, c).value;
      TokenInv(t') && GrantsNothing(t', self) && Balance(t', self) >= Balance(t, self)
  {
    hide Move, Supply, SpendAllowance;
    InvokeKeeps(t, now, c);
    match c
    case Transfer(from, to, amount) => MoveEffect(t, from, to, amount);
    case TransferFrom(spender, from, to, amount) =>
      var k := AllowanceKey(from, spender);
      SpendGrantsNothing(t, now, k, amount, self);
      MoveEffect(SpendAllowance(t, now, k, amount).value, from, to, amount);
    case BurnFrom(spender, from, amount) =>
      SpendGrantsNothing(t, now, AllowanceKey(from, spender), amount, self);
    case _ =>
  }

  lemma SpendGrantsNothing(t: TokenState, now: u32, k: AllowanceKey, amount: i128, self: Address)
    requires TokenInv(t) && GrantsNothing(t, self) && amount >= 0 && SpendAllowance(t, now, k, amount).Ok?
    ensures
      var t' := SpendAllowance(t, now, k, amount).value;
      && TokenInv(t') && GrantsNothing(t', self) && t'.balances == t.balances
      && (k.from == self ==> amount == 0)
  {
  }

  // ---- Runs ----

  datatype TokenAction = Call(call: TokenCall) | AdvanceTo(sequence: u32)

  datatype TokenWorld = TokenWorld(now: u32, t: TokenState)

  predicate Succeeds(w: TokenWorld, a: TokenAction)
  {
    a.Call? && Invoke(w.t, w.now, a.call).Ok?
  }

  /** A failed call changes nothing; the ledger sequence never decreases. */
  function TokenStep(w: TokenWorld, a: TokenAction): TokenWorld
  {
    match a
    case Call(c) => if Succeeds(w, a) then w.(t := Invoke(w.t, w.now, c).value) else w
    case AdvanceTo(s) => if w.now <= s then w.(now := s) else w
  }

  function TokenRun(w: TokenWorld, acts: seq<TokenAction>): TokenWorld
    decreases |acts|
  {
    if acts == [] then w else TokenRun(TokenStep(w, acts[0]), acts[1..])
  }

  /** Total minted less burned by the successful calls of a run. */
  function TotalIssued(w: TokenWorld, acts: seq<TokenAction>): int
    decreases |acts|
  {
    if acts == [] then 0
    else (if Succeeds(w, acts[0]) then Issued(acts[0].call) else 0) + TotalIssued(TokenStep(w, acts[0]), acts[1..])
  }

  /** Conservation: the sum of all balances is what was there plus minted less burned. */
  lemma {:induction false} SupplyIsIssued(w: TokenWorld, acts: seq<TokenAction>)
    requires TokenInv(w.t)
    ensures TokenInv(TokenRun(w, acts).t)
    ensures Supply(TokenRun(w, acts).t) == Supply(w.t) + TotalIssued(w, acts)
    decreases |acts|
  {
    if acts != [] {
      if Succeeds(w, acts[0]) {
        InvokeKeeps(w.t, w.now, acts[0].call);
      }
      SupplyIsIssued(TokenStep(w, acts[0]), acts[1..]);
    }
  }

  /** How much of the allowance `k` a call draws. */
  function Draws(c: TokenCall, k: AllowanceKey): int
  {
    match c
    case TransferFrom(spender, from, _, amount) => if AllowanceKey(from, spender) == k then amount else 0
    case BurnFrom(spender, from, amount) => if AllowanceKey(from, spender) == k then amount else 0
    case _ => 0
  }

  function TotalDrawn(w: TokenWorld, acts: seq<TokenAction>, k: AllowanceKey): int
    decreases |acts|
  {
    if acts == [] then 0
    else (if Succeeds(w, acts[0]) then Draws(acts[0].call, k) else 0) + TotalDrawn(TokenStep(w, acts[0]), acts[1..], k)
  }

  predicate Approves(a: TokenAction, k: AllowanceKey)
  {
    a.Call? && a.call.Approve? && AllowanceKey(a.call.from, a.call.spender) == k
  }

  lemma DrawStep(w: TokenWorld, a: TokenAction, k: AllowanceKey)
    requires TokenInv(w.t) && !Approves(a, k)
    ensures TokenInv(TokenStep(w, a).t) && w.now <= TokenStep(w, a).now
    ensures
      var w' := TokenStep(w, a);
      var drawn := if Succeeds(w, a) then Draws(a.call, k) else 0;
      var before, after := ReadAllowance(w.t, w.now, k), ReadAllowance(w'.t, w'.now, k);
      && 0 <= drawn <= before.amount && after.expiration == before.expiration
      && (w'.now <= before.expiration ==> after.amount + drawn == before.amount)
      && (w'.now > before.expiration ==> after.amount == 0)
  {
    if Succeeds(w, a) {
      InvokeKeeps(w.t, w.now, a.call);
      match a.call
      case TransferFrom(spender, from, to, amount) =>
        SpendAllowanceExact(w.t, w.now, AllowanceKey(from, spender), amount);
        MoveEffect(SpendAllowance(w.t, w.now, AllowanceKey(from, spender), amount).value, from, to, amount);
      case BurnFrom(spender, from, amount) =>
        SpendAllowanceExact(w.t, w.now, AllowanceKey(from, spender), amount);
      case Transfer(from, to, amount) => MoveEffect(w.t, from, to, amount);
      case _ =>
    }
  }

  /** Between approvals, over every run: while unexpired, what is left plus what was drawn is what
      was approved; after expiry nothing is left and no more than approved was drawn. */
  lemma {:induction false} AllowanceAccounting(w: TokenWorld, acts: seq<TokenAction>, k: AllowanceKey)
    requires TokenInv(w.t)
    requires forall a :: a in acts ==> !Approves(a, k)
    ensures w.now <= TokenRun(w, acts).now
    ensures
      var w' := TokenRun(w, acts);
      var before, after := ReadAllowance(w.t, w.now, k), ReadAllowance(w'.t, w'.now, k);
      && after.expiration == before.expiration
      && 0 <= TotalDrawn(w, acts, k) <= before.amount
      && (w'.now <= before.expiration ==> after.amount + TotalDrawn(w, acts, k) == before.amount)
      && (w'.now > before.expiration ==> after.amount == 0)
    decreases |acts|
  {
    if acts == [] {
    } else {
      DrawStep(w, acts[0], k);
      AllowanceAccounting(TokenStep(w, acts[0]), acts[1..], k);
    }
  }
}
