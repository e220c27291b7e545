/** Backing, refunds and phases of the crowdfund over every run. */
module CrowdfundProofs {
  import opened Base
  import opened Sums
  import opened AbundanceToken
  import opened AbundanceProofs
  import opened Crowdfund

  datatype Kind = Claims | TargetEvents

  predicate Is(k: Kind, e: FundEvent)
  {
    match k
    case Claims => e.PaidOut? && e.toRecipient
    case TargetEvents => e.TargetReached?
  }

  function Count(log: seq<FundEvent>, k: Kind): nat
  {
    if log == [] then 0 else Count(log[..|log| - 1], k) + (if Is(k, log[|log| - 1]) then 1 else 0)
  }

  lemma CountAppend(log: seq<FundEvent>, e: FundEvent, k: Kind)
    ensures Count(log + [e], k) == Count(log, k) + (if Is(k, e) then 1 else 0)
  {
    assert (log + [e])[..|log|] == log;
  }

  /** Recorded deposits are backed until the claim; neither the recipient nor the contract deposits;
      the claim and the target event happen at most once, and the flag and the holdings show it. */
  ghost predicate CampaignOk(f: Fund, c: Campaign)
  {
    && (forall u :: u in c.deposits ==> c.deposits[u] >= 0)
    && Deposited(c, c.recipient) == 0 && Deposited(c, f.env.self) == 0
    && (!c.recipientClaimed ==> MapSum(c.deposits) <= Holdings(f))
    && (c.recipientClaimed ==> c.deadline <= f.env.timestamp)
    && Count(f.log, Claims) == (if c.recipientClaimed then 1 else 0)
    && Count(f.log, TargetEvents) <= 1
    && (Count(f.log, TargetEvents) == 1 && f.env.timestamp < c.deadline ==> Holdings(f) >= c.target)
  }

  ghost predicate FundOk(f: Fund)
  {
    && TokenInv(f.tok) && GrantsNothing(f.tok, f.env.self)
    && match f.campaign
       case None => f.log == []
       case Some(c) => CampaignOk(f, c)
  }

  /** A deployed contract over any token state in which it approved nobody. */
  ghost predicate Initial(f: Fund)
  {
    TokenInv(f.tok) && GrantsNothing(f.tok, f.env.self) && f.campaign == None && f.log == []
  }

  lemma DepositKeeps(f: Fund, user: Address, amount: i128)
    requires FundOk(f) && Deposit(f, user, amount).Ok?
    ensures FundOk(Deposit(f, user, amount).value)
  {
    hide Deposit, MapSum, Count, Move;
    DepositMoves(f, user, amount);
    DepositEvents(f, user, amount);
  }

  lemma DepositMoves(f: Fund, user: Address, amount: i128)
    requires FundOk(f) && Deposit(f, user, amount).Ok?
    ensures f.campaign.Some?
    ensures
      var f', c := Deposit(f, user, amount).value, f.campaign.value;
      && f'.env == f.env && TokenInv(f'.tok) && f'.tok.allowances == f.tok.allowances
      && f.env.timestamp < c.deadline && user != c.recipient && user != f.env.self && amount > 0
      && Deposited(c, user) >= 0
      && f'.campaign.Some? && f'.campaign.value.deposits.Keys == c.deposits.Keys + {user}
      && f'.campaign.value == c.(deposits := f'.campaign.value.deposits)
      && f'.campaign.value.deposits == c.deposits[user := f'.campaign.value.deposits[user]]
      && f'.campaign.value.deposits[user] == Deposited(c, user) + amount
      && MapSum(f'.campaign.value.deposits) == MapSum(c.deposits) + amount
      && Holdings(f') == Holdings(f) + amount
  {
    hide Count;
    var c := f.campaign.value;
    MoveEffect(f.tok, user, f.env.self, amount);
    MapSumUpdate(c.deposits, user, Deposited(c, user) + amount);
  }

  /** A deposit emits the target event exactly when it crosses the target. */
  lemma DepositEvents(f: Fund, user: Address, amount: i128)
    requires Deposit(f, user, amount).Ok?
    ensures
      var f', target := Deposit(f, user, amount).value, f.campaign.value.target;
      && Count(f'.log, Claims) == Count(f.log, Claims)
      && Count(f'.log, TargetEvents)
         == Count(f.log, TargetEvents) + (if Holdings(f) < target <= Holdings(f') then 1 else 0)
  {
    hide Move, Count;
    var f', c := Deposit(f, user, amount).value, f.campaign.value;
    var pledged, reached := PledgedAmountChanged(Holdings(f')), TargetReached(Holdings(f'), c.target);
    var first := f.log + [PaidIn(user, amount)];
    var mid := first + [pledged];
    assert f'.log == if Holdings(f) < c.target <= Holdings(f') then mid + [reached] else mid;
    CountAppend(f.log, PaidIn(user, amount), Claims);
    CountAppend(f.log, PaidIn(user, amount), TargetEvents);
    CountAppend(first, pledged, Claims);
    CountAppend(first, pledged, TargetEvents);
    CountAppend(mid, reached, Claims);
    CountAppend(mid, reached, TargetEvents);
  }

  lemma ClaimKeeps(f: Fund, to: Address)
    requires FundOk(f) && Withdraw(f, to).Ok? && PhaseOf(f, f.campaign.value) == Success
    ensures FundOk(Withdraw(f, to).value)
  {
    var f', c := Withdraw(f, to).value, f.campaign.value;
    MoveEffect(f.tok, f.env.self, c.recipient, Holdings(f));
    CountAppend(f.log, PaidOut(c.recipient, Holdings(f), true), Claims);
    CountAppend(f.log, PaidOut(c.recipient, Holdings(f), true), TargetEvents);
  }

  lemma RefundKeeps(f: Fund, to: Address)
    requires FundOk(f) && Withdraw(f, to).Ok? && PhaseOf(f, f.campaign.value) == Expired
    ensures FundOk(Withdraw(f, to).value)
  {
    var f', c := Withdraw(f, to).value, f.campaign.value;
    var amount := Deposited(c, to);
    MoveEffect(f.tok, f.env.self, to, amount);
    MapSumUpdate(c.deposits, to, 0);
    var e, e' := PaidOut(to, amount, false), PledgedAmountChanged(Holdings(f'));
    assert f'.log == f.log + [e] + [e'];
    CountAppend(f.log, e, Claims);
    CountAppend(f.log, e, TargetEvents);
    CountAppend(f.log + [e], e', Claims);
    CountAppend(f.log + [e], e', TargetEvents);
  }

  lemma StepKeeps(f: Fund, a: FundAction)
    requires FundOk(f)
    ensures FundOk(Step(f, a)) && Step(f, a).env.self == f.env.self
    ensures f.env.timestamp <= Step(f, a).env.timestamp
  {
    hide Deposit, Withdraw, Invoke;
    if Apply(f, a).Ok? {
      match a
      case DoInitialize(_, _, _) =>
      case DoDeposit(user, amount) => DepositKeeps(f, user, amount); DepositFrame(f, user, amount);
      case DoWithdraw(to) => WithdrawKeeps(f, to);
      case DoTokenCall(c) => ForeignCall(f.tok, f.env.sequence, c, f.env.self);
      case DoTick(_, _) =>
    }
  }

  lemma DepositFrame(f: Fund, user: Address, amount: i128)
    requires Deposit(f, user, amount).Ok?
    ensures Deposit(f, user, amount).value.env == f.env
  {
  }

  lemma WithdrawKeeps(f: Fund, to: Address)
    requires FundOk(f) && Withdraw(f, to).Ok?
    ensures FundOk(Withdraw(f, to).value) && Withdraw(f, to).value.env == f.env
  {
    if PhaseOf(f, f.campaign.value) == Success {
      ClaimKeeps(f, to);
    } else {
      RefundKeeps(f, to);
    }
  }

  lemma {:induction false} RunKeeps(f: Fund, acts: seq<FundAction>)
    requires FundOk(f)
    ensures FundOk(Run(f, acts)) && Run(f, acts).env.self == f.env.self
    decreases |acts|
  {
    hide FundOk, Step;
    if acts != [] {
      StepKeeps(f, acts[0]);
      RunKeeps(Step(f, acts[0]), acts[1..]);
    }
  }

  /** Over every run: deposits backed until the claim, one claim, one target event. */
  lemma Backed(f0: Fund, acts: seq<FundAction>)
    requires Initial(f0)
    ensures
      var f := Run(f0, acts);
      && Count(f.log, Claims) <= 1 && Count(f.log, TargetEvents) <= 1
      && (f.campaign.Some? && !f.campaign.value.recipientClaimed ==> MapSum(f.campaign.value.deposits) <= Holdings(f))
  {
    RunKeeps(f0, acts);
  }

  /** In every phase the `balance` view promises, summed over any users, no more than is held. */
  lemma ViewsBacked(f0: Fund, acts: seq<FundAction>, views: map<Address, int>)
    requires Initial(f0)
    requires forall u :: u in views ==> BalanceView(Run(f0, acts), u) == Ok(views[u])
    ensures MapSum(views) <= Holdings(Run(f0, acts))
  {
    hide Initial, Run;
    assert FundOk(f0) by { InitialOk(f0); }
    RunKeeps(f0, acts);
    var f := Run(f0, acts);
    if f.campaign.None? {
      forall u ensures u !in views {
      }
      assert views == map[];
    } else {
      var c := f.campaign.value;
      var promised: map<Address, int> :=
        if PhaseOf(f, c) == Success then map[c.recipient := Holdings(f)] else c.deposits;
      MapSumMonotone(views, promised);
      if PhaseOf(f, c) == Success {
        MapSumUpdate(map[], c.recipient, Holdings(f));
        assert promised == map[][c.recipient := Holdings(f)];
      }
    }
  }

  lemma InitialOk(f: Fund)
    requires Initial(f)
    ensures FundOk(f)
  {
  }

  // ---- Phases ----

  ghost predicate In(f: Fund, p: Phase)
  {
    f.campaign.Some? && PhaseOf(f, f.campaign.value) == p
  }

  lemma StepKeepsSuccess(f: Fund, a: FundAction)
    requires FundOk(f) && In(f, Success)
    ensures In(Step(f, a), Success)
  {
    hide Invoke;
    if Apply(f, a).Ok? {
      match a
      case DoTokenCall(c) => ForeignCall(f.tok, f.env.sequence, c, f.env.self);
      case _ =>
    }
  }

  /** Success is final, whatever anyone does, transfers into the contract included. */
  lemma {:induction false} SuccessIsFinal(f: Fund, acts: seq<FundAction>)
    requires FundOk(f) && In(f, Success)
    ensures In(Run(f, acts), Success)
    decreases |acts|
  {
    hide FundOk, In, Step;
    if acts != [] {
      StepKeeps(f, acts[0]);
      StepKeepsSuccess(f, acts[0]);
      SuccessIsFinal(Step(f, acts[0]), acts[1..]);
    }
  }

  /** Leaving Expired, before the call: a plain transfer into the contract that covers the shortfall
      leaves it, once the token accepts it, and nothing else does. */
  predicate CoversShortfall(f: Fund, a: FundAction)
    requires f.campaign.Some?
  {
    && a.DoTokenCall? && (a.call.Transfer? || a.call.TransferFrom?)
    && a.call.to == f.env.self && f.campaign.value.target - Holdings(f) <= a.call.amount
  }

  lemma StepFromExpired(f: Fund, a: FundAction)
    requires FundOk(f) && In(f, Expired)
    ensures !In(Step(f, a), Expired) <==> Apply(f, a).Ok? && CoversShortfall(f, a)
    ensures !In(Step(f, a), Expired) ==> In(Step(f, a), Success)
    ensures In(Step(f, a), Expired) <==> Holdings(Step(f, a)) < f.campaign.value.target
  {
    hide Invoke, Move, MapSum;
    if Apply(f, a).Ok? {
      match a
      case DoTokenCall(c) => CallFromExpired(f, c);
      case DoWithdraw(to) => MoveEffect(f.tok, f.env.self, to, Deposited(f.campaign.value, to));
      case _ =>
    }
  }

  /** What a token call signed by somebody else adds to the holdings. */
  lemma CallFromExpired(f: Fund, c: TokenCall)
    requires FundOk(f) && In(f, Expired) && Apply(f, DoTokenCall(c)).Ok?
    ensures
      var f' := Apply(f, DoTokenCall(c)).value;
      && f'.env == f.env && f'.campaign == f.campaign
      && (Holdings(f') >= f.campaign.value.target <==> CoversShortfall(f, DoTokenCall(c)))
  {
    hide MapSum, Supply;
    var t, self := f.tok, f.env.self;
    InvokeKeeps(t, f.env.sequence, c);
    ForeignCall(t, f.env.sequence, c, self);
    match c
    case Transfer(from, to, amount) => MoveEffect(t, from, to, amount);
    case TransferFrom(spender, from, to, amount) =>
      var k := AllowanceKey(from, spender);
      SpendGrantsNothing(t, f.env.sequence, k, amount, self);
      MoveEffect(SpendAllowance(t, f.env.sequence, k, amount).value, from, to, amount);
    case _ =>
  }

  /** Expired is final when only the crowdfund's entry points move its tokens. */
  lemma {:induction false} ExpiredIsFinalWithoutTransfers(f: Fund, acts: seq<FundAction>)
    requires FundOk(f) && In(f, Expired)
    requires forall a :: a in acts ==> !a.DoTokenCall?
    ensures In(Run(f, acts), Expired)
    decreases |acts|
  {
    hide FundOk, In, Step;
    if acts != [] {
      StepKeeps(f, acts[0]);
      StepFromExpired(f, acts[0]);
      ExpiredIsFinalWithoutTransfers(Step(f, acts[0]), acts[1..]);
    }
  }

  /** It is not final otherwise: whoever can afford the shortfall turns any expired campaign into a
      successful one by a plain transfer, after which no donor is ever refunded in any continuation. */
  lemma TopUpEndsRefunds(f: Fund, payer: Address, donor: Address, more: seq<FundAction>)
    requires FundOk(f) && In(f, Expired) && Supply(f.tok) <= I128_MAX
    requires payer != f.env.self && f.campaign.value.target - Holdings(f) <= Balance(f.tok, payer)
    requires donor != f.campaign.value.recipient
    ensures
      var shortfall := f.campaign.value.target - Holdings(f);
      var f' := Run(Step(f, DoTokenCall(TokenCall.Transfer(payer, f.env.self, shortfall))), more);
      In(f', Success) && Withdraw(f', donor).Err?
  {
    hide Run, FundOk;
    ShortfallPaid(f, payer);
    var shortfall := f.campaign.value.target - Holdings(f);
    var f1 := Step(f, DoTokenCall(TokenCall.Transfer(payer, f.env.self, shortfall)));
    StepKeeps(f, DoTokenCall(TokenCall.Transfer(payer, f.env.self, shortfall)));
    SuccessIsFinal(f1, more);
    SameRecipient(f1, more);
  }

  lemma ShortfallPaid(f: Fund, payer: Address)
    requires FundOk(f) && In(f, Expired) && Supply(f.tok) <= I128_MAX
    requires payer != f.env.self && f.campaign.value.target - Holdings(f) <= Balance(f.tok, payer)
    ensures
      var shortfall := f.campaign.value.target - Holdings(f);
      var f' := Step(f, DoTokenCall(TokenCall.Transfer(payer, f.env.self, shortfall)));
      In(f', Success) && f'.campaign == f.campaign
  {
    var shortfall := f.campaign.value.target - Holdings(f);
    AffordableMoveSucceeds(f.tok, payer, f.env.self, shortfall);
    MoveEffect(f.tok, payer, f.env.self, shortfall);
  }

  /** The recipient is fixed at initialization. */
  lemma {:induction false} SameRecipient(f: Fund, acts: seq<FundAction>)
    requires f.campaign.Some?
    ensures Run(f, acts).campaign.Some? && Run(f, acts).campaign.value.recipient == f.campaign.value.recipient
    decreases |acts|
  {
    hide Move, Invoke;
    if acts != [] {
      SameRecipient(Step(f, acts[0]), acts[1..]);
    }
  }

  // ---- Refunds ----

  /** Withdrawals by the given addresses in order, all of which must succeed. */
  function Withdrawals(f: Fund, us: seq<Address>): Result<Fund>
    decreases |us|
  {
    if us == [] then Ok(f)
    else
      var f' :- Withdraw(f, us[0]);
      Withdrawals(f', us[1..])
  }

  ghost predicate Refundable(f: Fund)
  {
    FundOk(f) && In(f, Expired) && Supply(f.tok) <= I128_MAX
  }

  ghost function Owed(f: Fund, u: Address): int
  {
    if f.campaign.Some? then Deposited(f.campaign.value, u) else 0
  }

  lemma OneRefund(f: Fund, u: Address)
    requires Refundable(f) && u != f.campaign.value.recipient
    ensures Withdraw(f, u).Ok?
    ensures
      var f' := Withdraw(f, u).value;
      && Refundable(f') && f'.env == f.env && f'.campaign.value.recipient == f.campaign.value.recipient
      && (forall v :: Owed(f', v) == if v == u then 0 else Owed(f, v))
      && (forall v :: v != f.env.self ==> Balance(f'.tok, v) == Balance(f.tok, v) + (if v == u then Owed(f, u) else 0))
  {
    var c := f.campaign.value;
    MapSumBounds(c.deposits, u, u);
    AffordableMoveSucceeds(f.tok, f.env.self, u, Deposited(c, u));
    MoveEffect(f.tok, f.env.self, u, Deposited(c, u));
    RefundKeeps(f, u);
    StepFromExpired(f, DoWithdraw(u));
  }

  /** In an expired campaign every refund can be paid, in any order and however often it is asked
      for: each donor ends up with exactly the recorded deposit, once. */
  lemma {:induction false} RefundsInAnyOrder(f: Fund, us: seq<Address>)
    requires Refundable(f) && f.campaign.value.recipient !in us
    ensures Withdrawals(f, us).Ok?
    ensures
      var f' := Withdrawals(f, us).value;
      && Refundable(f') && f'.env == f.env
      && (forall v :: Owed(f', v) == if v in us then 0 else Owed(f, v))
      && (forall v :: v != f.env.self ==> Balance(f'.tok, v) == Balance(f.tok, v) + (if v in us then Owed(f, v) else 0))
    decreases |us|
  {
    hide Refundable, Withdraw, Owed;
    if us != [] {
      RefundableHasCampaign(f);
      OneRefund(f, us[0]);
      RefundsInAnyOrder(Withdraw(f, us[0]).value, us[1..]);
    }
  }

  lemma RefundableHasCampaign(f: Fund)
    requires Refundable(f)
    ensures f.campaign.Some?
  {
  }

  /** The same for any expired state of any run. */
  lemma EveryRefundPayable(f0: Fund, acts: seq<FundAction>, us: seq<Address>)
    requires Initial(f0) && In(Run(f0, acts), Expired) && Supply(Run(f0, acts).tok) <= I128_MAX
    requires Run(f0, acts).campaign.value.recipient !in us
    ensures Withdrawals(Run(f0, acts), us).Ok?
    ensures
      var f, f' := Run(f0, acts), Withdrawals(Run(f0, acts), us).value;
      && In(f', Expired)
      && (forall v :: Owed(f', v) == if v in us then 0 else Owed(f, v))
      && (forall v :: v != f.env.self ==> Balance(f'.tok, v) == Balance(f.tok, v) + (if v in us then Owed(f, v) else 0))
  {
    hide Initial, Run, Withdrawals, Owed;
    InitialOk(f0);
    RunKeeps(f0, acts);
    RefundsInAnyOrder(Run(f0, acts), us);
  }

  // ---- Each donor's account ----

  /** What an event adds to the deposits of `u` less its refunds. */
  function Contribution(e: FundEvent, u: Address): int
  {
    match e
    case PaidIn(from, amount) => if from == u then amount else 0
    case PaidOut(to, amount, toRecipient) => if to == u && !toRecipient then 0 - amount as int else 0
    case _ => 0
  }

  function Contributions(log: seq<FundEvent>, u: Address): int
  {
    if log == [] then 0 else Contributions(log[..|log| - 1], u) + Contribution(log[|log| - 1], u)
  }

  lemma ContributionsAppend(log: seq<FundEvent>, e: FundEvent, u: Address)
    ensures Contributions(log + [e], u) == Contributions(log, u) + Contribution(e, u)
  {
    assert (log + [e])[..|log|] == log;
  }

  lemma DepositContributes(f: Fund, user: Address, amount: i128, u: Address)
    requires Deposit(f, user, amount).Ok? && Owed(f, u) == Contributions(f.log, u)
    ensures Owed(Deposit(f, user, amount).value, u) == Contributions(Deposit(f, user, amount).value.log, u)
  {
    hide Move, Contributions;
    var f', c := Deposit(f, user, amount).value, f.campaign.value;
    var first := f.log + [PaidIn(user, amount)];
    var mid := first + [PledgedAmountChanged(Holdings(f'))];
    var reached := TargetReached(Holdings(f'), c.target);
    assert f'.log == if Holdings(f) < c.target <= Holdings(f') then mid + [reached] else mid;
    ContributionsAppend(f.log, PaidIn(user, amount), u);
    ContributionsAppend(first, PledgedAmountChanged(Holdings(f')), u);
    ContributionsAppend(mid, reached, u);
  }

  lemma WithdrawContributes(f: Fund, to: Address, u: Address)
    requires Withdraw(f, to).Ok? && Owed(f, u) == Contributions(f.log, u)
    ensures Owed(Withdraw(f, to).value, u) == Contributions(Withdraw(f, to).value.log, u)
  {
    hide Move, Contributions;
    var f', c := Withdraw(f, to).value, f.campaign.value;
    var paid := f'.log[|f.log|];
    var first := f.log + [paid];
    var left := PledgedAmountChanged(Holdings(f'));
    assert f'.log == if PhaseOf(f, c) == Success then first else first + [left];
    ContributionsAppend(f.log, paid, u);
    ContributionsAppend(first, left, u);
  }

  lemma StepContributes(f: Fund, a: FundAction, u: Address)
    requires FundOk(f) && Owed(f, u) == Contributions(f.log, u)
    ensures Owed(Step(f, a), u) == Contributions(Step(f, a).log, u)
  {
    hide Deposit, Withdraw, Invoke;
    if Apply(f, a).Ok? {
      match a
      case DoDeposit(user, amount) => DepositContributes(f, user, amount, u);
      case DoWithdraw(to) => WithdrawContributes(f, to, u);
      case _ =>
    }
  }

  /** In every run, whatever a donor ever deposited is what was refunded to the donor plus what is still
      recorded: no deposit is refunded twice or lost from the records. */
  lemma DonorAccount(f0: Fund, acts: seq<FundAction>, u: Address)
    requires Initial(f0)
    ensures Contributions(Run(f0, acts).log, u) == Owed(Run(f0, acts), u)
  {
    RunContributes(f0, acts, u);
  }

  lemma {:induction false} RunContributes(f: Fund, acts: seq<FundAction>, u: Address)
    requires FundOk(f) && Owed(f, u) == Contributions(f.log, u)
    ensures Owed(Run(f, acts), u) == Contributions(Run(f, acts).log, u)
    decreases |acts|
  {
    hide FundOk, Step, Owed, Contributions;
    if acts != [] {
      StepKeeps(f, acts[0]);
      StepContributes(f, acts[0], u);
      RunContributes(Step(f, acts[0]), acts[1..], u);
    }
  }
}
