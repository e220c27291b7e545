/** The crowdfund contract over the abundance ledger, as functions from state to state. Its phase is
    derived from the clock, its token balance and one flag. */
module Crowdfund {
  import opened Base
  import opened AbundanceToken

  datatype Phase = Running | Success | Expired

  datatype Campaign = Campaign(
    recipient: Address,
    recipientClaimed: bool,
    started: u64,
    deadline: u64,
    target: i128,
    deposits: map<Address, i128>)

  /** The published events; `PaidIn` and `PaidOut` are recorded for each transfer a deposit or a
      withdrawal makes. */
  datatype FundEvent =
    | PaidIn(from: Address, amount: i128)
    | PledgedAmountChanged(total: i128)
    | TargetReached(pledged: i128, target: i128)
    | PaidOut(to: Address, amount: i128, toRecipient: bool)

  datatype FundEnv = FundEnv(self: Address, sequence: u32, timestamp: u64)

  datatype Fund = Fund(env: FundEnv, tok: TokenState, campaign: Option<Campaign>, log: seq<FundEvent>)

  function Initialize(f: Fund, recipient: Address, deadline: u64, target: i128): Result<Fund>
  {
    if f.campaign.Some? then Err(Trap)
    else Ok(f.(campaign := Some(Campaign(recipient, false, f.env.timestamp, deadline, target, map[]))))
  }

  function Holdings(f: Fund): i128
  {
    Balance(f.tok, f.env.self)
  }

  function PhaseOf(f: Fund, c: Campaign): Phase
  {
    if f.env.timestamp < c.deadline then Running
    else if c.recipientClaimed || Holdings(f) >= c.target then Success
    else Expired
  }

  function Deposited(c: Campaign, user: Address): i128
  {
    GetOr(c.deposits, user, 0)
  }

  /** The `balance` view. */
  function BalanceView(f: Fund, user: Address): Result<i128>
  {
    var c :- f.campaign.OkOr(Trap);
    Ok(if PhaseOf(f, c) == Success then (if user == c.recipient then Holdings(f) else 0) else Deposited(c, user))
  }

  function Deposit(f: Fund, user: Address, amount: i128): Result<Fund>
  {
    var c :- f.campaign.OkOr(Trap);
    :- Need(user != f.env.self && amount > 0, Trap);
    :- Need(PhaseOf(f, c) == Running, Trap);
    :- Need(user != c.recipient, Trap);
    var total :- CheckedAdd(Deposited(c, user), amount).OkOr(Trap);
    var tok :- Move(f.tok, user, f.env.self, amount);
    var f' := f.(tok := tok, campaign := Some(c.(deposits := c.deposits[user := total])));
    var crossed := Holdings(f) < c.target <= Holdings(f');
    Ok(f'.(log := f.log + [PaidIn(user, amount), PledgedAmountChanged(Holdings(f'))]
                  + (if crossed then [TargetReached(Holdings(f'), c.target)] else [])))
  }

  function Withdraw(f: Fund, to: Address): Result<Fund>
  {
    var c :- f.campaign.OkOr(Trap);
    match PhaseOf(f, c)
    case Running => Err(Trap)
    case Success =>
      :- Need(to == c.recipient && !c.recipientClaimed, Trap);
      var tok :- Move(f.tok, f.env.self, c.recipient, Holdings(f));
      Ok(f.(tok := tok, campaign := Some(c.(recipientClaimed := true)),
            log := f.log + [PaidOut(c.recipient, Holdings(f), true)]))
    case Expired =>
      :- Need(to != c.recipient, Trap);
      var amount := Deposited(c, to);
      var tok :- Move(f.tok, f.env.self, to, amount);
      var f' := f.(tok := tok, campaign := Some(c.(deposits := c.deposits[to := 0])));
      Ok(f'.(log := f.log + [PaidOut(to, amount, false), PledgedAmountChanged(Holdings(f'))]))
  }

  datatype FundAction =
    | DoInitialize(recipient: Address, deadline: u64, target: i128)
    | DoDeposit(user: Address, amount: i128)
    | DoWithdraw(to: Address)
    | DoTokenCall(call: TokenCall)
    | DoTick(sequence: u32, timestamp: u64)

  function Apply(f: Fund, a: FundAction): Result<Fund>
  {
    match a
    case DoInitialize(recipient, deadline, target) => Initialize(f, recipient, deadline, target)
    case DoDeposit(user, amount) => Deposit(f, user, amount)
    case DoWithdraw(to) => Withdraw(f, to)
    case DoTokenCall(c) =>
      :- Need(c.Signer() != f.env.self, Trap);
      var tok :- Invoke(f.tok, f.env.sequence, c);
      Ok(f.(tok := tok))
    case DoTick(s, t) =>
      :- Need(f.env.sequence <= s && f.env.timestamp <= t, Trap);
      Ok(f.(env := f.env.(sequence := s, timestamp := t)))
  }

  function Step(f: Fund, a: FundAction): Fund
  {
    if Apply(f, a).Ok? then Apply(f, a).value else f
  }

  function Run(f: Fund, acts: seq<FundAction>): Fund
    decreases |acts|
  {
    if acts == [] then f else Run(Step(f, acts[0]), acts[1..])
  }
}
