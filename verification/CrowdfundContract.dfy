/** The crowdfund contract as an object over a token object. */
module CrowdfundContract {
  import opened Base
  import opened AbundanceToken
  import Spec = Crowdfund
  import opened CrowdfundTypes = Crowdfund

  /** The result and the new state are those of `spec`; on failure nothing changed. */
  ghost predicate RefinesFund(spec: Result<Fund>, r: Result<()>, before: Fund, after: Fund)
  {
    match spec
    case Ok(f) => r.Ok? && after == f
    case Err(e) => r == Err(e) && after == before
  }

  class Contract {
    const token: Token
    var initialized: bool
    var recipient: Address
    var recipientClaimed: bool
    var started: u64
    var deadline: u64
    var target: i128
    var deposits: map<Address, i128>
    var log: seq<FundEvent>

    constructor (token: Token, anyone: Address)
      ensures this.token == token && !initialized && log == []
    {
      this.token := token;
      initialized, recipient, recipientClaimed := false, anyone, false;
      started, deadline, target, deposits, log := 0, 0, 0, map[], [];
    }

    function Snapshot(env: FundEnv): Fund
      reads this, token
    {
      Fund(env, token.State(),
           if initialized
           then Some(Campaign(recipient, recipientClaimed, started, deadline, target, deposits))
           else None,
           log)
    }

    method Initialize(env: FundEnv, newRecipient: Address, newDeadline: u64, newTarget: i128) returns (r: Result<()>)
      modifies this
      ensures RefinesFund(Spec.Initialize(old(Snapshot(env)), newRecipient, newDeadline, newTarget),
                          r, old(Snapshot(env)), Snapshot(env))
    {
      if initialized {
        return Err(Trap);
      }
      initialized := true;
      recipient := newRecipient;
      recipientClaimed := false;
      started := env.timestamp;
      deadline := newDeadline;
      target := newTarget;
      deposits := map[];
      return Ok(());
    }

    method TargetIsReached(env: FundEnv) returns (reached: bool)
      ensures reached <==> Holdings(Snapshot(env)) >= target
    {
      var balance := token.ReadBalance(env.self);
      reached := balance >= target;
    }

    method GetState(env: FundEnv) returns (phase: Phase)
      requires initialized
      ensures phase == PhaseOf(Snapshot(env), Snapshot(env).campaign.value)
    {
      if env.timestamp < deadline {
        return Running;
      }
      var reached := TargetIsReached(env);
      if recipientClaimed || reached {
        return Success;
      }
      return Expired;
    }

    method BalanceOf(env: FundEnv, user: Address) returns (r: Result<i128>)
      ensures r == BalanceView(Snapshot(env), user)
    {
      if !initialized {
        return Err(Trap);
      }
      var phase := GetState(env);
      if phase == Success {
        if user != recipient {
          return Ok(0);
        }
        var balance := token.ReadBalance(env.self);
        return Ok(balance);
      }
      return Ok(GetOr(deposits, user, 0));
    }

    /** The deposit is recorded before the tokens move; a failed transfer undoes it. */
    method Deposit(env: FundEnv, user: Address, amount: i128) returns (r: Result<()>)
      modifies this, token
      ensures RefinesFund(Spec.Deposit(old(Snapshot(env)), user, amount), r, old(Snapshot(env)), Snapshot(env))
    {
      var saved := deposits;
      if user == env.self || amount <= 0 || !initialized {
        return Err(Trap);
      }
      var phase := GetState(env);
      if phase != Running {
        return Err(Trap);
      }
      var metBefore := TargetIsReached(env);
      if user == recipient {
        return Err(Trap);
      }
      var total := CheckedAdd(GetOr(deposits, user, 0), amount);
      if total.None? {
        return Err(Trap);
      }
      deposits := deposits[user := total.value];
      r := token.Transfer(user, env.self, amount);
      if r.Err? {
        deposits := saved;
        return;
      }
      var balance := token.ReadBalance(env.self);
      log := log + [PaidIn(user, amount), PledgedAmountChanged(balance)];
      var metAfter := TargetIsReached(env);
      if !metBefore && metAfter {
        log := log + [TargetReached(balance, target)];
      }
    }

    method Withdraw(env: FundEnv, to: Address) returns (r: Result<()>)
      modifies this, token
      ensures RefinesFund(Spec.Withdraw(old(Snapshot(env)), to), r, old(Snapshot(env)), Snapshot(env))
    {
      if !initialized {
        return Err(Trap);
      }
      var phase := GetState(env);
      match phase
      case Running =>
        return Err(Trap);
      case Success =>
        if to != recipient || recipientClaimed {
          return Err(Trap);
        }
        var balance := token.ReadBalance(env.self);
        r := token.Transfer(env.self, recipient, balance);
        if r.Err? {
          return;
        }
        recipientClaimed := true;
        log := log + [PaidOut(recipient, balance, true)];
      case Expired =>
        if to == recipient {
          return Err(Trap);
        }
        var saved := deposits;
        var amount := GetOr(deposits, to, 0);
        deposits := deposits[to := 0];
        r := token.Transfer(env.self, to, amount);
        if r.Err? {
          deposits := saved;
          return;
        }
        var left := token.ReadBalance(env.self);
        log := log + [PaidOut(to, amount, false), PledgedAmountChanged(left)];
    }
  }
}
