/** The events of the history are the token transfers: what a call publishes is what it moved. */
module Payments {
  import opened Base
  import opened AbundanceToken
  import opened AbundanceProofs
  import opened TrustFlow
  import opened EscrowInvariants
  import opened Solvency
  import opened Runs
  import opened Guarantees

  /** The change of the balance of `x` by one transfer. */
  function Moved(from: Address, to: Address, amount: int, x: Address): int
  {
    (if x == to then amount else 0) - (if x == from then amount else 0)
  }

  /** The change of the balance of `x` that an event reports. */
  function Flow(e: Event, self: Address, x: Address): int
  {
    match e
    case Staked(juror, amount, _) => Moved(juror, self, amount, x)
    case Unstaked(juror, amount, _) => Moved(self, juror, amount, x)
    case EscrowInitialized(_, depositor, _, amount) => Moved(depositor, self, amount, x)
    case TrancheReleased(_, _, _, fee, payout, _, _, beneficiary, treasury) =>
      Moved(self, beneficiary, payout, x) + Moved(self, treasury, fee, x)
    case DisputePaid(_, _, recipient, paid, _) => Moved(self, recipient, paid, x)
    case _ => 0
  }

  function Flows(log: seq<Event>, self: Address, x: Address): int
  {
    if log == [] then 0 else Flows(log[..|log| - 1], self, x) + Flow(log[|log| - 1], self, x)
  }

  lemma FlowsAppend(log: seq<Event>, e: Event, self: Address, x: Address)
    ensures Flows(log + [e], self, x) == Flows(log, self, x) + Flow(e, self, x)
  {
    assert (log + [e])[..|log|] == log;
  }

  /** The one transfer that no event reports: `create_escrow` publishes nothing. */
  function Silent(a: Action, self: Address, x: Address): int
  {
    if a.DoCreateEscrow? then Moved(a.depositor, self, a.amount, x) else 0
  }

  ghost predicate Balanced(w: World, w': World, a: Action, x: Address)
  {
    Balance(w'.tok, x) - Balance(w.tok, x)
    == Flows(w'.log, w.env.self, x) - Flows(w.log, w.env.self, x) + Silent(a, w.env.self, x)
  }

  lemma StakeBalanced(w: World, a: Action, x: Address)
    requires TokenInv(w.tok) && (a.DoStake? || a.DoUnstake?) && Apply(w, a).Ok?
    ensures Balanced(w, Step(w, a), a, x)
  {
    hide Move, Flows;
    var w' := Step(w, a);
    if a.DoStake? {
      MoveEffect(w.tok, a.juror, w.env.self, a.amount);
    } else {
      MoveEffect(w.tok, w.env.self, a.juror, a.amount);
    }
    FlowsAppend(w.log, w'.log[|w.log|], w.env.self, x);
  }

  lemma OpenBalanced(w: World, a: Action, x: Address)
    requires TokenInv(w.tok) && (a.DoCreateEscrow? || a.DoInitEscrow?) && Apply(w, a).Ok?
    ensures Balanced(w, Step(w, a), a, x)
  {
    hide Move, Flows, MilestoneTotal;
    var w' := Step(w, a);
    if a.DoCreateEscrow? {
      MoveEffect(w.tok, a.depositor, w.env.self, a.amount);
    } else {
      MoveEffect(w.tok, a.depositor, w.env.self, MilestoneTotal(a.milestones).value);
      FlowsAppend(w.log, w'.log[|w.log|], w.env.self, x);
    }
  }

  /** A payment out, the skipped zero payment included. */
  lemma PaymentMoves(t: TokenState, self: Address, to: Address, amount: i128, x: Address)
    requires TokenInv(t) && TryTransfer(t, self, to, amount).Ok?
    ensures
      var t' := TryTransfer(t, self, to, amount).value;
      TokenInv(t') && Balance(t', x) == Balance(t, x) + Moved(self, to, amount, x)
  {
    MoveEffect(t, self, to, amount);
  }

  lemma ReleaseBalanced(w: World, a: Action, x: Address)
    requires TokenInv(w.tok) && a.DoRelease? && Apply(w, a).Ok?
    ensures Balanced(w, Step(w, a), a, x)
  {
    hide Release, PriceTranche, TryTransfer, BookTranche, Flows;
    var t := ReleaseDid(w, a.id, a.index, a.gross, a.caller);
    var beneficiary, treasury := w.tf.escrows[a.id].beneficiary, w.tf.feeConfigs[a.id].treasury;
    var paid := TryTransfer(w.tok, w.env.self, beneficiary, t.payout).value;
    PaymentMoves(w.tok, w.env.self, beneficiary, t.payout, x);
    PaymentMoves(paid, w.env.self, treasury, t.fee, x);
    FlowsAppend(w.log, Step(w, a).log[|w.log|], w.env.self, x);
  }

  /** Slashing moves no token. */
  lemma {:induction false} SlashingFlows(b: Bench, votes: map<VoteKey, bool>, id: u64, voters: seq<Address>,
                                         ruling: bool, bps: u32, self: Address, x: Address)
    requires SlashLosers(b, votes, id, voters, ruling, bps).Ok?
    ensures Flows(SlashLosers(b, votes, id, voters, ruling, bps).value.log, self, x) == Flows(b.log, self, x)
    decreases |voters|
  {
    hide Flows;
    if voters != [] {
      var last := |voters| - 1;
      SlashingFlows(b, votes, id, voters[..last], ruling, bps, self, x);
      var mid := SlashLosers(b, votes, id, voters[..last], ruling, bps).value;
      if VoteOf(votes, id, voters[last]) != ruling {
        var after := SlashJuror(mid, id, voters[last], bps).value;
        FlowsAppend(mid.log, after.log[|mid.log|], self, x);
      }
    }
  }

  lemma ResolveBalanced(w: World, a: Action, x: Address)
    requires FundsOk(w) && a.DoResolveDispute? && Apply(w, a).Ok?
    ensures Balanced(w, Step(w, a), a, x)
  {
    hide ResolveDispute, ReadyToResolve, SlashLosers, Ruling, Move, Flows, EscrowsOk;
    var b, remaining := ResolveDid(w, a.id);
    SlashesAllowed(w, a.id);
    SlashingFlows(BenchOf(w), w.tf.votes, a.id, VotersOf(w.tf, a.id), Ruling(w.tf, a.id), w.tf.slashBps, w.env.self, x);
    FlowsAppend(b.log, Step(w, a).log[|b.log|], w.env.self, x);
    var e := w.tf.escrows[a.id];
    MoveEffect(w.tok, w.env.self, if Ruling(w.tf, a.id) then e.depositor else e.beneficiary, remaining);
  }

  lemma VotingBalanced(w: World, a: Action, x: Address)
    requires (a.DoRaiseDispute? || a.DoCommitVote? || a.DoRevealVote?) && Apply(w, a).Ok?
    ensures Balanced(w, Step(w, a), a, x)
  {
    hide Flows, HashVote;
    var w' := Step(w, a);
    if !a.DoRaiseDispute? {
      FlowsAppend(w.log, w'.log[|w.log|], w.env.self, x);
    }
  }

  /** Every successful call on the contract, in any run, changes the balance of every address by
      exactly what the events it adds report, and an escrow created without milestones by its amount. */
  lemma EventsAreTransfers(w0: World, acts: seq<Action>, a: Action, x: Address)
    requires Initial(w0) && !a.DoToken? && Apply(Run(w0, acts), a).Ok?
    ensures Balanced(Run(w0, acts), Step(Run(w0, acts), a), a, x)
  {
    hide Initial, Run, WorldOk, Balanced;
    var w := Reached(w0, acts);
    assert FundsOk(w) by { WorldFunds(w); }
    hide FundsOk, TokenInv;
    assert TokenInv(w.tok) by { FundsToken(w); }
    hide Stake, Unstake, CreateEscrow, InitEscrow, Release, ResolveDispute, RaiseDispute, CommitVote, RevealVote;
    if a.DoStake? || a.DoUnstake? {
      StakeBalanced(w, a, x);
    } else if a.DoCreateEscrow? || a.DoInitEscrow? {
      OpenBalanced(w, a, x);
    } else if a.DoRelease? {
      ReleaseBalanced(w, a, x);
    } else if a.DoResolveDispute? {
      ResolveBalanced(w, a, x);
    } else if a.DoRaiseDispute? || a.DoCommitVote? || a.DoRevealVote? {
      VotingBalanced(w, a, x);
    } else {
      AdminBalanced(w, a, x);
    }
  }

  lemma AdminBalanced(w: World, a: Action, x: Address)
    requires Apply(w, a).Ok?
    requires a.DoSetFeeBps? || a.DoSetTreasury? || a.DoSetPauser? || a.DoPause? || a.DoUnpause? || a.DoAdvance?
    ensures Balanced(w, Step(w, a), a, x)
  {
    hide Flows;
  }

  lemma WorldFunds(w: World)
    requires WorldOk(w)
    ensures FundsOk(w)
  {
  }

  lemma FundsToken(w: World)
    requires FundsOk(w)
    ensures TokenInv(w.tok)
  {
  }
}
