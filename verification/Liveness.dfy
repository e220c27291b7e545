/** Payouts never get stuck on funds: in every reachable world, exactly which withdrawals, releases
    and resolutions succeed. */
module Liveness {
  import opened Base
  import opened Sums
  import opened FeeMath
  import opened AbundanceToken
  import opened AbundanceProofs
  import opened TrustFlow
  import opened EscrowInvariants
  import opened Solvency
  import opened Conservation
  import opened Ballots
  import opened History
  import opened Runs

  /** A reachable, unpaused world whose token supply is an i128. */
  ghost predicate Operating(w: World)
  {
    WorldOk(w) && !w.tf.paused && Supply(w.tok) <= I128_MAX
  }

  lemma LockedCovered(w: World, id: u64)
    requires WorldOk(w) && id in w.tf.escrows && w.tf.escrows[id].status != Settled
    ensures w.tf.escrows[id].amount - EscrowReleasedOf(w.tf, id) <= Balance(w.tok, w.env.self)
    ensures 0 <= EscrowReleasedOf(w.tf, id) < w.tf.escrows[id].amount
    ensures TokenInv(w.tok)
  {
    hide AccountsOk, BallotsOk, HistoryOk;
    LockedNonNegative(w.env.sequence, w.tf);
    MapSumBounds(LockedMap(w.tf), id, id);
    MapSumNonNegative(w.tf.stakes);
    SlashedNonNegative(w);
    assert ViewOk(w.env.sequence, ViewOf(w.tf, id));
  }

  lemma LockedNonNegative(now: u32, tf: Store)
    requires EscrowsOk(now, tf)
    ensures forall id :: id in LockedMap(tf) ==> LockedMap(tf)[id] >= 0
  {
    forall id | id in tf.escrows ensures Locked(tf.escrows[id], EscrowReleasedOf(tf, id)) >= 0 {
      assert ViewOk(now, ViewOf(tf, id));
    }
  }

  lemma SlashedNonNegative(w: World)
    requires WorldOk(w)
    ensures Total(w.log, SlashedStake) >= 0
  {
    hide FundsOk, AccountsOk, BallotsOk, Margin;
    PrefixTotal(w, 0);
  }

  lemma StakeCovered(w: World, juror: Address)
    requires WorldOk(w)
    ensures 0 <= StakeOf(w.tf, juror) <= Balance(w.tok, w.env.self)
    ensures TokenInv(w.tok)
  {
    hide AccountsOk, BallotsOk, HistoryOk;
    LockedNonNegative(w.env.sequence, w.tf);
    hide EscrowsOk;
    MapSumNonNegative(LockedMap(w.tf));
    MapSumBounds(w.tf.stakes, juror, juror);
    MapSumNonNegative(w.tf.stakes);
    SlashedNonNegative(w);
  }

  /** A juror can withdraw exactly the amounts from 0 to the recorded stake. */
  lemma UnstakeExact(w: World, juror: Address, amount: i128)
    requires Operating(w) && juror != w.env.self
    ensures Unstake(w, juror, amount).Ok? <==> 0 <= amount <= StakeOf(w.tf, juror)
  {
    hide WorldOk;
    StakeCovered(w, juror);
    MoveEffect(w.tok, w.env.self, juror, amount);
    if 0 <= amount <= StakeOf(w.tf, juror) {
      AffordableMoveSucceeds(w.tok, w.env.self, juror, amount);
    }
  }

  /** The conditions a depositor can check before releasing a tranche. */
  ghost predicate Releasable(w: World, id: u64, index: u32, gross: i128, caller: Address)
  {
    && caller != w.env.self && gross > 0
    && id in w.tf.escrows
    && var e := w.tf.escrows[id];
    && caller == e.depositor && e.status == Active && index < |e.milestones|
    && e.milestones[index].releaseTime <= w.env.sequence
    && MilestoneReleasedOf(w.tf, id, index) + gross <= e.milestones[index].amount
  }

  /** A release succeeds exactly when those hold: no counter, fee, record or transfer stops it. */
  lemma ReleaseExact(w: World, id: u64, index: u32, gross: i128, caller: Address)
    requires Operating(w)
    ensures Release(w, id, index, gross, caller).Ok? <==> Releasable(w, id, index, gross, caller)
  {
    hide Operating, PriceTranche, TryTransfer, BookTranche;
    if Releasable(w, id, index, gross, caller) {
      ReleasableIsPriced(w, id, index, gross, caller);
      PaymentsSucceed(w, id, PriceTranche(w, id, index, gross, caller).value);
    } else if Release(w, id, index, gross, caller).Ok? {
      PriceTrancheChecks(w, id, index, gross, caller);
    }
  }

  lemma ReleasableIsPriced(w: World, id: u64, index: u32, gross: i128, caller: Address)
    requires Operating(w) && Releasable(w, id, index, gross, caller)
    ensures PriceTranche(w, id, index, gross, caller).Ok?
    ensures
      var t := PriceTranche(w, id, index, gross, caller).value;
      && 0 <= t.fee && 0 <= t.payout
      && t.fee + t.payout <= w.tf.escrows[id].amount - EscrowReleasedOf(w.tf, id)
  {
    hide CumulativeFee, FloorFee, WorldOk;
    ReleasableFits(w, id, index, gross, caller);
    FeeDifference(EscrowReleasedOf(w.tf, id), gross, w.tf.feeConfigs[id].feeBps);
  }

  lemma ReleasableFits(w: World, id: u64, index: u32, gross: i128, caller: Address)
    requires Operating(w) && Releasable(w, id, index, gross, caller)
    ensures id in w.tf.feeConfigs && w.tf.feeConfigs[id].feeBps <= MAX_FEE_BPS
    ensures 0 <= EscrowReleasedOf(w.tf, id) && EscrowReleasedOf(w.tf, id) + gross <= w.tf.escrows[id].amount
  {
    hide AccountsOk, BallotsOk, HistoryOk, Margin;
    var v := ViewOf(w.tf, id);
    assert ViewOk(w.env.sequence, v);
    hide EscrowsOk;
    assert v.perMilestone[index] == MilestoneReleasedOf(w.tf, id, index);
    TrancheFits(w.env.sequence, v, index, gross);
  }

  lemma PaymentsSucceed(w: World, id: u64, t: Tranche)
    requires Operating(w) && id in w.tf.escrows && id in w.tf.feeConfigs && w.tf.escrows[id].status != Settled
    requires 0 <= t.fee && 0 <= t.payout
    requires t.fee + t.payout <= w.tf.escrows[id].amount - EscrowReleasedOf(w.tf, id)
    ensures
      var paid := TryTransfer(w.tok, w.env.self, w.tf.escrows[id].beneficiary, t.payout);
      paid.Ok? && TryTransfer(paid.value, w.env.self, w.tf.feeConfigs[id].treasury, t.fee).Ok?
  {
    hide WorldOk;
    LockedCovered(w, id);
    var beneficiary, treasury := w.tf.escrows[id].beneficiary, w.tf.feeConfigs[id].treasury;
    AffordableMoveSucceeds(w.tok, w.env.self, beneficiary, t.payout);
    PayEffect(w.tok, w.env.self, beneficiary, t.payout);
    var paid := TryTransfer(w.tok, w.env.self, beneficiary, t.payout).value;
    AffordableMoveSucceeds(paid, w.env.self, treasury, t.fee);
  }

  /** A resolution succeeds exactly when the dispute is open, its reveal window has closed, somebody
      voted, and no losing voter's slash counter is at its maximum. */
  lemma ResolveExact(w: World, id: u64)
    requires Operating(w)
    ensures ResolveDispute(w, id).Ok? <==>
              && id in w.tf.disputes && !w.tf.disputes[id].resolved
              && w.tf.disputes[id].revealDeadline <= w.env.sequence
              && VotersOf(w.tf, id) != []
              && forall j :: Loses(w.tf.votes, id, VotersOf(w.tf, id), Ruling(w.tf, id), j) ==>
                   GetOr(w.tf.slashCounts, j, 0) < U32_MAX
  {
    hide SlashLosers, Ruling, Move, Loses, WorldOk;
    if ReadyToResolve(w, id).Ok? {
      OpenDisputeFacts(w, id);
      SlashLosersSucceeds(BenchOf(w), w.tf.votes, id, VotersOf(w.tf, id), Ruling(w.tf, id), w.tf.slashBps);
      hide ReadyToResolve;
      var e := w.tf.escrows[id];
      var remaining := e.amount - EscrowReleasedOf(w.tf, id);
      LockedCovered(w, id);
      AffordableMoveSucceeds(w.tok, w.env.self, if Ruling(w.tf, id) then e.depositor else e.beneficiary, remaining);
    }
  }

  lemma OpenDisputeFacts(w: World, id: u64)
    requires WorldOk(w) && id in w.tf.disputes && !w.tf.disputes[id].resolved
    ensures NoDup(VotersOf(w.tf, id)) && StakesOk(w.tf.stakes) && w.tf.slashBps <= 10_000
    ensures id in w.tf.escrows && w.tf.escrows[id].status == Disputed
  {
    hide AccountsOk, HistoryOk, Margin, EscrowsOk, PhasesOk;
    ResolvePreconditions(w, id);
  }
}
