/** Solvency: over every run the contract's token balance covers every stake and every locked
    amount, and what was ever slashed on top. */
module Solvency {
  import opened Base
  import opened Sums
  import opened FeeMath
  import opened AbundanceToken
  import opened AbundanceProofs
  import opened TrustFlow
  import opened EscrowInvariants

  // ---- Totals over the history ----

  datatype Quantity = Fees(id: u64) | Payouts(id: u64) | DisputePayouts(id: u64) | SlashedStake

  function Amount(q: Quantity, e: Event): int
  {
    match (q, e)
    case (Fees(id), TrancheReleased(id', _, _, fee, _, _, _, _, _)) => if id' == id then fee else 0
    case (Payouts(id), TrancheReleased(id', _, _, _, payout, _, _, _, _)) => if id' == id then payout else 0
    case (DisputePayouts(id), DisputePaid(id', _, _, paid, _)) => if id' == id then paid else 0
    case (SlashedStake, JurorSlashed(_, _, slash, _, _)) => slash
    case _ => 0
  }

  function Total(log: seq<Event>, q: Quantity): int
  {
    if log == [] then 0 else Total(log[..|log| - 1], q) + Amount(q, log[|log| - 1])
  }

  lemma TotalAppend(log: seq<Event>, e: Event, q: Quantity)
    ensures Total(log + [e], q) == Total(log, q) + Amount(q, e)
  {
    assert (log + [e])[..|log|] == log;
  }

  // ---- What the contract owes ----

  ghost function Locked(e: EscrowRecord, released: int): int
  {
    if e.status == Settled then 0 else e.amount - released
  }

  ghost function LockedMap(tf: Store): map<u64, int>
  {
    map id | id in tf.escrows :: Locked(tf.escrows[id], EscrowReleasedOf(tf, id))
  }

  ghost function TotalStake(tf: Store): int { MapSum(tf.stakes) }

  ghost function TotalLocked(tf: Store): int { MapSum(LockedMap(tf)) }

  /** Holdings above all that is owed. */
  ghost function Surplus(w: World): int
  {
    Balance(w.tok, w.env.self) - TotalStake(w.tf) - TotalLocked(w.tf)
  }

  /** The surplus not explained by slashing. */
  ghost function Margin(w: World): int
  {
    Surplus(w) - Total(w.log, SlashedStake)
  }

  ghost predicate StakesOk(stakes: map<Address, i128>)
  {
    forall j :: j in stakes ==> stakes[j] >= 0
  }

  ghost predicate FundsOk(w: World)
  {
    && EscrowsOk(w.env.sequence, w.tf)
    && StakesOk(w.tf.stakes)
    && TokenInv(w.tok)
    && GrantsNothing(w.tok, w.env.self)
  }

  /** Rewriting one escrow changes the locked total by that escrow's change. */
  lemma LockedUpdate(tf: Store, tf': Store, id: u64)
    requires id in tf'.escrows && tf'.escrows.Keys == tf.escrows.Keys + {id}
    requires forall k :: k in tf.escrows && k != id ==>
               Locked(tf'.escrows[k], EscrowReleasedOf(tf', k)) == Locked(tf.escrows[k], EscrowReleasedOf(tf, k))
    ensures TotalLocked(tf') == TotalLocked(tf)
                                + Locked(tf'.escrows[id], EscrowReleasedOf(tf', id))
                                - (if id in tf.escrows then Locked(tf.escrows[id], EscrowReleasedOf(tf, id)) else 0)
  {
    hide MapSum;
    var v := Locked(tf'.escrows[id], EscrowReleasedOf(tf', id));
    MapSumUpdate(LockedMap(tf), id, v);
    assert LockedMap(tf') == LockedMap(tf)[id := v];
  }

  // ---- The steps that move funds ----

  lemma StakeMargin(w: World, juror: Address, amount: i128)
    requires FundsOk(w) && Stake(w, juror, amount).Ok?
    ensures
      var w' := Stake(w, juror, amount).value;
      && TokenInv(w'.tok) && w'.tok.allowances == w.tok.allowances && StakesOk(w'.tf.stakes)
      && Margin(w') == Margin(w)
  {
    hide EscrowsOk, Move, TotalLocked, Total;
    var w' := Stake(w, juror, amount).value;
    MoveEffect(w.tok, juror, w.env.self, amount);
    MapSumUpdate(w.tf.stakes, juror, StakeOf(w.tf, juror) + amount);
    TotalAppend(w.log, Staked(juror, amount, w'.tf.stakes[juror]), SlashedStake);
    SameLocked(w.tf, w'.tf);
  }

  lemma UnstakeMargin(w: World, juror: Address, amount: i128)
    requires FundsOk(w) && Unstake(w, juror, amount).Ok?
    ensures
      var w' := Unstake(w, juror, amount).value;
      && TokenInv(w'.tok) && w'.tok.allowances == w.tok.allowances && StakesOk(w'.tf.stakes)
      && Margin(w') == Margin(w)
  {
    hide EscrowsOk, Move, TotalLocked, Total;
    var w' := Unstake(w, juror, amount).value;
    MoveEffect(w.tok, w.env.self, juror, amount);
    MapSumUpdate(w.tf.stakes, juror, StakeOf(w.tf, juror) - amount);
    TotalAppend(w.log, Unstaked(juror, amount, w'.tf.stakes[juror]), SlashedStake);
    SameLocked(w.tf, w'.tf);
  }

  lemma OpenMargin(w: World, depositor: Address, beneficiary: Address, amount: i128, ms: Vec<Milestone>)
    requires FundsOk(w) && OpenEscrow(w, depositor, beneficiary, amount, ms).Ok? && depositor != w.env.self
    ensures
      var w' := OpenEscrow(w, depositor, beneficiary, amount, ms).value;
      && TokenInv(w'.tok) && w'.tok.allowances == w.tok.allowances && w'.tf.stakes == w.tf.stakes
      && w'.env == w.env && w'.log == w.log && Margin(w') == Margin(w)
  {
    var w' := OpenEscrow(w, depositor, beneficiary, amount, ms).value;
    MoveEffect(w.tok, depositor, w.env.self, amount);
    var id := w'.tf.escrowCounter;
    assert id !in w.tf.escrows;
    LockedUpdate(w.tf, w'.tf, id);
  }

  /** A payment out of the contract costs it at most the amount: nothing when it pays itself. */
  lemma PayEffect(t: TokenState, self: Address, to: Address, amount: i128)
    requires TokenInv(t) && amount >= 0 && TryTransfer(t, self, to, amount).Ok?
    ensures
      var t' := TryTransfer(t, self, to, amount).value;
      && TokenInv(t') && t'.allowances == t.allowances
      && Balance(t', self) == Balance(t, self) - (if to == self then 0 else amount)
      && Supply(t') == Supply(t)
  {
    MoveEffect(t, self, to, amount);
  }

  lemma EscrowBounds(now: u32, tf: Store, id: u64)
    requires EscrowsOk(now, tf) && id in tf.escrows
    ensures id in tf.feeConfigs && tf.feeConfigs[id].feeBps <= MAX_FEE_BPS
    ensures 0 <= EscrowReleasedOf(tf, id) <= tf.escrows[id].amount
  {
    assert ViewOk(now, ViewOf(tf, id));
  }

  /** A tranche's fee and payout are non-negative parts of it, priced by the exact floor. */
  lemma TranchePrices(w: World, id: u64, index: u32, gross: i128, caller: Address)
    requires EscrowsOk(w.env.sequence, w.tf) && PriceTranche(w, id, index, gross, caller).Ok?
    ensures
      var t := PriceTranche(w, id, index, gross, caller).value;
      var bps, before := w.tf.feeConfigs[id].feeBps, EscrowReleasedOf(w.tf, id);
      && before >= 0 && gross > 0
      && t.fee == FloorFee(before + gross, bps) - FloorFee(before, bps)
      && 0 <= t.fee <= gross && t.payout == gross - t.fee
  {
    hide PriceTranche, TrancheChecked, CumulativeFee, FloorFee, EscrowsOk;
    PriceTrancheChecks(w, id, index, gross, caller);
    EscrowBounds(w.env.sequence, w.tf, id);
    FeeDifference(EscrowReleasedOf(w.tf, id), gross, w.tf.feeConfigs[id].feeBps);
  }

  lemma FeeDifference(before: i128, gross: i128, bps: u32)
    requires 0 <= before && 0 < gross && before + gross <= I128_MAX && bps <= MAX_FEE_BPS
    ensures CumulativeFee(before, bps) == Ok(FloorFee(before, bps))
    ensures CumulativeFee(before + gross, bps) == Ok(FloorFee(before + gross, bps))
    ensures 0 <= FloorFee(before + gross, bps) - FloorFee(before, bps) <= gross
  {
    CumulativeFeeTotal(before, bps);
    CumulativeFeeTotal(before + gross, bps);
    FloorFeeGrowth(before, before + gross, bps);
  }

  /** Booking a tranche lowers the locked total by the tranche, whether or not it settles. */
  lemma BookTrancheLocked(tf: Store, id: u64, index: u32, gross: i128, t: Tranche)
    requires id in tf.escrows && index < |tf.escrows[id].milestones| && tf.escrows[id].status == Active
    requires t.escrowReleased == EscrowReleasedOf(tf, id) + gross
    ensures TotalLocked(BookTranche(tf, id, index, t)) == TotalLocked(tf) - gross
    ensures BookTranche(tf, id, index, t).stakes == tf.stakes
  {
    LockedUpdate(tf, BookTranche(tf, id, index, t), id);
  }

  lemma ReleaseMargin(w: World, id: u64, index: u32, gross: i128, caller: Address)
    requires FundsOk(w) && Release(w, id, index, gross, caller).Ok?
    ensures
      var w' := Release(w, id, index, gross, caller).value;
      && TokenInv(w'.tok) && w'.tok.allowances == w.tok.allowances && w'.tf.stakes == w.tf.stakes
      && Margin(w') >= Margin(w)
  {
    hide Release, PriceTranche, TryTransfer, BookTranche, TotalLocked, EscrowsOk;
    var w' := Release(w, id, index, gross, caller).value;
    var t := ReleaseDid(w, id, index, gross, caller);
    TranchePrices(w, id, index, gross, caller);
    BookTrancheLocked(w.tf, id, index, gross, t);
    var beneficiary, treasury := w.tf.escrows[id].beneficiary, w.tf.feeConfigs[id].treasury;
    PayEffect(w.tok, w.env.self, beneficiary, t.payout);
    PayEffect(TryTransfer(w.tok, w.env.self, beneficiary, t.payout).value, w.env.self, treasury, t.fee);
    TotalAppend(w.log, w'.log[|w.log|], SlashedStake);
  }

  /** The slashing loop moves stake into the history's slashed total, and touches no other total. */
  lemma {:induction false} SlashLosersBooks(b: Bench, votes: map<VoteKey, bool>, id: u64, voters: seq<Address>,
                                            ruling: bool, bps: u32)
    requires StakesOk(b.stakes) && bps <= 10_000
    requires SlashLosers(b, votes, id, voters, ruling, bps).Ok?
    ensures
      var b' := SlashLosers(b, votes, id, voters, ruling, bps).value;
      && StakesOk(b'.stakes)
      && MapSum(b'.stakes) + Total(b'.log, SlashedStake) == MapSum(b.stakes) + Total(b.log, SlashedStake)
      && Total(b'.log, SlashedStake) >= Total(b.log, SlashedStake)
      && forall q: Quantity :: q != SlashedStake ==> Total(b'.log, q) == Total(b.log, q)
    decreases |voters|
  {
    if voters != [] {
      var last := |voters| - 1;
      SlashLosersBooks(b, votes, id, voters[..last], ruling, bps);
      if VoteOf(votes, id, voters[last]) != ruling {
        SlashJurorBooks(SlashLosers(b, votes, id, voters[..last], ruling, bps).value, id, voters[last], bps);
      }
    }
  }

  lemma SlashJurorBooks(b: Bench, id: u64, juror: Address, bps: u32)
    requires StakesOk(b.stakes) && bps <= 10_000 && SlashJuror(b, id, juror, bps).Ok?
    ensures
      var b' := SlashJuror(b, id, juror, bps).value;
      && StakesOk(b'.stakes)
      && MapSum(b'.stakes) + Total(b'.log, SlashedStake) == MapSum(b.stakes) + Total(b.log, SlashedStake)
      && Total(b'.log, SlashedStake) >= Total(b.log, SlashedStake)
      && forall q: Quantity :: q != SlashedStake ==> Total(b'.log, q) == Total(b.log, q)
  {
    hide SlashAmount;
    var b' := SlashJuror(b, id, juror, bps).value;
    var stake := GetOr(b.stakes, juror, 0);
    SlashAmountTiers(stake, bps);
    MapSumUpdate(b.stakes, juror, stake - SlashAmount(stake, bps));
    var e := b'.log[|b.log|];
    forall q: Quantity ensures Total(b'.log, q) == Total(b.log, q) + Amount(q, e) {
      TotalAppend(b.log, e, q);
    }
  }

  lemma ResolveMargin(w: World, id: u64)
    requires FundsOk(w) && ResolveDispute(w, id).Ok?
    ensures
      var w' := ResolveDispute(w, id).value;
      && TokenInv(w'.tok) && w'.tok.allowances == w.tok.allowances && StakesOk(w'.tf.stakes)
      && Margin(w') >= Margin(w)
      && TotalStake(w'.tf) + Total(w'.log, SlashedStake) == TotalStake(w.tf) + Total(w.log, SlashedStake)
  {
    hide ResolveDispute, ReadyToResolve, SlashLosers, Ruling, Move, EscrowsOk, TotalLocked;
    var w' := ResolveDispute(w, id).value;
    var b, remaining := ResolveDid(w, id);
    SlashesAllowed(w, id);
    SlashLosersBooks(BenchOf(w), w.tf.votes, id, VotersOf(w.tf, id), Ruling(w.tf, id), w.tf.slashBps);
    TotalAppend(b.log, w'.log[|b.log|], SlashedStake);
    SettleLocked(w.tf, w'.tf, id);
    var e := w.tf.escrows[id];
    MoveEffect(w.tok, w.env.self, if Ruling(w.tf, id) then e.depositor else e.beneficiary, remaining);
  }

  lemma SlashesAllowed(w: World, id: u64)
    requires EscrowsOk(w.env.sequence, w.tf) && id in w.tf.disputes && !w.tf.disputes[id].resolved
    ensures w.tf.slashBps <= 10_000
    ensures id in w.tf.escrows && w.tf.escrows[id].status == Disputed
    ensures 0 <= EscrowReleasedOf(w.tf, id) < w.tf.escrows[id].amount
  {
    assert ViewOk(w.env.sequence, ViewOf(w.tf, id));
  }

  lemma SettleLocked(tf: Store, tf': Store, id: u64)
    requires id in tf.escrows && tf.escrows[id].status == Disputed
    requires tf'.escrows == tf.escrows[id := tf.escrows[id].(status := Settled)]
    requires tf'.escrowReleased == tf.escrowReleased
    ensures TotalLocked(tf') == TotalLocked(tf) - (tf.escrows[id].amount - EscrowReleasedOf(tf, id))
  {
    LockedUpdate(tf, tf', id);
  }

  /** A call somebody else authorised takes nothing from the contract: it never approved anyone. */
  lemma OutsideMargin(w: World, c: TokenCall)
    requires FundsOk(w) && OutsideTokenCall(w, c).Ok?
    ensures
      var w' := OutsideTokenCall(w, c).value;
      && TokenInv(w'.tok) && GrantsNothing(w'.tok, w.env.self) && Margin(w') >= Margin(w)
      && w' == w.(tok := w'.tok)
  {
    hide EscrowsOk, Total, TotalLocked, TotalStake;
    ForeignCall(w.tok, w.env.sequence, c, w.env.self);
  }

  lemma CreateMargin(w: World, a: Action)
    requires FundsOk(w) && (a.DoCreateEscrow? || a.DoInitEscrow?) && Apply(w, a).Ok?
    ensures
      var w' := Apply(w, a).value;
      && TokenInv(w'.tok) && w'.tok.allowances == w.tok.allowances && w'.tf.stakes == w.tf.stakes
      && w'.env == w.env && Margin(w') == Margin(w)
  {
    hide FundsOk, OpenEscrow, MilestoneTotal, Total;
    if a.DoCreateEscrow? {
      OpenMargin(w, a.depositor, a.beneficiary, a.amount, []);
    } else {
      var total := MilestoneTotal(a.milestones).value;
      OpenMargin(w, a.depositor, a.beneficiary, total, a.milestones);
      var w' := OpenEscrow(w, a.depositor, a.beneficiary, total, a.milestones).value;
      TotalAppend(w'.log, EscrowInitialized(w'.tf.escrowCounter, a.depositor, a.beneficiary, total), SlashedStake);
    }
  }

  /** Steps that move no token and no stake: administration and the clock. */
  lemma AdminMargin(w: World, a: Action)
    requires Apply(w, a).Ok?
    requires a.DoSetFeeBps? || a.DoSetTreasury? || a.DoSetPauser? || a.DoPause? || a.DoUnpause? || a.DoAdvance?
    ensures
      var w' := Apply(w, a).value;
      w'.tok == w.tok && w'.env.self == w.env.self && w'.tf.stakes == w.tf.stakes && Margin(w') == Margin(w)
  {
    hide Total;
    assert LockedMap(Apply(w, a).value.tf) == LockedMap(w.tf);
  }

  /** Steps that move no token and no stake: disputes and votes. */
  lemma VoteMargin(w: World, a: Action)
    requires Apply(w, a).Ok?
    requires a.DoRaiseDispute? || a.DoCommitVote? || a.DoRevealVote?
    ensures
      var w' := Apply(w, a).value;
      w'.tok == w.tok && w'.env.self == w.env.self && w'.tf.stakes == w.tf.stakes && Margin(w') == Margin(w)
  {
    hide Total, HashVote, TotalLocked;
    var w' := Apply(w, a).value;
    if a.DoRaiseDispute? {
      LockedUpdate(w.tf, w'.tf, a.id);
    } else {
      SameLocked(w.tf, w'.tf);
      TotalAppend(w.log, w'.log[|w.log|], SlashedStake);
    }
  }

  lemma SameLocked(tf: Store, tf': Store)
    requires tf'.escrows == tf.escrows && tf'.escrowReleased == tf.escrowReleased
    ensures TotalLocked(tf') == TotalLocked(tf)
  {
    assert LockedMap(tf') == LockedMap(tf);
  }

  /** Every step keeps the books, and no step lowers the margin: the surplus never decreases, and
      grows by at least what the step slashed. */
  lemma StepKeepsFunds(w: World, a: Action)
    requires FundsOk(w)
    ensures FundsOk(Step(w, a))
    ensures Margin(Step(w, a)) >= Margin(w) && Step(w, a).env.self == w.env.self
  {
    hide Stake, Unstake, Release, ResolveDispute, OutsideTokenCall, CreateEscrow, InitEscrow;
    hide SetFeeBps, SetTreasury, SetPauser, Pause, Unpause, RaiseDispute, CommitVote, RevealVote;
    hide EscrowsOk, TokenInv, Margin;
    StepKeepsEscrows(w, a);
    StepSelf(w, a);
    if Apply(w, a).Ok? {
      match a
      case DoStake(juror, amount) => StakeMargin(w, juror, amount);
      case DoUnstake(juror, amount) => UnstakeMargin(w, juror, amount);
      case DoCreateEscrow(_, _, _) => CreateMargin(w, a);
      case DoInitEscrow(_, _, _) => CreateMargin(w, a);
      case DoRelease(id, index, gross, caller) => ReleaseMargin(w, id, index, gross, caller);
      case DoResolveDispute(id) => ResolveMargin(w, id);
      case DoToken(c) => OutsideMargin(w, c);
      case DoRaiseDispute(_, _) => VoteMargin(w, a);
      case DoCommitVote(_, _, _) => VoteMargin(w, a);
      case DoRevealVote(_, _, _, _) => VoteMargin(w, a);
      case _ => AdminMargin(w, a);
    }
  }

  /** No step changes the host's constants; the clock never goes back. */
  lemma StepSelf(w: World, a: Action)
    ensures Step(w, a).env == w.env.(sequence := Step(w, a).env.sequence)
    ensures w.env.sequence <= Step(w, a).env.sequence
    ensures !a.DoAdvance? ==> Step(w, a).env == w.env
  {
    hide Move, Invoke, SlashLosers, PriceTranche, MilestoneTotal, HashVote, Ruling, CumulativeFee;
    hide TryTransfer, BookTranche;
  }
}
