/** Every token locked in an escrow is accounted for: paid out, taken as fee, awarded by a dispute,
    or still locked; at the fee terms fixed when the escrow was created. */
module Conservation {
  import opened Base
  import opened FeeMath
  import opened AbundanceToken
  import opened TrustFlow
  import opened EscrowInvariants
  import opened Solvency

  /** What the history has paid out of one escrow against what storage says was released. */
  ghost predicate AccountOk(tf: Store, log: seq<Event>, id: u64)
  {
    if id !in tf.escrows || id !in tf.feeConfigs then
      Total(log, Fees(id)) == Total(log, Payouts(id)) == Total(log, DisputePayouts(id)) == 0
    else
      var released := EscrowReleasedOf(tf, id);
      && released >= 0
      && Total(log, Fees(id)) == FloorFee(released, tf.feeConfigs[id].feeBps)
      && Total(log, Payouts(id)) + Total(log, Fees(id)) == released
      && Total(log, DisputePayouts(id))
         == (if id in tf.disputes && tf.disputes[id].resolved then tf.escrows[id].amount - released else 0)
  }

  ghost predicate AccountsOk(w: World)
  {
    forall id: u64 :: AccountOk(w.tf, w.log, id)
  }

  /** The escrow terms two worlds agree on: everything but status, approvals and counters. */
  ghost predicate SameTerms(e: EscrowRecord, e': EscrowRecord)
  {
    && e'.id == e.id && e'.depositor == e.depositor && e'.beneficiary == e.beneficiary && e'.amount == e.amount
    && |e'.milestones| == |e.milestones|
    && forall i :: 0 <= i < |e.milestones| ==>
         && e'.milestones[i].amount == e.milestones[i].amount
         && e'.milestones[i].releaseTime == e.milestones[i].releaseTime
         && (e.milestones[i].approved ==> e'.milestones[i].approved)
  }

  /** Status only moves forward. */
  ghost predicate Forward(s: EscrowStatus, s': EscrowStatus)
  {
    s' == s || s == Active || (s == Disputed && s' == Settled)
  }

  /** What every later world keeps of an earlier one. */
  ghost predicate Later(tf: Store, tf': Store)
  {
    && tf.escrowCounter <= tf'.escrowCounter
    && (forall id :: id in tf.escrows ==>
          && id in tf'.escrows && SameTerms(tf.escrows[id], tf'.escrows[id])
          && Forward(tf.escrows[id].status, tf'.escrows[id].status)
          && EscrowReleasedOf(tf, id) <= EscrowReleasedOf(tf', id))
    && (forall id :: id in tf.feeConfigs ==> id in tf'.feeConfigs && tf'.feeConfigs[id] == tf.feeConfigs[id])
    && (forall id :: id in tf.disputes ==>
          && id in tf'.disputes
          && (tf.disputes[id].resolved ==> tf'.disputes[id] == tf.disputes[id])
          && tf'.disputes[id].commitDeadline == tf.disputes[id].commitDeadline
          && tf'.disputes[id].revealDeadline == tf.disputes[id].revealDeadline
          && tf'.disputes[id].raisedBy == tf.disputes[id].raisedBy)
  }

  lemma LaterTransitive(a: Store, b: Store, c: Store)
    requires Later(a, b) && Later(b, c)
    ensures Later(a, c)
  {
  }

  // ---- Steps ----

  lemma UntouchedAccounts(w: World, w': World)
    requires AccountsOk(w) && w'.tf.escrows == w.tf.escrows && w'.tf.feeConfigs == w.tf.feeConfigs
    requires w'.tf.escrowReleased == w.tf.escrowReleased && w'.tf.disputes == w.tf.disputes
    requires w'.log == w.log || (|w'.log| == |w.log| + 1 && w'.log[..|w.log|] == w.log
                                 && !w'.log[|w.log|].TrancheReleased? && !w'.log[|w.log|].DisputePaid?)
    requires w'.tf.escrowCounter == w.tf.escrowCounter
    ensures AccountsOk(w') && Later(w.tf, w'.tf)
  {
    forall id: u64 ensures AccountOk(w'.tf, w'.log, id) {
      assert AccountOk(w.tf, w.log, id);
      if w'.log != w.log {
        assert w'.log == w.log + [w'.log[|w.log|]];
        OtherEvent(w.log, w'.log[|w.log|], id);
      }
    }
  }

  /** Events that are no payment leave the payment totals alone. */
  lemma OtherEvent(log: seq<Event>, e: Event, id: u64)
    requires !e.TrancheReleased? && !e.DisputePaid?
    ensures Total(log + [e], Fees(id)) == Total(log, Fees(id))
    ensures Total(log + [e], Payouts(id)) == Total(log, Payouts(id))
    ensures Total(log + [e], DisputePayouts(id)) == Total(log, DisputePayouts(id))
  {
    TotalAppend(log, e, Fees(id));
    TotalAppend(log, e, Payouts(id));
    TotalAppend(log, e, DisputePayouts(id));
  }

  lemma OpenAccounts(w: World, depositor: Address, beneficiary: Address, amount: i128, ms: Vec<Milestone>)
    requires FundsOk(w) && AccountsOk(w) && OpenEscrow(w, depositor, beneficiary, amount, ms).Ok?
    ensures
      var w' := OpenEscrow(w, depositor, beneficiary, amount, ms).value;
      && AccountsOk(w') && Later(w.tf, w'.tf) && w'.log == w.log
      && w'.tf.feeConfigs[w'.tf.escrowCounter] == FeeConfig(w.tf.treasury, w.tf.feeBps)
  {
    hide Move, Later, AccountOk;
    var w' := OpenEscrow(w, depositor, beneficiary, amount, ms).value;
    var newId := w'.tf.escrowCounter;
    FreshId(w, newId);
    hide FundsOk;
    OpenLater(w.tf, w'.tf);
    forall id: u64 ensures AccountOk(w'.tf, w'.log, id) {
      assert AccountOk(w.tf, w.log, id);
      OpenedAccount(w.tf, w'.tf, w.log, id);
    }
  }

  ghost predicate Opened(tf: Store, tf': Store)
  {
    var id := tf'.escrowCounter;
    && id > tf.escrowCounter && id !in tf.escrows && id !in tf.feeConfigs && id !in tf.disputes
    && EscrowReleasedOf(tf, id) == 0
    && id in tf'.escrows && tf'.escrows == tf.escrows[id := tf'.escrows[id]]
    && id in tf'.feeConfigs && tf'.feeConfigs == tf.feeConfigs[id := tf'.feeConfigs[id]]
    && tf'.escrowReleased == tf.escrowReleased && tf'.disputes == tf.disputes
  }

  lemma OpenLater(tf: Store, tf': Store)
    requires Opened(tf, tf')
    ensures Later(tf, tf')
  {
  }

  lemma OpenedAccount(tf: Store, tf': Store, log: seq<Event>, id: u64)
    requires Opened(tf, tf') && AccountOk(tf, log, id)
    ensures AccountOk(tf', log, id)
  {
    hide Total;
  }

  lemma FreshId(w: World, id: u64)
    requires EscrowsOk(w.env.sequence, w.tf) && id > w.tf.escrowCounter
    ensures id !in w.tf.escrows && id !in w.tf.feeConfigs && id !in w.tf.disputes && EscrowReleasedOf(w.tf, id) == 0
  {
  }

  lemma CreateAccounts(w: World, a: Action)
    requires FundsOk(w) && AccountsOk(w) && (a.DoCreateEscrow? || a.DoInitEscrow?) && Apply(w, a).Ok?
    ensures AccountsOk(Apply(w, a).value) && Later(w.tf, Apply(w, a).value.tf)
  {
    hide FundsOk, OpenEscrow, MilestoneTotal, Later, AccountOk;
    if a.DoCreateEscrow? {
      OpenAccounts(w, a.depositor, a.beneficiary, a.amount, []);
    } else {
      var total := MilestoneTotal(a.milestones).value;
      OpenAccounts(w, a.depositor, a.beneficiary, total, a.milestones);
      var created := OpenEscrow(w, a.depositor, a.beneficiary, total, a.milestones).value;
      UntouchedAccounts(created, Apply(w, a).value);
    }
  }

  lemma ReleaseAccounts(w: World, id: u64, index: u32, gross: i128, caller: Address)
    requires FundsOk(w) && AccountsOk(w) && Release(w, id, index, gross, caller).Ok?
    ensures
      var w' := Release(w, id, index, gross, caller).value;
      AccountsOk(w') && Later(w.tf, w'.tf)
  {
    hide Release, FundsOk, AccountOk, Later, TrancheEvent, BookTranche, Total;
    var w' := Release(w, id, index, gross, caller).value;
    var t, e := ReleaseReports(w, id, index, gross, caller);
    forall k: u64 ensures AccountOk(w'.tf, w'.log, k) {
      assert AccountOk(w.tf, w.log, k);
      TrancheAccount(w.tf, w.log, id, index, gross, t, e, k);
    }
  }

  /** A release appends one event, which reports the tranche it booked. */
  lemma ReleaseReports(w: World, id: u64, index: u32, gross: i128, caller: Address) returns (t: Tranche, e: Event)
    requires FundsOk(w) && Release(w, id, index, gross, caller).Ok?
    ensures TrancheEvent(w.tf, id, index, gross, t, e)
    ensures
      var w' := Release(w, id, index, gross, caller).value;
      w'.tf == BookTranche(w.tf, id, index, t) && w'.log == w.log + [e] && Later(w.tf, w'.tf)
  {
    hide Release, PriceTranche, TryTransfer, FundsOk, TrancheChecked, BookTranche, Later, TrancheEvent;
    t := ReleaseDid(w, id, index, gross, caller);
    e := Release(w, id, index, gross, caller).value.log[|w.log|];
    PricedTranche(w, id, index, gross, caller, t, e);
  }

  lemma PricedTranche(w: World, id: u64, index: u32, gross: i128, caller: Address, t: Tranche, e: Event)
    requires FundsOk(w) && PriceTranche(w, id, index, gross, caller) == Ok(t)
    requires e.TrancheReleased? && e.id == id && e.fee == t.fee && e.payout == t.payout
    ensures TrancheEvent(w.tf, id, index, gross, t, e) && Later(w.tf, BookTranche(w.tf, id, index, t))
  {
    hide PriceTranche, TrancheChecked, TranchePriced, FloorFee, BookTranche, Later, EscrowsOk;
    TranchePrices(w, id, index, gross, caller);
    PriceTrancheChecks(w, id, index, gross, caller);
    ReleasePreconditions(w, id, index, gross, caller, t);
    BookLater(w.tf, id, index, gross, t);
  }

  lemma ReleasePreconditions(w: World, id: u64, index: u32, gross: i128, caller: Address, t: Tranche)
    requires EscrowsOk(w.env.sequence, w.tf) && TrancheChecked(w, id, index, gross, caller, t)
    ensures id in w.tf.escrows && id in w.tf.feeConfigs && index < |w.tf.escrows[id].milestones|
    ensures w.tf.escrows[id].status == Active && id !in w.tf.disputes
    ensures t.escrowReleased == EscrowReleasedOf(w.tf, id) + gross && gross > 0
  {
    ActiveUndisputed(w.env.sequence, w.tf, id);
  }

  lemma ActiveUndisputed(now: u32, tf: Store, id: u64)
    requires EscrowsOk(now, tf) && id in tf.escrows && tf.escrows[id].status == Active
    ensures id !in tf.disputes && id in tf.feeConfigs
  {
    assert ViewOk(now, ViewOf(tf, id));
  }

  lemma BookLater(tf: Store, id: u64, index: u32, gross: i128, t: Tranche)
    requires id in tf.escrows && index < |tf.escrows[id].milestones| && tf.escrows[id].status == Active
    requires t.escrowReleased == EscrowReleasedOf(tf, id) + gross && gross > 0
    ensures Later(tf, BookTranche(tf, id, index, t))
  {
  }

  /** `e` reports a tranche `t` of `gross` priced by the exact floor. */
  ghost predicate TrancheEvent(tf: Store, id: u64, index: u32, gross: i128, t: Tranche, e: Event)
  {
    && id in tf.escrows && id in tf.feeConfigs && index < |tf.escrows[id].milestones| && id !in tf.disputes
    && EscrowReleasedOf(tf, id) >= 0 && gross > 0 && t.escrowReleased == EscrowReleasedOf(tf, id) + gross
    && t.fee == FloorFee(t.escrowReleased, tf.feeConfigs[id].feeBps)
                - FloorFee(EscrowReleasedOf(tf, id), tf.feeConfigs[id].feeBps)
    && t.payout == gross - t.fee
    && e.TrancheReleased? && e.id == id && e.fee == t.fee && e.payout == t.payout
  }

  lemma TrancheAccount(tf: Store, log: seq<Event>, id: u64, index: u32, gross: i128, t: Tranche, e: Event, k: u64)
    requires AccountOk(tf, log, k) && TrancheEvent(tf, id, index, gross, t, e)
    ensures AccountOk(BookTranche(tf, id, index, t), log + [e], k)
  {
    hide Total, FloorFee;
    TotalAppend(log, e, Fees(k));
    TotalAppend(log, e, Payouts(k));
    TotalAppend(log, e, DisputePayouts(k));
  }

  lemma ResolveAccounts(w: World, id: u64)
    requires FundsOk(w) && AccountsOk(w) && ResolveDispute(w, id).Ok?
    ensures
      var w' := ResolveDispute(w, id).value;
      AccountsOk(w') && Later(w.tf, w'.tf)
  {
    hide ResolveDispute, ReadyToResolve, SlashLosers, Ruling, Move, FundsOk, EscrowsOk, AccountOk, Total;
    var w' := ResolveDispute(w, id).value;
    var b, remaining := ResolveDid(w, id);
    ResolvePreconditions(w, id);
    SlashLosersBooks(BenchOf(w), w.tf.votes, id, VotersOf(w.tf, id), Ruling(w.tf, id), w.tf.slashBps);
    var e := w'.log[|b.log|];
    assert w'.log == b.log + [e];
    forall k: u64 ensures AccountOk(w'.tf, w'.log, k) {
      assert AccountOk(w.tf, w.log, k);
      SettleAccount(w.tf, w.log, b.log, w'.tf, id, e, k);
    }
  }

  lemma ResolvePreconditions(w: World, id: u64)
    requires FundsOk(w) && id in w.tf.disputes && !w.tf.disputes[id].resolved
    ensures w.tf.slashBps <= 10_000 && StakesOk(w.tf.stakes)
    ensures id in w.tf.escrows && id in w.tf.feeConfigs && w.tf.escrows[id].status == Disputed
    ensures 0 <= EscrowReleasedOf(w.tf, id) < w.tf.escrows[id].amount
  {
    SlashesAllowed(w, id);
  }

  lemma SettleAccount(tf: Store, log: seq<Event>, slashed: seq<Event>, tf': Store, id: u64, e: Event, k: u64)
    requires AccountOk(tf, log, k) && id in tf.escrows && id in tf.feeConfigs
    requires id in tf.disputes && !tf.disputes[id].resolved && id in tf'.disputes && tf'.disputes[id].resolved
    requires tf'.disputes == tf.disputes[id := tf'.disputes[id]] && tf'.feeConfigs == tf.feeConfigs
    requires id in tf'.escrows && tf'.escrows == tf.escrows[id := tf'.escrows[id]]
    requires tf'.escrows[id].amount == tf.escrows[id].amount
    requires tf'.escrowReleased == tf.escrowReleased
    requires forall q: Quantity :: q != SlashedStake ==> Total(slashed, q) == Total(log, q)
    requires e.DisputePaid? && e.id == id && e.paid == tf.escrows[id].amount - EscrowReleasedOf(tf, id)
    ensures AccountOk(tf', slashed + [e], k)
  {
    hide Total, FloorFee;
    TotalAppend(slashed, e, Fees(k));
    TotalAppend(slashed, e, Payouts(k));
    TotalAppend(slashed, e, DisputePayouts(k));
  }

  lemma RaiseAccounts(w: World, id: u64, caller: Address)
    requires FundsOk(w) && AccountsOk(w) && RaiseDispute(w, id, caller).Ok?
    ensures
      var w' := RaiseDispute(w, id, caller).value;
      AccountsOk(w') && Later(w.tf, w'.tf)
  {
    hide Total, FloorFee, EscrowsOk;
    var w' := RaiseDispute(w, id, caller).value;
    ActiveUndisputed(w.env.sequence, w.tf, id);
    forall k: u64 ensures AccountOk(w'.tf, w'.log, k) {
      assert AccountOk(w.tf, w.log, k);
    }
  }

  lemma QuietAccounts(w: World, a: Action)
    requires AccountsOk(w) && Apply(w, a).Ok?
    requires !a.DoCreateEscrow? && !a.DoInitEscrow? && !a.DoRelease? && !a.DoRaiseDispute? && !a.DoResolveDispute?
    ensures AccountsOk(Apply(w, a).value) && Later(w.tf, Apply(w, a).value.tf)
  {
    hide AccountsOk, Later, Move, Invoke, HashVote;
    UntouchedAccounts(w, Apply(w, a).value);
  }

  /** Every step keeps every account, and the terms of every escrow. */
  lemma StepKeepsAccounts(w: World, a: Action)
    requires FundsOk(w) && AccountsOk(w)
    ensures AccountsOk(Step(w, a)) && Later(w.tf, Step(w, a).tf)
  {
    hide FundsOk, AccountsOk, Release, RaiseDispute, ResolveDispute, CreateEscrow, InitEscrow;
    hide Stake, Unstake, OutsideTokenCall, SetFeeBps, SetTreasury, SetPauser, Pause, Unpause, CommitVote, RevealVote;
    if Apply(w, a).Ok? {
      match a
      case DoCreateEscrow(_, _, _) => CreateAccounts(w, a);
      case DoInitEscrow(_, _, _) => CreateAccounts(w, a);
      case DoRelease(id, index, gross, caller) => ReleaseAccounts(w, id, index, gross, caller);
      case DoRaiseDispute(id, caller) => RaiseAccounts(w, id, caller);
      case DoResolveDispute(id) => ResolveAccounts(w, id);
      case _ => QuietAccounts(w, a);
    }
  }
}
