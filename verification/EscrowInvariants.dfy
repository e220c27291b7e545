/** The accounting invariant of every escrow, kept by every step of the chain. */
module EscrowInvariants {
  import opened Base
  import opened Sums
  import opened FeeMath
  import opened AbundanceToken
  import opened TrustFlow

  /** All that storage holds about one escrow. */
  datatype View = View(
    escrow: EscrowRecord,
    fees: FeeConfig,
    released: int,
    perMilestone: seq<int>,
    dispute: Option<DisputeRecord>)

  ghost function PerMilestone(tf: Store, id: u64): seq<int>
    requires id in tf.escrows
  {
    var n := |tf.escrows[id].milestones|;
    seq(n, i requires 0 <= i < n => MilestoneReleasedOf(tf, id, i))
  }

  ghost function Lookup(m: map<u64, DisputeRecord>, id: u64): Option<DisputeRecord>
  {
    if id in m then Some(m[id]) else None
  }

  ghost function ViewOf(tf: Store, id: u64): View
    requires id in tf.escrows && id in tf.feeConfigs
  {
    View(tf.escrows[id], tf.feeConfigs[id], EscrowReleasedOf(tf, id), PerMilestone(tf, id), Lookup(tf.disputes, id))
  }

  ghost function Amounts(ms: seq<Milestone>): seq<int>
  {
    seq(|ms|, i requires 0 <= i < |ms| => ms[i].amount as int)
  }

  /** Milestone counters within their amounts, summing to the escrow counter; an approved and
      unlocked milestone behind every release; amounts summing to the escrow amount. */
  ghost predicate MilestonesOk(now: u32, v: View)
  {
    var ms := v.escrow.milestones;
    && |v.perMilestone| == |ms|
    && (forall i :: 0 <= i < |ms| ==> 0 <= v.perMilestone[i] <= ms[i].amount)
    && (forall i :: 0 <= i < |ms| && v.perMilestone[i] > 0 ==> ms[i].approved && ms[i].releaseTime <= now)
    && SeqSum(v.perMilestone) == v.released
    && (ms != [] ==> SeqSum(Amounts(ms)) == v.escrow.amount)
  }

  /** Status, dispute record and remaining amount agree. */
  ghost predicate StatusOk(v: View)
  {
    && v.escrow.amount > 0
    && v.fees.feeBps <= MAX_FEE_BPS
    && match v.escrow.status
       case Active => v.dispute.None? && 0 <= v.released < v.escrow.amount
       case Disputed => v.dispute.Some? && !v.dispute.value.resolved && 0 <= v.released < v.escrow.amount
       case Settled =>
         if v.dispute.Some? then v.dispute.value.resolved && 0 <= v.released < v.escrow.amount
         else v.released == v.escrow.amount
  }

  ghost predicate ViewOk(now: u32, v: View)
  {
    MilestonesOk(now, v) && StatusOk(v)
  }

  /** Identifiers are handed out in order and no record outlives or predates its escrow. */
  ghost predicate KeysOk(tf: Store)
  {
    && (forall id :: id in tf.escrows ==> 1 <= id <= tf.escrowCounter && tf.escrows[id].id == id)
    && tf.feeConfigs.Keys == tf.escrows.Keys
    && tf.escrowReleased.Keys <= tf.escrows.Keys
    && (forall k :: k in tf.milestoneReleased ==>
          k.escrowId in tf.escrows && k.index < |tf.escrows[k.escrowId].milestones|)
    && tf.disputes.Keys <= tf.escrows.Keys
  }

  ghost predicate EscrowsOk(now: u32, tf: Store)
  {
    && KeysOk(tf)
    && tf.feeBps <= MAX_FEE_BPS && tf.slashBps <= 10_000
    && forall id :: id in tf.escrows ==> ViewOk(now, ViewOf(tf, id))
  }

  // ---- Milestone sums ----

  /** The loop of `init_escrow` accepts exactly the lists of positive amounts whose sum is an i128. */
  lemma {:induction false} MilestoneTotalExact(ms: seq<Milestone>)
    ensures MilestoneTotal(ms).Ok? <==>
              (forall i :: 0 <= i < |ms| ==> ms[i].amount > 0) && SeqSum(Amounts(ms)) <= I128_MAX
    ensures MilestoneTotal(ms).Ok? ==> MilestoneTotal(ms).value == SeqSum(Amounts(ms)) >= 0
  {
    if ms != [] {
      var n := |ms| - 1;
      var front := ms[..n];
      MilestoneTotalExact(front);
      assert Amounts(ms)[..n] == Amounts(front);
      assert ms == front + [ms[n]];
      if MilestoneTotal(front).Err? && forall i :: 0 <= i < |ms| ==> ms[i].amount > 0 {
        assert forall i :: 0 <= i < |front| ==> front[i] == ms[i];
        assert SeqSum(Amounts(front)) > I128_MAX;
      }
    }
  }

  // ---- Frame ----

  lemma ViewFrame(tf: Store, tf': Store, id: u64)
    requires id in tf.escrows && id in tf.feeConfigs && id in tf'.escrows && id in tf'.feeConfigs
    requires tf'.escrows[id] == tf.escrows[id] && tf'.feeConfigs[id] == tf.feeConfigs[id]
    requires EscrowReleasedOf(tf', id) == EscrowReleasedOf(tf, id)
    requires forall i: u32 :: MilestoneReleasedOf(tf', id, i) == MilestoneReleasedOf(tf, id, i)
    requires Lookup(tf'.disputes, id) == Lookup(tf.disputes, id)
    ensures ViewOf(tf', id) == ViewOf(tf, id)
  {
    assert PerMilestone(tf', id) == PerMilestone(tf, id);
  }

  lemma ConfigBounds(now: u32, tf: Store)
    requires EscrowsOk(now, tf)
    ensures tf.feeBps <= MAX_FEE_BPS && tf.slashBps <= 10_000
  {
  }

  lemma EscrowIsOk(now: u32, tf: Store, id: u64)
    requires EscrowsOk(now, tf) && id in tf.escrows
    ensures id in tf.feeConfigs && ViewOk(now, ViewOf(tf, id))
  {
  }

  /** Steps that touch no escrow, and a later clock, keep the invariant. */
  lemma EscrowsFrame(now: u32, tf: Store, now': u32, tf': Store)
    requires EscrowsOk(now, tf) && now <= now'
    requires tf'.escrows == tf.escrows && tf'.feeConfigs == tf.feeConfigs && tf'.disputes == tf.disputes
    requires tf'.escrowReleased == tf.escrowReleased && tf'.milestoneReleased == tf.milestoneReleased
    requires tf'.escrowCounter == tf.escrowCounter && tf'.feeBps <= MAX_FEE_BPS && tf'.slashBps <= 10_000
    ensures EscrowsOk(now', tf')
  {
    forall id | id in tf'.escrows ensures ViewOk(now', ViewOf(tf', id)) {
      ViewFrame(tf, tf', id);
    }
  }

  // ---- Creation ----

  /** What opening an escrow writes. */
  ghost predicate OpenWrites(tf: Store, tf': Store, e: EscrowRecord)
  {
    && e.id == tf.escrowCounter + 1 && e.status == Active
    && tf' == tf.(escrowCounter := e.id, escrows := tf.escrows[e.id := e],
                  feeConfigs := tf.feeConfigs[e.id := FeeConfig(tf.treasury, tf.feeBps)])
  }

  lemma OpenDid(w: World, depositor: Address, beneficiary: Address, amount: i128, ms: Vec<Milestone>)
    requires OpenEscrow(w, depositor, beneficiary, amount, ms).Ok?
    ensures
      var w' := OpenEscrow(w, depositor, beneficiary, amount, ms).value;
      && w'.env == w.env && w'.log == w.log
      && OpenWrites(w.tf, w'.tf, EscrowRecord(w'.tf.escrowCounter, depositor, beneficiary, amount, Active, ms))
  {
    hide Move;
  }

  lemma OpenedKeys(tf: Store, tf': Store, e: EscrowRecord)
    requires KeysOk(tf) && OpenWrites(tf, tf', e)
    ensures KeysOk(tf') && e.id !in tf.escrows && e.id !in tf.disputes && e.id !in tf.escrowReleased
    ensures forall i: u32 :: MilestoneKey(e.id, i) !in tf.milestoneReleased
  {
  }

  lemma OpenedView(now: u32, tf: Store, tf': Store, e: EscrowRecord)
    requires OpenWrites(tf, tf', e) && tf.feeBps <= MAX_FEE_BPS
    requires e.id !in tf.disputes && e.id !in tf.escrowReleased
    requires forall i: u32 :: MilestoneKey(e.id, i) !in tf.milestoneReleased
    requires e.amount > 0 && (e.milestones != [] ==> SeqSum(Amounts(e.milestones)) == e.amount)
    requires forall i :: 0 <= i < |e.milestones| ==> e.milestones[i].amount > 0
    ensures ViewOk(now, ViewOf(tf', e.id))
  {
    SeqSumZero(PerMilestone(tf', e.id));
  }

  lemma OpenKeeps(w: World, depositor: Address, beneficiary: Address, amount: i128, ms: Vec<Milestone>)
    requires EscrowsOk(w.env.sequence, w.tf) && OpenEscrow(w, depositor, beneficiary, amount, ms).Ok?
    requires amount > 0 && (ms != [] ==> SeqSum(Amounts(ms)) == amount)
    requires forall i :: 0 <= i < |ms| ==> ms[i].amount > 0
    ensures
      var w' := OpenEscrow(w, depositor, beneficiary, amount, ms).value;
      w'.env == w.env && EscrowsOk(w'.env.sequence, w'.tf)
  {
    hide OpenEscrow, ViewOk, ViewOf;
    OpenDid(w, depositor, beneficiary, amount, ms);
    var tf, tf' := w.tf, OpenEscrow(w, depositor, beneficiary, amount, ms).value.tf;
    var e := EscrowRecord(tf'.escrowCounter, depositor, beneficiary, amount, Active, ms);
    OpenedKeys(tf, tf', e);
    OpenedView(w.env.sequence, tf, tf', e);
    hide KeysOk;
    forall id | id in tf'.escrows ensures ViewOk(w.env.sequence, ViewOf(tf', id)) {
      if id != e.id {
        EscrowIsOk(w.env.sequence, tf, id);
        ViewFrame(tf, tf', id);
      }
    }
  }

  lemma CreateKeeps(w: World, depositor: Address, beneficiary: Address, amount: i128)
    requires EscrowsOk(w.env.sequence, w.tf) && CreateEscrow(w, depositor, beneficiary, amount).Ok?
    ensures
      var w' := CreateEscrow(w, depositor, beneficiary, amount).value;
      EscrowsOk(w'.env.sequence, w'.tf)
  {
    OpenKeeps(w, depositor, beneficiary, amount, []);
  }

  lemma InitKeeps(w: World, depositor: Address, beneficiary: Address, ms: Vec<Milestone>)
    requires EscrowsOk(w.env.sequence, w.tf) && InitEscrow(w, depositor, beneficiary, ms).Ok?
    ensures
      var w' := InitEscrow(w, depositor, beneficiary, ms).value;
      EscrowsOk(w'.env.sequence, w'.tf)
  {
    hide EscrowsOk, OpenEscrow;
    MilestoneTotalExact(ms);
    OpenKeeps(w, depositor, beneficiary, MilestoneTotal(ms).value, ms);
  }

  // ---- Release ----

  ghost function Released(v: View, index: int, gross: int): View
    requires 0 <= index < |v.escrow.milestones| == |v.perMilestone|
  {
    var ms := v.escrow.milestones;
    var e := v.escrow.(
      milestones := ms[index := ms[index].(approved := true)],
      status := if v.released + gross == v.escrow.amount then Settled else v.escrow.status);
    v.(escrow := e, released := v.released + gross,
       perMilestone := v.perMilestone[index := v.perMilestone[index] + gross])
  }

  /** What the checks of a tranche establish. */
  ghost predicate TrancheChecked(w: World, id: u64, index: u32, gross: i128, caller: Address, t: Tranche)
  {
    && caller != w.env.self && !w.tf.paused && gross > 0
    && id in w.tf.escrows && id in w.tf.feeConfigs
    && var e := w.tf.escrows[id];
    && caller == e.depositor && e.status == Active
    && index < |e.milestones|
    && e.milestones[index].releaseTime <= w.env.sequence
    && t.milestoneReleased == MilestoneReleasedOf(w.tf, id, index) + gross <= e.milestones[index].amount
    && t.escrowReleased == EscrowReleasedOf(w.tf, id) + gross <= e.amount
  }

  /** How a tranche is priced: the difference of two cumulative fees. */
  ghost predicate TranchePriced(tf: Store, id: u64, gross: i128, t: Tranche)
  {
    && gross > 0 && id in tf.escrows && id in tf.feeConfigs
    && var before, after := EscrowReleasedOf(tf, id), t.escrowReleased;
    && after == before + gross <= tf.escrows[id].amount
    && var bps := tf.feeConfigs[id].feeBps;
    && CumulativeFee(before, bps).Ok? && CumulativeFee(after, bps).Ok?
    && t.fee == CumulativeFee(after, bps).value - CumulativeFee(before, bps).value
    && t.fee + t.payout == gross
  }

  lemma PriceTrancheChecks(w: World, id: u64, index: u32, gross: i128, caller: Address)
    requires PriceTranche(w, id, index, gross, caller).Ok?
    ensures TrancheChecked(w, id, index, gross, caller, PriceTranche(w, id, index, gross, caller).value)
    ensures TranchePriced(w.tf, id, gross, PriceTranche(w, id, index, gross, caller).value)
  {
    hide CumulativeFee;
  }

  /** What a successful release did: the booked tranche, paid in two transfers. */
  lemma ReleaseDid(w: World, id: u64, index: u32, gross: i128, caller: Address) returns (t: Tranche)
    requires Release(w, id, index, gross, caller).Ok?
    ensures PriceTranche(w, id, index, gross, caller) == Ok(t)
    ensures TrancheChecked(w, id, index, gross, caller, t)
    ensures
      var w' := Release(w, id, index, gross, caller).value;
      var beneficiary, treasury := w.tf.escrows[id].beneficiary, w.tf.feeConfigs[id].treasury;
      var paid := TryTransfer(w.tok, w.env.self, beneficiary, t.payout);
      && paid.Ok? && TryTransfer(paid.value, w.env.self, treasury, t.fee) == Ok(w'.tok)
      && w'.tf == BookTranche(w.tf, id, index, t)
      && w'.env == w.env
      && w'.log == w.log + [TrancheReleased(id, index, gross, t.fee, t.payout, t.milestoneReleased,
                                            t.escrowReleased, beneficiary, treasury)]
  {
    hide PriceTranche, TryTransfer, BookTranche;
    t := PriceTranche(w, id, index, gross, caller).value;
    PriceTrancheChecks(w, id, index, gross, caller);
  }

  /** The effect of booking a tranche on the views: one changes, as `Released` says. */
  lemma BookTrancheViews(tf: Store, id: u64, index: u32, gross: i128, t: Tranche)
    requires KeysOk(tf) && id in tf.escrows && index < |tf.escrows[id].milestones|
    requires t.milestoneReleased == MilestoneReleasedOf(tf, id, index) + gross
    requires t.escrowReleased == EscrowReleasedOf(tf, id) + gross
    ensures
      var tf' := BookTranche(tf, id, index, t);
      && KeysOk(tf') && tf'.escrows.Keys == tf.escrows.Keys
      && ViewOf(tf', id) == Released(ViewOf(tf, id), index, gross)
      && forall k :: k in tf.escrows && k != id ==> ViewOf(tf', k) == ViewOf(tf, k)
  {
    var tf' := BookTranche(tf, id, index, t);
    BookedView(tf, id, index, gross, t);
    BookedKeys(tf, id, index, t);
    hide Released, ViewOf, KeysOk;
    forall k | k in tf.escrows && k != id ensures ViewOf(tf', k) == ViewOf(tf, k) {
      ViewFrame(tf, tf', k);
    }
  }

  lemma BookedKeys(tf: Store, id: u64, index: u32, t: Tranche)
    requires KeysOk(tf) && id in tf.escrows && index < |tf.escrows[id].milestones|
    ensures KeysOk(BookTranche(tf, id, index, t)) && BookTranche(tf, id, index, t).escrows.Keys == tf.escrows.Keys
    ensures tf.feeConfigs.Keys == tf.escrows.Keys
  {
  }

  lemma BookedView(tf: Store, id: u64, index: u32, gross: i128, t: Tranche)
    requires KeysOk(tf) && id in tf.escrows && index < |tf.escrows[id].milestones|
    requires t.milestoneReleased == MilestoneReleasedOf(tf, id, index) + gross
    requires t.escrowReleased == EscrowReleasedOf(tf, id) + gross
    ensures ViewOf(BookTranche(tf, id, index, t), id) == Released(ViewOf(tf, id), index, gross)
  {
    var tf' := BookTranche(tf, id, index, t);
    assert PerMilestone(tf', id) == PerMilestone(tf, id)[index := PerMilestone(tf, id)[index] + gross];
  }

  /** Once the milestone check has passed, the escrow-level check cannot fail; the escrow settles
      exactly when the tranche completes the last milestone. */
  lemma TrancheFits(now: u32, v: View, index: nat, gross: int)
    requires ViewOk(now, v) && v.escrow.status == Active && index < |v.escrow.milestones|
    requires 0 < gross && v.perMilestone[index] + gross <= v.escrow.milestones[index].amount
    ensures v.released + gross <= v.escrow.amount
    ensures v.released + gross == v.escrow.amount <==>
              Released(v, index, gross).perMilestone == Amounts(v.escrow.milestones)
    ensures SeqSum(Released(v, index, gross).perMilestone) == v.released + gross
  {
    SeqSumUpdate(v.perMilestone, index, v.perMilestone[index] + gross);
    SeqSumBounded(Released(v, index, gross).perMilestone, Amounts(v.escrow.milestones));
  }

  lemma ReleasedOk(now: u32, v: View, index: nat, gross: int)
    requires ViewOk(now, v) && v.escrow.status == Active && index < |v.escrow.milestones|
    requires 0 < gross && v.perMilestone[index] + gross <= v.escrow.milestones[index].amount
    requires v.escrow.milestones[index].releaseTime <= now
    ensures ViewOk(now, Released(v, index, gross))
  {
    TrancheFits(now, v, index, gross);
    assert Amounts(Released(v, index, gross).escrow.milestones) == Amounts(v.escrow.milestones);
  }

  lemma ReleaseKeeps(w: World, id: u64, index: u32, gross: i128, caller: Address)
    requires EscrowsOk(w.env.sequence, w.tf) && Release(w, id, index, gross, caller).Ok?
    ensures
      var w' := Release(w, id, index, gross, caller).value;
      EscrowsOk(w'.env.sequence, w'.tf)
  {
    hide Release, PriceTranche, TryTransfer, EscrowsOk, ViewOk, PerMilestone;
    var t := ReleaseDid(w, id, index, gross, caller);
    assert KeysOk(w.tf) by { KeysAreOk(w.env.sequence, w.tf); }
    BookTrancheViews(w.tf, id, index, gross, t);
    EscrowIsOk(w.env.sequence, w.tf, id);
    PerMilestoneAt(w.tf, id, index);
    ReleasedOk(w.env.sequence, ViewOf(w.tf, id), index, gross);
    OtherViewsOk(w.env.sequence, w.tf, BookTranche(w.tf, id, index, t), id);
  }

  lemma KeysAreOk(now: u32, tf: Store)
    requires EscrowsOk(now, tf)
    ensures KeysOk(tf)
  {
  }

  lemma PerMilestoneAt(tf: Store, id: u64, i: u32)
    requires id in tf.escrows && i < |tf.escrows[id].milestones| && id in tf.feeConfigs
    ensures ViewOf(tf, id).perMilestone[i] == MilestoneReleasedOf(tf, id, i)
  {
  }

  lemma OtherViewsOk(now: u32, tf: Store, tf': Store, id: u64)
    requires EscrowsOk(now, tf) && KeysOk(tf') && tf'.escrows.Keys == tf.escrows.Keys
    requires tf'.feeBps == tf.feeBps && tf'.slashBps == tf.slashBps
    requires id in tf.escrows && ViewOk(now, ViewOf(tf', id))
    requires forall k :: k in tf.escrows && k != id ==> ViewOf(tf', k) == ViewOf(tf, k)
    ensures EscrowsOk(now, tf')
  {
    hide ViewOk, ViewOf;
    forall k | k in tf'.escrows ensures ViewOk(now, ViewOf(tf', k)) {
      assert ViewOk(now, ViewOf(tf, k));
    }
  }

  // ---- Disputes ----

  /** A step that rewrites the status and the dispute of one escrow only. */
  lemma OneEscrowChanged(now: u32, tf: Store, tf': Store, id: u64, status: EscrowStatus, d: DisputeRecord)
    requires EscrowsOk(now, tf) && id in tf.escrows
    requires tf'.feeConfigs == tf.feeConfigs && tf'.escrowCounter == tf.escrowCounter
    requires tf'.feeBps == tf.feeBps && tf'.slashBps == tf.slashBps
    requires tf'.escrowReleased == tf.escrowReleased && tf'.milestoneReleased == tf.milestoneReleased
    requires tf'.escrows == tf.escrows[id := tf.escrows[id].(status := status)]
    requires tf'.disputes == tf.disputes[id := d]
    requires StatusOk(ViewOf(tf, id).(escrow := tf.escrows[id].(status := status), dispute := Some(d)))
    ensures EscrowsOk(now, tf')
  {
    hide StatusOk, MilestonesOk, ViewOf;
    OthersUnchanged(tf, tf', id);
    assert ViewOk(now, ViewOf(tf, id));
    ChangedViewOk(now, tf, tf', id);
  }

  lemma OthersUnchanged(tf: Store, tf': Store, id: u64)
    requires tf.feeConfigs.Keys == tf.escrows.Keys && id in tf.escrows && id in tf'.escrows
    requires tf'.feeConfigs == tf.feeConfigs && tf'.escrows == tf.escrows[id := tf'.escrows[id]]
    requires tf'.escrowReleased == tf.escrowReleased && tf'.milestoneReleased == tf.milestoneReleased
    requires id in tf'.disputes && tf'.disputes == tf.disputes[id := tf'.disputes[id]]
    ensures forall k :: k in tf.escrows && k != id ==> ViewOf(tf', k) == ViewOf(tf, k)
  {
    hide ViewOf;
    forall k | k in tf.escrows && k != id ensures ViewOf(tf', k) == ViewOf(tf, k) {
      SameCounters(tf, tf', k);
    }
  }

  lemma ChangedViewOk(now: u32, tf: Store, tf': Store, id: u64)
    requires id in tf.escrows && id in tf.feeConfigs && tf'.feeConfigs == tf.feeConfigs
    requires tf'.escrowReleased == tf.escrowReleased && tf'.milestoneReleased == tf.milestoneReleased
    requires id in tf'.escrows && tf'.escrows[id] == tf.escrows[id].(status := tf'.escrows[id].status)
    requires MilestonesOk(now, ViewOf(tf, id))
    requires StatusOk(ViewOf(tf, id).(escrow := tf'.escrows[id], dispute := Lookup(tf'.disputes, id)))
    ensures ViewOk(now, ViewOf(tf', id))
  {
    assert PerMilestone(tf', id) == PerMilestone(tf, id);
  }

  lemma SameCounters(tf: Store, tf': Store, id: u64)
    requires id in tf.escrows && id in tf.feeConfigs && id in tf'.escrows && tf'.escrows[id] == tf.escrows[id]
    requires tf'.feeConfigs == tf.feeConfigs && Lookup(tf'.disputes, id) == Lookup(tf.disputes, id)
    requires tf'.escrowReleased == tf.escrowReleased && tf'.milestoneReleased == tf.milestoneReleased
    ensures ViewOf(tf', id) == ViewOf(tf, id)
  {
    ViewFrame(tf, tf', id);
  }

  lemma StatusOfEscrow(now: u32, tf: Store, id: u64)
    requires EscrowsOk(now, tf) && id in tf.escrows
    ensures id in tf.feeConfigs && StatusOk(ViewOf(tf, id))
  {
    assert ViewOk(now, ViewOf(tf, id));
  }

  lemma RaiseDisputeKeeps(w: World, id: u64, caller: Address)
    requires EscrowsOk(w.env.sequence, w.tf) && RaiseDispute(w, id, caller).Ok?
    ensures
      var w' := RaiseDispute(w, id, caller).value;
      EscrowsOk(w'.env.sequence, w'.tf)
  {
    hide EscrowsOk, PerMilestone;
    var tf' := RaiseDispute(w, id, caller).value.tf;
    StatusOfEscrow(w.env.sequence, w.tf, id);
    OneEscrowChanged(w.env.sequence, w.tf, tf', id, Disputed, tf'.disputes[id]);
  }

  /** What a successful resolution did: jurors slashed, dispute ruled, remainder paid. */
  lemma ResolveDid(w: World, id: u64) returns (b: Bench, remaining: i128)
    requires ResolveDispute(w, id).Ok?
    ensures ReadyToResolve(w, id) == Ok(VotersOf(w.tf, id))
    ensures id in w.tf.escrows && id in w.tf.disputes && !w.tf.paused && VotersOf(w.tf, id) != []
    ensures !w.tf.disputes[id].resolved && w.tf.disputes[id].revealDeadline <= w.env.sequence
    ensures SlashLosers(BenchOf(w), w.tf.votes, id, VotersOf(w.tf, id), Ruling(w.tf, id), w.tf.slashBps) == Ok(b)
    ensures remaining == w.tf.escrows[id].amount - EscrowReleasedOf(w.tf, id)
    ensures
      var w' := ResolveDispute(w, id).value;
      var ruling, e, d := Ruling(w.tf, id), w.tf.escrows[id], w.tf.disputes[id];
      var recipient := if ruling then e.depositor else e.beneficiary;
      && w'.env == w.env
      && Ok(w'.tok) == (if remaining > 0 then Move(w.tok, w.env.self, recipient, remaining) else Ok(w.tok))
      && w'.tf == w.tf.(stakes := b.stakes, slashCounts := b.slashCounts,
                        disputes := w.tf.disputes[id := d.(resolved := true, rulingForDepositor := ruling)],
                        escrows := w.tf.escrows[id := e.(status := Settled)])
      && w'.log == b.log + [DisputePaid(id, ruling, recipient, if remaining > 0 then remaining else 0, w.env.sequence)]
  {
    hide SlashLosers, Ruling, Move;
    b := SlashLosers(BenchOf(w), w.tf.votes, id, VotersOf(w.tf, id), Ruling(w.tf, id), w.tf.slashBps).value;
    remaining := w.tf.escrows[id].amount - EscrowReleasedOf(w.tf, id);
  }

  lemma ResolveDisputeKeeps(w: World, id: u64)
    requires EscrowsOk(w.env.sequence, w.tf) && ResolveDispute(w, id).Ok?
    ensures
      var w' := ResolveDispute(w, id).value;
      EscrowsOk(w'.env.sequence, w'.tf)
  {
    hide ResolveDispute, ReadyToResolve, SlashLosers, Ruling, Move, EscrowsOk, PerMilestone;
    var b, remaining := ResolveDid(w, id);
    var tf' := ResolveDispute(w, id).value.tf;
    StatusOfEscrow(w.env.sequence, w.tf, id);
    OneEscrowChanged(w.env.sequence, w.tf, tf', id, Settled, tf'.disputes[id]);
  }

  // ---- All steps ----

  lemma StepKeepsEscrows(w: World, a: Action)
    requires EscrowsOk(w.env.sequence, w.tf)
    ensures EscrowsOk(Step(w, a).env.sequence, Step(w, a).tf)
  {
    hide Release, InitEscrow, CreateEscrow, ResolveDispute, RaiseDispute, EscrowsOk;
    if Apply(w, a).Ok? {
      match a
      case DoCreateEscrow(depositor, beneficiary, amount) => CreateKeeps(w, depositor, beneficiary, amount);
      case DoInitEscrow(depositor, beneficiary, ms) => InitKeeps(w, depositor, beneficiary, ms);
      case DoRelease(id, index, gross, caller) => ReleaseKeeps(w, id, index, gross, caller);
      case DoRaiseDispute(id, caller) => RaiseDisputeKeeps(w, id, caller);
      case DoResolveDispute(id) => ResolveDisputeKeeps(w, id);
      case _ =>
        ConfigBounds(w.env.sequence, w.tf);
        OthersSpareEscrows(w, a);
        EscrowsFrame(w.env.sequence, w.tf, Step(w, a).env.sequence, Step(w, a).tf);
    }
  }

  /** What the accounting of escrows depends on, unchanged. */
  ghost predicate SameEscrows(w: World, w': World)
  {
    && w.env.sequence <= w'.env.sequence
    && w'.tf.escrows == w.tf.escrows && w'.tf.feeConfigs == w.tf.feeConfigs && w'.tf.disputes == w.tf.disputes
    && w'.tf.escrowReleased == w.tf.escrowReleased && w'.tf.milestoneReleased == w.tf.milestoneReleased
    && w'.tf.escrowCounter == w.tf.escrowCounter && w'.tf.slashBps == w.tf.slashBps
    && (w.tf.feeBps <= MAX_FEE_BPS ==> w'.tf.feeBps <= MAX_FEE_BPS)
  }

  lemma VotesSpareEscrows(w: World, a: Action)
    requires a.DoCommitVote? || a.DoRevealVote?
    ensures SameEscrows(w, Step(w, a))
  {
    hide HashVote;
  }

  lemma StakesSpareEscrows(w: World, a: Action)
    requires a.DoStake? || a.DoUnstake? || a.DoToken?
    ensures SameEscrows(w, Step(w, a))
  {
    hide Move, Invoke;
  }

  lemma OthersSpareEscrows(w: World, a: Action)
    requires !a.DoCreateEscrow? && !a.DoInitEscrow? && !a.DoRelease? && !a.DoRaiseDispute? && !a.DoResolveDispute?
    ensures SameEscrows(w, Step(w, a))
  {
    hide Stake, Unstake, OutsideTokenCall, CommitVote, RevealVote;
    if a.DoCommitVote? || a.DoRevealVote? {
      VotesSpareEscrows(w, a);
    } else if a.DoStake? || a.DoUnstake? || a.DoToken? {
      StakesSpareEscrows(w, a);
    }
  }
}
