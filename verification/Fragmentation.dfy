/** Splitting and reordering tranches changes nothing: only the per-milestone totals matter. */
module Fragmentation {
  import opened Base
  import opened Sums
  import opened FeeMath
  import opened AbundanceToken
  import opened AbundanceProofs
  import opened TrustFlow
  import opened EscrowInvariants
  import opened Solvency
  import opened Conservation
  import opened History
  import opened Runs
  import opened Guarantees

  datatype TrancheCall = TrancheCall(index: u32, gross: i128) | Wait(until: u32)

  /** A sequence of releases on one escrow, all of which must succeed, with the clock advancing
      between them. */
  function Releases(w: World, id: u64, caller: Address, ts: seq<TrancheCall>): Result<World>
    decreases |ts|
  {
    if ts == [] then Ok(w)
    else
      var call := if ts[0].Wait? then DoAdvance(ts[0].until) else DoRelease(id, ts[0].index, ts[0].gross, caller);
      var w' :- Apply(w, call);
      Releases(w', id, caller, ts[1..])
  }

  /** The total released on one milestone. */
  function Gross(ts: seq<TrancheCall>, index: u32): int
    decreases |ts|
  {
    if ts == [] then 0
    else (if ts[0].TrancheCall? && ts[0].index == index then ts[0].gross else 0) + Gross(ts[1..], index)
  }

  ghost predicate Solid(w: World)
  {
    EscrowsOk(w.env.sequence, w.tf) && TokenInv(w.tok)
  }

  /** Storage after the tranches `ts`, described by their totals alone. */
  ghost predicate Booked(tf: Store, tf': Store, id: u64, ts: seq<TrancheCall>)
  {
    && id in tf.escrows && id in tf'.escrows
    && tf' == tf.(escrows := tf'.escrows, milestoneReleased := tf'.milestoneReleased,
                  escrowReleased := tf'.escrowReleased)
    && tf'.escrows == tf.escrows[id := tf'.escrows[id]]
    && var e, e' := tf.escrows[id], tf'.escrows[id];
    && e' == e.(milestones := e'.milestones, status := e'.status) && |e'.milestones| == |e.milestones|
    && (forall i: u32 :: i < |e.milestones| ==>
          && Gross(ts, i) >= 0
          && e'.milestones[i] == e.milestones[i].(approved := e.milestones[i].approved || Gross(ts, i) > 0))
    && (forall i: u32 :: i >= |e.milestones| ==> Gross(ts, i) == 0)
    && var before, after := EscrowReleasedOf(tf, id), EscrowReleasedOf(tf', id);
    && before <= after
    && e'.status == (if after > before && after == e.amount then Settled else e.status)
    && tf'.escrowReleased == (if after > before then tf.escrowReleased[id := after] else tf.escrowReleased)
    && CountersBooked(tf.milestoneReleased, tf'.milestoneReleased, id, ts)
  }

  ghost predicate CountersBooked(m: map<MilestoneKey, i128>, m': map<MilestoneKey, i128>, id: u64, ts: seq<TrancheCall>)
  {
    && (forall k: MilestoneKey :: k in m' <==> k in m || (k.escrowId == id && Gross(ts, k.index) > 0))
    && (forall k: MilestoneKey :: k in m' ==>
          m'[k] == GetOr(m, k, 0) + (if k.escrowId == id then Gross(ts, k.index) else 0))
  }

  /** Balances after the contract paid `payout` and `fee`, whoever the payees are. */
  ghost predicate Paid(t: TokenState, t': TokenState, self: Address, beneficiary: Address, treasury: Address,
                       payout: int, fee: int)
  {
    && t'.allowances == t.allowances
    && forall a :: Balance(t', a) == Balance(t, a)
                     + (if a == beneficiary then payout else 0) + (if a == treasury then fee else 0)
                     - (if a == self then payout + fee else 0)
  }

  lemma PayOne(t: TokenState, self: Address, to: Address, amount: i128)
    requires TokenInv(t) && amount >= 0 && TryTransfer(t, self, to, amount).Ok?
    ensures
      var t' := TryTransfer(t, self, to, amount).value;
      && TokenInv(t') && t'.allowances == t.allowances
      && forall a ::
           Balance(t', a) == Balance(t, a) + (if a == to then amount else 0) - (if a == self then amount else 0)
  {
    MoveEffect(t, self, to, amount);
  }

  /** One release moves the tokens its price says. */
  lemma ReleasePays(w: World, id: u64, index: u32, gross: i128, caller: Address)
    requires Solid(w) && Release(w, id, index, gross, caller).Ok?
    ensures
      var w' := Release(w, id, index, gross, caller).value;
      && id in w.tf.escrows && id in w.tf.feeConfigs && Solid(w') && w'.env == w.env
      && var before, bps := EscrowReleasedOf(w.tf, id), w.tf.feeConfigs[id].feeBps;
      && before >= 0 && gross > 0 && EscrowReleasedOf(w'.tf, id) == before + gross
      && var fee := FloorFee(before + gross, bps) - FloorFee(before, bps);
      && Paid(w.tok, w'.tok, w.env.self, w.tf.escrows[id].beneficiary, w.tf.feeConfigs[id].treasury, gross - fee, fee)
  {
    hide Release, PriceTranche, TryTransfer, EscrowsOk, FloorFee;
    var t := ReleaseDid(w, id, index, gross, caller);
    TranchePrices(w, id, index, gross, caller);
    var beneficiary, treasury := w.tf.escrows[id].beneficiary, w.tf.feeConfigs[id].treasury;
    PayOne(w.tok, w.env.self, beneficiary, t.payout);
    PayOne(TryTransfer(w.tok, w.env.self, beneficiary, t.payout).value, w.env.self, treasury, t.fee);
    ReleaseKeeps(w, id, index, gross, caller);
  }

  /** One release books its tranche. */
  lemma ReleaseBooks(w: World, id: u64, index: u32, gross: i128, caller: Address)
    requires Release(w, id, index, gross, caller).Ok?
    ensures Booked(w.tf, Release(w, id, index, gross, caller).value.tf, id, [TrancheCall(index, gross)])
    ensures w.tf.escrows[id].status == Active
  {
    hide Release, PriceTranche, TryTransfer;
    var t := ReleaseDid(w, id, index, gross, caller);
    forall i: u32 ensures Gross([TrancheCall(index, gross)], i) == if i == index then gross else 0 {
      assert [TrancheCall(index, gross)][1..] == [];
    }
    hide Gross;
  }

  lemma BookedTwice(a: Store, b: Store, c: Store, id: u64, first: TrancheCall, rest: seq<TrancheCall>)
    requires Booked(a, b, id, [first]) && Booked(b, c, id, rest)
    requires b.escrows[id].status == Active || c == b
    requires EscrowReleasedOf(a, id) < EscrowReleasedOf(b, id)
    requires a.escrows[id].status == Active
    ensures Booked(a, c, id, [first] + rest)
  {
    forall i: u32 ensures Gross([first] + rest, i) == Gross([first], i) + Gross(rest, i) {
      assert ([first] + rest)[1..] == rest;
    }
    hide Gross;
    assert forall i: u32 :: Gross([first], i) >= 0 && Gross(rest, i) >= 0;
    CountersTwice(a.milestoneReleased, b.milestoneReleased, c.milestoneReleased, id, [first], rest, [first] + rest);
    hide CountersBooked;
  }

  lemma CountersTwice(a: map<MilestoneKey, i128>, b: map<MilestoneKey, i128>, c: map<MilestoneKey, i128>, id: u64,
                      ts: seq<TrancheCall>, us: seq<TrancheCall>, all: seq<TrancheCall>)
    requires CountersBooked(a, b, id, ts) && CountersBooked(b, c, id, us)
    requires forall i: u32 :: Gross(ts, i) >= 0 && Gross(us, i) >= 0 && Gross(all, i) == Gross(ts, i) + Gross(us, i)
    ensures CountersBooked(a, c, id, all)
  {
    hide Gross;
  }

  /** The net effect of a successful sequence. */
  lemma {:induction false} ReleasesEffect(w: World, id: u64, caller: Address, ts: seq<TrancheCall>)
    requires Solid(w) && id in w.tf.escrows && id in w.tf.feeConfigs && Releases(w, id, caller, ts).Ok?
    ensures
      var w' := Releases(w, id, caller, ts).value;
      && Solid(w') && w'.env.self == w.env.self && Booked(w.tf, w'.tf, id, ts)
      && var before, after, bps := EscrowReleasedOf(w.tf, id), EscrowReleasedOf(w'.tf, id), w.tf.feeConfigs[id].feeBps;
      && 0 <= before <= after
      && var fee := FloorFee(after, bps) - FloorFee(before, bps);
      && Paid(w.tok, w'.tok, w.env.self, w.tf.escrows[id].beneficiary, w.tf.feeConfigs[id].treasury,
              after - before - fee, fee)
    decreases |ts|
  {
    hide Solid, Booked, FloorFee, Release;
    if ts == [] {
      NothingBooked(w, id);
    } else if ts[0].Wait? {
      var mid := w.(env := w.env.(sequence := ts[0].until));
      WaitingIsSolid(w, ts[0].until);
      ReleasesEffect(mid, id, caller, ts[1..]);
      WaitBooksNothing(w.tf, Releases(w, id, caller, ts).value.tf, id, ts);
    } else {
      var mid := Release(w, id, ts[0].index, ts[0].gross, caller).value;
      ReleasePays(w, id, ts[0].index, ts[0].gross, caller);
      ReleaseBooks(w, id, ts[0].index, ts[0].gross, caller);
      BookedKeeps(w.tf, mid.tf, id, [ts[0]]);
      ReleasesEffect(mid, id, caller, ts[1..]);
      var w' := Releases(w, id, caller, ts).value;
      ActiveOrIdle(mid, id, caller, ts[1..]);
      assert TrancheCall(ts[0].index, ts[0].gross) == ts[0] && [ts[0]] + ts[1..] == ts;
      BookedTwice(w.tf, mid.tf, w'.tf, id, ts[0], ts[1..]);
    }
  }

  lemma WaitingIsSolid(w: World, until: u32)
    requires Solid(w) && w.env.sequence <= until
    ensures Solid(w.(env := w.env.(sequence := until)))
  {
    hide EscrowsOk;
    ConfigBounds(w.env.sequence, w.tf);
    EscrowsFrame(w.env.sequence, w.tf, until, w.tf);
  }

  lemma WaitBooksNothing(tf: Store, tf': Store, id: u64, ts: seq<TrancheCall>)
    requires ts != [] && ts[0].Wait? && Booked(tf, tf', id, ts[1..])
    ensures Booked(tf, tf', id, ts)
  {
    assert forall i: u32 :: Gross(ts, i) == Gross(ts[1..], i);
    hide Gross;
  }

  /** Tranches are released only while the escrow is active. */
  lemma {:induction false} ActiveOrIdle(w: World, id: u64, caller: Address, ts: seq<TrancheCall>)
    requires id in w.tf.escrows && Releases(w, id, caller, ts).Ok?
    ensures w.tf.escrows[id].status == Active || Releases(w, id, caller, ts).value.tf == w.tf
    decreases |ts|
  {
    hide Release;
    if ts != [] {
      if ts[0].Wait? {
        ActiveOrIdle(w.(env := w.env.(sequence := ts[0].until)), id, caller, ts[1..]);
      } else {
        ReleaseBooks(w, id, ts[0].index, ts[0].gross, caller);
      }
    }
  }

  lemma NothingBooked(w: World, id: u64)
    requires Solid(w) && id in w.tf.escrows && id in w.tf.feeConfigs
    ensures Booked(w.tf, w.tf, id, []) && EscrowReleasedOf(w.tf, id) >= 0
  {
    hide EscrowsOk;
    EscrowBounds(w.env.sequence, w.tf, id);
  }

  lemma BookedKeeps(tf: Store, tf': Store, id: u64, ts: seq<TrancheCall>)
    requires Booked(tf, tf', id, ts)
    ensures id in tf'.escrows && tf'.feeConfigs == tf.feeConfigs
    ensures tf'.escrows[id].beneficiary == tf.escrows[id].beneficiary
  {
  }

  lemma SameCounterMaps(m: map<MilestoneKey, i128>, x: map<MilestoneKey, i128>, y: map<MilestoneKey, i128>, id: u64,
                        ts: seq<TrancheCall>, us: seq<TrancheCall>)
    requires CountersBooked(m, x, id, ts) && CountersBooked(m, y, id, us)
    requires forall i: u32 :: Gross(ts, i) == Gross(us, i)
    ensures x == y
  {
    hide Gross;
  }

  /** Same totals, same storage. */
  lemma BookedDetermined(tf: Store, x: Store, y: Store, id: u64, ts: seq<TrancheCall>, us: seq<TrancheCall>)
    requires Booked(tf, x, id, ts) && Booked(tf, y, id, us) && forall i: u32 :: Gross(ts, i) == Gross(us, i)
    requires EscrowReleasedOf(x, id) == EscrowReleasedOf(y, id)
    ensures x == y
  {
    SameCounterMaps(tf.milestoneReleased, x.milestoneReleased, y.milestoneReleased, id, ts, us);
    hide CountersBooked;
    var mx, my := x.escrows[id].milestones, y.escrows[id].milestones;
    forall i | 0 <= i < |mx| ensures mx[i] == my[i] {
      var k: u32 := i;
      assert Gross(ts, k) == Gross(us, k);
    }
    assert mx == my;
  }

  /** Any two successful sequences from one reachable world, spread over whatever ledgers, with equal
      totals per milestone, end in the same storage and the same balance of every address. */
  lemma OrderAndSplitIrrelevant(w0: World, acts: seq<Action>, id: u64, caller: Address,
                                ts: seq<TrancheCall>, us: seq<TrancheCall>)
    requires Initial(w0) && id in Run(w0, acts).tf.escrows
    requires Releases(Run(w0, acts), id, caller, ts).Ok? && Releases(Run(w0, acts), id, caller, us).Ok?
    requires forall i: u32 :: Gross(ts, i) == Gross(us, i)
    ensures
      var x, y := Releases(Run(w0, acts), id, caller, ts).value, Releases(Run(w0, acts), id, caller, us).value;
      x.tf == y.tf && x.tok.allowances == y.tok.allowances && forall a :: Balance(x.tok, a) == Balance(y.tok, a)
  {
    hide Initial, Run, WorldOk, Booked, FloorFee, Releases, Gross, Solid, Paid;
    var w := Reached(w0, acts);
    WorldIsSolid(w);
    ReleasesEffect(w, id, caller, ts);
    ReleasesEffect(w, id, caller, us);
    var x, y := Releases(w, id, caller, ts).value, Releases(w, id, caller, us).value;
    SameLength(w.tf, x.tf, id, ts);
    SameLength(w.tf, y.tf, id, us);
    SameReleased(w.tf, x, y, id, ts, us);
    BookedDetermined(w.tf, x.tf, y.tf, id, ts, us);
    var before, after, bps := EscrowReleasedOf(w.tf, id), EscrowReleasedOf(x.tf, id), w.tf.feeConfigs[id].feeBps;
    var fee := FloorFee(after, bps) - FloorFee(before, bps);
    PaidDetermined(w.tok, x.tok, y.tok, w.env.self, w.tf.escrows[id].beneficiary, w.tf.feeConfigs[id].treasury,
                   after - before - fee, fee);
  }

  lemma PaidDetermined(t: TokenState, x: TokenState, y: TokenState, self: Address, beneficiary: Address,
                       treasury: Address, payout: int, fee: int)
    requires Paid(t, x, self, beneficiary, treasury, payout, fee)
    requires Paid(t, y, self, beneficiary, treasury, payout, fee)
    ensures x.allowances == y.allowances && forall a :: Balance(x, a) == Balance(y, a)
  {
  }

  lemma WorldIsSolid(w: World)
    requires WorldOk(w)
    ensures Solid(w) && w.tf.feeConfigs.Keys == w.tf.escrows.Keys
  {
    hide AccountsOk, Margin, HistoryOk;
  }

  /** The milestone counters determine the escrow counter. */
  lemma SameReleased(tf: Store, x: World, y: World, id: u64, ts: seq<TrancheCall>, us: seq<TrancheCall>)
    requires Booked(tf, x.tf, id, ts) && Booked(tf, y.tf, id, us) && forall i: u32 :: Gross(ts, i) == Gross(us, i)
    requires Solid(x) && Solid(y) && id in x.tf.escrows && id in y.tf.escrows
    ensures EscrowReleasedOf(x.tf, id) == EscrowReleasedOf(y.tf, id)
  {
    hide Solid, Booked, EscrowReleasedOf, SeqSum, Gross, PerMilestone, CounterIs;
    CountersSum(x, id);
    CountersSum(y, id);
    CountersAre(tf, x.tf, id, ts);
    CountersAre(tf, y.tf, id, us);
    EqualCounters(tf, PerMilestone(x.tf, id), PerMilestone(y.tf, id), id, ts, us);
  }

  lemma EqualCounters(tf: Store, p: seq<int>, q: seq<int>, id: u64, ts: seq<TrancheCall>, us: seq<TrancheCall>)
    requires |p| == |q| <= U32_MAX && forall i: u32 :: Gross(ts, i) == Gross(us, i)
    requires forall i: u32 :: i < |p| ==> CounterIs(tf, p, id, ts, i) && CounterIs(tf, q, id, us, i)
    ensures p == q
  {
    hide Gross;
    forall i | 0 <= i < |p| ensures p[i] == q[i] {
      assert CounterIs(tf, p, id, ts, i) && CounterIs(tf, q, id, us, i);
    }
  }

  ghost predicate CounterIs(tf: Store, per: seq<int>, id: u64, ts: seq<TrancheCall>, i: u32)
    requires i < |per|
  {
    per[i] == MilestoneReleasedOf(tf, id, i) + Gross(ts, i)
  }

  /** Every counter rose by its total. */
  lemma CountersAre(tf: Store, tf': Store, id: u64, ts: seq<TrancheCall>)
    requires Booked(tf, tf', id, ts)
    ensures id in tf.escrows && |PerMilestone(tf', id)| == |tf.escrows[id].milestones|
    ensures forall i: u32 :: i < |PerMilestone(tf', id)| ==> CounterIs(tf, PerMilestone(tf', id), id, ts, i)
  {
    hide Gross;
  }

  lemma CountersSum(w: World, id: u64)
    requires Solid(w) && id in w.tf.escrows
    ensures SeqSum(PerMilestone(w.tf, id)) == EscrowReleasedOf(w.tf, id)
  {
    assert ViewOk(w.env.sequence, ViewOf(w.tf, id));
  }

  lemma SameLength(tf: Store, tf': Store, id: u64, ts: seq<TrancheCall>)
    requires Booked(tf, tf', id, ts)
    ensures id in tf.escrows && id in tf'.escrows && |tf'.escrows[id].milestones| == |tf.escrows[id].milestones|
  {
  }
}
