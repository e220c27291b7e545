/** Keeper calls whose returned ledger is later than the expiry they leave, and a keeper one ledger too
    late. */
module KeeperScenario {
  import opened Base
  import opened TrustFlow
  import opened Runs
  import opened Keeper
  import opened Scenario

  /** Just initialised, the instance live. */
  function Young(sha256: seq<u8> -> Bytes32, bps: Rate, stake: Stakeable, minTtl: nat): Aging
  {
    Aging(Start(sha256, bps, stake), map[InstanceKey := BUMP_AMOUNT], map[], map[], minTtl)
  }

  function Bumped(): Lifetimes
  {
    map[InstanceKey := BUMP_AMOUNT, EscrowKey(1) := BUMP_AMOUNT, FeesKey(1) := BUMP_AMOUNT]
  }

  lemma NewEscrowBumped(tf: Store, minTtl: nat)
    requires minTtl <= LIFETIME_THRESHOLD && 1 in tf.escrows && 1 in tf.feeConfigs
    ensures
      var keys := {InstanceKey, EscrowKey(1), FeesKey(1)};
      ExtendAll(WithNew(map[InstanceKey := BUMP_AMOUNT], tf, keys, minTtl), tf, 0, keys) == Bumped()
  {
    var keys := {InstanceKey, EscrowKey(1), FeesKey(1)};
    var created := WithNew(map[InstanceKey := BUMP_AMOUNT], tf, keys, minTtl);
    assert created.Keys == keys;
  }

  lemma Created(g: Aging, sha256: seq<u8> -> Bytes32, bps: Rate, stake: Stakeable, minTtl: nat) returns (g': Aging)
    requires g == Young(sha256, bps, stake, minTtl) && minTtl <= LIFETIME_THRESHOLD
    ensures g' == AgingStep(g, Call(DoCreateEscrow(DEPOSITOR, BENEFICIARY, 40_000)))
    ensures g'.w.env == g.w.env && g'.ttl == Bumped()
    ensures JustCreated(g'.w.tf)
  {
    hide Apply, Step, ExtendAll, WithNew, Bumped, Touched, ReadOnly, Usable;
    var a := DoCreateEscrow(DEPOSITOR, BENEFICIARY, 40_000);
    CreateWorks(g.w, sha256, bps, stake);
    NewEscrowBumped(Step(g.w, a).tf, minTtl);
    CreateTouches(g, Step(g.w, a).tf);
    g' := AgingStep(g, Call(a));
  }

  lemma CreateTouches(g: Aging, tf': Store)
    requires InstanceKey in g.ttl && g.ttl[InstanceKey] >= Now(g)
    requires g.w.tf.escrows == map[] && g.w.tf.feeConfigs == map[]
    requires tf'.escrowCounter == 1
    ensures
      var a := DoCreateEscrow(DEPOSITOR, BENEFICIARY, 40_000);
      && Touched(g.w.tf, tf', a) == {InstanceKey, EscrowKey(1), FeesKey(1)}
      && Usable(g, Touched(g.w.tf, tf', a) + ReadOnly(g.w.tf, a))
  {
  }

  predicate JustCreated(tf: Store)
  {
    && tf.escrows == map[1 := EscrowRecord(1, DEPOSITOR, BENEFICIARY, 40_000, Active, [])]
    && tf.feeConfigs.Keys == {1} && tf.escrowReleased == map[] && tf.disputes == map[]
  }

  lemma CreateWorks(w: World, sha256: seq<u8> -> Bytes32, bps: Rate, stake: Stakeable)
    requires w == Start(sha256, bps, stake)
    ensures
      var a := DoCreateEscrow(DEPOSITOR, BENEFICIARY, 40_000);
      var w' := Step(w, a);
      Apply(w, a).Ok? && w'.env == w.env && w'.tf.escrowCounter == 1 && JustCreated(w'.tf)
  {
  }

  /** Create at ledger 0, advance to 1, call the keeper: the call returns one ledger more than the
      expiry of every entry of the escrow. */
  lemma KeeperCallOverstates(sha256: seq<u8> -> Bytes32, bps: Rate, stake: Stakeable, minTtl: nat)
    requires minTtl <= LIFETIME_THRESHOLD
    ensures Initial(Young(sha256, bps, stake, minTtl).w)
    ensures
      var acts := [Call(DoCreateEscrow(DEPOSITOR, BENEFICIARY, 40_000)), Call(DoAdvance(1))];
      var g := AgingRun(Young(sha256, bps, stake, minTtl), acts);
      var g' := AgingStep(g, KeepEscrow(1));
      && 1 in g.w.tf.escrows && Usable(g, KeeperKeys(g.w.tf, 1))
      && Watermark(g.w.env.sequence) == BUMP_AMOUNT + 1
      && EscrowKey(1) in g'.ttl && g'.ttl[EscrowKey(1)] == BUMP_AMOUNT
      && !LiveUntil(g', KeeperKeys(g.w.tf, 1), Watermark(g.w.env.sequence))
  {
    hide Initial, AgingRun, AgingStep, Usable, LiveUntil, KeeperKeys;
    StartIsInitial(sha256, bps, stake);
    var g0 := Young(sha256, bps, stake, minTtl);
    var g1 := Created(g0, sha256, bps, stake, minTtl);
    TwoActions(g0, Call(DoCreateEscrow(DEPOSITOR, BENEFICIARY, 40_000)), Call(DoAdvance(1)));
    var g2 := LedgerOne(g1);
    NotDueYet(g2);
  }

  lemma LedgerOne(g: Aging) returns (g': Aging)
    requires g.w.env.sequence == 0
    ensures g' == AgingStep(g, Call(DoAdvance(1))) && g' == g.(w := g.w.(env := g.w.env.(sequence := 1)))
  {
    g' := AgingStep(g, Call(DoAdvance(1)));
  }

  lemma NotDueYet(g: Aging)
    requires g.w.env.sequence == 1 && JustCreated(g.w.tf) && g.ttl == Bumped()
    ensures
      var g' := AgingStep(g, KeepEscrow(1));
      && Usable(g, KeeperKeys(g.w.tf, 1)) && EscrowKey(1) in g'.ttl && g'.ttl[EscrowKey(1)] == BUMP_AMOUNT
      && !LiveUntil(g', KeeperKeys(g.w.tf, 1), BUMP_AMOUNT + 1)
  {
    var keys := KeeperKeys(g.w.tf, 1);
    assert keys == {InstanceKey, EscrowKey(1), FeesKey(1), ReleasedKey(1)};
    assert Usable(g, keys);
    hide KeeperKeys, Usable;
    var g' := AgingStep(g, KeepEscrow(1));
    assert EscrowKey(1) in keys && Exists(g'.w.tf, EscrowKey(1));
    assert g'.ttl[EscrowKey(1)] == Refreshed(BUMP_AMOUNT, 1) == BUMP_AMOUNT;
  }

  lemma TwoActions(g: Aging, a: AgingAction, b: AgingAction)
    ensures AgingRun(g, [a, b]) == AgingStep(AgingStep(g, a), b)
  {
    hide AgingStep;
    assert [a, b][1..] == [b] && [b][1..] == [];
    assert AgingRun(AgingStep(g, a), [b]) == AgingStep(AgingStep(g, a), b);
  }

  // ---- The same of a stake ----

  lemma StakeWorks(w: World, sha256: seq<u8> -> Bytes32, bps: Rate, stake: Stakeable)
    requires w == Start(sha256, bps, stake)
    ensures
      var w' := Step(w, DoStake(WINNER, 1_000));
      && Apply(w, DoStake(WINNER, 1_000)).Ok? && w'.env == w.env
      && w'.tf.stakes == map[WINNER := 1_000] && w'.tf.slashCounts == map[]
  {
  }

  lemma NewStakeBumped(tf: Store, minTtl: nat)
    requires minTtl <= LIFETIME_THRESHOLD && WINNER in tf.stakes
    ensures
      var keys := {InstanceKey, StakeKey(WINNER)};
      ExtendAll(WithNew(map[InstanceKey := BUMP_AMOUNT], tf, keys, minTtl), tf, 0, keys)
      == map[InstanceKey := BUMP_AMOUNT, StakeKey(WINNER) := BUMP_AMOUNT]
  {
    assert WithNew(map[InstanceKey := BUMP_AMOUNT], tf, {InstanceKey, StakeKey(WINNER)}, minTtl).Keys
           == {InstanceKey, StakeKey(WINNER)};
  }

  lemma FirstStaked(g: Aging, sha256: seq<u8> -> Bytes32, bps: Rate, stake: Stakeable, minTtl: nat) returns (g': Aging)
    requires g == Young(sha256, bps, stake, minTtl) && minTtl <= LIFETIME_THRESHOLD
    ensures g' == AgingStep(g, Call(DoStake(WINNER, 1_000))) && g'.w.env == g.w.env
    ensures g'.w.tf.stakes == map[WINNER := 1_000] && g'.w.tf.slashCounts == map[]
    ensures g'.ttl == map[InstanceKey := BUMP_AMOUNT, StakeKey(WINNER) := BUMP_AMOUNT]
  {
    hide Apply, Step, ExtendAll, WithNew;
    var a := DoStake(WINNER, 1_000);
    StakeWorks(g.w, sha256, bps, stake);
    NewStakeBumped(Step(g.w, a).tf, minTtl);
    assert Touched(g.w.tf, Step(g.w, a).tf, a) == {InstanceKey, StakeKey(WINNER)};
    assert Usable(g, {InstanceKey, StakeKey(WINNER)} + ReadOnly(g.w.tf, a));
    hide Touched, ReadOnly, Usable;
    g' := AgingStep(g, Call(a));
  }

  lemma StakeNotDueYet(g: Aging)
    requires g.w.env.sequence == 1 && g.w.tf.stakes == map[WINNER := 1_000] && g.w.tf.slashCounts == map[]
    requires g.ttl == map[InstanceKey := BUMP_AMOUNT, StakeKey(WINNER) := BUMP_AMOUNT]
    ensures
      var g' := AgingStep(g, KeepJuror(WINNER));
      && Usable(g, JurorKeys(WINNER))
      && StakeKey(WINNER) in g'.ttl && g'.ttl[StakeKey(WINNER)] == BUMP_AMOUNT
      && !LiveUntil(g', JurorKeys(WINNER), BUMP_AMOUNT + 1)
  {
    assert Usable(g, JurorKeys(WINNER));
    hide Usable;
    var g' := AgingStep(g, KeepJuror(WINNER));
    assert StakeKey(WINNER) in JurorKeys(WINNER) && Exists(g'.w.tf, StakeKey(WINNER));
    assert g'.ttl[StakeKey(WINNER)] == Refreshed(BUMP_AMOUNT, 1) == BUMP_AMOUNT;
  }

  /** Stake at ledger 0, call at ledger 1: the call returns one ledger more than the expiry of the stake. */
  lemma JurorCallOverstates(sha256: seq<u8> -> Bytes32, bps: Rate, stake: Stakeable, minTtl: nat)
    requires minTtl <= LIFETIME_THRESHOLD
    ensures Initial(Young(sha256, bps, stake, minTtl).w)
    ensures
      var g := AgingRun(Young(sha256, bps, stake, minTtl), [Call(DoStake(WINNER, 1_000)), Call(DoAdvance(1))]);
      var g' := AgingStep(g, KeepJuror(WINNER));
      && WINNER in g.w.tf.stakes && Usable(g, JurorKeys(WINNER))
      && Watermark(g.w.env.sequence) == BUMP_AMOUNT + 1
      && StakeKey(WINNER) in g'.ttl && g'.ttl[StakeKey(WINNER)] == BUMP_AMOUNT
      && !LiveUntil(g', JurorKeys(WINNER), Watermark(g.w.env.sequence))
  {
    hide Initial, AgingRun, AgingStep, Usable, LiveUntil, JurorKeys;
    StartIsInitial(sha256, bps, stake);
    var g0 := Young(sha256, bps, stake, minTtl);
    var g1 := FirstStaked(g0, sha256, bps, stake, minTtl);
    TwoActions(g0, Call(DoStake(WINNER, 1_000)), Call(DoAdvance(1)));
    var g2 := LedgerOne(g1);
    StakeNotDueYet(g2);
  }

  // ---- One ledger too late ----

  /** `Cadence` with another gap between keeper calls. */
  predicate CadenceWithin(g: Aging, acts: seq<AgingAction>, id: u64, gap: int)
    decreases |acts|
  {
    && (id in g.w.tf.escrows ==> id in g.called && Now(g) <= g.called[id] + gap)
    && (acts != [] ==> CadenceWithin(AgingStep(g, acts[0]), acts[1..], id, gap))
  }

  /** The gap of the keeper theorem. */
  lemma {:induction false} CadenceIsWithin(g: Aging, acts: seq<AgingAction>, id: u64)
    ensures Cadence(g, acts, id) <==> CadenceWithin(g, acts, id, LIFETIME_THRESHOLD + 1)
    decreases |acts|
  {
    hide AgingStep;
    if acts != [] {
      CadenceIsWithin(AgingStep(g, acts[0]), acts[1..], id);
    }
  }

  /** A keeper call while more than the threshold is left rewrites nothing. */
  lemma CallTooEarly(g: Aging)
    requires JustCreated(g.w.tf) && g.ttl == Bumped() && 0 <= Now(g) < BUMP_AMOUNT - LIFETIME_THRESHOLD
    ensures
      var g' := AgingStep(g, KeepEscrow(1));
      g'.w == g.w && g'.ttl == Bumped() && g'.called == g.called[1 := Now(g)]
  {
    var keys := KeeperKeys(g.w.tf, 1);
    assert Usable(g, keys);
    hide KeeperKeys, Usable, Exists;
    assert ExtendAll(g.ttl, g.w.tf, Now(g), keys) == Bumped();
  }

  lemma ClockMoves(g: Aging, s: u32)
    requires g.w.env.sequence <= s
    ensures AgingStep(g, Call(DoAdvance(s))) == g.(w := g.w.(env := g.w.env.(sequence := s)))
  {
  }

  /** Two keeper calls that come just too early to rewrite anything, and then the clock. */
  function TooLate(): seq<AgingAction>
  {
    [Call(DoCreateEscrow(DEPOSITOR, BENEFICIARY, 40_000)), Call(DoAdvance(518_399)), KeepEscrow(1),
     Call(DoAdvance(1_036_799)), KeepEscrow(1), Call(DoAdvance(1_555_201))]
  }

  /** The gap of the keeper theorem cannot be widened: in this run the keeper is never more than two
      ledgers beyond the threshold, and the escrow has expired. */
  lemma LateKeeperLosesEscrow(sha256: seq<u8> -> Bytes32, bps: Rate, stake: Stakeable, minTtl: nat)
    requires minTtl <= LIFETIME_THRESHOLD
    ensures
      var g := Young(sha256, bps, stake, minTtl);
      var h := AgingRun(g, TooLate());
      && Initial(g.w) && CadenceWithin(g, TooLate(), 1, LIFETIME_THRESHOLD + 2)
      && 1 in h.w.tf.escrows && EscrowKey(1) in h.ttl && h.ttl[EscrowKey(1)] < Now(h)
      && !Usable(h, KeeperKeys(h.w.tf, 1))
  {
    hide Initial, AgingStep, Usable, KeeperKeys;
    StartIsInitial(sha256, bps, stake);
    var acts, gap := TooLate(), LIFETIME_THRESHOLD + 2;
    var g0 := Young(sha256, bps, stake, minTtl);
    var g1 := Created(g0, sha256, bps, stake, minTtl);
    CreationRecorded(g0, sha256, bps, stake, minTtl);
    ClockMoves(g1, 518_399);
    var g2 := AgingStep(g1, acts[1]);
    CallTooEarly(g2);
    var g3 := AgingStep(g2, acts[2]);
    ClockMoves(g3, 1_036_799);
    var g4 := AgingStep(g3, acts[3]);
    CallTooEarly(g4);
    var g5 := AgingStep(g4, acts[4]);
    ClockMoves(g5, 1_555_201);
    var g6 := AgingStep(g5, acts[5]);
    assert CadenceWithin(g6, [], 1, gap) && AgingRun(g6, []) == g6;
    Unroll(g5, acts[5..], 1, gap);
    Unroll(g4, acts[4..], 1, gap);
    Unroll(g3, acts[3..], 1, gap);
    Unroll(g2, acts[2..], 1, gap);
    Unroll(g1, acts[1..], 1, gap);
    Unroll(g0, acts[0..], 1, gap);
    assert acts[0..] == acts;
    Expired(g6);
  }

  lemma Unroll(g: Aging, acts: seq<AgingAction>, id: u64, gap: int)
    requires acts != [] && (id in g.w.tf.escrows ==> id in g.called && Now(g) <= g.called[id] + gap)
    requires CadenceWithin(AgingStep(g, acts[0]), acts[1..], id, gap)
    ensures CadenceWithin(g, acts, id, gap)
    ensures AgingRun(g, acts) == AgingRun(AgingStep(g, acts[0]), acts[1..])
  {
    hide AgingStep;
  }

  lemma CreationRecorded(g: Aging, sha256: seq<u8> -> Bytes32, bps: Rate, stake: Stakeable, minTtl: nat)
    requires g == Young(sha256, bps, stake, minTtl)
    requires AgingStep(g, Call(DoCreateEscrow(DEPOSITOR, BENEFICIARY, 40_000))) != g
    ensures AgingStep(g, Call(DoCreateEscrow(DEPOSITOR, BENEFICIARY, 40_000))).called == map[1 := 0]
    ensures g.w.tf.escrows == map[]
  {
    CreateWorks(g.w, sha256, bps, stake);
    hide Apply, Step, Touched, ReadOnly, Usable, ExtendAll, WithNew;
  }

  lemma Expired(g: Aging)
    requires JustCreated(g.w.tf) && g.ttl == Bumped() && Now(g) > BUMP_AMOUNT
    ensures EscrowKey(1) in g.ttl && g.ttl[EscrowKey(1)] < Now(g) && !Usable(g, KeeperKeys(g.w.tf, 1))
  {
    assert EscrowKey(1) in KeeperKeys(g.w.tf, 1) && Exists(g.w.tf, EscrowKey(1));
  }
}
