/** Concrete runs, whatever SHA-256 is: one up to a resolution that slashes and pays, and one for each
    promise of the escrow that fails, showing that the failure is reached. */
module Scenario {
  import opened Base
  import opened FeeMath
  import opened AbundanceToken
  import opened TrustFlow
  import opened Runs
  import opened Guarantees

  const SELF := Address(0)
  const ADMIN := Address(1)
  const DEPOSITOR := Address(2)
  const BENEFICIARY := Address(3)
  const WINNER := Address(4)
  const LOSER := Address(5)
  const OPEN_DISPUTE := DisputeRecord(1, BENEFICIARY, false, false, 17_280, 34_560)

  function Salt(): Bytes32 { seq(32, i => 0) }

  /** What one juror will stake and lose. */
  type Stakeable = x: i128 | 0 < x <= I128_MAX - 50_000 witness 1

  type Rate = x: u32 | x <= 10_000

  /** Just initialised. */
  function Start(sha256: seq<u8> -> Bytes32, bps: Rate, stake: Stakeable): World
  {
    var ledger := TokenState(map[DEPOSITOR := 40_000, WINNER := 1_000, LOSER := stake], map[]);
    World(Env(SELF, sha256, 0), ledger, Deployed(ADMIN).(slashBps := bps, feeBps := DEFAULT_FEE_BPS), [])
  }

  function Escrow(status: EscrowStatus): EscrowRecord
  {
    EscrowRecord(1, DEPOSITOR, BENEFICIARY, 40_000, status, [Milestone(40_000, true, 0)])
  }

  /** Two jurors stake. */
  function Staking(stake: Stakeable): seq<Action>
  {
    [DoStake(WINNER, 1_000), DoStake(LOSER, stake)]
  }

  /** An escrow of 40000 with one milestone, half of it released. */
  function Funding(): seq<Action>
  {
    [DoInitEscrow(DEPOSITOR, BENEFICIARY, [Milestone(40_000, false, 0)]), DoRelease(1, 0, 20_000, DEPOSITOR)]
  }

  /** A dispute over the other half, and the jurors' commitments. */
  function Disputing(env: Env): seq<Action>
  {
    [DoRaiseDispute(1, BENEFICIARY),
     DoCommitVote(1, WINNER, HashVote(env, true, Salt())), DoCommitVote(1, LOSER, HashVote(env, false, Salt()))]
  }

  /** The jurors' openings, and the end of the reveal window. */
  function Revealing(): seq<Action>
  {
    [DoAdvance(17_280), DoRevealVote(1, WINNER, true, Salt()), DoRevealVote(1, LOSER, false, Salt()),
     DoAdvance(34_560)]
  }

  lemma StartIsInitial(sha256: seq<u8> -> Bytes32, bps: Rate, stake: Stakeable)
    ensures Initial(Start(sha256, bps, stake))
  {
    var w := Start(sha256, bps, stake);
    assert Initialize(World(w.env, w.tok, Deployed(ADMIN), []), ADMIN, bps) == Ok(w);
  }

  lemma RunTwo(w: World, a: Action, b: Action)
    ensures Run(w, [a, b]) == Step(Step(w, a), b)
  {
    RunAppend(w, [a], [b]);
    RunOne(w, a);
    RunOne(Step(w, a), b);
    assert [a] + [b] == [a, b];
  }

  lemma RunOne(w: World, a: Action)
    ensures Run(w, [a]) == Step(w, a)
  {
    hide Step;
    assert [a][1..] == [];
  }

  lemma {:induction false} RunAppend(w: World, first: seq<Action>, rest: seq<Action>)
    ensures Run(w, first + rest) == Run(Run(w, first), rest)
    decreases |first|
  {
    hide Step;
    if first == [] {
      assert first + rest == rest;
    } else {
      assert (first + rest)[1..] == first[1..] + rest;
      RunAppend(Step(w, first[0]), first[1..], rest);
    }
  }

  lemma FirstStakes(w0: World, sha256: seq<u8> -> Bytes32, bps: Rate, stake: Stakeable) returns (w: World)
    requires w0 == Start(sha256, bps, stake)
    ensures w == Step(w0, DoStake(WINNER, 1_000)) && w.env == w0.env
    ensures w.tok == TokenState(map[DEPOSITOR := 40_000, WINNER := 0, LOSER := stake, SELF := 1_000], map[])
    ensures w.tf == w0.tf.(stakes := map[WINNER := 1_000])
  {
    w := Step(w0, DoStake(WINNER, 1_000));
    assert w.tok.balances == map[DEPOSITOR := 40_000, WINNER := 0, LOSER := stake, SELF := 1_000];
  }

  lemma SecondStakes(w0: World, stake: Stakeable) returns (w: World)
    requires w0.env.self == SELF && !w0.tf.paused && w0.tf.stakes == map[WINNER := 1_000]
    requires w0.tok == TokenState(map[DEPOSITOR := 40_000, WINNER := 0, LOSER := stake, SELF := 1_000], map[])
    ensures w == Step(w0, DoStake(LOSER, stake)) && w.env == w0.env
    ensures w.tok == TokenState(map[DEPOSITOR := 40_000, WINNER := 0, LOSER := 0, SELF := 1_000 + stake], map[])
    ensures w.tf == w0.tf.(stakes := map[WINNER := 1_000, LOSER := stake])
  {
    w := Step(w0, DoStake(LOSER, stake));
    assert w.tok.balances == map[DEPOSITOR := 40_000, WINNER := 0, LOSER := 0, SELF := 1_000 + stake];
  }

  lemma BothStake(w0: World, sha256: seq<u8> -> Bytes32, bps: Rate, stake: Stakeable) returns (w: World)
    requires w0 == Start(sha256, bps, stake)
    ensures w == Run(w0, Staking(stake)) && w.env == w0.env
    ensures w.tok == TokenState(map[DEPOSITOR := 40_000, WINNER := 0, LOSER := 0, SELF := 1_000 + stake], map[])
    ensures w.tf == w0.tf.(stakes := map[WINNER := 1_000, LOSER := stake])
  {
    hide Step, Run;
    var w1 := FirstStakes(w0, sha256, bps, stake);
    w := SecondStakes(w1, stake);
    RunTwo(w0, DoStake(WINNER, 1_000), DoStake(LOSER, stake));
  }

  lemma Funded(w0: World, held: nat) returns (w: World)
    requires w0.env.self == SELF && !w0.tf.paused
    requires Balance(w0.tok, DEPOSITOR) == 40_000 && Balance(w0.tok, SELF) == held <= I128_MAX - 49_000
    requires Balance(w0.tok, BENEFICIARY) == 0 && Balance(w0.tok, ADMIN) == 0
    requires w0.tf.escrowCounter == 0 && w0.tf.feeBps == DEFAULT_FEE_BPS && w0.tf.treasury == ADMIN
    requires w0.tf.escrowReleased == map[] && w0.tf.milestoneReleased == map[]
    ensures w == Run(w0, Funding()) && w.env == w0.env
    ensures 1 in w.tf.escrows && w.tf.escrows[1] == Escrow(Active) && EscrowReleasedOf(w.tf, 1) == 20_000
    ensures w.tf == w0.tf.(escrowCounter := 1, escrows := w.tf.escrows, feeConfigs := w.tf.feeConfigs,
                           escrowReleased := w.tf.escrowReleased, milestoneReleased := w.tf.milestoneReleased)
    ensures Balance(w.tok, SELF) == held + 20_000 && Balance(w.tok, BENEFICIARY) == 19_900
    ensures Balance(w.tok, ADMIN) == 100 && Balance(w.tok, DEPOSITOR) == 0
    ensures TrancheReleased(1, 0, 20_000, 100, 19_900, 20_000, 20_000, BENEFICIARY, ADMIN) in w.log
  {
    var ms: Vec<Milestone> := [Milestone(40_000, false, 0)];
    assert MilestoneTotal(ms) == Ok(40_000) by {
      assert ms[..0] == [];
    }
    var w1 := Step(w0, DoInitEscrow(DEPOSITOR, BENEFICIARY, ms));
    assert Apply(w0, DoInitEscrow(DEPOSITOR, BENEFICIARY, ms)).Ok?;
    assert w1.tf.escrows[1] == Escrow(Active).(milestones := ms);
    assert Balance(w1.tok, SELF) == held + 40_000 && Balance(w1.tok, DEPOSITOR) == 0;
    assert Balance(w1.tok, BENEFICIARY) == 0 && Balance(w1.tok, ADMIN) == 0;
    w := HalfReleased(w1, held);
    RunTwo(w0, DoInitEscrow(DEPOSITOR, BENEFICIARY, ms), DoRelease(1, 0, 20_000, DEPOSITOR));
  }

  lemma HalfReleased(w0: World, held: nat) returns (w: World)
    requires w0.env.self == SELF && !w0.tf.paused
    requires 1 in w0.tf.escrows && w0.tf.escrows[1] == Escrow(Active).(milestones := [Milestone(40_000, false, 0)])
    requires 1 in w0.tf.feeConfigs && w0.tf.feeConfigs[1] == FeeConfig(ADMIN, DEFAULT_FEE_BPS)
    requires w0.tf.escrowReleased == map[] && w0.tf.milestoneReleased == map[]
    requires Balance(w0.tok, SELF) == held + 40_000 <= I128_MAX && Balance(w0.tok, DEPOSITOR) == 0
    requires Balance(w0.tok, BENEFICIARY) == 0 && Balance(w0.tok, ADMIN) == 0
    ensures w == Step(w0, DoRelease(1, 0, 20_000, DEPOSITOR)) && w.env == w0.env
    ensures 1 in w.tf.escrows && w.tf.escrows[1] == Escrow(Active) && EscrowReleasedOf(w.tf, 1) == 20_000
    ensures w.tf == w0.tf.(escrows := w.tf.escrows, escrowReleased := w.tf.escrowReleased,
                           milestoneReleased := w.tf.milestoneReleased)
    ensures Balance(w.tok, SELF) == held + 20_000 && Balance(w.tok, BENEFICIARY) == 19_900
    ensures Balance(w.tok, ADMIN) == 100 && Balance(w.tok, DEPOSITOR) == 0
    ensures TrancheReleased(1, 0, 20_000, 100, 19_900, 20_000, 20_000, BENEFICIARY, ADMIN) in w.log
  {
    assert PriceTranche(w0, 1, 0, 20_000, DEPOSITOR) == Ok(Tranche(20_000, 20_000, 100, 19_900));
    w := Step(w0, DoRelease(1, 0, 20_000, DEPOSITOR));
  }

  lemma Raised(w0: World, stake: Stakeable) returns (w: World)
    requires w0.env.self == SELF && w0.env.sequence == 0 && !w0.tf.paused
    requires w0.tf.stakes == map[WINNER := 1_000, LOSER := stake]
    requires 1 in w0.tf.escrows && w0.tf.escrows[1] == Escrow(Active) && w0.tf.commits == map[]
    ensures w == Run(w0, Disputing(w0.env)) && w.env == w0.env && w.tok == w0.tok
    ensures w.tf == w0.tf.(
      escrows := w0.tf.escrows[1 := Escrow(EscrowStatus.Disputed)],
      disputes := w0.tf.disputes[1 := OPEN_DISPUTE],
      commits := map[VoteKey(1, WINNER) := HashVote(w0.env, true, Salt()),
                     VoteKey(1, LOSER) := HashVote(w0.env, false, Salt())])
  {
    hide HashVote;
    var a, b, c := Disputing(w0.env)[0], Disputing(w0.env)[1], Disputing(w0.env)[2];
    var w1 := Step(w0, a);
    assert w1 == w0.(tf := w0.tf.(
      escrows := w0.tf.escrows[1 := Escrow(EscrowStatus.Disputed)],
      disputes := w0.tf.disputes[1 := OPEN_DISPUTE]));
    var w2 := Step(w1, b);
    assert w2.tf == w1.tf.(commits := map[VoteKey(1, WINNER) := HashVote(w0.env, true, Salt())]);
    w := Step(w2, c);
    RunTwo(w1, b, c);
    RunAppend(w0, [a], [b, c]);
    RunOne(w0, a);
    assert [a] + [b, c] == Disputing(w0.env);
  }

  lemma OneReveal(w: World, juror: Address, vote: bool)
    requires juror != w.env.self && w.env.sequence == 17_280 && !w.tf.paused
    requires 1 in w.tf.disputes && w.tf.disputes[1] == OPEN_DISPUTE
    requires VoteKey(1, juror) !in w.tf.votes && VoteKey(1, juror) in w.tf.commits
    requires w.tf.commits[VoteKey(1, juror)] == HashVote(w.env, vote, Salt()) && |VotersOf(w.tf, 1)| < 2
    ensures
      var w' := Step(w, DoRevealVote(1, juror, vote, Salt()));
      && w'.tf == BookVote(w.tf, 1, juror, vote) && w'.env == w.env && w'.tok == w.tok
      && w'.log == w.log + [VoteRevealed(1, juror, vote, Salt(), 17_280)]
  {
    hide HashVote;
  }

  lemma BothReveal(w: World) returns (w': World)
    requires w.env.self == SELF && w.env.sequence == 17_280 && !w.tf.paused
    requires 1 in w.tf.disputes && w.tf.disputes[1] == OPEN_DISPUTE
    requires w.tf.votes == map[] && w.tf.voters == map[]
    requires w.tf.commits == map[VoteKey(1, WINNER) := HashVote(w.env, true, Salt()),
                                 VoteKey(1, LOSER) := HashVote(w.env, false, Salt())]
    ensures w' == Step(Step(w, DoRevealVote(1, WINNER, true, Salt())), DoRevealVote(1, LOSER, false, Salt()))
    ensures w'.env == w.env && w'.tok == w.tok && VoteRevealed(1, WINNER, true, Salt(), 17_280) in w'.log
    ensures w'.tf == w.tf.(voters := map[1 := [WINNER, LOSER]], commits := map[],
                           votes := map[VoteKey(1, WINNER) := true, VoteKey(1, LOSER) := false])
  {
    hide HashVote, Step;
    var left := map[VoteKey(1, LOSER) := HashVote(w.env, false, Salt())];
    assert w.tf.commits - {VoteKey(1, WINNER)} == left && left - {VoteKey(1, LOSER)} == map[];
    OneReveal(w, WINNER, true);
    assert VotersOf(w.tf, 1) + [WINNER] == [WINNER] && [WINNER] + [LOSER] == [WINNER, LOSER];
    var mid := Step(w, DoRevealVote(1, WINNER, true, Salt()));
    assert mid.tf == w.tf.(voters := map[1 := [WINNER]], votes := map[VoteKey(1, WINNER) := true], commits := left);
    OneReveal(mid, LOSER, false);
    w' := Step(mid, DoRevealVote(1, LOSER, false, Salt()));
  }

  lemma Revealed(w0: World) returns (w: World)
    requires w0.env.self == SELF && w0.env.sequence == 0 && !w0.tf.paused
    requires 1 in w0.tf.disputes && w0.tf.disputes[1] == OPEN_DISPUTE
    requires w0.tf.votes == map[] && w0.tf.voters == map[]
    requires w0.tf.commits == map[VoteKey(1, WINNER) := HashVote(w0.env, true, Salt()),
                                  VoteKey(1, LOSER) := HashVote(w0.env, false, Salt())]
    ensures w == Run(w0, Revealing()) && w.env == w0.env.(sequence := 34_560) && w.tok == w0.tok
    ensures VoteRevealed(1, WINNER, true, Salt(), 17_280) in w.log
    ensures w.tf == w0.tf.(voters := map[1 := [WINNER, LOSER]], commits := map[],
                           votes := map[VoteKey(1, WINNER) := true, VoteKey(1, LOSER) := false])
  {
    var a, b, c, d := Revealing()[0], Revealing()[1], Revealing()[2], Revealing()[3];
    var w1 := Step(w0, a);
    assert HashVote(w1.env, true, Salt()) == HashVote(w0.env, true, Salt());
    assert HashVote(w1.env, false, Salt()) == HashVote(w0.env, false, Salt());
    hide HashVote;
    var w3 := BothReveal(w1);
    var w2 := Step(w1, b);
    w := Step(w3, d);
    RunTwo(w0, a, b);
    RunTwo(w2, c, d);
    RunAppend(w0, [a, b], [c, d]);
    assert [a, b] + [c, d] == Revealing();
  }

  predicate TieVoted(tf: Store, stake: Stakeable)
  {
    && tf.slashBps <= 10_000 && tf.stakes == map[WINNER := 1_000, LOSER := stake] && tf.slashCounts == map[]
    && tf.voters == map[1 := [WINNER, LOSER]]
    && tf.votes == map[VoteKey(1, WINNER) := true, VoteKey(1, LOSER) := false]
  }

  /** The juror stakes after the tie. */
  function Left(stake: Stakeable, bps: Rate): map<Address, i128>
  {
    SlashAmountTiers(stake, bps);
    map[WINNER := 1_000, LOSER := stake - SlashAmount(stake, bps)]
  }

  lemma LoserSlashed(w: World, stake: Stakeable) returns (b: Bench)
    requires TieVoted(w.tf, stake)
    ensures Ruling(w.tf, 1)
    ensures SlashLosers(BenchOf(w), w.tf.votes, 1, VotersOf(w.tf, 1), true, w.tf.slashBps) == Ok(b)
    ensures b.stakes == Left(stake, w.tf.slashBps) && b.slashCounts == map[LOSER := 1]
  {
    var voters, bps := VotersOf(w.tf, 1), w.tf.slashBps;
    assert voters[..1] == [WINNER] && [WINNER][..0] == [];
    assert Tally(w.tf.votes, 1, [WINNER], true) == 1 && Tally(w.tf.votes, 1, [WINNER], false) == 0;
    assert Tally(w.tf.votes, 1, voters, true) == 1 && Tally(w.tf.votes, 1, voters, false) == 1;
    SlashAmountTiers(stake, bps);
    hide SlashAmount, Ruling, Tally;
    var slash := SlashAmount(stake, bps);
    b := Bench(Left(stake, bps), map[LOSER := 1], w.log + [JurorSlashed(1, LOSER, slash, stake - slash, 1)]);
    assert SlashLosers(BenchOf(w), w.tf.votes, 1, [WINNER], true, bps) == Ok(BenchOf(w));
    assert w.tf.stakes[LOSER := stake - slash] == b.stakes && w.tf.slashCounts[LOSER := 1] == b.slashCounts;
    assert SlashJuror(BenchOf(w), 1, LOSER, bps) == Ok(b);
  }

  lemma Judged(w: World, stake: Stakeable) returns (w': World)
    requires !w.tf.paused && w.env.sequence >= 34_560 && TieVoted(w.tf, stake)
    requires 1 in w.tf.disputes && w.tf.disputes[1] == OPEN_DISPUTE
    ensures Judge(w, 1) == Ok(w') && Ruling(w.tf, 1) && w'.env == w.env && w'.tok == w.tok
    ensures w'.tf.escrows == w.tf.escrows && w'.tf.escrowReleased == w.tf.escrowReleased
    ensures w'.tf.stakes == Left(stake, w.tf.slashBps) && w'.tf.slashCounts == map[LOSER := 1]
  {
    hide SlashLosers, Ruling, Left;
    var b := LoserSlashed(w, stake);
    w' := Judge(w, 1).value;
  }

  /** Past the reveal window, with the escrow half released and the jurors tied. */
  predicate Ready(w: World, stake: Stakeable)
  {
    && w.env.self == SELF && w.env.sequence >= 34_560 && !w.tf.paused && TieVoted(w.tf, stake)
    && 1 in w.tf.disputes && w.tf.disputes[1] == OPEN_DISPUTE
    && 1 in w.tf.escrows && w.tf.escrows[1] == Escrow(EscrowStatus.Disputed)
    && EscrowReleasedOf(w.tf, 1) == 20_000
    && Balance(w.tok, SELF) == 21_000 + stake && Balance(w.tok, DEPOSITOR) == 0
  }

  lemma TieResolved(w: World, stake: Stakeable)
    requires Ready(w, stake)
    ensures ResolveDispute(w, 1).Ok?
    ensures
      var w' := ResolveDispute(w, 1).value;
      && w'.tf.stakes == Left(stake, w.tf.slashBps) && w'.tf.slashCounts == map[LOSER := 1]
      && Balance(w'.tok, SELF) == 1_000 + stake && Balance(w'.tok, DEPOSITOR) == 20_000
      && Balance(w'.tok, BENEFICIARY) == Balance(w.tok, BENEFICIARY)
      && Balance(w'.tok, ADMIN) == Balance(w.tok, ADMIN)
  {
    var judged := Judged(w, stake);
    hide Judge, Ruling, Left;
    assert Move(judged.tok, SELF, DEPOSITOR, 20_000).Ok?;
  }

  function Whole(env: Env, stake: Stakeable): seq<Action>
  {
    Staking(stake) + Funding() + Disputing(env) + Revealing()
  }

  /** The run up to the resolution. */
  lemma WholeRun(sha256: seq<u8> -> Bytes32, bps: Rate, stake: Stakeable) returns (w: World)
    ensures Initial(Start(sha256, bps, stake))
    ensures w == Run(Start(sha256, bps, stake), Whole(Start(sha256, bps, stake).env, stake))
    ensures Ready(w, stake) && w.env.sequence == 34_560 && w.tf.slashBps == bps
    ensures Balance(w.tok, BENEFICIARY) == 19_900 && Balance(w.tok, ADMIN) == 100
    ensures VoteRevealed(1, WINNER, true, Salt(), 17_280) in w.log
  {
    hide Run, Initial, HashVote;
    StartIsInitial(sha256, bps, stake);
    var w0 := Start(sha256, bps, stake);
    var w1 := BothStake(w0, sha256, bps, stake);
    var w2 := Funded(w1, 1_000 + stake);
    var w3 := Raised(w2, stake);
    w := Revealed(w3);
    RunAppend(w0, Staking(stake), Funding());
    RunAppend(w0, Staking(stake) + Funding(), Disputing(w0.env));
    RunAppend(w0, Staking(stake) + Funding() + Disputing(w0.env), Revealing());
  }

  /** The jurors tie, so the depositor wins and gets back the unreleased half; the losing juror is
      slashed by the rate; beneficiary and treasury keep the released half. */
  lemma FullRun(sha256: seq<u8> -> Bytes32, bps: Rate, stake: Stakeable)
    ensures Initial(Start(sha256, bps, stake))
    ensures
      var w0 := Start(sha256, bps, stake);
      var w := Run(w0, Whole(w0.env, stake));
      && ResolveDispute(w, 1).Ok?
      && var w' := ResolveDispute(w, 1).value;
      && w'.tf.stakes == Left(stake, bps) && w'.tf.slashCounts == map[LOSER := 1]
      && Balance(w'.tok, SELF) == 1_000 + stake && Balance(w'.tok, DEPOSITOR) == 20_000
      && Balance(w'.tok, BENEFICIARY) == 19_900 && Balance(w'.tok, ADMIN) == 100
  {
    hide Run, Initial, ResolveDispute, Left, Ready, Whole;
    var w := WholeRun(sha256, bps, stake);
    TieResolved(w, stake);
  }

  // ---- Promises that fail ----

  /** A slash of 100% that leaves a juror with stake: the run above with a stake of 10^35 + 1. */
  lemma FullSlashLeavesRemainder(sha256: seq<u8> -> Bytes32)
    ensures
      var stake: Stakeable := 100_000_000_000_000_000_000_000_000_000_000_001;
      var w0 := Start(sha256, 10_000, stake);
      && Initial(w0)
      && ResolveDispute(Run(w0, Whole(w0.env, stake)), 1).Ok?
      && ResolveDispute(Run(w0, Whole(w0.env, stake)), 1).value.tf.stakes == map[WINNER := 1_000, LOSER := 1]
  {
    hide Run, Initial, ResolveDispute, Whole;
    var stake: Stakeable := 100_000_000_000_000_000_000_000_000_000_000_001;
    FullRun(sha256, 10_000, stake);
    SlashAmountTiers(stake, 10_000);
  }

  /** Jurors stake and nobody votes: the dispute is past its reveal deadline with no vote, and nothing
      ever resolves it. */
  lemma UnvotedRun(sha256: seq<u8> -> Bytes32, bps: Rate, stake: Stakeable, more: seq<Action>)
    ensures
      var w0 := Start(sha256, bps, stake);
      var acts := Staking(stake) + Funding() + [DoRaiseDispute(1, BENEFICIARY), DoAdvance(34_560)];
      var w := Run(w0, acts);
      && Initial(w0)
      && 1 in w.tf.disputes && w.tf.disputes[1].revealDeadline <= w.env.sequence && VotersOf(w.tf, 1) == []
      && ResolveDispute(Run(w, more), 1).Err?
      && 1 in Run(w, more).tf.escrows && Run(w, more).tf.escrows[1].status == EscrowStatus.Disputed
  {
    hide Run, Initial, ResolveDispute;
    StartIsInitial(sha256, bps, stake);
    var w0 := Start(sha256, bps, stake);
    var w1 := BothStake(w0, sha256, bps, stake);
    var w2 := Funded(w1, 1_000 + stake);
    RunAppend(w0, Staking(stake), Funding());
    var acts := Staking(stake) + Funding() + [DoRaiseDispute(1, BENEFICIARY), DoAdvance(34_560)];
    RunAppend(w0, Staking(stake) + Funding(), [DoRaiseDispute(1, BENEFICIARY), DoAdvance(34_560)]);
    RunTwo(w2, DoRaiseDispute(1, BENEFICIARY), DoAdvance(34_560));
    RaisedAndExpired(w2);
    UnvotedDisputeIsStuck(w0, acts, more, 1);
  }

  lemma RaisedAndExpired(w: World)
    requires w.env.self == SELF && w.env.sequence == 0 && !w.tf.paused && w.tf.voters == map[]
    requires 1 in w.tf.escrows && w.tf.escrows[1] == Escrow(Active)
    ensures
      var w' := Step(Step(w, DoRaiseDispute(1, BENEFICIARY)), DoAdvance(34_560));
      && 1 in w'.tf.disputes && w'.tf.disputes[1] == OPEN_DISPUTE
      && w'.env.sequence == 34_560 && VotersOf(w'.tf, 1) == []
  {
  }

  /** A dispute raised one commit window before the end of the clock takes no reveal at any ledger. */
  lemma NoRevealAtTheEnd(sha256: seq<u8> -> Bytes32, bps: Rate, stake: Stakeable)
    ensures
      var w0 := Start(sha256, bps, stake);
      var w := Run(w0, Staking(stake) + Funding() + [DoAdvance(U32_MAX - 17_280), DoRaiseDispute(1, BENEFICIARY)]);
      && Initial(w0) && 1 in w.tf.disputes && !w.tf.disputes[1].resolved
      && forall at :: !TakesReveals(w.tf.disputes[1], at)
  {
    hide Run, Initial;
    StartIsInitial(sha256, bps, stake);
    var w0 := Start(sha256, bps, stake);
    var w1 := BothStake(w0, sha256, bps, stake);
    var w2 := Funded(w1, 1_000 + stake);
    RunAppend(w0, Staking(stake), Funding());
    RunAppend(w0, Staking(stake) + Funding(), [DoAdvance(U32_MAX - 17_280), DoRaiseDispute(1, BENEFICIARY)]);
    RunTwo(w2, DoAdvance(U32_MAX - 17_280), DoRaiseDispute(1, BENEFICIARY));
    RaisedAtTheEnd(w2);
  }

  lemma RaisedAtTheEnd(w: World)
    requires w.env.self == SELF && w.env.sequence == 0 && !w.tf.paused
    requires 1 in w.tf.escrows && w.tf.escrows[1] == Escrow(Active)
    ensures
      var w' := Step(Step(w, DoAdvance(U32_MAX - 17_280)), DoRaiseDispute(1, BENEFICIARY));
      && 1 in w'.tf.disputes && !w'.tf.disputes[1].resolved
      && w'.tf.disputes[1].commitDeadline == U32_MAX == w'.tf.disputes[1].revealDeadline
  {
  }

  // ---- A second initialization ----

  /** After a second initialization the next escrow takes the number of the first: its record replaces a
      half-released escrow whose other half is owed to nobody any more, its released total exceeds its
      amount from the start, and the history names payees that are not its own. */
  lemma SecondInitialize(sha256: seq<u8> -> Bytes32, bps: Rate, stake: Stakeable)
    ensures
      var w0 := Start(sha256, bps, stake);
      var w1 := Run(w0, Staking(stake) + Funding());
      var w2 := Initialize(w1, ADMIN, bps);
      var a := DoCreateEscrow(BENEFICIARY, ADMIN, 100);
      && Initial(w0) && w2.Ok? && Apply(w2.value, a).Ok?
      && 1 in w1.tf.escrows && w1.tf.escrows[1].depositor == DEPOSITOR && w1.tf.escrows[1].status == Active
      && var w := Step(w2.value, a);
      && 1 in w.tf.escrows && 1 in w.tf.feeConfigs && w.tf.escrows[1].depositor == BENEFICIARY
      && EscrowReleasedOf(w.tf, 1) == 20_000 > w.tf.escrows[1].amount
      && exists x :: x in w.log && !PaysRightly(w.tf.escrows[1], w.tf.feeConfigs[1], x)
  {
    hide Run, Initial;
    StartIsInitial(sha256, bps, stake);
    var w0 := Start(sha256, bps, stake);
    var w1 := BothStake(w0, sha256, bps, stake);
    var w2 := Funded(w1, 1_000 + stake);
    RunAppend(w0, Staking(stake), Funding());
    NumberReused(w2, bps, 1_000 + stake);
  }

  lemma NumberReused(w: World, bps: Rate, held: nat)
    requires w.env.self == SELF && !w.tf.paused && 1 in w.tf.escrows && EscrowReleasedOf(w.tf, 1) == 20_000
    requires Balance(w.tok, BENEFICIARY) == 19_900 && Balance(w.tok, SELF) == held + 20_000 <= I128_MAX - 100
    requires TrancheReleased(1, 0, 20_000, 100, 19_900, 20_000, 20_000, BENEFICIARY, ADMIN) in w.log
    ensures Initialize(w, ADMIN, bps).Ok?
    ensures
      var w', a := Initialize(w, ADMIN, bps).value, DoCreateEscrow(BENEFICIARY, ADMIN, 100);
      && Apply(w', a).Ok?
      && var w'' := Step(w', a);
      && 1 in w''.tf.escrows && 1 in w''.tf.feeConfigs && w''.tf.escrows[1].depositor == BENEFICIARY
      && EscrowReleasedOf(w''.tf, 1) == 20_000 > w''.tf.escrows[1].amount
      && exists x :: x in w''.log && !PaysRightly(w''.tf.escrows[1], w''.tf.feeConfigs[1], x)
  {
    var w' := Initialize(w, ADMIN, bps).value;
    var w'' := Step(w', DoCreateEscrow(BENEFICIARY, ADMIN, 100));
    var x := TrancheReleased(1, 0, 20_000, 100, 19_900, 20_000, 20_000, BENEFICIARY, ADMIN);
    assert x in w''.log && !PaysRightly(w''.tf.escrows[1], w''.tf.feeConfigs[1], x);
  }
}
