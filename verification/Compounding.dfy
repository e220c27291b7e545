/** What repeated lost votes do to a juror's stake over a run. */
module Compounding {
  import opened Base
  import opened FeeMath
  import opened AbundanceToken
  import opened TrustFlow
  import opened EscrowInvariants
  import opened Solvency
  import opened Conservation
  import opened Ballots
  import opened History
  import opened Runs
  import opened Guarantees

  lemma {:induction false} SlashTimesCompose(stake: i128, bps: u32, m: nat, n: nat)
    requires stake >= 0 && bps <= 10_000
    ensures SlashTimes(SlashTimes(stake, bps, m), bps, n) == SlashTimes(stake, bps, m + n)
  {
    hide SlashAmount;
    if n > 0 {
      SlashTimesCompose(stake, bps, m, n - 1);
    }
  }

  lemma NeverSlashed(stake: i128, bps: u32)
    requires stake >= 0 && bps <= 10_000
    ensures SlashTimes(stake, bps, 0) == stake
  {
  }

  function SlashCountOf(tf: Store, juror: Address): u32
  {
    GetOr(tf.slashCounts, juror, 0)
  }

  predicate Restakes(a: Action, juror: Address)
  {
    (a.DoStake? || a.DoUnstake?) && a.juror == juror
  }

  /** A step leaves the juror alone, or slashes the juror once. */
  ghost predicate SlashedAtMostOnce(tf: Store, tf': Store, juror: Address)
  {
    && tf'.slashBps == tf.slashBps
    && var count, count' := SlashCountOf(tf, juror) as int, SlashCountOf(tf', juror) as int;
    || (StakeOf(tf', juror) == StakeOf(tf, juror) && count' == count)
    || (StakeOf(tf', juror) == StakeOf(tf, juror) - SlashAmount(StakeOf(tf, juror), tf.slashBps) && count' == count + 1)
  }

  lemma StepSlashesOnce(w: World, a: Action, juror: Address)
    requires WorldOk(w) && !Restakes(a, juror)
    ensures SlashedAtMostOnce(w.tf, Step(w, a).tf, juror)
  {
    hide WorldOk, SlashAmount, Release, ResolveDispute, RaiseDispute, CommitVote, RevealVote;
    hide Stake, Unstake, CreateEscrow, InitEscrow, OutsideTokenCall;
    if Apply(w, a).Ok? {
      if a.DoRelease? {
        hide PriceTranche, TryTransfer;
        var t := ReleaseDid(w, a.id, a.index, a.gross, a.caller);
      } else if a.DoRaiseDispute? || a.DoCommitVote? || a.DoRevealVote? {
        VotingSpares(w, a);
      } else if a.DoStake? || a.DoUnstake? || a.DoCreateEscrow? || a.DoInitEscrow? || a.DoToken? {
        FundingSpares(w, a, juror);
      } else if a.DoResolveDispute? {
        ResolveSlashesOnce(w, a.id, juror);
      }
    }
  }

  lemma VotingSpares(w: World, a: Action)
    requires Apply(w, a).Ok? && (a.DoRaiseDispute? || a.DoCommitVote? || a.DoRevealVote?)
    ensures Step(w, a).tf.stakes == w.tf.stakes && Step(w, a).tf.slashCounts == w.tf.slashCounts
    ensures Step(w, a).tf.slashBps == w.tf.slashBps
  {
    hide HashVote;
  }

  lemma FundingSpares(w: World, a: Action, juror: Address)
    requires Apply(w, a).Ok? && !Restakes(a, juror)
    requires a.DoStake? || a.DoUnstake? || a.DoCreateEscrow? || a.DoInitEscrow? || a.DoToken?
    ensures StakeOf(Step(w, a).tf, juror) == StakeOf(w.tf, juror)
    ensures Step(w, a).tf.slashCounts == w.tf.slashCounts && Step(w, a).tf.slashBps == w.tf.slashBps
  {
    hide Move, Invoke, MilestoneTotal, OpenEscrow;
    if a.DoCreateEscrow? {
      OpenDid(w, a.depositor, a.beneficiary, a.amount, []);
    } else if a.DoInitEscrow? {
      OpenDid(w, a.depositor, a.beneficiary, MilestoneTotal(a.milestones).value, a.milestones);
    }
  }

  lemma ResolveSlashesOnce(w: World, id: u64, juror: Address)
    requires WorldOk(w) && ResolveDispute(w, id).Ok?
    ensures SlashedAtMostOnce(w.tf, ResolveDispute(w, id).value.tf, juror)
  {
    hide ResolveDispute, ReadyToResolve, SlashLosers, Ruling, Move, FundsOk, AccountsOk, HistoryOk, Margin, PhasesOk;
    hide SlashAmount, Loses;
    var b, remaining := ResolveDid(w, id);
    VotersVoted(w.tf, id);
    var voters, ruling := VotersOf(w.tf, id), Ruling(w.tf, id);
    SlashLosersExact(BenchOf(w), w.tf.votes, id, voters, ruling, w.tf.slashBps);
    assert if Loses(w.tf.votes, id, voters, ruling, juror) then SlashedExactly(BenchOf(w), b, juror, w.tf.slashBps)
           else Untouched(BenchOf(w), b, juror);
  }

  lemma OnceIsSlashTimes(tf: Store, tf': Store, juror: Address)
    requires SlashedAtMostOnce(tf, tf', juror) && StakeOf(tf, juror) >= 0 && tf.slashBps <= 10_000
    ensures tf'.slashBps == tf.slashBps && SlashCountOf(tf, juror) <= SlashCountOf(tf', juror)
    ensures StakeOf(tf', juror)
            == SlashTimes(StakeOf(tf, juror), tf.slashBps, SlashCountOf(tf', juror) - SlashCountOf(tf, juror)) >= 0
  {
    hide SlashAmount, StakeOf, SlashCountOf;
    var s, bps := StakeOf(tf, juror), tf.slashBps;
    assert SlashTimes(s, bps, 0) == s && SlashTimes(s, bps, 1) == s - SlashAmount(s, bps);
  }

  /** In a run in which the juror neither stakes nor withdraws, the stake is the initial one slashed
      as many times as the slash counter rose. */
  lemma {:induction false} StakeAfterRun(w: World, acts: seq<Action>, juror: Address)
    requires WorldOk(w) && StakeOf(w.tf, juror) >= 0 && w.tf.slashBps <= 10_000
    requires forall a :: a in acts ==> !Restakes(a, juror)
    ensures
      var w' := Run(w, acts);
      && SlashCountOf(w.tf, juror) <= SlashCountOf(w'.tf, juror)
      && StakeOf(w'.tf, juror)
         == SlashTimes(StakeOf(w.tf, juror), w.tf.slashBps, SlashCountOf(w'.tf, juror) - SlashCountOf(w.tf, juror))
    decreases |acts|
  {
    hide WorldOk, Step, StakeOf, SlashCountOf, SlashedAtMostOnce, SlashTimes, Keeps, Margin, Restakes;
    if acts == [] {
      NeverSlashed(StakeOf(w.tf, juror), w.tf.slashBps);
    } else {
      var mid := Step(w, acts[0]);
      StepKeepsWorld(w, acts[0]);
      StepSlashesOnce(w, acts[0], juror);
      OnceIsSlashTimes(w.tf, mid.tf, juror);
      var s, bps := StakeOf(w.tf, juror), w.tf.slashBps;
      var k := SlashCountOf(mid.tf, juror) - SlashCountOf(w.tf, juror);
      StakeAfterRun(mid, acts[1..], juror);
      SlashTimesCompose(s, bps, k, SlashCountOf(Run(w, acts).tf, juror) - SlashCountOf(mid.tf, juror));
    }
  }

  /** Compounded slashing over any run: after n lost votes and no other change, the stake is at least
      the real-valued compound, and above it by at most n while the first product fits 128 bits. */
  lemma CompoundedOverRuns(w0: World, acts: seq<Action>, more: seq<Action>, juror: Address)
    requires Initial(w0) && forall a :: a in more ==> !Restakes(a, juror)
    ensures
      var w, w' := Run(w0, acts), Run(Run(w0, acts), more);
      var s, s', b := StakeOf(w.tf, juror), StakeOf(w'.tf, juror), w.tf.slashBps;
      && s >= 0 && b <= 10_000 && SlashCountOf(w.tf, juror) <= SlashCountOf(w'.tf, juror)
      && var n := SlashCountOf(w'.tf, juror) - SlashCountOf(w.tf, juror);
      && s' * Pow(10_000, n) >= s * Pow(10_000 - b, n)
      && (s * b <= U128_MAX ==> s' * Pow(10_000, n) <= s * Pow(10_000 - b, n) + n * Pow(10_000, n))
  {
    hide Initial, Run, WorldOk, Pow, SlashTimes;
    var w := Reached(w0, acts);
    StakeBounds(w, juror);
    StakeAfterRun(w, more, juror);
    var n := SlashCountOf(Run(w, more).tf, juror) - SlashCountOf(w.tf, juror);
    CompoundedSlash(StakeOf(w.tf, juror), w.tf.slashBps, n);
  }

  lemma StakeBounds(w: World, juror: Address)
    requires WorldOk(w)
    ensures StakeOf(w.tf, juror) >= 0 && w.tf.slashBps <= 10_000
  {
    hide AccountsOk, BallotsOk, HistoryOk, Margin, KeysOk;
  }
}
