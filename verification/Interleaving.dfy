/** What happens around the tranches of an escrow does not matter either: after any two runs that
    released the same totals per milestone, the escrow's accounting is the same. */
module Interleaving {
  import opened Base
  import opened Sums
  import opened FeeMath
  import opened AbundanceToken
  import opened TrustFlow
  import opened EscrowInvariants
  import opened Solvency
  import opened Conservation
  import opened Ballots
  import opened History
  import opened Runs
  import opened Guarantees

  /** How much an event released on one milestone. */
  function Part(e: Event, id: u64, index: u32): int
  {
    if e.TrancheReleased? && e.id == id && e.index == index then e.gross else 0
  }

  function ReleasedIn(log: seq<Event>, id: u64, index: u32): int
  {
    if log == [] then 0 else ReleasedIn(log[..|log| - 1], id, index) + Part(log[|log| - 1], id, index)
  }

  lemma ReleasedAppend(log: seq<Event>, e: Event, id: u64, index: u32)
    ensures ReleasedIn(log + [e], id, index) == ReleasedIn(log, id, index) + Part(e, id, index)
  {
    assert (log + [e])[..|log|] == log;
  }

  /** Between two worlds, milestone `i` of an escrow gained what the history says was released on it. */
  ghost predicate Gained(w: World, w': World, id: u64, i: u32)
    requires id in w.tf.escrows && id in w'.tf.escrows
    requires i < |w.tf.escrows[id].milestones| == |w'.tf.escrows[id].milestones|
  {
    var m, m' := w.tf.escrows[id].milestones[i], w'.tf.escrows[id].milestones[i];
    var gain := ReleasedIn(w'.log, id, i) - ReleasedIn(w.log, id, i);
    && gain >= 0
    && MilestoneReleasedOf(w'.tf, id, i) == MilestoneReleasedOf(w.tf, id, i) + gain
    && m' == m.(approved := m.approved || gain > 0)
  }

  ghost predicate Progressed(w: World, w': World, id: u64)
  {
    && id in w.tf.escrows && id in w'.tf.escrows
    && |w'.tf.escrows[id].milestones| == |w.tf.escrows[id].milestones|
    && forall i: u32 :: i < |w.tf.escrows[id].milestones| ==> Gained(w, w', id, i)
  }

  lemma ProgressedTransitive(a: World, b: World, c: World, id: u64)
    requires Progressed(a, b, id) && Progressed(b, c, id)
    ensures Progressed(a, c, id)
  {
    hide MilestoneReleasedOf;
    forall i: u32 | i < |a.tf.escrows[id].milestones| ensures Gained(a, c, id, i) {
      assert Gained(a, b, id, i) && Gained(b, c, id, i);
    }
  }

  /** A step that leaves the counters and milestones of the escrow alone and reports no release on it. */
  lemma NoProgress(w: World, w': World, id: u64)
    requires id in w.tf.escrows && id in w'.tf.escrows
    requires w'.tf.escrows[id].milestones == w.tf.escrows[id].milestones
    requires w'.tf.milestoneReleased == w.tf.milestoneReleased
    requires forall i: u32 :: ReleasedIn(w'.log, id, i) == ReleasedIn(w.log, id, i)
    ensures Progressed(w, w', id)
  {
    hide ReleasedIn;
  }

  lemma ReleaseProgress(w: World, a: Action, id: u64)
    requires a.DoRelease? && Apply(w, a).Ok? && id in w.tf.escrows
    ensures Progressed(w, Step(w, a), id)
  {
    hide Release, PriceTranche, TryTransfer, ReleasedIn;
    var t := ReleaseDid(w, a.id, a.index, a.gross, a.caller);
    var w' := Step(w, a);
    forall i: u32 | i < |w.tf.escrows[id].milestones| ensures Gained(w, w', id, i) {
      ReleasedAppend(w.log, w'.log[|w.log|], id, i);
    }
  }

  lemma {:induction false} SlashingReleasesNothing(b: Bench, votes: map<VoteKey, bool>, id: u64,
                                                   voters: seq<Address>, ruling: bool, bps: u32, k: u64, index: u32)
    requires SlashLosers(b, votes, id, voters, ruling, bps).Ok?
    ensures ReleasedIn(SlashLosers(b, votes, id, voters, ruling, bps).value.log, k, index)
            == ReleasedIn(b.log, k, index)
    decreases |voters|
  {
    hide ReleasedIn;
    if voters != [] {
      var last := |voters| - 1;
      SlashingReleasesNothing(b, votes, id, voters[..last], ruling, bps, k, index);
      var mid := SlashLosers(b, votes, id, voters[..last], ruling, bps).value;
      if VoteOf(votes, id, voters[last]) != ruling {
        var after := SlashJuror(mid, id, voters[last], bps).value;
        ReleasedAppend(mid.log, after.log[|mid.log|], k, index);
      }
    }
  }

  lemma ResolveProgress(w: World, a: Action, id: u64)
    requires a.DoResolveDispute? && Apply(w, a).Ok? && id in w.tf.escrows
    ensures Progressed(w, Step(w, a), id)
  {
    hide ResolveDispute, ReadyToResolve, SlashLosers, Ruling, ReleasedIn;
    var b, remaining := ResolveDid(w, a.id);
    var w' := Step(w, a);
    forall i: u32 ensures ReleasedIn(w'.log, id, i) == ReleasedIn(w.log, id, i) {
      SlashingReleasesNothing(BenchOf(w), w.tf.votes, a.id, VotersOf(w.tf, a.id), Ruling(w.tf, a.id),
                              w.tf.slashBps, id, i);
      ReleasedAppend(b.log, w'.log[|b.log|], id, i);
    }
    NoProgress(w, w', id);
  }

  lemma OneEventProgress(w: World, w': World, id: u64)
    requires id in w.tf.escrows && id in w'.tf.escrows
    requires w'.tf.escrows[id].milestones == w.tf.escrows[id].milestones
    requires w'.tf.milestoneReleased == w.tf.milestoneReleased
    requires w'.log == w.log
             || (|w'.log| == |w.log| + 1 && w'.log == w.log + [w'.log[|w.log|]] && !w'.log[|w.log|].TrancheReleased?)
    ensures Progressed(w, w', id)
  {
    hide ReleasedIn;
    forall i: u32 ensures ReleasedIn(w'.log, id, i) == ReleasedIn(w.log, id, i) {
      if w'.log != w.log {
        ReleasedAppend(w.log, w'.log[|w.log|], id, i);
      }
    }
    NoProgress(w, w', id);
  }

  lemma VotingProgress(w: World, a: Action, id: u64)
    requires (a.DoRaiseDispute? || a.DoCommitVote? || a.DoRevealVote?) && Apply(w, a).Ok? && id in w.tf.escrows
    ensures Progressed(w, Step(w, a), id)
  {
    hide HashVote, Progressed;
    OneEventProgress(w, Step(w, a), id);
  }

  lemma OpenProgress(w: World, a: Action, id: u64)
    requires WorldOk(w) && (a.DoCreateEscrow? || a.DoInitEscrow?) && Apply(w, a).Ok? && id in w.tf.escrows
    ensures Progressed(w, Step(w, a), id)
  {
    hide WorldOk, OpenEscrow, MilestoneTotal, Progressed;
    if a.DoCreateEscrow? {
      OpenDid(w, a.depositor, a.beneficiary, a.amount, []);
    } else {
      OpenDid(w, a.depositor, a.beneficiary, MilestoneTotal(a.milestones).value, a.milestones);
    }
    NumbersInOrder(w);
    OneEventProgress(w, Step(w, a), id);
  }

  lemma QuietProgress(w: World, a: Action, id: u64)
    requires Apply(w, a).Ok? && id in w.tf.escrows
    requires !a.DoRaiseDispute? && !a.DoCommitVote? && !a.DoRevealVote? && !a.DoCreateEscrow? && !a.DoInitEscrow?
    requires !a.DoRelease? && !a.DoResolveDispute?
    ensures Progressed(w, Step(w, a), id)
  {
    hide Move, Invoke, Progressed;
    OneEventProgress(w, Step(w, a), id);
  }

  lemma StepProgress(w: World, a: Action, id: u64)
    requires WorldOk(w) && id in w.tf.escrows
    ensures Progressed(w, Step(w, a), id)
  {
    hide WorldOk, Apply, Step, Progressed;
    if Apply(w, a).Err? {
      IdleProgress(w, a, id);
    } else if a.DoRelease? {
      ReleaseProgress(w, a, id);
    } else if a.DoResolveDispute? {
      ResolveProgress(w, a, id);
    } else if a.DoRaiseDispute? || a.DoCommitVote? || a.DoRevealVote? {
      VotingProgress(w, a, id);
    } else if a.DoCreateEscrow? || a.DoInitEscrow? {
      OpenProgress(w, a, id);
    } else {
      QuietProgress(w, a, id);
    }
  }

  lemma IdleProgress(w: World, a: Action, id: u64)
    requires Apply(w, a).Err? && id in w.tf.escrows
    ensures Progressed(w, Step(w, a), id)
  {
    hide Apply;
  }

  /** In every run, each milestone counter is what it was plus what the history adds, and a milestone
      is approved if it was or something was released on it. */
  lemma {:induction false} RunProgress(w: World, acts: seq<Action>, id: u64)
    requires WorldOk(w) && id in w.tf.escrows
    ensures Progressed(w, Run(w, acts), id)
    decreases |acts|
  {
    hide WorldOk, Step, Progressed;
    if acts == [] {
      SelfProgress(w, id);
    } else {
      StepKeepsWorld(w, acts[0]);
      StepProgress(w, acts[0], id);
      EscrowStays(w, Step(w, acts[0]), id);
      RunProgress(Step(w, acts[0]), acts[1..], id);
      ProgressedTransitive(w, Step(w, acts[0]), Run(w, acts), id);
    }
  }

  lemma SelfProgress(w: World, id: u64)
    requires id in w.tf.escrows
    ensures Progressed(w, w, id)
  {
  }

  lemma EscrowStays(w: World, w': World, id: u64)
    requires Progressed(w, w', id)
    ensures id in w'.tf.escrows
  {
  }

  /** The escrow's part of the accounting, and what the history paid for it. */
  ghost predicate SameEscrowState(x: World, y: World, id: u64)
  {
    && id in x.tf.escrows && id in y.tf.escrows && id in x.tf.feeConfigs && id in y.tf.feeConfigs
    && ViewOf(x.tf, id) == ViewOf(y.tf, id)
    && Total(x.log, Payouts(id)) == Total(y.log, Payouts(id))
    && Total(x.log, Fees(id)) == Total(y.log, Fees(id))
    && Total(x.log, DisputePayouts(id)) == Total(y.log, DisputePayouts(id))
  }

  /** Any two runs from one reachable world, with whatever else in between (other escrows, disputes,
      the clock, configuration and token calls), that released the same totals on each milestone of an
      escrow and left it with the same dispute record: the escrow's record, its counters and all that
      was ever paid for it are the same. */
  lemma InterleavingIrrelevant(w0: World, acts: seq<Action>, xs: seq<Action>, ys: seq<Action>, id: u64)
    requires Initial(w0) && id in Run(w0, acts).tf.escrows
    requires
      var x, y := Run(Run(w0, acts), xs), Run(Run(w0, acts), ys);
      && Lookup(x.tf.disputes, id) == Lookup(y.tf.disputes, id)
      && forall i: u32 :: ReleasedIn(x.log, id, i) == ReleasedIn(y.log, id, i)
    ensures SameEscrowState(Run(Run(w0, acts), xs), Run(Run(w0, acts), ys), id)
  {
    hide Initial, Run, WorldOk, Progressed, ReleasedIn, Later, Margin;
    var w := Reached(w0, acts);
    var x, y := Run(w, xs), Run(w, ys);
    RunKeepsWorld(w, xs);
    RunKeepsWorld(w, ys);
    RunProgress(w, xs, id);
    RunProgress(w, ys, id);
    EscrowStays(w, x, id);
    EscrowStays(w, y, id);
    SameMilestones(w, x, y, id);
    WorldView(w, id);
    SameTermsFrom(w, x, y, id);
    WorldView(x, id);
    WorldView(y, id);
    ViewsEqual(x, y, id);
    AccountsEqual(x, y, id);
  }

  lemma SameMilestones(w: World, x: World, y: World, id: u64)
    requires Progressed(w, x, id) && Progressed(w, y, id)
    requires forall i: u32 :: ReleasedIn(x.log, id, i) == ReleasedIn(y.log, id, i)
    ensures x.tf.escrows[id].milestones == y.tf.escrows[id].milestones
    ensures PerMilestone(x.tf, id) == PerMilestone(y.tf, id)
  {
    hide ReleasedIn, MilestoneReleasedOf;
    var mx, my := x.tf.escrows[id].milestones, y.tf.escrows[id].milestones;
    forall i | 0 <= i < |mx|
      ensures mx[i] == my[i] && MilestoneReleasedOf(x.tf, id, i) == MilestoneReleasedOf(y.tf, id, i)
    {
      var k: u32 := i;
      assert Gained(w, x, id, k) && Gained(w, y, id, k);
      assert ReleasedIn(x.log, id, k) == ReleasedIn(y.log, id, k);
    }
    assert mx == my;
  }

  lemma SameTermsFrom(w: World, x: World, y: World, id: u64)
    requires Keeps(w, x) && Keeps(w, y) && id in w.tf.escrows && id in w.tf.feeConfigs
    ensures id in x.tf.escrows && id in y.tf.escrows && id in x.tf.feeConfigs && id in y.tf.feeConfigs
    ensures SameTerms(w.tf.escrows[id], x.tf.escrows[id]) && SameTerms(w.tf.escrows[id], y.tf.escrows[id])
    ensures x.tf.feeConfigs[id] == y.tf.feeConfigs[id]
  {
    hide SameTerms, Forward, EscrowReleasedOf;
  }

  lemma WorldView(w: World, id: u64)
    requires WorldOk(w) && id in w.tf.escrows
    ensures id in w.tf.feeConfigs && ViewOk(w.env.sequence, ViewOf(w.tf, id)) && AccountOk(w.tf, w.log, id)
  {
    hide BallotsOk, HistoryOk, Margin, ViewOk, ViewOf, KeysOk, AccountOk;
    WorldEscrows(w);
    EscrowIsOk(w.env.sequence, w.tf, id);
  }

  /** Status and escrow counter follow from the milestones and the dispute record. */
  lemma ViewsEqual(x: World, y: World, id: u64)
    requires id in x.tf.escrows && id in y.tf.escrows && id in x.tf.feeConfigs && id in y.tf.feeConfigs
    requires ViewOk(x.env.sequence, ViewOf(x.tf, id)) && ViewOk(y.env.sequence, ViewOf(y.tf, id))
    requires Lookup(x.tf.disputes, id) == Lookup(y.tf.disputes, id)
    requires x.tf.feeConfigs[id] == y.tf.feeConfigs[id]
    requires x.tf.escrows[id].milestones == y.tf.escrows[id].milestones
    requires PerMilestone(x.tf, id) == PerMilestone(y.tf, id)
    requires
      var e, e' := x.tf.escrows[id], y.tf.escrows[id];
      e.id == e'.id && e.depositor == e'.depositor && e.beneficiary == e'.beneficiary && e.amount == e'.amount
    ensures ViewOf(x.tf, id) == ViewOf(y.tf, id)
  {
    hide SeqSum, PerMilestone;
  }

  lemma AccountsEqual(x: World, y: World, id: u64)
    requires id in x.tf.escrows && id in y.tf.escrows && id in x.tf.feeConfigs && id in y.tf.feeConfigs
    requires AccountOk(x.tf, x.log, id) && AccountOk(y.tf, y.log, id) && ViewOf(x.tf, id) == ViewOf(y.tf, id)
    ensures SameEscrowState(x, y, id)
  {
    hide Total, PerMilestone, FloorFee;
  }
}
