/** What a party to an escrow, or a juror, can rely on in every run. */
module Guarantees {
  import opened Base
  import opened Sums
  import opened FeeMath
  import opened AbundanceToken
  import opened TrustFlow
  import opened EscrowInvariants
  import opened Solvency
  import opened Conservation
  import opened Ballots
  import opened History
  import opened Runs

  lemma Reached(w0: World, acts: seq<Action>) returns (w: World)
    requires Initial(w0)
    ensures w == Run(w0, acts) && WorldOk(w)
  {
    hide Initial, WorldOk;
    InitialOk(w0);
    RunKeepsWorld(w0, acts);
    w := Run(w0, acts);
  }

  // ---- Escrows ----

  /** The amount of every escrow ever created is exactly what the history paid to its beneficiary,
      to its treasury and to a dispute's winner, plus what is still locked; every such payment went to
      the parties of the record and the treasury of the snapshot; and the fees are those of one single
      release of everything released. */
  lemma LifetimeConservation(w0: World, acts: seq<Action>, id: u64)
    requires Initial(w0) && id in Run(w0, acts).tf.escrows
    ensures
      var w := Run(w0, acts);
      var e, released := w.tf.escrows[id], EscrowReleasedOf(w.tf, id);
      && e.amount == Total(w.log, Payouts(id)) + Total(w.log, Fees(id)) + Total(w.log, DisputePayouts(id))
                     + Locked(e, released)
      && id in w.tf.feeConfigs && CumulativeFee(released, w.tf.feeConfigs[id].feeBps) == Ok(Total(w.log, Fees(id)))
      && forall x :: x in w.log ==> PaysRightly(e, w.tf.feeConfigs[id], x)
  {
    hide Initial, Run, WorldOk, PaysRightly, CumulativeFee;
    var w := Reached(w0, acts);
    AmountAccounted(w, id);
    forall x | x in w.log ensures PaysRightly(w.tf.escrows[id], w.tf.feeConfigs[id], x) {
      PayeesOf(w, id, x);
    }
  }

  /** A payment of this escrow goes to its beneficiary and snapshot treasury, or to the winning party. */
  ghost predicate PaysRightly(e: EscrowRecord, fees: FeeConfig, x: Event)
  {
    && (x.TrancheReleased? && x.id == e.id ==> x.beneficiary == e.beneficiary && x.treasury == fees.treasury)
    && (x.DisputePaid? && x.id == e.id ==> x.recipient == if x.ruling then e.depositor else e.beneficiary)
  }

  lemma AmountAccounted(w: World, id: u64)
    requires WorldOk(w) && id in w.tf.escrows
    ensures id in w.tf.feeConfigs && w.tf.escrows[id].id == id
    ensures w.tf.escrows[id].amount
            == Total(w.log, Payouts(id)) + Total(w.log, Fees(id)) + Total(w.log, DisputePayouts(id))
               + Locked(w.tf.escrows[id], EscrowReleasedOf(w.tf, id))
    ensures CumulativeFee(EscrowReleasedOf(w.tf, id), w.tf.feeConfigs[id].feeBps) == Ok(Total(w.log, Fees(id)))
  {
    hide Margin, BallotsOk, HistoryOk, FloorFee, CumulativeFee, Total, MilestonesOk;
    assert AccountOk(w.tf, w.log, id);
    EscrowIsOk(w.env.sequence, w.tf, id);
    hide EscrowsOk, AccountsOk;
    CumulativeFeeTotal(EscrowReleasedOf(w.tf, id), w.tf.feeConfigs[id].feeBps);
  }

  lemma PayeesOf(w: World, id: u64, x: Event)
    requires WorldOk(w) && id in w.tf.escrows && id in w.tf.feeConfigs && w.tf.escrows[id].id == id && x in w.log
    ensures PaysRightly(w.tf.escrows[id], w.tf.feeConfigs[id], x)
  {
    hide FundsOk, AccountsOk, BallotsOk, Margin;
    assert EventOk(w, x);
  }

  /** A fresh record of what the creating call asked for. */
  ghost predicate OpenedAs(e: EscrowRecord, a: Action)
    requires a.DoCreateEscrow? || a.DoInitEscrow?
  {
    && e.depositor == a.depositor && e.beneficiary == a.beneficiary && e.status == Active
    && if a.DoCreateEscrow? then e.amount == a.amount && e.milestones == []
       else e.milestones == a.milestones && e.amount == SeqSum(Amounts(a.milestones))
  }

  /** Creation stores, under an identifier never used before, the parties, amount and milestones asked
      for and the fee terms in force at that moment; whatever happens later, administrator calls
      included, parties, amounts and fee terms never change. */
  lemma TermsFixedAtCreation(w0: World, acts: seq<Action>, a: Action, later: seq<Action>)
    requires Initial(w0) && (a.DoCreateEscrow? || a.DoInitEscrow?) && Apply(Run(w0, acts), a).Ok?
    ensures
      var w := Run(w0, acts);
      var w', w'' := Step(w, a), Run(Step(w, a), later);
      var id := w'.tf.escrowCounter;
      && id !in w.tf.escrows && id in w'.tf.escrows && id in w''.tf.escrows && id in w''.tf.feeConfigs
      && OpenedAs(w'.tf.escrows[id], a) && SameTerms(w'.tf.escrows[id], w''.tf.escrows[id])
      && w''.tf.feeConfigs[id] == FeeConfig(w.tf.treasury, w.tf.feeBps)
  {
    hide Initial, Run, WorldOk, MilestoneTotal, Move, OpenedAs;
    var w := Reached(w0, acts);
    StepKeepsWorld(w, a);
    RunKeepsWorld(Step(w, a), later);
    CreationStores(w, a);
    hide Step, Apply, SameTerms;
  }

  lemma CreationStores(w: World, a: Action)
    requires WorldOk(w) && (a.DoCreateEscrow? || a.DoInitEscrow?) && Apply(w, a).Ok?
    ensures
      var tf' := Step(w, a).tf;
      var id := tf'.escrowCounter;
      && id !in w.tf.escrows && id in tf'.escrows && id in tf'.feeConfigs
      && OpenedAs(tf'.escrows[id], a)
      && tf'.feeConfigs[id] == FeeConfig(w.tf.treasury, w.tf.feeBps)
  {
    hide MilestoneTotal, Move, AccountsOk, BallotsOk, HistoryOk, Margin;
    FreshId(w, Step(w, a).tf.escrowCounter);
    if a.DoInitEscrow? {
      MilestoneTotalExact(a.milestones);
    }
  }

  /** The states an escrow can be in. */
  lemma Lifecycle(w0: World, acts: seq<Action>, id: u64)
    requires Initial(w0) && id in Run(w0, acts).tf.escrows
    ensures
      var w := Run(w0, acts);
      var e, released := w.tf.escrows[id], EscrowReleasedOf(w.tf, id);
      && (e.status == Disputed <==> id in w.tf.disputes && !w.tf.disputes[id].resolved)
      && (id in w.tf.disputes && w.tf.disputes[id].resolved ==> e.status == Settled)
      && (e.status == Settled && id !in w.tf.disputes <==> released == e.amount)
      && 0 <= released <= e.amount
      && forall i: u32 :: i < |e.milestones| ==>
           && 0 <= MilestoneReleasedOf(w.tf, id, i) <= e.milestones[i].amount
           && (MilestoneReleasedOf(w.tf, id, i) > 0 ==>
                 e.milestones[i].approved && e.milestones[i].releaseTime <= w.env.sequence)
  {
    hide Initial, Run, Margin, BallotsOk, HistoryOk, AccountsOk;
    var w := Reached(w0, acts);
    var v := ViewOf(w.tf, id);
    assert ViewOk(w.env.sequence, v);
    forall i: u32 | i < |v.escrow.milestones| ensures v.perMilestone[i] == MilestoneReleasedOf(w.tf, id, i) {
    }
  }

  /** In any run, status only moves forward and the released counter only up. */
  lemma StatusOnlyForward(w0: World, acts: seq<Action>, more: seq<Action>, id: u64)
    requires Initial(w0) && id in Run(w0, acts).tf.escrows
    ensures
      var w, w' := Run(w0, acts), Run(Run(w0, acts), more);
      && id in w'.tf.escrows && Forward(w.tf.escrows[id].status, w'.tf.escrows[id].status)
      && EscrowReleasedOf(w.tf, id) <= EscrowReleasedOf(w'.tf, id)
  {
    hide Initial, Run, WorldOk;
    var w := Reached(w0, acts);
    RunKeepsWorld(w, more);
  }

  ghost predicate Complete(tf: Store, id: u64)
    requires id in tf.escrows
  {
    forall i: u32 :: i < |tf.escrows[id].milestones| ==>
      MilestoneReleasedOf(tf, id, i) == tf.escrows[id].milestones[i].amount
  }

  /** A release settles the escrow exactly when it completes the last milestone. */
  lemma ReleaseSettlesWhenComplete(w0: World, acts: seq<Action>, id: u64, index: u32, gross: i128, caller: Address)
    requires Initial(w0) && Release(Run(w0, acts), id, index, gross, caller).Ok?
    ensures
      var tf' := Release(Run(w0, acts), id, index, gross, caller).value.tf;
      && id in tf'.escrows
      && (tf'.escrows[id].status == Settled <==> Complete(tf', id))
  {
    hide Initial, Run, WorldOk, Release, PriceTranche, TryTransfer;
    var w := Reached(w0, acts);
    assert EscrowsOk(w.env.sequence, w.tf) by { WorldEscrows(w); }
    var t := ReleaseDid(w, id, index, gross, caller);
    BookTrancheViews(w.tf, id, index, gross, t);
    hide BookTranche;
    EscrowIsOk(w.env.sequence, w.tf, id);
    CompletionSettles(w.env.sequence, w.tf, Release(w, id, index, gross, caller).value.tf, id, index, gross);
  }

  lemma WorldEscrows(w: World)
    requires WorldOk(w)
    ensures EscrowsOk(w.env.sequence, w.tf)
  {
    hide AccountsOk, BallotsOk, HistoryOk, Margin, EscrowsOk;
  }

  lemma CompletionSettles(now: u32, tf: Store, tf': Store, id: u64, index: u32, gross: i128)
    requires id in tf.escrows && id in tf.feeConfigs && id in tf'.escrows && id in tf'.feeConfigs
    requires ViewOk(now, ViewOf(tf, id)) && tf.escrows[id].status == Active
    requires index < |tf.escrows[id].milestones| && gross > 0
    requires MilestoneReleasedOf(tf, id, index) + gross <= tf.escrows[id].milestones[index].amount
    requires ViewOf(tf', id) == Released(ViewOf(tf, id), index, gross)
    ensures tf'.escrows[id].status == Settled <==> Complete(tf', id)
  {
    hide ViewOk, PerMilestone, Complete;
    AllReleased(tf', id);
    PerMilestoneAt(tf, id, index);
    TrancheFits(now, ViewOf(tf, id), index, gross);
    assert Amounts(ViewOf(tf', id).escrow.milestones) == Amounts(ViewOf(tf, id).escrow.milestones);
  }

  lemma AllReleased(tf: Store, id: u64)
    requires id in tf.escrows
    ensures PerMilestone(tf, id) == Amounts(tf.escrows[id].milestones) <==> Complete(tf, id)
  {
    var per, amounts := PerMilestone(tf, id), Amounts(tf.escrows[id].milestones);
    forall i: u32 | i < |amounts|
      ensures per[i] == amounts[i] <==> MilestoneReleasedOf(tf, id, i) == tf.escrows[id].milestones[i].amount
    {
    }
    if Complete(tf, id) {
      forall i | 0 <= i < |amounts| ensures per[i] == amounts[i] {
        var k: u32 := i;
        assert MilestoneReleasedOf(tf, id, k) == tf.escrows[id].milestones[k].amount;
      }
    }
  }

  // ---- Votes ----

  /** Phases never mix: in the history of one dispute, resolved or still open, every commitment strictly
      precedes every reveal, and every reveal the resolution. */
  lemma PhaseOrder(w0: World, acts: seq<Action>, earlier: Event, later: Event)
    requires Initial(w0) && earlier in Run(w0, acts).log && later in Run(w0, acts).log
    requires (earlier.VoteCommitted? && later.VoteRevealed?) || (earlier.VoteRevealed? && later.DisputePaid?)
    requires earlier.id == later.id
    ensures earlier.at < later.at
  {
    hide Initial, Run, FundsOk, AccountsOk, BallotsOk, Margin;
    var w := Reached(w0, acts);
    assert EventOk(w, earlier) && EventOk(w, later);
  }

  /** While a commitment can still be accepted nobody has voted. */
  lemma NoVoteWhileCommitting(w0: World, acts: seq<Action>, id: u64)
    requires Initial(w0) && id in Run(w0, acts).tf.disputes
    requires Run(w0, acts).env.sequence < Run(w0, acts).tf.disputes[id].commitDeadline
    ensures VotersOf(Run(w0, acts).tf, id) == []
    ensures forall k :: k in Run(w0, acts).tf.votes ==> k.escrowId != id
  {
    hide Initial, Run, FundsOk, AccountsOk, HistoryOk, Margin;
    var w := Reached(w0, acts);
  }

  /** The evidence behind one recorded vote. */
  ghost predicate VoteEvidence(w: World, id: u64, juror: Address, c: Bytes32, salt: Bytes32, stake: i128,
                               at: u32, at': u32)
  {
    && VoteKey(id, juror) in w.tf.votes && id in w.tf.disputes
    && VoteCommitted(id, juror, c, stake, at) in w.log
    && VoteRevealed(id, juror, w.tf.votes[VoteKey(id, juror)], salt, at') in w.log
    && HashVote(w.env, w.tf.votes[VoteKey(id, juror)], salt) == c
    && stake > 0 && at < w.tf.disputes[id].commitDeadline <= at' < w.tf.disputes[id].revealDeadline
  }

  /** Voters are exactly the jurors with a recorded vote, each listed once; every recorded vote opens
      the one commitment its juror made, with a positive stake, before the commit deadline; nobody
      holds a commitment and a vote. No juror commits, reveals or is slashed twice in one dispute. */
  lemma VoteBinding(w0: World, acts: seq<Action>, id: u64, juror: Address)
    requires Initial(w0)
    ensures
      var w := Run(w0, acts);
      var k := VoteKey(id, juror);
      && NoDup(VotersOf(w.tf, id))
      && (juror in VotersOf(w.tf, id) <==> k in w.tf.votes)
      && !(k in w.tf.votes && k in w.tf.commits)
      && (k in w.tf.votes ==> exists c, salt, stake, at, at' :: VoteEvidence(w, id, juror, c, salt, stake, at, at'))
      && Unique(w.log)
  {
    hide Initial, Run, FundsOk, AccountsOk, Margin, PhasesOk, EventsOk, Recorded;
    var w := Reached(w0, acts);
    VotersVoted(w.tf, id);
    if VoteKey(id, juror) in w.tf.votes {
      var c, salt, stake, at, at' := FindEvidence(w, id, juror);
    }
    hide HistoryOk, BallotsOk;
    HistoryParts(w);
  }

  lemma FindEvidence(w: World, id: u64, juror: Address)
    returns (c: Bytes32, salt: Bytes32, stake: i128, at: u32, at': u32)
    requires HistoryOk(w) && VoteKey(id, juror) in w.tf.votes
    ensures VoteEvidence(w, id, juror, c, salt, stake, at, at')
  {
    hide EventOk;
    var k := VoteKey(id, juror);
    salt, at' :| VoteRevealed(id, juror, w.tf.votes[k], salt, at') in w.log;
    var revealed := VoteRevealed(id, juror, w.tf.votes[k], salt, at');
    c := HashVote(w.env, w.tf.votes[k], salt);
    RevealEvidence(w, revealed);
    stake, at :| VoteCommitted(id, juror, c, stake, at) in w.log;
    CommitEvidence(w, VoteCommitted(id, juror, c, stake, at));
  }

  lemma RevealEvidence(w: World, e: Event)
    requires EventsOk(w) && e in w.log && e.VoteRevealed?
    ensures e.id in w.tf.disputes && w.tf.disputes[e.id].commitDeadline <= e.at < w.tf.disputes[e.id].revealDeadline
    ensures CommittedTo(w.log, e.id, e.juror, HashVote(w.env, e.vote, e.salt))
  {
    assert EventOk(w, e);
  }

  lemma CommitEvidence(w: World, e: Event)
    requires EventsOk(w) && e in w.log && e.VoteCommitted?
    ensures e.id in w.tf.disputes && e.stake > 0 && e.at < w.tf.disputes[e.id].commitDeadline
  {
    assert EventOk(w, e);
  }

  lemma UniqueEvent(log: seq<Event>, x: Event, y: Event)
    requires Unique(log) && x in log && y in log && SameSlot(x, y)
    ensures x == y
  {
    var i :| 0 <= i < |log| && log[i] == x;
    var j :| 0 <= j < |log| && log[j] == y;
    assert SameSlot(log[j], log[i]);
  }

  /** A recorded vote and any other opening of the same commitment, to a different vote, exhibit a
      SHA-256 collision: the vote could not have been revealed otherwise. */
  lemma VoteNotReopenable(w0: World, acts: seq<Action>, id: u64, juror: Address, salt': Bytes32)
    requires Initial(w0) && VoteKey(id, juror) in Run(w0, acts).tf.votes
    requires
      var w := Run(w0, acts);
      exists x :: x in w.log && x.VoteCommitted? && x.id == id && x.juror == juror
                  && HashVote(w.env, !w.tf.votes[VoteKey(id, juror)], salt') == x.commitment
    ensures exists p: seq<u8>, q: seq<u8> ::
              |p| == |q| == 33 && p != q && Run(w0, acts).env.sha256(p) == Run(w0, acts).env.sha256(q)
  {
    hide Initial, Run;
    var w := Run(w0, acts);
    var vote := w.tf.votes[VoteKey(id, juror)];
    var x :| x in w.log && x.VoteCommitted? && x.id == id && x.juror == juror
             && HashVote(w.env, !vote, salt') == x.commitment;
    VoteBinding(w0, acts, id, juror);
    var c, salt, stake, at, at' :| VoteEvidence(w, id, juror, c, salt, stake, at, at');
    UniqueEvent(w.log, x, VoteCommitted(id, juror, c, stake, at));
    TwoOpeningsCollide(w.env, c, vote, salt, !vote, salt');
    var p, q := Preimage(vote, salt), Preimage(!vote, salt');
    assert |p| == |q| == 33 && p != q && w.env.sha256(p) == w.env.sha256(q);
  }

  predicate TakesCommits(d: DisputeRecord, at: u32) { at < d.commitDeadline }

  predicate TakesReveals(d: DisputeRecord, at: u32) { d.commitDeadline <= at < d.revealDeadline }

  /** Saturating deadlines: a dispute takes a reveal at some ledger exactly when it was raised more than
      one commit window before the last ledger; otherwise nobody can ever vote in it. */
  lemma RevealWindowOpens(w: World, id: u64, caller: Address)
    requires RaiseDispute(w, id, caller).Ok?
    ensures
      var d := RaiseDispute(w, id, caller).value.tf.disputes[id];
      && ((exists at :: TakesReveals(d, at)) <==> w.env.sequence + COMMIT_WINDOW_LEDGERS < U32_MAX)
      && (TakesCommits(d, w.env.sequence) <==> w.env.sequence < U32_MAX)
  {
    var d := RaiseDispute(w, id, caller).value.tf.disputes[id];
    if w.env.sequence + COMMIT_WINDOW_LEDGERS < U32_MAX {
      assert TakesReveals(d, d.commitDeadline);
    }
  }

  // ---- The ruling does not depend on when or by whom ----

  ghost predicate SameVotes(tf: Store, tf': Store, id: u64)
  {
    && VotersOf(tf', id) == VotersOf(tf, id)
    && (forall j :: VoteKey(id, j) in tf.votes <==> VoteKey(id, j) in tf'.votes)
    && (forall j :: VoteKey(id, j) in tf.votes ==> tf'.votes[VoteKey(id, j)] == tf.votes[VoteKey(id, j)])
  }

  lemma StepFreezesVotes(w: World, a: Action, id: u64)
    requires id in w.tf.disputes && w.tf.disputes[id].revealDeadline <= w.env.sequence
    requires Later(w.tf, Step(w, a).tf)
    ensures SameVotes(w.tf, Step(w, a).tf, id)
    ensures id in Step(w, a).tf.disputes && Step(w, a).tf.disputes[id].revealDeadline <= Step(w, a).env.sequence
  {
    hide Apply, Step, Later;
    StepSelf(w, a);
    assert id in Step(w, a).tf.disputes by { DisputeStays(w.tf, Step(w, a).tf, id); }
    DisputeStays(w.tf, Step(w, a).tf, id);
    if a.DoRevealVote? {
      LateReveal(w, a, id);
    } else {
      OnlyRevealVotes(w, a);
    }
  }

  lemma DisputeStays(tf: Store, tf': Store, id: u64)
    requires Later(tf, tf') && id in tf.disputes
    ensures id in tf'.disputes && tf'.disputes[id].revealDeadline == tf.disputes[id].revealDeadline
  {
  }

  /** A reveal after the deadline of a dispute is for another one. */
  lemma LateReveal(w: World, a: Action, id: u64)
    requires a.DoRevealVote? && id in w.tf.disputes && w.tf.disputes[id].revealDeadline <= w.env.sequence
    ensures SameVotes(w.tf, Step(w, a).tf, id)
  {
    hide HashVote;
  }

  /** Votes and voter lists change by reveals only. */
  lemma OnlyRevealVotes(w: World, a: Action)
    requires !a.DoRevealVote?
    ensures Step(w, a).tf.votes == w.tf.votes && Step(w, a).tf.voters == w.tf.voters
  {
    hide Move, Invoke, MilestoneTotal, RevealVote, Release, ResolveDispute;
    if Apply(w, a).Ok? {
      if a.DoRelease? {
        hide PriceTranche, TryTransfer;
        var t := ReleaseDid(w, a.id, a.index, a.gross, a.caller);
      } else if a.DoResolveDispute? {
        hide ReadyToResolve, SlashLosers, Ruling;
        var b, remaining := ResolveDid(w, a.id);
      }
    }
  }

  lemma {:induction false} RunFreezesVotes(w: World, acts: seq<Action>, id: u64)
    requires WorldOk(w) && id in w.tf.disputes && w.tf.disputes[id].revealDeadline <= w.env.sequence
    ensures SameVotes(w.tf, Run(w, acts).tf, id)
    decreases |acts|
  {
    hide WorldOk, Step, Later;
    if acts != [] {
      StepKeepsWorld(w, acts[0]);
      assert Later(w.tf, Step(w, acts[0]).tf);
      StepFreezesVotes(w, acts[0], id);
      RunFreezesVotes(Step(w, acts[0]), acts[1..], id);
    }
  }

  /** Once the reveal deadline has passed the ruling is fixed: whenever and by whomever the dispute is
      resolved, the recorded ruling is the majority of the votes standing at the deadline. */
  lemma RulingFixed(w0: World, acts: seq<Action>, more: seq<Action>, id: u64)
    requires Initial(w0) && id in Run(w0, acts).tf.disputes
    requires Run(w0, acts).tf.disputes[id].revealDeadline <= Run(w0, acts).env.sequence
    ensures
      var w, w' := Run(w0, acts), Run(Run(w0, acts), more);
      && SameVotes(w.tf, w'.tf, id) && Ruling(w'.tf, id) == Ruling(w.tf, id)
      && id in w'.tf.disputes
      && (w'.tf.disputes[id].resolved ==> w'.tf.disputes[id].rulingForDepositor == Ruling(w.tf, id))
  {
    hide Initial, Run, Ruling, Margin, FundsOk, AccountsOk, HistoryOk;
    var w := Reached(w0, acts);
    RunKeepsWorld(w, more);
    RunFreezesVotes(w, more, id);
    var w' := Run(w, more);
    VotersVoted(w.tf, id);
    RulingFrame(w.tf, w'.tf, id);
  }

  /** A dispute without a vote at its reveal deadline stays open for ever: in every continuation
      nothing resolves it and nothing is released from its escrow. */
  lemma UnvotedDisputeIsStuck(w0: World, acts: seq<Action>, more: seq<Action>, id: u64)
    requires Initial(w0) && id in Run(w0, acts).tf.disputes
    requires Run(w0, acts).tf.disputes[id].revealDeadline <= Run(w0, acts).env.sequence
    requires VotersOf(Run(w0, acts).tf, id) == []
    ensures
      var w' := Run(Run(w0, acts), more);
      && id in w'.tf.escrows && w'.tf.escrows[id].status == Disputed
      && ResolveDispute(w', id).Err?
      && forall index, gross, caller :: Release(w', id, index, gross, caller).Err?
  {
    hide Initial, Run, WorldOk, Release, ResolveDispute, Later;
    var w := Reached(w0, acts);
    RunKeepsWorld(w, more);
    RunFreezesVotes(w, more, id);
    var w' := Run(w, more);
    DisputeStays(w.tf, w'.tf, id);
    UnvotedIsOpen(w', id);
    forall index, gross, caller ensures Release(w', id, index, gross, caller).Err? {
      if Release(w', id, index, gross, caller).Ok? {
        var t := ReleaseDid(w', id, index, gross, caller);
      }
    }
  }

  lemma UnvotedIsOpen(w: World, id: u64)
    requires WorldOk(w) && id in w.tf.disputes && VotersOf(w.tf, id) == []
    ensures id in w.tf.escrows && w.tf.escrows[id].status == Disputed && ResolveDispute(w, id).Err?
  {
    hide AccountsOk, HistoryOk, Margin, SlashLosers, Ruling, PayRemainder, EscrowsOk;
    ResolvePreconditions(w, id);
  }

  // ---- Resolutions ----

  /** One resolution in full. */
  lemma ResolutionSpec(w0: World, acts: seq<Action>, id: u64)
    requires Initial(w0) && ResolveDispute(Run(w0, acts), id).Ok?
    ensures
      var w := Run(w0, acts);
      var w' := ResolveDispute(w, id).value;
      var voters, votes := VotersOf(w.tf, id), w.tf.votes;
      && id in w'.tf.disputes && id in w.tf.escrows
      && var ruling := w'.tf.disputes[id].rulingForDepositor;
      && (ruling <==> 2 * |Side(votes, id, voters, true)| >= |voters|)
      && (forall j :: if Loses(votes, id, voters, ruling, j)
                      then SlashedExactly(BenchOf(w), BenchOf(w'), j, w.tf.slashBps)
                      else Untouched(BenchOf(w), BenchOf(w'), j))
      && |w'.log| == |w.log| + 1 + (if |Side(votes, id, voters, true)| <= |Side(votes, id, voters, false)|
                                    then |Side(votes, id, voters, true)| else |Side(votes, id, voters, false)|)
      && w'.tf.votes == votes && w'.tf.voters == w.tf.voters && w'.tf.commits == w.tf.commits
      && (forall k :: k in w.tf.disputes && k != id ==> k in w'.tf.disputes && w'.tf.disputes[k] == w.tf.disputes[k])
      && TotalStake(w.tf) - TotalStake(w'.tf) == Total(w'.log, SlashedStake) - Total(w.log, SlashedStake)
      && var remaining := w.tf.escrows[id].amount - EscrowReleasedOf(w.tf, id);
      var recipient := if ruling then w.tf.escrows[id].depositor else w.tf.escrows[id].beneficiary;
      && remaining > 0 && Ok(w'.tok) == Move(w.tok, w.env.self, recipient, remaining)
      && w'.log[|w'.log| - 1] == DisputePaid(id, ruling, recipient, remaining, w.env.sequence)
  {
    hide Initial, Run, ResolveDispute, ReadyToResolve, SlashLosers, Ruling, Move;
    hide EscrowsOk, AccountsOk, Margin, PhasesOk, SlashedExactly, Untouched, Loses;
    hide TotalStake, Total, EventOk, Recorded;
    var w := Reached(w0, acts);
    var b, remaining := ResolveDid(w, id);
    var voters, ruling := VotersOf(w.tf, id), Ruling(w.tf, id);
    VotersVoted(w.tf, id);
    RulingIsMajority(w.tf, id);
    SlashLosersExact(BenchOf(w), w.tf.votes, id, voters, ruling, w.tf.slashBps);
    ResolvePreconditions(w, id);
    NotYetResolved(w, id);
    SlashLosersLog(BenchOf(w), w.tf.votes, id, voters, ruling, w.tf.slashBps);
    ResolveMargin(w, id);
    TallyIsCardinality(w.tf.votes, id, voters, true);
    TallyIsCardinality(w.tf.votes, id, voters, false);
    TalliesSum(w.tf.votes, id, voters);
    hide FundsOk, HistoryOk, BallotsOk;
    BenchSame(BenchOf(w), b, BenchOf(ResolveDispute(w, id).value), w.tf.votes, id, voters, ruling, w.tf.slashBps);
  }

  lemma BenchSame(b: Bench, x: Bench, y: Bench, votes: map<VoteKey, bool>, id: u64, voters: seq<Address>,
                  ruling: bool, bps: u32)
    requires x.stakes == y.stakes && x.slashCounts == y.slashCounts
    requires forall j ::
               if Loses(votes, id, voters, ruling, j) then SlashedExactly(b, x, j, bps) else Untouched(b, x, j)
    ensures forall j :: if Loses(votes, id, voters, ruling, j) then SlashedExactly(b, y, j, bps) else Untouched(b, y, j)
  {
    hide Loses, SlashAmount;
    forall j ensures if Loses(votes, id, voters, ruling, j) then SlashedExactly(b, y, j, bps) else Untouched(b, y, j) {
      assert if Loses(votes, id, voters, ruling, j) then SlashedExactly(b, x, j, bps) else Untouched(b, x, j);
    }
  }
}
