/** What each entry point answers in a reachable world, from conditions a caller can check: the error it
    reports, in order, or success and everything it changed. */
module EntryPoints {
  import opened Base
  import opened Sums
  import opened FeeMath
  import opened AbundanceToken
  import opened AbundanceProofs
  import opened TokenCalls
  import opened TrustFlow
  import opened EscrowInvariants
  import opened Solvency
  import opened Conservation
  import opened Ballots
  import opened History
  import opened Runs
  import opened Liveness

  /** A reachable world whose token supply is an i128. */
  ghost predicate Bounded(w: World)
  {
    WorldOk(w) && Supply(w.tok) <= I128_MAX
  }

  /** The call reports `refusal`, or succeeds. */
  predicate Answers<T>(r: Result<T>, refusal: Option<Error>)
  {
    match refusal
    case Some(e) => r == Err(e)
    case None => r.Ok?
  }

  function Min(a: int, b: int): int { if a <= b then a else b }

  lemma BoundedParts(w: World)
    requires Bounded(w)
    ensures TokenInv(w.tok) && Supply(w.tok) <= I128_MAX && forall a :: Balance(w.tok, a) >= 0
  {
    hide AccountsOk, BallotsOk, HistoryOk, Margin, EscrowsOk, Supply;
  }

  // ---- Administration ----

  lemma InitializeExact(w: World, admin: Address, slashBps: u32)
    ensures
      var r := Initialize(w, admin, slashBps);
      && (r.Ok? <==> admin != w.env.self && slashBps <= 10_000)
      && (r.Ok? ==>
            && r.value == w.(tf := r.value.tf) && r.value.tf.admin == admin == r.value.tf.treasury
            && r.value.tf.slashBps == slashBps && r.value.tf.feeBps == 50 && r.value.tf.escrowCounter == 0
            && r.value.tf == w.tf.(admin := admin, treasury := admin, slashBps := slashBps, feeBps := 50,
                                   escrowCounter := 0))
  {
  }

  /** Who may change a setting, and to what. */
  ghost function AdminRefusal(w: World, a: Action): Option<Error>
    requires a.DoSetFeeBps? || a.DoSetTreasury? || a.DoSetPauser? || a.DoPause? || a.DoUnpause?
  {
    if a.caller == w.env.self then Some(Trap)
    else if a.caller != w.tf.admin && !(a.DoPause? && w.tf.pauser == Some(a.caller)) then Some(Unauthorized)
    else if a.DoSetFeeBps? && a.feeBps > 1_000 then Some(InvalidFeeBps)
    else None
  }

  /** Settings change by these calls only, each changing its own. */
  lemma AdminExact(w: World, a: Action)
    requires a.DoSetFeeBps? || a.DoSetTreasury? || a.DoSetPauser? || a.DoPause? || a.DoUnpause?
    ensures Answers(Apply(w, a), AdminRefusal(w, a))
    ensures
      var w' := Step(w, a);
      && w' == w.(tf := w'.tf)
      && (Apply(w, a).Ok? ==>
            && w'.tf == w.tf.(feeBps := w'.tf.feeBps, treasury := w'.tf.treasury,
                              pauser := w'.tf.pauser, paused := w'.tf.paused)
            && w'.tf.feeBps == (if a.DoSetFeeBps? then a.feeBps else w.tf.feeBps)
            && w'.tf.treasury == (if a.DoSetTreasury? then a.treasury else w.tf.treasury)
            && w'.tf.pauser == (if a.DoSetPauser? then a.pauser else w.tf.pauser)
            && w'.tf.paused == (if a.DoPause? then true else if a.DoUnpause? then false else w.tf.paused))
  {
  }

  ghost predicate SameSettings(tf: Store, tf': Store)
  {
    && tf'.admin == tf.admin && tf'.slashBps == tf.slashBps && tf'.feeBps == tf.feeBps
    && tf'.treasury == tf.treasury && tf'.pauser == tf.pauser && tf'.paused == tf.paused
  }

  // ---- Staking ----

  ghost function StakeRefusal(w: World, juror: Address, amount: i128): Option<Error>
  {
    if juror == w.env.self then Some(Trap)
    else if w.tf.paused then Some(ContractPaused)
    else if amount <= 0 then Some(InvalidAmount)
    else if amount > Balance(w.tok, juror) then Some(Trap)
    else None
  }

  /** Exactly the juror's stake changed, by `amount`, and the tokens moved with it. */
  ghost predicate StakeMoved(w: World, w': World, juror: Address, amount: int)
  {
    && w'.env == w.env && w'.tf == w.tf.(stakes := w'.tf.stakes)
    && (forall j :: StakeOf(w'.tf, j) == StakeOf(w.tf, j) + (if j == juror then amount else 0))
    && Transferred(w.tok, w'.tok, juror, w.env.self, amount)
  }

  lemma StakeExact(w: World, juror: Address, amount: i128)
    requires Bounded(w)
    ensures Answers(Stake(w, juror, amount), StakeRefusal(w, juror, amount))
    ensures Stake(w, juror, amount).Ok? ==>
              var w' := Stake(w, juror, amount).value;
              && StakeMoved(w, w', juror, amount)
              && w'.log == w.log + [Staked(juror, amount, StakeOf(w'.tf, juror))]
  {
    hide Bounded, Move, Supply;
    BoundedParts(w);
    assert 0 <= StakeOf(w.tf, juror) <= Balance(w.tok, w.env.self) by { StakeBacked(w, juror); }
    MoveEffect(w.tok, juror, w.env.self, amount);
    MoveTraps(w.tok, juror, w.env.self, amount);
    if StakeRefusal(w, juror, amount).None? {
      AffordableMoveSucceeds(w.tok, juror, w.env.self, amount);
    }
  }

  lemma StakeBacked(w: World, juror: Address)
    requires Bounded(w)
    ensures 0 <= StakeOf(w.tf, juror) <= Balance(w.tok, w.env.self)
  {
    hide WorldOk;
    StakeCovered(w, juror);
  }

  ghost function UnstakeRefusal(w: World, juror: Address, amount: i128): Option<Error>
  {
    if juror == w.env.self then Some(Trap)
    else if w.tf.paused then Some(ContractPaused)
    else if amount > StakeOf(w.tf, juror) then Some(InsufficientStake)
    else if amount < 0 then Some(Trap)
    else None
  }

  lemma UnstakeAnswers(w: World, juror: Address, amount: i128)
    requires Bounded(w)
    ensures Answers(Unstake(w, juror, amount), UnstakeRefusal(w, juror, amount))
    ensures Unstake(w, juror, amount).Ok? ==>
              var w' := Unstake(w, juror, amount).value;
              && w'.env == w.env && w'.tf == w.tf.(stakes := w'.tf.stakes)
              && (forall j :: StakeOf(w'.tf, j) == StakeOf(w.tf, j) - (if j == juror then amount else 0))
              && Transferred(w.tok, w'.tok, w.env.self, juror, amount)
              && w'.log == w.log + [Unstaked(juror, amount, StakeOf(w'.tf, juror))]
  {
    hide Bounded, Move, Supply;
    BoundedParts(w);
    StakeBacked(w, juror);
    MoveEffect(w.tok, w.env.self, juror, amount);
    MoveTraps(w.tok, w.env.self, juror, amount);
    if UnstakeRefusal(w, juror, amount).None? {
      AffordableMoveSucceeds(w.tok, w.env.self, juror, amount);
    }
  }

  // ---- Creation ----

  ghost function CreateRefusal(w: World, depositor: Address, amount: i128): Option<Error>
  {
    if depositor == w.env.self then Some(Trap)
    else if w.tf.paused then Some(ContractPaused)
    else if amount <= 0 then Some(InvalidAmount)
    else if amount > Balance(w.tok, depositor) then Some(Trap)
    else if w.tf.escrowCounter == U64_MAX then Some(ArithmeticOverflow)
    else None
  }

  /** One escrow was added, under the next number, with the tokens moved and nothing else changed. */
  ghost predicate OpenedFor(w: World, w': World, depositor: Address, beneficiary: Address, amount: int,
                            ms: Vec<Milestone>)
  {
    var id := w'.tf.escrowCounter;
    && 0 < amount <= I128_MAX && w'.env == w.env && Transferred(w.tok, w'.tok, depositor, w.env.self, amount)
    && OpenWrites(w.tf, w'.tf, EscrowRecord(id, depositor, beneficiary, amount, Active, ms))
  }

  lemma OpenExact(w: World, depositor: Address, beneficiary: Address, amount: i128, ms: Vec<Milestone>)
    requires Bounded(w) && depositor != w.env.self && !w.tf.paused && amount > 0
    ensures Answers(OpenEscrow(w, depositor, beneficiary, amount, ms), CreateRefusal(w, depositor, amount))
    ensures OpenEscrow(w, depositor, beneficiary, amount, ms).Ok? ==>
              OpenedFor(w, OpenEscrow(w, depositor, beneficiary, amount, ms).value, depositor, beneficiary, amount, ms)
  {
    hide Bounded, Move, Supply;
    BoundedParts(w);
    MoveEffect(w.tok, depositor, w.env.self, amount);
    MoveTraps(w.tok, depositor, w.env.self, amount);
    if amount <= Balance(w.tok, depositor) {
      AffordableMoveSucceeds(w.tok, depositor, w.env.self, amount);
    }
  }

  lemma CreateExact(w: World, depositor: Address, beneficiary: Address, amount: i128)
    requires Bounded(w)
    ensures Answers(CreateEscrow(w, depositor, beneficiary, amount), CreateRefusal(w, depositor, amount))
    ensures CreateEscrow(w, depositor, beneficiary, amount).Ok? ==>
              var w' := CreateEscrow(w, depositor, beneficiary, amount).value;
              OpenedFor(w, w', depositor, beneficiary, amount, []) && w'.log == w.log
  {
    hide Bounded, OpenEscrow, OpenedFor;
    if depositor != w.env.self && !w.tf.paused && amount > 0 {
      OpenExact(w, depositor, beneficiary, amount, []);
      if OpenEscrow(w, depositor, beneficiary, amount, []).Ok? {
        OpenDid(w, depositor, beneficiary, amount, []);
      }
    }
  }

  /** Positive amounts whose sum is an i128. */
  ghost predicate Acceptable(ms: seq<Milestone>)
  {
    (forall i :: 0 <= i < |ms| ==> ms[i].amount > 0) && SeqSum(Amounts(ms)) <= I128_MAX
  }

  /** The validation loop stops at milestone `n`, at an amount that is not positive or takes the sum
      beyond i128. */
  ghost predicate StopsAt(ms: seq<Milestone>, n: nat, e: Error)
  {
    && n < |ms| && Acceptable(ms[..n])
    && if ms[n].amount <= 0 then e == InvalidAmount
       else SeqSum(Amounts(ms[..n])) + ms[n].amount > I128_MAX && e == ArithmeticOverflow
  }

  /** A list that is not acceptable is refused with the error of the first milestone that makes it so. */
  lemma {:induction false} ListErrors(ms: seq<Milestone>)
    ensures MilestoneTotal(ms).Err? <==> !Acceptable(ms)
    ensures MilestoneTotal(ms).Err? ==> exists n :: StopsAt(ms, n, MilestoneTotal(ms).error)
  {
    hide SeqSum;
    MilestoneTotalExact(ms);
    if ms != [] && MilestoneTotal(ms).Err? {
      var n := |ms| - 1;
      var front := ms[..n];
      ListErrors(front);
      if MilestoneTotal(front).Err? {
        var k: nat :| StopsAt(front, k, MilestoneTotal(front).error);
        assert front[..k] == ms[..k];
        assert StopsAt(ms, k, MilestoneTotal(ms).error);
      } else {
        MilestoneTotalExact(front);
        assert StopsAt(ms, n, MilestoneTotal(ms).error);
      }
    }
  }

  /** `init_escrow` takes every non-empty list of positive amounts that the depositor can cover. */
  lemma InitExact(w: World, depositor: Address, beneficiary: Address, ms: Vec<Milestone>)
    requires Bounded(w)
    ensures
      var r, total := InitEscrow(w, depositor, beneficiary, ms), SeqSum(Amounts(ms));
      if depositor == w.env.self then r == Err(Trap)
      else if w.tf.paused then r == Err(ContractPaused)
      else if ms == [] then r == Err(InvalidAmount)
      else if !Acceptable(ms) then r.Err? && exists n :: StopsAt(ms, n, r.error)
      else if total > Balance(w.tok, depositor) then r == Err(Trap)
      else if w.tf.escrowCounter == U64_MAX then r == Err(ArithmeticOverflow)
      else
        && r.Ok? && OpenedFor(w, r.value, depositor, beneficiary, total, ms)
        && r.value.log == w.log + [EscrowInitialized(w.tf.escrowCounter + 1, depositor, beneficiary, total)]
  {
    hide Bounded, OpenEscrow, MilestoneTotal, SeqSum, Acceptable, StopsAt;
    if depositor != w.env.self && !w.tf.paused {
      ListErrors(ms);
      MilestoneTotalExact(ms);
      EmptyTotal();
      if MilestoneTotal(ms).Ok? && ms != [] {
        PositiveTotal(ms);
        OpenExact(w, depositor, beneficiary, SeqSum(Amounts(ms)), ms);
        if OpenEscrow(w, depositor, beneficiary, SeqSum(Amounts(ms)), ms).Ok? {
          OpenDid(w, depositor, beneficiary, SeqSum(Amounts(ms)), ms);
        }
      }
    }
  }

  lemma EmptyTotal()
    ensures MilestoneTotal([]) == Ok(0)
  {
  }

  lemma {:induction false} PositiveTotal(ms: seq<Milestone>)
    requires Acceptable(ms) && ms != []
    ensures SeqSum(Amounts(ms)) > 0
  {
    var n := |ms| - 1;
    assert Amounts(ms)[..n] == Amounts(ms[..n]);
    if n > 0 {
      MilestoneTotalExact(ms);
      PrefixAcceptable(ms, n);
      PositiveTotal(ms[..n]);
    }
  }

  lemma PrefixAcceptable(ms: seq<Milestone>, n: nat)
    requires Acceptable(ms) && n + 1 == |ms|
    ensures Acceptable(ms[..n])
  {
    assert Amounts(ms)[..n] == Amounts(ms[..n]);
  }

  // ---- Releases ----

  ghost function ReleaseRefusal(w: World, id: u64, index: u32, gross: i128, caller: Address): Option<Error>
  {
    if caller == w.env.self then Some(Trap)
    else if w.tf.paused then Some(ContractPaused)
    else if gross <= 0 then Some(InvalidAmount)
    else if id !in w.tf.escrows then Some(EscrowNotFound)
    else
      var e := w.tf.escrows[id];
      if caller != e.depositor then Some(Unauthorized)
      else if e.status != Active then Some(InvalidState)
      else if index >= |e.milestones| then Some(MilestoneNotFound)
      else if w.env.sequence < e.milestones[index].releaseTime then Some(MilestoneTimeLocked)
      else
        var after := MilestoneReleasedOf(w.tf, id, index) + gross;
        if after > I128_MAX then Some(InvalidAmount)
        else if after > e.milestones[index].amount then Some(MilestoneAmountMismatch)
        else None
  }

  /** A release fails only for what its caller can check; what it does is stated by `ReleaseDid`,
      `BookTrancheViews` and `TranchePrices`. */
  lemma ReleaseAnswers(w: World, id: u64, index: u32, gross: i128, caller: Address)
    requires Bounded(w)
    ensures Answers(Release(w, id, index, gross, caller), ReleaseRefusal(w, id, index, gross, caller))
  {
    hide WorldOk, TryTransfer, BookTranche, Supply;
    if ReleaseRefusal(w, id, index, gross, caller).None? {
      hide PriceTranche, Release;
      ReleaseExact(w, id, index, gross, caller);
    } else {
      hide CumulativeFee;
    }
  }

  // ---- Disputes ----

  ghost function RaiseRefusal(w: World, id: u64, caller: Address): Option<Error>
  {
    if caller == w.env.self then Some(Trap)
    else if w.tf.paused then Some(ContractPaused)
    else if id !in w.tf.escrows then Some(EscrowNotFound)
    else if w.tf.escrows[id].status != Active then Some(InvalidState)
    else if caller != w.tf.escrows[id].depositor && caller != w.tf.escrows[id].beneficiary then Some(Unauthorized)
    else None
  }

  /** Only a party of an active escrow raises a dispute; it freezes the escrow and opens two windows of a
      day each, cut short only by the end of the clock. */
  lemma RaiseExact(w: World, id: u64, caller: Address)
    ensures Answers(RaiseDispute(w, id, caller), RaiseRefusal(w, id, caller))
    ensures RaiseDispute(w, id, caller).Ok? ==>
              RaiseDispute(w, id, caller).value == w.(tf := w.tf.(
                escrows := w.tf.escrows[id := w.tf.escrows[id].(status := Disputed)],
                disputes := w.tf.disputes[id :=
                  DisputeRecord(id, caller, false, false, Min(w.env.sequence + 17_280, U32_MAX),
                                Min(w.env.sequence + 34_560, U32_MAX))]))
  {
  }

  ghost function CommitRefusal(w: World, id: u64, juror: Address): Option<Error>
  {
    if juror == w.env.self then Some(Trap)
    else if w.tf.paused then Some(ContractPaused)
    else if StakeOf(w.tf, juror) <= 0 then Some(InsufficientStake)
    else if id !in w.tf.disputes then Some(DisputeNotFound)
    else if w.tf.disputes[id].resolved then Some(DisputeAlreadyResolved)
    else if w.env.sequence >= w.tf.disputes[id].commitDeadline then Some(CommitPhaseEnded)
    else if VoteKey(id, juror) in w.tf.commits then Some(AlreadyCommitted)
    else None
  }

  lemma CommitExact(w: World, id: u64, juror: Address, commitment: Bytes32)
    ensures Answers(CommitVote(w, id, juror, commitment), CommitRefusal(w, id, juror))
    ensures CommitVote(w, id, juror, commitment).Ok? ==>
              CommitVote(w, id, juror, commitment).value == w.(
                tf := w.tf.(commits := w.tf.commits[VoteKey(id, juror) := commitment]),
                log := w.log + [VoteCommitted(id, juror, commitment, StakeOf(w.tf, juror), w.env.sequence)])
  {
  }

  ghost function RevealRefusal(w: World, id: u64, juror: Address, vote: bool, salt: Bytes32): Option<Error>
  {
    if juror == w.env.self then Some(Trap)
    else if w.tf.paused then Some(ContractPaused)
    else if id !in w.tf.disputes then Some(DisputeNotFound)
    else if w.tf.disputes[id].resolved then Some(DisputeAlreadyResolved)
    else if w.env.sequence < w.tf.disputes[id].commitDeadline then Some(RevealPhaseNotOpen)
    else if w.env.sequence >= w.tf.disputes[id].revealDeadline then Some(RevealPhaseNotOpen)
    else if VoteKey(id, juror) in w.tf.votes then Some(AlreadyVoted)
    else if VoteKey(id, juror) !in w.tf.commits then Some(NoCommitFound)
    else if w.env.sha256([if vote then 1 else 0] + salt) != w.tf.commits[VoteKey(id, juror)] then Some(InvalidReveal)
    else if |VotersOf(w.tf, id)| >= U32_MAX then Some(Trap)
    else None
  }

  /** Any ledger from the commit deadline to before the reveal deadline takes the opening of a commitment. */
  lemma RevealExact(w: World, id: u64, juror: Address, vote: bool, salt: Bytes32)
    ensures Answers(RevealVote(w, id, juror, vote, salt), RevealRefusal(w, id, juror, vote, salt))
    ensures RevealVote(w, id, juror, vote, salt).Ok? ==>
              var w', k := RevealVote(w, id, juror, vote, salt).value, VoteKey(id, juror);
              && w' == w.(tf := w'.tf, log := w.log + [VoteRevealed(id, juror, vote, salt, w.env.sequence)])
              && w'.tf == w.tf.(votes := w.tf.votes[k := vote], commits := w'.tf.commits, voters := w'.tf.voters)
              && w'.tf.commits == w.tf.commits - {k}
              && w'.tf.voters == w.tf.voters[id := w'.tf.voters[id]]
              && VotersOf(w'.tf, id) == VotersOf(w.tf, id) + [juror]
  {
  }

  ghost function ResolveRefusal(w: World, id: u64): Option<Error>
  {
    if w.tf.paused then Some(ContractPaused)
    else if id !in w.tf.disputes then Some(DisputeNotFound)
    else if w.tf.disputes[id].resolved then Some(DisputeAlreadyResolved)
    else if w.env.sequence < w.tf.disputes[id].revealDeadline then Some(RevealPhaseNotEnded)
    else if VotersOf(w.tf, id) == [] then Some(NoVotesCast)
    else if exists j :: Loses(w.tf.votes, id, VotersOf(w.tf, id), Ruling(w.tf, id), j)
                        && GetOr(w.tf.slashCounts, j, 0) == U32_MAX then Some(ArithmeticOverflow)
    else None
  }

  /** A resolution fails only for its phase, for want of votes, or at a losing voter's full slash counter;
      what it does is stated by `ResolutionSpec`. */
  lemma ResolveAnswers(w: World, id: u64)
    requires Bounded(w)
    ensures Answers(ResolveDispute(w, id), ResolveRefusal(w, id))
  {
    hide WorldOk, SlashLosers, Ruling, Loses, Supply, PayRemainder;
    if !w.tf.paused {
      ResolveExact(w, id);
    }
    if ReadyToResolve(w, id).Ok? && ResolveDispute(w, id).Err? {
      OpenDisputeFacts(w, id);
      SlashLosersSucceeds(BenchOf(w), w.tf.votes, id, VotersOf(w.tf, id), Ruling(w.tf, id), w.tf.slashBps);
      SlashErrors(BenchOf(w), w.tf.votes, id, VotersOf(w.tf, id), Ruling(w.tf, id), w.tf.slashBps);
    }
  }

  lemma {:induction false} SlashErrors(b: Bench, votes: map<VoteKey, bool>, id: u64, voters: seq<Address>,
                                       ruling: bool, bps: u32)
    ensures SlashLosers(b, votes, id, voters, ruling, bps).Err? ==>
              SlashLosers(b, votes, id, voters, ruling, bps) == Err(ArithmeticOverflow)
    decreases |voters|
  {
    hide SlashAmount;
    if voters != [] {
      SlashErrors(b, votes, id, voters[..|voters| - 1], ruling, bps);
    }
  }

  // ---- What only some calls do ----

  /** Nothing but the five administrative calls changes a setting. */
  lemma SettingsStay(w: World, a: Action)
    requires !a.DoSetFeeBps? && !a.DoSetTreasury? && !a.DoSetPauser? && !a.DoPause? && !a.DoUnpause?
    ensures SameSettings(w.tf, Step(w, a).tf)
  {
    hide Stake, Unstake, OutsideTokenCall, OpenEscrow, MilestoneTotal, Release, ResolveDispute;
    hide RaiseDispute, CommitVote, RevealVote;
    if Apply(w, a).Ok? {
      if a.DoRelease? {
        hide PriceTranche, TryTransfer;
        var t := ReleaseDid(w, a.id, a.index, a.gross, a.caller);
      } else if a.DoResolveDispute? {
        hide ReadyToResolve, SlashLosers, Ruling;
        var b, remaining := ResolveDid(w, a.id);
      } else if a.DoCreateEscrow? {
        OpenDid(w, a.depositor, a.beneficiary, a.amount, []);
      } else if a.DoInitEscrow? {
        OpenDid(w, a.depositor, a.beneficiary, MilestoneTotal(a.milestones).value, a.milestones);
      } else {
        OtherSettingsStay(w, a);
      }
    }
  }

  lemma OtherSettingsStay(w: World, a: Action)
    requires Apply(w, a).Ok?
    requires a.DoStake? || a.DoUnstake? || a.DoToken? || a.DoAdvance?
             || a.DoRaiseDispute? || a.DoCommitVote? || a.DoRevealVote?
    ensures SameSettings(w.tf, Step(w, a).tf)
  {
    hide Move, Invoke, HashVote;
  }

  /** Outside the contract, a token call changes the ledger only and the clock only moves forward. */
  lemma OutsideExact(w: World, a: Action)
    requires a.DoToken? || a.DoAdvance?
    ensures a.DoToken? ==>
              var r := Invoke(w.tok, w.env.sequence, a.call);
              && (Apply(w, a).Ok? <==> a.call.Signer() != w.env.self && r.Ok?)
              && (Apply(w, a).Ok? ==> Step(w, a) == w.(tok := r.value))
    ensures a.DoAdvance? ==>
              && (Apply(w, a).Ok? <==> w.env.sequence <= a.sequence)
              && (Apply(w, a).Ok? ==> Step(w, a) == w.(env := w.env.(sequence := a.sequence)))
  {
    hide Invoke;
  }

  /** Disputes come into being by `raise_dispute` alone. */
  lemma OnlyRaising(w: World, a: Action, id: u64)
    requires id in Step(w, a).tf.disputes && id !in w.tf.disputes
    ensures a.DoRaiseDispute? && a.id == id && Apply(w, a).Ok?
  {
    hide Stake, Unstake, OutsideTokenCall, OpenEscrow, MilestoneTotal, Release, ResolveDispute, CommitVote, RevealVote;
    if Apply(w, a).Ok? {
      if a.DoRelease? {
        hide PriceTranche, TryTransfer;
        var t := ReleaseDid(w, a.id, a.index, a.gross, a.caller);
      } else if a.DoResolveDispute? {
        hide ReadyToResolve, SlashLosers, Ruling;
        var b, remaining := ResolveDid(w, a.id);
      } else if a.DoCreateEscrow? {
        OpenDid(w, a.depositor, a.beneficiary, a.amount, []);
      } else if a.DoInitEscrow? {
        OpenDid(w, a.depositor, a.beneficiary, MilestoneTotal(a.milestones).value, a.milestones);
      } else if a.DoCommitVote? || a.DoRevealVote? {
        VotesSpareEscrows(w, a);
      } else if a.DoStake? || a.DoUnstake? || a.DoToken? {
        StakesSpareEscrows(w, a);
      }
    }
  }

  ghost predicate RaisedByParties(tf: Store)
  {
    forall id :: id in tf.disputes ==>
      && id in tf.escrows
      && (tf.disputes[id].raisedBy == tf.escrows[id].depositor
          || tf.disputes[id].raisedBy == tf.escrows[id].beneficiary)
  }

  lemma StepKeepsParties(w: World, a: Action)
    requires RaisedByParties(w.tf) && Later(w.tf, Step(w, a).tf)
    ensures RaisedByParties(Step(w, a).tf)
  {
    hide Apply, Step, Forward, EscrowReleasedOf;
    var tf' := Step(w, a).tf;
    forall id | id in tf'.disputes
      ensures id in tf'.escrows
      ensures tf'.disputes[id].raisedBy == tf'.escrows[id].depositor
              || tf'.disputes[id].raisedBy == tf'.escrows[id].beneficiary
    {
      if id !in w.tf.disputes {
        OnlyRaising(w, a, id);
        RaisedNow(w, a);
      }
    }
  }

  lemma RaisedNow(w: World, a: Action)
    requires a.DoRaiseDispute? && Apply(w, a).Ok?
    ensures
      var tf' := Step(w, a).tf;
      && a.id in tf'.escrows && a.id in tf'.disputes && tf'.disputes[a.id].raisedBy == a.caller
      && (a.caller == tf'.escrows[a.id].depositor || a.caller == tf'.escrows[a.id].beneficiary)
  {
    RaiseExact(w, a.id, a.caller);
  }

  lemma {:induction false} RunKeepsParties(w: World, acts: seq<Action>)
    requires WorldOk(w) && RaisedByParties(w.tf)
    ensures RaisedByParties(Run(w, acts).tf)
    decreases |acts|
  {
    hide WorldOk, RaisedByParties, Step, Later;
    if acts != [] {
      StepKeepsWorld(w, acts[0]);
      StepKeepsParties(w, acts[0]);
      RunKeepsParties(Step(w, acts[0]), acts[1..]);
    }
  }

  /** In every run every dispute was raised by the depositor or the beneficiary of its escrow. */
  lemma DisputesRaisedByParties(w0: World, acts: seq<Action>)
    requires Initial(w0)
    ensures RaisedByParties(Run(w0, acts).tf)
  {
    InitialOk(w0);
    hide WorldOk;
    RunKeepsParties(w0, acts);
  }

  // ---- What the slashing events report ----

  /** Each slashing event names a loser and reports the stake taken, the stake left and the counter. */
  ghost predicate ReportsSlash(b: Bench, b': Bench, x: Event)
  {
    && x.JurorSlashed? && x.juror in b'.stakes && x.juror in b'.slashCounts
    && x.remaining == b'.stakes[x.juror] && x.count == b'.slashCounts[x.juror]
    && x.slash == GetOr(b.stakes, x.juror, 0) - x.remaining
  }

  lemma {:induction false} SlashReports(b: Bench, votes: map<VoteKey, bool>, id: u64, voters: seq<Address>,
                                        ruling: bool, bps: u32)
    requires NoDup(voters) && SlashLosers(b, votes, id, voters, ruling, bps).Ok?
    ensures
      var b' := SlashLosers(b, votes, id, voters, ruling, bps).value;
      && b.log <= b'.log
      && forall i :: |b.log| <= i < |b'.log| ==>
           ReportsSlash(b, b', b'.log[i]) && b'.log[i].id == id && b'.log[i].juror in voters
    decreases |voters|
  {
    hide SlashAmount;
    if voters != [] {
      var n := |voters| - 1;
      SlashReports(b, votes, id, voters[..n], ruling, bps);
      if VoteOf(votes, id, voters[n]) != ruling {
        SlashingSpares(b, votes, id, voters[..n], ruling, bps, voters[n]);
      }
    }
  }

  /** The loop leaves the stake of an address it does not list alone. */
  lemma {:induction false} SlashingSpares(b: Bench, votes: map<VoteKey, bool>, id: u64, voters: seq<Address>,
                                          ruling: bool, bps: u32, j: Address)
    requires j !in voters && SlashLosers(b, votes, id, voters, ruling, bps).Ok?
    ensures GetOr(SlashLosers(b, votes, id, voters, ruling, bps).value.stakes, j, 0) == GetOr(b.stakes, j, 0)
    decreases |voters|
  {
    hide SlashAmount;
    if voters != [] {
      SlashingSpares(b, votes, id, voters[..|voters| - 1], ruling, bps, j);
    }
  }
}
