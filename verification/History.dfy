/** What the history of a run says about votes, rulings and payments, and its agreement with storage. */
module History {
  import opened Base
  import opened FeeMath
  import opened AbundanceToken
  import opened TrustFlow
  import opened EscrowInvariants
  import opened Solvency
  import opened Conservation
  import opened Ballots

  /** `c` is the hash of `vote` with some salt. */
  ghost predicate Opens(env: Env, vote: bool, c: Bytes32)
  {
    exists salt: Bytes32 :: HashVote(env, vote, salt) == c
  }

  /** The commitment is still on file, or was opened by the recorded vote. */
  ghost predicate Bound(env: Env, tf: Store, k: VoteKey, c: Bytes32)
  {
    (k in tf.commits && tf.commits[k] == c) || (k in tf.votes && Opens(env, tf.votes[k], c))
  }

  ghost predicate CommittedTo(log: seq<Event>, id: u64, juror: Address, c: Bytes32)
  {
    exists stake: i128, at: u32 :: VoteCommitted(id, juror, c, stake, at) in log
  }

  ghost predicate RevealedAs(log: seq<Event>, id: u64, juror: Address, vote: bool)
  {
    exists salt: Bytes32, at: u32 :: VoteRevealed(id, juror, vote, salt, at) in log
  }

  /** One event against the world it led to. */
  ghost predicate EventOk(w: World, e: Event)
  {
    var tf := w.tf;
    match e
    case VoteCommitted(id, juror, c, stake, at) =>
      && id in tf.disputes && stake > 0 && at <= w.env.sequence && at < tf.disputes[id].commitDeadline
      && Bound(w.env, tf, VoteKey(id, juror), c)
    case VoteRevealed(id, juror, vote, salt, at) =>
      && id in tf.disputes && at <= w.env.sequence
      && tf.disputes[id].commitDeadline <= at < tf.disputes[id].revealDeadline
      && VoteKey(id, juror) in tf.votes && tf.votes[VoteKey(id, juror)] == vote
      && CommittedTo(w.log, id, juror, HashVote(w.env, vote, salt))
    case JurorSlashed(id, juror, slash, remaining, count) =>
      && id in tf.disputes && tf.disputes[id].resolved && slash >= 0
      && VoteKey(id, juror) in tf.votes && tf.votes[VoteKey(id, juror)] != tf.disputes[id].rulingForDepositor
    case DisputePaid(id, ruling, recipient, paid, at) =>
      && id in tf.disputes && tf.disputes[id].resolved && at <= w.env.sequence
      && tf.disputes[id].rulingForDepositor == ruling && tf.disputes[id].revealDeadline <= at
      && id in tf.escrows && paid > 0
      && recipient == (if ruling then tf.escrows[id].depositor else tf.escrows[id].beneficiary)
    case TrancheReleased(id, _, gross, fee, payout, _, _, beneficiary, treasury) =>
      && id in tf.escrows && id in tf.feeConfigs && 0 <= fee && 0 <= payout && fee + payout == gross
      && beneficiary == tf.escrows[id].beneficiary && treasury == tf.feeConfigs[id].treasury
    case _ => true
  }

  /** Two events that no run holds both of: a juror's two commitments, reveals or slashes in one
      dispute, or two resolutions of one dispute. */
  predicate SameSlot(e: Event, e': Event)
  {
    || (e.VoteCommitted? && e'.VoteCommitted? && e.id == e'.id && e.juror == e'.juror)
    || (e.VoteRevealed? && e'.VoteRevealed? && e.id == e'.id && e.juror == e'.juror)
    || (e.JurorSlashed? && e'.JurorSlashed? && e.id == e'.id && e.juror == e'.juror)
    || (e.DisputePaid? && e'.DisputePaid? && e.id == e'.id)
  }

  ghost predicate Unique(log: seq<Event>)
  {
    forall i, j :: 0 <= i < j < |log| ==> !SameSlot(log[i], log[j])
  }

  ghost predicate EventsOk(w: World)
  {
    forall e :: e in w.log ==> EventOk(w, e)
  }

  /** Everything stored about votes happened in the history. */
  ghost predicate Recorded(w: World)
  {
    && (forall k :: k in w.tf.commits ==> CommittedTo(w.log, k.escrowId, k.juror, w.tf.commits[k]))
    && (forall k :: k in w.tf.votes ==> RevealedAs(w.log, k.escrowId, k.juror, w.tf.votes[k]))
  }

  ghost predicate HistoryOk(w: World)
  {
    EventsOk(w) && Unique(w.log) && Recorded(w)
  }

  // ---- Events stay true ----

  /** What a step may do to the things events speak of. */
  ghost predicate Keeps(w: World, w': World)
  {
    && w'.env.self == w.env.self && w'.env.sha256 == w.env.sha256 && w.env.sequence <= w'.env.sequence
    && Later(w.tf, w'.tf)
    && (forall k :: k in w.tf.votes ==> k in w'.tf.votes && w'.tf.votes[k] == w.tf.votes[k])
    && (forall k :: k in w.tf.commits ==> Bound(w'.env, w'.tf, k, w.tf.commits[k]))
    && w.log <= w'.log
  }

  lemma EventStays(w: World, w': World, e: Event)
    requires Keeps(w, w') && EventOk(w, e)
    ensures EventOk(w', e)
  {
    match e
    case VoteCommitted(id, juror, c, stake, at) =>
      BoundStays(w, w', VoteKey(id, juror), c);
    case VoteRevealed(id, juror, vote, salt, at) =>
      CommittedStays(w.log, w'.log, id, juror, HashVote(w.env, vote, salt));
      assert HashVote(w'.env, vote, salt) == HashVote(w.env, vote, salt);
    case _ =>
  }

  lemma BoundStays(w: World, w': World, k: VoteKey, c: Bytes32)
    requires Keeps(w, w') && Bound(w.env, w.tf, k, c)
    ensures Bound(w'.env, w'.tf, k, c)
  {
    hide Later;
    if !(k in w.tf.commits && w.tf.commits[k] == c) {
      var salt: Bytes32 :| HashVote(w.env, w.tf.votes[k], salt) == c;
      assert HashVote(w'.env, w'.tf.votes[k], salt) == c;
    }
  }

  lemma CommittedStays(log: seq<Event>, log': seq<Event>, id: u64, juror: Address, c: Bytes32)
    requires log <= log' && CommittedTo(log, id, juror, c)
    ensures CommittedTo(log', id, juror, c)
  {
    var stake: i128, at: u32 :| VoteCommitted(id, juror, c, stake, at) in log;
    assert VoteCommitted(id, juror, c, stake, at) in log';
  }

  lemma RevealedStays(log: seq<Event>, log': seq<Event>, id: u64, juror: Address, vote: bool)
    requires log <= log' && RevealedAs(log, id, juror, vote)
    ensures RevealedAs(log', id, juror, vote)
  {
    var salt: Bytes32, at: u32 :| VoteRevealed(id, juror, vote, salt, at) in log;
    assert VoteRevealed(id, juror, vote, salt, at) in log';
  }

  /** A step that adds no vote and no commitment keeps the recorded ones. */
  lemma SameRecords(w: World, w': World)
    requires Recorded(w) && w.log <= w'.log
    requires w'.tf.commits == w.tf.commits && w'.tf.votes == w.tf.votes
    ensures Recorded(w')
  {
    forall k | k in w.tf.commits ensures CommittedTo(w'.log, k.escrowId, k.juror, w.tf.commits[k]) {
      CommittedStays(w.log, w'.log, k.escrowId, k.juror, w.tf.commits[k]);
    }
    forall k | k in w.tf.votes ensures RevealedAs(w'.log, k.escrowId, k.juror, w.tf.votes[k]) {
      RevealedStays(w.log, w'.log, k.escrowId, k.juror, w.tf.votes[k]);
    }
  }

  /** A step that appends one event. */
  lemma OneEvent(w: World, w': World, e: Event)
    requires EventsOk(w) && Unique(w.log) && Keeps(w, w') && w'.log == w.log + [e]
    requires EventOk(w', e) && forall x :: x in w.log ==> !SameSlot(x, e)
    ensures EventsOk(w') && Unique(w'.log)
  {
    hide EventOk, Keeps;
    forall x | x in w'.log ensures EventOk(w', x) {
      if x in w.log {
        assert EventOk(w, x);
        EventStays(w, w', x);
      }
    }
  }

  lemma NoEvent(w: World, w': World)
    requires EventsOk(w) && Keeps(w, w') && w'.log == w.log
    ensures EventsOk(w')
  {
    hide EventOk, Keeps;
    forall x | x in w'.log ensures EventOk(w', x) {
      EventStays(w, w', x);
    }
  }

  // ---- Steps ----

  lemma CommitHistory(w: World, id: u64, juror: Address, commitment: Bytes32)
    requires BallotsOk(w.env.sequence, w.tf) && HistoryOk(w) && CommitVote(w, id, juror, commitment).Ok?
    ensures HistoryOk(CommitVote(w, id, juror, commitment).value)
    ensures Keeps(w, CommitVote(w, id, juror, commitment).value)
  {
    hide HistoryOk, BallotsOk, EventOk, Keeps, Later;
    var w', e := CommitDid(w, id, juror, commitment);
    CommitBallots(w, id, juror, commitment);
    hide CommitVote;
    HistoryParts(w);
    forall x | x in w.log ensures !SameSlot(x, e) {
      NoEarlierCommit(w, x, id, juror);
    }
    OneEvent(w, w', e);
    CommitRecorded(w, w', VoteKey(id, juror), e);
    HistoryWhole(w');
  }

  lemma HistoryParts(w: World)
    requires HistoryOk(w)
    ensures EventsOk(w) && Unique(w.log) && Recorded(w)
  {
  }

  lemma HistoryWhole(w: World)
    requires EventsOk(w) && Unique(w.log) && Recorded(w)
    ensures HistoryOk(w)
  {
  }

  lemma NoEarlierCommit(w: World, x: Event, id: u64, juror: Address)
    requires EventOk(w, x) && VoteKey(id, juror) !in w.tf.commits && VoteKey(id, juror) !in w.tf.votes
    ensures !(x.VoteCommitted? && x.id == id && x.juror == juror)
    ensures !(x.VoteRevealed? && x.id == id && x.juror == juror)
  {
  }

  lemma NoEarlierReveal(w: World, x: Event, id: u64, juror: Address)
    requires EventOk(w, x) && VoteKey(id, juror) !in w.tf.votes
    ensures !(x.VoteRevealed? && x.id == id && x.juror == juror)
  {
  }

  lemma CommitDid(w: World, id: u64, juror: Address, commitment: Bytes32) returns (w': World, e: Event)
    requires CommitVote(w, id, juror, commitment).Ok?
    ensures w' == CommitVote(w, id, juror, commitment).value && w'.log == w.log + [e] && Keeps(w, w') && EventOk(w', e)
    ensures e.VoteCommitted? && e.id == id && e.juror == juror && e.commitment == commitment
    ensures VoteKey(id, juror) !in w.tf.commits
    ensures w'.tf.votes == w.tf.votes && w'.tf.commits == w.tf.commits[VoteKey(id, juror) := commitment]
  {
    w' := CommitVote(w, id, juror, commitment).value;
    e := VoteCommitted(id, juror, commitment, StakeOf(w.tf, juror), w.env.sequence);
  }

  lemma CommitRecorded(w: World, w': World, k: VoteKey, e: Event)
    requires Recorded(w) && w'.log == w.log + [e] && e.VoteCommitted? && k == VoteKey(e.id, e.juror)
    requires w'.tf.votes == w.tf.votes && w'.tf.commits == w.tf.commits[k := e.commitment]
    ensures Recorded(w')
  {
    SameRecords(w, w.(log := w'.log));
    assert VoteCommitted(e.id, e.juror, e.commitment, e.stake, e.at) in w'.log;
  }

  lemma RevealHistory(w: World, id: u64, juror: Address, vote: bool, salt: Bytes32)
    requires HistoryOk(w) && RevealVote(w, id, juror, vote, salt).Ok?
    ensures HistoryOk(RevealVote(w, id, juror, vote, salt).value)
    ensures Keeps(w, RevealVote(w, id, juror, vote, salt).value)
  {
    hide HistoryOk, EventOk, Keeps, Later;
    var w', e := RevealDid(w, id, juror, vote, salt);
    hide RevealVote, BookVote;
    HistoryParts(w);
    forall x | x in w.log ensures !SameSlot(x, e) {
      NoEarlierReveal(w, x, id, juror);
    }
    OneEvent(w, w', e);
    RevealRecorded(w, w', VoteKey(id, juror), e);
    HistoryWhole(w');
  }

  lemma RevealDid(w: World, id: u64, juror: Address, vote: bool, salt: Bytes32) returns (w': World, e: Event)
    requires HistoryOk(w) && RevealVote(w, id, juror, vote, salt).Ok?
    ensures w' == RevealVote(w, id, juror, vote, salt).value && w'.log == w.log + [e] && Keeps(w, w') && EventOk(w', e)
    ensures e.VoteRevealed? && e.id == id && e.juror == juror && e.vote == vote
    ensures VoteKey(id, juror) !in w.tf.votes
    ensures w'.tf.votes == w.tf.votes[VoteKey(id, juror) := vote]
    ensures w'.tf.commits == w.tf.commits - {VoteKey(id, juror)}
  {
    w' := RevealVote(w, id, juror, vote, salt).value;
    e := VoteRevealed(id, juror, vote, salt, w.env.sequence);
    var k := VoteKey(id, juror);
    RevealKeeps(w, w', k, vote, salt);
    CommittedStays(w.log, w'.log, id, juror, w.tf.commits[k]);
  }

  lemma RevealKeeps(w: World, w': World, k: VoteKey, vote: bool, salt: Bytes32)
    requires k in w.tf.commits && k !in w.tf.votes && HashVote(w.env, vote, salt) == w.tf.commits[k]
    requires w'.env == w.env && w.log <= w'.log
    requires w'.tf == w.tf.(votes := w.tf.votes[k := vote], commits := w.tf.commits - {k}, voters := w'.tf.voters)
    ensures Keeps(w, w')
  {
    assert Opens(w.env, vote, w.tf.commits[k]);
  }

  lemma RevealRecorded(w: World, w': World, k: VoteKey, e: Event)
    requires Recorded(w) && w'.log == w.log + [e] && e.VoteRevealed? && k == VoteKey(e.id, e.juror)
    requires w'.tf.votes == w.tf.votes[k := e.vote] && w'.tf.commits == w.tf.commits - {k}
    ensures Recorded(w')
  {
    SameRecords(w, w.(log := w'.log));
    assert VoteRevealed(e.id, e.juror, e.vote, e.salt, e.at) in w'.log;
  }

  lemma ReleaseHistory(w: World, id: u64, index: u32, gross: i128, caller: Address)
    requires FundsOk(w) && HistoryOk(w) && Release(w, id, index, gross, caller).Ok?
    requires Later(w.tf, Release(w, id, index, gross, caller).value.tf)
    ensures HistoryOk(Release(w, id, index, gross, caller).value)
    ensures Keeps(w, Release(w, id, index, gross, caller).value)
  {
    hide Release, PriceTranche, TryTransfer, TrancheChecked, TranchePriced, FloorFee, EscrowsOk, Later;
    var w' := Release(w, id, index, gross, caller).value;
    var t := ReleaseDid(w, id, index, gross, caller);
    TranchePrices(w, id, index, gross, caller);
    var e := w'.log[|w.log|];
    assert Keeps(w, w');
    OneEvent(w, w', e);
    SameRecords(w, w');
  }

  /** What the slashing loop appends: one event per losing voter. */
  lemma {:induction false} SlashLosersLog(b: Bench, votes: map<VoteKey, bool>, id: u64, voters: seq<Address>,
                                          ruling: bool, bps: u32)
    requires NoDup(voters) && StakesOk(b.stakes) && bps <= 10_000
    requires SlashLosers(b, votes, id, voters, ruling, bps).Ok?
    requires Unique(b.log) && forall x :: x in b.log ==> !(x.JurorSlashed? && x.id == id)
    ensures
      var b' := SlashLosers(b, votes, id, voters, ruling, bps).value;
      && b.log <= b'.log && Unique(b'.log)
      && |b'.log| == |b.log| + Tally(votes, id, voters, !ruling)
      && forall x :: x in b'.log ==>
           x in b.log || (x.JurorSlashed? && x.id == id && x.slash >= 0 && Loses(votes, id, voters, ruling, x.juror))
    decreases |voters|
  {
    hide SlashAmount;
    if voters != [] {
      var n := |voters| - 1;
      var front, last := voters[..n], voters[n];
      SlashLosersLog(b, votes, id, front, ruling, bps);
      SlashLosersBooks(b, votes, id, front, ruling, bps);
      OneMoreVoter(votes, id, voters, ruling);
      var mid := SlashLosers(b, votes, id, front, ruling, bps).value;
      SlashAmountTiers(GetOr(mid.stakes, last, 0), bps);
    }
  }

  lemma ResolveHistory(w: World, id: u64)
    requires FundsOk(w) && BallotsOk(w.env.sequence, w.tf) && HistoryOk(w) && ResolveDispute(w, id).Ok?
    requires Later(w.tf, ResolveDispute(w, id).value.tf)
    ensures HistoryOk(ResolveDispute(w, id).value)
    ensures Keeps(w, ResolveDispute(w, id).value)
  {
    hide ResolveDispute, ReadyToResolve, SlashLosers, Ruling, Move, EscrowsOk, Later, PhasesOk, EventOk;
    var w' := ResolveDispute(w, id).value;
    var b, remaining := ResolveDid(w, id);
    ResolvePreconditions(w, id);
    var voters, ruling := VotersOf(w.tf, id), Ruling(w.tf, id);
    NotYetResolved(w, id);
    SlashLosersLog(BenchOf(w), w.tf.votes, id, voters, ruling, w.tf.slashBps);
    assert Keeps(w, w');
    VotersVoted(w.tf, id);
    hide FundsOk;
    ResolveEvents(w, b.log, w', id, remaining);
    SameRecords(w, w');
  }

  lemma VotersVoted(tf: Store, id: u64)
    requires ListsOk(tf)
    ensures NoDup(VotersOf(tf, id))
    ensures forall j :: j in VotersOf(tf, id) ==>
              VoteKey(id, j) in tf.votes && tf.votes[VoteKey(id, j)] == VoteOf(tf.votes, id, j)
  {
  }

  lemma NotYetResolved(w: World, id: u64)
    requires EventsOk(w) && id in w.tf.disputes && !w.tf.disputes[id].resolved
    ensures forall x :: x in w.log ==> !(x.JurorSlashed? && x.id == id) && !(x.DisputePaid? && x.id == id)
  {
    forall x | x in w.log ensures !(x.JurorSlashed? && x.id == id) && !(x.DisputePaid? && x.id == id) {
      assert EventOk(w, x);
    }
  }

  lemma ResolveEvents(w: World, slashed: seq<Event>, w': World, id: u64, remaining: i128)
    requires EventsOk(w) && Keeps(w, w') && id in w.tf.escrows && id in w.tf.disputes && remaining > 0
    requires Unique(slashed) && w.log <= slashed && id in w'.tf.disputes && w'.tf.disputes[id].resolved
    requires forall j :: j in VotersOf(w.tf, id) ==>
               VoteKey(id, j) in w.tf.votes && w.tf.votes[VoteKey(id, j)] == VoteOf(w.tf.votes, id, j)
    requires
      var ruling := w'.tf.disputes[id].rulingForDepositor;
      var recipient := if ruling then w.tf.escrows[id].depositor else w.tf.escrows[id].beneficiary;
      && w'.log == slashed + [DisputePaid(id, ruling, recipient, remaining, w.env.sequence)]
      && w'.tf.votes == w.tf.votes && w.tf.disputes[id].revealDeadline <= w.env.sequence
      && (forall x :: x in slashed && x !in w.log ==>
            x.JurorSlashed? && x.id == id && x.slash >= 0 && Loses(w.tf.votes, id, VotersOf(w.tf, id), ruling, x.juror))
    requires forall x :: x in w.log ==> !(x.DisputePaid? && x.id == id)
    ensures EventsOk(w') && Unique(w'.log)
  {
    forall x | x in w'.log ensures EventOk(w', x) {
      if x in w.log {
        assert EventOk(w, x);
        EventStays(w, w', x);
      }
    }
  }

  /** Steps that neither vote, nor resolve, nor release. */
  lemma QuietHistory(w: World, a: Action)
    requires HistoryOk(w) && Apply(w, a).Ok? && Later(w.tf, Apply(w, a).value.tf)
    requires !a.DoCommitVote? && !a.DoRevealVote? && !a.DoRelease? && !a.DoResolveDispute?
    ensures HistoryOk(Apply(w, a).value) && Keeps(w, Apply(w, a).value)
  {
    hide Later, Move, Invoke, MilestoneTotal, EventsOk, Unique, Recorded;
    var w' := Apply(w, a).value;
    assert w'.tf.votes == w.tf.votes && w'.tf.commits == w.tf.commits;
    assert w'.log == w.log || (w'.log == w.log + [w'.log[|w.log|]] && PlainEvent(w'.log[|w.log|]));
    hide Apply;
    assert w'.env == w.env.(sequence := w'.env.sequence) && w.env.sequence <= w'.env.sequence by {
      StepSelf(w, a);
      assert Step(w, a) == w';
    }
    QuietEvents(w, w');
  }

  predicate PlainEvent(e: Event)
  {
    e.Staked? || e.Unstaked? || e.EscrowInitialized?
  }

  lemma QuietEvents(w: World, w': World)
    requires HistoryOk(w) && Later(w.tf, w'.tf)
    requires w'.env == w.env.(sequence := w'.env.sequence) && w.env.sequence <= w'.env.sequence
    requires w'.tf.votes == w.tf.votes && w'.tf.commits == w.tf.commits
    requires w'.log == w.log
             || (|w'.log| == |w.log| + 1 && w'.log == w.log + [w'.log[|w.log|]] && PlainEvent(w'.log[|w.log|]))
    ensures HistoryOk(w') && Keeps(w, w')
  {
    hide Later;
    assert Keeps(w, w');
    if w'.log == w.log {
      NoEvent(w, w');
    } else {
      OneEvent(w, w', w'.log[|w.log|]);
    }
    SameRecords(w, w');
  }

  lemma StepKeepsHistory(w: World, a: Action)
    requires FundsOk(w) && AccountsOk(w) && BallotsOk(w.env.sequence, w.tf) && HistoryOk(w)
    ensures HistoryOk(Step(w, a)) && Keeps(w, Step(w, a))
  {
    hide FundsOk, AccountsOk, BallotsOk, HistoryOk, Later, EventsOk, Recorded;
    hide Release, ResolveDispute, CommitVote, RevealVote, RaiseDispute, CreateEscrow, InitEscrow;
    hide Stake, Unstake, OutsideTokenCall, SetFeeBps, SetTreasury, SetPauser, Pause, Unpause;
    StepKeepsAccounts(w, a);
    if Apply(w, a).Ok? {
      match a
      case DoCommitVote(id, juror, commitment) => CommitHistory(w, id, juror, commitment);
      case DoRevealVote(id, juror, vote, salt) => RevealHistory(w, id, juror, vote, salt);
      case DoRelease(id, index, gross, caller) => ReleaseHistory(w, id, index, gross, caller);
      case DoResolveDispute(id) => ResolveHistory(w, id);
      case _ => QuietHistory(w, a);
    } else {
      Reflexive(w);
    }
  }

  lemma Reflexive(w: World)
    requires Later(w.tf, w.tf)
    ensures Keeps(w, w)
  {
  }
}
