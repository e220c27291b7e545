/** Tallies and slashing against their specifications, and the invariant of the stored ballots. */
module Ballots {
  import opened Base
  import opened FeeMath
  import opened AbundanceToken
  import opened TrustFlow
  import opened EscrowInvariants
  import opened Solvency

  // ---- Commitments ----

  /** The preimage layout is injective. */
  lemma PreimageInjective(vote: bool, salt: Bytes32, vote': bool, salt': Bytes32)
    ensures |Preimage(vote, salt)| == 33
    ensures Preimage(vote, salt) == Preimage(vote', salt') <==> vote == vote' && salt == salt'
  {
    if Preimage(vote, salt) == Preimage(vote', salt') {
      assert Preimage(vote, salt)[0] == Preimage(vote', salt')[0];
      assert Preimage(vote, salt)[1..] == salt && Preimage(vote', salt')[1..] == salt';
    }
  }

  /** One commitment opened in two different ways is a collision of the hash on 33-byte inputs. */
  lemma TwoOpeningsCollide(env: Env, c: Bytes32, vote: bool, salt: Bytes32, vote': bool, salt': Bytes32)
    requires HashVote(env, vote, salt) == c == HashVote(env, vote', salt')
    requires vote != vote' || salt != salt'
    ensures
      var x, y := Preimage(vote, salt), Preimage(vote', salt');
      |x| == 33 && |y| == 33 && x != y && env.sha256(x) == env.sha256(y)
  {
    PreimageInjective(vote, salt, vote', salt');
  }

  // ---- Tally ----

  ghost function Side(votes: map<VoteKey, bool>, id: u64, voters: seq<Address>, side: bool): set<Address>
  {
    set j | j in voters && VoteOf(votes, id, j) == side
  }

  /** On a list without repetitions the loop counts the set of voters on a side, so the order of
      the list is irrelevant. */
  lemma {:induction false} TallyIsCardinality(votes: map<VoteKey, bool>, id: u64, voters: seq<Address>, side: bool)
    requires NoDup(voters)
    ensures Tally(votes, id, voters, side) == |Side(votes, id, voters, side)|
  {
    if voters == [] {
      assert Side(votes, id, voters, side) == {};
    } else {
      var n := |voters| - 1;
      TallyIsCardinality(votes, id, voters[..n], side);
      SideGrows(votes, id, voters[..n], voters[n], side);
      assert voters == voters[..n] + [voters[n]];
    }
  }

  lemma SideGrows(votes: map<VoteKey, bool>, id: u64, front: seq<Address>, last: Address, side: bool)
    requires last !in front
    ensures |Side(votes, id, front + [last], side)|
         == |Side(votes, id, front, side)| + (if VoteOf(votes, id, last) == side then 1 else 0)
  {
    assert Side(votes, id, front + [last], side)
        == Side(votes, id, front, side) + (if VoteOf(votes, id, last) == side then {last} else {});
  }

  lemma {:induction false} TalliesSum(votes: map<VoteKey, bool>, id: u64, voters: seq<Address>)
    ensures Tally(votes, id, voters, true) + Tally(votes, id, voters, false) == |voters|
  {
    if voters != [] {
      TalliesSum(votes, id, voters[..|voters| - 1]);
    }
  }

  /** The ruling: the depositor wins with at least half the revealed votes. */
  lemma RulingIsMajority(tf: Store, id: u64)
    requires NoDup(VotersOf(tf, id))
    ensures Ruling(tf, id) <==>
              2 * |Side(tf.votes, id, VotersOf(tf, id), true)| >= |VotersOf(tf, id)|
  {
    TallyIsCardinality(tf.votes, id, VotersOf(tf, id), true);
    TalliesSum(tf.votes, id, VotersOf(tf, id));
  }

  lemma {:induction false} TallyFrame(votes: map<VoteKey, bool>, votes': map<VoteKey, bool>, id: u64,
                                      voters: seq<Address>, side: bool)
    requires forall j :: j in voters ==> VoteOf(votes', id, j) == VoteOf(votes, id, j)
    ensures Tally(votes', id, voters, side) == Tally(votes, id, voters, side)
  {
    if voters != [] {
      TallyFrame(votes, votes', id, voters[..|voters| - 1], side);
    }
  }

  /** Same voter list, same votes on this escrow: same ruling. */
  lemma RulingFrame(tf: Store, tf': Store, id: u64)
    requires VotersOf(tf', id) == VotersOf(tf, id)
    requires forall j :: j in VotersOf(tf, id) ==> VoteOf(tf'.votes, id, j) == VoteOf(tf.votes, id, j)
    ensures Ruling(tf', id) == Ruling(tf, id)
  {
    TallyFrame(tf.votes, tf'.votes, id, VotersOf(tf, id), true);
    TallyFrame(tf.votes, tf'.votes, id, VotersOf(tf, id), false);
  }

  // ---- Slashing ----

  /** One juror before and after a resolution. */
  ghost predicate SlashedExactly(b: Bench, b': Bench, j: Address, bps: u32)
  {
    var stake := GetOr(b.stakes, j, 0);
    && j in b'.stakes && b'.stakes[j] == stake - SlashAmount(stake, bps)
    && j in b'.slashCounts && b'.slashCounts[j] as int == GetOr(b.slashCounts, j, 0) as int + 1
  }

  ghost predicate Untouched(b: Bench, b': Bench, j: Address)
  {
    && (j in b'.stakes <==> j in b.stakes) && (j in b.stakes ==> b'.stakes[j] == b.stakes[j])
    && (j in b'.slashCounts <==> j in b.slashCounts) && (j in b.slashCounts ==> b'.slashCounts[j] == b.slashCounts[j])
  }

  ghost predicate Loses(votes: map<VoteKey, bool>, id: u64, voters: seq<Address>, ruling: bool, j: Address)
  {
    j in voters && VoteOf(votes, id, j) != ruling
  }

  /** The slashing loop on a list without repetitions: exactly the losing voters are slashed, each
      once, on the stake held before the loop; everyone else is untouched. */
  lemma {:induction false} SlashLosersExact(b: Bench, votes: map<VoteKey, bool>, id: u64, voters: seq<Address>,
                                            ruling: bool, bps: u32)
    requires NoDup(voters) && SlashLosers(b, votes, id, voters, ruling, bps).Ok?
    ensures
      var b' := SlashLosers(b, votes, id, voters, ruling, bps).value;
      forall j :: if Loses(votes, id, voters, ruling, j) then SlashedExactly(b, b', j, bps) else Untouched(b, b', j)
    decreases |voters|
  {
    hide SlashAmount;
    if voters != [] {
      var n := |voters| - 1;
      var front, last := voters[..n], voters[n];
      SlashLosersExact(b, votes, id, front, ruling, bps);
      OneMoreVoter(votes, id, voters, ruling);
      var mid := SlashLosers(b, votes, id, front, ruling, bps).value;
      var b' := SlashLosers(b, votes, id, voters, ruling, bps).value;
      assert Untouched(b, mid, last);
      forall j
        ensures if Loses(votes, id, voters, ruling, j) then SlashedExactly(b, b', j, bps) else Untouched(b, b', j)
      {
        assert if Loses(votes, id, front, ruling, j) then SlashedExactly(b, mid, j, bps) else Untouched(b, mid, j);
      }
    }
  }

  /** The last voter of a list without repetitions is new to it. */
  lemma OneMoreVoter(votes: map<VoteKey, bool>, id: u64, voters: seq<Address>, ruling: bool)
    requires NoDup(voters) && voters != []
    ensures
      var front, last := voters[..|voters| - 1], voters[|voters| - 1];
      && NoDup(front) && last !in front && !Loses(votes, id, front, ruling, last)
      && forall j :: Loses(votes, id, voters, ruling, j) <==>
           Loses(votes, id, front, ruling, j) || (j == last && VoteOf(votes, id, last) != ruling)
  {
    assert voters == voters[..|voters| - 1] + [voters[|voters| - 1]];
  }

  /** The loop fails exactly when some losing voter's slash counter is at its maximum. */
  lemma {:induction false} SlashLosersSucceeds(b: Bench, votes: map<VoteKey, bool>, id: u64, voters: seq<Address>,
                                               ruling: bool, bps: u32)
    requires NoDup(voters) && StakesOk(b.stakes) && bps <= 10_000
    ensures SlashLosers(b, votes, id, voters, ruling, bps).Ok? <==>
              forall j :: Loses(votes, id, voters, ruling, j) ==> GetOr(b.slashCounts, j, 0) < U32_MAX
    decreases |voters|
  {
    hide SlashAmount;
    if voters != [] {
      var n := |voters| - 1;
      var front, last := voters[..n], voters[n];
      SlashLosersSucceeds(b, votes, id, front, ruling, bps);
      OneMoreVoter(votes, id, voters, ruling);
      hide Loses;
      if SlashLosers(b, votes, id, front, ruling, bps).Ok? {
        SlashLosersExact(b, votes, id, front, ruling, bps);
        assert Untouched(b, SlashLosers(b, votes, id, front, ruling, bps).value, last);
        SlashAmountTiers(GetOr(b.stakes, last, 0), bps);
      } else {
        var j :| Loses(votes, id, front, ruling, j) && GetOr(b.slashCounts, j, 0) == U32_MAX;
        assert Loses(votes, id, voters, ruling, j);
      }
    }
  }

  /** Two orders of the same voters lead to the same ruling and the same stakes and counters. */
  lemma ResolutionIgnoresOrder(b: Bench, votes: map<VoteKey, bool>, id: u64, order: seq<Address>,
                               order': seq<Address>, ruling: bool, bps: u32)
    requires NoDup(order) && NoDup(order') && (forall j :: j in order <==> j in order')
    requires StakesOk(b.stakes) && bps <= 10_000
    ensures forall side :: Tally(votes, id, order', side) == Tally(votes, id, order, side)
    ensures SlashLosers(b, votes, id, order', ruling, bps).Ok? <==> SlashLosers(b, votes, id, order, ruling, bps).Ok?
    ensures SlashLosers(b, votes, id, order, ruling, bps).Ok? ==>
              var r := SlashLosers(b, votes, id, order, ruling, bps);
              var r' := SlashLosers(b, votes, id, order', ruling, bps);
              r'.value.stakes == r.value.stakes && r'.value.slashCounts == r.value.slashCounts
  {
    forall side ensures Tally(votes, id, order', side) == Tally(votes, id, order, side) {
      TallyIsCardinality(votes, id, order, side);
      TallyIsCardinality(votes, id, order', side);
      assert Side(votes, id, order', side) == Side(votes, id, order, side);
    }
    SlashLosersSucceeds(b, votes, id, order, ruling, bps);
    SlashLosersSucceeds(b, votes, id, order', ruling, bps);
    assert forall j :: Loses(votes, id, order', ruling, j) == Loses(votes, id, order, ruling, j);
    if SlashLosers(b, votes, id, order, ruling, bps).Ok? {
      SlashLosersExact(b, votes, id, order, ruling, bps);
      SlashLosersExact(b, votes, id, order', ruling, bps);
      SameBench(b, SlashLosers(b, votes, id, order, ruling, bps).value,
                SlashLosers(b, votes, id, order', ruling, bps).value, votes, id, order, ruling, bps);
    }
  }

  lemma SameBench(b: Bench, x: Bench, y: Bench, votes: map<VoteKey, bool>, id: u64, voters: seq<Address>,
                  ruling: bool, bps: u32)
    requires forall j ::
               if Loses(votes, id, voters, ruling, j) then SlashedExactly(b, x, j, bps) else Untouched(b, x, j)
    requires forall j ::
               if Loses(votes, id, voters, ruling, j) then SlashedExactly(b, y, j, bps) else Untouched(b, y, j)
    ensures x.stakes == y.stakes && x.slashCounts == y.slashCounts
  {
    hide SlashAmount, Loses;
    forall j
      ensures j in x.stakes <==> j in y.stakes
      ensures j in x.stakes ==> x.stakes[j] == y.stakes[j]
      ensures j in x.slashCounts <==> j in y.slashCounts
      ensures j in x.slashCounts ==> x.slashCounts[j] == y.slashCounts[j]
    {
      if Loses(votes, id, voters, ruling, j) {
        assert SlashedExactly(b, x, j, bps) && SlashedExactly(b, y, j, bps);
      } else {
        assert Untouched(b, x, j) && Untouched(b, y, j);
      }
    }
  }

  // ---- The stored ballots ----

  /** Voter lists have no repetitions and list exactly the jurors with a recorded vote; nobody holds
      a commitment and a vote. */
  ghost predicate ListsOk(tf: Store)
  {
    && (forall id :: id in tf.voters ==> id in tf.disputes && tf.voters[id] != [] && NoDup(tf.voters[id]))
    && (forall k :: k in tf.votes <==> k.escrowId in tf.voters && k.juror in tf.voters[k.escrowId])
    && (forall k :: k in tf.commits ==> k.escrowId in tf.disputes && k !in tf.votes)
  }

  /** While a commitment can still be accepted nobody has voted; a ruling is that of the votes, made
      after the reveal deadline on at least one vote. */
  ghost predicate PhasesOk(now: u32, tf: Store)
  {
    forall id :: id in tf.disputes ==>
      && tf.disputes[id].commitDeadline <= tf.disputes[id].revealDeadline
      && tf.disputes[id].revealDeadline <= now + COMMIT_WINDOW_LEDGERS + REVEAL_WINDOW_LEDGERS
      && (now < tf.disputes[id].commitDeadline ==> id !in tf.voters)
      && (tf.disputes[id].resolved ==>
            && tf.disputes[id].revealDeadline <= now && id in tf.voters
            && tf.disputes[id].rulingForDepositor == Ruling(tf, id))
  }

  ghost predicate BallotsOk(now: u32, tf: Store)
  {
    ListsOk(tf) && PhasesOk(now, tf)
  }

  lemma SameBallots(now: u32, tf: Store, now': u32, tf': Store)
    requires BallotsOk(now, tf) && now <= now'
    requires tf'.disputes == tf.disputes && tf'.voters == tf.voters
    requires tf'.votes == tf.votes && tf'.commits == tf.commits
    ensures BallotsOk(now', tf')
  {
    forall id | id in tf.disputes ensures Ruling(tf', id) == Ruling(tf, id) {
      RulingFrame(tf, tf', id);
    }
  }

  lemma RaiseBallots(w: World, id: u64, caller: Address)
    requires EscrowsOk(w.env.sequence, w.tf) && BallotsOk(w.env.sequence, w.tf) && RaiseDispute(w, id, caller).Ok?
    ensures BallotsOk(w.env.sequence, RaiseDispute(w, id, caller).value.tf)
  {
    hide BallotsOk;
    var tf, tf' := w.tf, RaiseDispute(w, id, caller).value.tf;
    assert ViewOk(w.env.sequence, ViewOf(tf, id));
    hide EscrowsOk;
    NewDispute(w.env.sequence, tf, tf', id);
  }

  lemma NewDispute(now: u32, tf: Store, tf': Store, id: u64)
    requires BallotsOk(now, tf) && id !in tf.disputes
    requires tf'.voters == tf.voters && tf'.votes == tf.votes && tf'.commits == tf.commits
    requires id in tf'.disputes && tf'.disputes == tf.disputes[id := tf'.disputes[id]]
    requires !tf'.disputes[id].resolved && tf'.disputes[id].commitDeadline <= tf'.disputes[id].revealDeadline
    requires tf'.disputes[id].revealDeadline <= now + COMMIT_WINDOW_LEDGERS + REVEAL_WINDOW_LEDGERS
    ensures BallotsOk(now, tf')
  {
    hide Ruling;
    forall k ensures Ruling(tf', k) == Ruling(tf, k) {
      RulingFrame(tf, tf', k);
    }
  }

  lemma CommitBallots(w: World, id: u64, juror: Address, commitment: Bytes32)
    requires BallotsOk(w.env.sequence, w.tf) && CommitVote(w, id, juror, commitment).Ok?
    ensures BallotsOk(w.env.sequence, CommitVote(w, id, juror, commitment).value.tf)
    ensures VoteKey(id, juror) !in w.tf.votes
  {
    var tf, tf' := w.tf, CommitVote(w, id, juror, commitment).value.tf;
    forall k ensures Ruling(tf', k) == Ruling(tf, k) {
      RulingFrame(tf, tf', k);
    }
  }

  lemma RevealBallots(w: World, id: u64, juror: Address, vote: bool, salt: Bytes32)
    requires BallotsOk(w.env.sequence, w.tf) && RevealVote(w, id, juror, vote, salt).Ok?
    ensures BallotsOk(w.env.sequence, RevealVote(w, id, juror, vote, salt).value.tf)
  {
    hide HashVote, ListsOk, PhasesOk, BookVote;
    BookVoteLists(w.tf, id, juror, vote);
    BookVotePhases(w.env.sequence, w.tf, id, juror, vote);
  }

  lemma BookVotePhases(now: u32, tf: Store, id: u64, juror: Address, vote: bool)
    requires PhasesOk(now, tf) && id in tf.disputes && |VotersOf(tf, id)| < U32_MAX
    requires !tf.disputes[id].resolved && tf.disputes[id].commitDeadline <= now
    ensures PhasesOk(now, BookVote(tf, id, juror, vote))
  {
    hide Ruling;
    var tf' := BookVote(tf, id, juror, vote);
    forall k | k != id ensures Ruling(tf', k) == Ruling(tf, k) {
      RulingFrame(tf, tf', k);
    }
  }

  lemma BookVoteLists(tf: Store, id: u64, juror: Address, vote: bool)
    requires ListsOk(tf) && id in tf.disputes && |VotersOf(tf, id)| < U32_MAX && VoteKey(id, juror) !in tf.votes
    ensures ListsOk(BookVote(tf, id, juror, vote))
  {
    var tf' := BookVote(tf, id, juror, vote);
    var before, after := VotersOf(tf, id), tf'.voters[id];
    assert juror !in before;
    assert forall j :: j in after <==> j in before || j == juror;
  }

  lemma ResolveBallots(w: World, id: u64)
    requires BallotsOk(w.env.sequence, w.tf) && ResolveDispute(w, id).Ok?
    ensures BallotsOk(w.env.sequence, ResolveDispute(w, id).value.tf)
  {
    hide ResolveDispute, ReadyToResolve, SlashLosers, Ruling, Move;
    var b, remaining := ResolveDid(w, id);
    var tf, tf' := w.tf, ResolveDispute(w, id).value.tf;
    forall k ensures Ruling(tf', k) == Ruling(tf, k) {
      RulingFrame(tf, tf', k);
    }
  }

  lemma StepKeepsBallots(w: World, a: Action)
    requires EscrowsOk(w.env.sequence, w.tf) && BallotsOk(w.env.sequence, w.tf)
    ensures BallotsOk(Step(w, a).env.sequence, Step(w, a).tf)
  {
    hide EscrowsOk, BallotsOk, RaiseDispute, CommitVote, RevealVote, ResolveDispute;
    StepSelf(w, a);
    if Apply(w, a).Ok? {
      match a
      case DoRaiseDispute(id, caller) => RaiseBallots(w, id, caller);
      case DoCommitVote(id, juror, commitment) => CommitBallots(w, id, juror, commitment);
      case DoRevealVote(id, juror, vote, salt) => RevealBallots(w, id, juror, vote, salt);
      case DoResolveDispute(id) => ResolveBallots(w, id);
      case _ => OtherBallots(w, a);
    }
  }

  lemma OtherBallots(w: World, a: Action)
    requires BallotsOk(w.env.sequence, w.tf)
    requires !a.DoRaiseDispute? && !a.DoCommitVote? && !a.DoRevealVote? && !a.DoResolveDispute?
    ensures BallotsOk(Step(w, a).env.sequence, Step(w, a).tf)
  {
    hide BallotsOk, Move, Invoke, PriceTranche, TryTransfer, MilestoneTotal, CumulativeFee;
    SameBallots(w.env.sequence, w.tf, Step(w, a).env.sequence, Step(w, a).tf);
  }
}
