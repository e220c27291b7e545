/** Lifetimes of what a dispute needs beyond its escrow: stakes, commitments and votes. With the escrow
    and the jurors tended in time no commitment and no reveal is lost to archival, and a resolution is
    lost exactly when a ballot has outlived the one bump it ever gets. */
module KeeperVotes {
  import opened Base
  import opened AbundanceToken
  import opened TrustFlow
  import opened EscrowInvariants
  import opened Solvency
  import opened Ballots
  import opened Conservation
  import opened History
  import opened Runs
  import opened Guarantees
  import opened Compounding
  import opened Keeper

  // ---- Jurors ----

  /** Once the juror has a stake on record, the last keeper call for the juror is at most one ledger
      more than the threshold ago. */
  predicate KeptJuror(g: Aging, j: Address)
  {
    j in g.w.tf.stakes ==> j in g.tended && Now(g) <= g.tended[j] + LIFETIME_THRESHOLD + 1
  }

  /** Throughout the run. */
  predicate JurorCadence(g: Aging, acts: seq<AgingAction>, j: Address)
    decreases |acts|
  {
    KeptJuror(g, j) && (acts != [] ==> JurorCadence(AgingStep(g, acts[0]), acts[1..], j))
  }

  /** The juror's entries and the instance outlive the juror's last keeper call by more than the threshold. */
  ghost predicate JurorLasting(g: Aging, j: Address)
  {
    && (j in g.w.tf.slashCounts ==> j in g.w.tf.stakes)
    && (j in g.w.tf.stakes ==>
          && j in g.tended && g.tended[j] <= Now(g)
          && forall k :: k in JurorKeys(j) && Exists(g.w.tf, k) ==>
               k in g.ttl && g.ttl[k] > g.tended[j] + LIFETIME_THRESHOLD)
  }

  /** Stakes are never deleted, and a slash counter comes with a stake. */
  lemma StakesStay(w: World, a: Action, j: Address)
    requires Apply(w, a).Ok? && OnContract(a)
    ensures j in w.tf.stakes ==> j in Step(w, a).tf.stakes
    ensures j in Step(w, a).tf.slashCounts && (j in w.tf.slashCounts ==> j in w.tf.stakes) ==> j in Step(w, a).tf.stakes
  {
    hide Release, ResolveDispute, RaiseDispute, CommitVote, RevealVote, Move, MilestoneTotal;
    if a.DoRelease? {
      hide PriceTranche, TryTransfer;
      var t := ReleaseDid(w, a.id, a.index, a.gross, a.caller);
    } else if a.DoResolveDispute? {
      hide ReadyToResolve, SlashLosers, Ruling;
      var b, remaining := ResolveDid(w, a.id);
      SlashingAdds(BenchOf(w), w.tf.votes, a.id, VotersOf(w.tf, a.id), Ruling(w.tf, a.id), w.tf.slashBps, j);
    } else if a.DoRaiseDispute? || a.DoCommitVote? || a.DoRevealVote? {
      VotingSpares(w, a);
    }
  }

  lemma CallsTouchInstance(tf: Store, tf': Store, a: Action)
    ensures InstanceKey in Touched(tf, tf', a)
  {
    hide VotersOf, VoteOf, Ruling;
  }

  /** What a call that goes through does. */
  lemma CallSucceeded(g: Aging, a: Action)
    requires OnContract(a) && AgingStep(g, Call(a)) != g
    ensures Apply(g.w, a).Ok?
    ensures
      var g' := AgingStep(g, Call(a));
      && g'.w == Step(g.w, a)
      && g'.tended == g.tended + map j | j in g'.w.tf.stakes && j !in g.w.tf.stakes :: Now(g)
  {
    hide Apply, Step, Touched, ReadOnly, ExtendAll, WithNew, Usable;
  }

  lemma CallExtends(g: Aging, a: Action)
    requires OnContract(a) && AgingStep(g, Call(a)) != g
    ensures
      var g' := AgingStep(g, Call(a));
      var keys := Touched(g.w.tf, g'.w.tf, a);
      g'.ttl == ExtendAll(WithNew(g.ttl, g'.w.tf, keys, Now(g) + g.minTtl), g'.w.tf, Now(g), keys)
  {
    hide Apply, Step, Touched, ReadOnly, ExtendAll, WithNew, Usable;
  }

  /** Every call that goes through bumps the instance. */
  lemma CallBumpsInstance(g: Aging, a: Action)
    requires OnContract(a) && AgingStep(g, Call(a)) != g
    ensures
      var g' := AgingStep(g, Call(a));
      InstanceKey in g'.ttl && g'.ttl[InstanceKey] > Now(g) + LIFETIME_THRESHOLD
  {
    hide AgingStep, Apply, Step, ExtendAll, Touched;
    CallExtends(g, a);
    var w' := AgingStep(g, Call(a)).w;
    var keys := Touched(g.w.tf, w'.tf, a);
    CallsTouchInstance(g.w.tf, w'.tf, a);
    ExtendLengthens(WithNew(g.ttl, w'.tf, keys, Now(g) + g.minTtl), w'.tf, keys, Now(g), InstanceKey);
  }

  lemma CallKeepsJuror(g: Aging, a: Action, j: Address)
    requires JurorLasting(g, j) && OnContract(a)
    ensures JurorLasting(AgingStep(g, Call(a)), j)
  {
    hide AgingStep, Apply, Step;
    var g', w' := AgingStep(g, Call(a)), Step(g.w, a);
    if g' != g {
      CallSucceeded(g, a);
      StakesStay(g.w, a, j);
      StepSelf(g.w, a);
      CallBumpsInstance(g, a);
      forall k | k in JurorKeys(j) && Exists(g'.w.tf, k) && j in g'.w.tf.stakes
        ensures k in g'.ttl && g'.ttl[k] > g'.tended[j] + LIFETIME_THRESHOLD
      {
        NoLifetimeShortened(g, Call(a), k);
      }
    }
  }

  lemma OwnCallKeepsJuror(g: Aging, j: Address)
    requires JurorLasting(g, j) && KeptJuror(g, j)
    ensures JurorLasting(AgingStep(g, KeepJuror(j)), j)
  {
    hide Exists;
    if j in g.w.tf.stakes {
      assert Usable(g, JurorKeys(j));
    }
  }

  lemma OtherCallKeepsJuror(g: Aging, a: AgingAction, j: Address)
    requires JurorLasting(g, j) && !a.Call? && a != KeepJuror(j)
    ensures JurorLasting(AgingStep(g, a), j)
  {
    hide Exists, JurorKeys, ExtendAll, KeeperKeys;
    var g' := AgingStep(g, a);
    forall k | k in g.ttl ensures k in g'.ttl && g'.ttl[k] >= g.ttl[k] {
      hide AgingStep;
      NoLifetimeShortened(g, a, k);
    }
    hide Usable;
  }

  lemma StepKeepsJuror(g: Aging, a: AgingAction, j: Address)
    requires JurorLasting(g, j) && KeptJuror(g, j)
    ensures JurorLasting(AgingStep(g, a), j)
  {
    hide JurorLasting, KeptJuror, AgingStep;
    if a.Call? {
      if OnContract(a.action) {
        CallKeepsJuror(g, a.action, j);
      } else {
        OffContractKeepsJuror(g, a.action, j);
      }
    } else if a == KeepJuror(j) {
      OwnCallKeepsJuror(g, j);
    } else {
      OtherCallKeepsJuror(g, a, j);
    }
  }

  lemma OffContractKeepsJuror(g: Aging, a: Action, j: Address)
    requires JurorLasting(g, j) && !OnContract(a)
    ensures JurorLasting(AgingStep(g, Call(a)), j)
  {
    hide Step, Exists;
    OffContract(g.w, a);
  }

  lemma {:induction false} RunKeepsJuror(g: Aging, acts: seq<AgingAction>, j: Address)
    requires JurorLasting(g, j) && JurorCadence(g, acts, j)
    ensures JurorLasting(AgingRun(g, acts), j) && KeptJuror(AgingRun(g, acts), j)
    decreases |acts|
  {
    hide JurorLasting, AgingStep, KeptJuror;
    if acts != [] {
      StepKeepsJuror(g, acts[0], j);
      RunKeepsJuror(AgingStep(g, acts[0]), acts[1..], j);
    }
  }

  // ---- Commitments and votes ----

  /** A commitment on file lives to the end of its reveal window. */
  ghost predicate CommitsLasting(g: Aging)
  {
    forall v :: v in g.w.tf.commits ==>
      && v.escrowId in g.w.tf.disputes && CommitKey(v) in g.ttl
      && g.ttl[CommitKey(v)] >= g.w.tf.disputes[v.escrowId].revealDeadline
  }

  /** How long a ballot lives: a new entry's lifetime, or the bump of its reveal if that rewrites it. */
  function BallotLife(minTtl: nat): int
  {
    if minTtl <= LIFETIME_THRESHOLD then BUMP_AMOUNT else minTtl
  }

  /** Only recorded votes have a lifetime as ballots. */
  ghost predicate BallotsRecorded(g: Aging)
  {
    forall v :: BallotKey(v) in g.ttl ==> v in g.w.tf.votes
  }

  /** No call but the reveal itself ever extends a ballot. */
  ghost predicate BallotsExact(g: Aging)
  {
    && BallotsRecorded(g)
    && forall x :: x in g.w.log && x.VoteRevealed? ==>
         var k := BallotKey(VoteKey(x.id, x.juror));
         k in g.ttl && g.ttl[k] == x.at + BallotLife(g.minTtl)
  }

  /** The windows are shorter than the threshold, so a commitment made before its deadline is bumped
      past the end of the reveal window. */
  lemma DeadlineNear(w: World, v: VoteKey)
    requires WorldOk(w) && v in w.tf.commits
    ensures v.escrowId in w.tf.disputes
    ensures w.tf.disputes[v.escrowId].revealDeadline <= w.env.sequence + LIFETIME_THRESHOLD
  {
    hide FundsOk, AccountsOk, HistoryOk, Margin, Ruling;
  }

  lemma StepKeepsCommits(g: Aging, a: AgingAction)
    requires WorldOk(g.w) && CommitsLasting(g)
    ensures CommitsLasting(AgingStep(g, a))
  {
    hide WorldOk, AgingStep, Later;
    var g' := AgingStep(g, a);
    AgingKeepsWorld(g, a);
    forall v | v in g'.w.tf.commits
      ensures v.escrowId in g'.w.tf.disputes && CommitKey(v) in g'.ttl
      ensures g'.ttl[CommitKey(v)] >= g'.w.tf.disputes[v.escrowId].revealDeadline
    {
      DeadlineNear(g'.w, v);
      NoLifetimeShortened(g, a, CommitKey(v));
      if v in g.w.tf.commits {
        DisputeStays(g.w.tf, g'.w.tf, v.escrowId);
      } else {
        NewEntryNow(g, a, CommitKey(v));
      }
    }
  }

  /** The clock stands still in a step that creates an entry. */
  lemma NewEntryNow(g: Aging, a: AgingAction, k: Key)
    requires Exists(AgingStep(g, a).w.tf, k) && !Exists(g.w.tf, k)
    ensures AgingStep(g, a).w.env == g.w.env
  {
    hide Exists, Step, Touched, ReadOnly, Usable, ExtendAll, KeeperKeys;
    if a.Call? {
      StepSelf(g.w, a.action);
      if !OnContract(a.action) {
        OffContract(g.w, a.action);
      }
    }
  }

  lemma AgingKeepsWorld(g: Aging, a: AgingAction)
    requires WorldOk(g.w)
    ensures WorldOk(AgingStep(g, a).w) && Keeps(g.w, AgingStep(g, a).w)
  {
    hide WorldOk, Keeps, Apply, Step, Touched, ReadOnly, Usable, ExtendAll, KeeperKeys;
    KeepsItself(g.w);
    if a.Call? {
      StepKeepsWorld(g.w, a.action);
    }
  }

  /** A reveal that is new to the history recorded a vote that was not there. */
  lemma NewReveal(w: World, w': World, x: Event)
    requires WorldOk(w) && WorldOk(w') && Keeps(w, w')
    requires x in w'.log && x !in w.log && x.VoteRevealed?
    ensures VoteKey(x.id, x.juror) in w'.tf.votes && VoteKey(x.id, x.juror) !in w.tf.votes
    ensures x.at <= w'.env.sequence
  {
    hide FundsOk, AccountsOk, BallotsOk, Margin, Later;
    assert EventOk(w', x);
    hide EventOk;
    var k := VoteKey(x.id, x.juror);
    if k in w.tf.votes {
      assert RevealedAs(w.log, x.id, x.juror, w.tf.votes[k]);
      var salt, at :| VoteRevealed(x.id, x.juror, w.tf.votes[k], salt, at) in w.log;
      var y := VoteRevealed(x.id, x.juror, w.tf.votes[k], salt, at);
      assert y in w'.log;
      UniqueEvent(w'.log, x, y);
    }
  }

  /** A ballot that has a lifetime keeps it. */
  lemma OldBallot(g: Aging, a: AgingAction, v: VoteKey)
    requires BallotKey(v) in g.ttl && v in g.w.tf.votes
    ensures
      var g' := AgingStep(g, a);
      BallotKey(v) in g'.ttl && g'.ttl[BallotKey(v)] == g.ttl[BallotKey(v)]
  {
    hide Apply, Step, ReadOnly, Usable, Exists, Touched, KeeperKeys;
    OnlyRevealsTouch(g, a, v);
    if a.Call? && a.action.DoRevealVote? && Apply(g.w, a.action).Ok? {
      FirstReveal(g.w, a.action);
    }
  }

  /** Of all calls, only the reveal of a vote extends its ballot. */
  lemma OnlyRevealsTouch(g: Aging, a: AgingAction, v: VoteKey)
    ensures a.Call? && BallotKey(v) in Touched(g.w.tf, Step(g.w, a.action).tf, a.action) ==>
              a.action.DoRevealVote? && v == VoteKey(a.action.id, a.action.juror)
    ensures a.KeepEscrow? ==> BallotKey(v) !in KeeperKeys(g.w.tf, a.id)
    ensures a.KeepJuror? ==> BallotKey(v) !in JurorKeys(a.juror)
  {
    hide Step, VotersOf, VoteOf, Ruling;
  }

  lemma FirstReveal(w: World, a: Action)
    requires a.DoRevealVote? && Apply(w, a).Ok?
    ensures VoteKey(a.id, a.juror) !in w.tf.votes
    ensures Step(w, a).env == w.env && VoteKey(a.id, a.juror) in Step(w, a).tf.votes
    ensures Step(w, a).log == w.log + [VoteRevealed(a.id, a.juror, a.vote, a.salt, w.env.sequence)]
  {
    hide HashVote;
  }

  /** A ballot gets its lifetime from the reveal that records it. */
  lemma NewBallot(g: Aging, a: AgingAction, v: VoteKey)
    requires BallotKey(v) !in g.ttl && BallotKey(v) in AgingStep(g, a).ttl
    ensures
      var g' := AgingStep(g, a);
      v in g'.w.tf.votes && g'.ttl[BallotKey(v)] == Now(g) + BallotLife(g.minTtl)
  {
    hide Apply, Step, ReadOnly, Usable, Touched, KeeperKeys;
    OnlyRevealsTouch(g, a, v);
    if a.Call? && a.action.DoRevealVote? && Apply(g.w, a.action).Ok? {
      FirstReveal(g.w, a.action);
    }
  }

  lemma RevealedNow(g: Aging, a: AgingAction, x: Event)
    requires x in AgingStep(g, a).w.log && x !in g.w.log && x.VoteRevealed?
    requires VoteKey(x.id, x.juror) in AgingStep(g, a).w.tf.votes && VoteKey(x.id, x.juror) !in g.w.tf.votes
    ensures x.at == Now(g)
  {
    hide Apply, Step, Touched, ReadOnly, Usable, ExtendAll, WithNew, KeeperKeys;
    if a.Call? {
      if a.action.DoRevealVote? && Apply(g.w, a.action).Ok? {
        FirstReveal(g.w, a.action);
      } else if Apply(g.w, a.action).Ok? {
        OnlyRevealVotes(g.w, a.action);
      } else {
        FailedStep(g.w, a.action);
      }
    }
  }

  lemma StepKeepsVotes(g: Aging, a: AgingAction)
    requires WorldOk(g.w) && BallotsExact(g)
    ensures BallotsExact(AgingStep(g, a))
  {
    hide WorldOk, AgingStep, Keeps;
    var g' := AgingStep(g, a);
    AgingKeepsWorld(g, a);
    VotesStay(g.w, g'.w);
    SameMinimum(g, a);
    forall v | BallotKey(v) in g'.ttl ensures v in g'.w.tf.votes {
      if BallotKey(v) !in g.ttl {
        NewBallot(g, a, v);
      }
    }
    forall x | x in g'.w.log && x.VoteRevealed?
      ensures BallotKey(VoteKey(x.id, x.juror)) in g'.ttl
      ensures g'.ttl[BallotKey(VoteKey(x.id, x.juror))] == x.at + BallotLife(g.minTtl)
    {
      StepKeepsBallot(g, a, x);
    }
  }

  lemma StepKeepsBallot(g: Aging, a: AgingAction, x: Event)
    requires WorldOk(g.w) && BallotsExact(g) && x in AgingStep(g, a).w.log && x.VoteRevealed?
    ensures
      var g', k := AgingStep(g, a), BallotKey(VoteKey(x.id, x.juror));
      k in g'.ttl && g'.ttl[k] == x.at + BallotLife(g.minTtl)
  {
    hide WorldOk, AgingStep, Keeps;
    var v := VoteKey(x.id, x.juror);
    if x in g.w.log {
      OldBallot(g, a, v);
    } else {
      AgingKeepsWorld(g, a);
      NewReveal(g.w, AgingStep(g, a).w, x);
      RevealedNow(g, a, x);
      NoLifetimeShortened(g, a, BallotKey(v));
      NewBallot(g, a, v);
    }
  }

  lemma VotesStay(w: World, w': World)
    requires Keeps(w, w')
    ensures forall v :: v in w.tf.votes ==> v in w'.tf.votes
  {
  }

  lemma SameMinimum(g: Aging, a: AgingAction)
    ensures AgingStep(g, a).minTtl == g.minTtl
  {
    hide Apply, Step, Touched, ReadOnly, Usable, ExtendAll, WithNew, KeeperKeys;
  }

  lemma {:induction false} RunKeepsCommits(g: Aging, acts: seq<AgingAction>)
    requires WorldOk(g.w) && CommitsLasting(g)
    ensures
      var g' := AgingRun(g, acts);
      WorldOk(g'.w) && CommitsLasting(g')
    decreases |acts|
  {
    hide WorldOk, CommitsLasting, AgingStep, Keeps;
    if acts != [] {
      AgingKeepsWorld(g, acts[0]);
      StepKeepsCommits(g, acts[0]);
      RunKeepsCommits(AgingStep(g, acts[0]), acts[1..]);
    }
  }

  /** In every run each ballot lives exactly `BallotLife` ledgers from its reveal. */
  lemma {:induction false} RunKeepsVotes(g: Aging, acts: seq<AgingAction>)
    requires WorldOk(g.w) && BallotsExact(g)
    ensures
      var g' := AgingRun(g, acts);
      WorldOk(g'.w) && BallotsExact(g') && g'.minTtl == g.minTtl
    decreases |acts|
  {
    hide WorldOk, BallotsExact, AgingStep, Keeps;
    if acts != [] {
      AgingKeepsWorld(g, acts[0]);
      StepKeepsVotes(g, acts[0]);
      SameMinimum(g, acts[0]);
      RunKeepsVotes(AgingStep(g, acts[0]), acts[1..]);
    }
  }

  // ---- What is lost to archival and what is not ----

  /** In every run with the escrow tended in time, no reveal is lost to archival, and no commitment of a
      juror tended in time. */
  lemma VoteNeverArchives(g: Aging, acts: seq<AgingAction>, a: Action)
    requires Initial(g.w) && (a.DoCommitVote? || a.DoRevealVote?)
    requires Cadence(g, acts, a.id) && (a.DoCommitVote? ==> JurorCadence(g, acts, a.juror))
    ensures AgingStep(AgingRun(g, acts), Call(a)).w == Step(AgingRun(g, acts).w, a)
  {
    hide WorldOk, Initial, AgingRun, Cadence, JurorCadence, Apply, Step, Touched, ReadOnly, Usable;
    hide Lasting, CommitsLasting, JurorLasting, KeptUp, KeptJuror;
    InitialOk(g.w);
    StartsBare(g, a.id);
    RunKeepsLasting(g, acts, a.id);
    RunKeepsCommits(g, acts);
    var g' := AgingRun(g, acts);
    if Apply(g'.w, a).Ok? {
      if a.DoCommitVote? {
        JurorStartsBare(g, a.juror);
        RunKeepsJuror(g, acts, a.juror);
        CommitUsable(g', a);
      } else {
        RevealUsable(g', a);
      }
    } else {
      FailedStep(g'.w, a);
    }
  }

  /** In every run a juror tended in time, with a stake on record, stakes and withdraws without loss to
      archival. */
  lemma StakeNeverArchives(g: Aging, acts: seq<AgingAction>, a: Action)
    requires Initial(g.w) && (a.DoStake? || a.DoUnstake?) && JurorCadence(g, acts, a.juror)
    requires a.juror in AgingRun(g, acts).w.tf.stakes
    ensures AgingStep(AgingRun(g, acts), Call(a)).w == Step(AgingRun(g, acts).w, a)
  {
    hide Initial, AgingRun, JurorCadence, Apply, Step;
    JurorStartsBare(g, a.juror);
    RunKeepsJuror(g, acts, a.juror);
    var g' := AgingRun(g, acts);
    if Apply(g'.w, a).Ok? {
      assert Usable(g', Touched(g'.w.tf, Step(g'.w, a).tf, a) + ReadOnly(g'.w.tf, a)) by {
        assert InstanceKey in JurorKeys(a.juror) && StakeKey(a.juror) in JurorKeys(a.juror);
      }
      hide Touched, ReadOnly, Usable;
    } else {
      FailedStep(g'.w, a);
    }
  }

  /** Every ballot of the dispute is still live. */
  predicate BallotsLive(g: Aging, id: u64)
  {
    forall x :: x in g.w.log && x.VoteRevealed? && x.id == id ==> Now(g) <= x.at + BallotLife(g.minTtl)
  }

  /** With the escrow and all its voters tended in time, a resolution that passes its checks goes through
      if and only if it comes within a ballot's life of every reveal. No call extends a ballot after its
      reveal, so no keeper can prevent the loss. */
  lemma ResolutionArchivesExactly(g: Aging, acts: seq<AgingAction>, id: u64)
    requires Initial(g.w) && BallotsRecorded(g) && Cadence(g, acts, id)
    requires forall j :: j in VotersOf(AgingRun(g, acts).w.tf, id) ==> JurorCadence(g, acts, j)
    requires ResolveDispute(AgingRun(g, acts).w, id).Ok?
    ensures
      var h, a := AgingRun(g, acts), DoResolveDispute(id);
      AgingStep(h, Call(a)).w == Step(h.w, a) <==> BallotsLive(h, id)
  {
    hide WorldOk, Initial, AgingRun, Cadence, JurorCadence, Step, Touched, ReadOnly, Usable;
    hide Lasting, BallotsExact, JurorLasting, KeptUp, KeptJuror, BallotsLive, ResolveDispute;
    InitialOk(g.w);
    StartsBare(g, id);
    StartsUnrevealed(g);
    RunKeepsLasting(g, acts, id);
    RunKeepsVotes(g, acts);
    var h := AgingRun(g, acts);
    forall j | j in VotersOf(h.w.tf, id) ensures JurorLasting(h, j) && KeptJuror(h, j) {
      JurorStartsBare(g, j);
      RunKeepsJuror(g, acts, j);
    }
    if BallotsLive(h, id) {
      ResolveUsable(h, DoResolveDispute(id));
    } else {
      ResolveBlocked(h, id);
    }
  }

  lemma StartsUnrevealed(g: Aging)
    requires Initial(g.w) && BallotsRecorded(g)
    ensures BallotsExact(g)
  {
    hide BallotsRecorded;
  }

  /** One expired ballot stops the resolution. */
  lemma ResolveBlocked(g: Aging, id: u64)
    requires WorldOk(g.w) && BallotsExact(g) && !BallotsLive(g, id) && ResolveDispute(g.w, id).Ok?
    ensures
      var a := DoResolveDispute(id);
      AgingStep(g, Call(a)) == g && g.w != Step(g.w, a)
  {
    hide WorldOk, ResolveDispute, Touched, VotersOf, VoteOf, Ruling, SlashLosers;
    var a := DoResolveDispute(id);
    var x :| x in g.w.log && x.VoteRevealed? && x.id == id && Now(g) > x.at + BallotLife(g.minTtl);
    var k := BallotKey(VoteKey(id, x.juror));
    RevealListed(g.w, x);
    assert k in ReadOnly(g.w.tf, a) && Exists(g.w.tf, k);
    var b, remaining := ResolveDid(g.w, id);
    assert Step(g.w, a).tf.disputes[id].resolved;
  }

  lemma RevealListed(w: World, x: Event)
    requires WorldOk(w) && x in w.log && x.VoteRevealed?
    ensures VoteKey(x.id, x.juror) in w.tf.votes && x.juror in VotersOf(w.tf, x.id)
  {
    hide FundsOk, AccountsOk, Margin, PhasesOk;
    assert EventOk(w, x);
  }

  lemma FailedStep(w: World, a: Action)
    requires Apply(w, a).Err?
    ensures Step(w, a) == w
  {
    hide Apply;
  }

  lemma StartsBare(g: Aging, id: u64)
    requires Initial(g.w)
    ensures Lasting(g, id) && CommitsLasting(g)
  {
  }

  lemma JurorStartsBare(g: Aging, j: Address)
    requires Initial(g.w)
    ensures JurorLasting(g, j)
  {
  }

  lemma DisputeHasEscrow(w: World, id: u64)
    requires WorldOk(w) && id in w.tf.disputes
    ensures id in w.tf.escrows
  {
    hide AccountsOk, BallotsOk, HistoryOk, Margin;
  }

  /** Live entries of a tended escrow. */
  lemma EscrowEntryLive(g: Aging, id: u64, k: Key)
    requires Lasting(g, id) && KeptUp(g, id) && id in g.w.tf.escrows && EntryOf(k, id) && Exists(g.w.tf, k)
    ensures k in g.ttl && g.ttl[k] >= Now(g)
  {
  }

  lemma JurorEntryLive(g: Aging, j: Address, k: Key)
    requires JurorLasting(g, j) && KeptJuror(g, j) && (k == StakeKey(j) || k == SlashCountKey(j)) && Exists(g.w.tf, k)
    ensures k in g.ttl && g.ttl[k] >= Now(g)
  {
  }

  lemma CommitUsable(g: Aging, a: Action)
    requires WorldOk(g.w) && a.DoCommitVote? && Apply(g.w, a).Ok?
    requires Lasting(g, a.id) && KeptUp(g, a.id) && JurorLasting(g, a.juror) && KeptJuror(g, a.juror)
    ensures Usable(g, Touched(g.w.tf, Step(g.w, a).tf, a) + ReadOnly(g.w.tf, a))
  {
    hide WorldOk, Step, Lasting, KeptUp, JurorLasting, KeptJuror;
    DisputeHasEscrow(g.w, a.id);
    forall k | k in Touched(g.w.tf, Step(g.w, a).tf, a) + ReadOnly(g.w.tf, a) && Exists(g.w.tf, k)
      ensures k in g.ttl && g.ttl[k] >= Now(g)
    {
      if k == StakeKey(a.juror) {
        JurorEntryLive(g, a.juror, k);
      } else {
        EscrowEntryLive(g, a.id, k);
      }
    }
  }

  lemma RevealUsable(g: Aging, a: Action)
    requires WorldOk(g.w) && a.DoRevealVote? && Apply(g.w, a).Ok?
    requires Lasting(g, a.id) && KeptUp(g, a.id) && CommitsLasting(g)
    ensures Usable(g, Touched(g.w.tf, Step(g.w, a).tf, a) + ReadOnly(g.w.tf, a))
  {
    hide WorldOk, Step, Lasting, KeptUp, HashVote;
    DisputeHasEscrow(g.w, a.id);
    forall k | k in Touched(g.w.tf, Step(g.w, a).tf, a) + ReadOnly(g.w.tf, a) && Exists(g.w.tf, k)
      ensures k in g.ttl && g.ttl[k] >= Now(g)
    {
      if k != CommitKey(VoteKey(a.id, a.juror)) {
        EscrowEntryLive(g, a.id, k);
      }
    }
  }

  /** A recorded vote is live while the ballots are. */
  lemma VoteLive(g: Aging, id: u64, j: Address)
    requires WorldOk(g.w) && BallotsExact(g) && BallotsLive(g, id) && VoteKey(id, j) in g.w.tf.votes
    ensures BallotKey(VoteKey(id, j)) in g.ttl && g.ttl[BallotKey(VoteKey(id, j))] >= Now(g)
  {
    hide FundsOk, AccountsOk, BallotsOk, Margin, EventsOk;
    var v := g.w.tf.votes[VoteKey(id, j)];
    assert RevealedAs(g.w.log, id, j, v);
    var salt, at :| VoteRevealed(id, j, v, salt, at) in g.w.log;
    var x := VoteRevealed(id, j, v, salt, at);
    assert x in g.w.log && x.VoteRevealed?;
  }

  lemma ResolveUsable(g: Aging, a: Action)
    requires WorldOk(g.w) && a.DoResolveDispute? && Apply(g.w, a).Ok?
    requires Lasting(g, a.id) && KeptUp(g, a.id) && BallotsExact(g) && BallotsLive(g, a.id)
    requires forall j :: j in VotersOf(g.w.tf, a.id) ==> JurorLasting(g, j) && KeptJuror(g, j)
    ensures Usable(g, Touched(g.w.tf, Step(g.w, a).tf, a) + ReadOnly(g.w.tf, a))
  {
    hide WorldOk, Step, Lasting, KeptUp, JurorLasting, KeptJuror, BallotsExact, BallotsLive;
    hide Ruling, VotersOf, VoteOf, ResolveDispute;
    var b, remaining := ResolveDid(g.w, a.id);
    hide Apply;
    forall k | k in Touched(g.w.tf, Step(g.w, a).tf, a) + ReadOnly(g.w.tf, a) && Exists(g.w.tf, k)
      ensures k in g.ttl && g.ttl[k] >= Now(g)
    {
      if k.StakeKey? || k.SlashCountKey? {
        JurorEntryLive(g, k.juror, k);
      } else if k.BallotKey? {
        VoteLive(g, a.id, k.key.juror);
      } else {
        EscrowEntryLive(g, a.id, k);
      }
    }
  }
}
