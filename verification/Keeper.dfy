/** Storage lifetimes: entries archive when their time-to-live runs out, and a keeper who calls
    `bump_escrow_ttl` often enough keeps an escrow usable in every run. */
module Keeper {
  import opened Base
  import opened AbundanceToken
  import opened TrustFlow
  import opened EscrowInvariants
  import opened Solvency
  import opened Ballots
  import opened Conservation
  import opened History
  import opened Runs

  const BUMP_AMOUNT: int := 90 * LEDGERS_PER_DAY
  const LIFETIME_THRESHOLD: int := 30 * LEDGERS_PER_DAY

  datatype Key =
    | InstanceKey
    | EscrowKey(id: u64)
    | FeesKey(id: u64)
    | ReleasedKey(id: u64)
    | CounterKey(id: u64, index: u32)
    | DisputeKey(id: u64)
    | VotersKey(id: u64)
    | StakeKey(juror: Address)
    | SlashCountKey(juror: Address)
    | CommitKey(key: VoteKey)
    | BallotKey(key: VoteKey)

  /** The storage entries there are. */
  predicate Exists(tf: Store, k: Key)
  {
    match k
    case InstanceKey => true
    case EscrowKey(id) => id in tf.escrows
    case FeesKey(id) => id in tf.feeConfigs
    case ReleasedKey(id) => id in tf.escrowReleased
    case CounterKey(id, index) => MilestoneKey(id, index) in tf.milestoneReleased
    case DisputeKey(id) => id in tf.disputes
    case VotersKey(id) => id in tf.voters
    case StakeKey(j) => j in tf.stakes
    case SlashCountKey(j) => j in tf.slashCounts
    case CommitKey(v) => v in tf.commits
    case BallotKey(v) => v in tf.votes
  }

  /** The last ledger at which each entry is live. */
  type Lifetimes = map<Key, int>

  /** The host's rule: a bump rewrites the expiry only when at most the threshold remains. */
  function Refreshed(until: int, now: int): int
  {
    if until - now <= LIFETIME_THRESHOLD then now + BUMP_AMOUNT else until
  }

  /** Bumps every stored entry among `keys`; a missing entry is skipped. */
  function ExtendAll(ttl: Lifetimes, tf: Store, now: int, keys: set<Key>): Lifetimes
  {
    map k | k in ttl :: if k in keys && Exists(tf, k) then Refreshed(ttl[k], now) else ttl[k]
  }

  /** A bump guarantees one ledger more than the threshold and no more than that, whatever was left. */
  lemma GuaranteedLifetime(gap: int)
    ensures (forall until, now :: Refreshed(until, now) >= now + gap) <==> gap <= LIFETIME_THRESHOLD + 1
  {
    if gap > LIFETIME_THRESHOLD + 1 {
      assert Refreshed(LIFETIME_THRESHOLD + 1, 0) < 0 + gap;
    }
  }

  /** The ledger a keeper call returns. */
  function Watermark(now: u32): u32
  {
    SaturatingAddU32(now, BUMP_AMOUNT)
  }

  lemma ExtendTwice(ttl: Lifetimes, tf: Store, now: int, a: set<Key>, b: set<Key>)
    ensures ExtendAll(ExtendAll(ttl, tf, now, a), tf, now, b) == ExtendAll(ttl, tf, now, a + b)
  {
  }

  /** What `bump_escrow_ttl` extends. */
  function KeeperKeys(tf: Store, id: u64): set<Key>
  {
    var n := if id in tf.escrows then |tf.escrows[id].milestones| else 0;
    {InstanceKey, EscrowKey(id), FeesKey(id), ReleasedKey(id)}
    + (set i: u32 | 0 <= i < n :: CounterKey(id, i))
    + (if id in tf.disputes then {DisputeKey(id), VotersKey(id)} else {})
  }

  /** What `bump_juror_stake_ttl` extends. */
  function JurorKeys(juror: Address): set<Key>
  {
    {InstanceKey, StakeKey(juror), SlashCountKey(juror)}
  }

  predicate OnContract(a: Action)
  {
    !a.DoToken? && !a.DoAdvance?
  }

  /** The entries a successful call extends, `tf'` being the storage it leaves. */
  function Touched(tf: Store, tf': Store, a: Action): set<Key>
  {
    {InstanceKey} +
    match a
    case DoStake(j, _) => {StakeKey(j)}
    case DoUnstake(j, _) => {StakeKey(j)}
    case DoCreateEscrow(_, _, _) => {EscrowKey(tf'.escrowCounter), FeesKey(tf'.escrowCounter)}
    case DoInitEscrow(_, _, _) => {EscrowKey(tf'.escrowCounter), FeesKey(tf'.escrowCounter)}
    case DoRelease(id, index, _, _) => {FeesKey(id), EscrowKey(id), CounterKey(id, index), ReleasedKey(id)}
    case DoRaiseDispute(id, _) => {EscrowKey(id), ReleasedKey(id), DisputeKey(id)}
    case DoCommitVote(id, j, _) => {CommitKey(VoteKey(id, j)), DisputeKey(id)}
    case DoRevealVote(id, j, _, _) => {BallotKey(VoteKey(id, j)), VotersKey(id), DisputeKey(id)}
    case DoResolveDispute(id) =>
      {DisputeKey(id), EscrowKey(id)}
      + (set j | j in VotersOf(tf, id) && VoteOf(tf.votes, id, j) != Ruling(tf, id) :: StakeKey(j))
      + (set j | j in VotersOf(tf, id) && VoteOf(tf.votes, id, j) != Ruling(tf, id) :: SlashCountKey(j))
    case _ => {}
  }

  /** The entries a call reads without extending them. */
  function ReadOnly(tf: Store, a: Action): set<Key>
  {
    match a
    case DoCommitVote(_, j, _) => {StakeKey(j)}
    case DoRevealVote(id, j, _, _) => {CommitKey(VoteKey(id, j))}
    case DoResolveDispute(id) =>
      {VotersKey(id), ReleasedKey(id)} + (set j | j in VotersOf(tf, id) :: BallotKey(VoteKey(id, j)))
    case _ => {}
  }

  /** A world with lifetimes; `called` is the ledger of the last keeper call on each escrow, or of its
      creation, and `tended` the same for each juror's stake; `minTtl` is the lifetime the host gives a
      new entry. */
  datatype Aging = Aging(w: World, ttl: Lifetimes, called: map<u64, int>, tended: map<Address, int>, minTtl: nat)

  datatype AgingAction = Call(action: Action) | KeepEscrow(id: u64) | KeepJuror(juror: Address)

  function Now(g: Aging): int { g.w.env.sequence }

  /** Every existing entry among `keys` is live: none traps the call. */
  predicate Usable(g: Aging, keys: set<Key>)
  {
    forall k :: k in keys && Exists(g.w.tf, k) ==> k in g.ttl && g.ttl[k] >= Now(g)
  }

  function WithNew(ttl: Lifetimes, tf: Store, keys: set<Key>, until: int): Lifetimes
  {
    ttl + map k | k in keys && k !in ttl && Exists(tf, k) :: until
  }

  function AgingStep(g: Aging, a: AgingAction): Aging
  {
    match a
    case Call(action) =>
      if !OnContract(action) then g.(w := Step(g.w, action))
      else if Apply(g.w, action).Err? then g
      else
        var w' := Step(g.w, action);
        var keys := Touched(g.w.tf, w'.tf, action);
        if !Usable(g, keys + ReadOnly(g.w.tf, action)) then g
        else
          var ttl := ExtendAll(WithNew(g.ttl, w'.tf, keys, Now(g) + g.minTtl), w'.tf, Now(g), keys);
          var called := if action.DoCreateEscrow? || action.DoInitEscrow?
                        then g.called[w'.tf.escrowCounter := Now(g)] else g.called;
          var tended := g.tended + map j | j in w'.tf.stakes && j !in g.w.tf.stakes :: Now(g);
          g.(w := w', ttl := ttl, called := called, tended := tended)
    case KeepEscrow(id) =>
      if id !in g.w.tf.escrows then g
      else
        var called := g.called[id := Now(g)];
        if !Usable(g, KeeperKeys(g.w.tf, id)) then g.(called := called)
        else g.(ttl := ExtendAll(g.ttl, g.w.tf, Now(g), KeeperKeys(g.w.tf, id)), called := called)
    case KeepJuror(j) =>
      if j !in g.w.tf.stakes then g
      else
        var tended := g.tended[j := Now(g)];
        if !Usable(g, JurorKeys(j)) then g.(tended := tended)
        else g.(ttl := ExtendAll(g.ttl, g.w.tf, Now(g), JurorKeys(j)), tended := tended)
  }

  function AgingRun(g: Aging, acts: seq<AgingAction>): Aging
    decreases |acts|
  {
    if acts == [] then g else AgingRun(AgingStep(g, acts[0]), acts[1..])
  }

  /** Once the escrow exists, its last keeper call is at most one ledger more than the threshold ago. */
  predicate KeptUp(g: Aging, id: u64)
  {
    id in g.w.tf.escrows ==> id in g.called && Now(g) <= g.called[id] + LIFETIME_THRESHOLD + 1
  }

  /** Throughout the run. */
  predicate Cadence(g: Aging, acts: seq<AgingAction>, id: u64)
    decreases |acts|
  {
    KeptUp(g, id) && (acts != [] ==> Cadence(AgingStep(g, acts[0]), acts[1..], id))
  }

  /** The instance and the escrow's own entries, whatever their index. */
  predicate EntryOf(k: Key, id: u64)
  {
    match k
    case InstanceKey => true
    case EscrowKey(i) => i == id
    case FeesKey(i) => i == id
    case ReleasedKey(i) => i == id
    case CounterKey(i, _) => i == id
    case DisputeKey(i) => i == id
    case VotersKey(i) => i == id
    case _ => false
  }

  /** Every entry of the escrow outlives its last keeper call by more than the threshold. */
  ghost predicate Lasting(g: Aging, id: u64)
  {
    id in g.w.tf.escrows ==>
      && id in g.called && g.called[id] <= Now(g)
      && forall k :: EntryOf(k, id) && Exists(g.w.tf, k) ==>
           k in g.ttl && g.ttl[k] > g.called[id] + LIFETIME_THRESHOLD
  }

  /** The keeper's loop misses no entry of the escrow. */
  lemma KeeperCoversEscrow(w: World, id: u64, k: Key)
    requires WorldOk(w) && id in w.tf.escrows && EntryOf(k, id) && Exists(w.tf, k)
    ensures k in KeeperKeys(w.tf, id)
  {
    hide HistoryOk, AccountsOk, Margin, PhasesOk;
  }

  /** No entry is left of an escrow that was never created. */
  lemma NoStrayEntries(w: World, id: u64, k: Key)
    requires WorldOk(w) && EntryOf(k, id) && Exists(w.tf, k) && k != InstanceKey
    ensures id in w.tf.escrows
  {
    hide HistoryOk, AccountsOk, Margin, PhasesOk;
  }

  /** Every entry that a call creates is among those it extends. */
  lemma NewEntriesTouched(w: World, a: Action, k: Key)
    requires Apply(w, a).Ok? && OnContract(a) && Exists(Step(w, a).tf, k)
    ensures Exists(w.tf, k) || k in Touched(w.tf, Step(w, a).tf, a)
  {
    hide Release, ResolveDispute, RevealVote, CommitVote, RaiseDispute, Move, MilestoneTotal;
    if a.DoRelease? {
      ReleaseAdds(w, a, k);
    } else if a.DoResolveDispute? {
      ResolveAdds(w, a, k);
    } else if a.DoRaiseDispute? || a.DoCommitVote? || a.DoRevealVote? {
      VotingAdds(w, a, k);
    }
  }

  lemma {:induction false} SlashingAdds(b: Bench, votes: map<VoteKey, bool>, id: u64, voters: seq<Address>,
                                        ruling: bool, bps: u32, j: Address)
    requires SlashLosers(b, votes, id, voters, ruling, bps).Ok?
    ensures
      var b' := SlashLosers(b, votes, id, voters, ruling, bps).value;
      && (j in b'.stakes ==> j in b.stakes || (j in voters && VoteOf(votes, id, j) != ruling))
      && (j in b'.slashCounts ==> j in b.slashCounts || (j in voters && VoteOf(votes, id, j) != ruling))
      && (j in b.stakes ==> j in b'.stakes)
      && (j in b'.slashCounts && (j in b.slashCounts ==> j in b.stakes) ==> j in b'.stakes)
    decreases |voters|
  {
    if voters != [] {
      SlashingAdds(b, votes, id, voters[..|voters| - 1], ruling, bps, j);
    }
  }

  lemma ResolveAdds(w: World, a: Action, k: Key)
    requires Apply(w, a).Ok? && a.DoResolveDispute? && Exists(Step(w, a).tf, k)
    ensures Exists(w.tf, k) || k in Touched(w.tf, Step(w, a).tf, a)
  {
    hide ResolveDispute, ReadyToResolve, SlashLosers, Ruling;
    var b, remaining := ResolveDid(w, a.id);
    if k.StakeKey? || k.SlashCountKey? {
      SlashingAdds(BenchOf(w), w.tf.votes, a.id, VotersOf(w.tf, a.id), Ruling(w.tf, a.id), w.tf.slashBps, k.juror);
    }
  }

  lemma ReleaseAdds(w: World, a: Action, k: Key)
    requires Apply(w, a).Ok? && a.DoRelease? && Exists(Step(w, a).tf, k)
    ensures Exists(w.tf, k) || k in Touched(w.tf, Step(w, a).tf, a)
  {
    hide Release, PriceTranche, TryTransfer;
    var t := ReleaseDid(w, a.id, a.index, a.gross, a.caller);
  }

  lemma VotingAdds(w: World, a: Action, k: Key)
    requires Apply(w, a).Ok? && (a.DoRaiseDispute? || a.DoCommitVote? || a.DoRevealVote?)
    requires Exists(Step(w, a).tf, k)
    ensures Exists(w.tf, k) || k in Touched(w.tf, Step(w, a).tf, a)
  {
    hide HashVote;
  }

  lemma CreationTouchesAll(w: World, a: Action, id: u64, k: Key)
    requires WorldOk(w) && Apply(w, a).Ok? && OnContract(a)
    requires EntryOf(k, id) && Exists(Step(w, a).tf, k) && id !in w.tf.escrows
    ensures k in Touched(w.tf, Step(w, a).tf, a)
  {
    hide WorldOk, Apply, Step;
    NewEntriesTouched(w, a, k);
    if k != InstanceKey && Exists(w.tf, k) {
      NoStrayEntries(w, id, k);
    }
  }

  /** Only the two creating calls add an escrow, under the next identifier. */
  lemma NewEscrows(w: World, a: Action, id: u64)
    requires WorldOk(w) && Apply(w, a).Ok? && OnContract(a)
    ensures a.DoCreateEscrow? || a.DoInitEscrow? ==> Step(w, a).tf.escrowCounter !in w.tf.escrows
    ensures id in Step(w, a).tf.escrows ==>
              id in w.tf.escrows || ((a.DoCreateEscrow? || a.DoInitEscrow?) && id == Step(w, a).tf.escrowCounter)
  {
    hide WorldOk, Release, ResolveDispute, Move, Invoke, MilestoneTotal, HashVote;
    NumbersInOrder(w);
    if a.DoRelease? {
      hide PriceTranche, TryTransfer;
      var t := ReleaseDid(w, a.id, a.index, a.gross, a.caller);
    } else if a.DoResolveDispute? {
      hide ReadyToResolve, SlashLosers, Ruling;
      var b, remaining := ResolveDid(w, a.id);
    }
  }

  lemma ExtendLengthens(ttl: Lifetimes, tf: Store, keys: set<Key>, now: int, k: Key)
    requires k in ttl
    ensures
      var ttl' := ExtendAll(ttl, tf, now, keys);
      && k in ttl' && ttl'[k] >= ttl[k]
      && (k in keys && Exists(tf, k) ==> ttl'[k] > now + LIFETIME_THRESHOLD)
  {
  }

  /** Nothing anybody does shortens the life of a stored entry, and every entry a call creates lives
      longer than the threshold. */
  lemma NoLifetimeShortened(g: Aging, a: AgingAction, k: Key)
    ensures
      var g' := AgingStep(g, a);
      && (k in g.ttl ==> k in g'.ttl && g'.ttl[k] >= g.ttl[k])
      && (Exists(g'.w.tf, k) && !Exists(g.w.tf, k) ==> k in g'.ttl && g'.ttl[k] > Now(g) + LIFETIME_THRESHOLD)
  {
    hide Apply, Step, Touched, ReadOnly, Exists, Usable, KeeperKeys, ExtendAll;
    match a
    case Call(action) =>
      if !OnContract(action) {
        OffContract(g.w, action);
      } else if AgingStep(g, a) != g {
        var w' := Step(g.w, action);
        var keys := Touched(g.w.tf, w'.tf, action);
        var ttl := WithNew(g.ttl, w'.tf, keys, Now(g) + g.minTtl);
        StepSelf(g.w, action);
        if Exists(w'.tf, k) {
          NewEntriesTouched(g.w, action, k);
        }
        if k in ttl {
          ExtendLengthens(ttl, w'.tf, keys, Now(g), k);
        }
      }
    case KeepEscrow(id) =>
      if k in g.ttl {
        ExtendLengthens(g.ttl, g.w.tf, KeeperKeys(g.w.tf, id), Now(g), k);
      }
    case KeepJuror(j) =>
      if k in g.ttl {
        ExtendLengthens(g.ttl, g.w.tf, JurorKeys(j), Now(g), k);
      }
  }

  /** A call on the contract keeps the escrow's entries lasting. */
  lemma CallKeepsLasting(g: Aging, a: Action, id: u64)
    requires WorldOk(g.w) && Lasting(g, id) && OnContract(a)
    ensures Lasting(AgingStep(g, Call(a)), id)
  {
    hide WorldOk, Apply, Step, Touched, ReadOnly, ExtendAll, Exists, EntryOf, Usable;
    var g', w' := AgingStep(g, Call(a)), Step(g.w, a);
    if g' != g && id in w'.tf.escrows {
      ApplyIsStep(g.w, a);
      var keys := Touched(g.w.tf, w'.tf, a);
      var ttl := WithNew(g.ttl, w'.tf, keys, Now(g) + g.minTtl);
      StepSelf(g.w, a);
      NewEscrows(g.w, a, id);
      forall k | EntryOf(k, id) && Exists(w'.tf, k)
        ensures k in g'.ttl && g'.ttl[k] > g'.called[id] + LIFETIME_THRESHOLD
      {
        NewEntriesTouched(g.w, a, k);
        if id !in g.w.tf.escrows {
          CreationTouchesAll(g.w, a, id, k);
        } else if Exists(g.w.tf, k) {
          assert k in g.ttl && g.ttl[k] > g.called[id] + LIFETIME_THRESHOLD;
        }
        assert k in ttl;
        ExtendLengthens(ttl, w'.tf, keys, Now(g), k);
      }
    }
  }

  lemma ApplyIsStep(w: World, a: Action)
    requires Apply(w, a).Ok?
    ensures Apply(w, a) == Ok(Step(w, a))
  {
    hide Apply;
  }

  lemma {:induction false} StepKeepsLasting(g: Aging, a: AgingAction, id: u64)
    requires WorldOk(g.w) && Lasting(g, id) && KeptUp(g, id)
    ensures WorldOk(AgingStep(g, a).w) && Lasting(AgingStep(g, a), id)
  {
    hide WorldOk, Apply, Step, Touched, ReadOnly, EntryOf, Exists, KeeperKeys, ExtendAll, Usable, Lasting;
    match a
    case Call(action) =>
      StepKeepsWorld(g.w, action);
      if OnContract(action) {
        CallKeepsLasting(g, action, id);
      } else {
        OffContractKeepsLasting(g, action, id);
      }
    case KeepEscrow(kept) => KeeperCallKeepsLasting(g, kept, id);
    case KeepJuror(juror) => JurorCallKeepsLasting(g, juror, id);
  }

  lemma OffContractKeepsLasting(g: Aging, a: Action, id: u64)
    requires Lasting(g, id) && !OnContract(a)
    ensures Lasting(AgingStep(g, Call(a)), id)
  {
    hide Step, EntryOf, Exists;
    OffContract(g.w, a);
  }

  lemma JurorCallKeepsLasting(g: Aging, juror: Address, id: u64)
    requires Lasting(g, id)
    ensures Lasting(AgingStep(g, KeepJuror(juror)), id)
  {
    hide EntryOf, Exists, Usable, JurorKeys;
  }

  lemma OffContract(w: World, a: Action)
    requires !OnContract(a)
    ensures Step(w, a).tf == w.tf && Step(w, a).env.sequence >= w.env.sequence
  {
    hide Invoke;
  }

  lemma KeeperCallKeepsLasting(g: Aging, kept: u64, id: u64)
    requires WorldOk(g.w) && Lasting(g, id) && KeptUp(g, id)
    ensures Lasting(AgingStep(g, KeepEscrow(kept)), id)
  {
    hide WorldOk, EntryOf, Exists, KeeperKeys;
    if kept == id && id in g.w.tf.escrows {
      KeeperCallSucceeds(g, id);
      forall k | EntryOf(k, id) && Exists(g.w.tf, k) ensures k in KeeperKeys(g.w.tf, id) {
        KeeperCoversEscrow(g.w, id, k);
      }
    }
  }

  /** A keeper on time never finds an entry of its escrow archived. */
  lemma KeeperCallSucceeds(g: Aging, id: u64)
    requires Lasting(g, id) && KeptUp(g, id) && id in g.w.tf.escrows
    ensures Usable(g, KeeperKeys(g.w.tf, id))
  {
  }

  lemma {:induction false} RunKeepsLasting(g: Aging, acts: seq<AgingAction>, id: u64)
    requires WorldOk(g.w) && Lasting(g, id) && Cadence(g, acts, id)
    ensures
      var g' := AgingRun(g, acts);
      WorldOk(g'.w) && Lasting(g', id) && KeptUp(g', id)
    decreases |acts|
  {
    hide WorldOk, Lasting, AgingStep, KeptUp;
    if acts != [] {
      StepKeepsLasting(g, acts[0], id);
      RunKeepsLasting(AgingStep(g, acts[0]), acts[1..], id);
    }
  }

  /** In every run in which keeper calls on an escrow come at most one ledger more than the threshold
      apart, the instance and every stored entry of the escrow are live at the end: the record, the
      fee snapshot, the released counters, the dispute and the voter list. */
  lemma KeeperTheorem(g: Aging, acts: seq<AgingAction>, id: u64, k: Key)
    requires Initial(g.w) && Cadence(g, acts, id)
    ensures
      var g' := AgingRun(g, acts);
      id in g'.w.tf.escrows && EntryOf(k, id) && Exists(g'.w.tf, k) ==> k in g'.ttl && g'.ttl[k] >= Now(g')
  {
    hide WorldOk, Initial, AgingStep, AgingRun, Cadence, EntryOf, Exists;
    InitialOk(g.w);
    StartsEmpty(g.w);
    RunKeepsLasting(g, acts, id);
  }

  lemma StartsEmpty(w: World)
    requires Initial(w)
    ensures w.tf.escrows == map[]
  {
  }

  /** In such a run no release and no dispute on the escrow is lost to archival. */
  lemma KeptEscrowNeverArchives(g: Aging, acts: seq<AgingAction>, a: Action)
    requires Initial(g.w) && (a.DoRelease? || a.DoRaiseDispute?) && Cadence(g, acts, a.id)
    ensures AgingStep(AgingRun(g, acts), Call(a)).w == Step(AgingRun(g, acts).w, a)
  {
    hide WorldOk, Initial, AgingRun, Cadence, Apply, Touched, ReadOnly, Usable;
    InitialOk(g.w);
    StartsEmpty(g.w);
    RunKeepsLasting(g, acts, a.id);
    var g' := AgingRun(g, acts);
    if Apply(g'.w, a).Ok? {
      EscrowCallUsable(g', a);
    }
  }

  lemma EscrowCallUsable(g: Aging, a: Action)
    requires (a.DoRelease? || a.DoRaiseDispute?) && Apply(g.w, a).Ok?
    requires Lasting(g, a.id) && KeptUp(g, a.id)
    ensures Usable(g, Touched(g.w.tf, Step(g.w, a).tf, a) + ReadOnly(g.w.tf, a))
  {
    hide Exists, Move, Step;
    assert a.id in g.w.tf.escrows;
    hide Apply;
  }

  // ---- What a keeper call returns ----

  /** Every stored entry among `keys` lives at least until `ledger`. */
  predicate LiveUntil(g: Aging, keys: set<Key>, ledger: int)
  {
    forall k :: k in keys && Exists(g.w.tf, k) ==> k in g.ttl && g.ttl[k] >= ledger
  }

  /** Every stored entry among `keys` is due for a rewrite, or lives until `ledger` already. */
  predicate DueOrLiveUntil(g: Aging, keys: set<Key>, ledger: int)
  {
    forall k :: k in keys && Exists(g.w.tf, k) ==>
      k in g.ttl && (g.ttl[k] <= Now(g) + LIFETIME_THRESHOLD || g.ttl[k] >= ledger)
  }

  /** Bumping live entries makes them live until the returned ledger exactly when each of them was due,
      or lived that long before; and always beyond the threshold. */
  lemma BumpReaches(g: Aging, g': Aging, keys: set<Key>)
    requires Usable(g, keys) && g'.w == g.w && g'.ttl == ExtendAll(g.ttl, g.w.tf, Now(g), keys)
    ensures
      var r := Watermark(g.w.env.sequence);
      && (LiveUntil(g', keys, r) <==> DueOrLiveUntil(g, keys, r))
      && LiveUntil(g', keys, Now(g) + LIFETIME_THRESHOLD + 1)
  {
    hide Exists;
    var r := Watermark(g.w.env.sequence);
    forall k | k in keys && Exists(g.w.tf, k)
      ensures k in g.ttl && k in g'.ttl && g'.ttl[k] > Now(g) + LIFETIME_THRESHOLD
      ensures g'.ttl[k] >= r <==> g.ttl[k] <= Now(g) + LIFETIME_THRESHOLD || g.ttl[k] >= r
    {
    }
  }

  /** After a keeper call on an escrow that succeeds, the storage lives until the ledger it returns exactly
      when every entry was due, or lived that long before; the documentation promises it always. */
  lemma ReturnedLedgerGuaranteed(g: Aging, id: u64)
    requires id in g.w.tf.escrows && Usable(g, KeeperKeys(g.w.tf, id))
    ensures
      var g', keys, r := AgingStep(g, KeepEscrow(id)), KeeperKeys(g.w.tf, id), Watermark(g.w.env.sequence);
      && g'.w == g.w && (LiveUntil(g', keys, r) <==> DueOrLiveUntil(g, keys, r))
      && LiveUntil(g', keys, Now(g) + LIFETIME_THRESHOLD + 1)
  {
    hide KeeperKeys, Usable, ExtendAll, LiveUntil, DueOrLiveUntil;
    BumpReaches(g, AgingStep(g, KeepEscrow(id)), KeeperKeys(g.w.tf, id));
  }

  /** The same of a keeper call on a juror's stake. */
  lemma JurorLedgerGuaranteed(g: Aging, j: Address)
    requires j in g.w.tf.stakes && Usable(g, JurorKeys(j))
    ensures
      var g', keys, r := AgingStep(g, KeepJuror(j)), JurorKeys(j), Watermark(g.w.env.sequence);
      && g'.w == g.w && (LiveUntil(g', keys, r) <==> DueOrLiveUntil(g, keys, r))
      && LiveUntil(g', keys, Now(g) + LIFETIME_THRESHOLD + 1)
  {
    hide JurorKeys, Usable, ExtendAll, LiveUntil, DueOrLiveUntil;
    BumpReaches(g, AgingStep(g, KeepJuror(j)), JurorKeys(j));
  }

  /** Every stored entry of the escrow, and the instance, lives at least until `ledger`. */
  ghost predicate EscrowLiveUntil(g: Aging, id: u64, ledger: int)
  {
    forall k :: EntryOf(k, id) && Exists(g.w.tf, k) ==> k in g.ttl && g.ttl[k] >= ledger
  }

  /** In every run with keeper calls in time, a further call finds no entry archived, guarantees one
      ledger more than the threshold for everything the escrow has stored, and guarantees the ledger it
      returns exactly when every entry was due or lived that long before. */
  lemma ReturnedLedgerOverRuns(g: Aging, acts: seq<AgingAction>, id: u64)
    requires Initial(g.w) && Cadence(g, acts, id) && id in AgingRun(g, acts).w.tf.escrows
    ensures
      var h := AgingRun(g, acts);
      var h', r := AgingStep(h, KeepEscrow(id)), Watermark(h.w.env.sequence);
      && h'.w == h.w && EscrowLiveUntil(h', id, Now(h) + LIFETIME_THRESHOLD + 1)
      && (EscrowLiveUntil(h', id, r) <==> DueOrLiveUntil(h, KeeperKeys(h.w.tf, id), r))
  {
    hide WorldOk, Initial, AgingStep, AgingRun, Cadence, KeptUp, LiveUntil, EscrowLiveUntil, DueOrLiveUntil, KeeperKeys;
    InitialOk(g.w);
    StartsEmpty(g.w);
    RunKeepsLasting(g, acts, id);
    hide Lasting;
    var h := AgingRun(g, acts);
    var h', r := AgingStep(h, KeepEscrow(id)), Watermark(h.w.env.sequence);
    KeeperCallSucceeds(h, id);
    ReturnedLedgerGuaranteed(h, id);
    SameReach(h', id, r);
    SameReach(h', id, Now(h) + LIFETIME_THRESHOLD + 1);
  }

  /** What the keeper extends is what the escrow has stored. */
  lemma SameReach(g: Aging, id: u64, ledger: int)
    requires WorldOk(g.w) && id in g.w.tf.escrows
    ensures LiveUntil(g, KeeperKeys(g.w.tf, id), ledger) <==> EscrowLiveUntil(g, id, ledger)
  {
    hide WorldOk, Exists;
    forall k | EntryOf(k, id) && Exists(g.w.tf, k) ensures k in KeeperKeys(g.w.tf, id) {
      KeeperCoversEscrow(g.w, id, k);
    }
  }

  // ---- The entry points, as the contract runs them ----

  class LifetimeTable {
    var liveUntil: Lifetimes

    constructor (initial: Lifetimes)
      ensures liveUntil == initial
    {
      liveUntil := initial;
    }

    method Extend(tf: Store, now: u32, key: Key)
      modifies this
      ensures liveUntil == ExtendAll(old(liveUntil), tf, now, {key})
    {
      if Exists(tf, key) && key in liveUntil {
        if liveUntil[key] - now <= LIFETIME_THRESHOLD {
          liveUntil := liveUntil[key := now + BUMP_AMOUNT];
        }
      }
    }

    /** `Extend`, with the set of keys done so far. */
    method ExtendMore(tf: Store, now: u32, key: Key, ghost before: Lifetimes, ghost done: set<Key>)
      requires liveUntil == ExtendAll(before, tf, now, done)
      modifies this
      ensures liveUntil == ExtendAll(before, tf, now, done + {key})
    {
      ExtendTwice(before, tf, now, done, {key});
      Extend(tf, now, key);
    }

    method BumpEscrowTtl(tf: Store, now: u32, id: u64) returns (r: Result<u32>)
      modifies this
      ensures r == if id in tf.escrows then Ok(Watermark(now)) else Err(EscrowNotFound)
      ensures liveUntil == if id in tf.escrows then ExtendAll(old(liveUntil), tf, now, KeeperKeys(tf, id))
                           else old(liveUntil)
    {
      if id !in tf.escrows {
        return Err(EscrowNotFound);
      }
      hide Exists, ExtendAll;
      ghost var before := liveUntil;
      Extend(tf, now, InstanceKey);
      ghost var done := {InstanceKey};
      ExtendMore(tf, now, EscrowKey(id), before, done);
      done := done + {EscrowKey(id)};
      ExtendMore(tf, now, FeesKey(id), before, done);
      done := done + {FeesKey(id)};
      ExtendMore(tf, now, ReleasedKey(id), before, done);
      done := done + {ReleasedKey(id)};
      ghost var fixed := done;
      var n := |tf.escrows[id].milestones|;
      for i := 0 to n
        invariant done == fixed + (set j: u32 | 0 <= j < i :: CounterKey(id, j))
        invariant liveUntil == ExtendAll(before, tf, now, done)
      {
        ExtendMore(tf, now, CounterKey(id, i), before, done);
        done := done + {CounterKey(id, i)};
      }
      if id in tf.disputes {
        ExtendMore(tf, now, DisputeKey(id), before, done);
        done := done + {DisputeKey(id)};
        ExtendMore(tf, now, VotersKey(id), before, done);
        done := done + {VotersKey(id)};
      }
      assert done == KeeperKeys(tf, id);
      return Ok(Watermark(now));
    }

    method BumpJurorStakeTtl(tf: Store, now: u32, juror: Address) returns (r: Result<u32>)
      modifies this
      ensures r == if juror in tf.stakes then Ok(Watermark(now)) else Err(JurorStakeNotFound)
      ensures liveUntil == if juror in tf.stakes then ExtendAll(old(liveUntil), tf, now, JurorKeys(juror))
                           else old(liveUntil)
    {
      if juror !in tf.stakes {
        return Err(JurorStakeNotFound);
      }
      hide Exists, ExtendAll;
      ghost var before := liveUntil;
      Extend(tf, now, InstanceKey);
      ExtendMore(tf, now, StakeKey(juror), before, {InstanceKey});
      ExtendMore(tf, now, SlashCountKey(juror), before, {InstanceKey, StakeKey(juror)});
      assert {InstanceKey, StakeKey(juror)} + {SlashCountKey(juror)} == JurorKeys(juror);
      return Ok(Watermark(now));
    }
  }
}
