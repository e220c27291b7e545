/** The TrustFlow escrow contract as functions from world to world. A failing call returns an
    error and no world: the host discards whatever it wrote. */
module TrustFlow {
  import opened Base
  import opened FeeMath
  import opened AbundanceToken

  const LEDGERS_PER_DAY: u32 := 17_280
  const COMMIT_WINDOW_LEDGERS: u32 := LEDGERS_PER_DAY
  const REVEAL_WINDOW_LEDGERS: u32 := LEDGERS_PER_DAY

  datatype EscrowStatus = Active | Disputed | Settled

  datatype Milestone = Milestone(amount: i128, approved: bool, releaseTime: u32)

  datatype EscrowRecord = EscrowRecord(
    id: u64,
    depositor: Address,
    beneficiary: Address,
    amount: i128,
    status: EscrowStatus,
    milestones: Vec<Milestone>)

  datatype DisputeRecord = DisputeRecord(
    escrowId: u64,
    raisedBy: Address,
    resolved: bool,
    rulingForDepositor: bool,
    commitDeadline: u32,
    revealDeadline: u32)

  datatype FeeConfig = FeeConfig(treasury: Address, feeBps: u32)

  datatype VoteKey = VoteKey(escrowId: u64, juror: Address)

  datatype MilestoneKey = MilestoneKey(escrowId: u64, index: u32)

  /** Instance and persistent storage, one field per kind of key. */
  datatype Store = Store(
    admin: Address,
    slashBps: u32,
    escrowCounter: u64,
    feeBps: u32,
    treasury: Address,
    paused: bool,
    pauser: Option<Address>,
    escrows: map<u64, EscrowRecord>,
    feeConfigs: map<u64, FeeConfig>,
    escrowReleased: map<u64, i128>,
    milestoneReleased: map<MilestoneKey, i128>,
    disputes: map<u64, DisputeRecord>,
    stakes: map<Address, i128>,
    slashCounts: map<Address, u32>,
    voters: map<u64, Vec<Address>>,
    commits: map<VoteKey, Bytes32>,
    votes: map<VoteKey, bool>)

  /** The history of successful calls: the published events, with the arguments and the ledger
      sequence the transaction carries. `DisputePaid` is recorded for the transfer a resolution makes. */
  datatype Event =
    | Staked(juror: Address, amount: i128, newTotal: i128)
    | Unstaked(juror: Address, amount: i128, remaining: i128)
    | EscrowInitialized(id: u64, depositor: Address, beneficiary: Address, amount: i128)
    | TrancheReleased(id: u64, index: u32, gross: i128, fee: i128, payout: i128,
                      milestoneReleased: i128, escrowReleased: i128, beneficiary: Address, treasury: Address)
    | VoteCommitted(id: u64, juror: Address, commitment: Bytes32, stake: i128, at: u32)
    | VoteRevealed(id: u64, juror: Address, vote: bool, salt: Bytes32, at: u32)
    | JurorSlashed(id: u64, juror: Address, slash: i128, remaining: i128, count: u32)
    | DisputePaid(id: u64, ruling: bool, recipient: Address, paid: i128, at: u32)

  /** What the host provides: the contract's own address, SHA-256 and the ledger sequence. */
  datatype Env = Env(self: Address, sha256: seq<u8> -> Bytes32, sequence: u32)

  datatype World = World(env: Env, tok: TokenState, tf: Store, log: seq<Event>)

  // ---- Commitments ----

  /** One vote byte, then the 32 salt bytes. */
  function Preimage(vote: bool, salt: Bytes32): seq<u8>
  {
    [if vote then 1 else 0] + salt
  }

  function HashVote(env: Env, vote: bool, salt: Bytes32): Bytes32
  {
    env.sha256(Preimage(vote, salt))
  }

  // ---- Initialisation and administration ----

  /** Storage before `Initialize`; `admin` and `treasury` are meaningless until then. */
  function Deployed(anyone: Address): Store
  {
    Store(anyone, 0, 0, 0, anyone, false, None, map[], map[], map[], map[], map[], map[], map[], map[], map[], map[])
  }

  function Initialize(w: World, admin: Address, slashBps: u32): Result<World>
  {
    if admin == w.env.self || slashBps > 10_000 then Err(Trap)
    else Ok(w.(tf := w.tf.(admin := admin, slashBps := slashBps, escrowCounter := 0,
                           feeBps := DEFAULT_FEE_BPS, treasury := admin)))
  }

  /** The contract's own address authorises nothing but its own token transfers. */
  function RequireAuth(w: World, who: Address): Check
  {
    Need(who != w.env.self, Trap)
  }

  function RequireAdmin(w: World, caller: Address): Check
  {
    if caller == w.env.self then Fail(Trap) else Need(caller == w.tf.admin, Unauthorized)
  }

  function SetFeeBps(w: World, caller: Address, feeBps: u32): Result<World>
  {
    var tf := w.tf;
    :- RequireAdmin(w, caller);
    :- Need(feeBps <= MAX_FEE_BPS, InvalidFeeBps);
    Ok(w.(tf := tf.(feeBps := feeBps)))
  }

  function SetTreasury(w: World, caller: Address, treasury: Address): Result<World>
  {
    var tf := w.tf;
    :- RequireAdmin(w, caller);
    Ok(w.(tf := tf.(treasury := treasury)))
  }

  function SetPauser(w: World, caller: Address, pauser: Option<Address>): Result<World>
  {
    var tf := w.tf;
    :- RequireAdmin(w, caller);
    Ok(w.(tf := tf.(pauser := pauser)))
  }

  function Pause(w: World, caller: Address): Result<World>
  {
    var tf := w.tf;
    :- RequireAuth(w, caller);
    :- Need(caller == tf.admin || tf.pauser == Some(caller), Unauthorized);
    Ok(w.(tf := tf.(paused := true)))
  }

  function Unpause(w: World, caller: Address): Result<World>
  {
    var tf := w.tf;
    :- RequireAdmin(w, caller);
    Ok(w.(tf := tf.(paused := false)))
  }

  // ---- Juror staking ----

  function StakeOf(tf: Store, juror: Address): i128
  {
    GetOr(tf.stakes, juror, 0)
  }

  function Stake(w: World, juror: Address, amount: i128): Result<World>
  {
    var tf := w.tf;
    :- RequireAuth(w, juror);
    :- Need(!tf.paused, ContractPaused);
    :- Need(amount > 0, InvalidAmount);
    var tok :- Move(w.tok, juror, w.env.self, amount);
    var total :- CheckedAdd(StakeOf(tf, juror), amount).OkOr(ArithmeticOverflow);
    Ok(w.(tok := tok,
          tf := tf.(stakes := tf.stakes[juror := total]),
          log := w.log + [Staked(juror, amount, total)]))
  }

  function Unstake(w: World, juror: Address, amount: i128): Result<World>
  {
    var tf := w.tf;
    :- RequireAuth(w, juror);
    :- Need(!tf.paused, ContractPaused);
    :- Need(StakeOf(tf, juror) >= amount, InsufficientStake);
    var tok :- Move(w.tok, w.env.self, juror, amount);
    var remaining :- CheckedSub(StakeOf(tf, juror), amount).OkOr(ArithmeticOverflow);
    Ok(w.(tok := tok,
          tf := tf.(stakes := tf.stakes[juror := remaining]),
          log := w.log + [Unstaked(juror, amount, remaining)]))
  }

  // ---- Escrow lifecycle ----

  /** Locks `amount` and stores a fresh record with the fee terms in force now. */
  function OpenEscrow(w: World, depositor: Address, beneficiary: Address, amount: i128,
                      milestones: Vec<Milestone>): Result<World>
  {
    var tok :- Move(w.tok, depositor, w.env.self, amount);
    :- Need(w.tf.escrowCounter < U64_MAX, ArithmeticOverflow);
    var id: u64 := w.tf.escrowCounter + 1;
    var e := EscrowRecord(id, depositor, beneficiary, amount, Active, milestones);
    Ok(w.(tok := tok,
          tf := w.tf.(escrowCounter := id,
                      escrows := w.tf.escrows[id := e],
                      feeConfigs := w.tf.feeConfigs[id := FeeConfig(w.tf.treasury, w.tf.feeBps)])))
  }

  function CreateEscrow(w: World, depositor: Address, beneficiary: Address, amount: i128): Result<World>
  {
    var tf := w.tf;
    :- RequireAuth(w, depositor);
    :- Need(!tf.paused, ContractPaused);
    :- Need(amount > 0, InvalidAmount);
    OpenEscrow(w, depositor, beneficiary, amount, [])
  }

  /** Sum of the milestone amounts, or the first error met from left to right. */
  function MilestoneTotal(ms: seq<Milestone>): Result<i128>
  {
    if ms == [] then Ok(0)
    else
      var n := |ms| - 1;
      var sum :- MilestoneTotal(ms[..n]);
      :- Need(ms[n].amount > 0, InvalidAmount);
      CheckedAdd(sum, ms[n].amount).OkOr(ArithmeticOverflow)
  }

  function InitEscrow(w: World, depositor: Address, beneficiary: Address, milestones: Vec<Milestone>): Result<World>
  {
    var tf := w.tf;
    :- RequireAuth(w, depositor);
    :- Need(!tf.paused, ContractPaused);
    var total :- MilestoneTotal(milestones);
    :- Need(total > 0, InvalidAmount);
    var w' :- OpenEscrow(w, depositor, beneficiary, total, milestones);
    Ok(w'.(log := w'.log + [EscrowInitialized(w'.tf.escrowCounter, depositor, beneficiary, total)]))
  }

  function MilestoneReleasedOf(tf: Store, id: u64, index: u32): i128
  {
    GetOr(tf.milestoneReleased, MilestoneKey(id, index), 0)
  }

  function EscrowReleasedOf(tf: Store, id: u64): i128
  {
    GetOr(tf.escrowReleased, id, 0)
  }

  datatype Tranche = Tranche(milestoneReleased: i128, escrowReleased: i128, fee: i128, payout: i128)

  /** All the validation and arithmetic of a tranche, before anything is written. */
  function PriceTranche(w: World, id: u64, index: u32, gross: i128, caller: Address): (r: Result<Tranche>)
    ensures r.Ok? ==> id in w.tf.escrows && id in w.tf.feeConfigs && index < |w.tf.escrows[id].milestones|
  {
    var tf := w.tf;
    :- RequireAuth(w, caller);
    :- Need(!tf.paused, ContractPaused);
    :- Need(gross > 0, InvalidAmount);
    :- Need(id in tf.escrows, EscrowNotFound);
    var e := tf.escrows[id];
    :- Need(caller == e.depositor, Unauthorized);
    :- Need(e.status == Active, InvalidState);
    :- Need(index < |e.milestones|, MilestoneNotFound);
    var m := e.milestones[index];
    :- Need(m.releaseTime <= w.env.sequence, MilestoneTimeLocked);
    var milestoneReleased :- CheckedAdd(MilestoneReleasedOf(tf, id, index), gross).OkOr(InvalidAmount);
    :- Need(milestoneReleased <= m.amount, MilestoneAmountMismatch);
    var releasedBefore := EscrowReleasedOf(tf, id);
    var releasedAfter :- CheckedAdd(releasedBefore, gross).OkOr(InvalidAmount);
    :- Need(releasedAfter <= e.amount, MilestoneAmountMismatch);
    :- Need(id in tf.feeConfigs, EscrowNotFound);
    var feeBefore :- CumulativeFee(releasedBefore, tf.feeConfigs[id].feeBps);
    var feeAfter :- CumulativeFee(releasedAfter, tf.feeConfigs[id].feeBps);
    var fee :- CheckedSub(feeAfter, feeBefore).OkOr(InvalidAmount);
    var payout :- CheckedSub(gross, fee).OkOr(InvalidAmount);
    Ok(Tranche(milestoneReleased, releasedAfter, fee, payout))
  }

  /** The accounting a tranche writes. */
  function BookTranche(tf: Store, id: u64, index: u32, t: Tranche): Store
    requires id in tf.escrows && index < |tf.escrows[id].milestones|
  {
    var e := tf.escrows[id];
    var milestones := e.milestones[index := e.milestones[index].(approved := true)];
    var status := if t.escrowReleased == e.amount then Settled else e.status;
    tf.(escrows := tf.escrows[id := e.(milestones := milestones, status := status)],
        milestoneReleased := tf.milestoneReleased[MilestoneKey(id, index) := t.milestoneReleased],
        escrowReleased := tf.escrowReleased[id := t.escrowReleased])
  }

  /** A zero amount is skipped; any failure of the token call is reported as one error. */
  function TryTransfer(t: TokenState, from: Address, to: Address, amount: i128): Result<TokenState>
  {
    if amount == 0 then Ok(t)
    else if Move(t, from, to, amount).Ok? then Move(t, from, to, amount)
    else Err(TokenTransferFailed)
  }

  function Release(w: World, id: u64, index: u32, gross: i128, caller: Address): Result<World>
  {
    var t :- PriceTranche(w, id, index, gross, caller);
    var beneficiary, treasury := w.tf.escrows[id].beneficiary, w.tf.feeConfigs[id].treasury;
    var paid :- TryTransfer(w.tok, w.env.self, beneficiary, t.payout);
    var tok :- TryTransfer(paid, w.env.self, treasury, t.fee);
    Ok(w.(tok := tok,
          tf := BookTranche(w.tf, id, index, t),
          log := w.log + [TrancheReleased(id, index, gross, t.fee, t.payout, t.milestoneReleased,
                                          t.escrowReleased, beneficiary, treasury)]))
  }

  // ---- Disputes ----

  function RaiseDispute(w: World, id: u64, caller: Address): Result<World>
  {
    var tf := w.tf;
    :- RequireAuth(w, caller);
    :- Need(!tf.paused, ContractPaused);
    :- Need(id in tf.escrows, EscrowNotFound);
    var e := tf.escrows[id];
    :- Need(e.status == Active, InvalidState);
    :- Need(caller == e.depositor || caller == e.beneficiary, Unauthorized);
    var commitDeadline := SaturatingAddU32(w.env.sequence, COMMIT_WINDOW_LEDGERS);
    var revealDeadline := SaturatingAddU32(commitDeadline, REVEAL_WINDOW_LEDGERS);
    Ok(w.(tf := tf.(escrows := tf.escrows[id := e.(status := Disputed)],
                      disputes := tf.disputes[id :=
                        DisputeRecord(id, caller, false, false, commitDeadline, revealDeadline)])))
  }

  function CommitVote(w: World, id: u64, juror: Address, commitment: Bytes32): Result<World>
  {
    var tf := w.tf;
    :- RequireAuth(w, juror);
    :- Need(!tf.paused, ContractPaused);
    :- Need(StakeOf(tf, juror) > 0, InsufficientStake);
    :- Need(id in tf.disputes, DisputeNotFound);
    :- Need(!tf.disputes[id].resolved, DisputeAlreadyResolved);
    :- Need(w.env.sequence < tf.disputes[id].commitDeadline, CommitPhaseEnded);
    :- Need(VoteKey(id, juror) !in tf.commits, AlreadyCommitted);
    Ok(w.(tf := tf.(commits := tf.commits[VoteKey(id, juror) := commitment]),
          log := w.log + [VoteCommitted(id, juror, commitment, StakeOf(tf, juror), w.env.sequence)]))
  }

  function VotersOf(tf: Store, id: u64): Vec<Address>
  {
    GetOr(tf.voters, id, [])
  }

  /** Stores the vote, clears the commitment and appends the juror to the voter list. */
  function BookVote(tf: Store, id: u64, juror: Address, vote: bool): Store
    requires |VotersOf(tf, id)| < U32_MAX
  {
    var key := VoteKey(id, juror);
    tf.(votes := tf.votes[key := vote],
        commits := tf.commits - {key},
        voters := tf.voters[id := VotersOf(tf, id) + [juror]])
  }

  function RevealVote(w: World, id: u64, juror: Address, vote: bool, salt: Bytes32): Result<World>
  {
    var tf := w.tf;
    :- RequireAuth(w, juror);
    :- Need(!tf.paused, ContractPaused);
    :- Need(id in tf.disputes, DisputeNotFound);
    var d := tf.disputes[id];
    :- Need(!d.resolved, DisputeAlreadyResolved);
    :- Need(d.commitDeadline <= w.env.sequence < d.revealDeadline, RevealPhaseNotOpen);
    var key := VoteKey(id, juror);
    :- Need(key !in tf.votes, AlreadyVoted);
    :- Need(key in tf.commits, NoCommitFound);
    :- Need(HashVote(w.env, vote, salt) == tf.commits[key], InvalidReveal);
    :- Need(|VotersOf(tf, id)| < U32_MAX, Trap);
    Ok(w.(tf := BookVote(tf, id, juror, vote),
          log := w.log + [VoteRevealed(id, juror, vote, salt, w.env.sequence)]))
  }

  function VoteOf(votes: map<VoteKey, bool>, id: u64, juror: Address): bool
  {
    GetOr(votes, VoteKey(id, juror), false)
  }

  /** How many of the listed voters are on `side`. */
  function Tally(votes: map<VoteKey, bool>, id: u64, voters: seq<Address>, side: bool): (n: nat)
    ensures n <= |voters|
  {
    if voters == [] then 0
    else
      var last := |voters| - 1;
      Tally(votes, id, voters[..last], side) + (if VoteOf(votes, id, voters[last]) == side then 1 else 0)
  }

  /** Ties favour the depositor. */
  function Ruling(tf: Store, id: u64): bool
  {
    Tally(tf.votes, id, VotersOf(tf, id), true) >= Tally(tf.votes, id, VotersOf(tf, id), false)
  }

  /** What the slashing loop reads and writes. */
  datatype Bench = Bench(stakes: map<Address, i128>, slashCounts: map<Address, u32>, log: seq<Event>)

  function SlashJuror(b: Bench, id: u64, juror: Address, slashBps: u32): Result<Bench>
  {
    var stake := GetOr(b.stakes, juror, 0);
    var slash := SlashAmount(stake, slashBps);
    var remaining :- CheckedSub(stake, slash).OkOr(ArithmeticOverflow);
    var count :- CheckedIncU32(GetOr(b.slashCounts, juror, 0)).OkOr(ArithmeticOverflow);
    Ok(Bench(b.stakes[juror := remaining], b.slashCounts[juror := count],
             b.log + [JurorSlashed(id, juror, slash, remaining, count)]))
  }

  /** Slashes, in list order, every voter whose vote differs from the ruling. */
  function SlashLosers(b: Bench, votes: map<VoteKey, bool>, id: u64, voters: seq<Address>,
                       ruling: bool, slashBps: u32): Result<Bench>
    decreases |voters|
  {
    if voters == [] then Ok(b)
    else
      var last := |voters| - 1;
      var b' :- SlashLosers(b, votes, id, voters[..last], ruling, slashBps);
      if VoteOf(votes, id, voters[last]) == ruling then Ok(b')
      else SlashJuror(b', id, voters[last], slashBps)
  }

  function BenchOf(w: World): Bench
  {
    Bench(w.tf.stakes, w.tf.slashCounts, w.log)
  }

  /** The guards of a resolution; its voters when they pass. */
  function ReadyToResolve(w: World, id: u64): (r: Result<Vec<Address>>)
    ensures r.Ok? ==> id in w.tf.disputes
  {
    var tf := w.tf;
    :- Need(!tf.paused, ContractPaused);
    :- Need(id in tf.disputes, DisputeNotFound);
    :- Need(!tf.disputes[id].resolved, DisputeAlreadyResolved);
    :- Need(tf.disputes[id].revealDeadline <= w.env.sequence, RevealPhaseNotEnded);
    :- Need(VotersOf(tf, id) != [], NoVotesCast);
    Ok(VotersOf(tf, id))
  }

  /** Tally and slashing. */
  function SlashMinority(w: World, id: u64): (r: Result<World>)
    ensures r.Ok? ==> id in w.tf.disputes && r.value.tf.disputes == w.tf.disputes
  {
    var voters :- ReadyToResolve(w, id);
    var b :- SlashLosers(BenchOf(w), w.tf.votes, id, voters, Ruling(w.tf, id), w.tf.slashBps);
    Ok(w.(tf := w.tf.(stakes := b.stakes, slashCounts := b.slashCounts), log := b.log))
  }

  /** Everything but the payout: the slashing, then the ruling on the dispute record. */
  function Judge(w: World, id: u64): Result<World>
  {
    var slashed :- SlashMinority(w, id);
    var d := w.tf.disputes[id].(resolved := true, rulingForDepositor := Ruling(w.tf, id));
    Ok(slashed.(tf := slashed.tf.(disputes := slashed.tf.disputes[id := d])))
  }

  function ResolveDispute(w: World, id: u64): Result<World>
  {
    var judged :- Judge(w, id);
    PayRemainder(judged, id, Ruling(w.tf, id))
  }

  /** Settles a ruled escrow: what is still locked goes to the winning party. */
  function PayRemainder(w: World, id: u64, ruling: bool): Result<World>
  {
    var tf := w.tf;
    :- Need(id in tf.escrows, EscrowNotFound);
    var e := tf.escrows[id];
    var remaining :- CheckedSub(e.amount, EscrowReleasedOf(tf, id)).OkOr(ArithmeticOverflow);
    var recipient := if ruling then e.depositor else e.beneficiary;
    var tok :- if remaining > 0 then Move(w.tok, w.env.self, recipient, remaining) else Ok(w.tok);
    Ok(w.(tok := tok,
          tf := tf.(escrows := tf.escrows[id := e.(status := Settled)]),
          log := w.log + [DisputePaid(id, ruling, recipient, if remaining > 0 then remaining else 0, w.env.sequence)]))
  }

  // ---- Steps and runs ----

  datatype Action =
    | DoSetFeeBps(caller: Address, feeBps: u32)
    | DoSetTreasury(caller: Address, treasury: Address)
    | DoSetPauser(caller: Address, pauser: Option<Address>)
    | DoPause(caller: Address)
    | DoUnpause(caller: Address)
    | DoStake(juror: Address, amount: i128)
    | DoUnstake(juror: Address, amount: i128)
    | DoCreateEscrow(depositor: Address, beneficiary: Address, amount: i128)
    | DoInitEscrow(depositor: Address, beneficiary: Address, milestones: Vec<Milestone>)
    | DoRelease(id: u64, index: u32, gross: i128, caller: Address)
    | DoRaiseDispute(id: u64, caller: Address)
    | DoCommitVote(id: u64, juror: Address, commitment: Bytes32)
    | DoRevealVote(id: u64, juror: Address, vote: bool, salt: Bytes32)
    | DoResolveDispute(id: u64)
    | DoToken(call: TokenCall)
    | DoAdvance(sequence: u32)

  /** A token call authorised by anyone but the contract. */
  function OutsideTokenCall(w: World, c: TokenCall): Result<World>
  {
    if c.Signer() == w.env.self then Err(Trap)
    else
      var tok :- Invoke(w.tok, w.env.sequence, c);
      Ok(w.(tok := tok))
  }

  function Apply(w: World, a: Action): Result<World>
  {
    match a
    case DoSetFeeBps(caller, feeBps) => SetFeeBps(w, caller, feeBps)
    case DoSetTreasury(caller, treasury) => SetTreasury(w, caller, treasury)
    case DoSetPauser(caller, pauser) => SetPauser(w, caller, pauser)
    case DoPause(caller) => Pause(w, caller)
    case DoUnpause(caller) => Unpause(w, caller)
    case DoStake(juror, amount) => Stake(w, juror, amount)
    case DoUnstake(juror, amount) => Unstake(w, juror, amount)
    case DoCreateEscrow(depositor, beneficiary, amount) => CreateEscrow(w, depositor, beneficiary, amount)
    case DoInitEscrow(depositor, beneficiary, milestones) => InitEscrow(w, depositor, beneficiary, milestones)
    case DoRelease(id, index, gross, caller) => Release(w, id, index, gross, caller)
    case DoRaiseDispute(id, caller) => RaiseDispute(w, id, caller)
    case DoCommitVote(id, juror, commitment) => CommitVote(w, id, juror, commitment)
    case DoRevealVote(id, juror, vote, salt) => RevealVote(w, id, juror, vote, salt)
    case DoResolveDispute(id) => ResolveDispute(w, id)
    case DoToken(c) => OutsideTokenCall(w, c)
    case DoAdvance(s) => if w.env.sequence <= s then Ok(w.(env := w.env.(sequence := s))) else Err(Trap)
  }

  /** One step of the chain; a failed call changes nothing. */
  function Step(w: World, a: Action): World
  {
    if Apply(w, a).Ok? then Apply(w, a).value else w
  }

  function Run(w: World, acts: seq<Action>): World
    decreases |acts|
  {
    if acts == [] then w else Run(Step(w, acts[0]), acts[1..])
  }
}
