/** The escrow contract as an object over a token object: storage entries are fields that each entry
    point reads, updates and writes back in the order the contract does. Every entry point is proved
    to compute the function of the same name in `TrustFlow`. A failing entry point may leave writes
    behind; the host, modelled by `Host.Execute`, discards them. */
module TrustFlowContract {
  import opened Base
  import opened FeeMath
  import AbundanceToken
  import Spec = TrustFlow
  import opened TrustFlowTypes = TrustFlow

  /** `r` is the result of `spec`, and on success the state after is its world. */
  ghost predicate Refines<T>(spec: Result<World>, r: Result<T>, after: World)
  {
    match spec
    case Ok(w) => r.Ok? && after == w
    case Err(e) => r == Err(e)
  }

  class Contract {
    const token: AbundanceToken.Token
    var admin: Address
    var slashBps: u32
    var escrowCounter: u64
    var feeBps: u32
    var treasury: Address
    var paused: bool
    var pauser: Option<Address>
    var escrows: map<u64, EscrowRecord>
    var feeConfigs: map<u64, FeeConfig>
    var escrowReleased: map<u64, i128>
    var milestoneReleased: map<MilestoneKey, i128>
    var disputes: map<u64, DisputeRecord>
    var stakes: map<Address, i128>
    var slashCounts: map<Address, u32>
    var voters: map<u64, Vec<Address>>
    var commits: map<VoteKey, Bytes32>
    var votes: map<VoteKey, bool>
    var log: seq<Event>

    function Storage(): Store
      reads this
    {
      Store(admin, slashBps, escrowCounter, feeBps, treasury, paused, pauser, escrows, feeConfigs,
            escrowReleased, milestoneReleased, disputes, stakes, slashCounts, voters, commits, votes)
    }

    function Snapshot(env: Env): World
      reads this, token
    {
      World(env, token.State(), Storage(), log)
    }

    constructor (token: AbundanceToken.Token, anyone: Address)
      ensures this.token == token
      ensures Storage() == Deployed(anyone) && log == []
    {
      this.token := token;
      admin, treasury := anyone, anyone;
      slashBps, escrowCounter, feeBps, paused, pauser := 0, 0, 0, false, None;
      escrows, feeConfigs, escrowReleased, milestoneReleased := map[], map[], map[], map[];
      disputes, stakes, slashCounts := map[], map[], map[];
      voters, commits, votes, log := map[], map[], map[], [];
    }

    method Initialize(env: Env, newAdmin: Address, newSlashBps: u32) returns (r: Result<()>)
      modifies this, token
      ensures Refines(Spec.Initialize(old(Snapshot(env)), newAdmin, newSlashBps), r, Snapshot(env))
    {
      if newAdmin == env.self || newSlashBps > 10_000 {
        return Err(Trap);
      }
      admin := newAdmin;
      slashBps := newSlashBps;
      escrowCounter := 0;
      feeBps := DEFAULT_FEE_BPS;
      treasury := newAdmin;
      return Ok(());
    }

    method SetFeeBps(env: Env, caller: Address, bps: u32) returns (r: Result<()>)
      modifies this, token
      ensures Refines(Spec.SetFeeBps(old(Snapshot(env)), caller, bps), r, Snapshot(env))
    {
      if caller == env.self {
        return Err(Trap);
      }
      if caller != admin {
        return Err(Unauthorized);
      }
      if bps > MAX_FEE_BPS {
        return Err(InvalidFeeBps);
      }
      feeBps := bps;
      return Ok(());
    }

    method SetTreasury(env: Env, caller: Address, newTreasury: Address) returns (r: Result<()>)
      modifies this, token
      ensures Refines(Spec.SetTreasury(old(Snapshot(env)), caller, newTreasury), r, Snapshot(env))
    {
      if caller == env.self {
        return Err(Trap);
      }
      if caller != admin {
        return Err(Unauthorized);
      }
      treasury := newTreasury;
      return Ok(());
    }

    /** `set_pauser` with an address, `revoke_pauser` with none. */
    method SetPauser(env: Env, caller: Address, newPauser: Option<Address>) returns (r: Result<()>)
      modifies this, token
      ensures Refines(Spec.SetPauser(old(Snapshot(env)), caller, newPauser), r, Snapshot(env))
    {
      if caller == env.self {
        return Err(Trap);
      }
      if caller != admin {
        return Err(Unauthorized);
      }
      pauser := newPauser;
      return Ok(());
    }

    method Pause(env: Env, caller: Address) returns (r: Result<()>)
      modifies this, token
      ensures Refines(Spec.Pause(old(Snapshot(env)), caller), r, Snapshot(env))
    {
      if caller == env.self {
        return Err(Trap);
      }
      var isAdmin := caller == admin;
      var isPauser := pauser.Some? && caller == pauser.value;
      if !isAdmin && !isPauser {
        return Err(Unauthorized);
      }
      if !paused {
        paused := true;
      }
      return Ok(());
    }

    method Unpause(env: Env, caller: Address) returns (r: Result<()>)
      modifies this, token
      ensures Refines(Spec.Unpause(old(Snapshot(env)), caller), r, Snapshot(env))
    {
      if caller == env.self {
        return Err(Trap);
      }
      if caller != admin {
        return Err(Unauthorized);
      }
      if paused {
        paused := false;
      }
      return Ok(());
    }

    method Stake(env: Env, juror: Address, amount: i128) returns (r: Result<()>)
      modifies this, token
      ensures Refines(Spec.Stake(old(Snapshot(env)), juror, amount), r, Snapshot(env))
    {
      if juror == env.self {
        return Err(Trap);
      }
      if paused {
        return Err(ContractPaused);
      }
      if amount <= 0 {
        return Err(InvalidAmount);
      }
      r := token.Transfer(juror, env.self, amount);
      if r.Err? {
        return;
      }
      var previous := GetOr(stakes, juror, 0);
      var total := CheckedAdd(previous, amount);
      if total.None? {
        return Err(ArithmeticOverflow);
      }
      stakes := stakes[juror := total.value];
      log := log + [Staked(juror, amount, total.value)];
      return Ok(());
    }

    method Unstake(env: Env, juror: Address, amount: i128) returns (r: Result<()>)
      modifies this, token
      ensures Refines(Spec.Unstake(old(Snapshot(env)), juror, amount), r, Snapshot(env))
    {
      if juror == env.self {
        return Err(Trap);
      }
      if paused {
        return Err(ContractPaused);
      }
      var current := GetOr(stakes, juror, 0);
      if current < amount {
        return Err(InsufficientStake);
      }
      r := token.Transfer(env.self, juror, amount);
      if r.Err? {
        return;
      }
      var remaining := CheckedSub(current, amount);
      if remaining.None? {
        return Err(ArithmeticOverflow);
      }
      stakes := stakes[juror := remaining.value];
      log := log + [Unstaked(juror, amount, remaining.value)];
      return Ok(());
    }

    /** The shared tail of the two ways to create an escrow. */
    method Open(env: Env, depositor: Address, beneficiary: Address, amount: i128, milestones: Vec<Milestone>)
      returns (r: Result<u64>)
      modifies this, token
      ensures Refines(Spec.OpenEscrow(old(Snapshot(env)), depositor, beneficiary, amount, milestones),
                      r, Snapshot(env))
      ensures r.Ok? ==> r.value == escrowCounter
    {
      hide AbundanceToken.Move;
      var moved := token.Transfer(depositor, env.self, amount);
      if moved.Err? {
        return Err(moved.error);
      }
      if escrowCounter == U64_MAX {
        return Err(ArithmeticOverflow);
      }
      var id := escrowCounter + 1;
      escrowCounter := id;
      escrows := escrows[id := EscrowRecord(id, depositor, beneficiary, amount, Active, milestones)];
      feeConfigs := feeConfigs[id := FeeConfig(treasury, feeBps)];
      return Ok(id);
    }

    method CreateEscrow(env: Env, depositor: Address, beneficiary: Address, amount: i128) returns (r: Result<u64>)
      modifies this, token
      ensures Refines(Spec.CreateEscrow(old(Snapshot(env)), depositor, beneficiary, amount),
                      r, Snapshot(env))
      ensures r.Ok? ==> r.value == escrowCounter
    {
      if depositor == env.self {
        return Err(Trap);
      }
      if paused {
        return Err(ContractPaused);
      }
      if amount <= 0 {
        return Err(InvalidAmount);
      }
      r := Open(env, depositor, beneficiary, amount, []);
    }

    method InitEscrow(env: Env, depositor: Address, beneficiary: Address, milestones: Vec<Milestone>)
      returns (r: Result<u64>)
      modifies this, token
      ensures Refines(Spec.InitEscrow(old(Snapshot(env)), depositor, beneficiary, milestones),
                      r, Snapshot(env))
      ensures r.Ok? ==> r.value == escrowCounter
    {
      if depositor == env.self {
        return Err(Trap);
      }
      if paused {
        return Err(ContractPaused);
      }
      var total: i128 := 0;
      for i := 0 to |milestones|
        invariant Spec.MilestoneTotal(milestones[..i]) == Ok(total)
        invariant Snapshot(env) == old(Snapshot(env))
      {
        ghost var prefix := milestones[..i + 1];
        assert prefix[..i] == milestones[..i];
        var failure: Option<Error> := None;
        if milestones[i].amount <= 0 {
          failure := Some(InvalidAmount);
        } else {
          var sum := CheckedAdd(total, milestones[i].amount);
          if sum.None? {
            failure := Some(ArithmeticOverflow);
          } else {
            total := sum.value;
          }
        }
        if failure.Some? {
          MilestoneErrorIsFinal(milestones, i + 1);
          return Err(failure.value);
        }
      }
      assert milestones[..|milestones|] == milestones;
      if total <= 0 {
        return Err(InvalidAmount);
      }
      r := Open(env, depositor, beneficiary, total, milestones);
      if r.Ok? {
        log := log + [EscrowInitialized(r.value, depositor, beneficiary, total)];
      }
    }

    /** A non-zero transfer out of the contract, any failure reported as one error. */
    method TryTransfer(env: Env, to: Address, amount: i128) returns (r: Result<()>)
      modifies token
      ensures AbundanceToken.Refines(Spec.TryTransfer(old(token.State()), env.self, to, amount),
                                     r, old(token.State()), token.State())
    {
      if amount == 0 {
        return Ok(());
      }
      r := token.Transfer(env.self, to, amount);
      if r.Err? {
        return Err(TokenTransferFailed);
      }
    }

    /** The accounting writes of a tranche. */
    method WriteTranche(id: u64, index: u32, t: Tranche)
      requires id in escrows && index < |escrows[id].milestones|
      modifies this`escrows, this`milestoneReleased, this`escrowReleased
      ensures Storage() == Spec.BookTranche(old(Storage()), id, index, t)
    {
      var escrow := escrows[id];
      var milestone := escrow.milestones[index].(approved := true);
      escrow := escrow.(milestones := escrow.milestones[index := milestone]);
      if t.escrowReleased == escrow.amount {
        escrow := escrow.(status := Settled);
      }
      escrows := escrows[id := escrow];
      milestoneReleased := milestoneReleased[MilestoneKey(id, index) := t.milestoneReleased];
      escrowReleased := escrowReleased[id := t.escrowReleased];
    }

    /** The validation and the arithmetic of a tranche; nothing is written. */
    method PriceTranche(env: Env, id: u64, index: u32, gross: i128, caller: Address) returns (r: Result<Tranche>)
      ensures r == Spec.PriceTranche(Snapshot(env), id, index, gross, caller)
    {
      if caller == env.self {
        return Err(Trap);
      }
      if paused {
        return Err(ContractPaused);
      }
      if gross <= 0 {
        return Err(InvalidAmount);
      }
      if id !in escrows {
        return Err(EscrowNotFound);
      }
      var escrow := escrows[id];
      if caller != escrow.depositor {
        return Err(Unauthorized);
      }
      if escrow.status != Active {
        return Err(InvalidState);
      }
      if index >= |escrow.milestones| {
        return Err(MilestoneNotFound);
      }
      var milestone := escrow.milestones[index];
      if env.sequence < milestone.releaseTime {
        return Err(MilestoneTimeLocked);
      }
      var milestoneAfter := CheckedAdd(GetOr(milestoneReleased, MilestoneKey(id, index), 0), gross);
      if milestoneAfter.None? {
        return Err(InvalidAmount);
      }
      if milestoneAfter.value > milestone.amount {
        return Err(MilestoneAmountMismatch);
      }
      var before := GetOr(escrowReleased, id, 0);
      var after := CheckedAdd(before, gross);
      if after.None? {
        return Err(InvalidAmount);
      }
      if after.value > escrow.amount {
        return Err(MilestoneAmountMismatch);
      }
      if id !in feeConfigs {
        return Err(EscrowNotFound);
      }
      hide CumulativeFee;
      var feeBefore := CumulativeFee(before, feeConfigs[id].feeBps);
      if feeBefore.Err? {
        return Err(feeBefore.error);
      }
      var feeAfter := CumulativeFee(after.value, feeConfigs[id].feeBps);
      if feeAfter.Err? {
        return Err(feeAfter.error);
      }
      var fee := CheckedSub(feeAfter.value, feeBefore.value);
      if fee.None? {
        return Err(InvalidAmount);
      }
      var payout := CheckedSub(gross, fee.value);
      if payout.None? {
        return Err(InvalidAmount);
      }
      return Ok(Tranche(milestoneAfter.value, after.value, fee.value, payout.value));
    }

    /** Accounting is written before either transfer. */
    method ReleaseMilestoneTranche(env: Env, id: u64, index: u32, gross: i128, caller: Address)
      returns (r: Result<()>)
      modifies this, token
      ensures Refines(Spec.Release(old(Snapshot(env)), id, index, gross, caller), r, Snapshot(env))
    {
      var priced := PriceTranche(env, id, index, gross, caller);
      if priced.Err? {
        return Err(priced.error);
      }
      var t := priced.value;
      var beneficiary, treasuryThen := escrows[id].beneficiary, feeConfigs[id].treasury;
      WriteTranche(id, index, t);
      r := TryTransfer(env, beneficiary, t.payout);
      if r.Err? {
        return;
      }
      r := TryTransfer(env, treasuryThen, t.fee);
      if r.Err? {
        return;
      }
      log := log + [TrancheReleased(id, index, gross, t.fee, t.payout, t.milestoneReleased,
                                    t.escrowReleased, beneficiary, treasuryThen)];
    }

    method RaiseDispute(env: Env, id: u64, caller: Address) returns (r: Result<()>)
      modifies this, token
      ensures Refines(Spec.RaiseDispute(old(Snapshot(env)), id, caller), r, Snapshot(env))
    {
      if caller == env.self {
        return Err(Trap);
      }
      if paused {
        return Err(ContractPaused);
      }
      if id !in escrows {
        return Err(EscrowNotFound);
      }
      var escrow := escrows[id];
      if escrow.status != Active {
        return Err(InvalidState);
      }
      if caller != escrow.depositor && caller != escrow.beneficiary {
        return Err(Unauthorized);
      }
      escrow := escrow.(status := Disputed);
      escrows := escrows[id := escrow];
      var commitDeadline := SaturatingAddU32(env.sequence, COMMIT_WINDOW_LEDGERS);
      var revealDeadline := SaturatingAddU32(commitDeadline, REVEAL_WINDOW_LEDGERS);
      disputes := disputes[id := DisputeRecord(id, caller, false, false, commitDeadline, revealDeadline)];
      return Ok(());
    }

    method CommitVote(env: Env, id: u64, juror: Address, commitment: Bytes32) returns (r: Result<()>)
      modifies this, token
      ensures Refines(Spec.CommitVote(old(Snapshot(env)), id, juror, commitment), r, Snapshot(env))
    {
      if juror == env.self {
        return Err(Trap);
      }
      if paused {
        return Err(ContractPaused);
      }
      var stake := GetOr(stakes, juror, 0);
      if stake <= 0 {
        return Err(InsufficientStake);
      }
      if id !in disputes {
        return Err(DisputeNotFound);
      }
      if disputes[id].resolved {
        return Err(DisputeAlreadyResolved);
      }
      if env.sequence >= disputes[id].commitDeadline {
        return Err(CommitPhaseEnded);
      }
      var key := VoteKey(id, juror);
      if key in commits {
        return Err(AlreadyCommitted);
      }
      commits := commits[key := commitment];
      log := log + [VoteCommitted(id, juror, commitment, stake, env.sequence)];
      return Ok(());
    }

    /** Stores the vote, clears the commitment and appends the juror to the voter list. */
    method RecordVote(id: u64, juror: Address, vote: bool) returns (r: Result<()>)
      modifies this`votes, this`commits, this`voters
      ensures r == if |VotersOf(old(Storage()), id)| < U32_MAX then Ok(()) else Err(Trap)
      ensures r.Ok? ==> Storage() == Spec.BookVote(old(Storage()), id, juror, vote)
    {
      var key := VoteKey(id, juror);
      votes := votes[key := vote];
      commits := commits - {key};
      var list := GetOr(voters, id, []);
      if |list| == U32_MAX {
        return Err(Trap);
      }
      list := list + [juror];
      voters := voters[id := list];
      return Ok(());
    }

    method RevealVote(env: Env, id: u64, juror: Address, vote: bool, salt: Bytes32) returns (r: Result<()>)
      modifies this, token
      ensures Refines(Spec.RevealVote(old(Snapshot(env)), id, juror, vote, salt), r, Snapshot(env))
    {
      if juror == env.self {
        return Err(Trap);
      }
      if paused {
        return Err(ContractPaused);
      }
      if id !in disputes {
        return Err(DisputeNotFound);
      }
      var dispute := disputes[id];
      if dispute.resolved {
        return Err(DisputeAlreadyResolved);
      }
      if env.sequence < dispute.commitDeadline || env.sequence >= dispute.revealDeadline {
        return Err(RevealPhaseNotOpen);
      }
      var key := VoteKey(id, juror);
      if key in votes {
        return Err(AlreadyVoted);
      }
      if key !in commits {
        return Err(NoCommitFound);
      }
      if HashVote(env, vote, salt) != commits[key] {
        return Err(InvalidReveal);
      }
      r := RecordVote(id, juror, vote);
      if r.Err? {
        return;
      }
      log := log + [VoteRevealed(id, juror, vote, salt, env.sequence)];
      return Ok(());
    }

    /** First loop of `ResolveDispute`. The counters cannot overflow: a host vector has at most
        u32::MAX entries. */
    method CountVotes(id: u64, list: Vec<Address>) returns (forDepositor: u32, forBeneficiary: u32)
      ensures forDepositor == Spec.Tally(votes, id, list, true)
      ensures forBeneficiary == Spec.Tally(votes, id, list, false)
    {
      forDepositor, forBeneficiary := 0, 0;
      for i := 0 to |list|
        invariant forDepositor == Spec.Tally(votes, id, list[..i], true)
        invariant forBeneficiary == Spec.Tally(votes, id, list[..i], false)
        invariant forDepositor + forBeneficiary == i
      {
        assert list[..i + 1][..i] == list[..i];
        if GetOr(votes, VoteKey(id, list[i]), false) {
          forDepositor := forDepositor + 1;
        } else {
          forBeneficiary := forBeneficiary + 1;
        }
      }
      assert list[..|list|] == list;
    }

    /** Body of the slashing loop for one losing voter. */
    method SlashVoter(id: u64, juror: Address) returns (r: Result<()>)
      modifies this`stakes, this`slashCounts, this`log
      ensures
        match Spec.SlashJuror(Bench(old(stakes), old(slashCounts), old(log)), id, juror, slashBps)
        case Ok(b) => r.Ok? && Bench(stakes, slashCounts, log) == b
        case Err(e) => r == Err(e)
    {
      var stake := GetOr(stakes, juror, 0);
      var slash := SlashAmount(stake, slashBps);
      var remaining := CheckedSub(stake, slash);
      if remaining.None? {
        return Err(ArithmeticOverflow);
      }
      stakes := stakes[juror := remaining.value];
      var count := CheckedIncU32(GetOr(slashCounts, juror, 0));
      if count.None? {
        return Err(ArithmeticOverflow);
      }
      slashCounts := slashCounts[juror := count.value];
      log := log + [JurorSlashed(id, juror, slash, remaining.value, count.value)];
      return Ok(());
    }

    /** Second loop of `ResolveDispute`: stakes and counters are rewritten voter by voter. */
    method SlashVoters(id: u64, list: Vec<Address>, ruling: bool) returns (r: Result<()>)
      modifies this`stakes, this`slashCounts, this`log
      ensures
        match Spec.SlashLosers(Bench(old(stakes), old(slashCounts), old(log)), votes, id, list, ruling, slashBps)
        case Ok(b) => r.Ok? && Bench(stakes, slashCounts, log) == b
        case Err(e) => r == Err(e)
    {
      ghost var start := Bench(stakes, slashCounts, log);
      for i := 0 to |list|
        invariant Spec.SlashLosers(start, votes, id, list[..i], ruling, slashBps) == Ok(Bench(stakes, slashCounts, log))
      {
        assert list[..i + 1][..i] == list[..i];
        var juror := list[i];
        if GetOr(votes, VoteKey(id, juror), false) != ruling {
          r := SlashVoter(id, juror);
          if r.Err? {
            SlashErrorIsFinal(start, votes, id, list, i + 1, ruling, slashBps);
            return;
          }
        }
      }
      assert list[..|list|] == list;
      return Ok(());
    }

    /** Guards of `ResolveDispute`. */
    method LoadVoters(env: Env, id: u64) returns (r: Result<Vec<Address>>)
      ensures r == Spec.ReadyToResolve(Snapshot(env), id)
    {
      if paused {
        return Err(ContractPaused);
      }
      if id !in disputes {
        return Err(DisputeNotFound);
      }
      var dispute := disputes[id];
      if dispute.resolved {
        return Err(DisputeAlreadyResolved);
      }
      if env.sequence < dispute.revealDeadline {
        return Err(RevealPhaseNotEnded);
      }
      var list := GetOr(voters, id, []);
      if list == [] {
        return Err(NoVotesCast);
      }
      return Ok(list);
    }

    /** Tally and slashing of `ResolveDispute`; returns the ruling. */
    method SlashMinority(env: Env, id: u64) returns (r: Result<bool>)
      modifies this`stakes, this`slashCounts, this`log
      ensures Refines(Spec.SlashMinority(old(Snapshot(env)), id), r, Snapshot(env))
      ensures r.Ok? ==> r.value == Spec.Ruling(old(Storage()), id)
    {
      hide Spec.SlashLosers, Spec.Tally;
      var list := LoadVoters(env, id);
      if list.Err? {
        return Err(list.error);
      }
      var forDepositor, forBeneficiary := CountVotes(id, list.value);
      var ruling := forDepositor >= forBeneficiary;
      var slashed := SlashVoters(id, list.value, ruling);
      if slashed.Err? {
        return Err(slashed.error);
      }
      return Ok(ruling);
    }

    /** `ResolveDispute` up to the payout. */
    method JudgeDispute(env: Env, id: u64) returns (r: Result<bool>)
      modifies this`stakes, this`slashCounts, this`log, this`disputes
      ensures Refines(Spec.Judge(old(Snapshot(env)), id), r, Snapshot(env))
      ensures r.Ok? ==> r.value == Spec.Ruling(old(Storage()), id)
    {
      r := SlashMinority(env, id);
      if r.Ok? {
        disputes := disputes[id := disputes[id].(resolved := true, rulingForDepositor := r.value)];
      }
    }

    method ResolveDispute(env: Env, id: u64) returns (r: Result<bool>)
      modifies this, token
      ensures Refines(Spec.ResolveDispute(old(Snapshot(env)), id), r, Snapshot(env))
      ensures r.Ok? ==> r.value == Spec.Ruling(old(Storage()), id)
    {
      r := JudgeDispute(env, id);
      if r.Ok? {
        r := SettleEscrow(env, id, r.value);
      }
    }

    /** Last part of `ResolveDispute`: pays out what is still locked. */
    method SettleEscrow(env: Env, id: u64, ruling: bool) returns (r: Result<bool>)
      modifies this`escrows, this`log, token
      ensures
        var spec := Spec.PayRemainder(old(Snapshot(env)), id, ruling);
        match spec
        case Ok(w) => r == Ok(ruling) && Snapshot(env) == w
        case Err(e) => r == Err(e)
    {
      if id !in escrows {
        return Err(EscrowNotFound);
      }
      var escrow := escrows[id];
      var remaining := CheckedSub(escrow.amount, GetOr(escrowReleased, id, 0));
      if remaining.None? {
        return Err(ArithmeticOverflow);
      }
      var recipient := if ruling then escrow.depositor else escrow.beneficiary;
      if remaining.value > 0 {
        var moved := token.Transfer(env.self, recipient, remaining.value);
        if moved.Err? {
          return Err(moved.error);
        }
      }
      escrows := escrows[id := escrow.(status := Settled)];
      var paid := if remaining.value > 0 then remaining.value else 0;
      log := log + [DisputePaid(id, ruling, recipient, paid, env.sequence)];
      return Ok(ruling);
    }
  }

  /** The host around the contract: the ledger clock, and transactions that commit or vanish. */
  class Host {
    const contract: Contract
    var env: Env

    constructor (contract: Contract, env: Env)
      ensures this.contract == contract && this.env == env
    {
      this.contract, this.env := contract, env;
    }

    ghost function World(): World
      reads this, contract, contract.token
    {
      contract.Snapshot(env)
    }

    /** Puts back the instance storage of a failed call. */
    method RestoreInstance(saved: Store)
      modifies contract`admin, contract`slashBps, contract`escrowCounter
      modifies contract`feeBps, contract`treasury, contract`paused, contract`pauser
      ensures contract.admin == saved.admin && contract.slashBps == saved.slashBps
      ensures contract.escrowCounter == saved.escrowCounter && contract.feeBps == saved.feeBps
      ensures contract.treasury == saved.treasury
      ensures contract.paused == saved.paused && contract.pauser == saved.pauser
    {
      var c := contract;
      c.admin, c.slashBps, c.escrowCounter := saved.admin, saved.slashBps, saved.escrowCounter;
      c.feeBps, c.treasury := saved.feeBps, saved.treasury;
      c.paused, c.pauser := saved.paused, saved.pauser;
    }

    /** Puts back the escrow entries of a failed call. */
    method RestoreEscrows(saved: Store)
      modifies contract`escrows, contract`feeConfigs, contract`escrowReleased, contract`milestoneReleased
      ensures contract.escrows == saved.escrows && contract.feeConfigs == saved.feeConfigs
      ensures contract.escrowReleased == saved.escrowReleased
      ensures contract.milestoneReleased == saved.milestoneReleased
    {
      var c := contract;
      c.escrows, c.feeConfigs := saved.escrows, saved.feeConfigs;
      c.escrowReleased, c.milestoneReleased := saved.escrowReleased, saved.milestoneReleased;
    }

    /** Puts back the dispute and juror entries of a failed call. */
    method RestoreDisputes(saved: Store)
      modifies contract`disputes, contract`stakes, contract`slashCounts
      modifies contract`voters, contract`commits, contract`votes
      ensures contract.disputes == saved.disputes && contract.stakes == saved.stakes
      ensures contract.slashCounts == saved.slashCounts && contract.voters == saved.voters
      ensures contract.commits == saved.commits && contract.votes == saved.votes
    {
      var c := contract;
      c.disputes, c.stakes, c.slashCounts := saved.disputes, saved.stakes, saved.slashCounts;
      c.voters, c.commits, c.votes := saved.voters, saved.commits, saved.votes;
    }

    method RestoreStorage(saved: Store)
      modifies contract
      ensures contract.Storage() == saved && contract.log == old(contract.log)
    {
      RestoreInstance(saved);
      RestoreEscrows(saved);
      RestoreDisputes(saved);
    }

    method Rollback(tok: AbundanceToken.TokenState, tf: Store, log: seq<Event>)
      modifies contract, contract.token
      ensures contract.Snapshot(env) == Spec.World(env, tok, tf, log)
    {
      RestoreStorage(tf);
      contract.log := log;
      contract.token.Restore(tok);
    }

    method DispatchAdmin(a: Action) returns (r: Result<()>)
      requires a.DoSetFeeBps? || a.DoSetTreasury? || a.DoSetPauser? || a.DoPause? || a.DoUnpause?
      modifies contract, contract.token
      ensures Refines(Spec.Apply(old(World()), a), r, World())
    {
      hide Spec.SetFeeBps, Spec.SetTreasury, Spec.SetPauser, Spec.Pause, Spec.Unpause;
      match a
      case DoSetFeeBps(caller, bps) => r := contract.SetFeeBps(env, caller, bps);
      case DoSetTreasury(caller, treasury) => r := contract.SetTreasury(env, caller, treasury);
      case DoSetPauser(caller, pauser) => r := contract.SetPauser(env, caller, pauser);
      case DoPause(caller) => r := contract.Pause(env, caller);
      case DoUnpause(caller) => r := contract.Unpause(env, caller);
    }

    method DispatchFunds(a: Action) returns (r: Result<()>)
      requires a.DoStake? || a.DoUnstake? || a.DoCreateEscrow? || a.DoInitEscrow? || a.DoRelease?
      modifies contract, contract.token
      ensures Refines(Spec.Apply(old(World()), a), r, World())
    {
      hide Spec.Stake, Spec.Unstake, Spec.CreateEscrow, Spec.InitEscrow, Spec.Release;
      match a
      case DoStake(juror, amount) => r := contract.Stake(env, juror, amount);
      case DoUnstake(juror, amount) => r := contract.Unstake(env, juror, amount);
      case DoCreateEscrow(depositor, beneficiary, amount) =>
        var id := contract.CreateEscrow(env, depositor, beneficiary, amount);
        r := if id.Ok? then Ok(()) else Err(id.error);
      case DoInitEscrow(depositor, beneficiary, milestones) =>
        var id := contract.InitEscrow(env, depositor, beneficiary, milestones);
        r := if id.Ok? then Ok(()) else Err(id.error);
      case DoRelease(id, index, gross, caller) =>
        r := contract.ReleaseMilestoneTranche(env, id, index, gross, caller);
    }

    method DispatchDispute(a: Action) returns (r: Result<()>)
      requires a.DoRaiseDispute? || a.DoCommitVote? || a.DoRevealVote? || a.DoResolveDispute?
      modifies contract, contract.token
      ensures Refines(Spec.Apply(old(World()), a), r, World())
    {
      hide Spec.RaiseDispute, Spec.CommitVote, Spec.RevealVote, Spec.ResolveDispute;
      match a
      case DoRaiseDispute(id, caller) => r := contract.RaiseDispute(env, id, caller);
      case DoCommitVote(id, juror, commitment) => r := contract.CommitVote(env, id, juror, commitment);
      case DoRevealVote(id, juror, vote, salt) => r := contract.RevealVote(env, id, juror, vote, salt);
      case DoResolveDispute(id) =>
        var ruling := contract.ResolveDispute(env, id);
        r := if ruling.Ok? then Ok(()) else Err(ruling.error);
    }

    /** One action on the chain, executed by the entry point it names. */
    method Dispatch(a: Action) returns (r: Result<()>)
      modifies this, contract, contract.token
      ensures Refines(Spec.Apply(old(World()), a), r, World())
      ensures r.Err? ==> env == old(env)
    {
      if a.DoToken? {
        hide AbundanceToken.Invoke;
        if a.call.Signer() == env.self {
          return Err(Trap);
        }
        r := CallToken(a.call);
      } else if a.DoAdvance? {
        if a.sequence < env.sequence {
          return Err(Trap);
        }
        env := env.(sequence := a.sequence);
        return Ok(());
      } else if a.DoSetFeeBps? || a.DoSetTreasury? || a.DoSetPauser? || a.DoPause? || a.DoUnpause? {
        hide Spec.Apply;
        r := DispatchAdmin(a);
      } else if a.DoStake? || a.DoUnstake? || a.DoCreateEscrow? || a.DoInitEscrow? || a.DoRelease? {
        hide Spec.Apply;
        r := DispatchFunds(a);
      } else {
        hide Spec.Apply;
        r := DispatchDispute(a);
      }
    }

    method CallToken(call: AbundanceToken.TokenCall) returns (r: Result<()>)
      modifies contract.token
      ensures AbundanceToken.Refines(AbundanceToken.Invoke(old(contract.token.State()), env.sequence, call),
                                     r, old(contract.token.State()), contract.token.State())
    {
      var token := contract.token;
      match call
      case Mint(to, amount) => r := token.Mint(to, amount);
      case Approve(from, spender, amount, expiration) =>
        r := token.Approve(env.sequence, from, spender, amount, expiration);
      case Transfer(from, to, amount) => r := token.Transfer(from, to, amount);
      case TransferFrom(spender, from, to, amount) => r := token.TransferFrom(env.sequence, spender, from, to, amount);
      case Burn(from, amount) => r := token.Burn(from, amount);
      case BurnFrom(spender, from, amount) => r := token.BurnFrom(env.sequence, spender, from, amount);
    }

    /** A transaction: the objects after it are exactly the specified step of the world. */
    method Execute(a: Action)
      modifies this, contract, contract.token
      ensures World() == Spec.Step(old(World()), a)
    {
      var tok, tf, log := contract.token.State(), contract.Storage(), contract.log;
      var r := Dispatch(a);
      if r.Err? {
        Rollback(tok, tf, log);
      }
    }
  }

  /** An error met on a prefix of the milestones is the error of the whole list. */
  lemma {:induction false} MilestoneErrorIsFinal(ms: seq<Milestone>, n: nat)
    requires n <= |ms| && Spec.MilestoneTotal(ms[..n]).Err?
    ensures Spec.MilestoneTotal(ms) == Spec.MilestoneTotal(ms[..n])
  {
    if n == |ms| {
      assert ms[..n] == ms;
    } else {
      var shorter := ms[..|ms| - 1];
      assert shorter[..n] == ms[..n];
      MilestoneErrorIsFinal(shorter, n);
    }
  }

  lemma {:induction false} SlashErrorIsFinal(b: Bench, votes: map<VoteKey, bool>, id: u64, list: seq<Address>, n: nat,
                                             ruling: bool, slashBps: u32)
    requires n <= |list| && Spec.SlashLosers(b, votes, id, list[..n], ruling, slashBps).Err?
    ensures Spec.SlashLosers(b, votes, id, list, ruling, slashBps)
            == Spec.SlashLosers(b, votes, id, list[..n], ruling, slashBps)
    decreases |list|
  {
    if n == |list| {
      assert list[..n] == list;
    } else {
      var shorter := list[..|list| - 1];
      assert shorter[..n] == list[..n];
      SlashErrorIsFinal(b, votes, id, shorter, n, ruling, slashBps);
    }
  }
}
