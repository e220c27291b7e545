/** A dispute tended in time all along whose resolution is lost: the ballots, which no keeper call
    extends, expire first. */
module ResolutionScenario {
  import opened Base
  import opened TrustFlow
  import opened History
  import opened Runs
  import opened Ballots
  import opened Conservation
  import opened Solvency
  import opened Keeper
  import opened KeeperVotes
  import opened Scenario
  import opened KeeperScenario

  // ---- While everything is young ----

  /** No entry can have expired yet, and every escrow and stake has a ledger on record. */
  ghost predicate AllYoung(g: Aging)
  {
    && Now(g) <= LIFETIME_THRESHOLD
    && (forall k :: Exists(g.w.tf, k) ==> k in g.ttl && g.ttl[k] >= LIFETIME_THRESHOLD)
    && (forall id :: id in g.w.tf.escrows ==> id in g.called && g.called[id] >= 0)
    && (forall j :: j in g.w.tf.stakes ==> j in g.tended && g.tended[j] >= 0)
  }

  function Calls(acts: seq<Action>): seq<AgingAction>
  {
    if acts == [] then [] else [Call(acts[0])] + Calls(acts[1..])
  }

  lemma YoungCall(g: Aging, a: Action)
    requires WorldOk(g.w) && AllYoung(g) && Step(g.w, a).env.sequence <= LIFETIME_THRESHOLD
    ensures AgingStep(g, Call(a)).w == Step(g.w, a) && AllYoung(AgingStep(g, Call(a)))
  {
    hide WorldOk, Apply, Step, Touched, ReadOnly, Exists, ExtendAll, WithNew;
    var g' := AgingStep(g, Call(a));
    StepSelf(g.w, a);
    if Apply(g.w, a).Err? {
      FailedStep(g.w, a);
    } else if OnContract(a) {
      var keys := Touched(g.w.tf, Step(g.w, a).tf, a) + ReadOnly(g.w.tf, a);
      assert Usable(g, keys);
      hide Usable;
      forall id | id in g'.w.tf.escrows ensures id in g'.called && g'.called[id] >= 0 {
        NewEscrows(g.w, a, id);
      }
    } else {
      OffContract(g.w, a);
    }
    forall k | Exists(g'.w.tf, k) ensures k in g'.ttl && g'.ttl[k] >= LIFETIME_THRESHOLD {
      NoLifetimeShortened(g, Call(a), k);
    }
  }

  /** A young run goes through as if nothing could expire, and is tended in time without a keeper. */
  lemma {:induction false} YoungRun(g: Aging, acts: seq<Action>, id: u64, j: Address)
    requires WorldOk(g.w) && AllYoung(g) && Run(g.w, acts).env.sequence <= LIFETIME_THRESHOLD
    ensures AgingRun(g, Calls(acts)).w == Run(g.w, acts) && AllYoung(AgingRun(g, Calls(acts)))
    ensures Cadence(g, Calls(acts), id) && JurorCadence(g, Calls(acts), j)
    decreases |acts|
  {
    hide WorldOk, AllYoung, AgingStep, Step, KeptUp, KeptJuror, Keeps;
    YoungIsKept(g, id, j);
    if acts != [] {
      var a := acts[0];
      StepKeepsWorld(g.w, a);
      RunKeepsWorld(Step(g.w, a), acts[1..]);
      assert Step(g.w, a).env.sequence <= Run(g.w, acts).env.sequence by { ClockKept(Step(g.w, a), Run(g.w, acts)); }
      YoungCall(g, a);
      YoungRun(AgingStep(g, Call(a)), acts[1..], id, j);
      assert Calls(acts)[0] == Call(a) && Calls(acts)[1..] == Calls(acts[1..]);
    }
  }

  lemma ClockKept(w: World, w': World)
    requires Keeps(w, w')
    ensures w.env.sequence <= w'.env.sequence
  {
  }

  lemma YoungIsKept(g: Aging, id: u64, j: Address)
    requires AllYoung(g)
    ensures KeptUp(g, id) && KeptJuror(g, j)
  {
    hide Exists;
  }

  // ---- Rounds of keeper calls ----

  /** The clock moves to `s`, and the keeper calls on the escrow and both jurors. */
  function Round(s: u32): seq<AgingAction>
  {
    [Call(DoAdvance(s)), KeepEscrow(1), KeepJuror(WINNER), KeepJuror(LOSER)]
  }

  /** The last keeper calls on the escrow and both jurors came at ledger `c` or later. */
  ghost predicate KeptSince(g: Aging, c: int)
  {
    && 1 in g.w.tf.escrows && WINNER in g.w.tf.stakes && LOSER in g.w.tf.stakes
    && 1 in g.called && g.called[1] >= c
    && WINNER in g.tended && g.tended[WINNER] >= c && LOSER in g.tended && g.tended[LOSER] >= c
  }

  /** Escrow and jurors are tended in time through these actions. */
  ghost predicate AllTended(g: Aging, acts: seq<AgingAction>)
  {
    Cadence(g, acts, 1) && JurorCadence(g, acts, WINNER) && JurorCadence(g, acts, LOSER)
  }

  lemma {:induction false} TendedAppend(g: Aging, first: seq<AgingAction>, rest: seq<AgingAction>)
    requires AllTended(g, first) && AllTended(AgingRun(g, first), rest)
    ensures AllTended(g, first + rest) && AgingRun(g, first + rest) == AgingRun(AgingRun(g, first), rest)
    decreases |first|
  {
    hide AgingStep, KeptUp, KeptJuror;
    if first == [] {
      assert first + rest == rest;
    } else {
      TendedAppend(AgingStep(g, first[0]), first[1..], rest);
      assert (first + rest)[0] == first[0] && (first + rest)[1..] == first[1..] + rest;
    }
  }

  lemma OneTended(g: Aging, a: AgingAction, c: int)
    requires KeptSince(g, c) && KeptSince(AgingStep(g, a), c)
    requires Now(g) <= c + LIFETIME_THRESHOLD + 1 && Now(AgingStep(g, a)) <= c + LIFETIME_THRESHOLD + 1
    ensures AllTended(g, [a]) && AgingRun(g, [a]) == AgingStep(g, a)
  {
    hide AgingStep;
    var g' := AgingStep(g, a);
    assert [a][1..] == [];
    assert Cadence(g', [], 1) && JurorCadence(g', [], WINNER) && JurorCadence(g', [], LOSER);
  }

  lemma Advanced(g: Aging, c: int, s: u32)
    requires KeptSince(g, c) && Now(g) <= s <= c + LIFETIME_THRESHOLD + 1
    ensures
      var g' := AgingStep(g, Call(DoAdvance(s)));
      g'.w == g.w.(env := g.w.env.(sequence := s)) && KeptSince(g', c) && g'.minTtl == g.minTtl
    ensures AllTended(g, [Call(DoAdvance(s))])
    ensures AgingRun(g, [Call(DoAdvance(s))]) == AgingStep(g, Call(DoAdvance(s)))
  {
    OneTended(g, Call(DoAdvance(s)), c);
  }

  lemma Kept(g: Aging)
    requires 1 in g.w.tf.escrows && WINNER in g.w.tf.stakes && LOSER in g.w.tf.stakes
    ensures
      var e := AgingStep(g, KeepEscrow(1));
      && e.w == g.w && e.called == g.called[1 := Now(g)] && e.tended == g.tended && e.minTtl == g.minTtl
    ensures forall j :: j in {WINNER, LOSER} ==>
              var e := AgingStep(g, KeepJuror(j));
              && e.w == g.w && e.called == g.called && e.tended == g.tended[j := Now(g)] && e.minTtl == g.minTtl
  {
    hide Usable, KeeperKeys, JurorKeys, ExtendAll;
  }

  function Keeping(): seq<AgingAction>
  {
    [KeepEscrow(1)] + ([KeepJuror(WINNER)] + [KeepJuror(LOSER)])
  }

  lemma AllKept(g: Aging, c: int) returns (h: Aging)
    requires KeptSince(g, c) && c <= Now(g) <= c + LIFETIME_THRESHOLD + 1
    ensures h == AgingRun(g, Keeping()) && h.w == g.w && h.minTtl == g.minTtl
    ensures KeptSince(h, Now(g)) && AllTended(g, Keeping())
  {
    hide AgingRun, AllTended, AgingStep;
    Kept(g);
    var g2 := AgingStep(g, KeepEscrow(1));
    Kept(g2);
    var g3 := AgingStep(g2, KeepJuror(WINNER));
    Kept(g3);
    h := AgingStep(g3, KeepJuror(LOSER));
    OneTended(g, KeepEscrow(1), c);
    OneTended(g2, KeepJuror(WINNER), c);
    OneTended(g3, KeepJuror(LOSER), c);
    TendedAppend(g2, [KeepJuror(WINNER)], [KeepJuror(LOSER)]);
    TendedAppend(g, [KeepEscrow(1)], [KeepJuror(WINNER)] + [KeepJuror(LOSER)]);
  }

  lemma OneRound(g: Aging, c: int, s: u32) returns (h: Aging)
    requires KeptSince(g, c) && Now(g) <= s <= c + LIFETIME_THRESHOLD + 1 && c <= s
    ensures h == AgingRun(g, Round(s)) && h.w == g.w.(env := g.w.env.(sequence := s)) && h.minTtl == g.minTtl
    ensures KeptSince(h, s) && AllTended(g, Round(s))
  {
    hide AgingRun, AllTended, AgingStep, KeptSince;
    Advanced(g, c, s);
    h := AllKept(AgingStep(g, Call(DoAdvance(s))), c);
    TendedAppend(g, [Call(DoAdvance(s))], Keeping());
    assert [Call(DoAdvance(s))] + Keeping() == Round(s);
  }

  // ---- The run ----

  /** The whole dispute, then three rounds of keeper calls at most one ledger more than the threshold
      apart, then the clock moves to `last`. */
  function Waiting(env: Env, stake: Stakeable, last: u32): seq<AgingAction>
  {
    Calls(Whole(env, stake))
    + (Round(518_401) + (Round(1_036_802) + (Round(1_555_203) + [Call(DoAdvance(last))])))
  }

  /** The world after the dispute, and who tended it so far. */
  lemma Disputed(sha256: seq<u8> -> Bytes32, bps: Rate, stake: Stakeable, minTtl: nat) returns (h: Aging)
    requires minTtl <= LIFETIME_THRESHOLD
    ensures
      var g := Young(sha256, bps, stake, minTtl);
      && Initial(g.w) && h == AgingRun(g, Calls(Whole(g.w.env, stake))) && AllTended(g, Calls(Whole(g.w.env, stake)))
    ensures Ready(h.w, stake) && h.w.env.sequence == 34_560 && KeptSince(h, 0)
    ensures VoteRevealed(1, WINNER, true, Salt(), 17_280) in h.w.log
  {
    hide AgingRun, Run, Initial, Ready, Cadence, JurorCadence, Whole, WorldOk;
    var g := Young(sha256, bps, stake, minTtl);
    var w := WholeRun(sha256, bps, stake);
    InitialOk(g.w);
    YoungStart(sha256, bps, stake, minTtl);
    YoungRun(g, Whole(g.w.env, stake), 1, WINNER);
    YoungRun(g, Whole(g.w.env, stake), 1, LOSER);
    h := AgingRun(g, Calls(Whole(g.w.env, stake)));
    ReadyKept(h, stake);
  }

  lemma YoungStart(sha256: seq<u8> -> Bytes32, bps: Rate, stake: Stakeable, minTtl: nat)
    ensures AllYoung(Young(sha256, bps, stake, minTtl)) && BallotsRecorded(Young(sha256, bps, stake, minTtl))
  {
  }

  lemma ReadyKept(h: Aging, stake: Stakeable)
    requires AllYoung(h) && Ready(h.w, stake)
    ensures KeptSince(h, 0)
  {
    hide Exists;
  }

  lemma StaysReady(w: World, stake: Stakeable, s: u32)
    requires Ready(w, stake) && w.env.sequence <= s
    ensures Ready(w.(env := w.env.(sequence := s)), stake)
  {
  }

  /** In that run escrow and jurors are tended in time throughout, and the resolution passes all its
      checks; it goes through up to the ledger at which the ballots expire, and is lost after it. */
  lemma ResolutionLost(sha256: seq<u8> -> Bytes32, bps: Rate, stake: Stakeable, minTtl: nat, last: u32)
    requires minTtl <= LIFETIME_THRESHOLD
    requires 1_555_203 <= last <= 1_555_203 + LIFETIME_THRESHOLD + 1
    ensures
      var g := Young(sha256, bps, stake, minTtl);
      var acts := Waiting(g.w.env, stake, last);
      var h, a := AgingRun(g, acts), DoResolveDispute(1);
      && Initial(g.w) && AllTended(g, acts) && Now(h) == last && ResolveDispute(h.w, 1).Ok?
      && (AgingStep(h, Call(a)).w == Step(h.w, a) <==> last <= 17_280 + BUMP_AMOUNT)
  {
    hide AgingRun, Initial, ResolveDispute, Ready, Whole, Calls, Round, AllTended, AgingStep, Step;
    var g := Young(sha256, bps, stake, minTtl);
    var h := Waited(sha256, bps, stake, minTtl, last);
    YoungStart(sha256, bps, stake, minTtl);
    TieResolved(h.w, stake);
    var acts := Waiting(g.w.env, stake, last);
    assert Cadence(g, acts, 1) && JurorCadence(g, acts, WINNER) && JurorCadence(g, acts, LOSER) by {
      TendedParts(g, acts);
    }
    TwoVoters(h.w, stake);
    ResolutionArchivesExactly(g, acts, 1);
    InitialOk(g.w);
    StartsUnrevealed(g);
    RunKeepsVotes(g, acts);
    ExpiryOfBallots(h, stake);
  }

  lemma TendedParts(g: Aging, acts: seq<AgingAction>)
    requires AllTended(g, acts)
    ensures Cadence(g, acts, 1) && JurorCadence(g, acts, WINNER) && JurorCadence(g, acts, LOSER)
  {
  }

  lemma TwoVoters(w: World, stake: Stakeable)
    requires Ready(w, stake)
    ensures VotersOf(w.tf, 1) == [WINNER, LOSER]
  {
  }

  lemma Waited(sha256: seq<u8> -> Bytes32, bps: Rate, stake: Stakeable, minTtl: nat, last: u32) returns (h: Aging)
    requires minTtl <= LIFETIME_THRESHOLD
    requires 1_555_203 <= last <= 1_555_203 + LIFETIME_THRESHOLD + 1
    ensures
      var g := Young(sha256, bps, stake, minTtl);
      var acts := Waiting(g.w.env, stake, last);
      Initial(g.w) && h == AgingRun(g, acts) && AllTended(g, acts)
    ensures Ready(h.w, stake) && Now(h) == last && h.minTtl == minTtl
    ensures VoteRevealed(1, WINNER, true, Salt(), 17_280) in h.w.log
  {
    hide AgingRun, AgingStep, Initial, Ready, Whole, Calls, Round, AllTended;
    var g := Young(sha256, bps, stake, minTtl);
    var h0 := Disputed(sha256, bps, stake, minTtl);
    var h1 := OneRound(h0, 0, 518_401);
    var h2 := OneRound(h1, 518_401, 1_036_802);
    var h3 := OneRound(h2, 1_036_802, 1_555_203);
    Advanced(h3, 1_555_203, last);
    var end := [Call(DoAdvance(last))];
    h := AgingRun(h3, end);
    TendedAppend(h2, Round(1_555_203), end);
    TendedAppend(h1, Round(1_036_802), Round(1_555_203) + end);
    TendedAppend(h0, Round(518_401), Round(1_036_802) + (Round(1_555_203) + end));
    TendedAppend(g, Calls(Whole(g.w.env, stake)), Round(518_401) + (Round(1_036_802) + (Round(1_555_203) + end)));
    StaysReady(h0.w, stake, last);
    MinimumKept(g, Calls(Whole(g.w.env, stake)));
  }

  lemma {:induction false} MinimumKept(g: Aging, acts: seq<AgingAction>)
    ensures AgingRun(g, acts).minTtl == g.minTtl
    decreases |acts|
  {
    hide AgingStep;
    if acts != [] {
      SameMinimum(g, acts[0]);
      MinimumKept(AgingStep(g, acts[0]), acts[1..]);
    }
  }

  /** All reveals came when the commit window closed or later. */
  lemma RevealsAfterCommits(w: World, x: Event)
    requires WorldOk(w) && 1 in w.tf.disputes && w.tf.disputes[1] == OPEN_DISPUTE
    requires x in w.log && x.VoteRevealed? && x.id == 1
    ensures x.at >= 17_280
  {
    hide FundsOk, AccountsOk, BallotsOk, Margin;
    assert EventOk(w, x);
  }

  lemma ExpiryOfBallots(h: Aging, stake: Stakeable)
    requires WorldOk(h.w) && Ready(h.w, stake) && h.minTtl <= LIFETIME_THRESHOLD
    requires VoteRevealed(1, WINNER, true, Salt(), 17_280) in h.w.log
    ensures BallotsLive(h, 1) <==> Now(h) <= 17_280 + BUMP_AMOUNT
  {
    hide WorldOk, TieVoted;
    var first := VoteRevealed(1, WINNER, true, Salt(), 17_280);
    assert first.VoteRevealed? && first.id == 1 && first in h.w.log;
    forall x | x in h.w.log && x.VoteRevealed? && x.id == 1 ensures x.at >= 17_280 {
      RevealsAfterCommits(h.w, x);
    }
  }
}
