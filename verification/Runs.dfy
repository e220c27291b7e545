/** The main results: every run from a freshly initialised contract. */
module Runs {
  import opened Base
  import opened AbundanceToken
  import opened AbundanceProofs
  import opened TrustFlow
  import opened EscrowInvariants
  import opened Solvency
  import opened Conservation
  import opened Ballots
  import opened History

  /** A freshly deployed contract just initialised, over any token state in which it approved nobody. */
  ghost predicate Initial(w: World)
  {
    && TokenInv(w.tok) && GrantsNothing(w.tok, w.env.self)
    && exists anyone, admin, slashBps: u32 ::
         Initialize(World(w.env, w.tok, Deployed(anyone), []), admin, slashBps) == Ok(w)
  }

  ghost predicate WorldOk(w: World)
  {
    && FundsOk(w) && AccountsOk(w) && BallotsOk(w.env.sequence, w.tf) && HistoryOk(w)
    && Margin(w) >= 0
  }

  lemma InitialOk(w: World)
    requires Initial(w)
    ensures WorldOk(w)
  {
    assert LockedMap(w.tf) == map[];
  }

  lemma StepKeepsWorld(w: World, a: Action)
    requires WorldOk(w)
    ensures WorldOk(Step(w, a)) && Keeps(w, Step(w, a)) && Margin(Step(w, a)) >= Margin(w)
  {
    hide FundsOk, AccountsOk, BallotsOk, HistoryOk, Margin, Keeps, Step, EscrowsOk;
    StepKeepsFunds(w, a);
    StepKeepsAccounts(w, a);
    BallotsNeedEscrows(w);
    StepKeepsBallots(w, a);
    StepKeepsHistory(w, a);
  }

  lemma BallotsNeedEscrows(w: World)
    requires FundsOk(w)
    ensures EscrowsOk(w.env.sequence, w.tf)
  {
  }

  lemma {:induction false} RunKeepsWorld(w: World, acts: seq<Action>)
    requires WorldOk(w)
    ensures WorldOk(Run(w, acts)) && Keeps(w, Run(w, acts)) && Margin(Run(w, acts)) >= Margin(w)
    decreases |acts|
  {
    hide WorldOk, Margin, Step, Keeps, Later;
    if acts == [] {
      KeepsItself(w);
    } else {
      var mid := Step(w, acts[0]);
      StepKeepsWorld(w, acts[0]);
      RunKeepsWorld(mid, acts[1..]);
      KeepsTransitive(w, mid, Run(w, acts));
    }
  }

  lemma KeepsItself(w: World)
    ensures Keeps(w, w)
  {
  }

  lemma KeepsTransitive(a: World, b: World, c: World)
    requires Keeps(a, b) && Keeps(b, c)
    ensures Keeps(a, c)
  {
    LaterTransitive(a.tf, b.tf, c.tf);
    hide Later;
    forall k | k in a.tf.commits ensures Bound(c.env, c.tf, k, a.tf.commits[k]) {
      BoundStays(b, c, k, a.tf.commits[k]);
    }
  }

  /** Identifiers are handed out in order. */
  lemma NumbersInOrder(w: World)
    requires WorldOk(w)
    ensures forall id :: id in w.tf.escrows ==> id <= w.tf.escrowCounter
  {
    hide AccountsOk, BallotsOk, HistoryOk, Margin;
  }

  // ---- Solvency ----

  /** Over every run, for any aliasing of beneficiaries, treasuries and the contract: its balance
      covers all stakes, all locked amounts and everything ever slashed. */
  lemma Solvent(w0: World, acts: seq<Action>)
    requires Initial(w0)
    ensures
      var w := Run(w0, acts);
      Balance(w.tok, w.env.self) >= TotalStake(w.tf) + TotalLocked(w.tf) + Total(w.log, SlashedStake)
  {
    hide Initial, WorldOk, TotalStake, TotalLocked;
    InitialOk(w0);
    RunKeepsWorld(w0, acts);
    MarginNonNegative(Run(w0, acts));
  }

  lemma MarginNonNegative(w: World)
    requires WorldOk(w)
    ensures Margin(w) >= 0
  {
  }

  /** In any run the surplus grows by at least the stake slashed in it, and never shrinks. */
  lemma SurplusGrowsBySlashing(w0: World, acts: seq<Action>, more: seq<Action>)
    requires Initial(w0)
    ensures
      var w, w' := Run(w0, acts), Run(Run(w0, acts), more);
      && Surplus(w') - Surplus(w) >= Total(w'.log, SlashedStake) - Total(w.log, SlashedStake) >= 0
  {
    hide Initial, WorldOk, Surplus;
    InitialOk(w0);
    RunKeepsWorld(w0, acts);
    var w := Run(w0, acts);
    RunKeepsWorld(w, more);
    SlashedOnlyGrows(w, Run(w, more));
  }

  lemma SlashedOnlyGrows(w: World, w': World)
    requires Keeps(w, w') && WorldOk(w')
    ensures Total(w'.log, SlashedStake) >= Total(w.log, SlashedStake)
  {
    hide Keeps, HistoryOk;
    assert w.log <= w'.log && EventsOk(w') by { LogOnlyGrows(w, w'); }
    PrefixTotal(w', |w.log|);
    assert w'.log[..|w.log|] == w.log;
  }

  lemma LogOnlyGrows(w: World, w': World)
    requires Keeps(w, w') && HistoryOk(w')
    ensures w.log <= w'.log && EventsOk(w')
  {
  }

  lemma {:induction false} PrefixTotal(w: World, n: nat)
    requires EventsOk(w) && n <= |w.log|
    ensures Total(w.log[..n], SlashedStake) <= Total(w.log, SlashedStake)
    decreases |w.log| - n
  {
    if n == |w.log| {
      assert w.log[..n] == w.log;
    } else {
      assert w.log[..n + 1] == w.log[..n] + [w.log[n]];
      TotalAppend(w.log[..n], w.log[n], SlashedStake);
      assert EventOk(w, w.log[n]);
      PrefixTotal(w, n + 1);
    }
  }
}
