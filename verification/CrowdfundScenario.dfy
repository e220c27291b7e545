/** A campaign that expires with a donor to refund, and is then made successful by a plain transfer. */
module CrowdfundScenario {
  import opened Base
  import opened Sums
  import opened AbundanceToken
  import opened AbundanceProofs
  import opened Crowdfund
  import opened CrowdfundProofs

  const FUND := Address(0)
  const RECIPIENT := Address(1)
  const DONOR := Address(2)
  const PAYER := Address(3)

  function Opening(): Fund
  {
    Fund(FundEnv(FUND, 0, 0), TokenState(map[DONOR := 40, PAYER := 60], map[]), None, [])
  }

  /** Target 100 by time 10; one deposit of 40; the deadline passes. */
  function Expiring(): seq<FundAction>
  {
    [DoInitialize(RECIPIENT, 10, 100), DoDeposit(DONOR, 40), DoTick(1, 10)]
  }

  lemma RunThree(f: Fund, a: FundAction, b: FundAction, c: FundAction)
    ensures Run(f, [a, b, c]) == Step(Step(Step(f, a), b), c)
  {
    hide Step;
    assert [a, b, c][1..] == [b, c] && [b, c][1..] == [c] && [c][1..] == [];
    assert Run(Step(Step(f, a), b), [c]) == Step(Step(Step(f, a), b), c);
    assert Run(Step(f, a), [b, c]) == Run(Step(Step(f, a), b), [c]);
  }

  lemma ExpiringRun() returns (f: Fund)
    ensures f == Run(Opening(), Expiring()) && f.env == FundEnv(FUND, 1, 10)
    ensures f.tok == TokenState(map[DONOR := 0, PAYER := 60, FUND := 40], map[])
    ensures f.campaign == Some(Campaign(RECIPIENT, false, 0, 10, 100, map[DONOR := 40]))
  {
    var f1 := Step(Opening(), DoInitialize(RECIPIENT, 10, 100));
    var f2 := Step(f1, DoDeposit(DONOR, 40));
    assert f2.tok.balances == map[DONOR := 0, PAYER := 60, FUND := 40];
    assert f2.campaign == Some(Campaign(RECIPIENT, false, 0, 10, 100, map[DONOR := 40]));
    f := Step(f2, DoTick(1, 10));
    RunThree(Opening(), DoInitialize(RECIPIENT, 10, 100), DoDeposit(DONOR, 40), DoTick(1, 10));
  }

  lemma SupplyOf(t: TokenState)
    requires t.balances == map[DONOR := 0, PAYER := 60, FUND := 40]
    ensures Supply(t) == 100
  {
    var m: map<Address, int> := map[];
    MapSumUpdate(m, DONOR, 0);
    MapSumUpdate(m[DONOR := 0], PAYER, 60);
    MapSumUpdate(m[DONOR := 0][PAYER := 60], FUND, 40);
    assert t.balances == m[DONOR := 0][PAYER := 60][FUND := 40];
  }

  /** The donor is owed 40 and would be paid; one transfer of 60 later the donor never is. */
  lemma ToppedUpRun(more: seq<FundAction>)
    ensures Initial(Opening())
    ensures
      var f := Run(Opening(), Expiring());
      var f' := Run(Step(f, DoTokenCall(TokenCall.Transfer(PAYER, FUND, 60))), more);
      && In(f, Expired) && Owed(f, DONOR) == 40 && Withdraw(f, DONOR).Ok?
      && In(f', Success) && Withdraw(f', DONOR).Err?
  {
    hide Run, FundOk;
    InitialOk(Opening());
    RunKeeps(Opening(), Expiring());
    var f := ExpiringRun();
    SupplyOf(f.tok);
    assert In(f, Expired);
    OneRefund(f, DONOR);
    TopUpEndsRefunds(f, PAYER, DONOR, more);
  }
}
