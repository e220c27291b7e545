# TrustFlow: a verified model of the escrow, the token ledger and the crowdfund

This project models three contracts that share one token ledger and proves what they keep over whole runs:

- `trustflow`: milestone escrows with partial releases and a fee split, disputes decided by commit-reveal
  voting among staked jurors, and slashing of the losing jurors;
- `abundance`: the token ledger below it, with balances and expiring allowances;
- `crowdfund`: a second client of that ledger, whose phase is derived from the clock, its balance and a flag.

`dafny verify dfyconfig.toml` checks everything.

## How it is organised

| files | role |
|---|---|
| `Base`, `Sums`, `FeeMath` | machine integers and checked operations; sums over maps and sequences; fee and slash arithmetic |
| `AbundanceToken`, `TrustFlow`, `Crowdfund` | every entry point as a function from state to state or error, and the contract objects of the token |
| `TrustFlowContract`, `CrowdfundContract` | the contracts as classes whose methods update their fields in the order of the source, loops included; each method is proved equal to the function of the same name |
| `AbundanceProofs` | the ledger over every run |
| `TokenCalls`, `EntryPoints`, `CrowdfundEntryPoints` | entry point by entry point: which error is reported when, when the call succeeds, and everything it changes |
| `EscrowInvariants`, `Solvency`, `Conservation`, `Ballots`, `History` | the five parts of the escrow contract's invariant, each kept by every step |
| `Runs`, `Guarantees`, `Payments`, `Liveness`, `Compounding` | the theorems about runs |
| `Fragmentation`, `Interleaving` | how tranches are split, ordered and spread over a run does not matter |
| `Keeper`, `KeeperVotes` | storage lifetimes: what a keeper who calls in time guarantees |
| `CrowdfundProofs` | the crowdfund over every run |
| `Scenario`, `KeeperScenario`, `ResolutionScenario`, `CrowdfundScenario` | concrete runs: a dispute resolved in full, and one run for each promise that fails |

A *step* of the escrow world is one entry-point call, one token call authorised by anybody but the contract, or
an advance of the ledger clock. A step that fails changes nothing. `Host.Execute` is where that is proved of the
objects: the entry points really write before they may fail (a release books before it pays, a resolution slashes
before it settles) and the host puts back what a failed call wrote. Every theorem about runs quantifies over all
finite sequences of steps from any token state in which the contract has approved nobody.

Choices a reader should know:

- **Aliasing is kept.** Beneficiary, treasury, depositor, jurors and the contract's own address may coincide
  wherever the contract allows it. An address that must authorise a call is never the contract itself, which
  signs nothing but its own transfers.
- **Integers** are the widths of the source (`i128`, `u128`, `u64`, `u32`), with its checked, saturating,
  truncating and wrapping operations written out. Overflow of plain operators is an error (`Trap`), as the
  release profile asks (`Cargo.toml:9`).
- **SHA-256** is an arbitrary function from byte strings to 32 bytes. It is not assumed injective, which no
  function from 33 to 32 bytes is. The 33-byte layout is proved injective, and where injectivity would be used the
  theorem exhibits two different preimages with one digest instead.
- **`initialize`** is documented to be called once (`contracts/trustflow/src/lib.rs:531`) but has no guard. The
  runs start right after one call and contain no other. `SecondInitialize` shows why: a second call resets the
  escrow counter, and the next escrow overwrites the first.
- **The history** `log` is the published events with the arguments and the clock of their transaction; the
  contract's transfers in a resolution and the crowdfund's transfers in and out, which publish no event of their
  own, are recorded as `DisputePaid`, `PaidIn` and `PaidOut`.

## What the code does not give

Each of these is a theorem with its exact condition, and comes with a concrete run or input that fails.

- A slash of 100% leaves nothing if and only if `stake * 10000` fits in 128 unsigned bits or the stake is a
  multiple of 10000 (`FullSlashLeavesNothing`). `FullSlashLeavesRemainder`: a juror with a stake of 10^35 + 1 loses
  a vote at 100% and keeps 1.
- A dispute in which nobody revealed can never be resolved, and its funds stay locked in every continuation
  (`UnvotedDisputeIsStuck`); `ResolveExact` gives the converse. `UnvotedRun` reaches one. Near the end of the clock
  the saturating deadlines leave no reveal window at all (`RevealWindowOpens`; `NoRevealAtTheEnd`).
- `bump_escrow_ttl` documents its result as the ledger up to which storage is now guaranteed to live
  (lines 1525-1526), while the event's own comment says the expiry may differ (lines 285-288). After a call storage
  lives until the returned ledger if and only if every entry was due for a rewrite or lived that long already
  (`ReturnedLedgerGuaranteed`). `KeeperCallOverstates`: an escrow created at ledger 0 and bumped at ledger 1 expires
  one ledger before the returned one. The same holds of `bump_juror_stake_ttl` (lines 800-802;
  `JurorLedgerGuaranteed`, `JurorCallOverstates`). What is always guaranteed is one ledger more than the threshold
  (`GuaranteedLifetime`).
- A keeper who calls in time keeps an escrow and its jurors usable, but not a dispute resolvable. No call extends
  a vote after its reveal, so with everything tended a resolution that passes its checks goes through if and only
  if it comes within a ballot's life of every reveal: the full bump, when the host gives new entries at most the
  threshold (`ResolutionArchivesExactly`). `ResolutionLost`: a dispute tended throughout whose resolution goes
  through up to ledger 17280 plus the bump, and is lost from the next ledger on.
- An expired campaign is final only while nobody sends the crowdfund tokens: a plain transfer of the shortfall
  makes it successful and ends all refunds for good (`StepFromExpired`, `TopUpEndsRefunds`; `ToppedUpRun`).
- The plain fee form overflows where the quotient form does not (`CumulativeFeeRefinesComputeFee`;
  `PlainFormOverflows`).

## Model

| member | source | states |
|---|---|---|
| `FeeMath.CumulativeFeeIsTruncatedProduct` | contracts/trustflow/src/lib.rs:141-160 | For every i128 amount, negative ones included, and every u32 rate, the form that never builds the product succeeds exactly when the exact fee, rounded toward zero, is an i128, and returns it |
| `FeeMath.CumulativeFeeTotal` | contracts/trustflow/src/lib.rs:128-160 | On amounts from 0 and rates up to 100% the fee never fails, is the floor of amount times rate over 10000, and is at most the amount |
| `FeeMath.FloorFeeGrowth` | contracts/trustflow/src/lib.rs:136-140 | The cumulative fee is monotone and grows no faster than the amount, so a tranche's fee is between 0 and the tranche |
| `FeeMath.CumulativeFeeRefinesComputeFee` | contracts/src/fee.rs:15-26 | Wherever the multiply-then-divide form succeeds the two agree and fee plus payout is the amount; on non-negative amounts it fails exactly when the product overflows, where the quotient form still succeeds |
| `FeeMath.PlainFormOverflows` | contracts/src/fee.rs:15-26 | On the largest i128 at the default rate the plain form reports an overflow and the quotient form returns the fee |
| `FeeMath.SlashAmountTiers` | contracts/trustflow/src/lib.rs:1414-1440 | The slash lies in [0, stake]; it is the exact floor while the product fits 128 unsigned bits and otherwise below the floor by less than the rate; no saturation or fallback shows |
| `FeeMath.FullSlashLeavesNothing` | contracts/trustflow/src/lib.rs:1414-1440 | A 100% slash takes the whole stake if and only if the product fits 128 unsigned bits or the stake is a multiple of 10000 |
| `FeeMath.SlashStep` | contracts/trustflow/src/lib.rs:1402-1442 | One slash leaves at least the real-valued share and, in the exact tiers, less than one unit more |
| `FeeMath.CompoundedSlash` | contracts/trustflow/src/lib.rs:2189-2195 | After n slashes the stake times 10000^n is at least the initial stake times (10000-b)^n, and exceeds it by at most n*10000^n while the first product fits 128 unsigned bits |
| `AbundanceToken.Token.constructor` | contracts/abundance/src/contract.rs:24-40 | A new ledger has no balance and no allowance |
| `AbundanceToken.Token.ReadBalance` | contracts/abundance/src/balance.rs:4-14 | Reading a balance that was never written gives 0 |
| `AbundanceToken.Token.Receive` | contracts/abundance/src/balance.rs:24-27 | Adds to one balance or fails on overflow with the ledger unchanged |
| `AbundanceToken.Token.Spend` | contracts/abundance/src/balance.rs:29-35 | Subtracts from one balance or fails when it does not cover the amount, with the ledger unchanged |
| `AbundanceToken.Token.WriteAllowanceEntry` | contracts/abundance/src/allowance.rs:23-49 | Overwrites one allowance, refusing a positive amount that has expired already |
| `AbundanceToken.Token.SpendAllowanceEntry` | contracts/abundance/src/allowance.rs:51-63 | Draws on the unexpired allowance, or fails with the ledger unchanged |
| `AbundanceToken.Token.Mint` | contracts/abundance/src/contract.rs:50-60 | Refuses a negative amount, otherwise credits the receiver |
| `AbundanceToken.Token.Approve` | contracts/abundance/src/contract.rs:84-97 | Refuses a negative amount, otherwise replaces the allowance |
| `AbundanceToken.Token.Transfer` | contracts/abundance/src/contract.rs:113-125 | Debit then credit; a failure in either leaves the ledger as it was |
| `AbundanceToken.Token.TransferFrom` | contracts/abundance/src/contract.rs:127-140 | Allowance, debit and credit in that order; a failure in any leaves the ledger as it was |
| `AbundanceToken.Token.Burn` | contracts/abundance/src/contract.rs:142-153 | Debits one balance or leaves the ledger as it was |
| `AbundanceToken.Token.BurnFrom` | contracts/abundance/src/contract.rs:155-167 | Allowance then debit; a failure in either leaves the ledger as it was |
| `AbundanceProofs.MoveEffect` | contracts/abundance/src/contract.rs:113-125 | A transfer succeeds if and only if the amount is non-negative, the sender covers it and the receiver does not overflow; it changes exactly the two balances, self-transfers included, and keeps the supply |
| `AbundanceProofs.AffordableMoveSucceeds` | contracts/abundance/src/balance.rs:24-35 | With the supply within i128 every transfer the sender covers succeeds |
| `AbundanceProofs.SpendAllowanceExact` | contracts/abundance/src/allowance.rs:51-63 | Spending succeeds if and only if the unexpired allowance covers the amount: the expiry panic of the write is never reached; after expiry only zero can be spent; no other allowance changes |
| `AbundanceProofs.InvokeKeeps` | contracts/abundance/src/contract.rs:50-167 | Every call keeps balances and allowances non-negative and changes the supply by exactly what it mints or burns |
| `AbundanceProofs.ForeignCall` | contracts/abundance/src/contract.rs:113-167 | A call that an address did not authorise never lowers its balance if it approved nobody |
| `AbundanceProofs.SupplyIsIssued` | contracts/abundance/src/contract.rs:50-167 | Over every run the sum of balances is the initial one plus minted minus burned |
| `AbundanceProofs.AllowanceAccounting` | contracts/abundance/src/allowance.rs:4-63 | Over every run without a new approval, remaining plus drawn is what was approved while unexpired; afterwards nothing is left and no more than approved was drawn |
| `TokenCalls.MintEffect` | contracts/abundance/src/contract.rs:50-60 | Succeeds if and only if the amount is non-negative and the receiver does not overflow; credits the receiver and changes nothing else |
| `TokenCalls.ApproveEffect` | contracts/abundance/src/contract.rs:84-97 | Succeeds if and only if the amount is 0, or positive and not expired; leaves exactly the named allowance until the named ledger, and no other change |
| `TokenCalls.TransferEffect` | contracts/abundance/src/contract.rs:113-125 | The exact success condition; exactly the two balances move |
| `TokenCalls.TransferFromEffect` | contracts/abundance/src/contract.rs:127-140 | Succeeds if and only if the unexpired allowance and the owner's balance cover a non-negative amount and the receiver does not overflow; debits the owner, credits the receiver, and draws on that one allowance |
| `TokenCalls.BurnEffect` | contracts/abundance/src/contract.rs:142-153 | The exact success condition; exactly the holder is debited |
| `TokenCalls.BurnFromEffect` | contracts/abundance/src/contract.rs:155-167 | The exact success condition; exactly the owner is debited and that one allowance drawn on |
| `TokenCalls.OnlyAuthorised` | contracts/abundance/src/contract.rs:50-167 | No balance falls without its owner's signature or an allowance to the signer that pays for it in full, no allowance rises without the owner's signature or is drawn on without the spender's, and only the receiver mints |
| `EscrowInvariants.MilestoneTotalExact` | contracts/trustflow/src/lib.rs:888-900 | The validation loop accepts exactly the lists of positive amounts whose sum is an i128, and returns the sum |
| `EscrowInvariants.PriceTrancheChecks` | contracts/trustflow/src/lib.rs:951-1034 | What a passed validation guarantees, and the price as a difference of cumulative fees with fee plus payout equal to the tranche |
| `EscrowInvariants.TrancheFits` | contracts/trustflow/src/lib.rs:1012-1020 | After the milestone check the escrow-level over-release check cannot fail, and the escrow total is reached exactly when every milestone counter reaches its amount |
| `EscrowInvariants.ReleaseDid` | contracts/trustflow/src/lib.rs:1036-1097 | A successful release booked the tranche, paid beneficiary then treasury, and reported exactly that |
| `EscrowInvariants.ResolveDid` | contracts/trustflow/src/lib.rs:1334-1514 | A successful resolution slashed, recorded the ruling, settled the escrow and paid the whole remainder to the winning party |
| `EscrowInvariants.StepKeepsEscrows` | contracts/trustflow/src/lib.rs:717-1514 | Every step keeps, for every escrow: counters within milestone amounts and summing to the released total, amounts summing to the escrow amount, status in agreement with the dispute record, and no stray records |
| `Solvency.TranchePrices` | contracts/trustflow/src/lib.rs:1022-1034 | A tranche's fee is the difference of two exact floors, between 0 and the tranche, and the payout is the rest |
| `Solvency.ReleaseMargin` | contracts/trustflow/src/lib.rs:1036-1097 | A release never lowers the holdings above what is owed, whoever beneficiary and treasury are |
| `Solvency.ResolveMargin` | contracts/trustflow/src/lib.rs:1385-1513 | A resolution moves stake into the slashed total unit by unit and never lowers the margin |
| `Solvency.StepKeepsFunds` | contracts/trustflow/src/lib.rs:717-1514 | Every step keeps the books, and the surplus over all debts never falls and grows by at least what the step slashed |
| `Runs.StepKeepsWorld` | contracts/trustflow/src/lib.rs:525-1577 | The whole invariant of funds, accounts, ballots and history is kept by every step |
| `Runs.RunKeepsWorld` | contracts/trustflow/src/lib.rs:525-1577 | The whole invariant is kept by every run, and terms, votes, deadlines and history only grow along it |
| `Runs.Solvent` | contracts/trustflow/src/lib.rs:717-1514 | In every run from initialization the contract's balance is at least all stakes plus every unsettled escrow's remainder plus everything ever slashed |
| `Runs.SurplusGrowsBySlashing` | contracts/trustflow/src/lib.rs:1385-1467 | Between any two points of a run the surplus grows by at least the stake slashed between them |
| `Guarantees.LifetimeConservation` | contracts/trustflow/src/lib.rs:1012-1076 | Every escrow's amount is what history paid to its beneficiary, its treasury and a dispute's winner plus what is still locked; each such payment names the recorded beneficiary, the snapshot treasury or the winning party; the fees are the cumulative fee of the released total |
| `Payments.EventsAreTransfers` | contracts/trustflow/src/lib.rs:717-1514 | Every successful call on the contract, in any run, changes the balance of every address by exactly what the events it adds report (and an escrow created without milestones, which publishes nothing, by its amount) |
| `Guarantees.TermsFixedAtCreation` | contracts/trustflow/src/lib.rs:162-179 | A creation uses an identifier never used before and stores the parties, the amount and milestones asked for (the amount being their sum) and the fee terms then in force; no later step, setters included, changes them |
| `Guarantees.Lifecycle` | contracts/trustflow/src/lib.rs:984-1057 | In every run: disputed if and only if an unresolved dispute exists; a resolved one means settled; settled without a dispute if and only if all is released; every release lies within its milestone, which is approved and unlocked |
| `Guarantees.StatusOnlyForward` | contracts/trustflow/src/lib.rs:1041-1045 | Between any two points of a run status moves only from active to disputed to settled, or to settled, and the released total only rises |
| `Guarantees.ReleaseSettlesWhenComplete` | contracts/trustflow/src/lib.rs:1036-1057 | A release settles the escrow if and only if it leaves every milestone fully released |
| `Guarantees.PhaseOrder` | contracts/trustflow/src/lib.rs:1136-1152 | In any history, of a resolved or a still open dispute, every commitment is strictly before every reveal, and every reveal strictly before the resolution, saturating deadlines included |
| `Guarantees.NoVoteWhileCommitting` | contracts/trustflow/src/lib.rs:1202-1214 | While a commitment can still be accepted the dispute has an empty voter list and no recorded vote |
| `Guarantees.VoteBinding` | contracts/trustflow/src/lib.rs:1265-1312 | Voter lists have no duplicates and list exactly the recorded votes; each vote opens the one commitment its juror made with positive stake before the deadline; nobody holds both; no juror commits, reveals or is slashed twice in a dispute |
| `Guarantees.VoteNotReopenable` | contracts/trustflow/src/lib.rs:1284-1301 | Opening a voter's commitment to the other bit would exhibit two 33-byte preimages with one SHA-256 digest |
| `Guarantees.RevealWindowOpens` | contracts/trustflow/src/lib.rs:1136-1152 | A dispute takes a reveal at some ledger if and only if it was raised more than one commit window before the end of the clock |
| `Guarantees.RulingFixed` | contracts/trustflow/src/lib.rs:1346-1383 | After the reveal deadline votes are frozen and the recorded ruling is their majority, whenever and by whomever the dispute is resolved |
| `Guarantees.UnvotedDisputeIsStuck` | contracts/trustflow/src/lib.rs:1346-1357 | Without a vote at the reveal deadline no continuation ever resolves the dispute or releases from its escrow |
| `Guarantees.ResolutionSpec` | contracts/trustflow/src/lib.rs:1334-1514 | The ruling is true if and only if depositor votes are at least half; exactly the losers are slashed, once each, the smaller of the two counts; winners, non-voters, other disputes and all ballots are untouched; total stake falls by what was slashed; the positive remainder is transferred to the winning party |
| `Ballots.PreimageInjective` | contracts/trustflow/src/lib.rs:61-77 | The vote byte followed by 32 salt bytes is 33 bytes long and determines vote and salt |
| `Ballots.TwoOpeningsCollide` | contracts/trustflow/src/lib.rs:72-77 | Two different openings of one commitment are a collision of the hash |
| `Ballots.TallyIsCardinality` | contracts/trustflow/src/lib.rs:1359-1377 | The counting loop returns the number of distinct jurors on a side |
| `Ballots.RulingIsMajority` | contracts/trustflow/src/lib.rs:1379-1383 | The ruling holds if and only if twice the depositor's voters is at least all voters |
| `Ballots.SlashLosersExact` | contracts/trustflow/src/lib.rs:1385-1467 | The loop slashes every losing voter once, from the stake before the resolution, with its counter up by one, and touches nobody else |
| `Ballots.SlashLosersSucceeds` | contracts/trustflow/src/lib.rs:1385-1467 | The loop succeeds if and only if no losing voter's slash counter is at its maximum |
| `Ballots.ResolutionIgnoresOrder` | contracts/trustflow/src/lib.rs:1359-1467 | Any two orders of the same voters give the same ruling, stakes and slash counters |
| `Ballots.StepKeepsBallots` | contracts/trustflow/src/lib.rs:1105-1514 | Every step keeps lists, votes, commitments, phases and rulings in agreement |
| `History.StepKeepsHistory` | contracts/trustflow/src/lib.rs:1105-1514 | Every step keeps each past event true, at most one event of a kind per juror and dispute, and a past event behind every stored commitment and vote |
| `Conservation.StepKeepsAccounts` | contracts/trustflow/src/lib.rs:831-1514 | Every step keeps the account of every escrow against the history, and never rewrites terms, fee terms, deadlines or rulings |
| `Liveness.UnstakeExact` | contracts/trustflow/src/lib.rs:748-775 | In a reachable unpaused state with the supply within i128 a juror withdraws exactly the amounts from 0 to the recorded stake |
| `Liveness.ReleaseExact` | contracts/trustflow/src/lib.rs:951-1097 | In such a state a release succeeds if and only if the depositor's own checks pass; no counter, missing record, fee or transfer stops it |
| `Liveness.ResolveExact` | contracts/trustflow/src/lib.rs:1334-1514 | In such a state a resolution succeeds if and only if the dispute is open past its reveal deadline with at least one vote and no losing voter's slash counter is at its maximum |
| `EntryPoints.InitializeExact` | contracts/trustflow/src/lib.rs:533-549 | When initialization succeeds and the settings it leaves |
| `EntryPoints.AdminExact` | contracts/trustflow/src/lib.rs:553-702 | Each administrative call: who is refused and with which error, and the one setting it changes |
| `EntryPoints.SettingsStay` | contracts/trustflow/src/lib.rs:717-1577 | No other call changes a setting |
| `EntryPoints.StakeExact` | contracts/trustflow/src/lib.rs:717-745 | The error or success of a stake from the pause flag, the amount and the juror's balance; exactly the juror's stake rises and the tokens move with it |
| `EntryPoints.UnstakeAnswers` | contracts/trustflow/src/lib.rs:748-775 | The error or success of a withdrawal from the pause flag, the amount and the stake; exactly the juror's stake falls and the tokens move with it |
| `EntryPoints.CreateExact` | contracts/trustflow/src/lib.rs:831-875 | The error or success of a creation; one fresh escrow, the tokens moved, nothing else changed |
| `EntryPoints.ListErrors` | contracts/trustflow/src/lib.rs:888-900 | A milestone list is refused if and only if it is not all positive with a sum in i128, with the error of the first milestone that makes it so |
| `EntryPoints.InitExact` | contracts/trustflow/src/lib.rs:878-945 | Every non-empty acceptable list that the depositor covers is taken and its sum locked; every other call is refused with the error stated |
| `EntryPoints.ReleaseAnswers` | contracts/trustflow/src/lib.rs:951-1034 | The error or success of a release from conditions its caller can check, in order |
| `EntryPoints.RaiseExact` | contracts/trustflow/src/lib.rs:1105-1155 | Only the depositor or the beneficiary of an active escrow raises a dispute; the escrow is frozen, the caller recorded, and the two windows are a day each unless the clock ends |
| `EntryPoints.DisputesRaisedByParties` | contracts/trustflow/src/lib.rs:1121-1152 | In every run every dispute was raised by a party of its escrow |
| `EntryPoints.CommitExact` | contracts/trustflow/src/lib.rs:1174-1224 | The error or success of a commitment, and all it writes |
| `EntryPoints.RevealExact` | contracts/trustflow/src/lib.rs:1245-1324 | Every ledger from the commit deadline to before the reveal deadline takes an opening whose vote byte and salt hash to the commitment on file; the errors in order, and all it writes |
| `EntryPoints.ResolveAnswers` | contracts/trustflow/src/lib.rs:1334-1513 | The error or success of a resolution from phase, votes and the losing voters' slash counters |
| `EntryPoints.SlashReports` | contracts/trustflow/src/lib.rs:1385-1467 | Each slashing event reports its juror's stake taken, stake left and new counter |
| `EntryPoints.OutsideExact` | contracts/abundance/src/contract.rs:50-167 | A token call by anybody else changes the ledger only, and needs its signer not to be the contract; the clock only moves forward |
| `Compounding.StakeAfterRun` | contracts/trustflow/src/lib.rs:1402-1467 | In a run without the juror's own stake changes, the stake is the initial one slashed as often as the slash counter rose |
| `Compounding.CompoundedOverRuns` | contracts/trustflow/src/lib.rs:2189-2195 | The compounded bounds hold between any two points of a run |
| `Fragmentation.ReleasesEffect` | contracts/trustflow/src/lib.rs:999-1076 | Storage and balances after any successful sequence of tranches, described by the per-milestone totals alone |
| `Fragmentation.OrderAndSplitIrrelevant` | contracts/trustflow/src/lib.rs:136-160 | Two successful sequences of tranches, spread over any ledgers, with equal per-milestone totals end in the same storage, approvals and status, allowances and balances of every address |
| `Interleaving.RunProgress` | contracts/trustflow/src/lib.rs:999-1057 | Between any two points of a run each milestone counter rises by what the history released on it, and a milestone is approved if it was or something was released |
| `Interleaving.InterleavingIrrelevant` | contracts/trustflow/src/lib.rs:136-160 | Any two runs from one reachable state, with anything else in between, that released the same totals per milestone and left the same dispute record agree on the escrow's record, counters and status and on all that was paid for it |
| `Scenario.FullRun` | contracts/trustflow/src/lib.rs:717-1514 | For any hash function, slash rate and stake of the losing juror, a run from initialization stakes, funds, releases, disputes, commits, reveals and resolves: a tie goes to the depositor, one juror is slashed, and every balance is accounted for |
| `Scenario.FullSlashLeavesRemainder` | contracts/trustflow/src/lib.rs:1414-1440 | In that run with a rate of 100% and a stake of 10^35 + 1 the losing juror keeps 1 |
| `Scenario.UnvotedRun` | contracts/trustflow/src/lib.rs:1346-1357 | A run that reaches a dispute past its reveal deadline without a vote; every continuation leaves it disputed and unresolvable |
| `Scenario.NoRevealAtTheEnd` | contracts/trustflow/src/lib.rs:1136-1152 | A run that raises a dispute one commit window before the end of the clock: no ledger takes a reveal |
| `Scenario.SecondInitialize` | contracts/trustflow/src/lib.rs:533-549 | After a second initialization the next escrow replaces a half-released one, starts with more released than its amount, and has payees in its history that are not its own |
| `TrustFlowContract.Contract.constructor` | contracts/trustflow/src/lib.rs:525-549 | Storage is empty before initialization |
| `TrustFlowContract.Contract.Initialize` | contracts/trustflow/src/lib.rs:533-549 | Sets the configuration, or fails on a rate above 100%; computes the specified world |
| `TrustFlowContract.Contract.SetFeeBps` | contracts/trustflow/src/lib.rs:553-565 | Admin only, at most the maximal fee; computes the specified world or error |
| `TrustFlowContract.Contract.SetTreasury` | contracts/trustflow/src/lib.rs:582-595 | Admin only; computes the specified world or error |
| `TrustFlowContract.Contract.SetPauser` | contracts/trustflow/src/lib.rs:605-637 | Admin only; names or revokes the pauser |
| `TrustFlowContract.Contract.Pause` | contracts/trustflow/src/lib.rs:647-674 | Admin or pauser; idempotent |
| `TrustFlowContract.Contract.Unpause` | contracts/trustflow/src/lib.rs:680-702 | Admin only; idempotent |
| `TrustFlowContract.Contract.Stake` | contracts/trustflow/src/lib.rs:717-745 | Moves the tokens and then records the stake; computes the specified world or error |
| `TrustFlowContract.Contract.Unstake` | contracts/trustflow/src/lib.rs:748-775 | Computes the specified world or error, the balance checks in the source's order |
| `TrustFlowContract.Contract.CreateEscrow` | contracts/trustflow/src/lib.rs:831-875 | Returns the new identifier and computes the specified world, or the specified error |
| `TrustFlowContract.Contract.InitEscrow` | contracts/trustflow/src/lib.rs:878-945 | The validation loop with its early exits, then the creation; computes the specified world or error |
| `TrustFlowContract.Contract.PriceTranche` | contracts/trustflow/src/lib.rs:967-1034 | The guards in the source's order and the fee split, read from the fields; computes the specified price or error |
| `TrustFlowContract.Contract.ReleaseMilestoneTranche` | contracts/trustflow/src/lib.rs:951-1097 | Books first and pays afterwards; on success the state is the specified one, on failure the error is |
| `TrustFlowContract.Contract.RaiseDispute` | contracts/trustflow/src/lib.rs:1105-1155 | Computes the specified world or error, deadlines saturating |
| `TrustFlowContract.Contract.CommitVote` | contracts/trustflow/src/lib.rs:1174-1224 | Computes the specified world or error |
| `TrustFlowContract.Contract.RevealVote` | contracts/trustflow/src/lib.rs:1245-1324 | Records the vote, clears the commitment and appends the voter; computes the specified world or error |
| `TrustFlowContract.Contract.CountVotes` | contracts/trustflow/src/lib.rs:1359-1377 | The counting loop returns both tallies |
| `TrustFlowContract.Contract.SlashVoters` | contracts/trustflow/src/lib.rs:1385-1467 | The slashing loop, stopping at the first error, computes the specified stakes, counters and events |
| `TrustFlowContract.Contract.ResolveDispute` | contracts/trustflow/src/lib.rs:1334-1514 | Slashes, rules, settles and pays in the source's order; computes the specified world and ruling, or error |
| `TrustFlowContract.Host.Execute` | contracts/trustflow/src/lib.rs:525-1577 | A transaction on the objects is exactly one step of the specification: complete on success, without trace on failure |
| `Keeper.GuaranteedLifetime` | contracts/trustflow/src/lib.rs:98-125 | A bump guarantees one ledger more than the threshold, and no more than that |
| `Keeper.ReturnedLedgerGuaranteed` | contracts/trustflow/src/lib.rs:1525-1576 | After a successful keeper call every stored entry it extends lives until the returned ledger if and only if every one of them had at most the threshold left or lived that long already, saturation included |
| `Keeper.ReturnedLedgerOverRuns` | contracts/trustflow/src/lib.rs:1518-1576 | In every run tended in time a further keeper call succeeds, guarantees one ledger more than the threshold for everything the escrow has stored, and guarantees the returned ledger if and only if every entry was due or lived that long already |
| `Keeper.JurorLedgerGuaranteed` | contracts/trustflow/src/lib.rs:795-823 | After a successful keeper call on a juror the instance, stake and slash counter live until the returned ledger if and only if each of them had at most the threshold left or lived that long already |
| `KeeperScenario.KeeperCallOverstates` | contracts/trustflow/src/lib.rs:1525-1576 | Create at ledger 0, call at ledger 1: the call returns one ledger more than the expiry of the escrow record |
| `KeeperScenario.JurorCallOverstates` | contracts/trustflow/src/lib.rs:795-823 | Stake at ledger 0, call at ledger 1: the call returns one ledger more than the expiry of the stake |
| `KeeperScenario.LateKeeperLosesEscrow` | contracts/trustflow/src/lib.rs:98-125 | A run with keeper calls never more than two ledgers beyond the threshold apart in which the escrow expires: the gap of the keeper theorem is the largest possible |
| `Keeper.KeeperCoversEscrow` | contracts/trustflow/src/lib.rs:1535-1561 | The keeper call extends every stored entry of the escrow, milestone counters, dispute and voter list included |
| `Keeper.NoLifetimeShortened` | contracts/trustflow/src/lib.rs:108-125 | No call, keeper call or clock step shortens the life of any entry, and every entry a call creates lives longer than the threshold |
| `Keeper.CallKeepsLasting` | contracts/trustflow/src/lib.rs:831-1514 | Every entry-point call keeps each stored entry of the escrow alive for more than the threshold after the escrow's last keeper call |
| `Keeper.KeeperTheorem` | contracts/trustflow/src/lib.rs:1518-1576 | In every run whose keeper calls on an escrow are at most one ledger more than the threshold apart, the instance and every stored entry of the escrow are live |
| `Keeper.KeptEscrowNeverArchives` | contracts/trustflow/src/lib.rs:2688-2708 | In such a run no release and no dispute on the escrow is lost to archival of the escrow contract's entries; the token's own entries have no lifetime here |
| `KeeperVotes.RunKeepsJuror` | contracts/trustflow/src/lib.rs:795-823 | In every run whose keeper calls on a juror are at most one ledger more than the threshold apart, the juror's stake and slash counter outlive the last one by more than the threshold |
| `KeeperVotes.StakeNeverArchives` | contracts/trustflow/src/lib.rs:717-775 | A tended juror with a stake on record stakes and withdraws without loss to archival of the escrow contract's entries |
| `KeeperVotes.VoteNeverArchives` | contracts/trustflow/src/lib.rs:1174-1324 | With the escrow tended in time no reveal is lost to archival of the escrow contract's entries, and no commitment of a tended juror |
| `KeeperVotes.RunKeepsVotes` | contracts/trustflow/src/lib.rs:1293-1298 | In every run a ballot lives exactly one bump from its reveal, or the lifetime of a new entry where that is longer than the threshold: no call extends it |
| `KeeperVotes.ResolutionArchivesExactly` | contracts/trustflow/src/lib.rs:1346-1513 | With the escrow and all voters tended in time, a resolution that passes its checks goes through if and only if it comes within a ballot's life of every reveal in the dispute |
| `ResolutionScenario.ResolutionLost` | contracts/trustflow/src/lib.rs:1527-1576 | A dispute tended throughout, voted at ledger 17280 and resolvable: the resolution goes through up to 17280 plus the bump and is lost after |
| `Keeper.LifetimeTable.Extend` | contracts/trustflow/src/lib.rs:108-125 | Rewrites the lifetime of an existing entry only when at most the threshold remains |
| `Keeper.LifetimeTable.BumpEscrowTtl` | contracts/trustflow/src/lib.rs:1527-1576 | Extends the instance and, milestone by milestone, every entry of the escrow; returns the watermark or the missing-escrow error |
| `Keeper.LifetimeTable.BumpJurorStakeTtl` | contracts/trustflow/src/lib.rs:795-823 | Extends the instance, stake and slash counter; returns the watermark or the missing-stake error |
| `CrowdfundContract.Contract.constructor` | contracts/crowdfund/src/lib.rs:169-191 | Nothing is stored before initialization |
| `CrowdfundContract.Contract.Initialize` | contracts/crowdfund/src/lib.rs:169-191 | Succeeds once; computes the specified state |
| `CrowdfundContract.Contract.TargetIsReached` | contracts/crowdfund/src/lib.rs:106-114 | Reached if and only if the holdings are at least the target |
| `CrowdfundContract.Contract.GetState` | contracts/crowdfund/src/lib.rs:116-128 | The phase of the clock, the claim flag and the holdings |
| `CrowdfundContract.Contract.BalanceOf` | contracts/crowdfund/src/lib.rs:217-227 | The balance view |
| `CrowdfundContract.Contract.Deposit` | contracts/crowdfund/src/lib.rs:229-253 | Records, moves, reports; computes the specified state, and on failure leaves nothing behind |
| `CrowdfundContract.Contract.Withdraw` | contracts/crowdfund/src/lib.rs:255-294 | Claim or refund by phase; computes the specified state, and on failure leaves nothing behind |
| `CrowdfundProofs.DepositEvents` | contracts/crowdfund/src/lib.rs:229-253 | A deposit emits the target event exactly when it takes the holdings from below the target to it |
| `CrowdfundProofs.Backed` | contracts/crowdfund/src/lib.rs:229-294 | In every run the holdings cover all recorded deposits until the claim; at most one claim and one target event |
| `CrowdfundProofs.ViewsBacked` | contracts/crowdfund/src/lib.rs:217-227 | In every phase of every run the balance view summed over any users is at most the holdings |
| `CrowdfundProofs.SuccessIsFinal` | contracts/crowdfund/src/lib.rs:116-128 | Once successful, a campaign stays so in every run, token calls by others included |
| `CrowdfundProofs.StepFromExpired` | contracts/crowdfund/src/lib.rs:116-128 | A step leaves Expired if and only if it is a token transfer into the contract that the token accepts and whose amount covers the shortfall; it then enters Success |
| `CrowdfundProofs.ExpiredIsFinalWithoutTransfers` | contracts/crowdfund/src/lib.rs:116-128 | Expired is final in every run without outside token calls |
| `CrowdfundProofs.TopUpEndsRefunds` | contracts/crowdfund/src/lib.rs:263-293 | Anybody who covers the shortfall can end Expired by a plain transfer, after which no donor gets a refund in any continuation |
| `CrowdfundScenario.ToppedUpRun` | contracts/crowdfund/src/lib.rs:229-293 | A campaign that expires with a donor owed 40 who would be paid; one transfer of 60 later the donor never is |
| `CrowdfundProofs.RefundsInAnyOrder` | contracts/crowdfund/src/lib.rs:278-292 | In Expired, with the token supply within i128, every sequence of refunds to addresses other than the recipient succeeds, and every donor gets exactly the recorded deposit, once |
| `CrowdfundProofs.EveryRefundPayable` | contracts/crowdfund/src/lib.rs:278-292 | The same, under the same two conditions, in every expired state of every run |
| `CrowdfundProofs.DonorAccount` | contracts/crowdfund/src/lib.rs:229-294 | In every run, what a donor ever deposited less what was refunded to the donor is exactly what is still recorded |
| `CrowdfundEntryPoints.InitializeExact` | contracts/crowdfund/src/lib.rs:169-191 | Succeeds exactly once, with the terms given |
| `CrowdfundEntryPoints.DepositExact` | contracts/crowdfund/src/lib.rs:229-253 | A deposit is taken if and only if the campaign runs, the amount is positive and covered, and the donor is neither recipient nor contract; it moves the tokens, raises that donor's record and reports, with the target event exactly on crossing |
| `CrowdfundEntryPoints.ClaimExact` | contracts/crowdfund/src/lib.rs:263-277 | After success exactly the recipient withdraws, once, and gets everything the contract holds |
| `CrowdfundEntryPoints.RefundExact` | contracts/crowdfund/src/lib.rs:278-292 | After a shortfall everybody but the recipient withdraws exactly the recorded deposit, which then leaves the records |
| `CrowdfundEntryPoints.NoWithdrawalBeforeEnd` | contracts/crowdfund/src/lib.rs:255-262 | Before the deadline, and before initialization, every withdrawal fails |
| `CrowdfundEntryPoints.ViewExact` | contracts/crowdfund/src/lib.rs:217-227 | In every run the balance view is the whole holdings for the recipient of a successful campaign and 0 for others, and before that each donor's deposits less refunds |
| `CrowdfundEntryPoints.ViewIsPayable` | contracts/crowdfund/src/lib.rs:217-227 | Once the campaign has ended the view is what a withdrawal pays |

## Left out

- Runs with a second `initialize`: the code has no guard; `SecondInitialize` shows what breaks, and all other theorems are about runs after one initialization.
- Host plumbing: event encoding, symbols, signature checks beyond naming the signer, contract specs, and the storage defaults that only show before initialization.
- Labels of milestones, reasons of disputes, timestamps in events, and the pause, fee and treasury events: they carry no behaviour.
- Archival outside the keeper theorem: elsewhere persistent entries never vanish, and an expired allowance is read as zero rather than evicted.
- Keeper.KeeperTheorem: covers what `bump_escrow_ttl` extends; stakes, slash counters, commitments and votes have their own lifetimes, treated in `KeeperVotes`. The host's upper limit on lifetimes and the restoring of archived entries are not modelled, nor the lifetimes of the token's own entries.
- The token's administrator, decimals, name and symbol are not part of this model.
- Read-only getters of `trustflow`: they return stored fields.
- The getters, constants and events of `crowdfund` other than those its rules use.
- `contracts/mock-token`: a simplification of the ledger modelled here.
- `contracts/src` other than `fee.rs`: an older, reduced version of the escrow.
- The TypeScript tests and scripts.
