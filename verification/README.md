# A verified model of the DUCP reference node

DUCP pays providers for metered, deterministic computation (𝕌, "UCU"). The reference node is a
deterministic ledger, a single sequencer that turns mempools into blocks, and a node object that
puts both behind one lock and resolves challenges by re-executing proofs. This project models all
three in Dafny, together with the arithmetic, the metering, the verification and the byte codec
under them, and proves what they keep over every run.

## How it is organised

| layer | specification | code | theorems |
|---|---|---|---|
| types, parameters | `Types`, `Governance` | | `Governance` |
| byte codec, ids | `Codec` | `Codec` | `Codec`, `Layout`, `Hashing` |
| ledger | `LedgerSpec` | `Ledger` | `Lifecycle`, `Release`, `Escrow`, `Conservation`, `Bonds`, `Books`, `Wealth`, `Effects`, `Runs`, `RewardNeutral` |
| machine arithmetic | `MachineSpec` | | `Machine`, `Widths` |
| consensus | `ConsensusSpec` | `Consensus` | `ConsensusSpec` |
| metering, verdicts | `Dvm`, `Verification` | | `Dvm`, `Metering`, `Verification` |
| node | `NodeSpec` | `NodeCode` | `NodeRuns` |
| published numbers | | | `Vectors` |
| failing inputs | | | `Counterexamples` |

A specification module gives each transition as a function on the whole state. A code module holds
the step-by-step version: classes whose methods update their fields in place and loop where the
source loops, each proved to compute the specification function. The theorem modules prove what the
source promises about those functions, first for one step, then for every run.

`LedgerSpec.Run` interleaves transactions, epoch boundaries, direct fraud verdicts and challenge
verdicts in any order, from any genesis (an identity may be allocated to twice). Requester, provider
and challenger may be one identity everywhere. `NodeSpec.Moves` interleaves submits, blob uploads,
epoch advances and the two critical sections of any number of challenge resolutions.

Parameters are arbitrary with `discount_max_ppm <= PPM` and `decay_rate_ppm <= PPM` (below that the
code's own subtractions are undefined); what needs more says so: a clawback window of at least one
epoch, or moderate rates in `Machine`. The devnet values satisfy all of it.

BLAKE3, Ed25519 verification (RFC 8032, section 5.1.7), the WebAssembly engine and the byte form of
a whole state are uninterpreted functions. Nothing is assumed of them, not even injectivity: where a
conclusion needs it, the conclusion names the two values that would have to collide. The layouts in
`Codec` follow the Borsh specification (borsh.io, table "Specification").

## Where the code decides against its own description

Each of these says when the property fails, exactly and for all inputs, and `Counterexamples` has an
input at which it does; the ledger's are states of one short run.

- A fraud verdict can leave more locked than a bond holds: the clawback draws on the provider's whole
  pooled bond, and the stakes in it stay on record. Without fraud verdicts bonds are exact
  (`Runs.ReachableExactBonds`). A direct verdict keeps them exact when there is nothing to seize
  (`Bonds.FraudExactIff`), a proven challenge also when the provider challenged itself and has nothing
  else bonded (`Bonds.VerdictExactIff`; inputs `BondsNotExact`, `BondsExactThroughFraud`).
- `released` and `slashed` overlap exactly when a verdict falls on a released task
  (`Books.FraudDisjointIff`, `Books.VerdictDisjointIff`); nothing else makes them overlap
  (`Books.PeacefulDisjoint`). An open challenge does not hold the stake: whenever it was opened, its
  task is released from the epoch on in which the window closes (`Books.PendingReleasedIff`,
  `NodeRuns.ChallengedReleasedIff`), so a proven challenge keeps the sets apart exactly when its verdict
  comes before that epoch (`Books.PendingDisjointIff`). There are two ways to a challenged task that is
  released: the boundary that closes the window gives the stake back under the challenge
  (`Books.ReleasedUnderChallengeIff`; input `ReleasedUnderChallenge`), or the challenge is opened in that
  very epoch, after the boundary (`Books.OpenReleasedIff`; input `ReleasedAndSlashed`). The source
  describes challenges as resolved within the window, and nothing in it sees to that.
- Open challenges stay on settled tasks except when a direct fraud verdict bypasses one
  (`NodeRuns.FraudPendingIff`; input `PendingNotSettled`). The node never issues one
  (`NodeRuns.NodeIsRun`).
- Replicas can replay transaction blocks only. A system block lists no transactions, so whoever
  replays it accepts it exactly when the root did not change (`ConsensusSpec.SealedCommitIff`; input
  `SealedNotReplayed`).
- `decay` is documented as a floor and truncates. The two agree exactly when Standing is not negative
  or the division is exact (`Governance.DecayIsFloorIff`; input `DecayNotFloor`); on runs Standing
  never is negative.
- With a clawback window of zero epochs a fresh settlement is overdue at once (`Books.ProveTimelyIff`;
  input `OverdueAtOnce`).
- The failure prefix does not separate a failure from a successful output that spells it out
  (`Dvm.ResultHashesEqual`; input `FailureImitated`).
- The verdict looks at result hash and 𝕌 count alone (`Verification.VerdictLooksAtTwoFields`). The
  output id an accepted proof declares is the real one exactly when it repeats the result hash
  (`Verification.DeclaredOutputIff`; input `WrongOutputAccepted`).
- The node re-executes under its own benchmark, whatever version a task names, and no check compares the
  two. Honest work under another version is ruled fraud exactly when the two executions differ in hash
  or count (`Verification.OtherBenchmarkIff`, `Verification.RateDecides`; input `HonestElsewhere`).
- A task that nobody claimed by its deadline stays submitted for ever, with its escrow locked; no failure
  policy is acted on (`Runs.ExpiredForever`; input `UnclaimedTask`).
- The fuel ceiling is the largest affordable fuel unless its product wraps below saturation
  (`Dvm.CeilingIsLargestIff`; input `CeilingNotLargest`).
- The fee is computed before the balance is checked: its product is the one computation a submitted
  ceiling alone can take out of range (`Machine.SubmitFailsIff`; input `FeeOverflows`).

The module comment of the sequencer breaks ties by transaction id; the code, and the model, go by
arrival order, in which there are no ties.

## Model

| member | source | states |
|---|---|---|
| Runs.ReachableMoney | crates/ledger/src/lib.rs:109-115 | on every run: the pots of all accounts and the fee pool add up to minted minus burned, no more is burned than minted, no pot is negative, escrow is exactly what open tasks locked, no bond exceeds what it secures |
| Runs.ReachableSettlement | crates/ledger/src/lib.rs:252-274 | on every run a settlement takes out of the requester's escrow exactly what the submission locked, which is there, pays the provider, refunds the requester and puts the fee in the pool, also when requester and provider are one identity; no other account changes |
| Runs.ReachableExactBonds | crates/ledger/src/lib.rs:404-428 | on runs without a fraud verdict every bond equals the stakes of claimed, unreleased tasks plus open challenge bonds, so no clamp of the next release or forfeit bites |
| Runs.RunExtends | crates/ledger/src/lib.rs:238-315 | finality: in every later state bodies, proofs, receipts and ℚ entries are unchanged, statuses only moved forward, and a slashed unreleased task is still unreleased |
| Runs.ExpiredForever | crates/ledger/src/lib.rs:186-192 | a task still submitted after its deadline stays as it is on every later run, with its ceiling and fee in its requester's escrow |
| Runs.ReachableSupply | crates/ledger/src/lib.rs:265-303 | single mint: minted is genesis plus the issuance on the receipts; the fee pool is the receipted fees when every fraud reward had a claimant |
| Runs.ReachableReleases | crates/ledger/src/lib.rs:404-428 | every receipt whose window has closed is released or slashed, and nothing was released before its window closed (window of at least one epoch) |
| Runs.ReachableReputation | crates/ledger/src/lib.rs:510-521 | strikes equal the number of slashed tasks an identity provided; Standing is never negative, so decay is its documented floor |
| Runs.NoncesCount | crates/ledger/src/lib.rs:130-137 | an author's stored nonce is the number of its accepted transactions, which carry consecutive nonces in order |
| Runs.NeverAcceptedTwice | crates/ledger/src/lib.rs:370-375 | no transaction is accepted twice on a run, and an author's accepted nonces strictly rise |
| Runs.StepInvariant | crates/ledger/src/lib.rs:367-552 | every transaction, boundary and verdict keeps the conjunction of all ledger invariants |
| Runs.GenesisInvariant | crates/ledger/src/lib.rs:76-90 | every genesis satisfies all ledger invariants, with exact bonds and nothing overdue |
| Wealth.DispatchWealth | crates/ledger/src/lib.rs:139-364 | the exact change of everybody's holdings by each transaction: transfers move their amount, settlement takes work and fee from the requester and gives work and issuance to the provider, all others move money between the author's own pots |
| Wealth.BoundaryWealth | crates/ledger/src/lib.rs:395-432 | an epoch boundary makes nobody richer or poorer |
| Wealth.FraudWealth | crates/ledger/src/lib.rs:478-509 | a fraud verdict takes clawback, burn and fine from the provider, repays the requester what the bond covered and pays the reward; nobody else is touched |
| Wealth.VerdictWealth | crates/ledger/src/lib.rs:530-552 | a failed challenge costs the challenger its bond, as far as the bonded pot reaches; a proven one gives it back and has the effect of the fraud verdict that rewards the challenger |
| Wealth.NothingUnsigned | crates/ledger/src/lib.rs:370-388 | on every run, an identity none of whose transactions was accepted still has its whole genesis allocation to spend, nothing locked, and is party to nothing |
| Effects.SubmitAnswer | crates/ledger/src/lib.rs:139-156 | a submission is taken exactly when tier and id are right, ceiling and fee fit 128 bits together and the raw balance covers them; which rejection otherwise |
| Effects.SubmitEffect | crates/ledger/src/lib.rs:157-177 | ceiling and fee move from balance to escrow and the two records are written field by field; nothing else changes |
| Effects.ClaimAnswer | crates/ledger/src/lib.rs:179-198 | a claim is taken exactly when the task is submitted, the deadline epoch has not passed and the balance covers the stake; the first thing wrong is reported |
| Effects.ClaimEffect | crates/ledger/src/lib.rs:193-207 | the stake that moves from balance to bond and is recorded is the one the provider's own Standing record calls for: the base without one, the capped discount from the reference on, the exact discount in between |
| Effects.StakeUnique | crates/governance/src/lib.rs:101-121 | the rule of base, discount and rounding leaves one stake |
| Effects.ProveAnswer | crates/ledger/src/lib.rs:209-250 | a proof is taken exactly from the assigned provider of an executing task, within its ceiling and benchmark; the first thing wrong is reported |
| Effects.ProveEffect | crates/ledger/src/lib.rs:252-316 | all a settlement writes, field by field: refund, payment, issuance, fee, Standing accrued, receipt with its window, ℚ entry, status; every amount by its rate and rounding |
| Effects.OpenAnswer | crates/ledger/src/lib.rs:320-344 | a challenge is taken exactly for a settled, unslashed, unchallenged task up to and including the closing epoch, with a bond of at least the minimum that the balance covers |
| Effects.OpenEffect | crates/ledger/src/lib.rs:345-352 | the bond moves from balance to bonded pot and the challenge is recorded |
| Effects.TransferAnswer | crates/ledger/src/lib.rs:354-360 | a transfer is taken exactly when the balance covers it |
| Effects.TransferEffect | crates/ledger/src/lib.rs:354-364 | the amount moves from one balance to the other; to oneself nothing moves |
| Effects.ApplyAnswer | crates/ledger/src/lib.rs:370-388 | signature first, then nonce, then the transaction; an accepted one counts its nonce once and no nonce otherwise |
| Effects.BoundaryEffect | crates/ledger/src/lib.rs:395-432 | a boundary counts the epoch, decays every Standing record towards zero and stamps it, and releases exactly the matured tasks |
| Effects.BoundaryMoves | crates/ledger/src/lib.rs:418-428 | a boundary pays each provider the stakes released now, as far as its bond reaches |
| Effects.FraudRecordsEffect | crates/ledger/src/lib.rs:510-521 | a fraud verdict sets the offender's Standing to zero, adds exactly one strike, opening a record if there is none, marks the task and touches nobody else's record |
| Effects.FraudMoves | crates/ledger/src/lib.rs:478-509 | every pot after a fraud verdict: repayment, burn, fine and reward, each by its rate and as far as the pots reach, identities coinciding included |
| Effects.FraudIdle | crates/ledger/src/lib.rs:456-477 | a verdict that cannot bite changes nothing |
| Effects.FailedChallengeEffect | crates/ledger/src/lib.rs:530-552 | a failed challenge burns its bond, as far as the bonded pot reaches, and closes |
| Effects.ProvenChallengeEffect | crates/ledger/src/lib.rs:530-542 | a proven challenge has the effect of the fraud verdict that rewards its challenger, then gives the bond back out of what is left |
| Effects.ProvenChallengeStanding | crates/ledger/src/lib.rs:510-515 | a proven challenge floors the offender's Standing, adds one strike and leaves every other record alone |
| Effects.GenesisEffect | crates/ledger/src/lib.rs:76-90 | genesis opens an account for exactly the identities on the list, with the sum of their allocations, and nothing else |
| Effects.ReachableKeyed | crates/ledger/src/lib.rs:119-128 | on every run accounts and Standing records carry the identity they are filed under |
| Lifecycle.StepLifecycle | crates/ledger/src/lib.rs:139-316 | every action keeps the records of every task consistent (proofs, receipts and ℚ entries exist exactly for settled or failed tasks and agree on amounts, ℚ null; slashed is exactly failed) and only extends what is on record |
| Lifecycle.StepMoves | crates/ledger/src/lib.rs:163-205 | a task starts as submitted and moves to executing, settled and failed, in that order and one at a time |
| Release.ReleaseLast | crates/ledger/src/lib.rs:418-428 | due stakes may be released in any order |
| Release.ReleaseClosedForm | crates/ledger/src/lib.rs:418-428 | closed form of the release loop: a bond drops by the smaller of itself and the total of its due stakes, the balance rises by the same, nobody else is touched |
| Escrow.ProveSound | crates/ledger/src/lib.rs:259-274 | settlement keeps every pot non-negative and escrow backed; the unchecked escrow subtraction cannot underflow, also when requester and provider coincide |
| Escrow.SettlementSplit | crates/ledger/src/lib.rs:259-279 | the change of each pot of any identity by a settlement: locked amount, refund, payment, issuance and fee |
| Escrow.StepSound | crates/ledger/src/lib.rs:139-364 | every action keeps each `escrowed` equal to the sum over open tasks and every pot non-negative |
| Escrow.PenaltyRange | crates/ledger/src/lib.rs:478-503 | the clamped penalties of a fraud verdict are non-negative and together within the provider's bond and balance |
| Escrow.SeizeInSteps | crates/ledger/src/lib.rs:478-503 | clawback, repayment, burn and fine in the code's order add up to one debit of the provider and one credit of the requester |
| Conservation.StepConserved | crates/ledger/src/lib.rs:367-552 | every action conserves currency, from any conserving state |
| Conservation.GenesisConserved | crates/ledger/src/lib.rs:76-90 | genesis mints what it allocates and gives every identity the sum of its allocations |
| Conservation.HeldRelease | crates/ledger/src/lib.rs:418-428 | releasing stakes keeps the total held |
| Bonds.StepCovered | crates/ledger/src/lib.rs:193-205 | every action keeps each bond within the stakes and challenge bonds it secures, through clamped clawbacks, fines and releases |
| Bonds.StepExact | crates/ledger/src/lib.rs:341-350 | every action but a fraud verdict keeps bonds exact |
| Bonds.FraudShortfall | crates/ledger/src/lib.rs:478-503 | a fraud verdict opens a gap between a bond and what it secures as large as what it seizes from the provider's whole bond |
| Bonds.FraudExactIff | crates/ledger/src/lib.rs:478-503 | a direct fraud verdict leaves exact bonds exact if and only if payment plus fine is zero or the provider's bond is empty |
| Bonds.VerdictExactIff | crates/ledger/src/lib.rs:530-542 | a proven challenge leaves exact bonds exact if and only if the same holds, or the provider challenged itself and its bond holds that challenge alone |
| Bonds.VerdictShortfall | crates/ledger/src/lib.rs:530-542 | the gap a proven challenge opens for any identity, given exact bonds |
| Bonds.BoundaryShortfall | crates/ledger/src/lib.rs:418-428 | a boundary keeps bonds covered, exact bonds exact, and an exact bond covers all that falls due |
| Bonds.CloseShortfall | crates/ledger/src/lib.rs:536-549 | a failed challenge takes its bond out of both sides; an exact bond covers it |
| Books.StepMintAndFees | crates/ledger/src/lib.rs:265-303 | settlement is the only mint and its receipt says how much; fees are receipted, and only an unclaimed fraud reward enters the fee pool otherwise |
| Books.PotsBounded | crates/ledger/src/lib.rs:109-115 | no identity holds more than was minted and not burned |
| Books.StepAffordable | crates/ledger/src/lib.rs:152-162 | no task on record is larger than all currency ever minted |
| Books.StepStrikes | crates/ledger/src/lib.rs:511-521 | every action keeps strikes equal to the number of slashed tasks |
| Books.StepStanding | crates/ledger/src/lib.rs:281-286 | every action keeps Standing non-negative |
| Books.FraudIdempotent | crates/ledger/src/lib.rs:463-465 | a second fraud verdict on a task changes nothing, whoever would be rewarded |
| Books.BoundaryTimely | crates/ledger/src/lib.rs:404-428 | after any boundary every receipt whose window has closed is released or slashed, even if it was overdue before |
| Books.ProveTimelyIff | crates/ledger/src/lib.rs:288-303 | a settlement leaves nothing overdue if and only if the clawback window is at least one epoch |
| Books.StepNeverEarly | crates/ledger/src/lib.rs:406-416 | no action releases a stake before its window has closed |
| Books.PeacefulDisjoint | crates/ledger/src/lib.rs:367-432 | transactions and boundaries keep released and slashed tasks apart |
| Books.FraudDisjointIff | crates/ledger/src/lib.rs:463-518 | a direct fraud verdict keeps them apart if and only if it does not slash a released task |
| Books.VerdictDisjointIff | crates/ledger/src/lib.rs:530-542 | the verdict on a challenge keeps them apart if and only if it does not slash a released task |
| Books.OpenReleasedIff | crates/ledger/src/lib.rs:332-334 | at the moment it is opened, a challenge is about a released task if and only if that epoch is the one in which the window closes |
| Books.PendingReleasedIff | crates/ledger/src/lib.rs:404-417 | a task under challenge is released if and only if its window has closed, whenever the challenge was opened |
| Books.PendingDisjointIff | crates/ledger/src/lib.rs:530-542 | a proven challenge keeps released and slashed tasks apart if and only if its verdict comes before the epoch in which the window closes |
| Books.ReleasedUnderChallengeIff | crates/ledger/src/lib.rs:404-428 | a boundary releases a task under challenge if and only if it closes the window, and the challenge stays open |
| RewardNeutral.EraseDispatch | crates/ledger/src/lib.rs:209-316 | erasing every power seal commutes with every transaction, rejections included |
| RewardNeutral.TwinsAgree | crates/ledger/src/lib.rs:370-388 | two transactions that differ in the power seal alone meet the same fate, with the same reason for a rejection |
| RewardNeutral.RunNeutral | crates/ledger/src/lib.rs:309-315 | runs that differ only in power seals end in states that differ only in the seals of stored proofs |
| Ledger.WorkingCopy.CheckAndBumpNonce | crates/ledger/src/lib.rs:130-137 | accepts exactly the expected nonce and counts it |
| Ledger.WorkingCopy.SubmitTask | crates/ledger/src/lib.rs:139-177 | computes `LedgerSpec.Submit`: the same rejection, or the same whole state |
| Ledger.WorkingCopy.ClaimTask | crates/ledger/src/lib.rs:179-207 | computes `LedgerSpec.Claim` |
| Ledger.WorkingCopy.SubmitProof | crates/ledger/src/lib.rs:209-249 | computes `LedgerSpec.Prove`, passing through the verified status |
| Ledger.WorkingCopy.PaySettlement | crates/ledger/src/lib.rs:259-279 | the money part of a settlement, step by step, equals one debit and one credit |
| Ledger.WorkingCopy.Settle | crates/ledger/src/lib.rs:252-316 | computes `LedgerSpec.Settle` |
| Ledger.WorkingCopy.LockBond | crates/ledger/src/lib.rs:320-352 | computes `LedgerSpec.OpenChallenge` |
| Ledger.WorkingCopy.Transfer | crates/ledger/src/lib.rs:354-364 | computes `LedgerSpec.TransferTo`, also to oneself |
| Ledger.Apply | crates/ledger/src/lib.rs:370-388 | computes `LedgerSpec.Apply`: signature first, then nonce, then the transaction on a copy that a rejection throws away |
| Ledger.Genesis | crates/ledger/src/lib.rs:76-90 | the allocation loop computes `LedgerSpec.Genesis` |
| Ledger.CheckConservation | crates/ledger/src/lib.rs:109-115 | the audit loop says whether the pots add up to the saturating difference of minted and burned |
| Ledger.AuditIsExact | crates/ledger/src/lib.rs:109-115 | the saturating subtraction of the audit decides conservation exactly as long as no more was burned than minted, and beyond that passes exactly when nothing is held |
| Ledger.AdvanceEpoch | crates/ledger/src/lib.rs:395-432 | decay, collect and release in the code's loops compute `LedgerSpec.AdvanceEpoch` |
| Ledger.DecayStandings | crates/ledger/src/lib.rs:399-402 | decays every Standing record and stamps the epoch |
| Ledger.CollectDue | crates/ledger/src/lib.rs:404-417 | lists every matured, unreleased, unslashed stake once, with its provider and amount |
| Ledger.ReleaseStakes | crates/ledger/src/lib.rs:418-428 | releasing the list one by one equals the order-independent `LedgerSpec.ReleaseAll` |
| Ledger.AdvanceToEpoch | crates/ledger/src/lib.rs:435-441 | is as many single boundaries as it takes to reach the target, none if it is past |
| Ledger.StandingAfter | crates/ledger/src/lib.rs:399-402 | n boundaries decay each Standing n times and touch no strikes |
| Ledger.ResolveFraud | crates/ledger/src/lib.rs:456-524 | computes `LedgerSpec.ResolveFraud` |
| Ledger.TakePenalties | crates/ledger/src/lib.rs:478-509 | clawback, burn, fine and reward, each clamped to what the step before left, add up to the penalty computed in advance |
| Ledger.ResolveChallenge | crates/ledger/src/lib.rs:530-552 | computes `LedgerSpec.ResolveChallenge`: penalties and bond back, or bond burned |
| Governance.ClaimStakeRange | crates/governance/src/lib.rs:101-121 | more Standing never raises the stake, which stays between the capped discount and the undiscounted base |
| Governance.SplitIssuance | crates/governance/src/lib.rs:90-93 | splitting work into tasks never mints more than one task of the total work and loses less than one base unit per task |
| Governance.DecayIsFloorIff | crates/governance/src/lib.rs:138-142 | truncating decay equals the documented floor if and only if Standing is not negative or the division is exact |
| Governance.DecayOverEpochs | crates/governance/src/lib.rs:138-142 | over n epochs rounding never gains on exact geometric decay, loses less than `PPM/d` in all, and takes at least one point per epoch |
| Governance.RatesAreFloors | crates/governance/src/lib.rs:85-136 | every rate is taken of its own amount in millionths and rounded down, the accrual twice |
| Governance.DiscountCases | crates/governance/src/lib.rs:113-121 | the discount is nothing without Standing or reference, the cap from the point where the quotient reaches it, the quotient rounded down in between |
| Governance.ClaimStakeIsFloor | crates/governance/src/lib.rs:106-111 | the stake is the base less its discount, rounded down |
| Machine.RunRefines | crates/ledger/src/lib.rs:367-552 | the machine theorem: within the stated bounds no addition, subtraction or multiplication of the ledger leaves its width on any run, and the results are those of unbounded integers |
| Machine.DevnetRefines | crates/governance/src/lib.rs:67-83 | the same under the devnet parameters |
| Machine.GenesisFitsIff | crates/ledger/src/lib.rs:76-90 | the genesis sums fit 128 bits if and only if all allocations together do |
| Machine.AuditOk | crates/ledger/src/lib.rs:109-115 | no partial sum of the audit overflows in a state with the invariants |
| Machine.AuditFailsIff | crates/ledger/src/lib.rs:109-115 | the audit's sums overflow exactly when everything held together does |
| Machine.StepRefines | crates/ledger/src/lib.rs:367-552 | the same for one step of any kind |
| Machine.SubmitFailsIff | crates/ledger/src/lib.rs:152-162 | a submission leaves machine arithmetic if and only if ceiling times fee rate exceeds 128 bits |
| Machine.SettleOk | crates/ledger/src/lib.rs:252-309 | no computation of a settlement overflows or underflows |
| Machine.SeizeOk | crates/ledger/src/lib.rs:478-509 | no computation of the penalties overflows or underflows |
| Machine.ClaimStakeOk | crates/governance/src/lib.rs:101-121 | the stake of a bounded task is computed without overflow |
| Machine.DecayOk | crates/governance/src/lib.rs:138-142 | decay of a bounded Standing is computed without overflow |
| Widths.RunExact | crates/ledger/src/lib.rs:367-552 | for every parameter set, allocation list and run: if no check of the machine ledger failed, its state is the one unbounded integers give and every number stored in it fits its type |
| Widths.StepExact | crates/ledger/src/lib.rs:139-552 | an action whose checks all went through did what unbounded integers would do, from any state |
| Widths.StepFits | crates/ledger/src/lib.rs:139-552 | an action whose checks all went through stores only numbers that fit |
| Widths.RateFailsIff | crates/governance/src/lib.rs:85-98 | a rate overflows exactly when its product does, however small the quotient |
| Widths.StakeFailsIff | crates/governance/src/lib.rs:101-121 | the stake overflows exactly when one of its three products does |
| Widths.AccrualFailsIff | crates/governance/src/lib.rs:95-98 | the accrual overflows exactly when a product leaves 128 bits or the result the signed range |
| Widths.DecayFailsIff | crates/governance/src/lib.rs:138-142 | decay overflows exactly when its product leaves the signed range |
| Widths.MovementFailsIff | crates/ledger/src/lib.rs:119-121 | a movement between pots overflows exactly when a pot would leave its type |
| Codec.TaskBodyRoundTrip | crates/ducp-types/src/lib.rs:166-179 | decoding undoes encoding of a task body with nothing left over |
| Codec.CanonicalTaskBody | crates/ducp-types/src/lib.rs:166-179 | every byte string a task body decodes from is the one its encoding writes |
| Codec.ProofRoundTrip | crates/ducp-types/src/lib.rs:243-258 | the same round trip for compute proofs |
| Codec.TxRoundTrip | crates/ducp-types/src/lib.rs:453-472 | the same round trip for transactions of every kind |
| Codec.CanonicalTx | crates/ducp-types/src/lib.rs:453-472 | every transaction has one encoding |
| Codec.SignedTxRoundTrip | crates/ducp-types/src/lib.rs:476-484 | the same round trip for signed transactions |
| Codec.CanonicalSignedTx | crates/ducp-types/src/lib.rs:476-484 | every signed transaction has one encoding |
| Codec.BlockRoundTrip | crates/ducp-types/src/lib.rs:522-534 | the same round trip for blocks |
| Codec.CanonicalBlock | crates/ducp-types/src/lib.rs:522-534 | every block has one encoding, and what decodes fits its machine widths |
| Codec.PrefixFreeSignedTx | crates/ducp-types/src/lib.rs:57-64 | no encoding of a signed transaction is a prefix of another |
| Codec.PrefixFreeTaskBody | crates/ducp-types/src/lib.rs:57-64 | no encoding of a task body is a prefix of another |
| Codec.PrefixFreeBlock | crates/ducp-types/src/lib.rs:57-64 | no encoding of a block is a prefix of another |
| Codec.BuildSigningPayload | crates/ducp-types/src/lib.rs:488-494 | the buffer grown piece by piece is author, canonical transaction, little endian nonce |
| Codec.SigningPayloadInjective | crates/ducp-types/src/lib.rs:488-494 | one signing payload cannot be read as two different triples of author, transaction and nonce |
| Layout.IntLayout | crates/ducp-types/src/lib.rs:57-64 | byte i of an integer is its i-th digit to base 256, and what follows starts after the width |
| Layout.Tags | crates/ducp-types/src/lib.rs:147-163 | the tag byte of every tier, grade, boundary, policy, tier datum and option, in declaration order |
| Layout.TxTags | crates/ducp-types/src/lib.rs:453-472 | the first byte of each kind of transaction |
| Layout.TaskBodyLayout | crates/ducp-types/src/lib.rs:166-179 | the offset, width and bytes of every field of a task body |
| Layout.ProofLayout | crates/ducp-types/src/lib.rs:243-258 | the same for a compute proof, its tier data and its optional power seal |
| Layout.TxLayout | crates/ducp-types/src/lib.rs:453-472 | the same for the content of each kind of transaction |
| Layout.SignedTxLayout | crates/ducp-types/src/lib.rs:476-484 | the same for a signed transaction, the signature being its last 64 bytes |
| Layout.PayloadLayout | crates/ducp-types/src/lib.rs:488-494 | the signed message is author, transaction and nonce, and nothing else |
| Layout.BlockLayout | crates/ducp-types/src/lib.rs:522-534 | the same for a block with its counted list of ids |
| Hashing.TxIdsEqual | crates/ducp-types/src/lib.rs:515-518 | two transactions have one id if and only if they are equal or their encodings collide |
| Hashing.TaskIdsEqual | crates/ducp-types/src/lib.rs:182-185 | the same for task bodies |
| Hashing.BlockHashesEqual | crates/ducp-types/src/lib.rs:537-540 | the same for blocks |
| Hashing.OneMessageOneStatement | crates/ducp-types/src/lib.rs:509-513 | the message a signature is checked against determines author, transaction and nonce |
| Hashing.VerifiesMessage | crates/ducp-types/src/lib.rs:509-513 | a signature is checked, under the author's key, against any bytes that read as the author, the transaction and the nonce it comes with and nothing more |
| Hashing.AcceptedIsSigned | crates/ledger/src/lib.rs:370-373 | whatever the ledger accepts carries a signature that verifies on such a message |
| Hashing.IdsAreHashes | crates/ducp-types/src/lib.rs:515-518 | ids of tasks, transactions and blocks are the hashes of the bytes that decode to them |
| Hashing.RootsEqual | crates/ledger/src/lib.rs:92-96 | two states have one root if and only if their bytes are equal or collide |
| Hashing.AcceptedIdsDistinct | crates/ledger/src/lib.rs:370-375 | transaction ids accepted on a run are pairwise distinct unless two encodings collide |
| ConsensusSpec.CommitReproduces | crates/consensus/src/lib.rs:134-202 | replication: a replica in the proposer's state accepts its block and reaches its whole state |
| ConsensusSpec.ChainReplicates | crates/consensus/src/lib.rs:134-202 | over any sequence of mempools a replica accepts every block and is in the proposer's state after each |
| ConsensusSpec.CommitOkIff | crates/consensus/src/lib.rs:179-202 | a block commits exactly when its transactions carry its ids, all are acceptable in order, and they lead to its root |
| ConsensusSpec.AcceptedReplayAgrees | crates/consensus/src/lib.rs:186-201 | whoever accepts the proposer's block ends in a state with its root; from the same start a different state also takes two transactions with one id |
| ConsensusSpec.ChainAgrees | crates/consensus/src/lib.rs:179-202 | whoever accepts the proposer's blocks, with whatever transactions, ends in the proposer's state after each of them, or two different transactions share an id |
| ConsensusSpec.SealedCommitIff | crates/consensus/src/lib.rs:105-117 | a system block can be replayed if and only if the transition it seals left the root unchanged |
| ConsensusSpec.OrderSpec | crates/consensus/src/lib.rs:140-160 | each transaction is judged in the state its accepted predecessors left; the block carries those that passed, in arrival order |
| ConsensusSpec.OrderIdempotent | crates/consensus/src/lib.rs:134-160 | producing again from what was accepted accepts all of it and ends in the same state |
| ConsensusSpec.OrderIsRun | crates/consensus/src/lib.rs:134-160 | block production is a run of the ledger and carries its accepted transactions |
| ConsensusSpec.ChainLinks | crates/consensus/src/lib.rs:98-117 | heights are consecutive, parents are the hashes of the blocks before, and every block lists its ids and closes with its root |
| ConsensusSpec.ChainNeverRepeats | crates/consensus/src/lib.rs:141-160 | no transaction is carried twice, within a block or across a chain |
| Consensus.CommitProblem | crates/consensus/src/lib.rs:179-202 | the problem a rejected block is refused for: the first wrong id or rejection, or else its root |
| ConsensusSpec.HeadEffects | crates/consensus/src/lib.rs:98-117 | a system block stands on the head in the head's epoch; whoever adopts a block keeps its own name |
| Consensus.SingleSequencer.Produce | crates/consensus/src/lib.rs:134-177 | the production loop computes `ConsensusSpec.Produce` and leaves the head alone |
| Consensus.SingleSequencer.Commit | crates/consensus/src/lib.rs:179-202 | the replay loop computes `ConsensusSpec.Commit`, first problem first |
| Consensus.SingleSequencer.Adopt | crates/consensus/src/lib.rs:98-103 | moves the head to a block |
| Consensus.SingleSequencer.SealBlock | crates/consensus/src/lib.rs:105-117 | an empty block on top of the head with the root of the given state |
| Consensus.SingleSequencer.AdvanceEpoch | crates/consensus/src/lib.rs:119-126 | the ledger's boundary, with the head's epoch following |
| Dvm.FuelToUcuExact | crates/dvm/src/lib.rs:72-76 | the fuel conversion never wraps, and the reference fuel is exactly one 𝕌 |
| Dvm.CeilingIsLargestIff | crates/dvm/src/lib.rs:78-82 | the fuel ceiling is the largest affordable fuel if and only if its product does not wrap or what is left of it still saturates |
| Dvm.WithinCeiling | crates/dvm/src/lib.rs:72-82 | fuel within the ceiling costs at most the limit the ceiling was derived from, also after a wrap |
| Dvm.BeyondCeiling | crates/dvm/src/lib.rs:72-82 | fuel beyond an unwrapped ceiling costs at least that limit |
| Dvm.ExecuteWithinLimit | crates/dvm/src/lib.rs:418-441 | whatever the engine reports, no branch of an execution charges more than the limit |
| Dvm.ResultHashesEqual | crates/dvm/src/lib.rs:129-136 | what an equal result hash says about two executions: equal outcomes, an output that spells out a failure, or a collision |
| Metering.ExecuteReports | crates/dvm/src/lib.rs:281-361 | for everything the engine can do: how the execution ends, its output, and its price, which is the declared limit when out of fuel and otherwise the fuel used, converted and rounded down |
| Metering.ResultBytes | crates/dvm/src/lib.rs:129-136 | the bytes behind a result hash, for each way to end |
| Metering.VerdictReports | crates/verification/src/lib.rs:75-93 | a verdict accepts exactly what a re-execution confirms and otherwise names the hash it found and the one it was given |
| Verification.HonestProofSettles | crates/verification/src/lib.rs:75-93 | an honest proof is accepted exactly when the task is executing and assigned to its author under the same benchmark: the limit check never rejects it |
| Verification.VerdictLooksAtTwoFields | crates/verification/src/lib.rs:85-92 | proofs with one result hash and count get one verdict, whatever else they claim |
| Verification.DeclaredOutputIff | crates/verification/src/lib.rs:85-92 | an accepted proof of a successful execution declares the real output if and only if it repeats its result hash |
| Verification.OtherBenchmarkIff | ducp-node/src/lib.rs:178-187 | work done honestly under another benchmark passes the node's check if and only if both executions agree on hash and count; for a program that completes alike under both ceilings, if and only if its fuel converts alike |
| Verification.RateDecides | crates/dvm/src/lib.rs:72-82 | of a benchmark only the fuel rate enters an execution |
| NodeCode.Node.Submit | ducp-node/src/lib.rs:124-148 | computes `NodeSpec.SubmitTx` on every field and the result |
| NodeCode.Node.GatherInputs | ducp-node/src/lib.rs:155-176 | the first critical section of a resolution: proof, body, program and input, or the unknown-task error |
| NodeCode.Node.CommitVerdict | ducp-node/src/lib.rs:189-199 | the second critical section: verdict applied, sealed, adopted, stored |
| NodeCode.Node.ResolvePendingChallenge | ducp-node/src/lib.rs:155-200 | both sections and the re-execution between them, undisturbed |
| NodeCode.Node.AdvanceEpoch | ducp-node/src/lib.rs:202-214 | computes `NodeSpec.NextEpoch` |
| NodeCode.Node.PutBlob | ducp-node/src/lib.rs:292-297 | stores bytes under their content id and changes nothing else |
| NodeCode.Node.BlockAt | ducp-node/src/lib.rs:276-282 | the block of a height, none for zero or beyond the head |
| NodeCode.FindOutcome | ducp-node/src/lib.rs:133-147 | the first result under an id decides the outcome |
| NodeRuns.ReachableChain | ducp-node/src/lib.rs:67-75 | on every interleaving: consecutive heights, linked parents, ids match stored transactions, the last root and epoch are the ledger's, storage holds the state, the mempool is empty |
| NodeRuns.SubmitIff | ducp-node/src/lib.rs:124-148 | a submit succeeds exactly when the ledger accepts; a rejected one changes nothing and reports the ledger's reason; an accepted one adds a block a replica can replay |
| NodeRuns.SubmitEffect | ducp-node/src/lib.rs:124-148 | from any state, also with transactions waiting: all are ordered, none is left waiting, and the chain grows by one replayable block of what was accepted or not at all |
| NodeRuns.OutcomeIsFirst | ducp-node/src/lib.rs:133-147 | the reported outcome is that of the first result under the id, and invalid without one |
| NodeRuns.ResolutionAtomic | ducp-node/src/lib.rs:155-200 | on every interleaving, finishing a resolution has the effect of one done all at once now, or two uploaded byte strings share a content id |
| NodeRuns.FinishSlashesIff | ducp-node/src/lib.rs:178-199 | an open challenge slashes its task if and only if re-executing the committed content differs from the proof |
| NodeRuns.ResolvedOnce | ducp-node/src/lib.rs:189-199 | of two threads racing to resolve one challenge, the second to finish leaves the ledger as it is |
| NodeRuns.CanStartIff | ducp-node/src/lib.rs:155-176 | on every interleaving, a resolution can start if and only if the task has settled and both committed contents were uploaded; an open challenge is not asked for |
| NodeRuns.IdleResolution | ducp-node/src/lib.rs:189-199 | without an open challenge the verdict is reported all the same, the ledger stays as it is and one more block is sealed |
| NodeRuns.ChallengedReleasedIff | crates/ledger/src/lib.rs:404-417 | on every interleaving, a task under challenge is released if and only if its window has closed |
| NodeRuns.HonestTaskNeverSlashed | ducp-node/src/lib.rs:178-199 | on every interleaving, a task whose proof is what executing some program and input under the committed ids reports is not slashed, unless an uploaded byte string collides with one of those two |
| NodeRuns.HonestNeverSlashed | ducp-node/src/lib.rs:178-199 | on every interleaving, a provider none of whose proofs differs from a re-execution of uploaded content has no slashed task and no strike |
| NodeRuns.MoveOk | ducp-node/src/lib.rs:124-214 | every critical section of every thread keeps the node's invariant |
| NodeRuns.FraudPendingIff | crates/ledger/src/lib.rs:456-524 | a direct fraud verdict keeps open challenges on settled tasks if and only if its task is not under challenge |
| NodeRuns.StepPending | crates/ledger/src/lib.rs:530-552 | all else keeps open challenges on settled, unslashed tasks |
| NodeRuns.BlocksByHeight | ducp-node/src/lib.rs:276-282 | every height up to the head has its block and no other has one |
| NodeCode.Node.BlockTxsAt | ducp-node/src/lib.rs:284-290 | the transactions of a height, none for zero or beyond the head |
| NodeRuns.ReachableProposer | ducp-node/src/lib.rs:67-75 | on every interleaving each block names the node's proposer |
| NodeRuns.MoveAppends | ducp-node/src/lib.rs:124-214 | a critical section either leaves state and blocks alone or appends one block that closes with the root and epoch of the new state |
| NodeRuns.BlockHistory | ducp-node/src/lib.rs:124-214 | every block of the chain closed with the root and epoch of the state the node was in when it was the newest, and has stayed where it was |
| NodeRuns.UploadEffect | ducp-node/src/lib.rs:292-297 | an upload can be read back under its content id and touches nothing else |
| NodeRuns.TicketContents | ducp-node/src/lib.rs:155-176 | what a resolution copies is what is stored under the ids the task's body commits to |
| NodeRuns.ThreadEffect | ducp-node/src/lib.rs:155-200 | resolutions of different threads do not disturb each other: a thread finishes once per start and holds what it gathered until then |
| NodeRuns.NodeIsRun | ducp-node/src/lib.rs:124-214 | every interleaving is a run of the ledger without direct fraud verdicts, and the blocks hold exactly its accepted transactions |
| NodeRuns.NodeNeverRepeats | ducp-node/src/lib.rs:124-148 | no transaction sits in the node's blocks twice |
| Vectors.HappyPath | test-vectors/settlement/happy_path.json:1-38 | the whole state after a settlement under the devnet parameters has the published numbers |
| Vectors.Finality | test-vectors/settlement/finality.json:1-21 | 32 boundaries later the stake is back, the task released and the receipt unchanged |
| Vectors.QuietBoundaries | crates/ledger/src/lib.rs:395-432 | until a window closes, boundaries change the epoch and Standing alone |
| Vectors.ForgedProof | test-vectors/fraud/challenge.json:1-33 | a forged proof, challenged and proven, leaves the published balances, bonds, Standing, strikes, burn and fee pool |
| Vectors.MeteredWork | test-vectors/metering/cases.json:1-23 | the published prices of the reference workload and of an empty echo |
| Counterexamples.BondsNotExact | crates/ledger/src/lib.rs:478-503 | exact bonds with a payment of 1000 and a bond of 500 are not exact after a direct verdict |
| Counterexamples.BondsExactThroughFraud | crates/ledger/src/lib.rs:530-542 | a provider that challenged itself keeps exact bonds through a proven challenge, with payment and bond both positive |
| Counterexamples.ReleasedAndSlashed | crates/ledger/src/lib.rs:530-542 | a task whose stake was released is slashed |
| Counterexamples.ReleasedUnderChallenge | crates/ledger/src/lib.rs:404-428 | a task challenged within its window is released by the next boundary while the challenge is open |
| Counterexamples.PendingNotSettled | crates/ledger/src/lib.rs:518-521 | a direct verdict leaves an open challenge on a failed task |
| Counterexamples.UnclaimedTask | crates/ledger/src/lib.rs:186-192 | a reached state in which a task has outlived its deadline unclaimed |
| Counterexamples.OverdueAtOnce | crates/ledger/src/lib.rs:288-289 | a settlement that is overdue under a window of no epochs |
| Counterexamples.SealedNotReplayed | crates/consensus/src/lib.rs:105-117 | a sealed boundary that a replica rejects |
| Counterexamples.DecayNotFloor | crates/governance/src/lib.rs:138-142 | a Standing of -1 decays to 0 where the floor is -1 |
| Counterexamples.FeeOverflows | crates/ledger/src/lib.rs:152-154 | the largest ceiling overflows the fee under the devnet parameters |
| Counterexamples.CeilingNotLargest | crates/dvm/src/lib.rs:78-82 | a ceiling whose product wraps to zero |
| Counterexamples.FailureImitated | crates/dvm/src/lib.rs:129-136 | a trap and a success with one result hash, whatever the hash function |
| Counterexamples.WrongOutputAccepted | crates/verification/src/lib.rs:85-92 | an accepted proof that declares an output id of its own choice |
| Counterexamples.HonestElsewhere | ducp-node/src/lib.rs:178-187 | honest work under a version with twice the rate, ruled fraud |

## Left out

- Machine integers in `Ledger`, `Consensus` and `NodeCode`: these count with unbounded integers, so that an underflow would show as a negative pot; `MachineSpec` has the checked widths, `Machine` proves when no check fails and `Widths` that one that does not fail makes no difference. An overflow is an error value in `MachineSpec`; what a release build would wrap to is modelled for the fuel conversions only.
- Machine.RunRefines: assumes minted currency at most 2^128/(2·10^6), Standing at most 2^127/10^6, submitted ceilings at most the first bound and counters short of their ends; Standing is not bounded by the other amounts, because decay may be zero and Standing then only grows.
- Runs.ReachableExactBonds: for runs without a fraud verdict, because it is false of the others; `Bonds.FraudShortfall` says by how much.
- Runs.ReachableReleases: for windows of at least one epoch, because it is false of a zero window; `Books.ProveTimelyIff` says so.
- NodeRuns.ResolutionAtomic: up to two uploaded byte strings with one content id, because blobs are addressed by their hash and the later upload wins.
- NodeCode.Node.ResolvePendingChallenge: the method is one thread with nobody in between; interleavings are `NodeSpec.Move` and the theorems of `NodeRuns`. The lock itself is taken as given.
- Identifiers are the numbers their 32 bytes spell little endian; `Codec` says when a number fits. The order in which a `BTreeMap` is walked is left open, which covers every order.
- The byte form of `State` and with it the inside of `state_root`: an uninterpreted function.
- Wasmtime, module validation and the host functions a guest calls: the engine is a function from program, input, fuel and memory limit to a trace.
- BLAKE3, Ed25519, key generation.
- `meter` and `measure_fuel`, and the calibration that runs the reference workload: advisory, and the benchmark is a parameter.
- JSON-RPC, views, error codes, hex and decimal wire forms, the worker and the command line.
- TEE and ZK verifiers, energy attestors, `is_sampled`, `select_reexecutor`, `sealed_q_floor`, `IrRegistry`, `StaticParams`: reserved, or not wired into the ledger or the node.
- `ducp-types` has rejections the modelled code never returns (unknown account, unsupported feature); `Reject` has the ones it does.
- Storage is the in-memory one; other back ends and `load` at start-up are not part of this model.
