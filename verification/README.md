# Verified model of the property-chain contracts

A Dafny model of the stateful cores of a set of ink! smart contracts, with proofs of the global invariants their
state is meant to keep. `dafny verify dfyconfig.toml` checks everything.

| files | what they model |
|---|---|
| `Machine`, `MapSum` | integer widths, message outcomes; sums over storage mappings |
| `StakingDashboard`, `StakingProofs`, `StakingRefinement`, `StakingHistory` | the reward-per-token staking accumulator |
| `SignatureBitmap`, `BridgeTypes`, `StatusTracker`, `BridgeMessages`, `BridgeInvariant`, `BridgeRuns`, `BridgeStatus`, `BridgeTracking`, `BridgeTerms`, `BridgeRefusals`, `BridgeExamples`, `BridgeLimits`, `PropertyBridge` | the cross-chain bridge: signer bitmaps over validator slots, the multi-hop request lifecycle, the per-leg status tracker |
| `RateLimits` | the bridge's daily request and volume ledgers |
| `RequestCodec`, `Utf8Text`, `LegacyCodec` | the versioned encoding of stored bridge requests; what becomes of the legacy one |
| `ComplianceRegistry`, `KycFunnel`, `KycVerdicts`, `KycDecisions`, `ComplianceGate`, `ComplianceContract` | the KYC registry: funnel counters, the compliance record, the gate |
| `Crowdfunding`, `FundingProofs`, `FundingExamples`, `FundingTerms` | investments, share trading, refunds, payouts |
| `ValidatorStaking`, `TransactionCache`, `AuditTrail` | slashing ledger, transaction cache, audit index |

## How the model is built

Each contract has a record of its storage, and for every message a function that says what the message leaves behind.
The contract itself is a class whose fields are the storage items and whose methods follow the source statement by
statement; each method is proved to do what the function says, on success and on every error path. A long method may
be split at a natural joint into two or three. Invariants, refinements and run properties are lemmas about the
functions, over runs that may contain any messages, failing ones included, in any order. For the main messages one
result says exactly when they succeed, where it can in terms of the history alone, and another what they move, in terms
of its own.

- Integers have the source's widths. The workspace turns overflow checks on (`Cargo.toml:54`), so a plain operation
  that leaves its width traps; saturating and checked operations are written out.
- ink! discards the writes of a message that traps or returns `Err`. Where a method has written before it fails
  (`distribute_reward`, the rate limiter, `buy_shares`, the slashing ledger), its contract pins the error and the
  run semantics drops the state. The compliance registry writes deliberately on its error path, so there the
  functions give the state left behind as well, and the counter results hold whether it is kept or dropped.
- Runs start from a newly deployed contract. The bridge's vote, threshold, execution and slot results start from any
  sound store, one that still holds requests in the legacy format included.
- The caller, block number and timestamp are parameters. Account identifiers and hashes are opaque numbers.

## What was found

These are facts about the code as it is. Each comes as the exact condition under which the expected property holds,
and an input or a run from the initial state that violates it.

- What was decided about a request before plays no part in voting: it becomes locked exactly by an approving vote that
  meets its threshold (`LocksExactly`), and then it can be executed (`ReopensExactly`). So a completed request can be
  executed again (`ExecutedTwice`, which attains the bound of `ExecutionsAreBounded`), and the `Failed` state after a
  rollback, called terminal in a comment, is not (`RolledBackThenLocked`). Until such a vote neither is executable
  (`UnlockedUntilVoted`), and a completed one stays completed, on every run, until somebody votes (`CompletedUntilVoted`).
- No message ever stores that a request expired (`StatusesReached`). So a request whose time ran out takes no vote, and
  since recovery asks for a failed or expired one, it is not recovered either; only a rollback moves it
  (`ExpiredIsNotRecovered`, `InterventionsOnRuns`, `TimeRunsOut`).
- A rejecting vote counts towards the threshold like an approving one. The k-th execution since the votes were last
  cleared has at least k standing approvals (`ExecutionsArePaid`, `ExecutionsAreApproved`), whatever the threshold; a
  first one may have a single approval where two signatures are required (`ExecutedOnOneApproval`). The approvals reach
  the threshold exactly when the signers left over cover the rejections (`ApprovalsReachThreshold`).
- A full bitmap of 256 signatures counts as zero (`CountIsExact`, `FullCountsZero`). So a locked request that the last
  of 256 slots signs as well stays locked and can no longer be executed (`LastSlotBlocks`, and from deployment
  `UnanimityBlocks`); an execution succeeds exactly on locked requests that fewer accounts have signed, unless no
  signature is required (`ExecutesExactlyWhenLocked`).
- A legacy list can be migrated exactly when each signer has a slot or is a validator, and the slots that are missing
  are free (`CollectSucceeds`). A request that lists a former validator without a slot is stranded exactly
  until that account is added again, and meanwhile refuses every vote, execution, recovery and rollback
  (`StrandedUntilJoined`, `FormerValidatorStrands`).
- A rollback that finds both legs confirmed reports `Failed` overall although the legs say otherwise, and only then do
  the two disagree (`OverallAgreesOnRuns`, `RolledBackTooLate`). A tracker whose two chains coincide need not follow
  its own log (`LogAgreesExactly`, `HomeToHome`); they coincide exactly when the request's current hop goes to the
  chain it comes from (`SnapshotsFollowRoutes`).
- The legacy format can be misread when its signer list has an ambiguous length: zero, or 64k for k up to 255, unless
  k is three modulo four and not three itself. At each of these lengths some request decodes to another one; at every
  other length all survive (`LegacyListsExactly`). For each of them the shortest misread request is known to the byte
  (`LegacyListsWithin`): within sixteen kilobytes only 0, 64, 256 and 320 signers are at risk
  (`LegacyListsWithin16K`). One without signers can come back with signatures nobody gave (`UnsignedLegacyMisread`).
- The saturating product in `compute_earned` costs a staker a unit or more exactly when, in whole units, it exceeds what
  128 bits hold scaled (`ReadsWithinAUnitExactly`), and accepted messages reach that: of 400 units of 10^18
  distributed to a sole staker about 340 are credited (`WindfallIsLost`).
- The contract counts a refused verification and then returns the error, with which the runtime discards the count. So
  on chain no refusal is ever counted, and the verification rate is the whole whatever was refused
  (`CountersAreVerdicts`, `RefusalsAreLost`, `OneRefusal`).
- That a jurisdiction requires a biometric method is stored and decides nothing: low risk and a strong document do
  without one where it is required (`BiometricRuleIsIdle`, `AcceptedAtDeployment`, `VerifiedWithoutBiometric`).
- Activation, documented as a step from draft, is possible from every status (`StatusChangesExactly`). So the creator of
  a cancelled campaign can end its refunds (`RefundsExactly`, `ActivationEndsRefunds`, `RefundEnded`).
- Shares listed twice and sold twice create supply: the seller's balance saturates at zero while the buyer is credited
  in full (`TradeSupply`, `SoldTwice`). Refunds leave the shares in place (`BackedAfterRefundsExactly`,
  `RefundedAndStillHeld`).
- What an account invests after it was refunded is never returned to it: refunds can return all a campaign raised
  exactly when nobody does so (`RaisedIsAccounted`, `RefundedButNotAgain`).
- Payouts stay within every profit exactly when a campaign raised no more than its target, and it can raise more
  (`PayoutsWithinProfitExactly`, `PaidBeyondProfit`).
- The investor list repeats an account exactly when it invests again while its entry holds nothing
  (`InvestorsDistinctExactly`, `ListedTwice`).
- Invalidating a dirty cache entry loses the write it holds (`DropLosesDirtyValues`, `WriteThenDrop`).
- The accounts' daily volumes saturate where the chains' cannot, so the two ledgers agree exactly while no account
  outgrows its counter (`LedgersAgree`, `AccountOutgrows`).

## Model

| member | source | states |
|---|---|---|
| `StakingDashboard.Dashboard.RecordStake` | contracts/analytics/src/staking_dashboard.rs:165-203 | staking settles first, then raises balance, total and, for a first stake, the staker count; every error leaves the state as it was |
| `StakingDashboard.Dashboard.RecordUnstake` | contracts/analytics/src/staking_dashboard.rs:211-250 | unstaking checks amount, balance and lock-up in that order, settles, then lowers balance, total and count |
| `StakingDashboard.Dashboard.ClaimRewards` | contracts/analytics/src/staking_dashboard.rs:256-270 | a claim pays exactly what is settled and zeroes it, or fails with nothing to claim |
| `StakingDashboard.Dashboard.DistributeReward` | contracts/analytics/src/staking_dashboard.rs:276-309 | a distribution moves the accumulator by the floored scaled quotient; on an error only the accumulator and the distributed total can have moved |
| `StakingDashboard.Dashboard.SettleRewards` | contracts/analytics/src/staking_dashboard.rs:328-331 | settling credits what is earned against the current accumulator and moves the checkpoint there |
| `StakingDashboard.Dashboard.GetStats` | contracts/analytics/src/staking_dashboard.rs:128-141 | the statistics repeat the totals, and the average stake is the floor of total over stakers, or zero without any |
| `StakingProofs.EarnedBounds` | contracts/analytics/src/staking_dashboard.rs:314-324 | settling never credits more than balance times rate difference plus pending, saturated or not, and falls short by less than one unit exactly when saturation costs none |
| `StakingProofs.WriteBack` | contracts/analytics/src/staking_dashboard.rs:328-331 | writing back one settled record keeps the whole invariant when the totals follow it |
| `StakingProofs.StakeKeepsInv` | contracts/analytics/src/staking_dashboard.rs:165-203 | a stake keeps totals equal to sums and debts covered, and returns the raised balance |
| `StakingProofs.UnstakeKeepsInv` | contracts/analytics/src/staking_dashboard.rs:211-250 | so does an unstake, whose two saturating subtractions never saturate |
| `StakingProofs.ClaimKeepsInv` | contracts/analytics/src/staking_dashboard.rs:256-270 | so does a claim, which pays exactly the pending rewards and whose saturating subtraction never saturates |
| `StakingProofs.DeltaBounds` | contracts/analytics/src/staking_dashboard.rs:287-291 | total staked times the delta is at most the scaled amount, and the next delta would exceed it |
| `StakingProofs.RateStep` | contracts/analytics/src/staking_dashboard.rs:293-296 | raising the accumulator by a delta raises the sum of all debts by delta times the sum of balances |
| `StakingProofs.DistributeKeepsInv` | contracts/analytics/src/staking_dashboard.rs:276-309 | a distribution never promises more than it adds to the holdings |
| `StakingProofs.RecordWithinTotals` | contracts/analytics/src/staking_dashboard.rs:236-244 | in a consistent state no record exceeds the totals, and no staker's pending rewards exceed what is unclaimed |
| `StakingProofs.LossIsFromTheProduct` | contracts/analytics/src/staking_dashboard.rs:314-324 | in a consistent state only the saturating product can cost a unit, and only while more is unclaimed than 128 bits hold scaled |
| `StakingProofs.Reachable` | contracts/analytics/src/staking_dashboard.rs:165-331 | the invariant holds after every run of messages |
| `StakingProofs.Solvency` | contracts/analytics/src/staking_dashboard.rs:256-331 | after every run the scaled debts, and the pending rewards of all stakers together, are covered by the unclaimed rewards |
| `StakingRefinement.Conservation` | contracts/analytics/src/staking_dashboard.rs:189-309 | everything distributed is unclaimed or was claimed; the total is the sum of balances and the count is the number of non-zero ones |
| `StakingRefinement.NeverOverpaid` | contracts/analytics/src/staking_dashboard.rs:314-331 | on every run a staker's claimed and pending rewards stay within what a loop over stakers would have credited |
| `StakingRefinement.RefinesLoop` | contracts/analytics/src/staking_dashboard.rs:165-331 | where saturation costs no unit they miss it by less than one unit per settlement and one on reading |
| `StakingRefinement.FittingRunsDoNotSaturate` | contracts/analytics/src/staking_dashboard.rs:314-324 | while the scaled total ever distributed fits in 128 bits nothing in `compute_earned` saturates, for any account at any point of the run |
| `StakingRefinement.ReadsWithinAUnitExactly` | contracts/analytics/src/staking_dashboard.rs:314-324 | after any run a staker's pending rewards are less than a unit below what is owed exactly when the unsettled product, in whole units, fits scaled into 128 bits |
| `StakingRefinement.WindfallIsLost` | contracts/analytics/src/staking_dashboard.rs:276-324 | a run of accepted messages after which a sole staker is credited 340282366920938463463 of 400000000000000000000 distributed |
| `StakingRefinement.AccrualTracksFairShare` | contracts/analytics/src/staking_dashboard.rs:286-296 | the loop's credit is the exact rational pro-rata share up to one scaled unit per token and distribution |
| `StakingRefinement.NeverAboveFairShare` | contracts/analytics/src/staking_dashboard.rs:165-331 | no staker is ever credited more than the exact pro-rata share of what was distributed |
| `StakingRefinement.CloseToFairShare` | contracts/analytics/src/staking_dashboard.rs:165-331 | nor, where saturation costs no unit, less than it by more than the floors account for |
| `StakingRefinement.LockHonoured` | contracts/analytics/src/staking_dashboard.rs:211-231 | an unstake succeeds exactly when the amount is held and the lock counted from the account's latest successful stake is over |
| `StakingHistory.StateIsHistory` | contracts/analytics/src/staking_dashboard.rs:165-309 | after any run balances, the total staked and the amount distributed are what the successful messages moved |
| `StakingHistory.StakesExactly` | contracts/analytics/src/staking_dashboard.rs:165-203 | a stake succeeds exactly if it is positive, all stakes fit with it and a newcomer can be counted; the check of the account's own balance never decides |
| `StakingHistory.NoStakeNoBalance` | contracts/analytics/src/staking_dashboard.rs:211-220 | an account that never staked has nothing to unstake |
| `StakingHistory.DistributesExactly` | contracts/analytics/src/staking_dashboard.rs:276-309 | a distribution succeeds exactly if it is positive and, with any stake, its scaled amount, the accumulator and all ever distributed fit; without a stake it changes nothing |
| `StakingHistory.ClaimsWhenOwed` | contracts/analytics/src/staking_dashboard.rs:256-270 | a claim succeeds exactly when a whole unit is owed, saturated or not, and pays what is pending |
| `StakingHistory.ClaimsFollowTheLoop` | contracts/analytics/src/staking_dashboard.rs:256-331 | on any run, a staker who lost no unit to saturation can claim once the loop's credit exceeds the claims by a unit and one per settlement, and nobody can while it does not exceed them by one |
| `StakingHistory.ClaimsOnce` | contracts/analytics/src/staking_dashboard.rs:256-270 | after a claim there is nothing to claim, and the stake is where it was |
| `StakingHistory.StakersCanClaim` | contracts/analytics/src/staking_dashboard.rs:256-270 | a run in which an account that still holds its stake claims what was distributed |
| `StakingHistory.RefusalsExactly` | contracts/analytics/src/staking_dashboard.rs:165-309 | each reason for refusing a message is returned exactly in the cases named, told from the history |
| `SignatureBitmap.MaskIsShift` | contracts/bridge/src/lib.rs:2966-2976 | the mask table is one shifted left |
| `SignatureBitmap.HasAfterSet` | contracts/bridge/src/lib.rs:2966-2976 | setting a bit sets that bit and no other |
| `SignatureBitmap.PopCountIsCardinality` | contracts/bridge/src/lib.rs:259-267 | the byte-wise population count is the number of set positions |
| `SignatureBitmap.SetRaisesPopCount` | contracts/bridge/src/lib.rs:2972-2976 | setting an absent bit raises the population count by exactly one, setting a present one leaves it |
| `SignatureBitmap.CountIsExact` | contracts/bridge/src/lib.rs:259-267 | the one-byte count is right exactly when fewer than 256 bits are set, and zero when all are |
| `SignatureBitmap.FullCountsZero` | contracts/bridge/src/lib.rs:259-267 | with all 256 signatures given the count is zero |
| `SignatureBitmap.AssignKeepsSlots` | contracts/bridge/src/lib.rs:2978-2991 | assigning keeps slots and positions inverse to each other, moves nobody, and gives the validator the returned position |
| `SignatureBitmap.GrowthKeepsSigners` | contracts/bridge/src/lib.rs:2978-2991 | a registry that only grew reads every old bitmap as the same accounts |
| `SignatureBitmap.SetAddsSigner` | contracts/bridge/src/lib.rs:3082-3104 | setting a validator's bit adds that account to the signers and nobody else |
| `SignatureBitmap.SignersCounted` | contracts/bridge/src/lib.rs:259-267 | a bitmap within assigned slots stands for as many accounts as it has bits |
| `SignatureBitmap.SignerListIsExact` | contracts/bridge/src/lib.rs:3036-3051 | the signer list names every signer once, nobody else, and is as long as the population count |
| `SignatureBitmap.CollectKeepsSigners` | contracts/bridge/src/lib.rs:3061-3066 | the bitmap built from a legacy list stands for exactly the listed accounts, over a registry that only grew |
| `SignatureBitmap.CollectSucceeds` | contracts/bridge/src/lib.rs:2993-3003 | building it succeeds exactly when every signer has a slot or is a validator and the missing slots are free, and then places exactly those |
| `SignatureBitmap.PlacedSignersMigrate` | contracts/bridge/src/lib.rs:2993-3003 | where every validator has a slot, it succeeds exactly when every signer has one, and assigns nothing |
| `SignatureBitmap.NormalizeKeepsSigners` | contracts/bridge/src/lib.rs:3053-3068 | normalizing either format keeps exactly the set of signers |
| `StatusTracker.LogAlwaysAgrees` | contracts/bridge/src/lib.rs:3232-3407 | with different chains, after any events each leg's snapshot is the last log entry for its chain, or the untouched record |
| `StatusTracker.LogAgreesExactly` | contracts/bridge/src/lib.rs:3232-3407 | it is so on every run exactly when the chains differ |
| `StatusTracker.LogOnlyGrows` | contracts/bridge/src/lib.rs:2711-2788 | the log is append-only |
| `StatusTracker.ReportsMoveForward` | contracts/bridge/src/lib.rs:3701-3717 | along any run of relayer reports both legs only move forward, and confirmed and failed are absorbing |
| `StatusTracker.OverallAgreesExactly` | contracts/bridge/src/lib.rs:3721-3735 | after any run the aggregate is the one computed from the legs, except exactly when the last effective event was a rollback that found both confirmed |
| `StatusTracker.AggregateSaysLegs` | contracts/bridge/src/lib.rs:3721-3735 | an aggregate computed from the legs is completed exactly if both are confirmed, failed exactly if one failed, pending exactly while the destination was not heard of and the source is submitted or confirming, and in transit otherwise |
| `StatusTracker.OverallSaysLegs` | contracts/bridge/src/lib.rs:3232-3407 | so it is after any events, unless a rollback overruled it: then it is failed and both legs are confirmed |
| `StatusTracker.ReportsExactly` | contracts/bridge/src/lib.rs:3701-3717 | a report is accepted exactly for a chain of the tracker and a status its leg may come to: the same again, one further from where it was, or failed before it is confirmed |
| `StatusTracker.EventMoves` | contracts/bridge/src/lib.rs:3291-3407 | what an execution, a rollback or a report makes of both legs, of the log and of the clock |
| `StatusTracker.DeliveredIsCompleted` | contracts/bridge/src/lib.rs:3721-3735 | reports that confirm the source, then submit and confirm the destination, complete the transfer |
| `PropertyBridge.Contract.constructor` | contracts/bridge/src/lib.rs:787-878 | a new bridge has no validators, slots, requests or trackers, and its deployer is admin and operator |
| `PropertyBridge.Contract.AssignValidatorBitPosition` | contracts/bridge/src/lib.rs:2978-2991 | an existing position is returned, otherwise the next free slot is taken, up to 256 |
| `PropertyBridge.Contract.GetValidatorBitPosition` | contracts/bridge/src/lib.rs:2993-3003 | an account without a position gets one only if it is a validator |
| `PropertyBridge.Contract.NormalizeSignatureStorage` | contracts/bridge/src/lib.rs:3053-3068 | the loop over a legacy list computes the bitmap and the registry of `Normalize`, and fails on the first signer that has no place |
| `PropertyBridge.Contract.SignerListForRequest` | contracts/bridge/src/lib.rs:3036-3051 | the filtered enumeration of slots is the signer list; a legacy list is returned as it is |
| `PropertyBridge.Contract.AddValidator` | contracts/bridge/src/lib.rs:1800-1810 | adding is for the admin, idempotent, and assigns a slot |
| `PropertyBridge.Contract.RemoveValidator` | contracts/bridge/src/lib.rs:1814-1820 | removing is for the admin and leaves slots alone |
| `PropertyBridge.Contract.InitCrossChainStatus` | contracts/bridge/src/lib.rs:3232-3286 | a fresh tracker: source submitted, destination not started, one log entry |
| `PropertyBridge.Contract.AdvanceCrossChainStatusOnExecute` | contracts/bridge/src/lib.rs:3291-3348 | source confirmed with the hash, destination submitted, both logged in that order; nothing without a tracker |
| `PropertyBridge.Contract.FailCrossChainStatus` | contracts/bridge/src/lib.rs:3352-3407 | every leg not confirmed fails and is logged, keeping its hash and confirmations; overall failed |
| `PropertyBridge.Contract.ReportOn` | contracts/bridge/src/lib.rs:2731-2768 | a report replaces one leg's snapshot and is logged, if the chain fits and the transition is allowed |
| `PropertyBridge.Contract.UpdateChainTxStatus` | contracts/bridge/src/lib.rs:2711-2788 | only the admin and operators report, on known requests |
| `PropertyBridge.Contract.CreateRequest` | contracts/bridge/src/lib.rs:926-956 | both initiations end alike: next id, unsigned pending request from the home chain, fresh tracker |
| `PropertyBridge.Contract.InitiateBridgeMultisig` | contracts/bridge/src/lib.rs:882-967 | initiation checks pause, chain, signature range, rate limit and freeze in that order |
| `PropertyBridge.Contract.InitiateMultiHopBridge` | contracts/bridge/src/lib.rs:971-1050 | a route has at least two supported chains and does not start at home |
| `PropertyBridge.Contract.SignBridgeRequest` | contracts/bridge/src/lib.rs:1079-1136 | a vote normalizes, sets the caller's bit once, and locks at the threshold or fails the request |
| `PropertyBridge.Contract.HopRequest` | contracts/bridge/src/lib.rs:1239-1251 | the last hop completes the request, any other moves it one hop along its route and clears its votes |
| `PropertyBridge.Contract.MoveTracker` | contracts/bridge/src/lib.rs:1266-1281 | the tracker advances for the hop made and starts afresh for the next |
| `PropertyBridge.Contract.ExecuteBridge` | contracts/bridge/src/lib.rs:1183-1295 | execution checks pause, operator, existence, lock, count, travel rule and freeze in that order, then hops |
| `PropertyBridge.Contract.RecoverFailedBridge` | contracts/bridge/src/lib.rs:1299-1357 | recovery of failed or expired requests; only a retry clears the votes |
| `PropertyBridge.Contract.RollbackBridgeTransaction` | contracts/bridge/src/lib.rs:1455-1515 | a rollback clears the votes, fails the request and its tracker, and refuses completed requests |
| `SignatureBitmap.CollectFailsEarly` | contracts/bridge/src/lib.rs:3061-3066 | a signer that cannot be placed spoils the whole migration, whatever follows it |
| `BridgeInvariant.SignEffect` | contracts/bridge/src/lib.rs:1079-1136 | a vote adds exactly the voter, a validator that had not voted, and changes no other request or tracker; a legacy list becomes a bitmap, for which slots may be added |
| `BridgeInvariant.GrowthKeepsRequest` | contracts/bridge/src/lib.rs:2978-2991 | a request of either format has the same signers in a registry that only grew |
| `BridgeInvariant.ExecuteEffect` | contracts/bridge/src/lib.rs:1183-1295 | an execution finds enough distinct signers, changes nothing but the request, by one hop, and its tracker, and keeps the signers on the last hop only |
| `BridgeInvariant.NewRequestKeepsInv` | contracts/bridge/src/lib.rs:926-956 | a new request has a fresh id, no signers, and stands on its route |
| `BridgeInvariant.AddValidatorKeepsInv` | contracts/bridge/src/lib.rs:1800-1810 | adding a validator changes no request's signers and moves no slot |
| `BridgeInvariant.RecoverEffect` | contracts/bridge/src/lib.rs:1299-1357 | recovery leaves the request pending, failed or expired, clears its signers on a retry and keeps them otherwise |
| `BridgeInvariant.RollbackEffect` | contracts/bridge/src/lib.rs:1455-1515 | a rollback leaves no signers and a failed request, and changes no other request |
| `BridgeInvariant.RollbackKeepsInv` | contracts/bridge/src/lib.rs:1455-1515 | a rollback keeps the invariant, its tracker in step with its log |
| `BridgeInvariant.NextKeepsInv` | contracts/bridge/src/lib.rs:882-1515 | every message keeps slots inverse, set bits assigned, requests on their routes, locked requests signed, and trackers in step with request, log and aggregate status, in stores with legacy requests too |
| `BridgeInvariant.Reachable` | contracts/bridge/src/lib.rs:882-1515 | the invariant holds after every run from any sound store, newly deployed or with legacy requests |
| `BridgeRuns.TargetVotes` | contracts/bridge/src/lib.rs:1079-1515 | what each message does to the signers of the request it names |
| `BridgeRuns.OtherCall` | contracts/bridge/src/lib.rs:882-1515 | no message touches a request it does not name, nor its signers |
| `BridgeRuns.SignersAreStandingVotes` | contracts/bridge/src/lib.rs:1079-1357 | a request's signers are exactly the accounts that voted on it, while validators, since its votes were last cleared, once each, and those a legacy store already counted |
| `BridgeRuns.ExecutionsAreBacked` | contracts/bridge/src/lib.rs:1183-1295 | every successful execution is preceded by standing votes of either kind of at least the required number of distinct accounts, counting those a legacy store already held |
| `BridgeRuns.SignersSplit` | contracts/bridge/src/lib.rs:1079-1136 | since deployment the signers are the approving and the rejecting voters, without overlap |
| `BridgeRuns.ApprovalsReachThreshold` | contracts/bridge/src/lib.rs:1112-1118 | the approvals reach the threshold exactly when the rejections are at most the signers in excess of it |
| `BridgeRuns.ExecutionsArePaid` | contracts/bridge/src/lib.rs:1079-1357 | since deployment the executions since the votes were last cleared, and one more if the request is locked again, are at most the standing approvals |
| `BridgeRuns.LockedHasApproval` | contracts/bridge/src/lib.rs:1112-1118 | a locked request has one standing approval more than it was executed since its votes were last cleared |
| `BridgeRuns.ExecutionsAreApproved` | contracts/bridge/src/lib.rs:1183-1295 | the k-th execution since the votes were last cleared finds at least k standing approvals |
| `BridgeExamples.ExecutedOnOneApproval` | contracts/bridge/src/lib.rs:1079-1295 | a run in which a request that requires two signatures is executed with one approval and one rejection |
| `BridgeRuns.LockedMeansThreshold` | contracts/bridge/src/lib.rs:1112-1118 | a locked request always has enough signers, and the count of its bitmap is their number exactly when they are fewer than 256 |
| `BridgeRuns.OnlyBitmaps` | contracts/bridge/src/lib.rs:225-257 | since deployment every request is stored as a bitmap |
| `BridgeRuns.ExecutionsAreBounded` | contracts/bridge/src/lib.rs:1183-1295 | since the votes were last cleared a request was executed at most signers minus required plus one times, and never below the threshold |
| `BridgeExamples.ExecutedTwice` | contracts/bridge/src/lib.rs:1079-1295 | a run from deployment in which that bound is attained by executing one request twice |
| `BridgeRuns.ExecutesExactlyWhenLocked` | contracts/bridge/src/lib.rs:1202-1211 | an execution succeeds exactly if nothing obstructs it and the request is locked, its signatures can be normalized and fewer than 256 accounts have signed, or none is required: the threshold itself never decides there |
| `BridgeRuns.VotesAcceptedExactly` | contracts/bridge/src/lib.rs:1079-1108 | a vote is accepted exactly from a validator that is not a signer yet, in time, where signatures and slot can be had; the status plays no part |
| `BridgeRefusals.VoteRefusals` | contracts/bridge/src/lib.rs:1079-1110 | since deployment each reason for refusing a vote is returned exactly in the cases named; slots are never one |
| `BridgeRefusals.ExecutionRefusals` | contracts/bridge/src/lib.rs:1183-1232 | since deployment each reason for refusing an execution is returned exactly in the cases named |
| `BridgeRefusals.MigrationRefusals` | contracts/bridge/src/lib.rs:2993-3066 | the first signer in a legacy list that has no place decides why the request is refused: for its role, or for want of a slot |
| `BridgeRefusals.InitiationRefusals` | contracts/bridge/src/lib.rs:882-1030 | the order in which an initiation is refused |
| `BridgeRefusals.InterventionRefusals` | contracts/bridge/src/lib.rs:1299-1480 | the order in which a rollback or recovery is refused since deployment |
| `BridgeRefusals.ReportRefusals` | contracts/bridge/src/lib.rs:2711-2768 | each reason for refusing a report is returned exactly in the cases named |
| `BridgeRuns.LocksExactly` | contracts/bridge/src/lib.rs:1079-1357 | a request that is not locked becomes locked exactly by an approving vote whose one-byte count meets its threshold: enough signers with it, and fewer than 256, or none required |
| `BridgeRuns.UnlockedUntilVoted` | contracts/bridge/src/lib.rs:1079-1357 | until such a vote a completed, rolled back or otherwise unlocked request stays unlocked and cannot be executed |
| `BridgeRuns.ReopensExactly` | contracts/bridge/src/lib.rs:1079-1295 | a request that is not locked refuses execution; after a vote any request executes exactly when that vote approves and its one-byte count meets the threshold |
| `BridgeStatus.StatusStep` | contracts/bridge/src/lib.rs:1079-1515 | from which status each message may move a request, and to which one it does |
| `BridgeStatus.HopStatusStep` | contracts/bridge/src/lib.rs:1079-1515 | the same for the hop status |
| `BridgeStatus.CompletedStays` | contracts/bridge/src/lib.rs:1473-1476 | nothing but a vote moves a completed request: execution, recovery and rollback are refused |
| `BridgeStatus.CompletedUntilVoted` | contracts/bridge/src/lib.rs:1079-1515 | on any run a completed request stays completed until a vote on it succeeds |
| `BridgeStatus.StatusesReached` | contracts/bridge/src/lib.rs:1079-1515 | since deployment a request is pending, locked, completed or failed, and never anything else |
| `BridgeStatus.InterventionsExactly` | contracts/bridge/src/lib.rs:1299-1490 | exactly when a rollback and a recovery succeed, in any sound store |
| `BridgeStatus.InterventionsOnRuns` | contracts/bridge/src/lib.rs:1299-1490 | since deployment the admin can roll back exactly the requests that are not completed and recover exactly the failed ones |
| `BridgeStatus.ValidatorsAreAppointed` | contracts/bridge/src/lib.rs:1800-1820 | on any run the validators are the accounts added and not removed since, and nobody else can vote |
| `BridgeStatus.AppointmentsExactly` | contracts/bridge/src/lib.rs:1800-1820 | exactly when a validator can be added or removed |
| `BridgeRuns.LastSlotBlocks` | contracts/bridge/src/lib.rs:259-267 | a locked request signed by 255 accounts stays locked when the last of 256 slots approves it too, and can no longer be executed |
| `BridgeLimits.UnanimityBlocks` | contracts/bridge/src/lib.rs:1079-1211 | a run from deployment in which all 256 validators approve a request that the first 255 votes made executable, and the last vote makes it unexecutable |
| `BridgeExamples.RolledBackThenLocked` | contracts/bridge/src/lib.rs:1455-1515 | a run in which a rolled back request is locked again and can be executed |
| `BridgeExamples.LegacyRequestExecutes` | contracts/bridge/src/lib.rs:3053-3068 | a store with a locked legacy request is sound; executing it gives its signers slots and keeps them |
| `BridgeLimits.ReadingMigrates` | contracts/bridge/src/lib.rs:3053-3068 | whatever reads the votes of a request leaves it as a bitmap for good, and every account that had signed it with a slot |
| `BridgeLimits.StrandedUntilJoined` | contracts/bridge/src/lib.rs:2993-3068 | a legacy list that names an account with neither slot nor validator role is stranded by it exactly until the account is added as a validator; meanwhile the request stays as it is and refuses every vote, execution, recovery and rollback |
| `BridgeLimits.FormerValidatorStrands` | contracts/bridge/src/lib.rs:1079-1515 | a sound store with such a request |
| `BridgeRuns.SlotsNeverMove` | contracts/bridge/src/lib.rs:1800-1820 | a validator's position never changes across removal, re-adding and migration |
| `BridgeRuns.ValidatorsStayPlaced` | contracts/bridge/src/lib.rs:1800-1820 | once every validator has a slot, as since deployment, this stays so, and a legacy list migrates exactly when all its signers have one |
| `BridgeRuns.OnlyExecutionMoves` | contracts/bridge/src/lib.rs:1079-1515 | no message but an execution moves a request along its route or completes it |
| `BridgeRuns.ExecutionProgress` | contracts/bridge/src/lib.rs:1239-1251 | each execution short of the last hop decreases the hops left by exactly one |
| `BridgeRuns.RoutesAreFollowed` | contracts/bridge/src/lib.rs:1183-1295 | the destinations executed are the route in order, and a completed request has reached its end |
| `BridgeRuns.RequestsStandOnTheirRoutes` | contracts/bridge/src/lib.rs:1239-1251 | in every reachable state the current hop is in range, destination and source are the route's, and the tracker, where there is one, has the same chains and an aggregate that fits its legs |
| `BridgeRuns.RequestsAreTracked` | contracts/bridge/src/lib.rs:925-956 | since deployment every request has a tracker |
| `BridgeTerms.InitiatesExactly` | contracts/bridge/src/lib.rs:882-1050 | either initiation succeeds exactly if it is permitted, and is numbered next |
| `BridgeTerms.OpenedAsAsked` | contracts/bridge/src/lib.rs:926-956 | the request opened has the caller, token, recipient, threshold, deadline, description, route and gas that were asked for |
| `BridgeTerms.TermsStay` | contracts/bridge/src/lib.rs:1079-1515 | no message changes the terms of a request |
| `BridgeTerms.RequestsAreAsAsked` | contracts/bridge/src/lib.rs:882-1515 | since deployment every request was opened by exactly one initiation, permitted when it was made, and is on its terms |
| `BridgeTerms.RequestsAreNumbered` | contracts/bridge/src/lib.rs:926-956 | since deployment the requests are numbered from one without gaps |
| `BridgeTerms.VotesUntilDeadline` | contracts/bridge/src/lib.rs:929-1100 | a request just opened takes the vote of a validator with a slot exactly while the block is at most the block of the initiation plus the timeout |
| `BridgeTerms.VotesFollowHistory` | contracts/bridge/src/lib.rs:1079-1136 | since deployment a vote is accepted exactly if there is no pause, the voter was appointed and not dismissed, the time of the initiation has not run out and no vote of the account stands |
| `BridgeTerms.ExpiredIsNotRecovered` | contracts/bridge/src/lib.rs:1299-1324 | a pending request whose time ran out takes no vote and no recovery, only a rollback |
| `BridgeLimits.TimeRunsOut` | contracts/bridge/src/lib.rs:1079-1324 | a run that leads there |
| `BridgeTracking.OverallAgreesOnRuns` | contracts/bridge/src/lib.rs:2711-3407 | in every reachable state a tracker's aggregate is the one computed from its legs, exactly unless the last message that rewrote it was a rollback that found both confirmed |
| `BridgeTracking.AggregateOnRuns` | contracts/bridge/src/lib.rs:2711-3407 | in every reachable state a tracker that was not overruled says of its legs what `AggregateSaysLegs` says, and one that was says failed |
| `BridgeTracking.TrackerStep` | contracts/bridge/src/lib.rs:1266-1281 | what each message does to the tracker of a request: a further hop starts it afresh, the last one confirms and sends, a rollback fails it, an accepted report replaces a leg, and nothing else touches it |
| `BridgeTracking.ReportersExactly` | contracts/bridge/src/lib.rs:2711-2768 | a report is accepted exactly from the admin or an operator, for a tracked request, a chain of it, and a status its leg may come to |
| `BridgeTracking.FreshLegs` | contracts/bridge/src/lib.rs:3232-3286 | a fresh tracker: the source submitted and logged, the destination never heard of |
| `BridgeExamples.RolledBackTooLate` | contracts/bridge/src/lib.rs:1455-1515 | a run in which relayers confirm both legs of a pending request before it is rolled back, so that the two disagree |
| `BridgeLimits.SnapshotsFollowRoutes` | contracts/bridge/src/lib.rs:1239-1281 | in every reachable state both legs of a tracker are on one chain exactly when the request's current hop goes to the chain it comes from, and otherwise each snapshot is what the log says |
| `BridgeLimits.HomeToHome` | contracts/bridge/src/lib.rs:882-956 | a run in which a request to the home chain, listed as supported, gets a tracker that disagrees with its own log |
| `RateLimits.Limiter.CheckAndUpdateRateLimits` | contracts/bridge/src/lib.rs:3152-3224 | the check counts the request, then the volume, and accepts or rejects for the source's reasons |
| `RateLimits.Limiter.CountDailyRequest` | contracts/bridge/src/lib.rs:3163-3180 | the account's counter restarts on a new day and rises by one below the limit |
| `RateLimits.Limiter.AddDailyVolume` | contracts/bridge/src/lib.rs:3182-3221 | both volumes restart on a new day and rise by the amount within the chain's limit |
| `RateLimits.Limiter.GetDailyVolume` | contracts/bridge/src/lib.rs:2906-2916 | the admin reads the chain's volume as of today, zero after its last reset day |
| `RateLimits.Limiter.GetAccountDailyVolume` | contracts/bridge/src/lib.rs:2922-2935 | the same for an account |
| `RateLimits.CountersAreAccepted` | contracts/bridge/src/lib.rs:3152-3224 | as of today or any later day each counter is what was accepted that day, across rollovers |
| `RateLimits.VolumeWithinLimit` | contracts/bridge/src/lib.rs:3199-3201 | no chain takes in a day more than the largest limit it was checked against |
| `RateLimits.RequestsWithinLimit` | contracts/bridge/src/lib.rs:3174-3176 | no account has more requests accepted in a day than the largest limit in force |
| `RateLimits.AcceptsExactly` | contracts/bridge/src/lib.rs:3152-3224 | told from the history, a limited call is let through exactly if the requests the account had accepted today are below its limit and what the chain accepted today stays within the chain's limit with it |
| `RateLimits.RefusalsExactly` | contracts/bridge/src/lib.rs:3152-3224 | which limit a refused call met |
| `RateLimits.ShareOut` | contracts/bridge/src/lib.rs:3203-3221 | what was accepted, summed over chains or over accounts, is the same total |
| `RateLimits.LedgersAgree` | contracts/bridge/src/lib.rs:2906-2935 | the chains report the accepted total, and the accounts report the same exactly when none outgrew its counter |
| `RateLimits.AccountOutgrows` | contracts/bridge/src/lib.rs:3152-3224 | a run of two accepted transfers after which they disagree |
| `RequestCodec.CompactRoundTrip` | contracts/bridge/src/lib.rs:122-152 | every list length up to 32 bits is read back from its compact form |
| `RequestCodec.FirstByteOfLength` | contracts/bridge/src/lib.rs:145-150 | a list length starts with a storage tag's byte exactly for zero and some multiples of 64 |
| `RequestCodec.StorageRoundTrip` | contracts/bridge/src/lib.rs:122-152 | both signature formats are read back from their tagged form |
| `RequestCodec.DecodeEncode` | contracts/bridge/src/lib.rs:122-152 | decoding an encoded request gives the request back, whatever follows it |
| `RequestCodec.EncodeIsInjective` | contracts/bridge/src/lib.rs:122-130 | no two requests share an encoding |
| `RequestCodec.PutIsLittleEndian` | contracts/bridge/src/lib.rs:122-152 | numbers are written lowest byte first |
| `RequestCodec.HeaderLayout` | contracts/bridge/src/lib.rs:122-130 | the fields before the signatures, each at its place and in its width |
| `RequestCodec.TrailerLayout` | contracts/bridge/src/lib.rs:122-130 | the fields behind them in order |
| `Utf8Text.ValidExactly` | contracts/bridge/src/lib.rs:132-152 | the bytes of a text are accepted exactly if they encode a sequence of Unicode scalar values |
| `RequestCodec.DecodeLegacy` | contracts/bridge/src/lib.rs:132-222 | a legacy encoding decodes to the same request with its signers kept, unless the list's length is ambiguous |
| `LegacyCodec.LegacyListsExactly` | contracts/bridge/src/lib.rs:132-222 | for every number of signers that fits a length, all legacy requests with that many survive exactly when the number is not ambiguous |
| `LegacyCodec.LegacyListsWithin` | contracts/bridge/src/lib.rs:132-222 | for every number of signers and every limit on the encoding, all legacy requests with that many within the limit survive exactly when the number is not ambiguous or the limit is below the shortest misread encoding, which is given to the byte |
| `LegacyCodec.LegacyListsWithin16K` | contracts/bridge/src/lib.rs:132-222 | within 16384 bytes they survive exactly when there are not 0, 64, 256 or 320 signers |
| `LegacyCodec.MisreadIsLong` | contracts/bridge/src/lib.rs:132-222 | no misread request is shorter than that |
| `LegacyCodec.MisreadExists` | contracts/bridge/src/lib.rs:132-222 | and for each ambiguous length but zero one of just that length is misread |
| `LegacyCodec.ReadAsList` | contracts/bridge/src/lib.rs:145-150 | a list whose bytes after the tag read as another length decodes with whatever trailer can be read behind that many accounts |
| `LegacyCodec.UnsignedLegacyMisread` | contracts/bridge/src/lib.rs:145-150 | an unsigned legacy request with these fields decodes to one with signatures |
| `ComplianceContract.Contract.constructor` | contracts/compliance_registry/lib.rs:724-827 | a new registry: the deployer owns and verifies, five jurisdictions have rules, no data |
| `ComplianceContract.Contract.RefreshKycRates` | contracts/compliance_registry/lib.rs:2122-2129 | both rates are recomputed from the counters |
| `ComplianceContract.Contract.UpdateKycMetrics` | contracts/compliance_registry/lib.rs:2105-2120 | an attempt counts as success or failure, and as a conversion only when it converted a request |
| `ComplianceContract.Contract.RecordKycRequestCreated` | contracts/compliance_registry/lib.rs:2070-2086 | a new request counts globally and in its jurisdiction, and nowhere else |
| `ComplianceContract.Contract.RecordKycVerificationAttempt` | contracts/compliance_registry/lib.rs:2088-2103 | so does an attempt |
| `ComplianceContract.Contract.CompletePendingRequest` | contracts/compliance_registry/lib.rs:2047-2068 | converts the account's latest request exactly when it is pending in the jurisdiction |
| `ComplianceContract.Contract.CheckVerification` | contracts/compliance_registry/lib.rs:971-990 | refuses for score, jurisdiction, level or a time that overflows, in that order, and otherwise gives both deadlines |
| `ComplianceContract.Contract.SubmitVerificationInternal` | contracts/compliance_registry/lib.rs:961-1033 | a verification overwrites the record, converts and counts, or fails for the first check it misses |
| `ComplianceContract.Contract.SubmitVerification` | contracts/compliance_registry/lib.rs:932-959 | a refused verification by a verifier is counted as failed |
| `ComplianceContract.Contract.CreateVerificationRequest` | contracts/compliance_registry/lib.rs:1375-1417 | an account with a pending latest request gets no second one |
| `ComplianceContract.Contract.StoreRequest` | contracts/compliance_registry/lib.rs:1393-1407 | a new pending request under the next id becomes the account's latest and is counted |
| `ComplianceContract.Contract.ProcessVerificationRequest` | contracts/compliance_registry/lib.rs:1428-1468 | a pending request is submitted for its account and marked verified on success |
| `ComplianceContract.Contract.UpdateAmlStatus` | contracts/compliance_registry/lib.rs:1152-1188 | a failed check or three risk factors reject and prohibit, fewer factors set the risk |
| `ComplianceContract.Contract.UpdateSanctionsStatus` | contracts/compliance_registry/lib.rs:1192-1216 | a failed check rejects and prohibits |
| `ComplianceContract.Contract.BatchAmlCheck` | contracts/compliance_registry/lib.rs:1510-1539 | the loop applies one update per account with a record and reports one verdict per entry |
| `ComplianceContract.Contract.BatchSanctionsCheck` | contracts/compliance_registry/lib.rs:1543-1560 | the loop stops at the first account without a record |
| `ComplianceContract.Contract.RevokeVerification` | contracts/compliance_registry/lib.rs:1220-1237 | a revocation rejects and changes nothing else |
| `ComplianceContract.Contract.UpdateConsentStatus` | contracts/compliance_registry/lib.rs:1241-1266 | consent is set by the account itself or a verifier |
| `ComplianceContract.Contract.RequestDataDeletion` | contracts/compliance_registry/lib.rs:1281-1314 | deletion needs the account itself, retention over and consent withdrawn |
| `ComplianceContract.LoopStops` | contracts/compliance_registry/lib.rs:1543-1560 | after a failing entry the rest of a batch changes nothing |
| `KycFunnel.ConversionKeepsInv` | contracts/compliance_registry/lib.rs:2047-2103 | converting a pending request keeps all counters equal to what they count |
| `KycFunnel.OpenedKeepsInv` | contracts/compliance_registry/lib.rs:1375-1417 | so does opening one |
| `KycFunnel.ProcessIsSubmit` | contracts/compliance_registry/lib.rs:1428-1468 | processing a request equals submitting for its account: the second write repeats the first |
| `KycFunnel.SumsStep` | contracts/compliance_registry/lib.rs:2070-2103 | when global and jurisdiction counters step together the global ones stay the sums |
| `KycFunnel.RateIsQuotient` | contracts/compliance_registry/lib.rs:2122-2140 | a rate is the floor of ten thousand times the quotient, and zero without a denominator |
| `KycFunnel.CountersViewTheTable` | contracts/compliance_registry/lib.rs:2047-2120 | after any run, with failing messages kept or dropped, created, pending and converted count all, pending and verified requests, globally and per jurisdiction |
| `KycFunnel.CountersBalance` | contracts/compliance_registry/lib.rs:2105-2140 | attempts are successes plus failures, global counters are sums over jurisdictions, rates are at most 10000 |
| `KycFunnel.PendingIsLatest` | contracts/compliance_registry/lib.rs:1375-1417 | a pending request is always its account's latest |
| `KycFunnel.RequestIsOnRecord` | contracts/compliance_registry/lib.rs:1375-1417 | a new request names its account, jurisdiction and time under the next number, and no other request changes |
| `KycVerdicts.NextSteps` | contracts/compliance_registry/lib.rs:932-1033 | a message moves the success counters by the verification it accepted, and the failure counters by the one it refused exactly if failing messages keep their writes |
| `KycVerdicts.CountersAreVerdicts` | contracts/compliance_registry/lib.rs:932-1033 | after every run the successes are the verifications accepted and the failures those refused, if failing messages keep their writes, or none, if they do not, globally and in each jurisdiction |
| `KycVerdicts.RefusalsAreLost` | contracts/compliance_registry/lib.rs:945-959 | on chain no refusal is ever counted: attempts are successes, and the verification rate is 10000 as soon as there is one, until the product saturates |
| `KycVerdicts.OneRefusal` | contracts/compliance_registry/lib.rs:945-975 | a run of one refused verification that is counted under one reading and not under the other |
| `KycDecisions.BetterEvidenceAccepted` | contracts/compliance_registry/lib.rs:1035-1072 | evidence that is accepted stays accepted with a lower risk score, a better document or a better biometric method |
| `KycDecisions.LevelsExactly` | contracts/compliance_registry/lib.rs:1035-1072 | exactly which evidence reaches each level; none reaches a sixth |
| `KycDecisions.RulesAtDeployment` | contracts/compliance_registry/lib.rs:763-827 | which jurisdictions have rules at deployment, and what each asks for |
| `KycDecisions.AcceptedAtDeployment` | contracts/compliance_registry/lib.rs:744-827 | exactly which evidence is accepted under the rules at deployment, jurisdiction by jurisdiction |
| `KycDecisions.BiometricRuleIsIdle` | contracts/compliance_registry/lib.rs:971-990 | the rule that asks for a biometric method decides nothing |
| `KycDecisions.VerifiedWithoutBiometric` | contracts/compliance_registry/lib.rs:801-812 | an account verified without a biometric method where the rules require one |
| `KycDecisions.RefusalsExactly` | contracts/compliance_registry/lib.rs:971-990 | each reason for refusing evidence is returned exactly in the cases named |
| `KycDecisions.ProcessRefusals` | contracts/compliance_registry/lib.rs:1428-1450 | unknown and processed requests are refused for what they are |
| `KycDecisions.DeletionRefusals` | contracts/compliance_registry/lib.rs:1281-1314 | a deletion is refused while the data has to be kept, then for want of the withdrawn consent |
| `KycDecisions.RecordOnAcceptance` | contracts/compliance_registry/lib.rs:988-1020 | what an accepted verification puts on record, and that it touches no other account |
| `KycDecisions.UnauthorizedChangesNothing` | contracts/compliance_registry/lib.rs:925-1560 | a message from somebody without the authority it needs changes nothing |
| `KycDecisions.AcceptsExactly` | contracts/compliance_registry/lib.rs:925-1560 | a message succeeds exactly if its sender is authorized and what it needs is there |
| `KycDecisions.RolesFollowTheOwner` | contracts/compliance_registry/lib.rs:925-1120 | after any run the owner is the deployer, verifiers and tax modules are as it set them, and the rules are those of deployment with what it changed |
| `ComplianceGate.RecordsReplay` | contracts/compliance_registry/lib.rs:961-1314 | after any run an account's record is the replay of its trace of events |
| `ComplianceGate.ReplayDescribed` | contracts/compliance_registry/lib.rs:1152-1314 | every gate field of a replayed record reads off the trace since the latest verification |
| `ComplianceGate.AmendedFields` | contracts/compliance_registry/lib.rs:1152-1314 | what each update does to every field of a record |
| `ComplianceGate.RiskCountIsCardinality` | contracts/compliance_registry/lib.rs:1163-1170 | every risk factor counts once, and the source of funds is none |
| `ComplianceGate.BatchVerdict` | contracts/compliance_registry/lib.rs:1510-1539 | in a batch an account passes exactly with fewer than three factors and its funds accounted for, and is rejected otherwise |
| `ComplianceGate.TaxesAreLatest` | contracts/compliance_registry/lib.rs:1108-1136 | the tax status on record is the last one reported by somebody who may |
| `ComplianceGate.Latest` | contracts/compliance_registry/lib.rs:1076-1091 | the latest event of a kind about an account: one that matches, and none after it does |
| `ComplianceGate.GateReadsHistory` | contracts/compliance_registry/lib.rs:1076-1091 | the gate opens exactly when since the latest verification the latest AML and sanctions updates passed, consent is given, nothing disqualified, no deadline is over, and the last report on the account's taxes has them in order |
| `ComplianceGate.RulesAlwaysExist` | contracts/compliance_registry/lib.rs:974-977 | every stored record's jurisdiction has rules, after any run |
| `ComplianceGate.TransactionsFollowTheGate` | contracts/compliance_registry/lib.rs:1599-1643 | for every operation the transaction check passes exactly when the account is compliant |
| `Crowdfunding.Contract.constructor` | contracts/crowdfunding/src/lib.rs:407-434 | a new ledger is empty and has its admin |
| `Crowdfunding.Contract.InvestInCampaign` | contracts/crowdfunding/src/lib.rs:565-634 | an investment books amount, shares, investor and status together, or fails and changes nothing |
| `Crowdfunding.Contract.ListSharesForSale` | contracts/crowdfunding/src/lib.rs:976-1002 | a listing needs the shares to be held, and does not set them aside |
| `Crowdfunding.Contract.BuyListedShares` | contracts/crowdfunding/src/lib.rs:1010-1036 | a purchase moves the shares, removes the listing and returns the price |
| `Crowdfunding.Contract.FailCampaignById` | contracts/crowdfunding/src/lib.rs:786-797 | the admin cancels any campaign |
| `Crowdfunding.Contract.ClaimRefundFor` | contracts/crowdfunding/src/lib.rs:801-833 | a refund of a cancelled campaign returns the investment and marks it |
| `Crowdfunding.PayoutBounds` | contracts/crowdfunding/src/lib.rs:851-872 | a payout is the floor of profit times investment over target |
| `FundingProofs.InvestKeepsBooks` | contracts/crowdfunding/src/lib.rs:565-634 | an investment keeps every campaign's books balanced |
| `FundingProofs.OtherCallKeepsBooks` | contracts/crowdfunding/src/lib.rs:786-1036 | no other message touches them |
| `FundingProofs.BooksAlwaysBalance` | contracts/crowdfunding/src/lib.rs:565-634 | after any run a campaign has raised the sum of its investments, counts as many investors as its list is long, and lists exactly the accounts that invested |
| `FundingProofs.InvestorsDistinctExactly` | contracts/crowdfunding/src/lib.rs:612-618 | nobody is listed twice exactly when nobody invested again while its entry held nothing |
| `FundingProofs.InvestorsAreDistinct` | contracts/crowdfunding/src/lib.rs:612-618 | so positive investments list nobody twice |
| `FundingExamples.ListedTwice` | contracts/crowdfunding/src/lib.rs:565-634 | a run in which two investments of nothing list their investor twice |
| `FundingProofs.TradeSupply` | contracts/crowdfunding/src/lib.rs:1010-1036 | a trade leaves every supply alone exactly when the seller still holds what it listed, and otherwise creates the shortfall |
| `FundingExamples.SoldTwice` | contracts/crowdfunding/src/lib.rs:976-1036 | a run in which one share is listed and sold twice, so that two exist |
| `FundingProofs.SupplyIsAccounted` | contracts/crowdfunding/src/lib.rs:565-1036 | after any run supply is what was issued plus what was oversold, and issued shares are backed a thousandfold |
| `FundingProofs.SharesAreBacked` | contracts/crowdfunding/src/lib.rs:565-1036 | without overselling, a thousand times the supply stays within the amount ever raised |
| `FundingProofs.BackedAfterRefundsExactly` | contracts/crowdfunding/src/lib.rs:565-1036 | it stays within what is left after refunds exactly when refunds and oversold shares fit into the parts of investments for which no share was issued |
| `FundingExamples.RefundedAndStillHeld` | contracts/crowdfunding/src/lib.rs:786-833 | a run after which a refunded share has no backing |
| `FundingProofs.RefundedAtMostOnce` | contracts/crowdfunding/src/lib.rs:801-833 | each investor is refunded at most once per campaign, across cancelling and re-activating |
| `FundingProofs.RefundsWithinRaised` | contracts/crowdfunding/src/lib.rs:801-833 | all refunds ever returned stay within what the campaign raised |
| `FundingProofs.RefundsAreMarked` | contracts/crowdfunding/src/lib.rs:801-833 | what refunded investors ever put in is what was refunded to them and what they put in afterwards |
| `FundingProofs.RaisedIsAccounted` | contracts/crowdfunding/src/lib.rs:565-833 | what a campaign raised was refunded, can still be refunded, or was put in after a refund, and so refunds can return all of it exactly when nobody invests after a refund |
| `FundingExamples.RefundedButNotAgain` | contracts/crowdfunding/src/lib.rs:801-833 | a run in which an account invests again after a refund and cannot claim the second amount |
| `FundingProofs.AnswersAreShares` | contracts/crowdfunding/src/lib.rs:851-872 | the summed shares are what the payout query answers |
| `FundingProofs.PayoutsTrackRaised` | contracts/crowdfunding/src/lib.rs:851-872 | payouts to all investors come to the profit's part for the amount raised, short by less than the number of investors |
| `FundingProofs.PayoutsWithinProfitExactly` | contracts/crowdfunding/src/lib.rs:851-872 | payouts never exceed the profit exactly when the campaign raised no more than its target |
| `FundingExamples.PaidBeyondProfit` | contracts/crowdfunding/src/lib.rs:565-872 | a run after which a profit of 5000 is owed as 6000 |
| `FundingTerms.CampaignStep` | contracts/crowdfunding/src/lib.rs:446-797 | what each message does to the status of the campaign it names, and that it changes no other, no creator and no target |
| `FundingTerms.StatusesReached` | contracts/crowdfunding/src/lib.rs:446-797 | no campaign is ever closed |
| `FundingTerms.CreatesExactly` | contracts/crowdfunding/src/lib.rs:446-470 | a new campaign is the next one, the caller's, a draft, and has raised nothing |
| `FundingTerms.StatusChangesExactly` | contracts/crowdfunding/src/lib.rs:481-492 | creator and admin may activate a campaign, and the admin may cancel it, from any status |
| `FundingTerms.InvestsExactly` | contracts/crowdfunding/src/lib.rs:565-634 | exactly when an investment succeeds; the check of the caller's own total never decides |
| `FundingTerms.InvestmentsAreHistory` | contracts/crowdfunding/src/lib.rs:565-634 | after any run the ledger holds for every account what it invested |
| `FundingTerms.ListsExactly` | contracts/crowdfunding/src/lib.rs:976-1002 | a listing needs the shares, is numbered next, moves none and touches no other |
| `FundingTerms.BuysExactly` | contracts/crowdfunding/src/lib.rs:1010-1036 | exactly when a purchase succeeds, what it costs, and what it makes of every account's shares |
| `FundingTerms.RefundsExactly` | contracts/crowdfunding/src/lib.rs:801-833 | told from the history, a refund succeeds exactly if the campaign is cancelled and the caller invested and was not refunded, and returns what was invested |
| `FundingTerms.ActivationEndsRefunds` | contracts/crowdfunding/src/lib.rs:481-492 | the creator of a cancelled campaign can end its refunds by activating it |
| `FundingTerms.RefundEnded` | contracts/crowdfunding/src/lib.rs:481-833 | a run in which that happens |
| `FundingTerms.AnswersExactly` | contracts/crowdfunding/src/lib.rs:851-872 | the payout query fails exactly where the product does not fit, and otherwise answers the floor, or zero without a target |
| `FundingTerms.InvestRefusals` | contracts/crowdfunding/src/lib.rs:565-600 | the reasons for refusing an investment, in order |
| `FundingTerms.RefundRefusals` | contracts/crowdfunding/src/lib.rs:801-833 | each reason for refusing a refund is returned exactly in the cases named |
| `TransactionCache.Cache.constructor` | contracts/common/src/cache.rs:37-41 | a new cache is empty |
| `TransactionCache.Cache.Get` | contracts/common/src/cache.rs:44-46 | a read answers the entry if present |
| `TransactionCache.Cache.GetOrInsertWith` | contracts/common/src/cache.rs:52-63 | a miss reads the store and keeps the value clean; a hit changes nothing |
| `TransactionCache.Cache.Set` | contracts/common/src/cache.rs:66-74 | a write makes the entry dirty |
| `TransactionCache.Cache.Invalidate` | contracts/common/src/cache.rs:77-79 | removes one entry |
| `TransactionCache.Cache.InvalidateAll` | contracts/common/src/cache.rs:83-85 | removes all entries |
| `TransactionCache.Cache.DirtyKeys` | contracts/common/src/cache.rs:89-95 | the dirty keys, strictly ascending |
| `TransactionCache.Ascending` | contracts/common/src/cache.rs:89-95 | iterating an ordered map visits its keys in strictly ascending order, each once |
| `TransactionCache.OnlyDirty` | contracts/common/src/cache.rs:89-95 | the filter keeps exactly the dirty keys, in order |
| `TransactionCache.CacheRefines` | contracts/common/src/cache.rs:44-85 | clean entries repeat the store and dirty ones are exactly the writes, on every run that drops only clean entries |
| `TransactionCache.ReadsAsPlainMap` | contracts/common/src/cache.rs:44-95 | then every read answers as a plain map with the same writes, and writing the dirty entries back yields that map |
| `TransactionCache.DropLosesDirtyValues` | contracts/common/src/cache.rs:77-79 | dropping a key keeps every read exactly when its entry is absent or agrees with the store |
| `TransactionCache.WriteThenDrop` | contracts/common/src/cache.rs:66-79 | writing a key and invalidating it loses the write, unless the store held the value anyway |
| `ValidatorStaking.Ledger.AddStake` | contracts/bridge/src/validator_staking.rs:16-22 | a stake of at least the minimum is added, and a first one lists the validator |
| `ValidatorStaking.Ledger.RemoveStake` | contracts/bridge/src/validator_staking.rs:24-31 | an unstake lowers the stake and delists at zero |
| `ValidatorStaking.Ledger.SlashStake` | contracts/bridge/src/validator_staking.rs:33-40 | a slash moves a fifth of the stake, rounded down, to the pool |
| `ValidatorStaking.StakeWithinTotal` | contracts/bridge/src/validator_staking.rs:30-37 | no stake exceeds the total, so neither saturating subtraction saturates |
| `ValidatorStaking.PenaltyLeavesSome` | contracts/bridge/src/validator_staking.rs:33-40 | a slash takes a fifth of the stake, rounded down, and never the last of it |
| `ValidatorStaking.StepsExactly` | contracts/bridge/src/validator_staking.rs:16-40 | exactly when each message succeeds, and for what it is refused |
| `ValidatorStaking.StepMoves` | contracts/bridge/src/validator_staking.rs:16-40 | what each message does to every account's stake and to the pool |
| `ValidatorStaking.StepKeepsInv` | contracts/bridge/src/validator_staking.rs:16-40 | every message keeps total, list and stakes consistent and moves total plus pool by what is added or withdrawn |
| `ValidatorStaking.LedgerBalances` | contracts/bridge/src/validator_staking.rs:16-40 | after any run the total is the sum of stakes, the validators are once each the accounts with stake, and all stake added is staked, slashed or withdrawn |
| `AuditTrail.Registry.AddAuditEntry` | contracts/identity/lib.rs:1641-1674 | an entry gets the next global id and the account's next position |
| `AuditTrail.Registry.GetAccountAuditEntries` | contracts/identity/lib.rs:1621-1638 | the loop collects what the index finds between offset and end |
| `AuditTrail.IdsAreExact` | contracts/identity/lib.rs:1641-1674 | an account's ids are strictly increasing and exactly those whose entry names it |
| `AuditTrail.RecordsExactly` | contracts/identity/lib.rs:1641-1674 | a history is recorded in full exactly if the global counter can number it; an account's own counter never gives out first |
| `AuditTrail.IndexAgreesWithTrail` | contracts/identity/lib.rs:1641-1674 | after any history the trail holds it, every account's index lists exactly its ids in order, and the counts sum to the global one |
| `AuditTrail.FilteredByIds` | contracts/identity/lib.rs:1641-1674 | the account's part of the trail is the entries of its ids in order |
| `AuditTrail.QueriesSlice` | contracts/identity/lib.rs:1621-1638 | a query returns exactly the requested slice of the account's part of the trail, and fails exactly if its end cannot be computed |

## Left out

- Events, error texts, audit log of the compliance registry, getters without arithmetic: output only.
- Reentrancy guards: the modelled bodies make no call that could re-enter.
- PropertyBridge.Contract.InitiateBridgeMultisig: pause flags, the rate limiter's verdict and the freeze list reach it as parameters of the call, and the request-burst heuristic, whose effect depends on writes made before an error, is not modelled.
- PropertyBridge.Contract.InitiateMultiHopBridge: the same, and the gas estimate is a parameter.
- PropertyBridge.Contract.ExecuteBridge: the travel-rule verdict and the transaction hash are parameters; transaction records, the transaction counter, batch windows and history are not modelled.
- PropertyBridge.Contract.SignBridgeRequest: the failed-signature heuristic is not modelled; the variant with an ECDSA approval checks it and then makes the same call.
- PropertyBridge.Contract.UpdateChainTxStatus: the reverse index from transaction hashes is not modelled; confirming a delivery is the same report with the destination chain filled in.
- PropertyBridge.Contract.AdvanceCrossChainStatusOnExecute: the same reverse index is not modelled.
- PropertyBridge.Contract.constructor: only the storage items above; the initial configuration is a parameter.
- Bridge administration (roles, supported chains, signature range) appears in runs as one message that may set any values.
- Reads of legacy requests through validator list positions instead of slots (`bitmap_for_request`): a query only.
- RateLimits.Limiter.CheckAndUpdateRateLimits: the configuration and the chain's limit come with each call and may change between calls; the state it leaves after an error is not described, since the runtime discards it.
- LegacyCodec.LegacyListsExactly: lengths, routes and texts may be as long as the codec allows, far beyond what a contract can store; `LegacyListsWithin` is the same result for every limit on the length.
- RequestCodec.DecodeEncode: the decoder drains its input into a buffer first; the buffer is the sequence of bytes here.
- ComplianceContract.Contract.SubmitVerificationInternal: the identity document hash and the fields that no modelled message reads are dropped from the record.
- ComplianceGate.GateReadsHistory: for runs under the runtime's rule that failing messages leave nothing; the counter results in KycFunnel hold under both readings.
- Screening caches, token jurisdictions, zero-knowledge checks, tax fields beyond the gate, service-provider records beyond the verifier role.
- Crowdfunding.Contract.InvestInCampaign: the investor profile and accreditation checks are a verdict given with the call.
- Crowdfunding milestones, proposals, votes, risk profiles, search and analytics: separate tables or queries over the ones modelled.
- TransactionCache.Cache.Get: keys are natural numbers, standing for any ordered key type; values are any type with equality.
- AuditTrail.Registry.AddAuditEntry: the timestamp and the acting account are parameters; a trap is reported as a failure.
- Sanctions, GDPR, database, dex and the smaller analytics contracts: counters, lookups and setters that would only add easy members.
