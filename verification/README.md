# Arbiter settlement backend: a verified model

This project models the parts of the backend that decide what happens to a paid question and its money, and
proves what they promise. `dafny verify dfyconfig.toml` checks all of it.

- **Settlement** (`Settlement.dfy`, `SettlementInvariant.dfy`, `SettlementBooks.dfy`, `SettlementRecords.dfy`,
  `SettlementTheorems.dfy`, `SettlementLimits.dfy`) is a step machine for one question: duplicate `startFulfillment`
  calls, the hold timer, `cancelJob`, the quorum collector, `commitProvenance`, `settleResolved` / `settleRefunded`,
  `updateJob` as a read and a write, the safety net, recovery sweeps, crashes, exceptions out of the store, transactions
  that land late or never, and third-party `refund_timeout()`. Every store or chain call is one step, and the theorems
  hold for every sequence of steps. Three invariants share the work: who may act and what the chain then says, what is
  booked, and what the job record can be. `Jobs.dfy` ties the machine's record updates to the store-backed code, and
  covers the review queue.
- **Money and locks**: `Store.dfy` is the in-memory store as a class with expiry and a clock; `Billing.dfy` the credit
  operations on it; `CreditLedger.dfy` the ledger under arbitrary interleaving; `SignerLock.dfy` the platform signer
  lease over the serial queue, with the account's sequence number; `Referrals.dfy` minting and capped redemption.
- **Provenance**: `CanonicalJson.dfy` is the canonical printer (RFC 8785, sections 3.2.2 and 3.2.3) and a parser,
  `CanonicalIdentity.dfy` proves that a printed text identifies its value, `Provenance.dfy` sets the verifier against
  the pipeline whose records it must accept.
- **Consensus**: `Vote.dfy` (normalization, grouping, exact-match vote), `Reconcile.dfy` (the vote on clusters of similar
  answers, and when it is the exact one) and `Consensus.dfy` (numeric tolerance).
- **Derived state against its definition**: `WorkerAnalytics.dfy` (streaks over pruned days), `MaintenanceWindows.dfy`
  (the pause sweep), `Teams.dfy` and `TeamCrashes.dfy` (records, lists and index, complete and cut short),
  `Earnings.dfy` (payout split, ledger, tax totals).
- **Dispatch and recovery**: `Dispatch.dfy` (target selection, quorum collector) and `Recovery.dfy` (reading an index
  that moves, and the sweep).

Code that updates objects is modelled by classes and methods whose contracts give the whole new state as a function of
the old one; what the code promises is then proved about those functions. Protocols are step functions over values.

## Where a promise stops

Each of these is a theorem of the project, with the exact condition or a concrete run.

- A settled job becomes unsettled by exactly three writes: the creation of the record, a status write of the driver, and a
  write of other fields over a copy read before the settlement. They all take a sweep that settled the record
  first; so does a settlement that is counted twice, by a settled write over such a copy (`ReopenedExactly`,
  `CountedExactly`, `SettledOnce`, `StaleSweepUnsettles`, `SettlementCountedTwice`).
- A driver that settles the question itself records every answer exactly once if and only if no exception came between
  the first recorded outcome after a landed `resolve()` and the settled write: there the handler falls back to a refund,
  which records every answer (`CompletedRunsBalance`, `BookedOnce`, `ThrowDoublesReputation`).
- It writes exactly one settled outcome if and only if the credit of a private-pool refund could be restored without an
  exception: otherwise the safety net settles the question again, as 'refund_pending_timeout', and the credit stays
  unrestored. The public counters agree with the outcome if and only if no exception followed a count
  (`CompletedRunsBalance`, `PoolRefundSettlesTwice`).
- `src/provenance.js:51-60` wants the inputs committed before `resolve()` or `refund()` on every path. That is so on the
  quorum's and the instant tier's path, up to a failure to save, which stops nothing; the refunds for a pause, a cancel
  and an offline private pool never commit (`CommittedFirst`, `ResolvedUncommitted`).
- 'resolved' implies the chain resolved, but not the converse: a lost reply ends as 'refund_pending_timeout' on a
  resolved question (`OutcomesAreHonest`, `LostReplyEndsAsPendingTimeout`).
- The status leaves the graph of `src/jobs.js:233-237` at exactly three writes: a pause that opens during the hold takes
  the job from holding to reconciling; the safety net of a driver whose 'reconciling' write threw takes it from
  awaiting_workers to settled; and the refund of a sweep settles a job that is neither reconciling nor cancelling, or has no
  record (`StatusFollowsGraph`, `PauseSkipsAwaiting`, `ThrowSkipsReconciling`, `SweepSettlesNothing`).
- `src/jobs.js:241` says a settled job always carries 'resolved' or 'refunded'. It can also carry
  'refund_pending_timeout' or 'lost_race_to_timeout_refund' (`LostReplyEndsAsPendingTimeout`, `LostRaceIsItsOwnOutcome`).
- `src/jobs.js:265-266` says a claim can never outlive or be outlived by its job. In Redis the claim's expiry is set once
  while every update renews the record's, so a late retry can claim a living job again (`RedisClaimCanLapseFirst`).
- A clawback that loses five races in a row debits nothing and books the whole amount as a shortfall (`DebitGivesUp`).
- One Stripe event is applied at most once in thirty days; a delivery after that is applied again (`EventsApplyOnce`,
  `CreditedTwice`). A delivery that dies between its claim and the credit loses the payment: no redelivery in those
  thirty days can make up for it (`LostForGood`, `ClaimedCheckout`).
- A charge refunded in parts is debited more than was refunded, because each event carries the cumulative amount, unless
  the balance happened to be just that (`RefundedInParts`).
- A request costs the price of a charge that landed exactly when the price stayed within the reservation and nothing threw
  afterwards: the catch at `src/server.js:400-408` gives the whole reservation back, so the answer is free
  (`FinishedRequestCost`). Reserve, settle, restore is the identity under the same condition: a restore on top of that gives
  the price away once more, and a priority quote leaves the reservation from a surge of about 1.60 on
  (`RestoredRequestCost`, `RefundedAndRestored`, `RestoredPriorityRequest`).
- The signer lease excludes only while every critical section ends before its ttl (`MutualExclusion`,
  `OverrunCollides`).
- `sameMembers` is multiset equality for ids without line breaks on one side, and not otherwise
  (`SameMembersIsMultisetEquality`, `SameMembersNeedsOneLiners`).
- The verifier does not accept every record the pipeline makes. In the default mode a record of the vote verifies exactly
  when all answers in the winning cluster normalize alike: "42", "the answer is 42", "42" settles with everybody paid and
  fails verification. Records of answered numeric-tolerance questions verify only when an LLM settled them and the answers
  were not all alike; and a record of an LLM only if it named nobody but submitters and left out neither consensus nor
  confidence (`PipelineVerifies`, `VotesAgree`, `FortyTwoRejected`, `RustRejected`, `UnratedConsensusRejected`). A draft of the
  instant tier without a confidence resolves the question, and its record fails as well (`InstantVerifies`,
  `UnratedDraftRejected`). On top of that the cap at `src/oracle.js:497-499` must not have lowered the
  confidence of a lone answer; nothing assigns `escalated` at present, so it never does. On a record of a vote without
  submissions the verifier throws instead of failing a check (`VerifyProvenance`).
- Members of a tolerance cluster are within tolerance of its center, not "of each other" as `describeTolerance` tells
  payers; percentages are not even symmetric (`NotOfEachOther`, `AbsoluteClusterWidth`).
- The stored longest streak is exact for timestamps in order and can be understated, never overstated, otherwise
  (`StoredLongestStreak`, `NeverOverstated`, `OutOfOrderUnderstates`).
- Re-recording a payout adds nothing exactly when it falls into the same year or that year already has it
  (`RecordingAgain`).
- A payout recording that is cut short between record and index leaves the year's index short, and repeating it does not
  help; the indexes are exact where some call that added a record got to their end (`IndexesAreExactWhere`,
  `RetryDoesNotIndex`).
- A team operation cut short leaves at most an entry too many in a list, which `listTeamsFor` skips; but the entry stays,
  counts against its owner's cap, and trying a removal or deletion again is refused. An addition tried again is completed
  unless the cut filled a member's list (`AlwaysSafe`, `ListingSurvives`, `AgreesUnlessTorn`, `RetryAfterCut`).
- `markPendingReview` tells every caller that read the record before the first write that it queued the job, so two
  overlapping calls both win (`MarkersToldTrue`, `OverlappingMarkersBothWin`).
- An answer that was accepted is lost if the broadcast turns out to have reached nobody (`EmptyBroadcastDropsAnswers`).
- `selectTargets` fails open except for a preference for established workers without a quorum size
  (`TargetsAreSound`).
- Equal counts around an index scan prove it whole only while the index moves one way. Under mixed changes a question that
  stays pending is missed exactly when swap-remove takes it from a page still to be read to one already read
  (`SnapshotIsWhole`, `FoundUnlessMovedBehind`, `MixedChangesCancel`).

## Model

| member | source | states |
|---|---|---|
| SettlementTheorems.OneDriver | src/oracle.js:192-257 | over every interleaving of retries, hold timers, cancels, sweeps and crashes at most one process acts on a question, and dispatches plus cancel-refunds number at most one |
| SettlementTheorems.OutcomesAreHonest | src/oracle.js:615-772 | 'resolved' is only recorded for a question the chain resolved; 'refunded' and 'lost_race_to_timeout_refund' only for one it refunded |
| SettlementTheorems.CreditRestoredOnce | src/oracle.js:297-309 | API-key credit is restored at most once, and a question whose credit was restored is never resolved, then or later |
| SettlementTheorems.CompletedRunsBalance | src/oracle.js:655-801 | at the end of a driver's run, whatever threw: the last settled write is its outcome and the only one exactly when the safety net did not run again; counters match it exactly when no exception followed a count; every answer was recorded once exactly when none came too late; and the record is settled unless a settlement was taken back |
| SettlementTheorems.BookedOnce | src/oracle.js:734-801 | in every state of every run no answer is recorded more often than given unless an exception came too late after a landed resolve(), and there is one settled write, or two after a failed pool-refund restore |
| SettlementBooks.RunBooks | src/oracle.js:615-801 | in every run the books are what was booked when an exception last made the driver fall back and what it has booked since, and each flag says exactly whether the former is empty |
| SettlementTheorems.SettledOnce | src/jobs.js:268-293 | in every run that has not taken a settlement back a settled record stays settled, and it is counted once unless a write recounted it; neither happens unless a sweep settled the record |
| SettlementTheorems.StatusFollowsGraph | src/jobs.js:233-237 | in such a run a step leaves the documented status graph if and only if it is a pause's write over a held job, the safety net's over one awaiting workers, or a sweep's over anything not reconciling, cancelling or settled |
| SettlementTheorems.ReopenedExactly | src/jobs.js:285-294 | in every run a settled record becomes unsettled if and only if the step is a record creation, a driver's status write, or a write of other fields over an older copy |
| SettlementTheorems.CountedExactly | src/jobs.js:285-294 | the counter moves with the record, one too much exactly at a settled write over a copy read before the settlement |
| SettlementRecords.RunRecords | src/jobs.js:233-294 | the record invariant behind these in every run |
| SettlementTheorems.CommittedFirst | src/provenance.js:51-60 | before a settlement is broadcast the inputs were committed, or trying to failed, exactly on the quorum's and the instant path; no resolve() goes out before |
| SettlementInvariant.RunKeeps | src/oracle.js:192-801 | the invariant behind these, after any sequence of steps |
| SettlementInvariant.StepKeeps | src/oracle.js:192-801 | every single step of any process, the chain or time keeps the invariant and never undoes what cannot be undone |
| SettlementLimits.StaleSweepUnsettles | src/disasterRecovery.js:81-86 | a run in which a stale_inflight refund settles a job that its live driver then unsettles |
| SettlementLimits.SettlementCountedTwice | src/jobs.js:285-294 | a run in which a settlement is counted twice although it is never taken back |
| SettlementLimits.ThrowDoublesReputation | src/oracle.js:655-731 | a run in which an exception inside the reputation pass after a landed resolve() records an answer twice |
| SettlementLimits.PoolRefundSettlesTwice | src/oracle.js:463-474 | a run in which a refunded pool question is settled again as refund_pending_timeout and its credit never restored |
| SettlementLimits.ResolvedUncommitted | src/oracle.js:514-536 | a run that resolves a question whose commitment could not be saved |
| SettlementLimits.LostReplyEndsAsPendingTimeout | src/oracle.js:734-772 | a run in which a resolved question ends as refund_pending_timeout |
| SettlementLimits.LostRaceIsItsOwnOutcome | src/oracle.js:699-725 | a run in which a job settles as lost_race_to_timeout_refund |
| SettlementLimits.PauseSkipsAwaiting | src/oracle.js:297-307 | a run in which a pause takes a held job straight to reconciling |
| SettlementLimits.ThrowSkipsReconciling | src/oracle.js:311-330 | a run in which the safety net settles a job that still awaits workers |
| SettlementLimits.SweepSettlesNothing | src/disasterRecovery.js:98-105 | a run in which a sweep settles a question that has no record |
| SettlementLimits.QuestionsAreIndependent | src/oracle.js:192-257 | in any interleaving of many questions each evolves by its own events alone |
| Settlement.UndoWindowFor | src/undoWindow.js:38-41 | a hold is positive exactly for a non-instant tier with a positive setting, and is then that setting |
| Jobs.JobStore.UpdateJob | src/jobs.js:285-294 | the record becomes the merge, other keys stay, and the counter moves exactly when the job becomes settled |
| Jobs.JobStore.ClaimJob | src/jobs.js:268-271 | only the caller that finds the claim unused wins |
| Jobs.JobStore.ClaimUndoDecision | src/undoWindow.js:46-51 | the first decision wins and is recorded; later ones change no winner |
| Jobs.MarkersToldTrue | src/jobs.js:312-327 | a caller is told it queued the job exactly when it read the record before anybody wrote it |
| Jobs.OverlappingMarkersBothWin | src/jobs.js:299-327 | of two overlapping calls both are told so, of two that do not overlap only the first |
| Store.MemoryStore.Incr | src/store.js:56-63 | adds one to the live count, starting over after expiry, and renews the expiry |
| Store.MemoryStore.SetNX | src/store.js:76-82 | succeeds exactly when no live entry is there, and then stores |
| Store.MemoryStore.Hsetnx | src/store.js:89-98 | sets a field exactly once per live hash and keeps the first expiry |
| Store.MemoryStore.IncrBy | src/store.js:114-119 | adds to a balance that never expires |
| Store.MemoryStore.DecrIfAtLeast | src/store.js:125-131 | takes the amount exactly when the balance covers it |
| Store.ExactlyOneClaim | src/store.js:56-63 | on a fresh key the first caller alone is told 1, if and only if no gap between callers outlasts the ttl |
| Store.RedisClaimCanLapseFirst | src/store.js:189-193 | in Redis a claim key can expire while the job record lives, and be won a second time |
| Store.LeasesAreDisjoint | src/store.js:76-82 | two successful setNX calls on one key without a release are more than a ttl apart |
| Billing.Billing.ReserveCredit | src/billing.js:134-139 | takes the ceiling exactly when the balance covers it, from that account only |
| Billing.Billing.SettleReservation | src/billing.js:146-150 | leaves the account charged the smaller of reservation and price |
| Billing.Billing.RestoreCredit | src/billing.js:172-174 | gives back the amount, to that account only |
| Billing.Billing.DebitCreditFloored | src/billing.js:606-620 | what is taken and left, for any interference between its reads and decrements |
| Billing.Billing.HandleStripeWebhook | src/billing.js:532-547 | a delivery is applied once per event id; a reversal's debit and shortfall add up to the request |
| Billing.Billing.ReverseCharge | src/billing.js:576-604 | charges the account the payment intent funded, else the metadata, never below zero |
| Billing.DebitIsFloored | src/billing.js:606-620 | never more than requested; undisturbed, exactly the smaller of balance and request |
| Billing.RefundedInParts | src/billing.js:585-589 | refunding a charge in parts debits exactly what was refunded if and only if there was one part the balance covers, or the balance happened to be just that |
| Billing.KeysAreDistinct | src/billing.js:532-604 | accounts, events and payment intents never share a key |
| CreditLedger.Conservation | src/billing.js:134-174 | over all interleavings and crashes no balance is negative and each is the sum of what its operations contributed |
| CreditLedger.EventsApplyOnce | src/billing.js:532-547 | two deliveries of one Stripe event that both get past the claim do so more than thirty days apart |
| CreditLedger.CreditedTwice | src/billing.js:536-543 | a run in which a redelivery after thirty days credits the payment again |
| CreditLedger.LostForGood | src/billing.js:536-541 | a delivery that dies between claim and credit moves nothing ever, and for thirty days no other delivery of its event does |
| CreditLedger.ClaimedCheckout | src/billing.js:553-567 | a claimed checkout has moved its full amount exactly when its delivery got to the credit, and nothing before |
| CreditLedger.FinishedRequestCost | src/server.js:371-409 | in every run a finished request has moved its account down by the smaller of reservation and price, or not at all or even up if an exception gave the reservation back; by the price of a landed charge exactly when nothing threw after it and the price was reserved |
| CreditLedger.RestoredRequestCost | src/billing.js:146-174 | in every run the steps of a restored request have moved nothing in all exactly when nothing threw after the charge and the price stayed within the reservation |
| CreditLedger.RefundedAndRestored | src/server.js:392-408 | a run in which a given-back and restored request turns 100 stroops into 103 |
| CreditLedger.RestoredPriorityRequest | src/pricing.js:206-211 | the exact surge up to which that holds for a priority quote |
| CreditLedger.MovedIsNet | src/billing.js:134-174 | what the steps of one operation moved over a run, whatever ran in between, is what its phase says |
| SignerLock.Lock.Acquire | src/canary.js:68-78 | while others take and leave the lease between its polls: waits at most one poll past the deadline, takes the lease from nobody, gives up only while somebody holds it, and stores it with a full ttl |
| SignerLock.Lock.Release | src/canary.js:80-88 | deletes the lease only under its own token |
| SignerLock.Lock.Run | src/canary.js:91-101 | a canary does nothing at all; anybody else who entered leaves the lease free, or as whoever took it over left it |
| SignerLock.MutualExclusion | src/canary.js:50-104 | while critical sections end within their ttl, at most one call of the fleet is inside, holding the live lease |
| SignerLock.LeaseIsSafe | src/canary.js:50-104 | a lease only ends by its own holder's release or, once expired, by a new acquisition |
| SignerLock.CanaryNeverSigns | src/canary.js:91-94 | no call of a canary ever gets past the gate or succeeds |
| SignerLock.QueueOrder | src/stellarClient.js:209-219 | a process runs its calls in order, one at a time, whether or not they fail |
| SignerLock.NextInLine | src/stellarClient.js:205-219 | the first unsettled call is running or may start, and everything behind it waits |
| SignerLock.CallsTakeTurns | src/stellarClient.js:157-232 | numbers are used up one after the other by transactions that succeed and ones that fail on the ledger, and while leases hold and timed-out attempts stay dead every call goes out on the current sequence |
| SignerLock.SuccessesAreDistinct | src/stellarClient.js:173-182 | every call told of success used a number of its own, by a transaction that succeeded |
| SignerLock.OverrunCollides | src/canary.js:55-66 | a run in which a call that outlives its lease sends a number already consumed |
| SignerLock.StepKeeps | src/canary.js:68-101 | every step of the fleet keeps the invariant: serial queues, one token one task, the lease of whoever is inside |
| Referrals.OneCodePerOwner | src/referrals.js:120-141 | every mint that returned gave its owner the one live code whose record names the owner, under any races and crashes |
| Referrals.CodesAreDistinct | src/referrals.js:120-141 | every owner key points at a live record that names the owner, and two owners never share a code |
| Referrals.CapHolds | src/referrals.js:181-197 | a code's counter is its redemptions plus the uses requests hold, and redemptions plus granted holds never exceed the cap |
| Referrals.NothingLeaks | src/referrals.js:181-197 | without crashes the counter ends up as the number of referees |
| Referrals.RedemptionIsForever | src/referrals.js:159-200 | a referee's redemption never changes, names somebody else, and every success it is ever told of was for that code |
| CanonicalIdentity.RoundTrip | src/provenanceVerify.js:23-38 | the printed text parses, to its end, to the value it was made from |
| CanonicalIdentity.PrintsAlike | src/provenanceVerify.js:23-38 | two values print alike exactly when they are the same up to the order of object members |
| CanonicalIdentity.TextIsWellFormed | src/provenanceVerify.js:40-42 | the hashed text is well-formed UTF-16 whatever strings it holds, so its UTF-8 bytes identify it |
| CanonicalIdentity.SortIsCanonical | src/provenanceVerify.js:32-34 | sorting depends on the members alone, not on their order |
| CanonicalJson.PrintReads | src/provenanceVerify.js:23-38 | a printed value reads back as its canonical form wherever it stands |
| CanonicalJson.StringReads | src/provenanceVerify.js:24 | an escaped string reads back unit by unit, lone surrogates and controls included |
| CanonicalJson.DigitsValue | src/provenanceVerify.js:25-28 | an integer's digits have its value and no leading zero |
| Vote.NormalizeIsWords | src/vote.js:8-15 | normalize gives the lower-case words joined by single spaces |
| Vote.NormalizeIdentifiesWords | src/vote.js:8-15 | two answers normalize alike exactly when they have the same words; normalize is idempotent |
| Vote.GroupByNormalizedAnswer | src/reconcile.js:82-90 | one group per normalized answer, complete, in first-seen order, represented by its first answer |
| Vote.ExactMatchVote | src/vote.js:17-36 | the Map-and-loop vote is the first of the largest classes; without submissions it throws |
| Vote.VoteIsLargestClass | src/vote.js:17-36 | the matching workers are exactly those whose normalized answer is the consensus's, no class is larger, and none as large was seen earlier |
| Vote.VoteIsUnanimous | src/vote.js:30-35 | unanimous, confidence 1 and all answers alike are the same thing |
| Reconcile.ClusterVote | src/reconcile.js:106-133 | the greedy clustering loops compute the exact-match vote over the representatives; without submissions it throws |
| Reconcile.ClusterVoteIsLargest | src/reconcile.js:94-133 | the matching workers are exactly those for whom the consensus is the first representative they resemble, and no cluster is larger |
| Reconcile.RelabeledAt | src/reconcile.js:100-104 | every answer goes to the first representative it resembles, of those there will ever be |
| Reconcile.RepresentativesDiffer | src/reconcile.js:109-119 | no representative resembles an earlier one |
| Reconcile.ClassStaysTogether | src/reconcile.js:61-73 | answers that normalize alike share a cluster |
| Reconcile.VotesAgree | src/reconcile.js:106-133 | the cluster vote is the exact-match vote if and only if all answers in the winning cluster normalize alike; agreeing on the consensus and its size is enough |
| Reconcile.UnanimousBoth | src/reconcile.js:126-132 | an exact unanimity is a unanimity of clusters |
| Reconcile.ParaphrasesAgree | test/reconcile.test.js:38-50 | where every answer resembles the first the vote is unanimous, and exact only if all normalize alike |
| Consensus.LargestToleranceCluster | src/consensus.js:103-114 | the loop returns the cluster of the first center that no center beats |
| Consensus.ClusterIsBest | src/consensus.js:93-114 | the cluster is exactly the entries near its center, of maximum size, then minimum spread, then earliest |
| Consensus.BestCenter | src/consensus.js:105-112 | the center that beats every earlier one and is beaten by none |
| Consensus.NumericToleranceVote | src/consensus.js:125-149 | the vote is the largest cluster unless a class of equal texts is strictly larger |
| Consensus.NumbersAreOutweighed | src/consensus.js:135-142 | the winner is at least as large as every cluster, strictly larger when it is a class of texts |
| Consensus.TextsAreOutweighed | src/consensus.js:135-142 | the winner is at least as large as every class of equal texts |
| Consensus.ConfidenceIsShareOfAll | src/consensus.js:144-149 | the confidence is the winner's share of all submissions, and 1 only when everybody matched |
| Consensus.AbsoluteClusterWidth | src/consensus.js:86-90 | members of an absolute cluster are within twice the tolerance of each other |
| Consensus.NotOfEachOther | src/consensus.js:151-154 | but not within the tolerance of each other, nor is a percentage symmetric |
| Provenance.SameMembersIsMultisetEquality | src/provenanceVerify.js:55-57 | sameMembers is multiset equality when one side's ids are single lines |
| Provenance.SameMembersNeedsOneLiners | src/provenanceVerify.js:55-57 | two different lists it takes for the same when ids contain line breaks |
| Provenance.Rederive | src/provenanceVerify.js:66-134 | its checks all pass exactly when the record follows from its inputs |
| Provenance.VerifyProvenance | src/provenanceVerify.js:144-158 | accepts exactly a record that hashes, matches the published hash, has this version, follows from its inputs and decides accordingly |
| Provenance.PipelineVerifies | src/oracle.js:489-505 | the committed record verifies if and only if the verifier knows the method, the cluster vote was the exact vote, an LLM named only submitters on answers not all alike and left no field out, and no cap lowered a lone answer |
| Provenance.DefaultModeLlm | src/provenanceVerify.js:94-115 | in the default mode an LLM's record is re-derivable exactly when it named nobody but submitters and left out neither consensus nor confidence |
| Provenance.UnratedConsensusRejected | src/oracle.js:501-505 | an LLM's consensus without a confidence is refunded and its record rejected |
| Provenance.ParaphrasesRejected | src/provenanceVerify.js:78-92 | any unanimous fast path over answers that do not all normalize alike pays everybody and fails verification |
| Provenance.FortyTwoRejected | test/reconcile.test.js:38-50 | the record of "42", "the answer is 42", "42" fails verification |
| Provenance.RustRejected | test/reconcile.test.js:52-64 | so does the two-thirds plurality of "Rust", "the answer is Rust", "Python" |
| Provenance.VerifiedCarriesVote | src/provenanceVerify.js:77-94 | a vote record verifies if and only if it hashes, carries the exact-match vote on its submissions up to order, and decides by it |
| Provenance.VerifyPayout | src/provenanceVerify.js:183-200 | accepts exactly the call that carries out the record's decision |
| Provenance.PayoutIsExact | src/provenanceVerify.js:183-200 | a resolve() passes exactly when it credits and slashes the same multisets of workers |
| Provenance.PayoutPartitionsSubmitters | src/oracle.js:657-660 | credited and slashed workers partition the submitters |
| WorkerAnalytics.ComputeStreak | src/workerAnalytics.js:78-98 | the current streak is exact and the sorted scan finds a longest all-active interval |
| WorkerAnalytics.ApplyOutcome | src/workerAnalytics.js:44-64 | counts the outcome, drops the oldest days past the limit, and keeps the longest streak current |
| WorkerAnalytics.TrimmedIsNewest | src/workerAnalytics.js:50-53 | trimming keeps exactly the newest days |
| WorkerAnalytics.StoredLongestStreak | src/workerAnalytics.js:38-64 | for timestamps in order the stored streak is the smaller of 400 and the longest run in the full history |
| WorkerAnalytics.NeverOverstated | src/workerAnalytics.js:38-64 | in any order of arrival it is never more than that |
| WorkerAnalytics.OutOfOrderUnderstates | src/workerAnalytics.js:61-62 | out of order it can be less |
| MaintenanceWindows.ComputePause | src/maintenanceWindows.js:90-105 | the single sorted sweep computes the pause defined by the repeated full scans it replaced |
| MaintenanceWindows.PauseIsExact | src/maintenanceWindows.js:90-105 | a pause exactly when a window covers now, ending at the first time no window covers, named by an earliest-starting active window |
| MaintenanceWindows.OrderDoesNotMatter | src/maintenanceWindows.js:90-105 | start and end of a pause do not depend on the order of the list |
| MaintenanceWindows.PruneIsSafe | src/maintenanceWindows.js:111-113 | pruning leaves every pause alone exactly when it happens at most the retention period after the time asked about |
| MaintenanceWindows.Schedule.AddWindow | src/maintenanceWindows.js:126-135 | adds a valid window within the cap; from now on the pause is that of the old windows and the new one |
| MaintenanceWindows.Schedule.RemoveWindow | src/maintenanceWindows.js:139-145 | tells whether the id was there; from now on the pause is that of the remaining windows |
| Teams.TeamsStayInStep | src/teams.js:161-287 | after any operations each team has one owner, distinct members and its cap, and lists and records agree |
| Teams.ListingIsExact | src/teams.js:183-187 | listTeamsFor is exactly the teams containing the address, and drops nothing |
| Teams.OpKeeps | src/teams.js:161-287 | every operation keeps the invariant |
| Teams.OwnershipPasses | src/teams.js:241-255 | a team's owner changes only by the owner naming the new one, and stays on as admin |
| Teams.TeamStore.CreateTeam | src/teams.js:161-179 | creates the team, its membership and its index entry, or changes nothing |
| Teams.TeamStore.AddMembers | src/teams.js:201-234 | all or nothing: no write can fail after the checks |
| Teams.TeamStore.SetMemberRole | src/teams.js:241-255 | changes the role, demoting the owner on a transfer, or changes nothing |
| Teams.TeamStore.RemoveMember | src/teams.js:262-278 | removes the member from record and list, or changes nothing |
| Teams.TeamStore.DeleteTeam | src/teams.js:280-287 | removes the record, every member's list entry and the index entry, or changes nothing |
| Teams.TeamStore.ListTeamsFor | src/teams.js:183-187 | returns exactly the teams that have the address as a member |
| TeamCrashes.AlwaysSafe | src/teams.js:161-287 | after operations cut short anywhere every team is sound and in the list of each of its members |
| TeamCrashes.ListingSurvives | src/teams.js:181-187 | listTeamsFor is still exactly the teams that have the address as a member |
| TeamCrashes.AgreesUnlessTorn | src/teams.js:161-287 | from records in step, an operation leaves lists and records in agreement if and only if it was not cut between the two |
| TeamCrashes.RetryAfterCut | src/teams.js:161-287 | after a cut between lists and record a retried removal or deletion is refused; a creation exactly when the left-over entry filled its owner's list; an addition exactly when one filled a list before the cut, and completed otherwise |
| Earnings.RecordingAgain | src/earnings.js:63-82 | recording again adds nothing exactly when the year is the same or already has it |
| Earnings.AllCreditedList | src/earnings.js:63-82 | one record for each matching worker without one of this question that year, and nothing else |
| Earnings.IndexesAreExact | src/earnings.js:49-57 | while no store call fails both year indexes hold exactly the pairs of worker and year with a record |
| Earnings.IndexesAreExactWhere | src/earnings.js:42-57 | after any calls, complete or cut short, they are exact for a worker and year if and only if some call that added a record there got to the end of indexing it |
| Earnings.RetryDoesNotIndex | src/earnings.js:68-80 | a call cut short between record and index is not repaired by calling again |
| Earnings.EarningsStore.RecordWorkerCredits | src/earnings.js:63-82 | the loop records exactly that, cut short wherever the store throws |
| Earnings.EarningsStore.RecordWorkerWithdrawal | src/earnings.js:87-101 | one record per transaction, indexed unless the store throws |
| Earnings.BuildTaxSummary | src/taxReport.js:158-196 | gross, months and withdrawals are the sums they are called |
| Earnings.MonthsSumToGross | src/taxReport.js:158-164 | the months add up to the gross, to the stroop |
| Earnings.RoundedMonths | src/taxReport.js:67-70 | rounded months differ from the rounded gross by at most six cents |
| Earnings.SixCentsIsTight | src/taxReport.js:67-70 | and by six in either direction for some year |
| Dispatch.ResolvesOnce | src/dispatch.js:646-695 | the first ending event settles the promise for good; at quorum or timeout with every accepted answer, empty when nobody was reached |
| Dispatch.ResultIsSound | src/dispatch.js:130-183 | one answer per worker, sent, whitelisted and screened, at most the quorum, and exactly it on early finish |
| Dispatch.Collector.HandleAnswer | src/dispatch.js:130-183 | true exactly when the answer was recorded |
| Dispatch.Collector.OnTimer | src/dispatch.js:664-672 | settles with what arrived unless already settled |
| Dispatch.Collector.OnBroadcast | src/dispatch.js:674-688 | settles empty when nobody was reached or the broadcast failed, unless already settled |
| Dispatch.EmptyBroadcastDropsAnswers | src/dispatch.js:682-684 | an accepted answer is lost when the broadcast turns out to reach nobody |
| Dispatch.SelectTargets | src/dispatch.js:444-477 | the filters in order: whitelist, category, reputation, track record |
| Dispatch.TargetsAreSound | src/dispatch.js:425-477 | targets are online and whitelisted, and empty only for an empty private pool, but for one exception |
| Dispatch.PreferencesApply | src/dispatch.js:444-477 | with an eligible specialist among the candidates every target is eligible and serves the category |
| Recovery.SnapshotPendingIds | src/disasterRecovery.js:118-132 | what a consistent snapshot holds; the whole pending set while the index only shrinks or only grows during the scan |
| Recovery.SnapshotIsWhole | src/disasterRecovery.js:107-132 | while questions only leave, by swap-remove, or only arrive, equal counts mean the pages read are the whole index |
| Recovery.FoundUnlessMovedBehind | src/disasterRecovery.js:107-132 | under any mixture of changes a question that stays pending is found if and only if no swap-remove takes it behind the scan |
| Recovery.MixedChangesCancel | src/disasterRecovery.js:107-132 | changes both ways can cancel in the count and hide a pending question |
| Recovery.SweepOne | src/disasterRecovery.js:173-209 | one item: judged, deferred, re-read and refunded, with at most one attempt |
| Recovery.SweepPendingQuestions | src/disasterRecovery.js:145-211 | nothing at all on an inconsistent snapshot; else an item for every id found, which is every pending question while the index moves one way, attempts within the limit, none in a dry run, each after a fresh pending read and never for a served question |
| Jobs.SpreadIsMerge | src/jobs.js:285-294 | immediate from the definitions: spreading a patch over the stored fields is the settlement machine's merge |
| Billing.DebitGivesUp | src/billing.js:606-620 | immediate from the definitions: five lost races and nothing is debited, whatever is left |
| Provenance.SettlementPays | src/oracle.js:655-661 | immediate from the definitions: the call settleResolved makes passes, the refund replacing a failed one does not |
| Earnings.SplitConserves | src/earnings.js:36-40 | immediate from the definitions: fee, shares and dust add up to the amount, with less dust than workers |
| Recovery.RefundsTheUnserved | src/disasterRecovery.js:75-105 | immediate from the definitions: a refund is for a pending question nothing local serves, and every such question but a young orphan gets one |
| Provenance.InstantVerifies | src/oracle.js:590-613 | immediate from the definitions: the record of the instant tier verifies exactly when the LLM gave no answer or gave it with a confidence |
| Provenance.UnratedDraftRejected | src/provenance.js:81-85 | immediate from the definitions: a draft without a confidence resolves, is recorded with 0, and its record is rejected |
| Recovery.NobodyMovesBack | src/disasterRecovery.js:107-109 | immediate from the definitions: swap-remove and arrival move no question to a later position |

## Left out

- HTTP routes, SSE frames, Web Push, middleware, the MCP server, both SDKs, dashboards and scripts: plumbing around these rules.
- Stellar, Soroban, XDR, Stripe and LLM calls, SHA-256 and HMAC: parameters or nondeterministic outcomes; of the contract only that a question that is not pending rejects resolve() and refund().
- The body of `reconcile()`: cut in the repository. `Provenance.Reconciled` follows its documentation at `src/reconcile.js:290-345`, the votes it calls, and the methods and results that `test/reconcile.test.js` and `test/consensus.test.js` assert; which LLM provider answers, and what, is free. `assertMatchingWorkerIdsAreReal`, which no file defines, is not part of this model.
- The texts of LLM prompts: whether a committed prompt holds the committed inputs is one flag of a record, true of the ones the pipeline builds.
- Expiry of claim keys and job records in the settlement machine: the store's own theorems state when a claim holds.
- Concurrent updates of read-then-write lists (job, review, payer, worker and referee indexes): the code does not make them atomic.
- `approveReview`: the same read-then-act shape as `markPendingReview`; nothing in the repository calls either.
- Jobs.JobStore.UpdateJob: for records whose status and outcome are those of the settlement machine; other fields are carried along unread.
- SignerLock.CallsTakeTurns: how many attempts a call makes, backoff and failover between RPC servers are free choices of the environment.
- `createDrainController`, `createReadOnlyGate`, `deploymentFingerprint`: a counter, a path filter and a record.
- Store exceptions in a webhook delivery of the credit ledger: nothing catches them before the delivery is answered with an error, so they are crashes of it.
- Provenance.PipelineVerifies: fields of a tool call are missing, null or of their declared type.
- Currency conversion and the other payment processors' webhooks.
- CanonicalJson.PrintReads: numbers are integers below 10^21, which print without a fraction or exponent; the record-to-JSON mapping is not spelled out, `VerifyProvenance` takes the hash as a function of the record.
- Reconcile.ClusterVote: which words are stop words is any predicate on words.
- Vote.NormalizeIsWords: characters are letters or digits with a case, white space, or other; case mappings that change length are not modelled.
- `parseNumericAnswer`: any function from texts to numbers; arithmetic is over reals, so floating-point rounding of spreads, shares and similarities is not modelled.
- The aliasing of objects handed out by the in-memory store: records are values, as they are in Redis.
- Teams.TeamStore.AddMembers: one operation at a time; the per-address promise queue that serializes concurrent membership writes is not modelled.
- TeamCrashes.AlwaysSafe: operations are cut short but do not overlap.
- Earnings.AllCreditedList: UTC times are a year and a month; years sort as numbers, as their four-digit strings do.
- Recovery.SweepPendingQuestions: the tail of the function is cut in the repository; a refund that was sent is recorded as such, a call that throws marks the item failed.
- Admin listings, metrics, tracing, leaderboards, support tickets and fraud scoring.
