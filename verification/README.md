# The money core of a rotating savings platform

A model of how the platform moves, holds and accounts for money, with proofs about every run of it.
Amounts are kobo and integers, as in the original; the trust index is computed in exact reals.

- **Ledger** (`Ledger`, `LedgerService`, `Audit`): append-only entries with a running balance per wallet, reserve
  buckets, the five kinds of code that write entries, and the audit that recomputes everything.
- **Circle lifecycle** (`Membership`, `Circles`, `Contributions`, `Loans`, `Payouts`, `PayoutScheduler`,
  `MissedContributions`, `Entries`): each operation is a function from the tables to the tables or an error, and a
  transaction on a class `Database` that is proved to compute that function and to roll back on failure.
- **Runs of the platform** (`Platform`, `Preservation`, `Runs`, `Frames`, `Records`, `Guarantees`, `Outcomes`, `Slots`,
  `Theorems`, `Books`, `Fairness`, `FairRuns`, `FairWitness`, `Mishaps`): all operations as steps of one machine over
  unboundedly many users and circles sharing one pool, the invariant every step keeps, and what follows for every run.
- **Settlement with the provider** (`Settlement`, `AtMostOnce`, `SettlementTheorems`, `WebhookService`, `Reports`,
  `Withdrawal`, `WithdrawalTheorems`, `WithdrawalService`, `ProviderMoney`, `Retries`): each database transaction and
  each read before it is one atomic step; deliveries, jobs, user checks and reconciliations interleave freely.
- **Algorithms** (`Sorter`, `Positions`, `Calendar`, `Credit`, `Trust`).

Conventions of the model:

- A reference with a fresh UUID is `Drawn(label, n)`, where n counts the transactions committed before; two
  transactions never draw the same n. The ledger's unique key is wallet, reference, source type and source id.
- "Latest by creation time" is the last element of a sequence. A transaction that throws leaves the state unchanged.
- The pool's wallet belongs to no user who acts, so a user wallet `Of(u)` is never the pool.
- What the outside supplies is a parameter of a step: the clock, the order in which the database lists rows, random
  draws, trust scores handed to the sorter, and everything the provider answers.
- Memberships and schedules are keyed as their unique indexes are; a payout's schedule column is unique
  (`prisma/schema.prisma:463`), failed payouts included.

Where the code differs from what its names or comments promise, the model follows the code:

- A failed payout can never be retried: `Payouts.RetryNeverSucceeds`, `PayoutScheduler.PaidOnceForEver`.
- A reversal does not compare amount, recipient or schedule with the payout it names: `Outcomes.ReverseExactly`.
- Reversing a payout that repaid a loan neither reopens the loan nor restores the pool: `Guarantees.PayoutThenReversal`.
- Rejection refunds collateral without setting the release flag, so leaving or completion refunds it again:
  `Theorems.RejectedLeaverIsRefundedTwice`, `Theorems.CompletionUnlocks`, `Theorems.ReservedIsWhatIsLocked`.
- Approving an active member again makes the slot counter wrong, and activation then refuses the circle:
  `Slots.SlotsCountMembersAndRepeats`, `Slots.ActivationMiscountsExactly`.
- A circle can end above its size by approvals when it is full, and in no other way: `Slots.RoomRunsOut`,
  `Slots.OnlyApprovalsOverfill`. The service's own guard would let an edit to zero slots through; the request validation
  (`src/modules/rosca/dto/circle.dto.ts:151-155`) refuses it first.
- "Re-validate eligibility inside the transaction" reads outside it, and being paid out already or the end of the circle
  does not stop a loan: `Outcomes.BorrowExactly`, `Books.PaidMembersStillBorrow`, `Books.LateLoanNeverRepaid`,
  `Mishaps.LateLoansHappen`.
- Contributions are taken for cycles already paid out (`Outcomes.ContributeExactly` asks only for the payout date) and
  never leave the pool: `Mishaps.StrandingHappens`, `Books.StrandedStaysInPool`. The last payout leaves earlier unpaid
  cycles behind: `Books.UnpaidAtCompletionStays`.
- A release on a bucket that was never reserved adds to it: `Audit.AuditCleanIffReleasesReserved` says exactly when
  this spoils the audit.
- Nobody is recorded as having missed the last cycle: `MissedContributions.LastCycleMarksNobody`.
- Reassigned positions can collide: `Positions.ReassignmentDistinct` and `Positions.ChainBreaks`.
- Two payment types for one checkout credit it twice, and a failure can overwrite SUCCESS:
  `SettlementTheorems.TwoTypesCreditTwice`, `SettlementTheorems.FailureOverwritesSuccess`.
- An overpaid checkout fails or settles, whichever comes first: `WebhookServices.OverpaymentDependsOnWhoComesFirst`.
- A confirmed withdrawal can end both SUCCESS and paid back, and an administrator's reversal can pay it back twice:
  `WithdrawalTheorems.SuccessOverwritesReversal`, `WithdrawalTheorems.AdministratorsReversalIsExtra`.

## Model

| member | source | states |
|---|---|---|
| `FairRuns.FairCircle` | src/modules/payout/payout.service.ts:63-255 | From any reachable state: activate a circle of n > 0 members and let any run follow, with other circles, other users, the provider and the members themselves doing anything in between, as long as contributions to this circle are its members' and on time, each cycle pays out after everybody has paid in to it and the last one last, nobody borrows against it and no payout of it is reversed. Once the last cycle has its payout the circle is COMPLETED, exactly the cycles 1..n were paid, the circle's own steps took exactly floor(2nc/100) from each member, gave the pool n times that and left every other wallet alone, and no membership locks anything any more. |
| `FairRuns.MoneySoFar` | src/modules/payout/payout.service.ts:63-255 | At every point of such a run, not only at its end: a member has put in c for each cycle paid in and got the pot less its fee once their cycle was paid; the pool holds the rest. |
| `FairRuns.FairStep` | src/modules/contribution/contribution.service.ts:64-110 | Each step of such a run moves every wallet by exactly what the records of who paid in and which cycles were paid say, and every pot stays c times its payers. |
| `FairWitness.FairRunsExist` | src/modules/rosca/services/circle.service.ts:61-130 | Such runs exist for every n > 0 and every amount of at least 10 kobo: from an empty platform, n users fund wallets, join, are approved, and the circle plays to the end. |
| `FairWitness.RoundsAreFair` | src/modules/contribution/contribution.service.ts:64-110 | Rounds in which everybody pays on time before the payout are such runs. |
| `Fairness.RoundsComplete` | src/modules/payout/payout.service.ts:63-255 | Liveness, for a circle played in rounds with nothing else in between: members who have at hand their contributions up to and including their own cycle, and the fee, make every one of the n(n + 1) steps succeed, and the circle finishes. |
| `Fairness.RoundRuns` | src/modules/contribution/contribution.service.ts:47-233 | One round keeps the invariant the fairness proof runs on: a full set of on-time contributions makes its payout succeed, and the payout closes the round or finishes the circle. |
| `Fairness.FullPotIsEnough` | src/modules/contribution/contribution.service.ts:47-233 | Available money for n contributions is always enough at hand for that. |
| `Theorems.EveryWalletAuditsClean` | src/modules/reconcilation/reconcilation.service.ts:15-69 | After any run of the whole platform every wallet chains, its latest snapshot is the sum of its history, its buckets are its reserves less its releases, and what is reserved is covered by the balance. |
| `Theorems.EveryRunConserves` | src/modules/payout/payout.service.ts:132-209 | In every run the sum of all wallet balances is the net money moved by the provider, plus the loans still running, less the fees of the repaid ones. |
| `Theorems.EveryRunSolvent` | src/modules/payout/payout.service.ts:90-159 | In every run the pool covers the pots of all cycles without a payout together and each of them alone, and a cycle has at most one payout row. |
| `Theorems.EveryRunLendsOnce` | src/modules/loans/loans.service.ts:69-122 | In every run a user has at most one running loan and at most one running or repaid loan per circle. |
| `Theorems.EveryLoanIsFair` | src/modules/loans/loans.service.ts:95-122 | In every run every single loan leaves at least 40% of a positive expected payout, and amount, fee and final payout add up to it. |
| `Books.PayoutRepaysLoan` | src/modules/loans/loans.service.ts:206-243 | In every run a payout to a borrower marks the loan REPAID exactly when the pot exceeds loan and fee, and the borrower then owes nothing. It does whenever 5k > 3n for k contributions to the cycle and the n slots the loan was sized on; with k >= n the new payout row is at least the final payout promised. The contributions are the rows of the run and the slots those recorded when the loan was granted. |
| `Books.EveryRunPoolExactly` | src/modules/payout/payout.service.ts:132-209 | In every run the pool holds to the kobo the pots of the cycles without a payout, the platform's fees, what came in for cycles already paid out, and what reversals brought back. |
| `Books.StrandedStaysInPool` | src/modules/contribution/contribution.service.ts:64-110 | After every continuation of every run the pool's balance covers, on top of all it owes then, whatever had come in by the end of the first part as fees, for cycles already paid out, and by reversals: nothing but the pots of unpaid cycles ever leaves the pool. |
| `Books.PaidCycleStrands` | src/modules/contribution/contribution.service.ts:64-110 | In every run a contribution that goes through for a cycle with a payout, and only such a one, adds to the account of money come in too late, by everything it paid. |
| `Mishaps.StrandingHappens` | src/modules/contribution/contribution.service.ts:64-110 | Such runs exist for every circle size above one and every amount of at least 10 kobo: a cycle is paid out when only one member has paid in, and the next member's contribution to it goes through. |
| `Books.UnpaidAtCompletionStays` | src/modules/payout/payout.service.ts:216-233 | A cycle unpaid when its circle completes is never paid in any later run, and its pot stays in the pool. |
| `Books.PaidMembersStillBorrow` | src/modules/credit/credit.service.ts:101-135 | A member who has been paid in every cycle of theirs, even in a circle that has completed since the credit service looked, is granted a loan exactly as anybody else. |
| `Books.LateLoanNeverRepaid` | src/modules/loans/loans.service.ts:206-243 | Such a loan stays ACTIVE, unchanged, in every later run. |
| `Mishaps.LateLoansHappen` | src/modules/credit/credit.service.ts:101-135 | Such runs exist for every circle size above one and every amount of at least 10 kobo: the first recipient borrows after the first round. |
| `Theorems.ReservedIsWhatIsLocked` | src/modules/rosca/services/membership.service.ts:61-90 | In every run a user's reserved total is the collateral of the memberships not yet released less what rejections refunded; it equals the locked collateral exactly when no rejection refunded this user, and then lies between 0 and the balance. The available balance is balance less locks plus those refunds, so it exceeds the balance exactly when they exceed the locks. |
| `Theorems.EveryBucketIsItsLock` | src/modules/rosca/services/membership.service.ts:61-90 | In every run each reserve bucket belongs to one membership and holds the collateral it still locks, zero once it is released or gone, less what a rejection gave back for that very membership. |
| `Theorems.EveryLockHasItsBucket` | src/modules/rosca/services/membership.service.ts:61-90 | In every run each membership has its bucket, in its own member's wallet, with its unreleased collateral in it less that refund. |
| `Theorems.CompletionUnlocks` | src/modules/payout/payout.service.ts:396-452 | The last payout completes the circle, releases every membership, and leaves each bucket at zero, or below zero by what a rejection had already refunded. |
| `Theorems.RejectedLeaverIsRefundedTwice` | src/modules/rosca/services/membership.service.ts:321-381 | From any reachable state: a member rejected in a draft circle can always leave it afterwards, and the bucket that held the collateral ends as far below zero. The release flag is never set by a rejection. |
| `Theorems.LeaveExactly` | src/modules/rosca/services/membership.service.ts:124-177 | In every reachable state leaving works exactly for a member of a draft circle, returns the collateral to the available balance, and never finds too few slots. |
| `Guarantees.PayoutExactly` | src/modules/payout/payout.service.ts:63-233 | In every reachable state a payout succeeds exactly when the circle is active, the cycle has a recipient and a non-empty pot and no payout row exists; the pool's balance, ledger keys, loans and collateral releases never stop it. |
| `Guarantees.PotGoes` | src/modules/payout/payout.service.ts:132-209 | What a payout moves, wallet by wallet: the net to the recipient, the 2% back to the pool, or loan and fee off the pot, and which loan is marked repaid. |
| `Guarantees.PayoutWrites` | src/modules/payout/payout.service.ts:132-255 | The rows a payout writes: its own COMPLETED row, the cycle's schedule COMPLETED, the circle COMPLETED exactly on its last cycle; circles and memberships stay before that. |
| `Guarantees.PayoutThenReversal` | src/modules/payout/payout.service.ts:275-369 | Reversing a payout by its net amount always works right after it and restores the recipient; it restores the pool exactly when no loan was repaid, and a repaid loan is not reopened. |
| `Guarantees.PoolCoversPot` | src/modules/payout/payout.service.ts:116-159 | The pool always holds the pot of a cycle that was never paid. |
| `PayoutScheduler.ProcessDuePayouts` | src/modules/payout/payout-scheduler.service.ts:18-70 | The batch loop computes the left-to-right application of the payout, skipping cycles already paid and going on after failures. |
| `PayoutScheduler.BatchPaysTheDue` | src/modules/payout/payout-scheduler.service.ts:18-70 | From any reachable state, with nothing happening between its payouts: processing what the due query lists (UPCOMING, payout date not after now, in order of payout date) creates a payout for exactly the due cycles that were eligible when the batch started. That a circle's last cycle comes last in the list is derived from the dates. |
| `PayoutScheduler.BatchAmongOthers` | src/modules/payout/payout-scheduler.service.ts:34-51 | The same batch with any steps of the platform before each of its payouts, each a transaction of its own: a cycle due and eligible at the start is paid out in the end, unless its circle is over because somebody else paid it out meanwhile; and while nobody else pays the circle out or contributes to the cycle, the batch pays exactly what it would have paid alone. |
| `PayoutScheduler.PaidOnceForEver` | src/modules/payout/payout.service.ts:90-105 | Once a cycle has a payout row, no later run makes a payout for it succeed, even after the row was reversed and the schedule set back to UPCOMING. |
| `Payouts.RetryNeverSucceeds` | src/modules/payout/payout.service.ts:374-387 | A retry is offered only for a failed payout, whose row still occupies the unique schedule column; so it fails in every state. |
| `LedgerServices.LedgerService.WriteEntry` | src/modules/ledger/ledger.service.ts:33-162 | The in-place write refines the ledger specification: which request is refused with which error, and the exact entry and buckets otherwise. |
| `LedgerServices.LedgerService.CreateReversalEntry` | src/modules/ledger/ledger.service.ts:171-195 | A reversal is the write of the opposite entry under the reversal reference. |
| `LedgerServices.LedgerService.GetDetailedBalance` | src/modules/ledger/ledger.service.ts:219-243 | Total, reserved and available; on a chained wallet the O(1) total is the O(n) sum. |
| `LedgerServices.ReversalExactlyOnce` | src/modules/ledger/ledger.service.ts:171-195 | An entry can be reversed exactly when it is a credit or debit not reversed before whose money is still there; it is then undone, and never a second time. |
| `LedgerServices.ComputeFullBalance` | src/modules/withdrawal/withdrawal.service.ts:312-341 | The accumulating loop returns the sums of credits and debits and of the buckets. |
| `LedgerServices.VerifyWalletIntegrity` | src/modules/reconcilation/reconcilation.service.ts:15-69 | The audit's drifts are snapshot minus history and reserves less releases minus buckets; both are zero on a sound wallet. |
| `Ledger.WriteEffect` | src/modules/ledger/ledger.service.ts:97-162 | One successful write moves balance and reserved total by exactly the signed amount and the hold, keeps the chain, and opens an audit drift only for a release of something never reserved. |
| `Ledger.WriteExactly` | src/modules/ledger/ledger.service.ts:33-162 | A write is accepted exactly for a positive amount, with a bucket other than MAIN if and only if it reserves or releases, with what it debits or reserves available, under a new key; the entry it appends and the bucket it moves, in numbers. |
| `Ledger.BalanceIsNet` | src/modules/ledger/ledger.service.ts:219-226 | On chained entries the latest snapshot is the sum of the whole history. |
| `Entries.ContributionEntries` | src/modules/contribution/contribution.service.ts:126-200 | The entries of a contribution, with labels, source types and running balances: a debit of the member and a credit of the pool, and a second such pair exactly for a positive fee. |
| `Entries.PayoutEntries` | src/modules/payout/payout.service.ts:132-209 | The entries of a payout: the whole pot out of the pool, the net to the recipient, and the 2% back to the pool when no loan was repaid and it is positive. |
| `Entries.LoanEntry` | src/modules/loans/loans.service.ts:125-160 | The one entry of a loan, a credit of the borrower out of no wallet. |
| `Entries.ReversalEntries` | src/modules/payout/payout.service.ts:295-340 | The two entries of a reversal. |
| `Entries.CollateralEntries` | src/modules/rosca/services/membership.service.ts:61-90 | The entry and the bucket of a join request, under the membership it is for. |
| `Entries.RefundEntries` | src/modules/rosca/services/membership.service.ts:141-159 | The entry of every refund of collateral. |
| `Entries.ReleaseEntries` | src/modules/payout/payout.service.ts:405-430 | The entry of every release on completion. |
| `Audit.StepKeepsChain` | src/modules/ledger/ledger.service.ts:70-162 | Each of the five kinds of ledger writer keeps the chain and moves the bucket drift by exactly the orphaned amount. |
| `Audit.AuditEveryRun` | src/modules/ledger/ledger.service.ts:70-162 | Over every run of every writer the chain and the O(1) balance hold, and the bucket drift is twice what was released without having been reserved. |
| `Audit.AuditCleanIffReleasesReserved` | src/modules/ledger/ledger.service.ts:117-134 | From an empty wallet the audit is clean after a run exactly when no release lacked its reserve, and then the available balance is not negative. |
| `ProviderMoney.SettlementIsExternal` | src/modules/webhooks/webhooks.service.ts:168-200 | A settled payment is one of the platform's external money steps, so the run theorems cover it. |
| `ProviderMoney.WithdrawalIsExternal` | src/modules/withdrawal/withdrawal.service.ts:118-182 | A withdrawal's debit is one of the platform's external money steps. |
| `ProviderMoney.ReversalIsExternal` | src/modules/withdrawal/withdrawal.service.ts:266-303 | A withdrawal's compensating credit, on either path, is one of the platform's external money steps. |
| `Runs.StepKeeps` | src/modules/payout/payout.service.ts:63-452 | Every operation, accepted or refused, keeps the platform invariant: wallets, collateral, pool, loans and conservation together. |
| `Runs.RunKeeps` | src/modules/payout/payout.service.ts:63-452 | So does every run of operations. |
| `Preservation.ContributeKeeps` | src/modules/contribution/contribution.service.ts:47-233 | A contribution keeps the invariant. |
| `Preservation.PayoutKeeps` | src/modules/payout/payout.service.ts:63-255 | A payout keeps it, also when it completes the circle. |
| `Preservation.ReverseKeeps` | src/modules/payout/payout.service.ts:275-369 | A reversal keeps it, whatever amount, recipient and schedule the request names. |
| `Preservation.FinalizeSucceeds` | src/modules/payout/payout.service.ts:396-452 | In every reachable state the release of collateral cannot fail, so it never blocks a last payout. |
| `Preservation.BorrowKeeps` | src/modules/loans/loans.service.ts:69-170 | A loan keeps it, and its terms are fair. |
| `Preservation.EnrolledKeeps` | src/modules/rosca/services/membership.service.ts:61-90 | Reserving collateral for a new membership keeps it. |
| `Preservation.UnlockedKeeps` | src/modules/rosca/services/membership.service.ts:141-159 | Releasing a membership's collateral on leaving, cancelling or rejection keeps it. |
| `Preservation.ActivateKeeps` | src/modules/rosca/services/circle.service.ts:61-130 | Activation keeps it. |
| `Preservation.MovedKeeps` | src/modules/webhooks/webhooks.service.ts:168-238 | Money from and to the provider keeps it. |
| `Records.RunRecords` | src/modules/contribution/contribution.service.ts:47-110 | In every run contributions, payouts and loans exist only for circles past the draft stage, every contribution row carries the amount its circle started with and at most the late fee, every scheduled cycle is one of the circle's and has a recipient, and of two cycles the earlier pays out before the later one's deadline. |
| `Records.EverySightAllowed` | src/modules/credit/credit.service.ts:101-135 | The credit service reads the circle and then the membership. Whatever a run has been through between and after the two reads, what they saw satisfies what the model asks of a loan's approval: the circle has started, at that amount, and the membership is still there. |
| `Outcomes.ContributeExactly` | src/modules/contribution/contribution.service.ts:47-233 | A contribution succeeds exactly when the member may pay in before the payout date and has the amount available and, after the deadline, on top of it the one whole number of kobo f with 50f <= amount < 50(f + 1); a second one for the cycle fails. |
| `Outcomes.ContributionMoves` | src/modules/contribution/contribution.service.ts:132-223 | Amount and fee leave the member and enter the pool, and no other balance and no bucket moves. The fee recorded is the f with 50f <= amount < 50(f + 1) after the deadline and 0 before; the membership counts one contribution more, one late payment more exactly when late, and the fee. |
| `Outcomes.JoinExactly` | src/modules/rosca/services/membership.service.ts:35-122 | A join request succeeds exactly when the circle is open and not full, the user is no member, and c >= 1 is available, where 10c <= amount < 10(c + 1); the available balance falls by c and the PENDING membership without a position that records c is all else that is new. |
| `Outcomes.JoinThenCancel` | src/modules/rosca/services/membership.service.ts:179-218 | A request followed by its cancellation restores members, circles, every balance and every available balance. |
| `Outcomes.RefundsFully` | src/modules/rosca/services/membership.service.ts:141-159 | A refund never fails in a reachable state and gives back exactly the membership's collateral. |
| `Outcomes.BorrowExactly` | src/modules/loans/loans.service.ts:69-170 | A loan is granted exactly to a user with no running loan and none taken from this circle, whom the credit service saw as an active member of the circle while it was active, at 550 or more, on a payout that lends at least a kobo. With E the amount times the slots as seen and p the score's percent, it has 100 loan <= E p < 100 (loan + 1), 10 fee <= E < 10 (fee + 1) and final payout E - loan - fee; only the borrower's wallet moves, by the loan. A second request at once fails. |
| `Books.EveryLoanOnItsTerms` | src/modules/loans/loans.service.ts:95-122 | In every run each loan row meets the same three relations for the slots and the score it was granted on: the company's fee is a tenth of the expected payout, not of the loan. |
| `Loans.TermsExactly` | src/modules/loans/loans.service.ts:95-122 | These relations determine the row: no other amounts meet them. |
| `Outcomes.InviteExactly` | src/modules/rosca/services/invite.service.ts:129-208 | An invite admits its invitee exactly when it is unused and unexpired, the circle is a draft with room, and the whole tenth of the amount, at least a kobo, is available; the member enters active at the next position with that locked, a slot is filled, nothing else moves, and the invite never works again. |
| `Outcomes.ApproveExactly` | src/modules/rosca/services/membership.service.ts:267-319 | An approval goes through exactly for the administrator and an existing membership; that becomes ACTIVE at the position after the slots filled so far, one slot more is filled, and nothing else moves. |
| `Outcomes.RefusedOrCancelled` | src/modules/rosca/services/membership.service.ts:179-218 | A cancellation and a rejection go through exactly for a PENDING request; both give the whole collateral back to the available balance and leave the slots, the one deletes the membership, the other leaves it REJECTED with its flag as it was. |
| `Outcomes.LeavingMoves` | src/modules/rosca/services/membership.service.ts:124-177 | Leaving gives the collateral back, deletes the membership, and takes a slot off exactly for an active member. |
| `Outcomes.CreateExactly` | src/modules/rosca/services/circle.service.ts:38-59 | Creation works exactly for an administrator among the users, a positive amount and a new identifier, and in a reachable state yields the requested circle as a draft with no slot filled that no member, schedule, contribution, payout or loan refers to; nothing else moves. |
| `Outcomes.UpdateExactly` | src/modules/rosca/services/circle.service.ts:565-590 | An edit goes through exactly for the administrator of a draft, to a positive amount and to no fewer slots than are filled or to zero slots; it moves amount, size and order of that circle and leaves what members have locked at the amount they joined at. |
| `Outcomes.ReverseExactly` | src/modules/payout/payout.service.ts:275-369 | A reversal goes through exactly when the payout is not yet reversed, the named user can spend the amount and the named schedule exists, whether or not these match the payout; the amount goes from that user to the pool, the payout becomes FAILED, the schedule UPCOMING, nothing else moves, and it cannot be repeated. |
| `Slots.SlotsCountMembersAndRepeats` | src/modules/rosca/services/membership.service.ts:267-319 | In every run the slot counter of a circle not completed is the number of its active members plus the number of accepted approvals of members of this circle who were active already. |
| `Slots.ActivationMiscountsExactly` | src/modules/rosca/services/circle.service.ts:76-91 | In every run a timely activation of a draft is refused for a wrong slot count exactly when such a repeated approval happened in this circle, and otherwise only for its admin positions. |
| `Slots.SlotToGiveBack` | src/modules/rosca/services/membership.service.ts:124-177 | In every run a circle not completed has a slot for each active member. |
| `Slots.StepRoom` | src/modules/rosca/services/membership.service.ts:275-293 | A step of the services keeps a circle within its size exactly when it neither approves into a full circle nor edits the size to zero, which the edit's own guard lets through and the request validation refuses before it. |
| `Slots.RoomRunsOut` | src/modules/rosca/services/membership.service.ts:275-293 | The approval half happens: any membership of a full circle can be approved, past its size. The other half is about the guard alone: by itself it lets an edit to zero slots through. |
| `Slots.OnlyApprovalsOverfill` | src/modules/rosca/services/membership.service.ts:275-293 | In every run of requests that ask for at least two slots, as the validation demands, a circle has filled no more slots past its size than there were approvals into it while it was full; without one it is always within its size. |
| `Contributions.MakeContributionTx` | src/modules/contribution/contribution.service.ts:47-233 | Refused, in the source's order of checks, for an inactive circle or membership, an unknown cycle, a second contribution, a missing wallet or a closed window; otherwise the two or four paired entries, the contribution row, the membership counters and the trust event of a payment on time or late by the schedule's deadline, and nothing at all if one of the entries is refused half-way. Whom it refuses and what it moves, in the rows' own numbers: Outcomes.ContributeExactly and Outcomes.ContributionMoves. |
| `Contributions.LatePenaltyBounds` | src/modules/contribution/contribution.service.ts:105-117 | The late fee is less than the amount and is charged exactly when late and the amount is at least 50 kobo. |
| `Contributions.LateFeeExactly` | src/modules/contribution/contribution.service.ts:114-118 | The fee of a late contribution is the one integer f with 50f <= amount < 50(f + 1), and 0 in time. |
| `Memberships.RequestToJoinTx` | src/modules/rosca/services/membership.service.ts:35-122 | Refuses private, closed and full circles and existing members; otherwise reserves a tenth of the amount under the new membership's identifier and records it PENDING; a refusal changes nothing. |
| `Memberships.JoinByInviteTx` | src/modules/rosca/services/invite.service.ts:129-208 | The second way in, for the invitee of an unused, unexpired invite to a draft circle with room: reserve, ACTIVE membership at the next position, slot filled, invite used, all or nothing. |
| `Memberships.LeaveCircleTx` | src/modules/rosca/services/membership.service.ts:124-177 | Only from a draft circle: refund, delete the membership, give an active member's slot back; a slot count below zero rolls the refund back too. |
| `Memberships.CancelJoinRequestTx` | src/modules/rosca/services/membership.service.ts:179-218 | Only a PENDING request: refund and delete. |
| `Memberships.ApproveMemberTx` | src/modules/rosca/services/membership.service.ts:267-319 | The administrator makes any membership ACTIVE at the next position and fills a slot; neither its status nor the circle's room is looked at. |
| `Memberships.RejectMemberTx` | src/modules/rosca/services/membership.service.ts:321-381 | Only a PENDING membership: refund and mark REJECTED, the release flag staying false. |
| `Loans.ApplyLoanTx` | src/modules/loans/loans.service.ts:69-170 | Refused for a running loan, a circle, membership or score the credit service finds ineligible, a loan taken from this circle before, or nothing left of the payout; otherwise the amount credited and the loan recorded ACTIVE, on the terms of Outcomes.BorrowExactly. What the credit service finds is read outside the transaction, possibly earlier. |
| `Loans.RepayBalances` | src/modules/loans/loans.service.ts:206-243 | Repayment takes out of the pot exactly what leaves the loan book and leaves something of a positive pot. |
| `Loans.FinalPayoutFloor` | src/modules/loans/loans.service.ts:95-122 | At every tier the borrower keeps at least 40% of the expected payout. |
| `Payouts.SumPot` | src/modules/payout/payout.service.ts:107-118 | The accumulating loop computes the pot. |
| `Payouts.RepayTx` | src/modules/loans/loans.service.ts:206-243 | The first running loan of the recipient against this circle is marked repaid exactly when loan and fee are less than the pot, and they come off it. |
| `Payouts.FinalizeTx` | src/modules/payout/payout.service.ts:396-452 | Releasing member by member, in any order, equals releasing all at once. |
| `Payouts.ProcessPayoutTx` | src/modules/payout/payout.service.ts:63-255 | Refused, in the source's order of checks, without any change; otherwise pot, loan, fee, ledger entries, payout row, schedule and, on the last cycle, completion, all of them or none. |
| `Payouts.ReversePayoutTx` | src/modules/payout/payout.service.ts:275-369 | Takes the named amount from the named user into the pool, marks the payout FAILED and reopens the named schedule, or changes nothing. |
| `MissedContributions.RecordMissedContributions` | src/modules/payout/payout.service.ts:527-552 | The loop gives exactly the active members without a contribution to the cycle one missed payment. |
| `MissedContributions.MarkedDownOnce` | src/modules/payout/payout.service.ts:527-552 | Each of them has one payment more expected, missed, due this cycle and in a row, none counted as after a payout; nobody else changes. |
| `MissedContributions.LastCycleMarksNobody` | src/modules/payout/payout.service.ts:251-270 | The list is read after the payout: unchanged in general, but the last payout has completed every active membership, so nobody is marked down for missing the last cycle. |
| `Circles.ConfigurePayoutTx` | src/modules/rosca/services/circle.service.ts:262-383 | Only for a draft, assignments only under ADMIN_ASSIGNED with positive and unrepeated positions; the computed writes reach the members or, if one names no member, nothing does. |
| `Circles.ConfigureExactly` | src/modules/rosca/services/circle.service.ts:262-343 | A configuration is taken exactly from the administrator of a draft, with assignments only under ADMIN_ASSIGNED, to different positions from 1 up, of users with a membership; only the order and positions of that circle move. |
| `Circles.GenerateSchedules` | src/modules/rosca/services/circle.service.ts:210-235 | The loop over a mutated date produces the k-th deadline of the calendar specification for cycle k, the payout a day later, and the k-th member as recipient. |
| `Circles.ActivateCircleTx` | src/modules/rosca/services/circle.service.ts:61-130 | Refused for a deadline more than 30 minutes past, a circle that is not a draft, a wrong slot count, or missing or repeated admin positions; otherwise ACTIVE with one cycle per active member, in the order of the in-place sort. What that order is, in trust scores and join dates, is stated by the rows below. |
| `Circles.ActivateExactly` | src/modules/rosca/services/circle.service.ts:61-206 | A circle starts exactly when it is a draft, its first deadline is at most 1800000 ms past, it has as many slots filled as active members and, under ADMIN_ASSIGNED, each of them has a position of their own. |
| `Circles.ActivationWrites` | src/modules/rosca/services/circle.service.ts:94-235 | Cycle i is due on the i-th date from the first and paid out 86400000 ms later, the circle lasts as many cycles as it has active members, its members get positions, and nothing else moves. |
| `Circles.TrustedPaidFirst` | src/modules/rosca/payout-sorter.util.ts:55-62 | After activation under TRUST_SCORE no cycle pays a member with a lower trust score than a later cycle does; no score counts as 1, and equal trust is paid in listing order. |
| `Circles.EarlierJoinersPaidFirst` | src/modules/rosca/payout-sorter.util.ts:46-52 | After activation under SEQUENTIAL no cycle pays a later joiner than a later cycle does; members without a join date come last, ties in listing order. |
| `Circles.TrustedThenEarlierPaidFirst` | src/modules/rosca/payout-sorter.util.ts:74-87 | After activation under COMBINED trust decides, then the join date, then the listing. |
| `Circles.ActivationPairsOff` | src/modules/rosca/services/circle.service.ts:83-104 | Filled slots, active members and cycles are the same n; each cycle 1..n pays the member stored at its number, and each active member is paid in the cycle of their position and in no other. |
| `Circles.AdminOrderKept` | src/modules/rosca/services/circle.service.ts:180-206 | Under ADMIN_ASSIGNED whoever was placed earlier is paid earlier. |
| `Positions.ComputeWrites` | src/modules/rosca/services/circle.service.ts:297-343 | The loop over assignments computes the specified writes. |
| `Positions.ReassignmentDistinct` | src/modules/rosca/services/circle.service.ts:297-343 | Positions stay distinct exactly when no incoming member who holds a position and displaces an outsider vacates a position another incoming member requests. |
| `Positions.SingleAssignmentSwaps` | src/modules/rosca/services/circle.service.ts:297-343 | One assignment swaps the two members and moves nobody else. |
| `Positions.FullAssignmentSafe` | src/modules/rosca/services/circle.service.ts:297-343 | Assigning every member is always safe. |
| `Positions.ChainBreaks` | src/modules/rosca/services/circle.service.ts:297-343 | A concrete chain of three members in which two end at one position. |
| `Calendar.AddFrequency` | src/modules/rosca/services/circle.service.ts:237-256 | The mutating date steps compute the calendar specification, month ends clamped. |
| `Calendar.MonthlyDeadline` | src/modules/rosca/services/circle.service.ts:237-256 | The k-th monthly deadline is exactly k months after the first, on the smallest of the first day and the lengths of the months entered. |
| `Calendar.YearLength` | src/modules/rosca/services/circle.service.ts:237-256 | The calendar the dates step on is the Gregorian one: twelve months from a January make 366 days exactly in years divisible by 4 but not by 100, or by 400, and otherwise 365. |
| `Calendar.YearStart` | src/modules/rosca/services/circle.service.ts:237-256 | In closed form: before year y lie 365y days and a day for every fourth year but three of the four century years in every four hundred. |
| `Calendar.WeeklyDeadline` | src/modules/rosca/services/circle.service.ts:237-256 | The k-th deadline is 7k days after the first in a weekly and 14k in a biweekly circle. |
| `Calendar.MonthlyDayKept` | src/modules/rosca/services/circle.service.ts:237-256 | The k-th monthly deadline is on the first day's number exactly when no month entered on the way is shorter; a day up to 28 always is. |
| `Calendar.StepGap` | src/modules/rosca/services/circle.service.ts:237-256 | Consecutive deadlines are 7, 14 or 28 to 31 days apart. |
| `Calendar.PayoutBeforeLaterDeadlines` | src/modules/rosca/services/circle.service.ts:210-235 | Each payout date lies strictly before every later deadline. |
| `Sorter.SortByRandom` | src/modules/rosca/payout-sorter.util.ts:37-43 | The in-place Fisher-Yates loop computes the recursive shuffle of its draws. |
| `Sorter.ShuffleBijection` | src/modules/rosca/payout-sorter.util.ts:37-43 | Every draw sequence yields a permutation, and every permutation of distinct members comes from exactly one draw sequence. |
| `Sorter.StableSortSorts` | src/modules/rosca/payout-sorter.util.ts:46-71 | Each sort returns its input ordered by the comparator with ties in input order. |
| `Sorter.StableSortUnique` | src/modules/rosca/payout-sorter.util.ts:46-71 | There is only one such arrangement. |
| `Sorter.CombinedIsTwoPasses` | src/modules/rosca/payout-sorter.util.ts:74-87 | The combined order equals the sequential sort followed by the trust sort. |
| `Sorter.SortedPermutes` | src/modules/rosca/payout-sorter.util.ts:14-35 | Whatever the logic, the result is a permutation of the members. |
| `Sorter.Sort` | src/modules/rosca/payout-sorter.util.ts:14-35 | The dispatching method sorts a copy in place, by shuffle or by insertion, into the specified order for each of the five logics; the orders, in the rows' own fields, are those of the four rows that follow. |
| `Sorter.TrustOrder` | src/modules/rosca/payout-sorter.util.ts:55-62 | Under TRUST_SCORE trust never rises from one row to a later one; a missing score counts as 1, and equal trust keeps the order of the input. |
| `Sorter.SequentialOrder` | src/modules/rosca/payout-sorter.util.ts:46-52 | Under SEQUENTIAL the join date never falls, rows without one come last, and ties keep the order of the input. |
| `Sorter.AdminOrder` | src/modules/rosca/payout-sorter.util.ts:65-71 | Under ADMIN_ASSIGNED the position never falls, rows without one come last, and ties keep the order of the input. |
| `Sorter.CombinedOrder` | src/modules/rosca/payout-sorter.util.ts:74-87 | Under COMBINED trust comes first, then the join date, then the order of the input. |
| `Sorter.SortInPlace` | src/modules/rosca/payout-sorter.util.ts:46-71 | The in-place sort under a comparator leaves exactly the stable arrangement of what was there. |
| `Credit.TiersMonotone` | src/modules/credit/credit.service.ts:14-20 | Below 550 nothing is lent; above it the share never falls as the score rises, from 20% to 50%. |
| `Credit.TierTable` | src/modules/credit/credit.service.ts:14-20 | The first tier cleared, best first, for every score. |
| `Credit.FinalScoreMonotone` | src/modules/credit/credit.service.ts:58-92 | The composite score stays in 300..850 and never falls when either input rises. |
| `Credit.FinalScoreExactly` | src/modules/credit/credit.service.ts:58-92 | Seven tenths bureau and three tenths trust, the trust part kept within 300..850 first, to the nearest whole point with halves up, then within 300..850; trust alone without a bureau. |
| `SettlementTheorems.CreditedAtMostOnce` | src/modules/webhooks/webhooks.service.ts:63-89 | If the provider reports one payment type for a checkout, then after every interleaving of deliveries, retries, jobs, user checks and manual reconciliations at most one entry in any wallet settles it, in the user's own wallet and for no less than was asked. |
| `SettlementTheorems.TwoTypesCreditTwice` | src/modules/funding/funding-reconciliation.scheduler.ts:541-605 | The condition is needed: from any good state with a PENDING checkout, two payment types with different labels credit it twice. |
| `SettlementTheorems.OncePerType` | src/modules/webhooks/webhooks.service.ts:193-215 | Whatever the provider reports, one label credits a checkout at most once. |
| `SettlementTheorems.AccountCreditedAtMostOnce` | src/modules/webhooks/webhooks.service.ts:275-327 | A virtual account's wallet is credited at most once per provider reference. |
| `SettlementTheorems.OneHandlerPerEvent` | src/modules/webhooks/webhooks.service.ts:63-89 | No two handlers ever work on one event, and a working handler holds its marker. |
| `SettlementTheorems.SuccessMeansCredited` | src/modules/webhooks/webhooks.service.ts:168-238 | In every run SUCCESS implies credited and PENDING implies not credited; while no failure is stale SUCCESS is equivalent to credited. |
| `SettlementTheorems.StepAgrees` | src/modules/funding/funding-reconciliation.scheduler.ts:612-640 | A step breaks the equivalence of SUCCESS and credited exactly when it writes FAILED over a row that has meanwhile become SUCCESS. |
| `SettlementTheorems.FailureOverwritesSuccess` | src/modules/funding/funding-reconciliation.scheduler.ts:612-640 | Such a race from every good state with a PENDING checkout: credited, yet FAILED. |
| `AtMostOnce.NextKeeps` | src/modules/webhooks/webhooks.service.ts:63-327 | Every atomic step of every handler keeps the settlement invariant. |
| `Reports.EveryCreditIsReported` | src/modules/webhooks/webhooks.service.ts:524-600 | After every run each entry that settles a checkout has among the run's steps a report, to a delivery or a reconciliation, of a successful charge in naira under that checkout's reference for exactly the entry's amount; and so has every entry of a virtual account, which credits that account's owner. |
| `Reports.ReconciledExactly` | src/modules/funding/funding-reconciliation.scheduler.ts:233-410 | An uninterrupted reconciliation of a PENDING checkout ends SUCCESS, with the reported amount on top of the user's balance, exactly when the provider found this payment successful, in naira and not short; FAILED, with no wallet touched, exactly when its record has been missing too long, or is of this payment and says another currency, no success, or too little; any other answer changes nothing. |
| `Reports.DeliveredExactly` | src/modules/webhooks/webhooks.service.ts:98-252 | An uninterrupted first delivery about a PENDING checkout credits it exactly when the webhook claims success and the provider's own record is of this payment, successful, in naira and of exactly the amount asked; in every other case the row ends FAILED and no wallet moves. |
| `Reports.AccountDeliveredExactly` | src/modules/webhooks/webhooks.service.ts:112-155 | A virtual account's owner is paid the reported amount exactly on a claimed transfer whose record is of this account, successful and in naira, under a new reference; otherwise no wallet moves, and no checkout's row ever does. |
| `Reports.DeliveredTooLate` | src/modules/webhooks/webhooks.service.ts:157-173 | A delivery about a checkout that is not PENDING or not known leaves only its marker. |
| `Reports.PendingIsUnpaid` | src/modules/webhooks/webhooks.service.ts:186-238 | After every run a PENDING checkout has no settling entry under any label and its user has a wallet, so the two statements above apply to it. |
| `Reports.SecondLook` | src/modules/funding/funding-reconciliation.scheduler.ts:541-548 | A reconciliation that finds the row no longer PENDING on its second look ends without a change. |
| `Reports.DeliveryPaysRegardless` | src/modules/webhooks/webhooks.service.ts:186-238 | A verified delivery does not look again: it pays and marks SUCCESS whatever the row has become meanwhile. |
| `Reports.LabelTable` | src/modules/webhooks/webhooks.service.ts:475-497 | The labels of the five payment types; only the two spellings of a bank transfer share one, besides everything unknown. |
| `WebhookServices.PaymentDatabase.HandleWebhook` | src/modules/webhooks/webhooks.service.ts:53-89 | An uninterrupted delivery equals its five steps on a quiet site, whose outcome for every charge and report is that of Reports.DeliveredExactly, AccountDeliveredExactly and DeliveredTooLate; a failure changes nothing and leaves no marker, a success leaves one. |
| `WebhookServices.PaymentDatabase.HandleChargeCompleted` | src/modules/webhooks/webhooks.service.ts:98-252 | Everything after the marker, as the steps of the protocol do it; an exception changes nothing. Which charges it credits, by how much, and which it fails: Reports.DeliveredExactly and Reports.AccountDeliveredExactly. |
| `WebhookServices.PaymentDatabase.CheckIdempotency` | src/modules/webhooks/webhooks.service.ts:607-627 | Recording an event reports whether it was there before. |
| `WebhookServices.PaymentDatabase.UpdateTransactionStatus` | src/modules/webhooks/webhooks.service.ts:711-722 | FAILED is written only over PENDING, in one statement. |
| `WebhookServices.PaymentDatabase.CreditHostedCheckout` | src/modules/webhooks/webhooks.service.ts:186-238 | Entry on top of the latest snapshot and SUCCESS together, or neither when the ledger key exists. |
| `WebhookServices.PaymentDatabase.CreditWalletFromVA` | src/modules/webhooks/webhooks.service.ts:262-327 | A virtual account credit, skipped when its reference is already there. |
| `WebhookServices.PaymentDatabase.SettleSuccessfulFunding` | src/modules/funding/funding-reconciliation.scheduler.ts:530-610 | The settling transaction leaves a row alone that is no longer PENDING. |
| `WebhookServices.PaymentDatabase.MarkFailed` | src/modules/funding/funding-reconciliation.scheduler.ts:612-640 | Without interleaving, FAILED is written only over PENDING. |
| `WebhookServices.PaymentDatabase.ReconcilePendingTransaction` | src/modules/funding/funding-reconciliation.scheduler.ts:233-410 | An uninterrupted reconciliation equals its four steps on a quiet site, whose outcome for every answer is that of Reports.ReconciledExactly. |
| `WebhookServices.OverpaymentDependsOnWhoComesFirst` | src/modules/webhooks/webhooks.service.ts:168-200 | A checkout paid above what was asked ends FAILED and uncredited when the webhook comes first, and SUCCESS and credited in full when the reconciliation does; paid exactly, both credit it. |
| `Retries.FirstRun` | src/modules/funding/funding-reconciliation.scheduler.ts:487-494 | A job first runs when its transaction is 300000 ms old, or at once if it is older. |
| `Retries.VerificationJob.HandleQueueRetryState` | src/modules/funding/funding-reconciliation.scheduler.ts:412-471 | The job stops exactly when its transaction is 10800000 ms old or more, and is otherwise due again 600000 ms from now, which uses up at least that much of the window. |
| `Retries.RequeuesBounded` | src/modules/funding/funding-reconciliation.scheduler.ts:412-471 | However late the queue runs, there are no more requeues than retry delays that begin in the window; a punctual queue uses all. |
| `Retries.WorkOff` | src/modules/funding/funding-reconciliation.scheduler.ts:412-471 | Driving the job to its end, run after run however late, requeues it that often and at most 18 times. |
| `Retries.AtMostEighteen` | src/modules/funding/funding-reconciliation.scheduler.ts:69-73 | At most 18 requeues, and exactly 18 on a punctual queue. |
| `WithdrawalTheorems.DebitOrNothing` | src/modules/withdrawal/withdrawal.service.ts:118-303 | In every interleaving of the request, its own reversal, webhooks, retries and reconciliations a withdrawal contributes minus its amount, or zero once reversed, to its own wallet and nothing to any other. |
| `WithdrawalTheorems.InitializeExactly` | src/modules/withdrawal/withdrawal.service.ts:118-182 | A withdrawal is taken exactly when it is of 10000 kobo or more, under a new identifier, from a wallet whose whole history leaves that much beside the reserves; the one debit and the PENDING row it writes. |
| `WithdrawalTheorems.ReverseExactly` | src/modules/withdrawal/withdrawal.service.ts:266-303 | A reversal goes through exactly when the wallet has no compensation for this row; the one credit it writes, on the history's sum or the latest snapshot, and FAILED over any status. |
| `WithdrawalTheorems.NotifiedExactly` | src/modules/webhooks/webhooks.service.ts:340-433 | An uninterrupted webhook: a confirmed PENDING withdrawal becomes SUCCESS without moving money, one reported failed is paid back and FAILED; any other row, and a second webhook, change nothing; the marker stays unless paying back failed. |
| `WithdrawalTheorems.RequestedExactly` | src/modules/withdrawal/withdrawal.service.ts:53-258 | An uninterrupted request: its debit alone when the provider takes it, debit and compensation when not, nothing when it is refused. |
| `WithdrawalTheorems.ReconciliationPaysNothingBack` | src/modules/funding/funding-reconciliation.scheduler.ts:612-640 | A reconciliation that takes a withdrawal for a payment can only mark it FAILED, and pays nothing back. |
| `WithdrawalTheorems.StatusTellsTheCost` | src/modules/webhooks/webhooks.service.ts:340-433 | While nothing is stale, a FAILED withdrawal has cost nothing and any other its full amount. |
| `WithdrawalTheorems.StepAgrees` | src/modules/webhooks/webhooks.service.ts:354-433 | A step breaks the equivalence of FAILED and paid back exactly when it confirms a withdrawal already reversed, or a reconciliation fails one that was not. |
| `WithdrawalTheorems.SuccessOverwritesReversal` | src/modules/withdrawal/withdrawal.service.ts:196-258 | From every waiting request: a confirmation that read PENDING first overwrites the reversal, and the wallet keeps money that was sent. |
| `WithdrawalTheorems.AdministratorsReversalIsExtra` | src/modules/ledger/ledger.service.ts:171-195 | The ledger service's reversal of a withdrawal's debit has another key, so together with the failure path it pays the amount back twice. |
| `Withdrawals.NextKeeps` | src/modules/withdrawal/withdrawal.service.ts:118-303 | Every atomic step keeps each withdrawal accounted for in every wallet. |
| `WithdrawalServices.TransferDatabase.Debit` | src/modules/withdrawal/withdrawal.service.ts:118-182 | Refused below 100 NGN or above the available balance recomputed from the whole history; otherwise the PENDING row and the debit together. |
| `WithdrawalServices.TransferDatabase.CreateReversalEntry` | src/modules/withdrawal/withdrawal.service.ts:266-303 | The compensating credit and FAILED together, or neither when the credit exists already. |
| `WithdrawalServices.TransferDatabase.InitializeWithdrawal` | src/modules/withdrawal/withdrawal.service.ts:53-258 | An uninterrupted request ends PENDING with the amount gone, or FAILED with the wallet as it was. |
| `WithdrawalServices.TransferDatabase.HandleTransferCompleted` | src/modules/webhooks/webhooks.service.ts:340-433 | Only a PENDING row is touched: SUCCESS on confirmation, otherwise the compensating credit and FAILED together. |
| `Trust.TrustService.UpdateTrustScore` | src/modules/trust/trust.service.ts:70-152 | Counters and score after one event, for that user only. |
| `Trust.CountersCount` | src/modules/trust/trust.service.ts:84-118 | After every history each counter is the number of events it stands for, and the streak of consecutive late payments is the number of late and missed payments since the latest one on time. |
| `Trust.CycleCountersCount` | src/modules/trust/trust.service.ts:84-140 | The cycle counters count since the latest reset. |
| `Trust.AverageIsSumOverCount` | src/modules/trust/trust.service.ts:120-129 | The running average times the count is the sum of all ratings. |
| `Trust.AlwaysCoherent` | src/modules/trust/trust.service.ts:84-140 | On time, late and missed add up to expected; defaults, cycle and post-payout counters stay within their totals; with ratings of 1 to 5 the average is in 1..5. |
| `Trust.BetterConductNeverScoresLower` | src/modules/trust/trust.service.ts:20-66 | After every history and at a fixed clock: after paying on time >= before >= after paying late >= after missing >= after a post-payout default, all within 0..95. |
| `Trust.StoredScoreExactly` | src/modules/trust/trust.service.ts:20-66 | The stored score after every history, in its events: 30% this cycle's share of payments on time, 25% the history's with late, missed and defaulted ones taken off by 0.5, 1.5 and 3, 20% the share after payouts, 15% the ratings, 10% of 8.3 a month up to 100, with 50, 50, 70 and 50 while there is nothing to count, to the nearest point with halves up, at most 95. |
| `Trust.ShownScore` | src/modules/trust/trust.service.ts:156-175 | A new user is stored at 50 and shown at 575; shown is 300 and five and a half times the stored score, to the nearest point. |
| `Trust.StoredScoreInRange` | src/modules/trust/trust.service.ts:20-66 | The stored index is in 0..95 and its display in 300..850 after every history. |

## Left out

- HTTP, guards, DTO validation, authentication, PIN, KYC levels and limits: they refuse requests before the modelled code runs.
- Notifications, mail, audit log rows, ledger metadata and movement types: they never decide a balance or a status.
- Creating, listing and revoking invites: a step may replace the invite table by any other; only using an invite is modelled.
- Superadmin cancel, flag, wallet reset and single-entry reversal: outside the platform's runs; the reset may debit the pool. The reversal itself is `LedgerService.CreateReversalEntry`.
- TransactionsService.finalizeSettlement: no other code calls it.
- Isolation: each circle operation is one atomic step. The source runs most of them SERIALIZABLE, but reversing a payout, approving a member and joining by invite at the database's default isolation, and editing a circle in no transaction at all; interleavings of their reads and writes are not modelled. Only the settlement and withdrawal protocols, and the credit service's reads for a loan, are apart from the writes.
- Outcomes.ReverseExactly: that a reversal cannot be repeated rests on its atomicity; two reversals of one payout running at once at the default isolation are not modelled.
- Loans.ApplyLoanTx: the score is a parameter; the credit service's reads of circle and membership may be of different times, both tied to the run.
- Conversion between Naira and kobo: provider amounts arrive as whole kobo.
- Lower-casing and trimming of provider strings: payment types are compared as already normalised strings.
- Time zones and daylight saving: dates step on the Gregorian calendar from an epoch month, with a fixed time of day.
- Probabilities of the shuffle: only which permutations it can produce.
- The trust table in the platform's runs: `Contributions.MakeContributionTx` writes it in its transaction, but the steps of `Platform` do not carry it, since no balance or status depends on it.
- The credit bureau: its score is a parameter, and the cached score row is not kept.
- The regular expression that recognises a missing provider record: an answer says whether the record has been missing too long.
- The library's sort: an insertion sort stands for it; any stable sort gives the same order, by `Sorter.StableSortUnique`.
- The request validation's least circle size of two slots: only `Slots.OnlyApprovalsOverfill` asks for it; elsewhere the model lets a circle of one play.
- The users table: that an administrator exists is looked up in a set handed to the creation of a circle.
- BucketService (`src/modules/buckets/bucket.service.ts`): it reserves and releases through the ledger service, and no other code calls it.
- Queue attempts with back-off after exceptions: only requeues by the handler itself are counted.
- A provider charge reported under a withdrawal's reference: reconciliation of a withdrawal can only mark it FAILED.
- Circle fields without effect on money (name, description, visibility beyond private or not, autoStartOnFull, currentCycle).
