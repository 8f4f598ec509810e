# Verification of the booking platform's core

This project models the parts of the backend where rows, balances and locks have to stay right over whole runs, and proves what they keep. `dafny verify dfyconfig.toml` checks all of it.

The database is a set of tables held as maps; one transaction, or one statement where the code uses single statements, is one step. A method of a class changes those tables the way the code does and is proved equal to a step of a state machine; the lemmas then speak about every schedule of steps, so they cover any number of workers, retries, crashes between two statements and stale locks. Clocks never run backwards; fresh tokens, ids and codes are inputs that have not occurred before; money is counted in whole cents.

| file | about |
|---|---|
| `AccountPurge`, `PurgeProperties`, `PurgeRows`, `AccountDeletion` | the forced purge of an account, its ledgers and foreign keys, which rows stay, and the list of blockers that is written separately from it |
| `AppCache`, `StableStringify` | the versioned cache with shared loads, and the text from which its keys are made |
| `Scheduling`, `BookingService` | slots and times: who holds which slot, and when a tasker is busy |
| `WorkFlow`, `WorkRules`, `WorkService`, `WorkRuns` | proofs, one-time codes, timer, the three ways to complete, disputes and their refunds, each rule on the fields of the rows, and two concrete runs |
| `CustomTime`, `RequestedBooking` | requests for a time outside the listed slots, and the bookings that spend them |
| `Settlement`, `Evidence` | settlement proposals, refunds and the evidence of one dispute |
| `StorageLease`, `FcmQueue`, `FcmRules`, `EmailQueue` | three background queues with claims, locks and retries |
| `Availability`, `TimeUtil`, `TimeTexts`, `CursorPaging` | interval validation, dates and times of day as text, and cursor paging |
| `Common` | result types, sorted ids and the doubling used by retry delays |

## What turned out differently

Where a property that the code or its comments suggest does not hold, the code is modelled as it is, a concrete case is proved, and so is the exact condition under which the property holds.

- Push deliveries: the comment at `src/modules/fcm/fcm.service.ts:52-54` says that a previous account's notification can never reach the next account of a device. A push that was claimed before the device changed hands still does (`MovedDeviceCanGetTheOldPush`); unless an enqueue was late, it goes astray exactly when the device has moved since the claim (`PushGoesAstrayIffDeviceMoved`).
- Queueing a notification reads the devices and makes the rows in one statement that takes no lock on the devices. A device that registers for the next account in between keeps a row of the previous one (`LateRowReachesTheNextAccount`); what is queued for a device is for its present account all through a schedule exactly when no enqueue makes its rows that late (`QueuedRowsBelongToTheOwner`).
- Dispute e-mails: the outcome of a mail is written without comparing anything, so `sent` can be undone by a slower worker and the mail repeated (`SentCanBeMailedAgain`). A sent row is final exactly when no other claim on it is still unreported (`SentIsFinalIffNoOpenWork`). The limit of five mails holds regardless.
- Reassignment by an administrator opens the booking's slot while the booking still holds it: the next customer can book it too, and a later cancellation opens it under that second booking (`ReassignmentCanDoubleBook`). Slots stay sound exactly when the reassignment is refused, by status, dispute, settled payment or tasker (`ReassignmentBreaksOwnership`), and all through a run exactly when none is carried out (`SlotsSoundIffNeverReassigned`). It also leaves the booking in the previous tasker's conversation, so that purging that tasker reaches for it (`ReassignedBookingFallsWithItsOldTasker`).
- After a reassignment the next tasker can start work on the previous tasker's arrival picture and code (`SecondTaskerStartsOnTheFirstsPicture`). The picture is the present tasker's own exactly when the booking was never reassigned with the picture attached, or was last given back to the one who took it (`PictureIsOwnIffNotHandedOn`).
- Rescheduling, accepted proposals and reassignment do not ask whether the tasker's time is free (`RescheduleCanDoubleBook`); they keep times apart exactly when it is (`MovesKeepTimesIffFree`), and so does a whole run (`TimesApartIffNeverMovedIntoTaken`).
- Accepting a reschedule proposal never asks whether its date has passed, unlike making one: a late answer moves the booking into the past (`LateAnswerMovesIntoThePast`). The new start lies ahead exactly when the proposed date is not past (`AcceptedMoveIsAheadIffDateIsNotPast`).
- A refund that fails after its dispute was resolved puts the dispute back under investigation without looking for another active one (`FailedRefundMakesTwoActive`). A booking has one active dispute at most all through a run exactly when no refund in it fails while another dispute of the booking is active (`OneActiveExactlyWhileRefundsFailAlone`).
- A report about a refund by card is written to its resolution before the resolution's status is looked at, so the check for `applied` never finds it: a report that comes after the success takes an applied refund back, and a failure makes the resolved dispute active again (`AppliedRefundIsTakenBack`). An applied resolution stays applied exactly when it has no refund by card or no pending or failed report for it follows (`AppliedStaysIffNoSetback`). In the same way a late success resolves a dispute that was withdrawn meanwhile (`LateSuccessResolvesAWithdrawnDispute`), which stays withdrawn exactly when there is none (`WithdrawnStaysIffNoLateSuccess`).
- A dispute from before evidence had a table of its own keeps its files in its own row, and submitting one of them again is not recognised: it counts twice (`OldFileCountsTwice`). No file counts twice exactly when the files of the dispute row are different ones, and the dispute was filed with rows in the table or none of those files was accepted again (`EveryFileCountsOnce`).
- Message paging counts and lists in two parallel queries; if a message arrives between them the oldest one can be missed (`StaleTotalLosesTheOldest`), in exactly one situation (`WalkVisitsEverything`).

## Model

| member | source | states |
|---|---|---|
| AccountPurge.ReverseLedger | src/modules/account-deletion/account-purge.ts:157-171 | Over any ledger and any selection of entries: what is kept, what each balance loses, and which other users are noted; users without a balance row are noted too |
| AccountPurge.Transaction.ReverseLedgers | src/modules/account-deletion/account-purge.ts:132-216 | The three ledgers keep exactly the unselected entries, all balances lose exactly the removed sums, and the users returned are the others whose removed sums are not zero in some ledger |
| AccountPurge.TotalSplits | src/modules/account-deletion/account-purge.ts:37-39 | For every owner the kept and the removed entries add up to the whole ledger |
| AccountPurge.LedgersAreCut | src/modules/account-deletion/account-purge.ts:133-155 | After the ledger deletions no entry refers to a doomed booking, reward, earning or receivable |
| AccountPurge.NothingPointsAtDoomed | src/modules/account-deletion/account-purge.ts:97-130 | The collected ids are closed: rewards of doomed referrals are collected, and nothing left of rewards, referrals, earnings and receivables refers to a doomed booking |
| AccountPurge.Transaction.DeleteRewards | src/modules/account-deletion/account-purge.ts:219-221 | Refused exactly when a ledger entry refers to one of the rewards; otherwise removes exactly them |
| AccountPurge.Transaction.DeleteReferrals | src/modules/account-deletion/account-purge.ts:228-230 | Refused exactly when a reward refers to one of the referrals |
| AccountPurge.Transaction.DeleteProgrammeRows | src/modules/account-deletion/account-purge.ts:218-237 | Once the ledgers are cut, no foreign key refuses the deletion of rewards, referrals, receivables and earnings in this order; other people's referrals only lose a deleted booking |
| AccountPurge.Transaction.DeleteBookingRecords | src/modules/account-deletion/account-purge.ts:239-250 | Payments, cash refunds, disputes with their evidence, charge-backs, proofs, reviews and calls of the doomed bookings go, and no others |
| AccountPurge.Transaction.DeleteBookings | src/modules/account-deletion/account-purge.ts:253-253 | Refused exactly when a row refers to one of the bookings; calls go along, messages lose the reference |
| AccountPurge.Transaction.DeleteConversations | src/modules/account-deletion/account-purge.ts:252-256 | Takes along every booking in the conversations, whoever's it is, and is refused exactly when one of those is still referred to |
| AccountPurge.Transaction.DeleteRoleRows | src/modules/account-deletion/account-purge.ts:258-279 | Withdrawals, payout methods, balances and elite history of the user go; refused exactly when somebody else's row hangs on one |
| AccountPurge.Transaction.PurgeMarketplaceRoleData | src/modules/account-deletion/account-purge.ts:44-301 | Goes through exactly when nothing that stays refers to a booking falling with a conversation or to a payout of the user; then the tables are those of `Purged`, which `PurgeRows` states row by row, all twelve counts are those of the rows found, and the counterparties are listed in ascending order, each once, exactly the moved ones |
| IdLists.SortedIds | src/modules/account-deletion/account-purge.ts:297-297 | The set listed in strictly ascending order, nothing added or lost |
| PurgeProperties.PurgeKeepsEveryGap | src/modules/account-deletion/account-purge.ts:37-39 | On any tables, right or wrong: no surviving balance moves relative to the sum of its surviving ledger |
| PurgeProperties.PurgeConserves | src/modules/account-deletion/account-purge.ts:37-39 | If every customer wallet, tasker wallet and platform account equals its ledger before, it does afterwards; only the user's own rows of the role disappear |
| PurgeProperties.PurgeKeepsReferences | src/modules/account-deletion/account-purge.ts:218-256 | A purge that goes through leaves no reference to a row that is not there, in any table |
| PurgeProperties.OnlyMispairedBookingsAreForeign | src/modules/account-deletion/account-purge.ts:63-67 | No purge of anyone ever takes another person's booking along, if and only if every booking has the customer and tasker of its conversation |
| PurgeProperties.PairedPurgeGoesThrough | src/modules/bookings/bookings.service.ts:381-390 | With bookings in their own pair's conversation, as they are created, and payouts of their own owner, no foreign key stops a purge and exactly the user's bookings go |
| PurgeProperties.ReassignedBookingFallsWithItsOldTasker | src/modules/admin-dashboard/services/admin-bookings.service.ts:642-655 | After a reassignment the purge of the previous tasker reaches for exactly the handed-over booking of the other tasker |
| PurgeProperties.FilesOfDeletedRowsOnly | src/modules/account-deletion/account-purge.ts:71-95 | The files handed over for removal from storage are exactly those of rows that disappear |
| PurgeRows.ProgrammeRowsThatStay | src/modules/account-deletion/account-purge.ts:97-130 | Row by row: a referral stays exactly when it is not of the role's programme with the user on one side, a reward exactly when it is not to the user in the role, nor for such a referral, nor for a booking of theirs, and likewise earnings and receivables |
| PurgeRows.EntriesThatStay | src/modules/account-deletion/account-purge.ts:132-155 | Of each ledger exactly those entries go that are the user's in this role or name a booking, reward, earning or receivable that goes; every other one stays as often as it was there |
| PurgeRows.BalancesThatStay | src/modules/account-deletion/account-purge.ts:157-216 | The user's balances of the role go, those of the other role stay; every balance that stays moves by exactly what its owner's ledger loses, in both columns |
| PurgeRows.WorkRowsThatStay | src/modules/account-deletion/account-purge.ts:252-256 | Exactly the user's bookings in the role go, and what other people's are kept in a conversation of theirs; a message elsewhere only loses a booking that is gone |
| PurgeRows.RecordsThatStay | src/modules/account-deletion/account-purge.ts:239-250 | Payments, disputes, cash refunds and evidence go exactly with the user's bookings, and a customer's payments besides |
| PurgeRows.BookingRecordsThatStay | src/modules/account-deletion/account-purge.ts:239-250 | Charge-backs, proofs and reviews go exactly with the user's bookings, calls also with other people's bookings that go |
| PurgeRows.OwnRowsThatStay | src/modules/account-deletion/account-purge.ts:258-279 | Withdrawals, payout methods, elite history and balances go exactly if they are the user's in the role |
| PurgeRows.StoppedByForeignBookings | src/modules/account-deletion/account-purge.ts:252-256 | The first way in which a purge is stopped, row by row: something that stays refers to another person's booking in a conversation of the user |
| PurgeRows.StoppedByPayouts | src/modules/account-deletion/account-purge.ts:258-279 | The second: an entry that stays is about a withdrawal of the user, or somebody else was paid to a method of theirs |
| PurgeRows.MovedMeansSumChanged | src/modules/account-deletion/account-purge.ts:157-171 | A user is reported as rebalanced exactly when it is another one and the sum of their entries changes in some ledger |
| PurgeRows.MoneyCountsAreRowsGone | src/modules/account-deletion/account-purge.ts:284-299 | The counts of entries, referrals, rewards and earnings are those of rows that disappear |
| PurgeRows.RecordCountsAreRowsGone | src/modules/account-deletion/account-purge.ts:284-299 | So are those of payments, disputes, reviews and withdrawals |
| PurgeRows.WorkCountsAreRowsGone | src/modules/account-deletion/account-purge.ts:252-256 | Of bookings only the user's own are counted, not other people's that fall with a conversation |
| AccountDeletion.BlockersAreTheCounts | src/modules/account-deletion/account-deletion.service.ts:458-499 | A line is in the list exactly when its count is positive, with that count |
| AccountDeletion.CountsAreOfProtectedRows | src/modules/account-deletion/account-deletion.service.ts:362-457 | Every line that is not about money is the number of rows protected for its reason, which is written out on the fields of the row; a referral is only attributed in the programme of the role |
| AccountDeletion.MoneyIsCounted | src/modules/account-deletion/account-deletion.service.ts:362-457 | The lines about money: the user's entries in the ledgers of the role, and one for each balance of the role that is not zero |
| AccountDeletion.PurgeLeavesOnlyTwoResidues | src/modules/account-deletion/account-deletion.service.ts:362-500 | After a purge of any tables the blockers name exactly the messages in others' support tickets and the receivables of other taskers that the user confirmed, each with its exact count, and nothing else |
| AccountDeletion.RecheckPassesWithoutResidues | src/modules/account-deletion/account-deletion.service.ts:104-116 | The recheck inside the transaction passes exactly when neither residue exists |
| AccountDeletion.SafeDeletionNeedsNoPurge | src/modules/account-deletion/account-deletion.service.ts:68-76 | Where the safe mode agrees, the purge would change no ledger, reward, earning, receivable, booking or record and move nobody else's balance |
| AccountDeletion.AccountDeletionService.RunTransaction | src/modules/account-deletion/account-deletion.service.ts:95-156 | Commits exactly under the stated conditions, with no blocker left at that moment; otherwise changes nothing, and a refusal for blockers names exactly those then left |
| AccountDeletion.AccountDeletionService.PermanentlyDelete | src/modules/account-deletion/account-deletion.service.ts:33-180 | Succeeds exactly when it is admitted and the transaction commits on what others have made of the database meanwhile; the user loses exactly this role, or the account if it was the only one; other users are untouched |
| AccountDeletion.RoleIsGone | src/modules/account-deletion/account-deletion.service.ts:218-219 | The remaining roles are exactly the other ones |
| AccountDeletion.AdmittedMeans | src/modules/account-deletion/account-deletion.service.ts:40-76 | Who may delete whom: another person, with the right to purge for a purge, a role the account has, no deleted one and no super administrator, and without a purge not a single protected row |
| AccountDeletion.CommitsExactlyWhen | src/modules/account-deletion/account-deletion.service.ts:95-156 | The transaction commits exactly when the role is there, another one stays unless the account goes, no foreign key stops the purge, no protected row is left, and nobody else was paid to a method of the user |
| AppCache.KeyTextDetermines | src/infrastructure/redis/app-cache.service.ts:131-137 | Two keys have the same text exactly when namespace, version and digest agree |
| AppCache.ValueKeyIsNoVersionKey | src/infrastructure/redis/app-cache.service.ts:127-137 | No value key is a version key |
| AppCache.AnswersAreFresh | src/infrastructure/redis/app-cache.service.ts:49-114 | In every schedule of requests of several processes, late writes, expiries and invalidations, an answer is for the request's own identity and was loaded by a loader that started after every invalidation completed before the request began |
| AppCache.OneLoaderPerKey | src/infrastructure/redis/app-cache.service.ts:79-89 | No process has two loaders running for one key |
| AppCache.OnlyAwaitedLoadsAreShared | src/infrastructure/redis/app-cache.service.ts:79-89 | In every schedule a load is in the map of a process under a key exactly while the request that started it has not resumed, whether the loader succeeded or failed |
| AppCache.MissLoadsUnlessAwaited | src/infrastructure/redis/app-cache.service.ts:79-81 | In every schedule a miss starts a loader of its own unless the request that leads a load of its process and key is still waiting, and joins that load otherwise |
| AppCache.CacheCluster.JoinOrLoad | src/infrastructure/redis/app-cache.service.ts:79-81 | A miss joins the load in flight or starts one; the state is that of the step |
| AppCache.CacheCluster.Resume | src/infrastructure/redis/app-cache.service.ts:82-89 | A waiting request goes on exactly when its loader has ended; the one that started the load takes it out of the map first, on failure too, and nobody else does |
| AppCache.CacheCluster.WriteBack | src/infrastructure/redis/app-cache.service.ts:90-98 | The value is answered whether or not it could be stored |
| AppCache.CacheCluster.Invalidate | src/infrastructure/redis/app-cache.service.ts:101-108 | The version counter moves on by one |
| AppCache.CacheCluster.GetOrLoadWithStatus | src/infrastructure/redis/app-cache.service.ts:49-99 | Undisturbed: a hit returns what is stored and loads nothing, a miss loads once, stores under the current version and leaves no load in flight |
| StableStringify.SameTextSameValue | src/infrastructure/redis/app-cache.service.ts:139-149 | Two values have the same text if and only if they are equal up to the order of object keys, for any total order of keys |
| StableStringify.WritePrefix | src/infrastructure/redis/app-cache.service.ts:139-149 | The text of a value determines the value and where its text ends |
| StableStringify.EscapedAsNeeded | src/infrastructure/redis/app-cache.service.ts:148-148 | A string is written with exactly the escapes that JSON text asks for: quotation mark, backslash and control characters, with the short form where there is one |
| StableStringify.InOrderCanonical | src/infrastructure/redis/app-cache.service.ts:143-144 | Sorting all entries identifies exactly the values equal up to key order |
| StableStringify.ObjectText | src/infrastructure/redis/app-cache.service.ts:142-147 | Sorting the entries first and writing each value afterwards gives the same text as writing the sorted value |
| Scheduling.BookedMeansHeldByOne | src/modules/bookings/bookings.service.ts:355-377 | In every run in which no reassignment is carried out, a slot is marked booked exactly when one and only one booking that is not cancelled holds it |
| Scheduling.ReleaseIsPrivate | src/modules/bookings/bookings.service.ts:560-563 | No cancellation, expiry, no-show or move opens a slot that another booking keeps holding |
| Scheduling.CustomSlotsStayPrivate | src/modules/bookings/bookings.repository.ts:20-47 | A slot made for one booking is never offered and never held by another one |
| Scheduling.ReassignmentBreaksOwnership | src/modules/admin-dashboard/services/admin-bookings.service.ts:604-655 | A reassignment keeps slots sound exactly when it is refused, which is by status, active dispute, settled payment, the same tasker or one not approved; carried out, it leaves the slot open under its booking |
| Scheduling.SlotsSoundIffNeverReassigned | src/modules/admin-dashboard/services/admin-bookings.service.ts:604-655 | All through a run slots are sound if and only if no reassignment in it is carried out |
| Scheduling.ReassignmentCanDoubleBook | src/modules/admin-dashboard/services/admin-bookings.service.ts:642-655 | A run in which a reassigned booking's slot is booked by the next customer, after which cancelling the first booking opens the slot under the second |
| Scheduling.BookedAsRequested | src/modules/bookings/bookings.service.ts:338-422 | A booking gets the requested minute and date, later than the present minute, on a booked slot of its own tasker, date and range; a listed slot is preferred to a custom one |
| Scheduling.BookedExactlyWhen | src/modules/bookings/bookings.service.ts:3219-3267 | On the rows alone: a booking is made exactly when customer and tasker differ, the date is not past, the request is admitted and its minute readable, there is a listed slot at it or a request is spent or a custom time is allowed, the start lies ahead, and nobody is served meanwhile; then it has the slot, range and people asked for |
| Scheduling.CancelledExactlyWhen | src/modules/bookings/bookings.service.ts:542-613 | Who may cancel when: either participant before work, an administrator unless it is disputed, settled or concluded, the two sweeps, and a no-show on arrival; the slot is opened and nothing else changes |
| Scheduling.CustomTimeIsTheRequestedOne | src/modules/bookings/bookings.service.ts:3220-3224 | A custom time starts at the requested minute and ends after the minimum, at 23:59 at the latest; it covers a minute exactly when it starts before that and the minimum is positive |
| Scheduling.PastMeansMinuteReached | src/modules/bookings/bookings.service.ts:3269-3275 | For today and later dates a start counts as past exactly when its minute has been reached |
| Scheduling.MovedAsRequested | src/modules/bookings/bookings.service.ts:648-682 | A move claims a free slot of the tasker at the requested minute and date, opens the former one, and sets the booking back to pending |
| Scheduling.RescheduledExactlyWhen | src/modules/bookings/bookings.service.ts:633-704 | On the rows alone: a reschedule is possible exactly for the customer's own pending or confirmed booking and a listed slot of its tasker at the minute and date asked for, ahead of now |
| Scheduling.ProposedExactlyWhen | src/modules/bookings/bookings.service.ts:706-764 | A tasker's proposal is possible exactly for an own booking without an open one and a slot it could go to; it keeps the date asked for and the start of that slot |
| Scheduling.RespondedExactlyWhen | src/modules/bookings/bookings.service.ts:778-882 | An answer is possible exactly for an open proposal of the customer's own booking; accepting also needs a listed slot at the proposed start |
| Scheduling.AcceptedMoveIsAheadIffDateIsNotPast | src/modules/bookings/bookings.service.ts:778-882 | An accepted move goes to a start that lies ahead if and only if the proposed date has not passed |
| Scheduling.LateAnswerMovesIntoThePast | src/modules/bookings/bookings.service.ts:778-882 | A run in which a proposal is accepted after its date and the booking moves there |
| Scheduling.PlacedKeepsTimes | src/modules/bookings/bookings.service.ts:3250-3267 | A booking admitted by the check of free time keeps all active bookings apart |
| Scheduling.NoMinuteIsTakenTwice | src/modules/bookings/bookings.service.ts:3234-3267 | In every run of booking, cancelling, expiring, completing and no-shows no minute of a date is covered by two active bookings of a tasker |
| Scheduling.RunKeepsTimes | src/modules/bookings/bookings.service.ts:3250-3267 | In those runs no two active bookings of a tasker on a date overlap, empty ranges included |
| Scheduling.TimesApartIffNeverMovedIntoTaken | src/modules/bookings/bookings.service.ts:648-682 | All through any run active bookings of a tasker on a date do not overlap, if and only if no move in it goes to a range that another active booking takes |
| Scheduling.MovesKeepTimesIffFree | src/modules/bookings/bookings.service.ts:648-682 | A reschedule, an accepted proposal or a reassignment keeps times apart if and only if the range it ends up with is free of the tasker's other active bookings |
| Scheduling.RescheduleCanDoubleBook | src/modules/bookings/bookings.service.ts:653-667 | A run of two bookings and one reschedule after which the tasker is double-booked |
| Scheduling.AtMostOneOpenProposal | src/modules/bookings/bookings.service.ts:720-725 | In every run a booking has at most one reschedule proposal waiting for an answer |
| Scheduling.AnswersAreFinal | src/modules/bookings/bookings.service.ts:788-794 | An answered proposal is never changed |
| BookingService.BookingsService.ClaimSlot | src/modules/bookings/bookings.repository.ts:41-47 | True exactly when the slot was there and not booked; then it is booked |
| BookingService.BookingsService.FindOpenSlotsForDate | src/modules/bookings/bookings.repository.ts:20-39 | Exactly the tasker's slots of the date that are neither booked nor custom |
| BookingService.BookingsService.IsTaskerTimeFree | src/modules/bookings/bookings.service.ts:3254-3267 | True exactly when no active booking of the tasker on the date overlaps the range |
| BookingService.BookingsService.Book | src/modules/bookings/bookings.service.ts:286-473 | Succeeds exactly under the conditions of `MayBook` on request and rows, and then has its full effect; a listed slot at the minute is preferred to a custom time |
| BookingService.BookingsService.CancelCustomer | src/modules/bookings/bookings.service.ts:542-613 | Succeeds exactly for the customer's own booking before work, which is then cancelled and its slot open |
| BookingService.BookingsService.CancelTasker | src/modules/tasker-dashboard/services/tasker-tasks.service.ts:262-300 | Succeeds exactly for the tasker's own booking before work, which is then cancelled and its slot open |
| BookingService.BookingsService.CancelAdmin | src/modules/admin-dashboard/services/admin-bookings.service.ts:470-520 | Succeeds exactly for a booking that is not concluded, disputed or settled |
| BookingService.BookingsService.Reschedule | src/modules/bookings/bookings.service.ts:633-704 | Fails exactly when no slot would do, and then changes nothing; otherwise the new slot is claimed, the old one opened and the booking pending again |
| BookingService.BookingsService.CreateRescheduleProposal | src/modules/bookings/bookings.service.ts:706-764 | Fails exactly when no slot would do or a proposal is open |
| BookingService.BookingsService.RespondRescheduleProposal | src/modules/bookings/bookings.service.ts:778-882 | Fails exactly when the proposal is not this booking's or no answer is possible; acceptance moves the booking like a reschedule |
| BookingService.BookingsService.ExpireOnePendingBooking | src/modules/bookings/bookings.service.ts:1181-1257 | True exactly when the booking is still pending, which is then cancelled and its slot open |
| BookingService.BookingsService.ExpireOneAwaitingPaymentBooking | src/modules/bookings/bookings.service.ts:1304-1383 | True exactly when the booking still awaits a payment that is due and not captured |
| BookingService.BookingsService.CancelAfterNoShow | src/modules/bookings/bookings.service.ts:2297-2312 | Only the booking's tasker, only on arrival; the booking is cancelled and its slot opened |
| BookingService.BookingsService.Reassign | src/modules/admin-dashboard/services/admin-bookings.service.ts:587-655 | Succeeds exactly when no dispute is active, work has not begun, the payment is not settled and the tasker is another approved one; the booking is then pending with its slot kept and opened |
| WorkFlow.NoCompletionUnderDispute | src/modules/bookings/booking-work-verification.service.ts:314-349 | No step ever makes a booking completed while a dispute about it is active; `finishWork`, which never looks at disputes, only meets bookings that have never had one |
| WorkFlow.OneActiveExactlyWhileRefundsFailAlone | src/modules/bookings/bookings.service.ts:2220-2235 | Filing, appealing, reopening and failing refunds taken together: all through a run a booking has at most one active dispute, if and only if no refund in it fails for a resolved dispute while another one of the booking is active |
| WorkFlow.FailedRefundKeepsOneActiveIffAlone | src/modules/payments/payments.service.ts:2399-2412 | Returning a resolved dispute to investigation after a failed refund keeps one active dispute for its booking exactly when no other one is active |
| WorkRuns.FailedRefundMakesTwoActive | src/modules/payments/payments.service.ts:2055-2125 | A run of work, payment, dispute, refund, a second dispute and a late failure of the refund, after which both disputes are active |
| WorkFlow.AppealsAreCounted | src/modules/bookings/bookings.service.ts:2741-2777 | The appeal count is the number of participants who appealed and never exceeds two |
| WorkFlow.VerifiedWorkChain | src/modules/bookings/booking-work-verification.service.ts:58-382 | A completed booking that needed verification has arrival proof, start, completion proof and verified completion in this order, and the proof stopped its timer |
| WorkFlow.CodesFollowProofs | src/modules/bookings/booking-work-verification.service.ts:110-122 | A start code is only ever out after the arrival picture, a completion code only after the completion picture with the timer stopped |
| WorkFlow.ApprovalFollowsSubmission | src/modules/bookings/bookings.service.ts:1424-1440 | Every completed booking was submitted before it was approved and approved when it was completed, and its customer may file a dispute exactly within the window from then while none is active |
| WorkFlow.MissesPerCodeAreBounded | src/modules/bookings/booking-work-verification.service.ts:150-156 | Each code ever issued is compared unsuccessfully at most the permitted number of times |
| WorkFlow.CompletedTasksAreExact | src/modules/bookings/bookings.service.ts:1441-1444 | A tasker's counter is exactly the number of the tasker's completed bookings, over all three ways to complete |
| WorkFlow.ReviewCoversTheWork | src/modules/bookings/bookings.service.ts:1092-1109 | Pauses never exceed the time since the start, and an approved duration covers the worked minutes, exactly so when it was extended |
| WorkFlow.PictureIsOwnIffNotHandedOn | src/modules/admin-dashboard/services/admin-bookings.service.ts:604-641 | In every run the arrival picture is by the booking's present tasker if and only if no reassignment was carried out with the picture attached, or the last such one gave the booking back to the one who took it |
| WorkFlow.StartIsOnOwnProofIffNotHandedOn | src/modules/bookings/booking-work-verification.service.ts:140-214 | Whoever may start work has a picture before them, which is their own under exactly that condition |
| WorkRuns.SecondTaskerStartsOnTheFirstsPicture | src/modules/bookings/booking-work-verification.service.ts:140-214 | A run of picture, code, reassignment and arrival after which the second tasker, who cannot attach another picture, has started work on the first one's |
| WorkFlow.CompletedAndCancelledAreFinal | src/modules/bookings/bookings.service.ts:553-559 | Completed and cancelled bookings never change status or tasker again |
| WorkFlow.RetriedFilingChangesNothing | src/modules/bookings/bookings.service.ts:2144-2173 | Filing again under the same key has no effect, also after the first filing cancelled the booking |
| WorkRules.WorkStartsInTime | src/modules/bookings/booking-work-verification.service.ts:107-214 | In every run verified work only ever starts by the right digits of a code that was issued for the booking less than its lifetime before |
| WorkRules.WorkFinishesInTime | src/modules/bookings/booking-work-verification.service.ts:279-382 | By a code work is only ever finished with the right digits of one issued for it less than its lifetime before |
| WorkRules.CodesComeFromIssues | src/modules/bookings/booking-work-verification.service.ts:107-138 | Every code that is out was issued by a step of the run, with this expiry, and has been out ever since |
| WorkRules.StartRule | src/modules/bookings/booking-work-verification.service.ts:140-214 | On the fields of the row: accepted exactly for the tasker's arrived booking with a picture, a code that is out, not expired and not locked, and equal digits; wrong ones use up an attempt, anything else changes nothing |
| WorkRules.FinishRule | src/modules/bookings/booking-work-verification.service.ts:314-382 | The same for the completion code; afterwards submitted when the proof was taken, approved and completed now |
| WorkRules.CompletionRule | src/modules/bookings/booking-work-verification.service.ts:216-277 | The completion picture is taken exactly once, by the tasker, of started work; it stops the timer and adds up a running pause in whole seconds |
| WorkRules.ApprovalRule | src/modules/bookings/bookings.service.ts:1385-1444 | The customer completes exactly finished work of their own, proved where needed and not disputed; then the tasker's counter goes up by one |
| WorkRules.AutoApprovalRule | src/modules/bookings/bookings.service.ts:1534-1590 | The sweep completes exactly submitted work whose due date had come when it began, without verification and dispute |
| WorkRules.TimerRule | src/modules/tasker-dashboard/services/tasker-tasks.service.ts:592-663 | Pausing, resuming and stopping are possible exactly from their statuses, and pauses are added up in whole seconds |
| WorkRules.ReviewRule | src/modules/bookings/bookings.service.ts:1077-1109 | Possible exactly for completed work under review; the extension then covers the worked minutes |
| WorkRules.FilingRule | src/modules/bookings/bookings.service.ts:2111-2327 | On the rows alone: who may open a dispute when; it is open, its payment on hold unless concluded, and a no-show cancels the booking |
| WorkRules.AppealRule | src/modules/bookings/bookings.service.ts:2721-2818 | On the rows alone: who may appeal when; the dispute is under investigation and its payment on hold unless concluded |
| WorkRules.ReassignRule | src/modules/admin-dashboard/services/admin-bookings.service.ts:604-655 | On the rows alone: when an administrator may hand a booking on, and that nothing but tasker and status changes |
| WorkService.WorkVerification.AttachFrontDoor | src/modules/bookings/booking-work-verification.service.ts:58-105 | One arrival picture per booking; the same one again is accepted and changes nothing |
| WorkService.WorkVerification.IssueStartCode | src/modules/bookings/booking-work-verification.service.ts:107-138 | A new code with no attempts used, only after arrival with proof |
| WorkService.WorkVerification.StartWork | src/modules/bookings/booking-work-verification.service.ts:140-214 | Accepted exactly under the conditions of `StartRule`; an expired code fails and changes nothing; a wrong one commits one more attempt and reports whether the code is locked |
| WorkService.WorkVerification.AttachCompletion | src/modules/bookings/booking-work-verification.service.ts:216-277 | The completion picture stops the timer and closes a running pause |
| WorkService.WorkVerification.IssueCompletionCode | src/modules/bookings/booking-work-verification.service.ts:279-312 | A new code with no attempts used, only for stopped work with proof |
| WorkService.WorkVerification.FinishWork | src/modules/bookings/booking-work-verification.service.ts:314-382 | Accepted exactly under the conditions of `FinishRule`; an expired code fails and changes nothing; a wrong one commits one more attempt; on finished work it succeeds and changes nothing |
| WorkService.WorkVerification.CompleteByCustomer | src/modules/bookings/bookings.service.ts:1385-1444 | Succeeds exactly if the customer's booking is completed afterwards; never under an active dispute |
| WorkService.WorkVerification.AutoApproveOne | src/modules/bookings/bookings.service.ts:1534-1590 | Completes exactly when due at the sweep's start, unverified and undisputed; asks for the payment exactly then or when an earlier automatic approval is still unpaid; reports exactly whether a dispute or hold blocks it |
| WorkService.WorkVerification.AdmitFiling | src/modules/bookings/bookings.service.ts:2144-2235 | Admits exactly the filings that may be made, and recognises a repeated one |
| WorkService.WorkVerification.FileComplaint | src/modules/bookings/bookings.service.ts:2111-2327 | Opens the dispute exactly when admitted; a no-show cancels the booking; a repeated filing returns the first dispute and changes nothing |
| WorkService.WorkVerification.AppealDispute | src/modules/bookings/bookings.service.ts:2721-2818 | Succeeds exactly when the dispute is closed, in time, not appealed by this user and no other is active |
| WorkService.WorkVerification.ApproveDurationReview | src/modules/bookings/bookings.service.ts:1077-1109 | The extension afterwards is that of the step, computed from the stopped timer |
| CustomTime.OnePendingPerPairAndOneRequestPerBooking | src/modules/bookings/custom-time-requests.service.ts:132-158 | In every run a pair has at most one pending request and a booking spends at most one |
| CustomTime.SpentExactlyWhileUsable | src/modules/bookings/custom-time-requests.service.ts:342-405 | A request becomes fulfilled exactly by a booking of its customer, tasker, service, date and minute, while accepted and before its window closes |
| CustomTime.AcceptanceOpensABookingWindow | src/modules/bookings/custom-time-requests.service.ts:212-222 | After acceptance a fitting booking may use the request exactly until a full window has passed; after rejection never |
| CustomTime.PastMeansMinuteReached | src/modules/bookings/custom-time-requests.service.ts:512-518 | A readable start is past exactly when its minute of its date has been reached |
| CustomTime.ClosedRequestsNeverChange | src/modules/bookings/custom-time-requests.service.ts:301-310 | Rejected, cancelled, expired and fulfilled requests are final |
| CustomTime.ListingAgreesWithView | src/modules/bookings/custom-time-requests.service.ts:258-268 | At one moment, a listing by status holds exactly the rows shown with that status |
| CustomTime.SweepIsInvisible | src/modules/bookings/custom-time-requests.service.ts:448-461 | The sweep never changes the status shown |
| CustomTime.CreateRule | src/modules/bookings/custom-time-requests.service.ts:89-185 | On the rows alone: possible exactly for a start ahead, another person, and while nothing asked of this tasker waits; the request says what was asked for and waits one window |
| CustomTime.RespondRule | src/modules/bookings/custom-time-requests.service.ts:187-250 | On the rows alone: who may answer when; acceptance only for a start ahead and for a new window |
| CustomTime.RefusalsMean | src/modules/bookings/custom-time-requests.service.ts:342-391 | Which of the five refusals a claim meets, on the fields of request and claim, and when it meets none |
| CustomTime.CustomTimeRequests.CreateRequest | src/modules/bookings/custom-time-requests.service.ts:89-185 | Succeeds exactly when allowed; stale requests of the pair are closed first |
| CustomTime.CustomTimeRequests.RespondToRequest | src/modules/bookings/custom-time-requests.service.ts:187-250 | Succeeds exactly for the tasker's own pending request in time, and not for a past start |
| CustomTime.CustomTimeRequests.CancelRequest | src/modules/bookings/custom-time-requests.service.ts:292-327 | Fails exactly for a missing, foreign or closed request |
| CustomTime.CustomTimeRequests.MarkFulfilled | src/modules/bookings/custom-time-requests.service.ts:393-405 | Marks the row exactly when it is still accepted |
| CustomTime.CustomTimeRequests.SpendOn | src/modules/bookings/bookings.service.ts:423-425 | The outcome is that of the checks; after them the mark always takes effect |
| CustomTime.CustomTimeRequests.ExpireDueRequests | src/modules/bookings/custom-time-requests.service.ts:408-446 | Of the candidates exactly the open and due ones are closed, and the number returned is theirs |
| RequestedBooking.SpentRequestsHaveTheirBooking | src/modules/bookings/bookings.service.ts:303-426 | In every common run of requests and bookings the booking named by a spent request is its customer's and, until it is moved, at the requested date and minute on a slot of the requested tasker |
| RequestedBooking.BookingOnRequestIsTheRequestedOne | src/modules/bookings/bookings.service.ts:3225-3250 | A booking on a request is made exactly when the request is usable and the booking possible; it has the request's customer, tasker, date and minute, and no request named it before |
| RequestedBooking.CommonRunsAreRunsOfBoth | src/modules/bookings/bookings.service.ts:325-426 | Every common run is a run of the requests alone and a run of the schedule alone, so all results on either hold for it |
| RequestedBooking.OneRequestPerBooking | src/modules/bookings/custom-time-requests.service.ts:393-405 | No two requests are ever spent on one booking, because bookings have fresh ids |
| Settlement.AcceptedMeansAcceptedByBoth | src/modules/bookings/bookings.service.ts:2869-2908 | An accepted proposal was accepted by both participants and rejected by none; each answers once; at most one proposal is open |
| Settlement.AcceptedExactlyBySecond | src/modules/bookings/bookings.service.ts:2893-2908 | An acceptance settles the proposal exactly when the other participant has accepted before |
| Settlement.AnswerRule | src/modules/bookings/bookings.service.ts:2848-2908 | On the rows alone: who may answer, and that a rejection closes the proposal, the second acceptance accepts it, and the first leaves it open |
| Settlement.ProposalRule | src/modules/admin-dashboard/services/admin-disputes.service.ts:930-1044 | A proposal is possible exactly for an active dispute and a later deadline; any other open one is superseded |
| Settlement.ResolutionRule | src/modules/admin-dashboard/services/admin-disputes.service.ts:1046-1300 | Resolving is possible exactly afresh, from a draft or an accepted proposal, and with a refund only while no other is being processed; without one the dispute is closed at once |
| Settlement.WithdrawalRule | src/modules/bookings/bookings.service.ts:2635-2689 | Withdrawing is possible exactly for the participant who filed, and cancels what is open |
| Settlement.ReportRule | src/modules/payments/payments.service.ts:2061-2125 | What each report writes to resolution and dispute, whatever the status was |
| Settlement.ClosedProposalsStayClosed | src/modules/bookings/bookings.service.ts:2686-2689 | Rejected, expired, cancelled and superseded proposals never change, whatever follows, and neither do resolutions applied without a refund by card |
| Settlement.AppliedByTheLatestReport | src/modules/payments/payments.service.ts:2061-2125 | Once a refund by card is applied, its resolution is applied exactly when the latest later report about it, if there is one, is of its success |
| Settlement.AppliedStaysIffNoSetback | src/modules/payments/payments.service.ts:2092-2104 | From any reachable state an applied resolution stays applied all through what follows if and only if it has no refund by card or no pending or failed report for it follows |
| Settlement.AppliedRefundIsTakenBack | src/modules/payments/payments.service.ts:2385-2412 | A run in which an applied refund by card is reported as failed, after which its resolution has failed and the resolved dispute is active again |
| Settlement.WithdrawnStaysIffNoLateSuccess | src/modules/payments/payments.service.ts:2254-2300 | From any reachable state a withdrawn dispute stays withdrawn all through what follows if and only if no success of a refund by card that was issued for it is reported |
| Settlement.LateSuccessResolvesAWithdrawnDispute | src/modules/payments/payments.service.ts:2277-2291 | A run in which a refund is reported as failed, the dispute is withdrawn, and a late success resolves it |
| Settlement.SettlementDesk.RespondToProposal | src/modules/bookings/bookings.service.ts:2848-2908 | Succeeds exactly for a participant's first answer to an open proposal in time |
| Settlement.SettlementDesk.ProposeResolution | src/modules/admin-dashboard/services/admin-disputes.service.ts:965-1008 | Supersedes the open proposal and opens a new one or a draft |
| Settlement.SettlementDesk.ProcessExpiries | src/modules/disputes/dispute-lifecycle.service.ts:596-683 | Of the candidates exactly the open and due ones expire, and the number returned is theirs |
| Settlement.SettlementDesk.WithdrawDispute | src/modules/bookings/bookings.service.ts:2635-2689 | Succeeds exactly for the participant who opened the dispute, while it is active and no resolution is being processed; afterwards nothing is open |
| Settlement.SettlementDesk.FinalizeRefundResolution | src/modules/payments/payments.service.ts:2254-2300 | Unless the resolution is applied already, it is applied and the dispute resolved, whatever its status |
| Settlement.SettlementDesk.FailRefundResolution | src/modules/payments/payments.service.ts:2385-2412 | Unless the resolution is applied, it has failed, and a resolved dispute is active again |
| Settlement.SettlementDesk.HandleRefundEvent | src/modules/payments/payments.service.ts:2061-2125 | For an issued refund by card the resolution afterwards says what was reported last, also when it was applied before; the dispute follows |
| Evidence.UniqueEvidenceByPublicId | src/modules/bookings/bookings.service.ts:71-78 | The loop with a set of seen ids keeps exactly the first item of each id |
| Evidence.FirstOfEachIdIsDistinct | src/modules/bookings/bookings.service.ts:71-78 | The result has every id once and no others |
| Evidence.FirstIsKept | src/modules/bookings/bookings.service.ts:71-78 | The first item with an id is the one that is kept, in its place |
| Evidence.NewInOrder | src/modules/bookings/bookings.service.ts:2453-2464 | What the table does not have is added in the order submitted, and nothing else; a file without an id is never recognised |
| Evidence.SubmissionRule | src/modules/bookings/bookings.service.ts:2413-2568 | Possible exactly for something, while the dispute is active, if what is new keeps both limits; that is appended, and requests are answered exactly if there is any |
| Evidence.EvidenceStaysWithinLimits | src/modules/disputes/dispute-lifecycle.service.ts:84-128 | In every run public ids are distinct, evidence is only added, and both limits hold, save for an old case to which nothing was added |
| Evidence.EveryFileCountsOnce | src/modules/disputes/dispute-lifecycle.service.ts:96-115 | In every run number and size count the files of the dispute row, wherever they are kept, and those submitted since; none is counted twice if and only if the files of the dispute row differ and the dispute was filed with rows of its own or no accepted submission contains one of them |
| Evidence.KnownExactlyIfFiledOrAccepted | src/modules/bookings/bookings.service.ts:2453-2464 | In every run the table has an id exactly when it was filed with it or some accepted submission contained it |
| Evidence.OldFileCountsTwice | src/modules/disputes/dispute-lifecycle.service.ts:96-115 | The only file of an old dispute is submitted again and counts as two |
| Evidence.KnownEvidenceChangesNothing | src/modules/bookings/bookings.service.ts:2453-2507 | An accepted submission changes nothing exactly when all its items are known; otherwise it adds evidence and answers requests |
| Evidence.AnsweringSettlesOneSide | src/modules/bookings/bookings.service.ts:2484-2506 | After a submission this side has no open request, late ones are marked late, and nothing else changes |
| Evidence.DisputeEvidence.AssertEvidenceCapacity | src/modules/disputes/dispute-lifecycle.service.ts:84-128 | Refuses exactly what does not fit, and names the item limit exactly when that is exceeded |
| Evidence.DisputeEvidence.AddComplaintEvidence | src/modules/bookings/bookings.service.ts:2413-2568 | Succeeds exactly when the submission is possible, with its full effect and the number of items added |
| StorageLease.DelayGrowsToADay | src/modules/account-deletion/object-storage-deletion.service.ts:192-195 | The delay never shrinks, stops growing after nine attempts and never exceeds a day |
| StorageLease.OutcomeRule | src/modules/account-deletion/object-storage-deletion.service.ts:176-207 | An outcome takes effect exactly on a row processing under the run's token: completed, or failed and due again after base times a power of two of its attempts, at most a day |
| StorageLease.ClaimRule | src/modules/account-deletion/object-storage-deletion.service.ts:82-109 | A claim takes exactly those of the rows found that are due, or whose lock is older than permitted, when it is made |
| StorageLease.NoRetryBeforeTheBackoff | src/modules/account-deletion/object-storage-deletion.service.ts:82-195 | In every schedule no run claims a failed row before its last failure plus the backoff for its attempts |
| StorageLease.ObjectStorageDeletion.Settle | src/modules/account-deletion/object-storage-deletion.service.ts:176-207 | Writes the outcome exactly if the row is still held, with attempts, status and next time stated on the row |
| StorageLease.AttemptsCountOutcomes | src/modules/account-deletion/object-storage-deletion.service.ts:170-221 | In every schedule attempts are exactly the outcomes that took effect, a row is processing exactly while it carries a token, and no run has two outcomes for one row |
| StorageLease.OnlyTheHolderDecides | src/modules/account-deletion/object-storage-deletion.service.ts:176-221 | A row's outcome is changed only by the run whose token it carries; a claim takes a row only if it is due or its lock is stale |
| StorageLease.CompletedIsFinal | src/modules/account-deletion/object-storage-deletion.service.ts:90-100 | A completed task never changes again |
| StorageLease.ObjectStorageDeletion.ProcessOne | src/modules/account-deletion/object-storage-deletion.service.ts:170-221 | True exactly when the row was still held, the provider gave one of the two good answers and completing did not throw; a row held is then completed, or failed and due again after the backoff |
| StorageLease.ObjectStorageDeletion.ProcessPending | src/modules/account-deletion/object-storage-deletion.service.ts:82-118 | Under any interference: every row claimed gets its own outcome, the count returned is exactly the number of completions that took effect under the run's token, and no row is left under that token |
| FcmQueue.QueuedRowsBelongToTheOwner | src/modules/fcm/fcm.service.ts:46-127 | All through a schedule what is queued for a device is for the account that has it, if and only if no enqueue makes its rows after a device it read has changed hands |
| FcmQueue.RowsAreCountedAndLockedRight | src/modules/fcm/fcm.service.ts:129-185 | In every schedule a queued row has attempts left and is locked exactly while processing; attempts are the recorded failures; one row for a notification and device |
| FcmQueue.LateRowReachesTheNextAccount | src/modules/fcm/fcm.service.ts:93-127 | A run in which a row made for the previous account is queued for the next account's device, and its push goes there |
| FcmQueue.SettledRowsAreFinal | src/modules/fcm/fcm.service.ts:305-328 | Sent and failed rows never change again |
| FcmQueue.OnlyTheHolderEndsAFreshLock | src/modules/fcm/fcm.service.ts:135-163 | A row under a lock that is not stale is changed only by its holder's report, or goes with a device that changes hands; a failure is counted and delays the row |
| FcmQueue.RetryDelayGrowsToAnHour | src/modules/fcm/fcm.service.ts:321-321 | The retry delay never shrinks and never exceeds an hour |
| FcmRules.NoRetryBeforeTheDelay | src/modules/fcm/fcm.service.ts:135-163 | In every schedule a delivery that failed is not claimed again before the delay after its last failure is over |
| FcmRules.RegisterRule | src/modules/fcm/fcm.service.ts:46-77 | A device that moves to another account loses exactly the rows queued for it and is enabled for the account |
| FcmRules.InsertRule | src/modules/fcm/fcm.service.ts:93-127 | Every device read gets a row due at once unless it has one for the notification; other rows stay |
| FcmRules.ClaimRule | src/modules/fcm/fcm.service.ts:129-163 | A claim takes exactly those of the chosen rows that are due or whose lock is older than permitted |
| FcmRules.ReportRule | src/modules/fcm/fcm.service.ts:305-328 | A report takes effect exactly under the token; the last permitted or a permanent failure is final, any other puts the row off by the doubling delay |
| FcmQueue.PushGoesAstrayIffDeviceMoved | src/modules/fcm/fcm.service.ts:46-77 | Without late enqueues a claimed push reaches another account exactly when the device has changed hands since the claim, and never while its row is queued |
| FcmQueue.MovedDeviceCanGetTheOldPush | src/modules/fcm/fcm.service.ts:51-59 | A run in which the previous account's push reaches the next account |
| FcmQueue.FcmService.RegisterToken | src/modules/fcm/fcm.service.ts:46-77 | Rows queued for a device of another account go before the device changes hands |
| FcmQueue.FcmService.EnqueueNotification | src/modules/fcm/fcm.service.ts:93-127 | Whatever others commit between its reading and its writing: one row for each enabled, addressed device read that has none for the notification when it is written, and the number of these rows |
| FcmQueue.FcmService.MarkFailed | src/modules/fcm/fcm.service.ts:313-328 | Takes effect only under the holder's token; the last permitted or a permanent failure is final |
| FcmQueue.FcmService.Report | src/modules/fcm/fcm.service.ts:144-181 | Exactly which statements follow a send, in which order, for every way it can end: an unknown device is switched off first, and an error is reported last |
| FcmQueue.FcmService.RunOnce | src/modules/fcm/fcm.service.ts:129-185 | Every claimed delivery is sent exactly once and its own outcome reported, nothing else is sent, and none stays locked, under any interference and whatever throws in between; sent are exactly those accepted and recorded without an error, failed the others |
| EmailQueue.AtMostFiveMails | src/modules/disputes/dispute-lifecycle.service.ts:746-778 | In every schedule of sweeps a row is mailed at most as often as it was claimed, and at most five times |
| EmailQueue.SentIsFinalIffNoOpenWork | src/modules/disputes/dispute-lifecycle.service.ts:788-798 | A sent row stays as it is under every continuation if and only if no other claim on it is unreported |
| EmailQueue.SentCanBeMailedAgain | src/modules/disputes/dispute-lifecycle.service.ts:765-801 | A run in which a row reported as sent is mailed a second time |
| EmailQueue.TakenOverAfterTenMinutes | src/modules/disputes/dispute-lifecycle.service.ts:746-778 | In every schedule a row that is being mailed is taken over only ten minutes after its last claim, or later |
| EmailQueue.ReadRule | src/modules/disputes/dispute-lifecycle.service.ts:746-763 | A sweep reads, once, exactly rows that are pending, failed or stale and were tried fewer than five times |
| EmailQueue.ClaimRule | src/modules/disputes/dispute-lifecycle.service.ts:765-778 | A claim takes effect exactly on a row read, not tried since and still free, and counts the attempt |
| EmailQueue.DisputeEmailWorker.ProcessEmailDeliveries | src/modules/disputes/dispute-lifecycle.service.ts:746-803 | Under any interference: a claim is tried for every row read; each row claimed is mailed exactly if mailing came to that, and its own outcome reported; the number returned is that of successes reported |
| CursorPaging.NewestIsTheListing | src/modules/conversations/conversations.service.ts:256-261 | The listing is in order and holds exactly the rows of the table |
| CursorPaging.NumberedPageRule | src/modules/conversations/conversations.service.ts:241-282 | A page by number shows the rows of the listing after those of the pages before it, oldest first, and says from the total whether there are more |
| CursorPaging.CursorPageRule | src/modules/conversations/conversations.service.ts:249-278 | A page by cursor shows the rows listed after the cursor's, and is refused exactly for an id that is not there |
| CursorPaging.CursorPageIsNext | src/modules/conversations/conversations.service.ts:249-278 | A cursor request shows in order rows of its table older than the cursor's, skips none down to its oldest or else none at all, and gives its oldest as the next cursor, whatever has arrived meanwhile |
| CursorPaging.WalkVisitsEverything | src/modules/conversations/conversations.service.ts:241-282 | Whatever messages arrive between the requests, the walk shows messages in order and none twice; all of its first table are among them if and only if the total was not a stale one that a single page would cover |
| CursorPaging.WalkShowsTheFirstTable | src/modules/conversations/conversations.service.ts:241-282 | If all arrivals are newer than what was there, the walk shows the first table and nothing else, under the same condition on the total |
| CursorPaging.ConsistentTotalMissesNothing | src/modules/conversations/conversations.service.ts:255-264 | With a total at least that of the listed table nothing of it is missed and nothing shown twice, whatever arrives |
| CursorPaging.StaleTotalLosesTheOldest | src/modules/conversations/conversations.service.ts:255-276 | A case in which the oldest message is never shown |
| Availability.ValidateAvailabilitySlots | src/common/utils/availability.util.ts:10-61 | Returns normally exactly when dates, elapsed starts, order and disjointness are all right, and otherwise names exactly the first kind of error with its slots or date |
| Availability.AcceptedExactlyWhen | src/common/utils/availability.util.ts:10-61 | On days and minutes alone: a list is accepted exactly when every slot is on a date from today on, starts after the present minute if it is today, and ends after its start, and of two slots on one date one is over before the other begins |
| Availability.FindOverlap | src/common/utils/availability.util.ts:50-60 | The loops over a map of dates find a clash exactly when two slots of one date overlap, and name the date of the first |
| Availability.RewritingKeepsTheVerdict | src/common/utils/availability.util.ts:10-61 | Rewriting times to 12 or 24 hours never changes the verdict |
| Availability.AcceptedSlotsShareNoMinute | src/common/utils/availability.util.ts:50-60 | No minute of a date belongs to two accepted slots |
| Availability.OrderDoesNotMatter | src/common/utils/availability.util.ts:10-61 | Reordering the slots never changes the verdict |
| Availability.AcceptedDatesAreNotPast | src/common/utils/date.util.ts:27-29 | A text passes exactly when it is a date of the calendar that is today's or later in the order of year, month and day |
| Availability.ValidDatesAreTheCalendars | src/common/utils/date.util.ts:1-13 | The valid texts are exactly the written-out days of the calendar from the year 100 on, leap days included, and each reads back as its day |
| Availability.DatesCompareAsTexts | src/common/utils/date.util.ts:21-29 | For dates, comparing the texts is comparing year, month and day |
| TimeUtil.Format24RoundTrip | src/common/utils/time.util.ts:29-35 | Reading a written 24-hour time gives the minute back, for every minute of a day |
| TimeUtil.Format12RoundTrip | src/common/utils/time.util.ts:37-43 | Reading a written 12-hour time gives the minute back, for every minute of a day |
| TimeUtil.RewritingKeepsTheMinute | src/common/utils/time.util.ts:45-53 | Both rewritings keep the parsed minute of every text, readable or not |
| TimeUtil.CanonicalWriting | src/common/utils/time.util.ts:45-53 | Two readable texts are rewritten alike exactly when they mean the same minute |
| TimeUtil.OverlapMeansSharedMinute | src/common/utils/time.util.ts:60-69 | Two ranges share a minute exactly when they overlap and neither is empty |
| TimeTexts.ReadsExactlyTheTimes | src/common/utils/time.util.ts:1-25 | A text is read as a minute if and only if it is written as a time that means it, with or without AM or PM, and nothing else but white space |

## Left out

- Controllers, request validation, guards, configuration, localisation, serialisers, audit rows, notifications and realtime events: they decide nothing about the rows modelled.
- Payments, refunds, estimates and pricing: payment status appears only where a modelled transaction reads or sets it; a captured payment, a settled or failed refund and the other payment statuses are steps of the surroundings. Of a dispute's refund only its latest report is kept, without amounts: once submitted, the provider may report it pending, settled or failed at any later time.
- Mail, push, storage and Redis connections: only that a call succeeded, failed or never came back.
- Hashes and random codes: a digest is a value that its text determines, a code matches when its digits do, and tokens are fresh.
- Key order in `stableStringify`: comparison of keys is any total order; strings are sequences of Unicode scalar values, so lone surrogates are not modelled, and numbers are their finite JSON text.
- Case folding beyond the letters A to Z: in AM and PM and in the storage provider's answers only these are written in either case.
- Cache hit, miss, bypass and failure counters: they influence nothing. The version counter is assumed never to be evicted.
- Interleavings inside one transaction: a transaction under its row lock is one step, and each `updateMany` with a condition is one compare-and-set; only the statement that queues pushes is two steps, its reading and its writing.
- Slots deleted by a tasker, and changes of availability after creation: slots are only added.
- Tasker and customer steps outside the modelled services (acceptance, payment, travel): one step that moves a booking between the statuses before work, which allows more than the code does.
- BookingService.BookingsService.Book: the checks of profiles, service and booking policy are one input that says whether they pass.
- AccountDeletion.AccountDeletionService.PermanentlyDelete: covers the two marketplace roles; the branch for administrators is left out, since it purges nothing.
- The administrator branch of the blockers, and what deleting the user row itself cascades to: one input says whether that last statement is let through.
- Purge of rows without money or references to other people (addresses, favourites, subscriptions, badges, requests, disciplinary actions), dispute resolutions, and platform settlements: they would only add tables without new references.
- Resolutions of disputes as targets of cash refunds: a cash refund hangs on its dispute only.
- Warning strikes, service-level and evidence-request sweeps, satisfaction ratings and comments: they would only add counters and views.
- Sending messages, read markers and booking buckets of a conversation; managed assets taken from JSON fields: not needed by a property proved here.
- AppCache.CacheCluster.GetOrLoadWithStatus: states one undisturbed call that finds no load in flight; interleaved calls are what the segment methods and `AppCache.AnswersAreFresh` cover.
- Scheduling.NoMinuteIsTakenTwice: says nothing about runs with moves, for which `Scheduling.TimesApartIffNeverMovedIntoTaken` gives the exact condition; a custom time at 23:59 has an empty range and covers no minute.
- FcmQueue.RowsAreCountedAndLockedRight: bounds recorded failures, not sends; a run that hangs beyond its lock lets another run send the same row without using up an attempt.
- FcmQueue.FcmService.RunOnce: a report that throws inside the handler of an error ends the run in the code; here that is a worker that stops, which every schedule allows, and a send that never left counts as a refused one.
- EmailQueue.DisputeEmailWorker.ProcessEmailDeliveries: an update inside the handler of an error that throws ends the sweep in the code, with rows unreported; here that is a worker that stops, which every schedule allows.
- StorageLease.ObjectStorageDeletion.ProcessPending: a completion that throws although it took effect, and so is not counted in the code, is not modelled.
- Settlement.SettlementDesk.HandleRefundEvent: says nothing about what a refund does to the payment and the earnings.
- The other disputes of a booking in `Settlement`: that another one may be active when a dispute is taken up again is in `WorkFlow`.
- AccountPurge.Transaction.PurgeMarketplaceRoleData: customer wallets and platform accounts are modelled with a second column that stays zero, so that one routine serves all three ledgers.
