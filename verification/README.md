# Verified model of the wager processing service

A Dafny model of a wallet and wagering backend: several processes apply BET, WIN,
LOSS, REFUND and ROLLBACK operations to wallets in one PostgreSQL database, from HTTP
requests and from a queue, with an append-only ledger, a transactional outbox and an
inbox. `dafny verify dfyconfig.toml` checks the whole project.

## How the model is built

Bottom up:

- `domain.dfy`, `rules.dfy`: the rows of the tables and the kind-specific rules, one
  function per read, because each read of an operation may see a different database.
- `tables.dfy`: the tables as a value, the schema's guards (`Passes`) and the one way the
  tables change: an atomic commit (`Apply`). `Legal` says which commits an operation is
  entitled to, given the wallet row it once saw and the plan it made.
- `invariants.dfy`, `progress.dfy`, `commits.dfy`, `notices.dfy`, `safety.dfy`: what holds
  of the tables after any number of legal commits, and what an operation at work may keep
  believing while others commit.
- `laws.dfy`: the rules of operations and reversals once more, as relations over the columns
  of the rows that use none of the functions by which an operation decides. Every legal
  commit is proved to have its reason in these terms.
- `interleaving.dfy`: any number of operations, interleaved statement by statement. `Run`
  maps every schedule to the state it leads to. `atomicity.dfy` and `solo.dfy` relate it to
  operations that run in one instant; `serial.dfy`, `netting.dfy`, `parking.dfy`,
  `ordering.dfy` and `guarantees.dfy` prove the results about all schedules.
- `database.dfy`, `conclusions.dfy`, `service.dfy`, `accounts.dfy`, `consumer.dfy`,
  `queue.dfy`: the services as classes that run statement by statement against a mutable
  database in which others commit between the statements. Each method is proved to leave
  behind a legal commit, so the results about runs apply to it.
- `outbox.dfy`, `publisher.dfy`, `dispatch.dfy`: the outbox table, the publisher's round,
  and any number of publishers with stalls, expired locks, lost answers and crashes.
  `streams.dfy` joins them to the schedules: every event a commit stores is a row of the
  publishers' table from that moment on.
- `money.dfy`, `hash.dfy`, `backoff.dfy`, `wallet.dfy`, `transaction.dfy`, `columns.dfy`,
  `paging.dfy`: exact money, the payload hash, the backoff loops, the aggregates, the
  mapping of transactions to columns, and keyset paging.

`Later(a, b)` (progress.dfy) is the central relation between the tables of two moments.
Its conjunct `VersionsWitness` is the heart of the protocol: no operation on a reference
was carried out in a wallet whose version did not move. It is why an operation may read
the wallet first and look for reversals afterwards.

## Where the code and its documentation differ

The model follows the code.

- Operation on an unknown wallet: ARCHITECTURE.en.md (section 17, interpretations) promises
  `422 WALLET_NOT_FOUND` and the dead-letter queue. The transaction row is inserted before
  the wallet is read, so the foreign key fails first, with an unclassified error: HTTP
  reports an internal error and the queue consumer leaves the message to the redrive policy
  (`Guarantees.UnknownWalletIsNeverStored`, `Databases.Database.InsertTx`).
- ROLLBACK of a ROLLBACK: the conflict matrix in ARCHITECTURE.en.md lists it under
  `REVERSAL_CONFLICT`; the code answers `REFERENCE_MISMATCH`
  (`Guarantees.ConflictsHaveARival`).
- A BET or LOSS that names a reference passes the validation of the command and is refused
  only when the transaction is constructed, after both lookups (`Rules.ValidCommand` and
  `Rules.ValidExternal`).
- A WIN linked to a BET takes part in the reversal lookups: a second linked WIN, or a WIN
  linked to a BET that was rolled back, is rejected; one linked to a refunded BET is
  accepted.
- The index on processed reversals never has anything to object to: the version check of
  the wallet is what excludes a second reversal (`Atomicity.IndexNeverFires`).
- Rejections, parking and LOSS compare no version and may rest on an older read of the
  wallet; serial order is therefore stated for movements only.
- Backoff: with a base of 2^62 nanoseconds the doubled value wraps around and the wait
  becomes negative. `Backoffs.BackoffIsExactIffSafe` gives the exact condition on the
  settings; the services are modelled for all settings.
- `SetReferenceResolution` changes an aggregate that is already final; only the stored row
  is protected (`Transactions.FinalAggregateIffUnresolved`).
- Order of the outbox: it is not enough that no event is stored below one already
  published (`Dispatch.PublishedIsNotEnough`, and for two movements of one wallet
  `Streams.LateMovementEscapes`). `Dispatch.StoringIsSafeIffTimely` gives the exact
  condition: not below one that was delivered or that a publisher has claimed and may still
  deliver. It looks at what publishers hold in memory; not below one that the table shows as
  published, locked or attempted is enough (`Dispatch.UntouchedAboveIsTimely`).
- Per-wallet order of events: the publisher orders the events of a wallet by
  `(occurred_at, event_id)`. An operation reads the instant before it reads the wallet, and
  nothing compares either with the wallet's last update, so a movement that commits later
  may be delivered first (`Ordering.LateMovementBreaksOrder`,
  `Streams.LateMovementOvertakes`). That order is the order of the wallet's versions if and
  only if each movement's instant and event id come after those of the movement before it
  (`Ordering.EventKeysFollowVersionsIffPrompt`), and exactly then do deliveries follow the
  versions whatever publishers do (`Streams.DeliveriesFollowVersionsIffPrompt`). With equal
  instants the ids decide.
- A rejection for a currency mismatch stores the wallet's minor units, which a reload shows
  in the currency of the operation (`Columns.RoundTripIffSameCurrency`); replies are
  compared here in minor units.

## Model

| member | source | states |
|---|---|---|
| Guarantees.ReversedAtMostOnce | internal/app/wager/service.go:264-307 | in every schedule, a transaction has at most one carried-out reversal, counting REFUND and ROLLBACK together |
| Guarantees.LinkedWinIsUnique | internal/app/wager/service.go:582-604 | in every schedule, two processed WINs of a provider that name the same reference are one |
| Guarantees.ReversedOnceByName | internal/app/wager/service.go:582-604 | and so are two processed REFUNDs or ROLLBACKs that name the same operation |
| Guarantees.ReferencesAreAccepted | internal/app/wager/service.go:550-580 | in every schedule, a processed REFUND, ROLLBACK or WIN with a reference rests on a processed operation of that name, of the same player, wallet, currency and round, of the right kind and, for a reversal, of the same amount; no other row has a reference |
| Guarantees.EveryCommitHasItsReason | internal/app/wager/service.go:262-307 | every commit of an operation, in any schedule: carried out, its wallet, reference and rivals allow it and the balance moves by its amount; rejected, the code is true of the tables; parked, its reference had not ended when the attempt began |
| Guarantees.EndedReferenceIsNotWaitedFor | internal/app/wager/service.go:534-548 | once a reference is PROCESSED, REJECTED or FAILED, no attempt that begins afterwards parks an operation on it or gives it up as REFERENCE_NOT_FOUND |
| Guarantees.CarriedOutWakes | internal/app/wager/service.go:469-474 | carrying out an operation makes due at once every row parked on its name; a rejection leaves them as they are |
| Guarantees.EntriesTellTheirOperations | internal/app/wager/service.go:365-376 | every ledger entry has the wallet, the amount, the resulting balance and the direction of its operation |
| Guarantees.OperationsAreTheOwners | internal/app/wager/service.go:270-278 | in every schedule, what was carried out, openings included, has the player and the currency of its wallet |
| Guarantees.StoredOperationsAreValid | internal/app/wager/service.go:108-149 | only well-formed operations are stored, and openings only from inside |
| Guarantees.ReversalChainsAreShort | internal/app/wager/service.go:551-564 | a reversal of a reversal is a ROLLBACK of a REFUND of a BET, and is itself never reversed |
| Guarantees.ReferencesPointBack | internal/app/wager/service.go:408-410 | a resolved reference names a processed transaction whose ledger entry comes earlier |
| Guarantees.MoneyOfAnOperation | internal/app/wager/service.go:365-376 | the ledger movements of a processed BET or WIN, its reversals and theirs net to the operation's own amount, or to zero exactly when a reversal of it stands |
| Guarantees.BalanceIsLedger | internal/app/wager/service.go:382-438 | the stored balance is the sum of the wallet's signed entries, within [0, MaxInt64], and the version is one more than the entries other than the opening |
| Guarantees.LedgerIsUnbroken | internal/domain/ledger/entry.go:106-147 | each entry starts from the exact sum of the wallet's entries before it |
| Guarantees.FinalIsForever | internal/adapters/postgres/transaction_repo.go:73-103 | a final row is the same row after any further steps |
| Guarantees.HistoryIsKept | migrations/0001_init.up.sql:145-182 | ledger and outbox only grow, and no row ever changes its terms |
| Guarantees.OneRowOneEntry | migrations/0001_init.up.sql:88-96 | one row per (provider, external id) and per (provider, key), and one ledger entry per transaction |
| Guarantees.ResubmissionChangesNothing | internal/app/wager/service.go:197-242 | once an operation has a row, no attempt to submit it again changes wallets, rows, ledger or outbox |
| Guarantees.ResubmissionFindsTheRow | internal/app/wager/service.go:244-260 | the first lookup finds that very row; another payload gets a conflict, the same payload the stored answer, recorded with its message if it came from the queue |
| Guarantees.UnknownWalletIsNeverStored | migrations/0001_init.up.sql:29-29 | in every schedule no transaction names a wallet that does not exist, and inserting or finishing a new operation on one changes nothing, but for recording the message of a known one |
| Guarantees.BalancesAreAnnounced | internal/app/wager/service.go:420-435 | the balance events are the ledger entries with their own figures, and the versions they give a wallet are consecutive up to the stored one |
| Guarantees.TransactionsAreAnnounced | internal/app/wager/service.go:448-467 | each transaction has exactly one event per parking, numbered from 1, and one for its final status, with its stored balance or code |
| Guarantees.RejectionsAreJustified | internal/app/wager/service.go:532-607 | every stored rejection has its reason in the columns of the rows: a wallet of another player or currency, a reference that failed, disagrees, differs in amount or is used up, too small a stored balance, or spent attempts |
| Guarantees.ConflictsHaveARival | internal/app/wager/service.go:582-604 | a stored REVERSAL_CONFLICT always has a processed rival on the same BET, WIN or REFUND |
| Guarantees.OverflowIsNeverStored | internal/app/wager/service.go:394-403 | a credit that would take the present balance beyond int64 cannot finish: the whole state stays as it was |
| Serial.RunIsSerializable | internal/app/wager/service.go:382-438 | replaying the openings and movements of any schedule one at a time, in commit order, passes every check and gives the same wallets, versions and ledger |
| Serial.CommitIsPost | internal/adapters/postgres/wallet_repo.go:64-81 | a commit does to wallets and ledger what its movement does alone |
| Atomicity.MovementIsAtomic | internal/app/wager/service.go:262-307 | a step that moves money has the effect of the operation run in one instant on the tables of that instant, whatever it read before |
| Atomicity.PlanIsAtomic | internal/adapters/postgres/wallet_repo.go:61-81 | a legal commit that posts rests on the present wallet row and on the plan of the present tables |
| Atomicity.IndexNeverFires | migrations/0001_init.up.sql:98-101 | once the version guard lets a movement through, the index on reversals cannot object |
| Solo.AtomicIsReachable | internal/app/wager/service.go:197-307 | from every state, a fresh submission, from HTTP or the queue, whose atomic form the tables let pass can be carried out by its own steps, to the same effect and leaving nothing over |
| Solo.ResumptionIsReachable | internal/app/wager/service.go:626-672 | the same for a due row that nobody has locked |
| Solo.ReplayIsReachable | internal/app/consumer/wager.go:95-119 | the same for a message whose operation already has a row |
| Solo.ReadsAlone | internal/app/wager/service.go:264-307 | reads made without interruption give the atomic plan |
| Interleaving.RunKeepsInv | internal/app/wager/service.go:153-183 | in every state of every schedule the tables keep the whole invariant and every operation at work still knows what it relies on |
| Interleaving.StepRefines | internal/adapters/postgres/pool.go:64-98 | each step changes the tables by one legal commit or not at all |
| Interleaving.RunAdvances | internal/adapters/postgres/transaction_repo.go:73-103 | continuing a schedule moves the tables forward in the sense of Later |
| Interleaving.TurnHolds | internal/app/wager/service.go:534-607 | each read leaves the operation knowing what its next phase needs |
| Progress.NoReversalPersists | internal/app/wager/service.go:582-604 | a reversal that was absent can only have appeared by moving the wallet's version |
| Progress.PlanPersists | internal/app/wager/service.go:264-307 | a plan outlives the commits of others |
| Commits.CommitWitnessed | internal/adapters/postgres/wallet_repo.go:64-81 | a commit that carries out an operation on a reference moves the version of its wallet |
| Commits.CommitKeepsExclusive | internal/app/wager/service.go:591-604 | no commit adds a rival reversal |
| Commits.CommitKeepsUnique | migrations/0001_init.up.sql:88-96 | the unique keys are kept |
| Commits.CommitKeepsMatch | internal/app/wager/service.go:405-418 | wallets keep matching the ledger in balance and version |
| Commits.CommitKeepsRejections | internal/app/wager/service.go:484-530 | reasons for rejections stay true |
| Commits.CommitKeepsInbox | internal/app/consumer/wager.go:95-128 | committed inbox rows stay complete with their operation stored |
| Notices.CommitKeepsTrails | internal/app/wager/service.go:343-357 | the events of each transaction stay complete and numbered |
| Notices.CommitKeepsBalancesAnnounced | internal/app/wager/service.go:420-435 | the balance events stay those of the ledger |
| Safety.CommitKeepsInv | internal/app/wager/service.go:382-530 | every legal commit keeps the invariant and moves the tables forward |
| Laws.CommitHasReason | internal/app/wager/service.go:262-307 | a legal commit carries out only what the columns of wallet, reference and rivals allow, rejects only for a true reason, and parks only what had not ended when its attempt began |
| Laws.ReferenceIsAccepted | internal/app/wager/service.go:550-580 | exactly the operations that name a reference have one resolved, and it is acceptable by its columns |
| Laws.JustifiedHasReason | internal/app/wager/service.go:532-607 | a justified code is true of the columns of wallet and reference |
| Laws.CommitWakes | internal/adapters/postgres/transaction_repo.go:177-189 | a commit that carries out an operation makes due exactly the rows parked on its name, and changes no other row but its own |
| Laws.CommitKeepsOwners | internal/app/wager/service.go:270-278 | what is carried out is the wallet owner's, in its currency |
| Netting.NetEffect | internal/app/wager/service.go:365-376 | conservation for one state: own amount, or zero exactly when a reversal stands |
| Netting.UndoingIsOpposite | internal/app/wager/service.go:571-580 | a reversal moves exactly the opposite of what it points at |
| Netting.ChainsAreShort | internal/app/wager/service.go:556-559 | chains of reversals have depth at most two |
| Parking.EveryParkedRowEnds | internal/app/wager/service.go:322-329 | over any schedule a row is resumed fewer times than the limit, and once it has been resumed limit - 1 times it is final |
| Parking.AttemptsCountResumptions | internal/domain/wagering/transaction.go:347-361 | the committed resumptions of a row are its attempts, less the one that parked it while it is not final |
| Parking.ResumptionsAreBounded | internal/app/wager/service.go:322-329 | over any schedule, all committed resumptions plus attempts left are at most (limit - 1) per operation that arrived |
| Parking.ResumptionSpends | internal/app/wager/service.go:335-341 | each committed resumption strictly lowers the sum of attempts left |
| Parking.ParkedRowsAreScheduled | internal/adapters/postgres/transaction_repo.go:130-148 | rows that are not final are parked, due at some time, with 1 <= attempts < limit, and can be claimed when due |
| Parking.RingsAreNeverProcessed | internal/app/wager/service.go:534-545 | self-references and circles of references are never carried out; their rows stay parked or are rejected |
| Parking.RingsEndRejected | internal/app/wager/service.go:322-329 | a row of such a circle that has been resumed limit - 1 times is REJECTED |
| Service.WagerService.ApplyOperation | internal/app/wager/service.go:262-307 | whatever others commit between the reads, the operation ends with exactly the plan owed to the tables of its reads, as a legal commit about to be made that has its reason in the columns of the rows, or with a failure whose cause is in the tables |
| Service.WagerService.ResolveReference | internal/app/wager/service.go:532-607 | the resolution is the one the three lookups determine, and holds of the present tables |
| Service.WagerService.LookForReversals | internal/app/wager/service.go:582-604 | a reference used by an operation of the same or, for a BET, the other kind is closed |
| Service.WagerService.LookForCross | internal/app/wager/service.go:591-604 | a BET with a reversal of the other kind is closed |
| Service.WagerService.Move | internal/app/wager/service.go:378-438 | the five statements of a funded movement, the rejection of an unfunded one, or a failure and its cause |
| Service.WagerService.Book | internal/app/wager/service.go:408-437 | ledger entry, balance event, final status and event, in that order, guarded by the ledger's keys |
| Service.WagerService.MarkProcessed | internal/app/wager/service.go:440-482 | the row becomes processed, is announced, and those waiting for it are woken |
| Service.WagerService.Reject | internal/app/wager/service.go:484-530 | the row becomes rejected with code and observed balance, and is announced |
| Service.WagerService.ScheduleReferenceRetry | internal/app/wager/service.go:322-363 | with any settings, the row is parked with one attempt more and due after the doubled wait, min(base * 2^attempts, cap) if nothing wraps around, or rejected when the attempts are spent; only an instant of zero is refused |
| Service.WagerService.ConcludeParking | internal/app/wager/service.go:309-320 | parking is a legal commit, due after that wait, and fails exactly when the retry would be due at the zero instant |
| Service.WagerService.ConcludeMove | internal/app/wager/service.go:382-438 | a movement ends as a legal commit or because the wallet moved, int64 is exceeded, the clock is before the wallet, or an id is taken |
| Service.WagerService.ApplyReversal | internal/app/wager/service.go:365-376 | a reversed BET and a linked WIN credit, a reversed WIN or REFUND debits |
| Service.WagerService.Replay | internal/app/wager/service.go:244-260 | an equal payload gets the stored status, balance and code, any other a conflict |
| Conclusions.AnswersAgree | internal/app/wager/service.go:244-260 | two answers about a final operation, whatever was committed between them, agree in transaction, status, balance and code |
| Service.WagerService.FindExisting | internal/app/wager/service.go:200-217 | the lookups answer every submission whose name already has a row, pass only names and keys that had none, and report a conflict only if a row of that name or key has another payload |
| Service.WagerService.ApplyWatched | internal/app/wager/service.go:185-195 | the commit is the one owed to reads made since the start; every failure has its cause: the wallet's version rose, int64 is exceeded, the clock is before the wallet, or an id is taken |
| Service.WagerService.InsertNew | internal/adapters/postgres/transaction_repo.go:34-71 | the row is inserted, or its name or key is taken, or the wallet is missing, or its id is taken |
| Service.WagerService.ProcessOnce | internal/app/wager/service.go:197-242 | one attempt ends as a replay of the stored row, a legal commit owed to its reads, or a failure with its cause; a failure worth repeating means the name was taken or the wallet moved |
| Service.WagerService.Process | internal/app/wager/service.go:151-183 | a submission makes one legal commit, owed to its reads, or none, nothing else is ever made visible, and its answer is what the row says; a known name is always answered from its row; each error has its cause: an invalid command, a row of that name or key with another payload, int64, the clock, a missing wallet or taken id, or a version that rose by at least the number of retries |
| Service.WagerService.ResumeOne | internal/app/wager/service.go:626-672 | the oldest due row nobody has locked is claimed, none only if nothing is due; it ends in one legal commit of that row, owed to reads made since the claim and parking only what had not ended by then, or makes nothing visible and has a cause; it gives up on a conflict only if the wallet moved at every attempt |
| Service.WagerService.AttemptResumption | internal/app/wager/service.go:650-657 | one attempt in a savepoint: the commit owed to reads made since its start, or the claim as it was and a cause |
| Service.WagerService.ResumeDue | internal/app/wager/service.go:609-624 | the count is the number of resumptions committed, each owed to its reads and after the one before it, and they are all that is made visible; at most the limit, below it without an error only when nothing is due, and with an error only if the oldest due row failed with a cause |
| Conclusions.OneMomentIsAtomic | internal/app/wager/service.go:262-307 | if all reads fall in one moment, the plan owed is the atomic plan of that moment |
| Conclusions.MoveIsCommit | internal/app/wager/service.go:405-437 | the statements of a movement add up to its commit |
| Conclusions.ParkingIsCommit | internal/app/wager/service.go:330-357 | the statements of parking add up to its commit |
| Conclusions.RefusalIsExcused | internal/app/wager/service.go:394-418 | nothing but the listed causes can stop a movement |
| Conclusions.LostRaceMovedWallet | internal/adapters/postgres/wallet_repo.go:76-79 | a version conflict means the wallet's version rose during the attempt |
| Databases.Database.Rollback | internal/adapters/postgres/pool.go:64-98 | a savepoint or transaction is undone, keeping what was held before it |
| Databases.Database.Release | internal/adapters/postgres/pool.go:64-98 | only the outermost release makes the writes visible, and what each has made of the committed tables is on record |
| Databases.Database.UpdateBalance | internal/adapters/postgres/wallet_repo.go:61-81 | compare-and-swap on the version, with the check constraints reported as missing funds |
| Databases.Database.CreateWallet | internal/adapters/postgres/wallet_repo.go:30-46 | one wallet per player and currency |
| Databases.Database.InsertTx | internal/adapters/postgres/transaction_repo.go:34-71 | a row is inserted exactly when keys and the wallet allow it, else the violated key is named |
| Databases.Database.UpdateTx | internal/adapters/postgres/transaction_repo.go:73-103 | only rows that are not final are updated, under the index on reversals, and their terms stay |
| Databases.Database.ClaimOne | internal/adapters/postgres/transaction_repo.go:130-148 | the unlocked row that is not final with the earliest due time up to now, then the earliest creation, is claimed; none is found only if all such rows are locked |
| Databases.Database.Wake | internal/adapters/postgres/transaction_repo.go:177-189 | each row parked on the transaction becomes due now and can be claimed; nothing else of it, and no other row or table, changes |
| Databases.Database.FindReversal | internal/adapters/postgres/transaction_repo.go:161-175 | returns a processed row with that resolved reference and kind, or none, and then there is none |
| Databases.Database.InsertLedger | internal/adapters/postgres/ledger_repo.go:32-49 | an entry is appended unless its id or its wallet and transaction are taken |
| Databases.Database.ClaimInbox | internal/adapters/postgres/inbox_repo.go:26-53 | the message id is claimed, or the row already there is returned |
| Databases.Database.CompleteInbox | internal/adapters/postgres/inbox_repo.go:55-69 | the claimed row becomes complete; a missing one is an error |
| Databases.RunsAreMoves | internal/adapters/postgres/pool.go:78-98 | what the services assume of others between statements holds of every continuation of a schedule that leaves alone what is held |
| Ordering.EventKeysFollowVersionsIffPrompt | internal/adapters/postgres/outbox_repo.go:58-64 | over any schedule a wallet's balance events are in the publisher's order (occurred_at, event_id) in the order of its versions if and only if each movement's instant and event id come after the wallet's last update and its event |
| Ordering.LaterInstantsSuffice | internal/app/wager/service.go:420-435 | movements stamped strictly after the wallet's last update are enough, whatever the event ids |
| Ordering.LateMovementBreaksOrder | internal/app/wager/service.go:197-242 | a schedule of the service's own steps in which a WIN commits after another with an earlier instant, so that the order fails |
| Ordering.RunsAreStamped | internal/adapters/postgres/wallet_repo.go:64-81 | the last balance event of a wallet carries the instant of its last update |
| Accounts.WalletService.Open | internal/app/wallets/service.go:68-172 | the requested wallet with its opening transaction, entry and events is one legal commit, the only thing made visible, or nothing; it fails only for invalid input, because the player has a wallet in the currency, or because an id is taken |
| Accounts.WalletService.Write | internal/app/wallets/service.go:92-165 | the statements of an opening add up to its commit, or one of its keys is taken |
| Accounts.WalletService.Ledger | internal/app/wallets/service.go:179-192 | one page of the present ledger with the limit clamped to 200, for an existing wallet and for no other |
| Accounts.WalletService.TotalsByWallet | internal/adapters/postgres/ledger_repo.go:100-131 | the sums of credits, debits and entries, or an error if they leave int64 |
| Accounts.WalletService.Reconcile | internal/app/wallets/service.go:203-251 | if the credits fit int64: no overflow, difference 0, consistent, all entries counted, nothing changed |
| Accounts.TotalsAgree | internal/adapters/postgres/ledger_repo.go:100-131 | in every reachable state the stored balance is credits less debits |
| Consumers.WagerHandler.Handle | internal/app/consumer/wager.go:80-130 | the message is recorded together with its operation in one legal commit, the only thing made visible, or nothing is; unprocessable are exactly unreadable or invalid messages, reused message ids, names and keys, and amounts or clocks the wallet cannot take; a storage failure or a wallet that kept moving leaves the message for later |
| Consumers.WagerHandler.Complete | internal/adapters/postgres/inbox_repo.go:55-69 | completing the row commits inbox, operation and events at once |
| Consumers.WagerHandler.Redelivered | internal/app/consumer/wager.go:100-110 | same body: acknowledged and already recorded; other body: refused |
| Consumers.DeliveryIsCommit | internal/app/consumer/wager.go:95-119 | an operation and the message that carried it are one legal commit |
| Queues.Poller.ProcessOne | internal/adapters/sqs/consumer.go:87-131 | a message leaves the queue only if it is recorded or was routed to the dead-letter queue, which takes exactly the unprocessable ones; all that the poller and the handler do are happenings of the queue protocol |
| Queues.NoMessageIsLost | internal/adapters/sqs/consumer.go:104-130 | with any number of pollers, crashes and redeliveries, where a worker acknowledges after its own commit or after finding the body in the inbox, a sent message is in the queue, in the dead-letter queue or recorded, and nothing else gets into the dead-letter queue |
| Queues.FinishIsOwnCommit | internal/app/consumer/wager.go:95-128 | the step of a schedule that finishes an operation with its message is that worker's commit in the queue protocol |
| Queues.RunsHappenElsewhere | internal/app/consumer/wager.go:80-130 | whatever a schedule goes on to do is what the queue protocol allows to happen elsewhere |
| Queues.InboxIsComplete | internal/adapters/postgres/inbox_repo.go:26-69 | in every schedule each committed inbox row is complete and its operation has a row |
| Outboxes.OutboxRepository.Claim | internal/adapters/postgres/outbox_repo.go:43-90 | the first claimable rows, at most the limit, at most one of each stream, are locked and handed out |
| Outboxes.OutboxRepository.MarkPublished | internal/adapters/postgres/outbox_repo.go:92-105 | only an unpublished row is confirmed |
| Outboxes.OutboxRepository.MarkFailed | internal/adapters/postgres/outbox_repo.go:107-121 | only an unpublished row is rescheduled |
| Outboxes.OnePerStream | internal/adapters/postgres/outbox_repo.go:58-63 | no batch holds two events of one aggregate |
| Outboxes.NothingIsStranded | internal/adapters/postgres/outbox_repo.go:53-64 | the least unpublished event of each aggregate is claimable from the moment its retry time and lock have passed |
| Publishers.Publisher.PublishOne | internal/app/outbox/publisher.go:82-111 | the broker is called once with the stored id and snapshot; if the database can be written, an accepted event not yet published is confirmed and counts, a refused or unanswered one is rescheduled after the backoff, and nothing else changes |
| Publishers.Publisher.PublishDue | internal/app/outbox/publisher.go:68-118 | every event of the batch is tried once, in order; the count is the number of tries that were accepted and confirmed, and each of those events is published |
| Dispatch.PublishedWasDelivered | internal/app/outbox/publisher.go:82-111 | with any number of publishers, a published event was delivered with its stored id and snapshot |
| Dispatch.PublishedIsForever | internal/adapters/postgres/outbox_repo.go:92-121 | no stale reschedule or late confirmation changes a published row |
| Dispatch.FirstDeliveriesAreInOrder | internal/adapters/postgres/outbox_repo.go:43-69 | first deliveries within an aggregate follow (occurred_at, event_id) as long as no event is stored below one that was delivered or may still be |
| Dispatch.StoringIsSafeIffTimely | internal/adapters/postgres/outbox_repo.go:58-63 | that condition on storing an event is necessary as well as sufficient |
| Dispatch.UntouchedAboveIsTimely | internal/adapters/postgres/outbox_repo.go:43-69 | storing an event is safe if the table shows no higher event of its stream published, locked or attempted |
| Dispatch.PublishedIsNotEnough | internal/adapters/postgres/outbox_repo.go:58-63 | any two events of a stream that commit against their order can be delivered out of order with nothing published |
| Streams.DeliveriesFollowVersionsIffPrompt | internal/adapters/postgres/outbox_repo.go:43-69 | schedules and publishers together: whatever publishers do, the first delivery of each version of a wallet comes after one of every lower version, if and only if its movements were prompt |
| Streams.RunsAreJoint | internal/app/wager/service.go:420-435 | the publishers' rows are exactly the events the schedule has stored, and within a wallet of prompt movements nothing unpublished precedes an event that may be delivered |
| Streams.LateMovementOvertakes | internal/adapters/postgres/outbox_repo.go:58-64 | the late WIN, with a publisher that delivers a version of the wallet before a lower one |
| Streams.LateMovementEscapes | internal/adapters/postgres/outbox_repo.go:58-63 | two movements of one wallet that misorder its stream although nothing was published |
| Paging.ListByWallet | internal/adapters/postgres/ledger_repo.go:51-98 | the page is the first entries of the listing below the cursor, and hasMore tells whether there are more |
| Paging.ListingLists | internal/adapters/postgres/ledger_repo.go:62-74 | the query's result is the wallet's entries below the cursor in descending (created_at, id) order |
| Paging.WalkSkipsAndRepeatsNothing | internal/adapters/postgres/ledger_repo.go:51-98 | whatever is appended meanwhile, a walk repeats no entry and, when finished, has skipped none of those present at its start |
| Paging.AppendsAboveChangeNothing | internal/adapters/postgres/ledger_repo.go:51-98 | appends above the cursor leave the walk exactly the listing of its first request, and it ends |
| Paging.RunsAreGrowing | migrations/0001_init.up.sql:145-163 | the ledgers a client sees during a schedule grow as the walk assumes |
| Moneys.Add | internal/domain/money/money.go:167-178 | wrap-around addition with its check succeeds exactly when the true sum fits, and returns it |
| Moneys.Sub | internal/domain/money/money.go:180-191 | the same for subtraction |
| Moneys.ParseMinorUnits | internal/domain/money/money.go:320-370 | exactly the decimal numerals whose hundredths fit int64 are accepted, of any length, and those hundredths returned |
| Moneys.Combine | internal/domain/money/money.go:343-369 | the unsigned range checks are exact, MinInt64 included |
| Moneys.RoundTrip | internal/domain/money/money.go:301-318 | parsing a printed amount gives it back, for every int64 |
| Moneys.PrintAlikeIffEqual | internal/domain/money/money.go:301-318 | two accepted strings print alike exactly when they are numerically equal |
| Hashing.HashTellsPayloadsApart | internal/app/wager/hash.go:12-45 | the canonical form identifies the business fields, and the key is not among them |
| Backoffs.Backoff | internal/app/wager/service.go:693-708 | the loop is n doublings in the register, stopped at the cap |
| Backoffs.BackoffIsExactIffSafe | internal/app/wager/service.go:693-708 | the loop gives min(base * 2^(attempt-1), cap) for every attempt if and only if no doubling below the cap leaves int64 |
| Backoffs.OrdinarySettingsAreSafe | internal/app/outbox/publisher.go:126-141 | for base and cap up to 2^62, exactly the base 2^62 is unsafe |
| Backoffs.LaterWaitsLonger | internal/app/outbox/publisher.go:126-141 | with safe settings waits are positive, monotone and capped |
| Wallets.Wallet.Debit | internal/domain/wallet/wallet.go:137-153 | a debit does exactly what integer arithmetic says, or leaves the wallet untouched |
| Wallets.Wallet.Credit | internal/domain/wallet/wallet.go:155-167 | the same for a credit, with overflow refused |
| Wallets.Wallet.Open | internal/domain/wallet/wallet.go:49-74 | a new wallet has version 1 and the initial balance |
| Wallets.MovementIsAccepted | internal/domain/ledger/entry.go:106-147 | every successful movement gives a before and after the ledger accepts |
| Wallets.BalanceIsExactSum | internal/domain/wallet/wallet.go:137-173 | after any sequence of movements the balance is the exact sum of the accepted ones and the version counts them |
| Transactions.Transaction.MarkProcessed | internal/domain/wagering/transaction.go:363-377 | allowed from PENDING and PENDING_REFERENCE only, else nothing changes |
| Transactions.Transaction.MarkRejected | internal/domain/wagering/transaction.go:379-393 | the same, storing code and observed balance |
| Transactions.Transaction.MarkPendingReference | internal/domain/wagering/transaction.go:337-345 | allowed from PENDING only |
| Transactions.Transaction.ScheduleRetry | internal/domain/wagering/transaction.go:347-361 | one attempt more and a due time, unless the row is final |
| Transactions.OutcomeIsFinal | internal/domain/wagering/transaction.go:437-460 | no sequence of calls changes the outcome of a final transaction |
| Transactions.FinalAggregateIffUnresolved | internal/domain/wagering/transaction.go:410-414 | a call leaves a final aggregate unchanged exactly unless it sets another reference or instant |
| Transactions.ResolutionChangesFinalAggregate | internal/domain/wagering/transaction.go:410-414 | a final aggregate that such a call does change |
| Transactions.StatusesMoveForward | internal/domain/wagering/transaction.go:437-460 | statuses never go back, whatever is called |
| Columns.ReloadKeepsAllButLabel | internal/adapters/postgres/transaction_repo.go:191-304 | storing and reloading a transaction accepts exactly what could be rebuilt and keeps every other field |
| Columns.RoundTripIffSameCurrency | internal/adapters/postgres/transaction_repo.go:228-243 | the round trip is exact if and only if the observed balance is in the operation's currency and the retry time is not the zero instant |
| Columns.MismatchedBalanceIsRelabelled | internal/app/wager/service.go:276-278 | a currency-mismatch rejection comes back with the same minor units in the operation's currency |

## Left out

- Concurrency inside a commit: an operation's writes, from its first to its commit, are one
  guarded step; row locks and waiting inside PostgreSQL are not modelled, except that a
  claimed row, an inserted key and a claimed message stay the claimant's.
- Databases.Database.Yield: what others do between statements is any function that keeps the
  invariant, moves the tables forward and respects what is held; the continuations of
  schedules are such moves (`Databases.RunsAreMoves`), but a service's execution is not tied
  to one particular schedule.
- Service.WagerService.Process: a commit that reports an error although it succeeded is not
  modelled here; the queue protocol covers it as a crash after the commit.
- Guarantees.BalanceIsLedger: versions and attempt counters are unbounded integers, not
  64-bit ones.
- Hashing.HashTellsPayloadsApart: SHA-256 and JSON are taken to be injective; the inbox row
  keeps the body itself instead of its hash.
- Ids are abstract numbers and may collide, which the tables then refuse; only the event ids
  the services draw are taken to be new. Correlation ids and the text of messages are not
  part of the rows.
- Publishers.Publisher.PublishDue: what other publishers do meanwhile is any function under
  which rows advance, not a schedule of the publishers' protocol.
- FAILED exists in the life cycle of the aggregate; no code path outside tests stores it.
- HTTP, OIDC, cursor encoding, logging, metrics, configuration, the poll loops with their
  sleeps, queue provisioning, migrations as a tool: not modelled.
- Sub-microsecond precision of timestamps, time zones, and currencies other than as names.
