# A verified model of the replicated bank ledger

The repository is a bank ledger over UDP. Clients send numbered transfers to a
primary server, which applies them under a readers/writers lock, logs them and
ships the results to backup servers; when heartbeats stop, the backups elect a
new primary. This project models that system in Dafny and proves what its parts
keep together.

- `Binary32.dfy`: balances are binary32 numbers that only ever hold whole
  numbers. Rounding to nearest, ties to even (section 4.3.1 of IEEE 754-2019) is
  modelled on whole numbers, bit by bit, and proved to yield the nearest
  representable one, ties going to the even significand. The ledger takes its
  arithmetic as a parameter: `Single` is the program's, `Exact` the ideal one.
- `LedgerModel.dfy`, `LedgerTheorems.dfy`: the books as values, the effect of
  every request and packet on them, and what every run keeps.
- `RoundingLimits.dfy`: for values of any sign, exactly which transfers and runs
  the program's float ledger gets right.
- `Server.dfy`: the server as a class with the program's fields and methods, each
  method proved against the functions of `LedgerModel`.
- `Replication.dfy`, `ReplicationLimits.dfy`, `Failover.dfy`, `Channel.dfy`: a
  backup that joins while service goes on. The snapshot is sent outside the lock,
  so its packets interleave with live updates.
- `ReadersWriters.dfy`, `Isolation.dfy`, `LogThread.dfy`, `LogProgress.dfy`: the
  writer-preferring lock with its two condition variables, transactions split into
  single writes under it, and the log thread that nests the lock inside its own
  mutex.
- `RetryProtocol.dfy`, `StaleAnswers.dfy`: retransmission under one sequence
  number, over a network that loses, duplicates and reorders; and whose answer a
  client accepts.
- `Election.dfy`: the bully election and the life of a failure detector.

Addresses are the 32-bit numbers behind the textual IPv4 addresses. Time,
sockets and the network appear as parameters, nondeterministic steps or sets of
packets.

## What is not true of the code

Some properties one would expect fail, and the model says exactly when:

- While the snapshot is overtaken by updates, a client created first as the
  destination of a transfer keeps request counter 0, and its snapshot balance is
  missing from the backup's total (`ReplicationLimits.CountersAtQuiescence` and
  `ReplicationLimits.TotalAtQuiescence`, both with an equivalence;
  `ReplicationLimits.OvertakingHappens` is such a run). If that backup is
  promoted, a request can be applied twice, exactly when some counter did not
  survive (`Failover.PromotedBackupRepeatsNothingExactly`; at any moment of the
  shuffle, `Failover.PromotedAtAnyMoment`).
- A value may be negative on the wire, and binary32 then rounds. The sum of
  balances is kept exactly when the errors of debit and credit cancel
  (`RoundingLimits.MoneyKeptExactly`), the balances replay the log exactly when
  neither errs (`RoundingLimits.ReplayKeptExactly`), and they stay between 0 and
  the total exactly when the transfer is bearable
  (`RoundingLimits.BoundsKeptExactly`); each is lifted to runs. Money can get
  lost, be made, or be misplaced with the right sum
  (`RoundingLimits.RoundingCanLoseMoney`, `RoundingLimits.RoundingCanMakeMoney`,
  `RoundingLimits.RoundingCanHideInTheSum`).
- The answer a client accepts may be another command's, which shares the number.
  The command it waits for is sure to be logged when it accepts if and only if it
  is logged already or, its number not having been applied yet, is the only
  request ever sent under it (`StaleAnswers.AnswersAreOwnExactly`).
  `StaleAnswers.SevenIsNeverApplied` is a run from the start that goes wrong.
- Two primaries are reachable without the timing assumption
  (`Election.TwoPrimariesWithoutTiming`). A run is safe if and only if every wait
  of an election that ends was that of the greatest server alive or had been
  handed, since its ELECTION went out, a packet from a greater server or some
  server's announcement (`Election.SafeExactlyWhenHeard`). Two primaries that hear
  of each other both step down for good, since a promoted server has no failure
  detector any more (`Election.PrimariesStepDown`).

## Model

| member | source | states |
|---|---|---|
| `Binary32.RoundIsNearest` | T1/include/ClientDTO.h:11-22 | the modelled rounding yields a number with 24 significant bits, and none is nearer |
| `Binary32.RoundTiesToEven` | T1/include/ClientDTO.h:11-22 | of two equally near ones it takes the one whose last significant bit is zero |
| `Binary32.RoundFixesRepresentable` | T1/include/ClientDTO.h:19-22 | a whole number survives storage as a float exactly when 24 significant bits suffice, in particular below 2^24 |
| `Binary32.SingleIsExact` | T1/server/Server.cpp:221-229 | below 2^24 the float sum, difference, comparison and total agree with integers, even for a value too large to be a float |
| `Binary32.ShortExactly` | T1/server/Server.cpp:221 | with less than 2^24 who has less than the value is refused and nobody else; with any float balance, unless the value rounds down onto it |
| `LedgerModel.Find` | T1/server/Server.cpp:194-198 | the first account with the address, or the end position when there is none |
| `LedgerModel.FindAfterUpdate` | T1/server/Server.cpp:227-231 | setting an account's balance or counter moves no account and keeps addresses unique |
| `LedgerModel.Write` | T1/server/Server.cpp:418-421 | the three account writes touch only source and destination, the destination's balance winning when they are one account |
| `LedgerTheorems.ReplyTellsTheTruth` | T1/server/Server.cpp:259-316 | each status holds just of the requests it names; the next request of a client with less than 2^24 succeeds if and only if the value is not more than the balance, and then alone the log grows; the counter returned is the books' after the request, the balance the untouched or, on success, the debited one, in either arithmetic |
| `LedgerTheorems.TransferView` | T1/server/Server.cpp:227-231 | a successful transfer advances only the source's counter, by one, and leaves all third accounts alone |
| `LedgerTheorems.WriteTotals` | T1/server/Server.cpp:227-231 | a transfer raises the sum of counters by one and moves the sum of balances by what debit and credit were off; in exact arithmetic not at all, also from an account to itself |
| `LedgerTheorems.LoggedUpToLastReq` | T1/server/Server.cpp:211-249 | in an exactly-once log the numbers logged for a client are exactly 1 to its last request |
| `LedgerTheorems.OverwriteView` | T1/server/Server.cpp:404-421 | an update creates what is missing, sets the absolute balances and the source's counter, and gives a newly created destination counter 0 |
| `LedgerTheorems.StepKeepsBookkeeping` | T1/server/Server.cpp:173-249 | requests keep addresses unique, the transaction count the history's length, and the transferred total its sum |
| `LedgerTheorems.ReceiveKeepsBookkeeping` | T1/server/Server.cpp:395-473 | so does any replication packet whatever |
| `LedgerTheorems.StepKeepsExactlyOnce` | T1/server/Server.cpp:211-249 | one operation keeps each client's logged numbers at 1, 2, ..., last request, ids consecutive, and the transaction count the sum of all last requests |
| `LedgerTheorems.LogIsExactlyOnce` | T1/server/Server.cpp:211-279 | hence after every run no request is applied twice or skipped |
| `LedgerTheorems.NoRequestTwice` | T1/server/Server.cpp:233-249 | two log entries of one client carry increasing numbers, so source and number identify an entry |
| `LedgerTheorems.MoneyIsConserved` | T1/server/Server.cpp:173-249 | in ideal integer arithmetic, for values of any sign: every balance is 1000 plus received minus sent over the log, and all balances sum to the total, 1000 per client |
| `LedgerTheorems.BalancesStayBounded` | T1/server/Server.cpp:221-231 | in ideal integer arithmetic, with non-negative values: every balance stays between 0 and the total over every run |
| `LedgerTheorems.FloatRefinesInteger` | T1/server/Server.cpp:182-229 | with non-negative values and at most 16777 clients the float ledger passes through the integer ledger's states and sends the same packets |
| `LedgerTheorems.StepSingleIsExact` | T1/server/Server.cpp:211-279 | the same for one operation, including the answer sent to the client |
| `RoundingLimits.MoneyKeptExactly` | T1/server/Server.cpp:227-231 | for every accepted transfer of any value, in float arithmetic: the sum of balances is kept if and only if the rounding errors of debit and credit cancel |
| `RoundingLimits.ReplayKeptExactly` | T1/server/Server.cpp:227-249 | the balances still replay the log if and only if neither debit nor credit errs |
| `RoundingLimits.BoundsKeptExactly` | T1/server/Server.cpp:221-231 | with at most 16777 clients the balances stay between 0 and the total if and only if the destination can bear the value, or, from an account to itself, the debit is not rounded up by more than all others own |
| `RoundingLimits.SelfTransferExactly` | T1/server/Server.cpp:227-231 | from an account to itself: the balance ends within bounds if and only if that holds, and where it was if and only if the debited balance is a binary32 number |
| `RoundingLimits.IdealBoundsKeptExactly` | T1/server/Server.cpp:221-231 | the same in ideal integer arithmetic, for any number of clients |
| `RoundingLimits.RunReplaysExactly` | T1/server/Server.cpp:173-249 | the float balances replay the log throughout a run if and only if no accepted transfer in it errs |
| `RoundingLimits.ReplayedRunKeepsMoney` | T1/server/Server.cpp:173-249 | a run whose float balances replay the log throughout neither makes nor loses money |
| `RoundingLimits.RunConservesExactly` | T1/server/Server.cpp:173-249 | the money is conserved throughout a run if and only if all errors cancel and every new client's 1000 is added without rounding |
| `RoundingLimits.RunStaysBoundedExactly` | T1/server/Server.cpp:173-249 | with at most 16777 clients the money is conserved and every balance bounded throughout a run if and only if in every accepted transfer the destination can bear the value or, from an account to itself, the debited balance is a binary32 number |
| `RoundingLimits.RoundingCanLoseMoney` | T1/server/Server.cpp:227-231 | a negative value near 2^24 leaves 1999 in accounts whose total is 2000 |
| `RoundingLimits.RoundingCanMakeMoney` | T1/server/Server.cpp:227-231 | a transfer to oneself leaves 1001 in an account whose total is 1000 |
| `RoundingLimits.RoundingCanHideInTheSum` | T1/server/Server.cpp:227-231 | a value that is no binary32 number keeps the sum right and both balances wrong |
| `RoundingLimits.NegativeValueBreaksBounds` | T1/server/Server.cpp:221-231 | a negative value the destination cannot bear leaves it at -1 |
| `LedgerTheorems.UpdatesFollowHistory` | T1/server/Server.cpp:290-301 | over every run the updates sent announce exactly the new history entries, in history order |
| `LedgerTheorems.EmissionTellsTheBooks` | T1/server/Server.cpp:351-393 | a packet is sent exactly for what changes the books, and its fields are the entry and the two balances after it, or the new client's |
| `LedgerTheorems.StepRaisesCounters` | T1/server/Server.cpp:227-231 | no operation removes an account; only a successful transfer raises a counter, the source's by one |
| `LedgerTheorems.FreshPrimary` | T1/server/Server.cpp:13-31 | from the empty books, in float arithmetic: the log is always exactly-once, and under the float bounds balances replay, money is conserved and bounded |
| `ServerObject.Server.constructor` | T1/server/Server.cpp:13-31 | a new server has empty books, no backups and has sent nothing |
| `ServerObject.Server.ValidateTransaction` | T1/server/Server.cpp:211-225 | what each status means for the account, down to balance and value below 2^24; with an exactly-once log, a duplicate is a number the log already holds, and an accepted request carries the first number it does not |
| `ServerObject.Server.ExecuteTransaction` | T1/server/Server.cpp:227-231 | three writes in place have the effect of the specified transfer, self-transfers included |
| `ServerObject.Server.UpdateAndLogTransaction` | T1/server/Server.cpp:233-249 | counters and log advance together, the entry numbered by the new count |
| `ServerObject.Server.HandleTransactionLogic` | T1/server/Server.cpp:259-279 | the books change exactly on success; status and balance are those of the specified answer on every error path |
| `ServerObject.Server.Propagate` | T1/server/Server.cpp:390-392 | every backup is sent the packet once per registration, in order, and nothing else is sent |
| `ServerObject.Server.ProcessTransaction` | T1/server/Server.cpp:281-317 | the whole request: new books, packets sent only by a primary and only on success, and the answer; every change of the books is notified |
| `ServerObject.Server.HandleTransactionRequest` | T1/server/Server.cpp:87-93 | only a primary starts a thread for a request packet |
| `ServerObject.Server.WasClientAdded` | T1/server/Server.cpp:173-192 | a new client is appended, counted in the total and announced; a known one changes nothing |
| `ServerObject.Server.FindOrAdd` | T1/server/Server.cpp:406-416 | finds the account or appends a new one without touching the total |
| `ServerObject.Server.HandleStateUpdate` | T1/server/Server.cpp:395-436 | a backup takes over absolute balances, the counter and the transaction |
| `ServerObject.Server.HandleClientUpdate` | T1/server/Server.cpp:438-462 | a snapshot account is added with its balance and counter only when unknown |
| `ServerObject.Server.HandleHistoryEntry` | T1/server/Server.cpp:464-473 | a snapshot entry is appended unconditionally |
| `ServerObject.Server.RegisterBackup` | T1/server/Server.cpp:475-513 | the backup is subscribed and sent the copied accounts, then the copied history, and nobody else is sent anything |
| `ServerObject.Server.PromoteToPrimary` | T1/server/Server.cpp:552-567 | a backup becomes primary with no backups; a primary is left alone |
| `ServerObject.Server.HandleNewPrimaryAnnouncement` | T1/server/Server.cpp:703-728 | another server's announcement makes this one a backup without backups |
| `ServerObject.Server.Dispatch` | T1/server/Server.cpp:86-149 | the receive loop's role guards: which events change the books and what is sent for each |
| `ServerObject.BookkeepingSurvivesAnything` | T1/server/Server.cpp:82-149 | bookkeeping holds after every sequence of requests, packets of any content and order, and role changes |
| `ServerObject.PrimaryExactlySincePromotion` | T1/server/Server.cpp:552-728 | over every run a server that began as a backup is primary if and only if it was promoted and no other server's announcement came since |
| `ServerObject.BackupsAreTheRegistered` | T1/server/Server.cpp:475-728 | it serves exactly those that registered while it was primary and it has not been deposed since; as a backup nobody |
| `ServerObject.RoleChangeDropsBackups` | T1/server/Server.cpp:552-728 | whoever changes roles starts without backups, and nothing else but another's announcement loses one |
| `ServerObject.BackupIsSilent` | T1/server/Server.cpp:86-149 | a backup sends no replication packet and starts no thread |
| `ServerObject.WhoMovesTheBooks` | T1/server/Server.cpp:86-149 | packets do not move a primary's books, nor discoveries and registrations a backup's |
| `Replication.SnapshotStarts` | T1/server/Server.cpp:475-513 | the snapshot carries every account and entry of the books it was taken from |
| `Replication.SnapshotPacketFollows` | T1/server/Server.cpp:438-473 | delivering any snapshot packet, at any time, keeps the backup in agreement with the primary's state |
| `Replication.LivePacketFollows` | T1/server/Server.cpp:395-436 | delivering the next live packet moves the agreement on by one operation |
| `Replication.Delivery` | T1/server/Server.cpp:395-513 | induction over every interleaving: the backup follows the primary's last state |
| `Replication.SnapshotConfluence` | T1/server/Server.cpp:475-513 | for every interleaving of the snapshot packets, in any order, with the ordered live packets, the backup ends with the primary's accounts, balances, multiset of transactions and counters |
| `Replication.ConsistentCutAtEveryMoment` | T1/server/Server.cpp:395-513 | after every number of packets the accounts known show the primary's balances of one single moment, with counters never ahead of it |
| `ReplicationLimits.CountersAtQuiescence` | T1/server/Server.cpp:406-421 | at the end a counter is right if and only if the client sent a transfer meanwhile, was not first created as a destination, or had sent nothing; otherwise it is 0 |
| `ReplicationLimits.TotalAtQuiescence` | T1/server/Server.cpp:446-455 | in ideal arithmetic the backup's total falls short by exactly the snapshot balances of the overtaken accounts; without negative balances it is right if and only if those are empty |
| `ReplicationLimits.FloatTotalAtQuiescence` | T1/server/Server.cpp:446-455 | with non-negative values and at most 16777 clients the same of the float total, since no partial sum is rounded at either end |
| `ReplicationLimits.OvertakingHappens` | T1/server/Server.cpp:406-416 | a run from the start and a shuffle after which a counter is 0 instead of 1 and the total 0 instead of 2000, if the update has the effect it is meant to have |
| `Failover.SnapshotRestores` | T1/server/Server.cpp:489-510 | the snapshot delivered alone rebuilds every field, the total exactly when the primary's balances sum to it |
| `Failover.UpdateMirrors` | T1/server/Server.cpp:369-436 | on identical books an update has the effect of the operation it reports |
| `Failover.PrefixConsistency` | T1/server/Server.cpp:395-513 | after the snapshot and any prefix of the live packets all fields of the backup, total included, equal a state the primary passed through |
| `Failover.FailoverIsOneRun` | T1/server/Server.cpp:552-567 | a promoted backup continues a run of one single primary without the unreplicated suffix: exactly-once, and conserved and bounded under the float bounds |
| `Failover.AfterTheSnapshotNothingIsAppended` | T1/server/Server.cpp:406-416 | an update delivered after the whole snapshot finds both its accounts, so the program's iterators stay valid |
| `Failover.PromotedRepeatsNothingExactly` | T1/server/Server.cpp:211-249 | with books in which no request is twice: no continuation ever applies one twice if and only if every logged number is covered by its source's counter |
| `Failover.PromotedAtAnyMoment` | T1/server/Server.cpp:395-513 | a backup has no request twice at any moment of any shuffle, so the same goes for its promotion then |
| `Failover.PromotedBackupRepeatsNothingExactly` | T1/server/Server.cpp:406-421 | after the whole shuffle that is so if and only if every account's counter survived it |
| `Channel.RegisteredChannel` | T1/server/Server.cpp:351-393 | a backup registered once is sent precisely the packets of the server's ledger run, whatever packets and requests that server is handed |
| `Channel.PrimaryBooks` | T1/server/Server.cpp:86-149 | the books of a primary that is not deposed are a run of its own operations, replication packets having no effect |
| `Channel.BackupBooks` | T1/server/Server.cpp:107-124 | a server not promoted stays a backup, takes over exactly the packets it is handed, and sends nothing |
| `Channel.EachThreadServesOnce` | T1/transactions/transactionServer.cpp:6-30 | each request packet a primary accepts is processed once, by its own thread |
| `Channel.PromotedBackupServes` | T1/server/Server.cpp:552-567 | a promoted server object carries on from the packets it was handed |
| `Channel.RegisteredBackupConverges` | T1/server/Server.cpp:475-513 | confluence between two server objects: what one sends, shuffled in any way among whatever else happens to the other, gives the other its books |
| `Channel.FreshServerReplicates` | T1/server/Server.cpp:82-149 | the same from the two constructors on, with promotion, service, registration and further service |
| `ReadersWriters.StepKeepsSound` | T1/server/Server.cpp:319-349 | every step keeps the counters right, mutual exclusion, and no lost wakeup: a free lock with waiting writers has a signalled writer, and one without leaves no reader unsignalled |
| `ReadersWriters.WhoIsWoken` | T1/server/Server.cpp:319-349 | a step moves no other thread, but that an unlock wakes the one writer chosen, and a writer's unlock all blocked readers when no writer waits |
| `ReadersWriters.RunsAreSound` | T1/server/Server.cpp:319-349 | hence in every run of any number of threads, spurious wakeups included |
| `ReadersWriters.QuietRunsTerminate` | T1/server/Server.cpp:319-349 | without arrivals and spurious wakeups every run has bounded length |
| `ReadersWriters.SomebodyCanMove` | T1/server/Server.cpp:319-349 | while anybody is inside or waiting, a step other than an arrival is possible |
| `ReadersWriters.MaximalQuietRunEmptiesQueues` | T1/server/Server.cpp:319-349 | a run that cannot be continued without arrivals has emptied both wait queues and left the lock as constructed |
| `ReadersWriters.NoReaderOvertakes` | T1/server/Server.cpp:321-336 | while writers wait no new reader enters |
| `ReadersWriters.UnusedIsFree` | T1/server/Server.cpp:21-23 | a sound lock with nobody inside is the lock as constructed |
| `ReadersWriters.Monitor.TryRead` | T1/server/Server.cpp:319-323 | reader_lock and a resumed reader: enters just when no writer is active or waiting, else blocks |
| `ReadersWriters.Monitor.ReaderUnlockSection` | T1/server/Server.cpp:325-331 | the last reader notifies one writer |
| `ReadersWriters.Monitor.TryWrite` | T1/server/Server.cpp:333-339 | writer_lock: enters just when nobody is inside, else waits and is counted |
| `ReadersWriters.Monitor.ResumeWrite` | T1/server/Server.cpp:336-338 | a notified writer tests again |
| `ReadersWriters.Monitor.WriterUnlockSection` | T1/server/Server.cpp:341-349 | notifies one writer if any waits, else all readers |
| `ReadersWriters.Monitor.NotifyWriter` | T1/server/Server.cpp:345 | some blocked writer is woken if there is one |
| `Isolation.TaskCompletes` | T1/server/Server.cpp:227-249 | the separate writes of a transfer, a new client or a copy, run to the end, have the effect and send the packets of the atomic operation |
| `Isolation.InterleavingsAreSerial` | T1/server/Server.cpp:281-349 | however threads interleave write by write, the state is a sequential run in lock-acquisition order plus at most one writer under way |
| `Isolation.BooksStandStill` | T1/server/Server.cpp:319-349 | while a reader is inside nothing the lock guards changes, whatever the other threads do |
| `Isolation.ReadersSeeSerialBooks` | T1/server/Server.cpp:154-170 | over a whole reading section: the accounts listed one by one, each at its own moment, are the books of one state of that sequential run, and the updates sent are its history in order |
| `Isolation.ReadersSeeAllTheMoney` | T1/server/Server.cpp:154-170 | the balances listed one by one over a reading section sum to the total, under the float bounds: a reader never sees money in flight |
| `Isolation.CopyAndUpdatesFitTogether` | T1/server/Server.cpp:482-487 | the copy for a backup is the books at one moment, and what is sent after the subscription is exactly the updates of the operations after it |
| `Isolation.CopiedBackupConverges` | T1/server/Server.cpp:475-513 | from threads to backup: after any interleaving of writes, any shuffle of the copy's packets with those sent after the subscription rebuilds the books |
| `Isolation.SystemNeverStuck` | T1/server/Server.cpp:281-349 | while anybody is inside, somebody can take a step |
| `LogThread.NotifiedChangesAreSeen` | T1/server/serverInterface.cpp:21-49 | once notify for a committed change has returned, the flag is up or the log thread has read books that include it |
| `LogThread.NeverStuck` | T1/server/serverInterface.cpp:29-49 | the log thread's mutex and the ledger's lock never form a wait cycle and no notification is lost |
| `LogProgress.NeverMoreReadsThanRaises` | T1/server/serverInterface.cpp:21-49 | over every history the log thread reads at most once for each flag raised |
| `LogProgress.ReadsFollowRaises` | T1/server/serverInterface.cpp:21-49 | from any moment on, each read uses up a flag raised and not yet acted on |
| `LogProgress.OwnHistoriesTerminate` | T1/server/serverInterface.cpp:21-49 | without arrivals and spurious wakeups every history is of bounded length, commits and notifications by those inside included |
| `LogProgress.MaximalHistoryIsRead` | T1/server/serverInterface.cpp:29-49 | and one that cannot be continued ends with the thread asleep, the flag down, every notify returned and the last change read |
| `LogThread.LedgerStepHealthy` | T1/server/Server.cpp:310-314 | a writer that releases the ledger before notifying keeps freshness and the lock order |
| `RetryProtocol.Client.constructor` | T1/client/Client.cpp:12-13 | a client starts with sequence number 1 |
| `RetryProtocol.Client.ExecuteRequestWithRetries` | T1/client/Client.cpp:45-69 | at most five transmissions of one request; the answer is the first acceptable arrival, and there is none exactly when all five attempts hear nothing acceptable |
| `RetryProtocol.Client.ProcessCommand` | T1/client/clientInterface.cpp:66-112 | the number advances by one exactly when the attempt that ended the command heard a success or a duplicate for it |
| `RetryProtocol.TurnKeepsAgreement` | T1/transactions/transactionServer.cpp:6-30 | each step but a restart keeps every client's number at the server's counter or one above |
| `RetryProtocol.TurnKeepsOrder` | T1/transactions/transactionServer.cpp:6-30 | each step, a client's restart included, keeps every client and every request under way at most one number ahead of the server's counter |
| `RetryProtocol.HandleOrderly` | T1/server/Server.cpp:211-225 | a request that reaches the server, however late or often, is never found out of sequence |
| `RetryProtocol.SequenceNumbersAgree` | T1/client/clientInterface.cpp:80-98 | over every run, restarts included: OutOfSequence is never answered and everything logged was sent by its source under that number; without restarts every client's number is the server's counter or one above |
| `RetryProtocol.AcceptedAnswerIsLogged` | T1/transactions/transactionClient.cpp:42-52 | an accepted success or duplicate means a request of that client under that number is logged |
| `StaleAnswers.AnswersAreOwnExactly` | T1/transactions/transactionClient.cpp:42-52 | for a waiting client and every continuation by anybody: whatever answer it accepts, its command is logged by then, if and only if it is logged already or, its number not having been applied, is the only request ever sent under that number |
| `StaleAnswers.OwnIsNeverMisled` | T1/client/Client.cpp:49-68 | a logged command, or one alone under its number, is logged whenever an advancing answer for it is accepted |
| `StaleAnswers.PassedOverForEver` | T1/server/Server.cpp:211-225 | a request whose number the server has passed without applying it is never applied |
| `StaleAnswers.StaleAnswerCompletesNextCommand` | T1/client/Client.cpp:49-68 | after giving up on an answered command, any next command is completed by the old answer and, however the run goes on, never logged |
| `StaleAnswers.SevenIsNeverApplied` | T1/client/Client.cpp:49-68 | such a run from the start, and every continuation of it |
| `RetryProtocol.RestartCatchesUp` | T1/client/clientInterface.cpp:90-94 | over a network that still holds its old packets, a restarted client's number is one plus the advancing answers it took, never more than the server's counter plus one, at no more than five packets a command; with a stable counter L it holds L + 1 after exactly L of them |
| `RetryProtocol.EveryCommandEndsOnce` | T1/client/clientInterface.cpp:66-112 | over every run each command ends once, with an acceptable answer whatever it says, or by being given up |
| `RetryProtocol.GivingUpTakesFive` | T1/client/Client.cpp:45-69 | none is given up before it has been sent five times |
| `RetryProtocol.CatchUp` | T1/client/clientInterface.cpp:90-94 | from wherever it is, a client catches up by as many answered commands as it lacks, and no money moves |
| `Election.ElectionServer.HandleElectionPacket` | T1/server/Server.cpp:730-744 | a greater identity stops an election under way; any other is answered |
| `Election.ElectionServer.HandleElectionAnswerPacket` | T1/server/Server.cpp:746-752 | a greater identity's answer stops an election under way |
| `Election.ElectionServer.HandleNewPrimaryAnnouncementPacket` | T1/server/Server.cpp:703-728 | an announcement stops an election and wakes the monitor; unless it is the server's own it also demotes, clears the backups and registers with the new primary |
| `Election.ElectionServer.StartElection` | T1/server/Server.cpp:585-602 | an election raises its flag, forgets an old defeat, begins a new round and asks everybody |
| `Election.ElectionServer.HandleHeartbeatPacket` | T1/server/Server.cpp:687-693 | a heartbeat wakes a backup's monitor |
| `Election.ElectionServer.FinishElection` | T1/server/Server.cpp:604-612 | after the wait an undefeated backup promotes itself, without backups, and announces it to everybody; a defeated one monitors again and announces nothing |
| `Election.EachServerLivesOnce` | T1/server/Server.cpp:515-567 | whatever the timing, a server never promoted is a backup with exactly one failure-detector thread, a promoted one has none; so at most one promotion and one heartbeat sender each |
| `Election.DetectorGoesOn` | T1/server/Server.cpp:515-550 | the failure detector of a server never promoted can always take its next step |
| `Election.TimesOutExactlyUnfed` | T1/server/Server.cpp:531-550 | over every run a monitor can time out if and only if neither heartbeat nor announcement has reached its server since its wait started |
| `Election.PacketsAreTruthful` | T1/server/Server.cpp:569-752 | over every run: exactly the promoted servers have announced themselves, to everybody alive; every election was sent to everybody alive; and exactly the elections handled by servers not smaller are answered |
| `Election.PromotesExactlyUnstopped` | T1/server/Server.cpp:604-612 | over every run a server's election promotes it if and only if none of the packets handed to it while it waited was from a greater server or an announcement |
| `Election.DemotedExactly` | T1/server/Server.cpp:703-728 | a primary steps down exactly at another server's announcement |
| `Election.DemotedForEver` | T1/server/Server.cpp:552-567 | a server promoted and demoted again stays a backup along every continuation |
| `Election.PrimariesStepDown` | T1/server/Server.cpp:703-728 | two primaries that have heard of each other are both backups, and neither is ever primary again |
| `Election.StepRemembers` | T1/server/Server.cpp:730-752 | while a server waits, its flag is up exactly when it has been handed, since its ELECTION went out, a packet from a greater server or an announcement |
| `Election.WaitEndsRightfullyExactly` | T1/server/Server.cpp:602-608 | after its wait a server stands back or rightly promotes itself if and only if it has been handed such a packet or is the greatest alive |
| `Election.SafeExactlyWhenHeard` | T1/server/Server.cpp:585-612 | whatever the timing and the losses, every primary, present or about to be, has the greatest live identity throughout a run if and only if every wait in it ended so |
| `Election.UnheardWaitBetrays` | T1/server/Server.cpp:602-608 | a wait that did not, decided next, makes a primary that is not the greatest |
| `Election.TimelyRunHears` | T1/server/Server.cpp:585-602 | a wait that outlasts its packets has been handed such a packet, or is that of the greatest live server |
| `Election.AtMostOnePrimary` | T1/server/Server.cpp:585-612 | hence in every timely run without joins a live primary has the greatest live identity, so there is at most one |
| `Election.TwoPrimariesWithoutTiming` | T1/server/Server.cpp:602-608 | if the wait may end before its packets arrive, two live primaries are reachable |
| `Election.TwoPrimariesStepDown` | T1/server/Server.cpp:703-728 | in that run, once both announcements are delivered |

## Left out

- Packet loss and duplication between primary and backup, and registering a backup twice: the history is then not the primary's, since a snapshot entry is appended unconditionally; only bookkeeping is proved for such runs.
- FloatRefinesInteger: the bound of 16777 clients is sufficient, not necessary.
- ServerObject.Server.PromoteToPrimary: the heartbeat sender it starts and the announcement it sends are modelled in Election, by `Election.ElectionServer.FinishElection` and `Election.PacketsAreTruthful`, not in this class.
- ServerObject.Server.HandleNewPrimaryAnnouncement: the election flag, the monitor's wake-up and the registration are modelled in `Election.ElectionServer`, not in this class.
- ServerObject.Server.Dispatch: heartbeats and election packets, which leave the books alone, are modelled in Election; discovery answers between servers are not modelled.
- ServerObject.Server.HandleStateUpdate: the source's account is addressed by index; in the program the iterator to it is invalid when appending the destination moves the accounts, which the model does not capture.
- AnswersAreOwnExactly: values are unbounded; the run that makes an abandoned request affordable again borrows a power of two that may exceed what a 32-bit value can carry.
- QuietRunsTerminate: spurious wakeups are excluded, since a platform that wakes a waiting thread for ever would not let it terminate.
- AtMostOnePrimary: servers that join or restart during the run are not modelled; loss of the election's own packets is outside the timing assumption, and SafeExactlyWhenHeard says when such a run is safe.
- Overflow of the 32-bit counters and numbers, which is undefined in the program; runs that overflow are not modelled. Binary32 infinity is not reachable with 32-bit values and is not modelled.
- The readers/writers lock and the log thread are cut into steps where a thread gives up a mutex; the blocking calls themselves and the log thread's endless loop are transition systems on values, the lock's sections also methods of a class.
- Unsynchronised accesses to the role and the list of backups: each election handler is one step.
- What happens to a demoted primary: it has no failure detector any more and the code gives it no way back.
- Discovery broadcasts, announcements to clients, sockets, byte order, text of addresses, console output, the last-log record, command parsing and the client's command queue: plumbing without a hard property.
- The election message handler that is never dispatched and the unused update acknowledgement.
