# Bitcoin payment processing: a verified model

This project models the core of a Bitcoin payment gateway in Dafny and proves what its two
updater loops keep in every run.  The gateway has a wallet updater, which moves money and
reports confirmations, and an event broker, which delivers the resulting events over
websockets and HTTP callbacks.  Both are single goroutines working on a transactional
database and an unreliable outside party.

`dafny verify dfyconfig.toml` checks everything.

## How the model is laid out

| files | content |
|---|---|
| `Types`, `Ledger` | rows, events and configuration; each storage and notification routine as a function from a database value to the next |
| `LedgerInvariant`, `LedgerSteps` | the invariant of the tables and the event log; every write keeps it |
| `WalletMachine`, `WalletInvariant`, `WalletSteps` | the wallet updater as a step machine with database faults, lost commit replies, crashes and restarts; its inductive invariant |
| `WalletTheorems`, `PollIdempotence` | what holds in every reachable state and over every run |
| `WithdrawalOutcomes`, `PollOutcomes` | what each step does to the rows, said by the record, the configuration and the node's answer alone |
| `WithdrawalFrame`, `Executions` | what handling one withdrawal touches; how often a withdrawal is carried out |
| `Deposits` | which amount a deposit is recorded with |
| `SwallowedEvents` | when exactly a run swallows the first event of a withdrawal |
| `WalletCalls`, `WalletMethods` | the updater as an object with loops, in-place updates and rollbacks; each method is a run of the machine |
| `Scheduler`, `PendingPass` | the optimal split of pending withdrawals; the whole pass from the rows it reads to the rows it leaves |
| `FixedFee` | the integer content of sending with a fixed fee |
| `EventLog` | the event log both senders read |
| `Broadcaster`, `BroadcasterMethods` | the websocket broadcaster as a step machine and as an object |
| `HttpCallback`, `HttpCallbackMethods` | the HTTP callback sender as a step machine and as an object |
| `SenderOutcomes` | what each step of that sender does |

A step machine is a function `Next(state, action)`.  Whatever the environment decides (a
commit outcome, the node's reply, the callback's answer, a crash, a timer) is an argument of
the action, so a statement over all action sequences is a statement over all behaviours of
the environment.  The object methods take the same outcomes as arguments and hand back the
sequence of actions they amounted to.  Any statement of the wallet inside a transaction may
fail as well, unless its connection is `healthy`: what a method guarantees of a run with
faults it says outright, and when it succeeds it says as an if-and-only-if of its arguments.

## Assumptions

* A database transaction works on a copy that is installed or dropped.  A commit may also be
  installed although the call returned an error (`Unreported`); no theorem excludes that.
* Event sequence numbers grow in the order in which events become visible, may have gaps, and
  are at least 1 for the HTTP sender.
* A send error means nothing was broadcast; a success returns a hash never seen before.
  Generated ids are fresh and withdrawal ids are not the nil id.
* Listing transactions since a block returns everything above that block on a chain that only
  grows, names the current tip, and contains as outgoing entries only what this wallet sent.
  Confirmation counts and block hashes in it are arbitrary.
* A hash stands for one transaction: it is in at most one block, and what is ever listed with
  the hash of a mined transaction is one of its outputs there.
* Directions are incoming or outgoing, `maxConfirmations` is at least 1, and the hot wallet
  address and the configuration do not change.
* Balances and the sum of pending amounts are below 2^63 satoshi.

## Findings

* **A rolled-back save swallows an event.**  The retry closure at `wallet/withdraw.go:240-255`
  reuses a record whose reported count an earlier, rolled-back attempt already raised.  For a
  withdrawal with no row yet the "new outgoing" event is then never written (`Past.lost`); for
  one stored as pending it is only written once the transaction is polled (`Past.delayed`).
  `RolledBackNotificationLosesAnEvent` and `RolledBackNotificationDelaysAnEvent` give the runs,
  `ConfirmationsAreReportedOnce` says the stream is complete if and only if the event was not
  lost, and `SwallowedIff` says which step of a run loses or delays it.  The error path at line
  271 copies the record first and is not affected.
* **Two outputs of one transaction to one deposit address count as one.**  Rows are found by
  hash, direction and address (`wallet/postgresstorage.go:214-240`), and an update does not
  touch the amount.  `SecondOutputIsMissed` gives the run for outputs of any two amounts a and
  b, equal ones included: their block counts as seen and only a is recorded.
  `NoMissedDeposit` says a deposit's row is worth all outputs of its key in covered blocks if
  and only if those other than the first listed one are worth nothing; `ListingCreditedIff`
  says the same of one listing.
* **A cold storage transfer to an own address can be repeated.**  It stores a deposit and no
  withdrawal (`wallet/withdraw.go:134-147`), so its id stays free.  `ColdTransferTwice` gives
  the run, and `RepeatedRequestIff` says a repeated request is carried out again if and only if
  it goes to cold storage.  Everything else is carried out at most once (`ExecutedOnce`).
* **Two outputs to one address break the fixed fee.**  Re-encoding puts outputs into a map
  keyed by address, so the first of two outputs with the same address disappears.
  `CollidingChangeFirst` pays a fee of 60 instead of 10; `CollidingChangeLast` pays the
  recipient the change instead of the amount.  `FeeIsExactIff` and `RecipientIsPaidIff` give
  the exact conditions.
* **Muting can make another event be given up early.**  The number of retries belongs to the
  sender, not to an event, and a mute only resets it while a retry is outstanding
  (`events/mute.go:52-57`).  If a transaction is muted after its retry was taken up by a pass
  that could not read the events, the next event starts with the retries of the muted one.
  `GivenUpEarly` gives the run in which an event is given up after one attempt with a limit of
  two.  `GivenUpAfterBackoffIff` says an event was given up after `backoff` attempts of its own
  in that round if and only if none of the round was spent on a muted event.
* `events/mute.go:54` assigns `true` where the surrounding code resets the retry state.
  `MuteMustStayRetrying` shows why: with `false` the next signal starts a pass, and when that
  fails two retries are outstanding.
* A transaction only ever seen with negative counts has no events, so the highest reported
  number is the maximum over the observations and -1.

## Model

| member | source | states |
|---|---|---|
| `WalletTheorems.BroadcastsAreRecorded` | wallet/withdraw.go:170-314 | in every reachable state with a clear wallet lock, the withdrawals the node broadcast are exactly the outgoing rows with a hash, with the same id, hash, address, amount and cold flag |
| `WalletTheorems.NeverBroadcastTwice` | wallet/integrity.go:8-37 | over every run with crashes and restarts, no withdrawal id and no hash is broadcast twice |
| `WalletTheorems.StateMachineIsSafe` | wallet/types/transactions.go:162-178 | in every reachable state the "other hash" panics were not hit, pending and cancelled rows have no hash, and a cancelled withdrawal was never broadcast |
| `WalletTheorems.HistoryIsStable` | wallet/pending.go:24-41 | from any reachable state over any further run: no row disappears, a hash never changes, cancelled rows are frozen, reported counts never decrease |
| `WalletTheorems.ManualConfirmationIsKept` | wallet/pending.go:175-206 | a regular withdrawal above the threshold is sent, transferred or queued only after a confirm request for its id was processed; cold storage withdrawals are never stored as pending |
| `WalletTheorems.ConfirmationsAreReportedOnce` | wallet/updates.go:46-118 | the confirmation events of a transaction carry 0..r once each in order, with the row's hash, address and amount, r the highest clamped count ever polled; complete if and only if the first event was not swallowed by a rolled-back save |
| `WalletTheorems.EventSays` | wallet/updates.go:18-75 | in every reachable state event n of a stream is "new incoming" if and only if the row is incoming and n = 0, "incoming confirmed" if and only if it is incoming and n > 0, and the same for outgoing; its status is new up to 0, confirmed below `maxConfirmations` and fully confirmed from there on |
| `WalletTheorems.RowStatusFollows` | wallet/updates.go:160-178 | in every reachable state the status of a row with a hash follows its stored count in the same three ranges |
| `WalletTheorems.DepositIsComplete` | wallet/updates.go:46-75 | for deposits the stream is always complete, 0..r |
| `WalletTheorems.PollScheduleDoesNotMatter` | wallet/updates.go:46-223 | two deposits or two withdrawals polled on any two schedules in any two runs show the same events when their highest counts agree and their first events were both written or both swallowed |
| `WalletTheorems.NoEarlyDrop` | wallet/postgresstorage.go:335-356 | a notifiable broadcast transaction with events still to come is still selected for polling |
| `Deposits.NoMissedDeposit` | wallet/updates.go:120-158 | in every reachable state each output in a block up to the last seen one has exactly one row for its hash, direction and address; a deposit's row is worth all covered outputs of that key together if and only if those other than the first listed one are worth nothing |
| `Deposits.EveryDepositInFull` | wallet/updates.go:120-158 | if no two covered outputs of one transaction pay to one deposit address, every covered deposit is recorded with its amount |
| `Deposits.ListingCreditedIff` | wallet/postgresstorage.go:214-240 | after a committed listing the new row of a key is worth all its entries together if and only if the repeated ones are worth nothing |
| `Deposits.SecondOutputIsMissed` | wallet/postgresstorage.go:214-240 | for any amounts a and b of two outputs of one transaction to one deposit address, a legal run in which their block is seen and all that is recorded of a + b is a |
| `Deposits.StepDeposits` | wallet/updates.go:230-286 | every step keeps each deposit at the amount of the output its key was first listed with |
| `WalletTheorems.InternalTransferConserves` | wallet/withdraw.go:115-168 | a committed transfer leaves one fresh deposit, of the amount minus the fee for a fixed fee and of the whole amount otherwise, and, unless it goes to cold storage, the withdrawal, both fully confirmed with complete streams, and touches nothing else; it changes nothing if and only if it is dropped or a fixed fee exceeds the amount |
| `WithdrawalOutcomes.LocksIff` | wallet/withdraw.go:170-206 | for a withdrawal to a foreign address that a request, a confirmation or the scheduler starts: with a reported lock commit it is locked and handed to the node if and only if its fee is a rate or fixed |
| `WithdrawalOutcomes.WithdrawOutcome` | wallet/withdraw.go:363-463 | a withdraw request is refused, held with its event, or started, said by address, amount, fee and free id alone |
| `WithdrawalOutcomes.ConfirmOutcome` | wallet/pending.go:175-206 | a confirm request starts a row that awaits confirmation and changes nothing otherwise |
| `WithdrawalOutcomes.ResendOutcome` | wallet/pending.go:76-93 | sending again starts a row that waits for funds or cold storage and changes nothing otherwise |
| `WithdrawalOutcomes.CancelOutcome` | wallet/pending.go:24-41 | a committed cancel of a row in one of the three pending statuses makes it cancelled and appends the "pending tx cancelled" event; anything else changes nothing |
| `WithdrawalOutcomes.ReplyOutcome` | wallet/withdraw.go:207-229 | an accepted withdrawal is on the node's record under its hash; a refused one becomes pending if and only if funds are missing and it does not go to cold storage |
| `WithdrawalOutcomes.SavedOutcome` | wallet/withdraw.go:231-256 | a reported save stores the hash, releases the lock and writes the "new outgoing" event once, never for cold storage |
| `WithdrawalOutcomes.RefusalOutcome` | wallet/withdraw.go:258-286 | a reported save of a refusal stores the pending status with its event, or nothing, and releases the lock |
| `WithdrawalOutcomes.StopsAfterElevenIff` | wallet/withdraw.go:288-314 | after a send the wallet stops if and only if eleven attempts in a row to save its outcome were not reported as saved |
| `WithdrawalOutcomes.RestartIff` | wallet/integrity.go:8-37 | a crash keeps the database; a process starts if and only if the lock is clear |
| `PollOutcomes.RefreshOutcome` | wallet/updates.go:183-223 | after a refresh that is not dropped, exactly the rows with a hash and fewer than `maxConfirmations` hold the node's count and block hash for their hash, reported up to the maximum of before and the clamped count where they are notified at all; the history grew by these counts; no other row changed |
| `PollOutcomes.ListingOutcome` | wallet/updates.go:120-158 | after a listing that is not dropped, every entry has its row, each listed row shows the count and block of its last entry, unlisted rows are as before, and new rows carry the amount and address of an incoming entry |
| `Executions.ExecutedOnce` | wallet/withdraw.go:97-113 | over every run no withdrawal id is carried out twice, by broadcast or internal transfer, apart from cold storage transfers to an own address; an id that is free again was carried out by such transfers only |
| `Executions.RepeatedRequestIff` | wallet/withdraw.go:134-147 | the same request to an own address is carried out again if and only if it goes to cold storage |
| `Executions.TwoColdDeposits` | wallet/withdraw.go:134-147 | what two such transfers leave: two complete deposits and no withdrawal |
| `Executions.ColdTransferTwice` | wallet/withdraw.go:363-368 | a concrete legal run that leaves two deposits of 490 for one id |
| `WithdrawalFrame.SendRunTouches` | wallet/withdraw.go:170-314 | the steps of one withdrawal touch its own row only, take no other hash, and append only its broadcast |
| `WalletTheorems.RolledBackNotificationLosesAnEvent` | wallet/withdraw.go:240-255 | a concrete legal run after which a saved withdrawal is marked as reported but has no event |
| `SwallowedEvents.RolledBackNotificationDelaysAnEvent` | wallet/withdraw.go:240-255 | a concrete legal run after which a saved withdrawal that was pending before has no event and counts as unreported |
| `SwallowedEvents.SwallowedIff` | wallet/withdraw.go:240-255 | over every run, an id is in `lost` or `delayed` if and only if some step rolled back a save of it past the notification, before any event of it was written, while it had no row or had one |
| `WalletTheorems.RunKeeps` | wallet/updates.go:230-286 | every legal run of the updater keeps the invariant and only lets rows grow |
| `PollIdempotence.SecondPollChangesNothing` | wallet/updates.go:77-158 | processing a consistent listing twice leaves rows and event log as after the first time |
| `WalletSteps.StepKeeps` | wallet/updates.go:230-286 | every single step of the updater and its environment keeps the invariant |
| `WalletSteps.DispatchKeeps` | wallet/withdraw.go:170-206 | internal transfer or committed lock, both keep the invariant for an unsent withdrawal past the gate |
| `WalletSteps.PersistSentKeeps` | wallet/withdraw.go:231-256 | every attempt to save an accepted withdrawal, saved, dropped or unreported, keeps the invariant |
| `WalletSteps.PersistFailedKeeps` | wallet/withdraw.go:258-286 | every attempt to save a refused withdrawal keeps the invariant |
| `WalletSteps.ScanNewKeeps` | wallet/updates.go:138-146 | a listing taken in entry by entry keeps the ledger invariant, makes every entry known and adds rows only under the drawn ids |
| `WalletSteps.ScanKnownKeeps` | wallet/updates.go:195-211 | refreshing the rows with few confirmations keeps the ledger invariant |
| `LedgerSteps.ObserveKnown` | wallet/updates.go:77-118 | a new count for a known row stores it and extends its stream to the highest clamped count, never beyond and never twice |
| `LedgerSteps.ObserveNew` | wallet/updates.go:77-118 | an unseen transaction gets one row and its stream from 0 on |
| `LedgerSteps.SaveSentKeeps` | wallet/withdraw.go:240-255 | saving a broadcast withdrawal puts its hash into its row and changes no other, writes exactly its first event unless that is done or it goes to cold storage, releases the lock and keeps the invariant |
| `LedgerSteps.InternalTransferKeeps` | wallet/withdraw.go:132-163 | the table after an internal transfer, and that the ledger invariant holds |
| `LedgerSteps.PendingStatusKeeps` | wallet/pending.go:24-41 | a pending status change replaces one status and adds no confirmation event |
| `WalletMethods.Wallet.constructor` | wallet/integrity.go:8-37 | a process starts only on a database with a clear lock |
| `WalletMethods.Wallet.StoreTransaction` | wallet/postgresstorage.go:197-283 | finds the row by id, then by hash, direction and address, and updates it, or inserts one |
| `WalletMethods.Wallet.NotifyTransaction` | wallet/updates.go:46-75 | the loop writes exactly the missing events; a fault leaves the caller's record where it stopped |
| `WalletMethods.Wallet.TakeTxInfo` | wallet/updates.go:77-118 | stores and reports one record as the specification says |
| `WalletMethods.Wallet.SetPendingStatus` | wallet/pending.go:24-41 | stores the status and writes its event, or does nothing when it is unchanged |
| `WalletMethods.Wallet.CheckForNewTransactions` | wallet/updates.go:122-151 | is exactly one poll step ended by the given commit; every entry's row shows the node's count; a fault at any statement leaves rows, events and last seen block unchanged; the invariant is kept |
| `WalletMethods.Wallet.LessConfirmedRows` | wallet/postgresstorage.go:335-356 | every row with a hash and too few confirmations, once each |
| `WalletMethods.Wallet.CheckForExistingTransactionUpdates` | wallet/updates.go:183-216 | is exactly one refresh step ended by the given commit; every row with a hash and few confirmations has the node's count and block; a fault changes nothing |
| `WalletMethods.Wallet.CancelPendingTx` | wallet/pending.go:145-165 | is exactly one cancel step; succeeds if and only if the row was pending and the commit was reported, and changes only the status of that row |
| `WalletMethods.Wallet.HandleCancel` | wallet/pending.go:145-173 | a cancel request with the pass that follows a success is one legal run of the machine; no error if and only if the row was pending and the commit was reported |
| `WalletMethods.Wallet.InternalWithdraw` | wallet/withdraw.go:115-168 | is exactly the internal branch of the dispatch step; no error if and only if it was committed and no fixed fee exceeds the amount |
| `WalletMethods.Wallet.SaveSentBody` | wallet/withdraw.go:241-254 | stores, reports and releases the lock; what notifying did to the record survives a rollback |
| `WalletMethods.Wallet.HandleWithdrawalSuccess` | wallet/withdraw.go:231-256 | the retry loop is a run of at most eleven persist steps, each ended the way the database answered; idle if and only if one of eleven was reported as saved, stopped otherwise |
| `WalletMethods.Wallet.HandleWithdrawalError` | wallet/withdraw.go:258-286 | the same for a refused withdrawal, always starting from the original record |
| `WalletMethods.Wallet.SendWithdrawal` | wallet/withdraw.go:170-229 | lock, send and persist are a legal run of the machine ending idle or stopped, invariant kept; no error if and only if the account lookup works, the first commit is reported, and either the address is ours and no fixed fee exceeds the amount, or the fee is a rate or fixed, one of eleven saves is reported and the node's answer is none to pass on |
| `WalletMethods.Wallet.CheckWithdrawLimits` | wallet/withdraw.go:65-95 | accepted if and only if amount and fee reach their minima; held if and only if the amount is above the threshold |
| `WalletMethods.Wallet.PrepareWithdrawal` | wallet/withdraw.go:402-463 | refuses a request if and only if it has no usable address or is below a minimum, and else hands on its record, held if and only if it is regular and above the threshold |
| `WalletMethods.Wallet.HandleWithdraw` | wallet/withdraw.go:363-382 | a withdraw request from its checks to its outcome is a legal run of the machine; no error if and only if it is allowed, its id is free, and holding is committed or sending succeeds, all said by the arguments |
| `WalletMethods.Wallet.ConfirmPendingTx` | wallet/pending.go:175-206 | a confirm request to its outcome is a legal run of the machine; no error if and only if the row awaits confirmation and sending succeeds, said by the arguments |
| `Scheduler.PlanIsOptimal` | wallet/pending.go:63-143 | nothing larger than the attempted set fits the confirmed balance, nothing larger than attempted and pending fits both balances, the attempted total is within the confirmed balance, the need is max(0, total - confirmed - unconfirmed), and the three parts are the input |
| `Scheduler.GreedyIsOptimal` | wallet/pending.go:76-93 | no selection within the budget has more elements than the greedy pass over the sorted list |
| `Scheduler.SmallestFirst` | wallet/pending.go:68-70 | any selection of n withdrawals costs at least the n smallest |
| `Scheduler.TakenIsMaximalPrefix` | wallet/pending.go:80-93 | a pass stops at the longest prefix whose total fits |
| `Scheduler.SortByAmount` | wallet/pending.go:68-70 | sorts in place, a permutation |
| `PendingPass.PassStoresThePlan` | wallet/pending.go:99-142 | from any list of exactly the scheduled rows, once the affordable ones were sent, the final commit leaves the planned statuses, no unscheduled row changed, and as requirement what the scheduled rows exceed both balances by |
| `PendingPass.PassedMore` | wallet/pending.go:82-93 | sending one withdrawal leaves every other scheduled row untouched and takes none of their fresh ids and hashes |
| `PendingPass.SendTouches` | wallet/withdraw.go:170-314 | the whole of sendWithdrawal touches one withdrawal |
| `WalletMethods.Wallet.GetPendingTransactions` | wallet/postgresstorage.go:398-423 | exactly the pending and pending-cold-storage rows, once each, with their amounts |
| `WalletMethods.Wallet.SendWhileAffordable` | wallet/pending.go:76-93 | the send loop on int64 is a legal run that tries exactly a prefix in order; it stops at the first send that fails by the answers, or the first withdrawal that does not fit, all other rows untouched |
| `WalletMethods.Wallet.KeepWhileAffordable` | wallet/pending.go:104-122 | the loop over the re-sliced list stops where one pass over both balances would, and stores as pending exactly what it kept |
| `WalletMethods.Wallet.Shortfall` | wallet/pending.go:129-141 | the last loop stores the rest as waiting for cold storage, and the negated rest of the balance is exactly what is missing |
| `WalletMethods.Wallet.SplitRest` | wallet/pending.go:99-142 | the re-sliced list with its reset index stores the same split as one pass over both balances; nothing wraps around |
| `WalletMethods.Wallet.FinishBody` | wallet/pending.go:99-142 | the statements of the final transaction store the planned statuses and requirement |
| `WalletMethods.Wallet.FinishPass` | wallet/pending.go:95-142 | the second half is exactly one marking step with the planned statuses and requirement, ended by the given commit |
| `WalletMethods.Wallet.TryToUpdatePendingTxns` | wallet/pending.go:63-143 | the pass end to end: a legal run that sends the affordable scheduled rows smallest first; it completes if and only if the node told the balances, every affordable withdrawal is sent without error and the last commit is reported; then the rows carry the plan and the requirement is max(0, total of the scheduled rows - confirmed - unconfirmed); nothing wraps around |
| `FixedFee.FeeIsExactIff` | bitcoin/nodeapi/rpc.go:473-492 | inputs minus outputs equal the fee if and only if output addresses differ or the dropped output, the change when it comes first and else the recipient's, is worth nothing |
| `FixedFee.RecipientIsPaidIff` | bitcoin/nodeapi/rpc.go:473-492 | the recipient gets the promised amount if and only if output addresses differ, the change comes first, or the change is worth just as much |
| `FixedFee.CollidingChangeFirst` | bitcoin/nodeapi/rpc.go:473-492 | a funded transaction whose fee comes out as 60 instead of 10 |
| `FixedFee.CollidingChangeLast` | bitcoin/nodeapi/rpc.go:473-492 | a funded transaction whose recipient gets the change instead of the promised amount |
| `FixedFee.FinalIsExact` | bitcoin/nodeapi/rpc.go:412-492 | with distinct addresses the fee is exact and the recipient gets amount minus fee, or amount, in every change position |
| `FixedFee.TransformTxToSetFixedFee` | bitcoin/nodeapi/rpc.go:412-471 | succeeds if and only if the outputs have the expected shape, and rewrites only the recipient's value |
| `FixedFee.EncodeTransformedTransaction` | bitcoin/nodeapi/rpc.go:473-492 | succeeds if and only if every output has one address, and gives the address map |
| `FixedFee.SendWithFixedFee` | bitcoin/nodeapi/rpc.go:558-607 | the two refusals and the exact fee end to end |
| `Broadcaster.ChannelsCarryLogSegments` | events/broadcaster.go:30-92 | in every interleaving each channel, live or disconnected, carries exactly the log from its start up to its cursor |
| `Broadcaster.BroadcastCatchesUp` | events/broadcaster.go:46-65 | after a successful broadcast every survivor has the whole log from its start |
| `Broadcaster.SubscriberGetsWhatItAskedFor` | events/broadcaster.go:30-92 | over every run: what a subscriber got since it asked for events from n on are exactly the logged events from n up to its cursor, once each and in order; after a successful broadcast that leaves it subscribed, the cursor is above the whole log |
| `Broadcaster.StaysSubscribedIff` | events/broadcaster.go:12-65 | in every reachable hub, after a successful broadcast a subscriber is still subscribed if and only if fewer than 10000 batches are unread or no logged event is at or above its cursor; one that stays and has something new gets exactly one batch more, holding exactly those events |
| `Broadcaster.TriggerOutcome` | events/websocket.go:8-18 | a trigger is dropped when three are queued; a failed read leaves a timer |
| `Broadcaster.SubscribeOutcome` | events/broadcaster.go:70-79 | a new subscriber has an empty open channel and waits for its number; the low-water mark is at or below it |
| `Broadcaster.CloseOutcome` | events/broadcaster.go:81-102 | unsubscribing closes one subscribed channel and does nothing a second time; closing the broadcaster closes every subscribed channel |
| `Broadcaster.ConsumeOutcome` | events/broadcaster.go:52-60 | a client takes the oldest unread batch |
| `Broadcaster.NoLostWakeUp` | events/websocket.go:8-18 | an event signalled and not delivered leaves a trigger, a timer or a broadcast under way |
| `Broadcaster.SharedRead` | events/broadcaster.go:34-49 | filtering the shared read from the lowest cursor is the subscriber's own read |
| `Broadcaster.StepKeeps` | events/broadcaster.go:30-102 | every step keeps the invariant, in particular minSeq at or below every cursor |
| `BroadcasterMethods.BroadcasterWithStorage.Broadcast` | events/broadcaster.go:30-68 | the nested loops are exactly one broadcast step, whatever order the map is walked in; every subscriber is served one batch of the logged events from its cursor on, or disconnected when 10000 are unread |
| `BroadcasterMethods.BroadcasterWithStorage.DeliverTo` | events/broadcaster.go:46-62 | one subscriber gets its wanted suffix or is disconnected on overflow |
| `BroadcasterMethods.BroadcasterWithStorage.FirstWanted` | events/broadcaster.go:47-49 | the slice from the first wanted event is the read from that number |
| `BroadcasterMethods.BroadcasterWithStorage.SubscribeFromSeq` | events/broadcaster.go:70-79 | is exactly the subscribe step |
| `BroadcasterMethods.BroadcasterWithStorage.Unsubscribe` | events/broadcaster.go:81-92 | is exactly the unsubscribe step, a second call does nothing |
| `BroadcasterMethods.BroadcasterWithStorage.Close` | events/broadcaster.go:94-102 | closes and forgets every subscriber |
| `BroadcasterMethods.BroadcasterWithStorage.StoreEvent` | events/memorystorage.go:35-43 | appends to the log |
| `HttpCallback.AcknowledgedOnce` | events/httpcallback.go:124-239 | over every run with callback errors, storage errors and crashes: finished events are strictly increasing, with a clear lock all are covered by last_http_sent_seq, and an uncovered one is named by the lock |
| `HttpCallback.FinishedIsNeverPosted` | events/integrity.go:8-35 | an event acknowledged or given up is not posted again, in this process or after restarts |
| `HttpCallback.OneRetryToken` | events/broker.go:81-84 | in every reachable state of a running process, through sends, early errors and mutes: one outstanding retry while retrying and none otherwise; the delay is the number of attempts, at most `backoff` |
| `HttpCallback.MuteMustStayRetrying` | events/mute.go:52-57 | after a mute during a retry, a signal and a failing pass leave one retry outstanding with the flag kept true and two with it put to false |
| `HttpCallback.NoLostWakeUp` | events/broker.go:62-84 | with lossy three-slot triggers, a signalled undelivered event keeps a trigger, a retry or an error timer outstanding, or is ahead in the running pass |
| `HttpCallback.DeliveredOrGivenUp` | events/httpcallback.go:144-199 | but for muted transactions, whatever last_http_sent_seq covers was acknowledged or given up; the last round of a given-up event had exactly `backoff` attempts, on it or on events muted by now; without muting, the process run that gave up made exactly `backoff` attempts on it |
| `HttpCallback.GivenUpAfterBackoffIff` | events/httpcallback.go:90-111 | an event was given up after exactly `backoff` attempts of its own in that round if and only if the round had none on a muted event, and never after more |
| `HttpCallback.GivenUpEarly` | events/mute.go:52-57 | a concrete legal run in which an event is given up after one attempt with a limit of two |
| `HttpCallback.MuteKeepsRetries` | events/mute.go:52-57 | from any state awaiting a retry: a failed retry read and a mute leave the number of retries as it was |
| `HttpCallback.DeliveredInOrder` | events/httpcallback.go:144-199 | but for muted transactions, nothing is attempted while an earlier event is unresolved |
| `HttpCallback.CleanPassDelivers` | events/httpcallback.go:144-199 | a pass in which nothing fails acknowledges every remaining event once, in order, and ends idle |
| `HttpCallback.StepKeeps` | events/broker.go:111-152 | every step of the sender and its environment keeps the invariant |
| `HttpCallback.PostKeeps` | events/httpcallback.go:90-111 | one call of the callback, retried, finished or given up, keeps the invariant |
| `SenderOutcomes.PostOutcome` | events/httpcallback.go:160-182 | one call is counted; the event is finished with if and only if it was acknowledged or this was attempt number `backoff` under a positive limit |
| `SenderOutcomes.GivesUpIff` | events/httpcallback.go:90-111 | in every reachable state a refused event is given up if and only if the limit is positive and this was attempt number `backoff` of the round |
| `SenderOutcomes.ReadOutcome` | events/httpcallback.go:134-143 | a read yields exactly the unmuted events above last_http_sent_seq, in order; a failed one leaves an error timer |
| `SenderOutcomes.AdvanceOutcome` | events/httpcallback.go:144-161 | the top of the loop: an address event is skipped; otherwise the dirty bit names the event, and the pass goes on only when that is reported |
| `SenderOutcomes.SavedOutcome` | events/httpcallback.go:184-199 | a reported save stores the number, clears the dirty bit and the retries, and goes on with the next event |
| `SenderOutcomes.ClearedOutcome` | events/httpcallback.go:165-182 | a reported clearing awaits one retry of this event |
| `SenderOutcomes.StopsAfterElevenIff` | events/httpcallback.go:202-239 | after a call of the callback the broker stops if and only if eleven attempts in a row to save its outcome were not reported as saved |
| `SenderOutcomes.TriggerOutcome` | events/httpcallback.go:124-133 | a queued trigger starts a pass if and only if no retry is awaited or it is that retry |
| `SenderOutcomes.SignalOutcome` | events/broker.go:62-84 | a signal is dropped when three triggers are queued; a retry waits for a free slot |
| `SenderOutcomes.MuteOutcome` | events/mute.go:43-58 | a reported mute during a retry puts the retries to zero and keeps awaiting the retry; any other leaves them |
| `SenderOutcomes.RestartIff` | events/integrity.go:8-35 | a crash keeps the database; a process starts if and only if the dirty bit is clear |
| `HttpCallbackMethods.EventBroker.constructor` | events/integrity.go:8-35 | a process starts only with a clear lock and fresh retry fields |
| `HttpCallbackMethods.EventBroker.PersistWithRetry` | events/httpcallback.go:202-239 | the retry loop takes the answered commits in order, eleven at most; it ends saved if and only if one of eleven is reported, and stopped otherwise |
| `HttpCallbackMethods.EventBroker.CallCallback` | events/httpcallback.go:162-182 | one call and the decision to retry are exactly the post step |
| `HttpCallbackMethods.EventBroker.SendOne` | events/httpcallback.go:152-198 | one event from the dirty bit to its outcome is a run of the machine in which every step is the one its phase and the answers call for |
| `HttpCallbackMethods.EventBroker.Pass` | events/httpcallback.go:134-200 | a whole pass is a run of the machine from the first read to idle or stopped in which every step is the one its phase and the answers call for |
| `HttpCallbackMethods.EventBroker.HandleTrigger` | events/broker.go:129-130 | handling a queued trigger is that run, or nothing before the retry is due, fixed by the answers |
| `HttpCallbackMethods.EventBroker.UnsentEvents` | events/broker.go:107-109 | the unmuted events above a number, in log order |
| `HttpCallbackMethods.EventBroker.TriggerSending` | events/broker.go:74-79 | the non-blocking send is exactly the signal step |
| `HttpCallbackMethods.EventBroker.Mute` | events/mute.go:43-58 | muting is exactly the mute step; refused for a muted id or a failed insert, which leave the retry fields alone |

## Left out

- HTTP and websocket servers, API client, command line, settings, integration tools: input and output.
- SQL text, JSON and metainfo contents: only the effect of each query on rows is modelled.
- Node RPC, signing and the conversion between float64 and satoshi: the node is the contract above, amounts are integers.
- Decimal printing and parsing of amounts, enum and string tables: finite facts or code outside the repository.
- Prometheus gauges: not tied to the protocol.
- `InMemoryWalletStorage`: a test double that aliases records; the reference is the Postgres storage.
- Real time: timers are tokens that may fire at any later step, the delay is kept as a number.
- Concurrent commits of API goroutines: covered by the assumption on sequence numbers.
- The `Fresh` flag and when a poll or a timer triggers `updatePendingTxns`: the machine may start a pass at any idle moment.
- The websocket trigger of the wallet and the `SendNotifications` calls after each wallet step: signalling is a step of its own that may happen at any time.
- Account creation and its new-address event: only the set of our addresses grows.
- An operator clearing a lock by hand: no step of the machine does it.
- Muted events in the websocket broadcaster, and muting without an id: the HTTP sender mutes any id.
- `sort.Slice`: modelled as an in-place insertion sort; the theorems hold for every order of equal amounts.
- WalletMethods.Wallet.CheckForNewTransactions: ends before the pass that follows a poll with changes; a pass may start at any idle moment of the machine.
- WalletMethods.Wallet.CheckForExistingTransactionUpdates: ends before that pass as well.
- HttpCallbackMethods.EventBroker.Pass: no other goroutine acts between its steps; the interleavings are covered in module HttpCallback.
- Mutexes: each broadcaster method is one step.
