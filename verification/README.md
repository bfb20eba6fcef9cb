# A verified model of the event-sourced ledger

The ledger keeps accounts as streams of events in one append-only log. Commands load an account, decide, and append
under an expected version; a transfer is a debit that a saga later settles with a credit or a reversal; a projector
turns events into read tables; a boot sequence repairs whatever a crash left behind. This project models that logic in
Dafny and proves what it promises over every input, every interleaving and every crash.

| module | what it models |
|---|---|
| `Domain` | events, accounts, replay, the decision functions |
| `Ledger`, `Sums` | what a log means: streams, legal logs, exactly-once settlement, conservation, int64 bounds |
| `MemoryStore` | the in-memory store as a class, and its append as a function |
| `PostgresStore` | the table store: uniqueness constraint, snapshots, other transactions between two statements |
| `Interference` | what others do to the log between two store calls, as a script of turns, and what the running system's calls and workers come to under it |
| `App` | `mutate`, opening an account, the saga's commands, in place, against a store that others change between any two calls |
| `Saga` | the saga's handler, catch-up and `process`, in the same world |
| `Projection` | the projector as a class, and the read tables against the log under any delivery order |
| `LedgerSystem` | the whole process as a step machine: clients, bus, projector, saga queue, workers, crash, boot |
| `Invariant`, `Safety` | the inductive invariant of that machine and the proof that each of its 18 kinds of step keeps it |
| `Guarantees` | what follows over every run |
| `Retries` | how many failures and conflicts a call and a process ride out, counted on the script |
| `Custody` | what can be lost on the way and what cannot: tokens, the saga's queue, events to be published |
| `Requests` | every event of a client's making goes back to the request that asked for it |
| `Journey` | a possible request is carried out, from end to end |
| `Witness` | runs that show what is not promised |
| `Bus`, `Idempotency` | the partitioned bus, the Idempotency-Key protocol |
| `RateLimiter`, `Janitor` | the token bucket, and the bucket with its sweep every minute |

## How the main result is proved

A *token* is a live copy of a debit: on its way to the bus, on the bus, between projector and saga, in the saga's queue,
in the hands of a worker, or waiting to be resumed after a boot. `Invariant.Inv` says, among other things, that every
transfer has at most one token and that a transfer with a token is debited and not settled. A worker appends a
settlement only while it holds the token, and gives it up by doing so; after a crash the pending list recreates
exactly one token per unsettled debit. Exactly-once settlement, conservation, the absence of overdrafts and the state of
the read tables all follow from that invariant in every reachable state.

The code in `App` and `Saga` and the steps of `LedgerSystem` are one model. A script says what others write before
each store call and before each publication, which calls fail, and whether the process is told to stop in a back-off;
it is any sequence at all. `App.Mutate` leaves log, script and answer exactly as a call of the step machine does under
that script (`Interference.Mutated`), and `Saga.Process` exactly as a worker does (`Interference.Worked`). What others
write is a function of the script (`Interference.Interfered`), so "nothing else was written" is an equation about the
log, not a remark about bookkeeping.

Safety alone would be met by a system that does nothing or gives up at once, so four modules say what must happen.
`Retries` counts on the script, with the numbers written out: `mutate` gets through exactly if one of five rounds is
quiet, and a transfer is reversed only after three thwarted credits. `Custody` names the only steps that can lose a
token or take an event off its way to the read model. `Requests` ties each event in the log to what a client asked for,
and `Journey` carries a possible request to its end.

The model rests on these premises, all of them about things outside the code: one process runs at a time; an event is
published at most once per append; catch-up ends before the API opens; a failing store call wrote nothing; a transaction
is atomic and log order is commit order; fresh ids are new; the rate limiter's clock does not go back.

## Where the code and its documentation differ

The model follows the code. Each difference has an exact condition.

- A second delivery of a debit is said to be a no-op (README.md, guarantee 2b; internal/app/app.go:93-94). It is, for a
  settled transfer, if and only if the transfer was credited or the destination has no events: the credit path looks for
  a credit only, so a reversed debit that comes again is credited as well (`Guarantees.RedeliveryHarmlessIff`, with a
  run in `Witness.ReversedThenCredited`). Two concurrent deliveries of a pending debit credit it twice
  (`Guarantees.DuplicateDeliveryCreditsTwice`).
- A failed projection is said to be repaired by the next catch-up. Balances and statement are. In every run a transfer's
  row is right if and only if its settlement never met a missing row, which takes a live projection that failed
  (`Guarantees.StatusRightIffNotEarly`); `Witness.RowWaitsForEver` is a run in which one projection fails, everything is
  processed after the next boot, and the row of a credited transfer still says pending.
- The in-memory `Append` claims the semantics of the table store. It logs part of a batch that it then refuses; it keeps
  its two views coherent if and only if it does not fail after a first good event (`MemoryStore.AppendCoherentIff`).
- The uniqueness constraint is said to be the length check. The two agree if and only if the expected version lies
  between 0 and the stream's length (`PostgresStore.AppendsAgreeIff`); beyond it the constraint lets a gap in.
- The rate limiter's bound, the harmlessness of denied calls and the invisibility of the janitor hold over every trace
  with a sweep each minute if and only if five minutes refill a whole burst, or the burst admits no call at all
  (`Janitor.WindowBoundIff`, `Janitor.DeniedNeverCountIff`, `Janitor.EvictionHiddenIff`). The configured 50 per second with
  burst 100 is on the right side.

## Model

| member | source | states |
|---|---|---|
| `Guarantees.SettledExactlyOnce` | internal/saga/transfer.go:92-127 | over every run, with crashes anywhere, a transfer has at most one debit and at most one event among credited and reversed; a settlement follows its debit, with the same amount, as a credit of the destination or a reversal on the debited account |
| `Guarantees.MoneyConserved` | internal/app/app.go:67-120 | over every run, replayed balances plus the amounts of the pending debits equal deposits minus withdrawals |
| `Guarantees.NeverOverdrawn` | internal/app/app.go:122-152 | over every run, with any number of clients holding stale accounts, every prefix of every stream replays to zero or more; balances fit int64 for streams up to 92,233,720,368 events |
| `Guarantees.StreamsWellShaped` | internal/eventstore/memory.go:33-51 | over every run each stream has versions 1..n, an opening at its head and nowhere else, and replays to version n |
| `Guarantees.ReadModelInStep` | internal/projection/projector.go:54-187 | over every run a read balance is the sum of the processed deltas and of the statement lines |
| `Guarantees.StatusRightIffNotEarly` | internal/projection/projector.go:110-158 | over every run a transfer's row, a reversal's reason included, agrees with the log if and only if its settlement never met a missing row; otherwise the row waits for ever, and a live projection has failed |
| `Guarantees.StatusIsFinal` | internal/projection/projector.go:110-158 | a row that left pending shows the transfer's one settlement, and nothing later, failures included, changes it |
| `Guarantees.RecoveryIsLossless` | cmd/api/main.go:67-86 | after a crash in any reachable state, booting keeps the log, projects every event, makes row balances equal replay, and resumes exactly the unsettled debits in log order, one token each |
| `Custody.BootResumesAll` | cmd/api/main.go:67-86 | after a crash in any reachable state, a boot without failures ends with the API open, all workers free, the saga's queue equal to the unsettled debits in log order, and one token each |
| `Custody.TokensAccounted` | internal/saga/transfer.go:50-127 | the only steps that can lose a transfer's token: a crash, a worker that stops, a hand-over or publication dropped in a shutdown, a worker that finds the credit logged, a reversal stage that ends without writing, an append that settles it; and the only ones that can create one: the boot's reading of the pending debits and the append of its debit |
| `Custody.TokenKept` | internal/saga/transfer.go:50-127 | over any run without such a step, a debit keeps its one token |
| `Custody.QuitIsRecovered` | internal/saga/transfer.go:111-115 | a worker that stops in its back-off drops the only token of its transfer, and the next boot recreates it |
| `Custody.QueueIsFifo` | internal/saga/transfer.go:50-71 | over any run without a crash, debits begun and then debits queued are the debits that came, in order |
| `Custody.WrittenIsOnItsWay` | internal/app/app.go:136-139 | whatever a step writes to the log is to be published from then on |
| `Custody.EventsAccounted` | internal/app/app.go:154-158 | an event to be published or on the bus stays so unless the process dies, its publication is dropped in a shutdown, or it is delivered |
| `Custody.DeliveredIsProjected` | internal/bus/bus.go:99-103 | a delivered event reaches both handlers; it is then marked exactly if it was before, or the database works and its account has a row; a failure is remembered |
| `Requests.EveryEventAskedFor` | internal/app/app.go:37-91 | over every run each debit is what a transfer request asked for, with this payer, receiver, amount and id; each withdrawal and deposit is what was submitted for its account, or the initial deposit of its opening; each opening carries the trimmed owner of its request |
| `Journey.SubmitCarriedOut` | internal/app/app.go:67-77 | an undisturbed deposit or withdrawal is in the log after its load and append, the next event of its account, if and only if it is possible; otherwise nothing is written |
| `Journey.OpeningCarriedOut` | internal/app/app.go:36-65 | an undisturbed opening of a new account succeeds exactly if the owner is not blank and the deposit within 0 and the limit; the account then holds the deposit and its events are to be published; otherwise nothing changes |
| `Journey.TransferCarriedOut` | internal/app/app.go:79-106 | an undisturbed possible transfer to an existing account leaves its debit and its credit in the log after ten steps of client, bus, projector, saga and worker, and the amount has moved from one balance to the other |
| `Guarantees.LogOnlyGrows` | migrations/001_schema.sql:5-19 | no step of the system removes or changes a logged event |
| `Guarantees.ProcessSettlesPending` | internal/saga/transfer.go:92-127 | `process` on its own appends exactly one settlement of a pending debit: a credit if the destination has events, else a reversal for "account not found" |
| `Guarantees.AloneIsUndisturbed` | internal/saga/transfer.go:92-127 | a worker under an empty script does what it does on its own |
| `Guarantees.UndisturbedProcessSettles` | internal/saga/transfer.go:92-127 | so an undisturbed process settles any pending debit with exactly one event, a credit if and only if the destination has events |
| `Guarantees.RedeliveryHarmlessIff` | internal/app/app.go:93-120 | processing a settled debit again changes nothing if and only if it was credited or the destination has no events |
| `Guarantees.DuplicateDeliveryCreditsTwice` | internal/app/app.go:95-106 | two workers with the same pending debit both pass the check and both credit it |
| `Witness.RowWaitsForEver` | internal/projection/projector.go:121-142 | a run with one failed live projection after which every event is processed and the row of a credited transfer still waits |
| `Witness.ReversedThenCredited` | internal/app/app.go:95-120 | a reachable log with a reversed transfer whose destination exists, and the second credit that processing its debit again writes |
| `Safety.EveryRunSafe` | cmd/api/main.go:67-86 | the invariant holds after every sequence of steps |
| `Safety.StepKeeps` | internal/saga/transfer.go:51-127 | each kind of step keeps the invariant |
| `Safety.AppendKeeps` | internal/app/app.go:136-138 | appending a decided, fresh event keeps the invariant if a debit's transfer id is nobody else's and a settlement's transfer has no token left |
| `Safety.ClientAppends` | internal/app/app.go:126-152 | a client's append creates the one token of a new debit |
| `Safety.WorkerSettles` | internal/saga/transfer.go:101-126 | a worker's settlement uses up its transfer's only token |
| `Safety.HonestNext` | internal/saga/transfer.go:92-127 | what `process` writes settles its own debit and was decided against the current stream |
| `Safety.AppendIsLegal` | internal/app/app.go:128-140 | an append that succeeds was decided against the replay of the whole current stream |
| `Safety.StartPipelineKeeps` | internal/saga/transfer.go:75-85 | reading the pending debits after a crash recreates tokens without exceeding one |
| `Safety.CatchUpEventKeeps` | internal/projection/projector.go:45-52 | a catch-up transaction, failed or not, keeps the invariant and what is left to project |
| `Safety.DeliverKeeps` | internal/bus/bus.go:99-103 | the projector is called before the saga, so no settlement meets a missing row unless a projection failed |
| `Safety.OpenNewKeeps` | internal/app/app.go:37-65 | an opening batch keeps the invariant |
| `Invariant.PendingTokens` | internal/eventstore/memory.go:84-101 | the pending list holds one token for each unsettled debit and none for any other transfer |
| `LedgerSystem.OpeningBatchLegal` | internal/app/app.go:38-58 | both events of an opening batch are decided against the stream as it stands when they are written |
| `LedgerSystem.OpeningBatchIs` | internal/app/app.go:37-58 | exactly when an opening with a deposit is refused and for which reason; otherwise the opening with the trimmed owner and, for a positive amount, the deposit of that amount as version 2 |
| `Domain.Replay` | internal/domain/account.go:86-94 | the loop computes the left fold of the events over the base account |
| `Domain.ReplayResumes` | internal/domain/account.go:85-94 | replaying the rest on top of a prefix's account equals replaying everything |
| `Domain.ReplayAddsDeltas` | internal/domain/account.go:38-83 | replay moves the balance by the signed amounts of the events |
| `Domain.DecisionFacts` | internal/domain/account.go:109-179 | an accepted command gives the next version of the same account, carries the command's data, moves money and never makes a debt; only a reversal may exceed the limit |
| `Domain.AcceptedIff` | internal/domain/account.go:109-179 | exactly when a command is accepted |
| `Domain.RefusedFor` | internal/domain/account.go:109-179 | which error a refusal carries: the first thing wrong, in the code's order, with a reversal's own order |
| `Domain.TrimSpaceTrims` | internal/domain/account.go:101-107 | the owner's name is the given one without the spaces around it, and nothing else is cut |
| `Domain.RefusalIsFinal` | internal/app/app.go:132-135 | a refused decision is never taken for a conflict |
| `Ledger.StaleDecisionIsCurrent` | internal/app/app.go:122-136 | however stale the loaded account, if its version is the stream's length its decision is legal now |
| `Ledger.LegalStreams` | internal/domain/account.go:101-163 | every stream of a legal log has versions 1..n, one opening at its head, an open account and no debt |
| `Ledger.OwnerKept` | internal/domain/account.go:38-94 | a replayed account belongs to the owner named in its opening |
| `Ledger.NoOverdraft` | internal/domain/account.go:117-143 | every prefix of every stream of a legal log replays to zero or more |
| `Ledger.ExactSnoc` | internal/saga/transfer.go:92-127 | what one more event must satisfy for settlement to stay exactly-once |
| `Ledger.Conservation` | internal/domain/account.go:38-83 | balances plus pending amounts equal net deposits for every legal and exact log |
| `Ledger.PendingMeaning` | internal/eventstore/memory.go:84-101 | the pending list holds exactly the debits without a settlement |
| `Ledger.AmountsCapped` | internal/domain/account.go:154-179 | every amount, a reversal's included, is within the limit, because it matches a debit |
| `Ledger.BalanceWithinVersion` | internal/domain/account.go:22-24 | a balance lies between 0 and version times the limit |
| `Ledger.BalanceFitsInt64` | internal/domain/account.go:28-34 | balances fit int64 for streams of up to 92,233,720,368 events |
| `MemoryStore.Memory.Append` | internal/eventstore/memory.go:29-52 | the loop does what the value-level append says, the events logged before a refusal included |
| `MemoryStore.Memory.LogEvents` | internal/eventstore/memory.go:38-49 | the loop numbers and logs the events up to the first that does not fit |
| `MemoryStore.AppendWhole` | internal/eventstore/memory.go:33-51 | a batch that fits goes into log and stream, and the two stay coherent |
| `MemoryStore.AppendCoherentIff` | internal/eventstore/memory.go:33-51 | log and streams stay coherent if and only if the call does not fail after logging an event |
| `MemoryStore.TornBatch` | internal/eventstore/memory.go:38-49 | a batch that leaves an event in the log and in no stream |
| `MemoryStore.Memory.Load` | internal/eventstore/memory.go:54-63 | the replay of the account's part of the log, or not found |
| `MemoryStore.Memory.EventsByAggregate` | internal/eventstore/memory.go:114-118 | the log filtered by account |
| `MemoryStore.Memory.LoadUnprocessed` | internal/eventstore/memory.go:65-75 | the unmarked events in log order |
| `MemoryStore.Memory.PendingTransferDebits` | internal/eventstore/memory.go:84-101 | the two loops compute the pending list |
| `MemoryStore.Memory.HasTransferEvent` | internal/eventstore/memory.go:103-112 | found if and only if the log holds such an event |
| `Interference.MutatedWrote` | internal/app/app.go:126-152 | for every script: a call succeeds exactly when one event of its own, decided by its command on its account against the log at that point, went in between the turns it read; everything else in the log is what those turns wrote |
| `Interference.WorkedWrote` | internal/saga/transfer.go:92-127 | for every script: a worker writes at most one event, a settlement of its debit decided against the log at that point; everything else in the log is what the turns wrote |
| `Interference.PendingUnlessOwn` | internal/saga/transfer.go:120-126 | if no turn settles the transfer, its debit is pending afterwards exactly when the process wrote nothing |
| `Interference.CreditStage` | internal/saga/transfer.go:100-116 | the worker's credit stage is `CreditTransfer` followed by stop, retry or compensation |
| `Interference.ReversalStage` | internal/saga/transfer.go:118-126 | the worker's reversal stage is `ReverseTransfer` |
| `App.Mutate` | internal/app/app.go:126-152 | under every script, log, answer and own event are exactly those of the running system's call; at most five attempts; with no failure and the command acceptable in each round, success exactly if in one of the first five rounds nobody writes to the stream between load and append, else too many conflicts; success exactly when one own event was written; the log changed by the turns read and the own event and nothing else |
| `Retries.FiveRounds` | internal/app/app.go:18-21 | that law about the script alone |
| `App.Attempt` | internal/app/app.go:128-149 | one round, with others writing before the load, between load and append, and before publication: it is over, or the next round follows |
| `App.DecideInTurn` | internal/app/app.go:132-143 | the decision on what was loaded, and exactly what it leaves in the log |
| `App.AppendAndPublish` | internal/app/app.go:136-140 | the append succeeds exactly when the loaded version is still the stream's length, and then the event is published once |
| `App.StaleFacts` | internal/app/app.go:132-136 | a decision on a stale account fits the store's check and is legal if the check passes |
| `App.OpeningEvents` | internal/app/app.go:38-58 | the events built step by step are the opening batch |
| `App.OpeningAppend` | internal/app/app.go:46-62 | an opening batch is well formed, so it is written whole or, if the account exists, not at all, and the log stays legal |
| `App.OpenNew` | internal/app/app.go:37-65 | under every script the batch is in the log whole and published whole, or the log holds nothing but what others wrote; which of the two, exactly |
| `App.CreditTransfer` | internal/app/app.go:95-106 | under every script: success means that a credit of the transfer is in the log; at most one own event, with the given destination and amount, and none if a credit was there; nothing else but what others wrote |
| `App.ReverseTransfer` | internal/app/app.go:109-120 | the same for the reversal |
| `Saga.TransferSaga.CatchUp` | internal/saga/transfer.go:75-85 | queues exactly the unsettled debits, in log order |
| `Saga.Process` | internal/saga/transfer.go:92-127 | under every script, log and own event are exactly those of the running system's worker: at most one own event, which settles this debit, and nothing else but what others wrote; if they leave the transfer alone, the debit is pending afterwards exactly when nothing was written; and the own event obeys the laws of three attempts below |
| `Retries.ThreeAttempts` | internal/saga/transfer.go:100-116 | with others leaving destination and transfer alone, a pending debit is credited if and only if not all of three attempts meet a store failure |
| `Retries.TwoFailuresRiddenOut` | internal/saga/transfer.go:24-26 | so any two store failures, whenever they come, still end in the credit |
| `Retries.ReversalTakesThree` | internal/saga/transfer.go:100-120 | under every script, while the destination exists, a reversal is written only after three credit attempts were thwarted one after the other, each by a failing store call or by five turns that write to the destination |
| `Retries.MissingDestination` | internal/saga/transfer.go:107-134 | a missing destination is tried once and the debit reversed at once, with that reason |
| `Projection.Projector.Bump` | internal/projection/projector.go:163-176 | moves the account's row, or reports the missing row |
| `Projection.Projector.AddStatement` | internal/projection/projector.go:178-187 | one line per event id, refused for a zero amount |
| `Projection.Projector.ApplyEvent` | internal/projection/projector.go:76-161 | does to each table what the event asks for, or fails |
| `Projection.Projector.Apply` | internal/projection/projector.go:54-74 | all effects and the mark together, or none of them |
| `Projection.Projector.CatchUp` | internal/projection/projector.go:45-52 | applies the events in order and stops at the first failure, the database's included |
| `Projection.ApplyEffect` | internal/projection/projector.go:76-187 | the exact change of every table by a first successful application |
| `Projection.ApplyKeepsReflecting` | internal/projection/projector.go:54-74 | applying any logged event, again, late or failing, keeps the tables equal to what the processed events say |
| `Projection.DeliveriesReflect` | internal/projection/projector.go:54-187 | so does every delivery sequence with duplicates, any order and failures |
| `Projection.Confluence` | internal/projection/projector.go:54-187 | once every event is processed, whatever the order, a row's balance equals replay |
| `Projection.StatementAgrees` | internal/projection/projector.go:178-187 | after any deliveries the statement lines of an account add up to its balance |
| `Projection.StatementReadsBack` | internal/projection/projector.go:91-156 | after any deliveries the lines are those of the processed money events, and each event can be read back from its line in full |
| `Projection.OwnersShown` | internal/projection/projector.go:78-89 | after any deliveries an account's row is open, names the owner of a processed opening and carries the version of a processed event |
| `Projection.HeadApplies` | internal/projection/projector.go:163-176 | the first unprocessed event in log order never meets a missing account |
| `Projection.CatchUpCompletes` | internal/projection/projector.go:41-52 | catch-up in log order fails exactly where the database does; if it does not, everything is processed and balances equal replay |
| `Projection.RowAfterApply` | internal/projection/projector.go:110-158 | one application: a right row stays right unless a settlement meets a missing row, and then it is stuck for good |
| `Projection.StatusRightIffInOrder` | internal/projection/projector.go:121-158 | after any deliveries a transfer's row (parties, amount, status, reason) is right if and only if its settlement never met a missing row |
| `PostgresStore.PgAppendOutcome` | internal/eventstore/postgres.go:40-63 | what the constraint does to a fitting batch in every case |
| `PostgresStore.AppendsAgreeIff` | internal/eventstore/postgres.go:40-63 | the constraint and the length check give the same answer and log if and only if the expected version lies within the stream |
| `PostgresStore.GapFreeIff` | migrations/001_schema.sql:17-18 | streams stay gap-free if and only if the expected version is not ahead of the stream |
| `PostgresStore.DeltaIsTail` | internal/eventstore/postgres.go:92-98 | the events after a version are the rest of the stream |
| `PostgresStore.SnapshotPlusDelta` | internal/eventstore/postgres.go:74-112 | an old snapshot plus events read later is the full replay at the later read |
| `PostgresStore.Postgres.Insert` | internal/eventstore/postgres.go:40-63 | all rows of a batch or none, with the first error |
| `PostgresStore.Postgres.Commit` | internal/eventstore/postgres.go:34-63 | a command's write succeeds exactly when the stream still ends at the expected version, and keeps the store sound |
| `PostgresStore.Postgres.Load` | internal/eventstore/postgres.go:74-112 | with anything in between the two reads, the full replay as of the second; it writes no event |
| `PostgresStore.Postgres.Scan` | internal/eventstore/postgres.go:191-205 | the loop returns the selected rows in order |
| `PostgresStore.Postgres.Upsert` | internal/eventstore/postgres.go:123-130 | a snapshot never goes back and is always the replay of a prefix |
| `PostgresStore.Postgres.SaveSnapshot` | internal/eventstore/postgres.go:114-131 | afterwards there is a snapshot at least as new as the stream was; racing snapshots keep the store sound; the table changes by what others do and nothing else |
| `PostgresStore.Postgres.Append` | internal/eventstore/postgres.go:25-72 | the transaction's answer and rows; after a success that ends on a multiple of fifty, a snapshot at least that new unless saving fails, and otherwise the snapshots as they were |
| `Bus.InMemory.Publish` | internal/bus/bus.go:111-120 | queues in the account's partition exactly if there is room, or drops exactly after the signal; what was offered and accepted |
| `Bus.InMemory.Deliver` | internal/bus/bus.go:99-103 | calls every handler once, in order |
| `Bus.InMemory.Drain` | internal/bus/bus.go:83-93 | after the signal every handler gets everything queued, in order |
| `Bus.RunKeeps` | internal/bus/bus.go:64-130 | every interleaving of publishers, workers and shutdown keeps that account of every partition |
| `Bus.OrderPerPartition` | internal/bus/bus.go:62-130 | for every handler and partition, received, in hand and queued together are what was accepted, in order across the partition's accounts; until shutdown is signalled that is all that was published |
| `Bus.OrderPerAccount` | internal/bus/bus.go:62-130 | a handler's events of an account are a prefix of the accepted ones without loss or repetition; none is left out before shutdown is signalled; a drained partition has delivered all |
| `Bus.ExitIsDrained` | internal/bus/bus.go:83-93 | when a worker leaves, the signal was given and every handler has had every event accepted for the partition |
| `Bus.ExitIsFinal` | internal/bus/bus.go:83-93 | after that no step gives a handler anything of the partition |
| `Bus.QueuesBounded` | internal/bus/bus.go:111-120 | over every run no partition holds more than its buffer |
| `Idempotency.MemIdempotency.Reserve` | internal/api/idempotency.go:91-99 | the first request gets the key, later ones its record |
| `Idempotency.MemIdempotency.Complete` | internal/api/idempotency.go:101-109 | records the answer under a reserved key |
| `Idempotency.Idempotent` | internal/api/server.go:235-280 | one request alone: refused exactly for a blank or too long key; run and recorded for a new key; for a taken one, unprocessable exactly if the request differs, told to wait exactly if it agrees and has no answer yet, and otherwise given the recorded status and body |
| `Idempotency.ReservedAnswer` | internal/api/server.go:251-273 | over every run a request starts its command exactly when none with its key has; otherwise it is refused, told to wait, or given the status and body of the one that started, by request and by what is on record |
| `Idempotency.RetryIsReplayed` | internal/api/server.go:256-271 | once an answer is on record, whatever happens in between, the same request is given exactly this status and body and a different one is refused |
| `Idempotency.FirstRequestRecorded` | internal/api/server.go:251-279 | a request with a valid new key runs and has its answer on record |
| `Idempotency.StartsOnceRepliesAlike` | internal/api/server.go:251-279 | over every interleaving, failures and crashes included, each key's command starts at most once, and every replay is the status and body recorded by that execution of the same request |
| `Idempotency.RecordsOnlyAdvance` | internal/api/idempotency.go:12-20 | a record never disappears, keeps its request hash, and is frozen once completed |
| `Idempotency.RecordLife` | internal/api/idempotency.go:91-109 | a new record is processing with no answer, changes once, to an answer, and never again |
| `RateLimiter.RateLimiter.Allow` | internal/api/ratelimit.go:35-55 | allowed exactly when the refilled level reaches one; the level it leaves |
| `RateLimiter.RateLimiter.Janitor` | internal/api/ratelimit.go:58-69 | drops exactly the buckets idle for more than five minutes |
| `RateLimiter.KeysIndependent` | internal/api/ratelimit.go:40-44 | a key's bucket depends on its own calls and the janitor only |
| `RateLimiter.LevelLater` | internal/api/ratelimit.go:46-48 | lazy refill equals refilling in between |
| `RateLimiter.SweepsNeverShow` | internal/api/ratelimit.go:57-69 | with 300*rate >= burst, every level over every trace is as without the janitor |
| `RateLimiter.WindowBound` | internal/api/ratelimit.go:35-55 | where the janitor cannot show, any window allows at most burst plus rate times its length |
| `RateLimiter.DeniedCallsDoNotCount` | internal/api/ratelimit.go:50-54 | where the janitor cannot show, leaving a denied call out changes no later level |
| `Janitor.EvictionHiddenIff` | internal/api/ratelimit.go:57-69 | no trace with a sweep each minute shows an eviction if and only if 300*rate >= burst or the burst is below one |
| `Janitor.WindowBoundIff` | internal/api/ratelimit.go:35-69 | the window bound holds over every such trace if and only if 300*rate >= burst or the burst is below one |
| `Janitor.DeniedNeverCountIff` | internal/api/ratelimit.go:35-69 | leaving denied calls out changes no later answer, over every such trace, if and only if 300*rate >= burst or the burst is below one |

## Left out

- JSON: events carry typed payloads; malformed data and unknown event types do not occur.
- SQL text, isolation levels, the driver and connections: tables are sequences, sets and maps, a transaction happens or does not.
- UUID casts: a value that is no UUID appears only as a database failure of the transaction that casts it, so `RecoveryIsLossless` speaks of boots without such failures.
- Ambiguous commits (internal/eventstore/postgres.go:61-63): an error means that nothing was written; without that, exactly-once settlement does not follow.
- Fairness, deadlock, back-off times and jitter: a waiting publisher or worker takes no step. That `process` and `mutate` end, and how undisturbed requests end, is proved.
- Several processes and a replacement of the bus by a broker: not in the code.
- `occurred_at`, `updated_at` and the monotonicity of `last_version`: publish order does not fix them.
- Queries (internal/query/query.go): thin reads of the tables.
- HTTP routing, JSON decoding, mapping of errors to statuses and logging (internal/api/server.go outside `idempotent`).
- The bits of ids, SHA-256 and FNV: ids are fresh values, hashes are values or any function.
- Delivery order in `LedgerSystem`: any event on the bus may be next, which is more than the bus allows; order per account is proved in `Bus`.
- Bus start-up checks (`Subscribe` after `Start`): one branch each.
- Floating point: tokens and times of the rate limiter are real numbers, and the minute ticker is exact.
- Integer width: balances are unbounded integers, with the int64 bound proved separately.
- The text of a reversal's reason where the source wraps an error with more words: the model carries the text of the error itself.
- The Postgres variant of the key store, and its row that vanishes between insert and select: the model covers keys that stay.
- The length of an idempotency key counts characters, not bytes.
