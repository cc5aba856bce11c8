# An event-sourcing library, modelled in Dafny

The library keeps domain events in one append-only log and builds everything else on it:
optimistic concurrency per aggregate, live streams, catch-up cursors, read models that tell a
waiting caller when its write is visible, personal data sealed under per-subject keys, and
erasure of a subject by destroying its key, with a hash-chained ledger as evidence. This
project models those parts and proves what they promise over whole runs.

`dafny verify dfyconfig.toml` checks the project.

## How the model is laid out

- `Common`, `Events`: identifiers, order-preserving filters, the event envelope (`Event` as a
  value, `DomainEvent` as the mutable object), and the per-call store options.
- `EventLog`: what a store promises, as functions of one sequence of events.
- `MemStore`: the in-memory store as a class (log, two indexes, counter) refining `EventLog`.
- `LiveStream`, `LiveProgress`: the same store under concurrency, one step at a time: a commit
  that holds the lock and sends to 64-slot channels, and subscribers that forward, filter,
  cancel, unregister; and that commits get through and subscribers catch up.
- `Cursor`: paging with the last GlobalID, over growing snapshots, and the Postgres drain loop.
- `Aggregate`, `Serializability`: record, replay, load, save; any number of clients at once.
- `PgCommit`, `PgRefines`, `PgProgress`, `PgStream`: Postgres commits as interleaved transactions
  over an advisory lock and a table with a unique constraint, their refinement to the single log,
  which of them get through, and a stream draining that table meanwhile.
- `Dispatcher`, `Notifier`, `ReadYourWrites`, `DispatchRuns`: the read side, what a closed
  channel means, and one event's way through it as one call of the dispatcher.
- `JsonFields`, `Users`, `Ledger`, `AccountRuns`: the two example domains and read models.
- `Pii`, `PiiStore`, `Shredding`, `CommitRefines`, `CommitProgress`: sealing, the sealed store as
  a class, its commits and erasures as an interleaved machine, the class refining the machine,
  and which commits get through.
- `LedgerErasure`, `SealedLedger`, `SaveProgress`, `ErasureRace`: the example ledger on the sealed
  store, up to clients that load, command and save concurrently while holders are erased, which
  saves get through, and the race between a slow save and an erasure.
- `ShredChain`, `PgLedger`, `ErasureVerifier`: the hash chain, the two erasure ledgers, the
  verifier.
- `KeyRings` (with `LabelFrame`), `RotationRuns`: key rings, the rotation of the wrapping key,
  and a rotation interleaved with the ring's other uses.
- `Export`, `TenantScope`: subject files and tenant scoping.

Concurrent parts are state machines: a function `Do` for one atomic step (a step that is not
enabled changes nothing), a function `Exec` for a whole run, an invariant, and theorems about
every run. Beside what no run can do wrong stands what a run left alone gets done: from any
reachable state, exactly when a commit, save, append, page, rotation or dispatch goes through.
Methods of the classes are proved against functions of the old state, and the theorems are about
those functions.

The cipher and the hash are parameters. Of the cipher (AES-GCM, NIST SP 800-38D, sections 7.1
and 7.2) the proofs assume only what each lemma lists: that decryption undoes encryption and that
a ciphertext is longer than its plaintext (`CiphersExist`: the two go together). That a ciphertext
does not open under another key is not assumed: where it would matter, the lemma says which
ciphertext the other key has to reject. Of the hash (SHA-256, section 6.2 of FIPS 180-4) nothing
is assumed; where a collision would matter the proof hands one back. Clocks, keys, nonces and
failures of outside calls are parameters too.

## Premises

- A batch belongs to one aggregate of one tenant and holds events not yet stored: the in-memory
  `Commit` keys the whole batch on its first event (es/memstore/eventstore.go:70).
- A stream is read and written under one tenant: while a tenant's own stream is empty and the
  shared one is not, `Load` answers with the shared one (`LoadReadsOwnStreamIff`).
- `Apply` changes nothing when it fails, and marshalling succeeds.
- An event is handed to a sealed store's Commit once, as recorded; issuing a key is one step. A
  refused Commit leaves its events sealed, so after a conflict the commands must be issued anew
  on a reloaded aggregate.

What the code does not keep, by these premises or in spite of them, is proved as the exact
condition and at an input:

| what goes wrong | exactly when | for example |
|---|---|---|
| an aggregate loaded from the shared stream is saved to the tenant's own | `FallbackSaveAcceptedIff`: that stream has as many events by then as the shared one had | `StaleFallbackSaveIsAccepted` |
| an event sealed twice does not read back | `SealedTwiceReadsBackIffUntouched`: it holds a declared field | `RetriedSampleReadsCiphertext` |
| a subject sealed anew after its shred makes its old events unreadable | `ReissuedKeyFailsIffRejected`, `ReadsExactly`: those with a ciphertext the new key rejects, over every run | `ReissuedKeyLosesSample` |
| an account can no longer be loaded, and its holder's erasure no longer be proved | `LoadIsSerialIffClear`, `ProvedIffRecorded`: an event of its stream is unreadable so; the holder has a key again | `TwoClientsLoseTheAccount`: two clients open it at once, one has its holder erased, and the other's refused save has sealed by then |
| a drained stream misses a row | `MissedIffLate`: a transaction commits a visible id at or below the cursor | `RowMissed` |
| the rows of the Postgres ledger fail the chain check | `RowsChainIffSecondsKept`: hash collisions aside, some stored time is in another second than the time given, as the last half microsecond of a second is (`ToMicrosKeepsSecondIff`, `LateErasureBreaksChain`) | `LateErasureOfSubject7` |
| a key forgotten during a rotation comes back | `ForgottenReturnsIffWritten`: it was forgotten after the rotation read it, not put again, and the rotation goes on to write it; none is at risk unless a Forget falls there (`AtRiskIffInWindow`) | `ForgottenKeyComesBack` |
| a key put during a rotation is lost | `KeysSafeIffHarmless`: the subject's turn is over or it was not listed, or it is in the rotation's hand with another key | `LatePutIsStranded` |

## Where the code and its comments disagree

The model follows the code.

- es/wrapped_keyring.go:135-140 says running `Rotate` again with the same new wrapper
  converges. The label check at lines 161-163 rejects what the failed run re-wrapped, so with
  two labels a re-run can succeed if and only if no stored blob carries the new one, and in
  general if and only if the re-wrapped blobs still open under the wrapper in force
  (`RerunConvergesIff`, `StoppedRotationCannotRerun`).
- es/erasure_ledger.go:104-106 says `Append` truncates the time to whole seconds. Neither
  ledger does; only the hashed bytes are truncated. A column of microseconds rounds the last
  half microsecond of a second up, and the ledger then fails its own check
  (`LateErasureBreaksChain`).
- es/tenant_store.go:12-16 says the bound tenant always wins. For a commit it decides only for
  events that carry no tenant of their own (`CommitStaysInTenantIff`, `ForeignEventEscapes`).
- es/wrapped_keyring.go:187-193 frames labels of any length, though only 65535 bytes fit the
  length field; a rotation to a longer label succeeds and no key is found again
  (`RotationKeepsAnswers`).

## Model

| member | source | states |
|---|---|---|
| `Events.ResolveStoreConfig` | es/store.go:98-104 | the options are folded in order onto an empty configuration |
| `Events.ResolveIs` | es/store.go:80-104 | the last tenant named wins, and the flag for all tenants stays once given |
| `Events.DomainEvent.constructor` | es/aggregate.go:131-139 | an envelope holds the value it was made from |
| `EventLog.CommitKeepsNumbering` | es/memstore/eventstore.go:81-90 | GlobalIDs stay exactly 1..n, and a commit only appends |
| `EventLog.CommitStreams` | es/memstore/eventstore.go:70-90 | a commit extends its own stream by its batch and no other stream |
| `EventLog.FilterAscending` | es/memstore/eventstore.go:129-149 | filtering keeps GlobalID order and keeps all and only the matching rows |
| `EventLog.CommitAcceptsIff` | es/memstore/eventstore.go:64-92 | a commit is accepted if and only if the last event of its stream is at the expected version, or there is none and 0 is expected; then its events follow the log, each under its own tenant or else the call's |
| `EventLog.LoadHolds` | es/memstore/eventstore.go:104-125 | a load answers with all of the aggregate's events under the call's tenant, or, where there are none, under the shared one; a call naming no tenant looks at untenanted events only |
| `EventLog.FetchAfterHolds` | es/memstore/eventstore.go:129-149 | a cursor read holds all and only the events past the cursor that are the tenant's or shared, in GlobalID order; a positive limit cuts it after that many |
| `EventLog.FetchByPiiHolds` | es/memstore/eventstore.go:214-234 | a lookup holds all and only the subject's events that are the tenant's or shared, and is not found exactly when there are none |
| `MemStore.SelectValues` | es/memstore/eventstore.go:84-88 | an index entry read as values is the log filtered by its key |
| `MemStore.Store.constructor` | es/memstore/eventstore.go:39-46 | a new store is valid and empty |
| `MemStore.Store.StampTenant` | es/memstore/eventstore.go:60-67 | in place, exactly the untenanted events of the batch get the call's tenant |
| `MemStore.Store.Append` | es/memstore/eventstore.go:81-90 | one event goes to the log and both indexes under the next GlobalID, and the indexes stay the log's filters |
| `MemStore.Store.Index` | es/memstore/eventstore.go:84-88 | appending to both indexes keeps them equal to the filters of the longer log |
| `MemStore.Store.StreamVersion` | es/memstore/eventstore.go:70-75 | the version compared is that of the stream's last event, or 0 |
| `MemStore.Store.Commit` | es/memstore/eventstore.go:53-98 | the log becomes what the specification says or the store is left untouched; the batch is stamped either way and numbered on success |
| `MemStore.Store.AppendAll` | es/memstore/eventstore.go:81-95 | the whole batch is appended in order with consecutive GlobalIDs, in place |
| `MemStore.Store.Load` | es/memstore/eventstore.go:104-125 | the tenant's stream, or the shared one when that is empty, or not found |
| `MemStore.Store.FetchAfter` | es/memstore/eventstore.go:129-149 | the events past the cursor that are the tenant's own or shared, at most limit when it is positive (`EventLog.FetchAfterHolds`) |
| `MemStore.Store.FetchByPiiID` | es/memstore/eventstore.go:214-234 | the subject's events that are the tenant's own or shared, in GlobalID order, or not found (`EventLog.FetchByPiiHolds`) |
| `LiveStream.StreamIsGapFree` | es/memstore/eventstore.go:81-95 | in every interleaving a subscriber has received an ascending prefix of its tenant's log, and until it is cancelled delivered + in hand + backlog + buffered + still to be sent is all of it |
| `LiveStream.SubscriberIsOwed` | es/memstore/eventstore.go:154-208 | what a subscriber receives is its tenant's or shared, and until it is cancelled every such event of the log has been received, is on its way or is being sent |
| `LiveProgress.SubscriberCatchesUp` | es/memstore/eventstore.go:176-205 | from any reachable state a subscriber that is not cancelled, left to its own turns, has soon received exactly its tenant's and the shared events of the log |
| `LiveProgress.CommitGetsThrough` | es/memstore/eventstore.go:53-98 | from any reachable state with the lock free and room in the channels, an acceptable batch of any size is logged whole and sent to every registered subscriber |
| `LiveStream.CommitsAreAtomic` | es/memstore/eventstore.go:53-98 | with the lock free the log is the accepted commits applied whole, one after another |
| `LiveStream.OnlyGrows` | es/memstore/eventstore.go:154-208 | no step takes back a logged or received event |
| `LiveStream.AppendKeepsSubInv` | es/memstore/eventstore.go:90-95 | a logged event is owed to every registered subscriber and to nobody else, which keeps each pipeline complete |
| `LiveStream.TakeLiveKeeps` | es/memstore/eventstore.go:186-205 | taking an event from the channel and dropping it if invisible loses nothing visible |
| `LiveStream.SubscribeStep` | es/memstore/eventstore.go:160-175 | the snapshot taken under the lock and the registration leave no gap between them |
| `LiveStream.EveryRun` | es/memstore/eventstore.go:154-208 | the invariant of log, writer and subscribers holds in every reachable state |
| `Cursor.PageContents` | es/memstore/eventstore.go:129-149 | a page is exactly the visible rows between the old cursor and the new |
| `Cursor.EmittedAscending` | es/pgstore/eventstore.go:472-491 | ids handed on are strictly increasing, none twice, whatever snapshots were read |
| `Cursor.EmittedSound` | es/pgstore/eventstore.go:472-491 | only visible rows of the table at or below the cursor are handed on |
| `Cursor.CompleteIffNoLateRow` | es/pgstore/eventstore.go:442-520 | no visible row is missed if and only if none became visible at or below the cursor's position at that time |
| `Cursor.InIdOrderComplete` | es/pgstore/eventstore.go:442-520 | ids becoming visible in order is enough for that |
| `Cursor.PagingNeverGaps` | es/memstore/eventstore.go:129-149 | paging while commits land gives the tenant's log with no gap or repeat, and all of it once a page is empty |
| `Cursor.NextPage` | es/memstore/eventstore.go:129-149 | a page moves the cursor forward by exactly its rows; an empty one means nothing is left |
| `Cursor.PageAll` | es/memstore/eventstore.go:129-149 | reading page after page with any limit of at least 1 ends, with the whole visible log |
| `Cursor.Send` | es/pgstore/eventstore.go:480-488 | rows are forwarded one by one until the context is cancelled, and the cursor is at the last one taken |
| `Cursor.DrainPage` | es/pgstore/eventstore.go:472-491 | one page is fetched past the cursor and forwarded, whole unless cancelled |
| `Cursor.Drain` | es/pgstore/eventstore.go:472-491 | one page per snapshot until one is empty, as the specification of paging; a cancellation leaves the consumer a part of the next page and the cursor at its end |
| `Aggregate.ReplayConcat` | es/aggregate.go:154-174 | replaying a history in two parts is replaying it whole, failures included |
| `Aggregate.ReplayPush` | es/aggregate.go:154-174 | the log's last event extends the replay of its own aggregate only |
| `Aggregate.AggregateRoot.constructor` | es/aggregate.go:11-33 | a new aggregate is at version 0 with nothing buffered |
| `Aggregate.AggregateRoot.RecordThat` | es/aggregate.go:118-147 | an accepted event changes state and version and is buffered under that version; a refused one changes nothing |
| `Aggregate.AggregateRoot.LoadFromHistory` | es/aggregate.go:154-174 | the state is the replay of the history and the version that of its last event; at the first failure both are those of the events before it |
| `Aggregate.Load` | es/repository.go:36-55 | a fresh aggregate holding the replay of what the store loads |
| `Aggregate.Save` | es/repository.go:63-76 | commits against the version before the buffer and clears it on success only; on a conflict the buffer stays, stamped |
| `Serializability.Serializable` | es/repository.go:36-76 | in every interleaving each stream's versions are 1..n, its events are those the saved commands emit run one after another, and replay succeeds with that serial state |
| `Serializability.LoadReturnsSerialState` | es/repository.go:36-55 | outside the fallback a load never fails to replay and gives the serial state and version |
| `Serializability.LoadHoldsSerialState` | es/repository.go:36-55 | a client that loads, outside the fallback, holds the serial state at the stream's version, nothing unsaved |
| `Serializability.IssueRecords` | es/aggregate.go:118-147 | a command that is accepted adds its event, with its subject and under the next version, to what will be saved; a refused one changes nothing |
| `Serializability.SaveSucceedsIff` | es/repository.go:63-76 | in every run a save goes through if and only if nobody has saved to the stream since the load; the stream gains exactly what was recorded, or the client keeps it to retry |
| `Serializability.LoadReadsOwnStreamIff` | es/memstore/eventstore.go:110-117 | a tenant's load answers with its own stream exactly when it does not fall back |
| `Serializability.FallbackSaveAcceptedIff` | es/memstore/eventstore.go:70-78 | at any later moment of the run a save of what was loaded through the fallback is accepted exactly when the own stream is as long as the shared one was |
| `Serializability.StaleFallbackSaveIsAccepted` | es/memstore/eventstore.go:104-125 | a run in which it is, on a state replayed from the other stream |
| `Serializability.FallbackSaveConflicts` | es/memstore/eventstore.go:70-78 | it conflicts as long as the own stream is still empty |
| `Serializability.EmittedReplays` | es/aggregate.go:118-173 | what commands emit replays to the state they reached: replay and live application agree |
| `Serializability.TipCommit` | es/repository.go:69-73 | a batch numbered from the current version commits at the tip and keeps versions contiguous |
| `Serializability.SaveExtendsStream` | es/repository.go:63-76 | a save that succeeds was built on the stream's current tip, and appends what its commands emit there |
| `Serializability.GrowthKeepsClientInv` | es/repository.go:63-76 | other clients' commits never invalidate what a client holds |
| `Serializability.EveryRun` | es/repository.go:36-76 | the invariant of streams and clients holds in every reachable state |
| `PgCommit.VersionsContiguous` | es/pgstore/eventstore.go:252-381 | in every interleaving each aggregate's committed versions are 1, 2, 3, ... in commit order |
| `PgCommit.OneWinner` | es/pgstore/eventstore.go:326-345 | of the commits expecting the same version of an aggregate at most one succeeds (that one does succeed: `PgProgress.CommitsIffLogAccepts`) |
| `PgCommit.AllOrNothing` | es/pgstore/eventstore.go:282-301 | the table is exactly the committed batches, each whole; one that rolled back left no row |
| `PgCommit.CheckNeverRaces` | es/pgstore/eventstore.go:326-375 | with one tenant per aggregate a passed version check stays true until the transaction ends, so no insert meets the unique constraint |
| `PgCommit.VersionQuery` | es/pgstore/eventstore.go:330-345 | the scoped MAX query never exceeds the aggregate's length, and equals it when all rows are in scope |
| `PgCommit.TakenIff` | es/pgstore/eventstore.go:151-161 | over contiguous rows the unique constraint rejects exactly the versions 1..n |
| `PgCommit.CommitRows` | es/pgstore/eventstore.go:362-380 | committing a whole batch extends its aggregate and leaves every other aggregate's rows |
| `PgCommit.EveryRun` | es/pgstore/eventstore.go:252-381 | the invariant of rows, locks and transactions holds in every reachable state |
| `PgRefines.RefinesOneLog` | es/pgstore/eventstore.go:252-381 | with one tenant per aggregate the table, ids aside, is what committing the successful requests one by one to a single log gives, and none would conflict there; what the single log accepts also commits: `PgProgress.CommitsIffLogAccepts` |
| `PgRefines.AcceptedByLog` | es/pgstore/eventstore.go:330-345 | a request that passed the version check is one the single log accepts |
| `PgProgress.CheckPassesIff` | es/pgstore/eventstore.go:326-345 | in every run, however many tenants share an aggregate, a locked transaction passes its check if and only if the version it expects is the highest in scope, or 0 where there is no row |
| `PgProgress.CheckPassesIffAtTip` | es/pgstore/eventstore.go:326-345 | with one tenant per aggregate: if and only if it expects as many as the aggregate has rows |
| `PgProgress.InsertLands` | es/pgstore/eventstore.go:348-377 | once checked, a transaction's next insert neither conflicts nor waits, whatever the others do, and writes the next event of its batch under the next id |
| `PgProgress.CommitsIffLogAccepts` | es/pgstore/eventstore.go:252-381 | from any reachable state a commit whose lock is free and that nobody interrupts succeeds if and only if the single log accepts it; the table gains its stamped batch under the next ids, or nothing |
| `PgStream.MissedIffLate` | es/pgstore/eventstore.go:442-520 | over interleaved transactions and pages: ids handed on ascend, and a row is missed if and only if a transaction committed a visible id at or below the cursor |
| `PgStream.PageHandsOnNext` | es/pgstore/eventstore.go:473-494 | in every run a page hands on the rows due next, in id order: all of them, or as many as a page holds |
| `PgStream.RowMissed` | es/pgstore/eventstore.go:362-377 | a run in which id 2 commits, is drained, and id 1 commits: its row is never handed on |
| `PgStream.StepKeepsIDs` | es/pgstore/eventstore.go:362-375 | no two rows, committed or in progress, ever share an id |
| `PgStream.ByIDOrders` | es/pgstore/eventstore.go:415-434 | sorting rows with distinct ids gives them all, in strictly ascending order |
| `Dispatcher.EventDispatcher.HandleSideEffects` | es/dispatcher.go:170-173 | only the side-effect switch changes |
| `Dispatcher.EventDispatcher.Subscribe` | es/dispatcher.go:106-110 | a listener joins the end of the registration order |
| `Dispatcher.EventDispatcher.GetListenersForEvent` | es/dispatcher.go:112-123 | all and only the listeners whose pattern matches, in registration order |
| `Dispatcher.PatternMatchesIff` | es/dispatcher.go:125-134 | a pattern matches its own name and, ending in `*`, every name that what comes before it is a prefix of |
| `Dispatcher.CalledAre` | es/dispatcher.go:112-123 | the listeners an event calls of a kind are exactly the registered ones of that kind whose pattern matches, each as often as registered and in registration order |
| `Dispatcher.LookupCalls` | es/dispatcher.go:190-200 | telling the kinds apart among the listeners looked up calls exactly those |
| `Dispatcher.EventDispatcher.Dispatch` | es/dispatcher.go:190-215 | the projectors called run in order, each on what the one before left, up to and including the first failure; with side effects on exactly the reactors called are started, whatever the projectors did, and none with them off |
| `Dispatcher.ProgressPush` | es/dispatcher.go:194-213 | after a failure further projectors are skipped; before one, each runs on the latest state |
| `Dispatcher.WelcomeMailIsStarted` | examples/user/main.go:106-111 | the example's email reactor is started for a registered user |
| `DispatchRuns.ChainIsLookup` | es/dispatcher.go:112-123 | the read-side machine runs exactly the listeners the dispatcher looks up, in its order |
| `DispatchRuns.DispatchIsOneCall` | es/dispatcher.go:190-215 | an event's way through the machine leaves views and notifier as one call of Dispatch is proved to |
| `DispatchRuns.NobodyWaitsInVain` | es/notifier.go:58-134 | once an event has gone through a chain holding the notifier with no failure, every channel for its aggregate at its version or below is closed for good, asked for before, meanwhile or after |
| `DispatchRuns.AwaitAsks` | es/notifier.go:58-74 | asking for a channel makes one and touches nothing else |
| `Waiters.EveryHistory` | es/notifier.go:58-103 | after any calls a channel is closed exactly when some notification, before or after Subscribe, reached its version; the open ones wait, in subscription order |
| `Waiters.MaxNotifiedMeaning` | es/notifier.go:76-82 | the recorded version was notified and is the highest notified |
| `Waiters.SubscribeKeepsConsistent` | es/notifier.go:58-70 | a subscription closes at once or waits, never both, and disturbs no other channel |
| `Waiters.NotifyKeepsConsistent` | es/notifier.go:76-103 | a notification closes all and only the satisfied channels of its aggregate |
| `Waiters.HistoryConsistent` | es/notifier.go:58-103 | lastProjected is the maximum notified, and every stored waiter is open and above it |
| `Notifier.EventNotifier.constructor` | es/notifier.go:47-52 | a new notifier is consistent and empty |
| `Notifier.EventNotifier.Close` | es/notifier.go:91 | a channel is closed only while open, so never twice |
| `Notifier.EventNotifier.Subscribe` | es/notifier.go:58-70 | the object's state follows the specification, under the lock |
| `Notifier.EventNotifier.Compact` | es/notifier.go:88-96 | one pass over the same array closes the satisfied waiters and keeps all and only the others, in order |
| `Notifier.EventNotifier.Notify` | es/notifier.go:76-103 | the object's state follows the specification, dropping an emptied list |
| `ReadYourWrites.ClosedMeansProjected` | es/notifier.go:104-134 | in every interleaving, failed dispatches included, a closed channel for (id, v), v >= 1, means the view of id is at v or later |
| `ReadYourWrites.ClosedMeansReplayed` | es/notifier.go:104-134 | a closed channel for (id, v) means the view is the user its replay gives, at a version of at least v, from the first events of its stream |
| `ReadYourWrites.SafeIffGuarded` | es/dispatcher.go:190-215 | that holds for events of a name if and only if a view update registered for it precedes every notifier registered for it |
| `ReadYourWrites.ExampleIsSafe` | examples/user/main.go:106-111 | the example's registration order meets the condition for all its events |
| `ReadYourWrites.UserProjectorTracks` | examples/user/adapters/readmodel/memory.go:64-117 | handling an event moves its own view to the event's version and no other view |
| `ReadYourWrites.EveryRun` | es/dispatcher.go:190-215 | no aggregate is ever notified past its view, in any reachable state |
| `Users.UserRoundTrips` | examples/user/domain/events.go:24-77 | every user event decodes to itself |
| `Users.UserReplaysIff` | examples/user/domain/user.go:44-75 | a history replays exactly when all of it can be read and it starts with its one registration |
| `Users.UserIsLatest` | examples/user/domain/user.go:44-75 | the user has the email and the name that the last event carrying one gave |
| `Users.ReadModel.Upsert` | examples/user/adapters/readmodel/memory.go:31-35 | one view is replaced |
| `Users.ReadModel.Get` | examples/user/adapters/readmodel/memory.go:37-42 | the view, if there is one |
| `Users.ReadModel.Project` | examples/user/adapters/readmodel/memory.go:64-117 | the views follow the handler's specification; an event it cannot read changes none |
| `Users.ProjectOwn` | examples/user/adapters/readmodel/memory.go:64-117 | an event that replay accepts is always projected, and keeps the view in line with the replayed user |
| `Users.ViewsEqualReplay` | examples/user/adapters/readmodel/memory.go:64-117 | over any interleaved users each view is the replayed user at its last version, an unrecoverable email shown as erased |
| `Ledger.AccountRoundTrips` | examples/ledger/domain/events.go:22-71 | every account event decodes to itself |
| `Ledger.AccountReplaysIff` | examples/ledger/domain/account.go:45-72 | a history replays exactly when all of it can be read and it starts with its one opening, whose holder the account has |
| `Ledger.StatementBook.Upsert` | examples/ledger/main.go:83-87 | one account's view is replaced |
| `Ledger.StatementBook.Project` | examples/ledger/main.go:108-146 | the book follows the handler's specification; an event it cannot read changes nothing |
| `Ledger.ReadKeepsAmounts` | examples/ledger/domain/events.go:30-38 | amounts read the same after the holder's erasure |
| `Ledger.ProjectOwn` | examples/ledger/main.go:108-146 | an event that replay accepts is always projected, and keeps the view's balance and name in line |
| `Ledger.BookEqualsReplay` | examples/ledger/main.go:108-146 | over any interleaved accounts, erased or not, each balance is the replayed one and an erased holder shows as such |
| `Ledger.BalanceMoves` | examples/ledger/domain/account.go:45-72 | an event that Apply accepts moves the balance by its amount, wrapped to 64 bits, and nothing else does |
| `Ledger.BalanceIsTotal` | examples/ledger/domain/account.go:45-72 | the balance is the opening balance plus every amount, wrapped to 64 bits |
| `AccountRuns.IssueKeepsPermitted` | examples/ledger/domain/account.go:84-135 | whatever a command records names a holder and moves a non-zero amount |
| `AccountRuns.CommandRecords` | examples/ledger/domain/account.go:84-135 | what each command records, field by field, and does to the account: an opening sets holder and balance once, a transaction moves the balance by exactly its amount in 64 bits, a refused command records nothing |
| `AccountRuns.BookOfAnyRun` | examples/ledger/main.go:108-146 | however clients interleave and conflict, the book shows each account's serial balance, the sum of what the commands recorded |
| `Pii.Seal` | es/pii.go:100-157 | in place: the event becomes the sealed event with its manifest and its subject has a key (`SealSeals` says of which events, and what that is); on any failure the event is left alone, though the key may have been issued |
| `Pii.SealSeals` | es/pii.go:100-157 | where nothing it needs fails, every event that names a subject and whose type declares fields gets their list as manifest and each of them encrypted as often as listed, under the subject's key or a new one, and reads back; every other event is left alone |
| `Pii.ChangedEmailIsSealed` | es/pii.go:100-157 | an address changed by version 2 of a user is encrypted under the new key of subject 7 |
| `Pii.SealFailsWith` | es/pii.go:113-150 | which failure an event that is to be sealed ends in, and that no key is issued when one cannot be read, drawn or stored |
| `Pii.SealLoop` | es/pii.go:128-142 | the loop encrypts the declared fields that are there, or names the first failure |
| `Pii.Open` | es/pii.go:178-231 | a fresh copy, decrypted, flagged or left as it is, or the error, a key that cannot be read included; the stored event is not touched |
| `Pii.SealAddsLayers` | es/pii.go:128-142 | a field declared k times gains k layers, an absent or undeclared one none |
| `Pii.UnwrapPeels` | es/pii.go:208-223 | each occurrence of a name takes the outermost layer off |
| `Pii.OpenTakesLayers` | es/pii.go:208-223 | fields do not interfere: each is opened as often as it is declared |
| `Pii.OpenUndoesSeal` | es/pii.go:100-231 | opening undoes sealing for every document and every list of names, absent and repeated names included |
| `Pii.OpenUndoesSealEvent` | es/pii.go:178-231 | with the key at hand a read is the event as given to Seal; without it the sealed event, flagged, and no error |
| `Pii.OpenFailsIffRejected` | es/pii.go:208-228 | opening fails at any declared field the key rejects, and where names are listed once at nothing else; fields not named stay |
| `Pii.OtherKeyOpens` | es/pii.go:217-220 | under another key nothing is lost where nothing was encrypted; otherwise opening fails unless these very ciphertexts open under both keys |
| `Pii.ReissuedKeyFailsIffRejected` | es/pii.go:113-121 | sealing a forgotten subject again makes exactly those of its older events unreadable that hold a ciphertext the new key rejects |
| `Pii.SealedTwiceReadsBackIffUntouched` | es/pii.go:128-154 | an event sealed twice reads back as recorded if and only if it holds no declared field |
| `Pii.ReissuedKeyLosesSample` | es/pii.go:217-220 | a user event that reads back flagged once forgotten, and not at all once its subject is sealed anew, unless its one ciphertext opens under both keys |
| `Pii.RetriedSampleReadsCiphertext` | es/pii.go:128-154 | a user event that, sealed by a refused commit and its retry, reads back as ciphertext, unflagged |
| `Pii.CiphersExist` | es/pii.go:239-278 | the laws assumed of the cipher hold together, even with every ciphertext opening under one key only |
| `PiiStore.SealingStops` | es/pii_store.go:80-90 | after the first event that cannot be sealed nothing more is |
| `PiiStore.SealingSucceeds` | es/pii_store.go:80-90 | where each event with declared fields is an object and nothing that sealing it needs fails, the whole batch is sealed |
| `PiiStore.ErasingStops` | es/pii_store.go:96-115 | after the first erasure that fails no more keys are forgotten or records appended |
| `PiiStore.SealingKeepsEnvelopes` | es/pii_store.go:80-90 | sealing changes payloads and manifests only, and only up to where it got |
| `PiiStore.OpenAllPointwise` | es/pii_store.go:122-132 | a batch opens exactly when each event does, and to those |
| `PiiStore.FailuresOnlyFail` | es/pii_store.go:122-132 | a key that cannot be read only takes answers away: what is answered is what would be |
| `PiiStore.PiiEventStore.constructor` | es/pii_store.go:51-57 | wraps the given store, registry, keys and optional ledger |
| `PiiStore.PiiEventStore.SealNext` | es/pii_store.go:80-90 | one event is sealed by what its registered type declares |
| `PiiStore.PiiEventStore.SealAll` | es/pii_store.go:80-90 | the batch is sealed in place up to the first failure |
| `PiiStore.PiiEventStore.EraseAll` | es/pii_store.go:96-115 | each committed erasure request has its subject's key forgotten and, where a ledger is mounted, a record appended, up to the first failure of either |
| `PiiStore.PiiEventStore.EraseNext` | es/pii_store.go:96-115 | one request: nothing if Forget fails, the key gone but no record if Append fails, else both |
| `PiiStore.PiiEventStore.Commit` | es/pii_store.go:79-118 | the log, the keys, the ledger and the error when sealing failed, the store refused, shredding stopped, or all was done |
| `PiiStore.PiiEventStore.CommitSealed` | es/pii_store.go:92-118 | no key is forgotten and nothing recorded unless the store accepted |
| `PiiStore.PiiEventStore.OpenEach` | es/pii_store.go:122-132 | fresh opened copies in order, or the first failure |
| `PiiStore.PiiEventStore.Load` | es/pii_store.go:152-158 | the wrapped store's answer, opened |
| `PiiStore.PiiEventStore.FetchAfter` | es/pii_store.go:162-168 | the wrapped store's answer, opened |
| `PiiStore.PiiEventStore.FetchByPiiID` | es/pii_store.go:139-149 | the wrapped store's answer, opened |
| `Shredding.ReadsExactly` | es/pii.go:113-231 | over every run, whatever it does, what a read gives: the event as recorded, the sealed event flagged while the subject has no key, or, once another key was issued, an error exactly when it rejects one of the event's ciphertexts (which events are sealed: `DeclaredFieldsAreEnciphered`) |
| `Shredding.DeclaredFieldsAreEnciphered` | es/pii.go:100-157 | over every run each logged event that names a subject and whose registered type declares fields carries their list and has each encrypted as often as listed, under one key; without a key it is read as that, flagged; every other event is logged and read as recorded |
| `Shredding.PlainWasGiven` | es/pii_store.go:79-94 | the events as recorded are those commits were handed, with the call's tenant and their place in the log |
| `Shredding.EveryReadAnswers` | es/pii_store.go:79-132 | in a run that seals no event for a subject already shredded every read succeeds: the event as recorded while its subject's key is held, the sealed event flagged once it is forgotten, all but the declared fields as recorded (likewise) |
| `Shredding.WholeLogReads` | es/pii_store.go:122-132 | and so does reading the whole log |
| `Shredding.OnlyOwnKeyChangesRead` | es/pii_store.go:79-115 | over every run a step changes what reading an event gives only by forgetting its own subject's key or by issuing that subject, which has none, another: shredding one subject changes no read of any other |
| `Shredding.NothingUndone` | es/pii_store.go:79-118 | over every run the log, the ledger and the subjects shredded only grow |
| `Shredding.ShreddedForGood` | es/pii.go:233-237 | in a run that seals nothing for shredded subjects none ever gets a key again |
| `Shredding.RunKeepsKept` | es/pii.go:113-121 | such a run keeps each subject's one key, for every event sealed, stored or not, until it is forgotten |
| `Shredding.SealingGivesSealOf` | es/pii.go:100-157 | sealing relates the stored event to the recorded one under the key the subject has then |
| `Shredding.SealKeepsInv` | es/pii_store.go:80-90 | sealing one event of one commit, among any others in progress, keeps the invariant |
| `Shredding.StoreKeepsInv` | es/pii_store.go:92-94 | storing a sealed batch, or having it refused, keeps the invariant |
| `Shredding.ForgetKeepsInv` | es/pii_store.go:104-109 | forgetting a key among other commits in progress keeps it |
| `Shredding.RecordKeepsInv` | es/pii_store.go:110-114 | so does recording the erasure, and the chain stays valid |
| `Shredding.EveryRun` | es/pii_store.go:79-118 | the invariant of log, keys, ledger and commits in progress holds in every reachable state of every run |
| `CommitRefines.SealStepMatches` | es/pii_store.go:80-90 | one machine step is one turn of Commit's first loop |
| `CommitRefines.EraseStepMatches` | es/pii_store.go:96-115 | an event's machine steps are one turn of its second loop, failures included |
| `CommitRefines.CommitIsARun` | es/pii_store.go:79-118 | the stores a call of Commit leaves are those of a run of the interleaved machine, whatever the outcome, whoever was shredded before, with a ledger mounted or without |
| `CommitProgress.CommitsIffPlainAccepts` | es/pii_store.go:79-118 | from any reachable state a call that nobody interrupts and nothing fails for goes through if and only if a plain store holding the log as recorded would accept the batch as recorded; that log grows by what it would add, and the call returns nil |
| `LedgerErasure.ReadsAreReadOf` | examples/ledger/domain/events.go:30-61 | without sealing for erased holders, what the sealed store returns of each ledger event is a read the projector is built for |
| `LedgerErasure.BookSurvivesErasure` | examples/ledger/main.go:108-146 | after any such run of commits and erasures, if the recorded histories replay, a rebuilt book has every account's recorded balance |
| `LedgerErasure.ReplaySurvivesErasure` | es/pii.go:164-170 | replaying an account from the store keeps working, with the same balance, after its holder is erased |
| `SealedLedger.AmountsSuffice` | examples/ledger/domain/account.go:45-72 | names play no part in whether a history replays, nor in its balance |
| `SealedLedger.CommitsAgree` | es/pii_store.go:79-94 | the sealed store accepts a batch exactly when a plain store would accept it as recorded |
| `SealedLedger.LoadsAgreeIffClear` | es/pii_store.go:152-158 | outside the fallback a repository loads from the sealed store what it would from a plain one, names aside, exactly when every event of the stream reads back; otherwise it fails |
| `SealedLedger.Simulates` | es/pii_store.go:79-158 | every run of the sealed ledger, failed loads included, is, seen from its clients, a run of clients of a plain store: what is saved is always serial |
| `SealedLedger.LoadIsSerialIffClear` | es/repository.go:36-55 | over every run a load over the sealed store gives the serial version and balance exactly when every event of the stream reads back, which all do as long as nothing is sealed for a holder already erased |
| `SealedLedger.BookIsSerial` | examples/ledger/main.go:108-146 | in such a run a book rebuilt from the sealed store at any moment shows every account its serial balance, erased holders as erased |
| `SaveProgress.SavesIffAtTip` | es/repository.go:63-76 | from any reachable state a save of any size over the sealed store that nobody interrupts and nothing fails for goes through if and only if nobody has saved to the stream since the load; it records what a plain store would, and otherwise logs nothing |
| `SaveProgress.LoadsSerialIffClear` | es/repository.go:36-55 | a client's load holds the serial account if every event of the stream reads back, and fails otherwise |
| `SaveProgress.IssuesCommand` | examples/ledger/domain/account.go:84-135 | what a command does to the amounts a client holds, and that what it records names the account as its subject |
| `ErasureRace.RefusedSaveReseals` | es/pii_store.go:79-94 | from any state of any run, a refused save of an event that seals for a subject without a key leaves it a new one, and turns the subject's flagged reads into errors where that key rejects them |
| `ErasureRace.TwoClientsLoseTheAccount` | es/pii_store.go:79-118 | the run of two clients opening one account in which this happens: a key for the shredded holder, no erasure proved, the account not loadable, the log not readable |
| `ErasureRace.SavesForClient` | es/repository.go:63-76 | what a client's save that nobody gets in the way of does to the stores and to the client |
| `ShredChain.BigEndianSpells` | es/erasure_ledger.go:50-57 | the bytes spell the number, most significant first |
| `ShredChain.LayoutSpells` | es/erasure_ledger.go:36-57 | where each field is in the 64 bytes and what number its bytes spell, times before the epoch included |
| `ShredChain.LayoutInjective` | es/erasure_ledger.go:36-57 | equal hash inputs have equal link, subject, second and origin |
| `ShredChain.ShredRecordHash` | es/erasure_ledger.go:50-57 | the 64-byte buffer filled field by field is the specified layout |
| `ShredChain.CheckShredChain` | es/erasure_ledger.go:65-78 | passes exactly the chains in which every link holds, and otherwise names the first that does not |
| `ShredChain.AppendKeepsChain` | es/memstore/erasure_ledger.go:30-47 | a valid chain stays one exactly when the new record links to its tail and hashes itself |
| `ShredChain.PrefixesChained` | es/erasure_ledger.go:65-78 | every prefix of a valid chain passes, so records cut off the end go unseen |
| `ShredChain.Compare` | es/erasure_ledger.go:65-78 | two valid chains with one last hash agree record by record, to the second, or a collision or an input hashing to zero is exhibited |
| `ShredChain.ChainedIffSecondsKept` | es/erasure_ledger.go:16-22 | a valid chain whose stored times changed is valid exactly when each kept its second, or that record exhibits a collision |
| `ShredChain.ErasureLedger.constructor` | es/memstore/erasure_ledger.go:24-26 | a new ledger is a valid, empty chain |
| `ShredChain.ErasureLedger.Append` | es/memstore/erasure_ledger.go:30-47 | one record linked to the tail is added, and a valid chain stays valid |
| `ShredChain.ErasureLedger.Entries` | es/memstore/erasure_ledger.go:51-57 | every record, oldest first |
| `PgLedger.RowsAlwaysChain` | es/pgstore/erasure_ledger.go:60-103 | if every time given keeps its second in the column, the committed rows pass the chain check after every run |
| `PgLedger.RowsChainIffSecondsKept` | es/pgstore/erasure_ledger.go:60-137 | however appenders interleave and roll back, the rows are in id order and pass the check exactly when each stored time kept its second, collisions aside |
| `PgLedger.RowsAreAppends` | es/pgstore/erasure_ledger.go:60-103 | after every run the rows are, in commit order, the entries of the committed transactions, each once, with the subject, origin and time given; hashed, they are the in-memory ledger after appending those entries |
| `PgLedger.AppendsWhenFree` | es/pgstore/erasure_ledger.go:60-103 | from any reachable state with the lock free, an append that nobody interrupts adds its row, linked to the last, and gives the lock back |
| `PgLedger.ToMicrosKeepsSecondIff` | es/pgstore/erasure_ledger.go:39-54 | a column of microseconds moves exactly the last half microsecond of a second into the next |
| `PgLedger.LateErasureBreaksChain` | es/pgstore/erasure_ledger.go:60-103 | one erasure in the last half microsecond of any second leaves a ledger that fails the check, a collision aside |
| `PgLedger.LateErasureOfSubject7` | es/pgstore/erasure_ledger.go:60-103 | as subject 7's does, by event 42, 400 nanoseconds before the second is out |
| `PgLedger.NewestIsLast` | es/pgstore/erasure_ledger.go:73-87 | the row with the highest id is the last one committed |
| `PgLedger.StepKeepsInv` | es/pgstore/erasure_ledger.go:60-103 | between lock and commit the tail that was read stays the tail, whatever the column does to times |
| `ErasureVerifier.Verifier.constructor` | es/erasure_ledger.go:161-163 | ties together the events, the keys and the ledger |
| `ErasureVerifier.Verifier.CollectErasures` | es/erasure_ledger.go:182-186 | the subject's records, in ledger order |
| `ErasureVerifier.Verifier.CheckFlags` | es/erasure_ledger.go:204-211 | whether every manifest-bearing event is flagged |
| `ErasureVerifier.Verifier.Verify` | es/erasure_ledger.go:172-221 | where nothing fails to be read, no error exactly when the chain is valid, a record exists, the key is gone and every manifest-bearing event is unrecoverable; in every case the first unmet condition or failed read, with the proof as far as it was checked |
| `ErasureVerifier.Verifier.CheckEvents` | es/erasure_ledger.go:195-212 | whether the subject's events are unrecoverable, vacuously when there are none, or why they cannot be read |
| `ErasureVerifier.UnrecoverableIffManifestsName` | es/erasure_ledger.go:195-212 | with the key gone every read succeeds, and the events are unrecoverable if and only if none carries a manifest naming nothing |
| `ErasureVerifier.ProvedIffRecorded` | es/erasure_ledger.go:172-221 | at any moment of every run erasure is proved for exactly the subjects on record that have no key, which is all of them unless one was sealed anew; each record comes from a logged request, and a subject never erased has none |
| `ErasureVerifier.CommittedErasureIsProved` | es/pii_store.go:92-117 | once a commit with an erasure request has returned nil a record naming that event is there for good, and Verify proves the erasure exactly while the subject is not issued another key |
| `LabelFrame.EncodeBuffer` | es/wrapped_keyring.go:187-193 | the buffer filled in place is the frame |
| `LabelFrame.DecodeUndoesEncode` | es/wrapped_keyring.go:187-205 | a label survives framing exactly when it is shorter than 65536 bytes |
| `LabelFrame.DecodeOfEncode` | es/wrapped_keyring.go:187-205 | what a frame of any label decodes to: the label cut to its length field, the rest as blob |
| `LabelFrame.EncodeUndoesDecode` | es/wrapped_keyring.go:187-205 | every accepted byte string is the frame of what it decodes to |
| `LabelFrame.RejectsNonFrames` | es/wrapped_keyring.go:196-205 | exactly the byte strings that frame nothing are rejected |
| `KeyRings.KeyRing.Get` | es/memstore/keyring.go:27-31 | the subject's key, if any |
| `KeyRings.KeyRing.Put` | es/memstore/keyring.go:33-38 | one subject's key is set |
| `KeyRings.KeyRing.Forget` | es/memstore/keyring.go:40-45 | one subject's key is gone |
| `KeyRings.KeyRing.Subjects` | es/memstore/keyring.go:49-57 | every subject with a key, once |
| `KeyRings.WrappedKeyRing.Get` | es/wrapped_keyring.go:82-104 | none, the unwrapped key, or the first reason it cannot be read, the store's failure included |
| `KeyRings.WrappedKeyRing.Put` | es/wrapped_keyring.go:108-117 | what is put is what Get answers if the frame can hold the label; nothing else changes, and nothing at all on an error |
| `KeyRings.WrappedKeyRing.Forget` | es/wrapped_keyring.go:122-127 | the subject has no key and nothing else changes, or the store failed and nothing does |
| `KeyRings.WrappedKeyRing.Rewrap` | es/wrapped_keyring.go:147-176 | one blob is re-wrapped with its key kept, or untouched with an error, as for a subject forgotten since the listing |
| `KeyRings.WrappedKeyRing.RewrapAll` | es/wrapped_keyring.go:151-176 | the loop re-wraps every listed blob or stops with the rest untouched, over readable blobs only for a failure of a call it made |
| `KeyRings.WrappedKeyRing.Rotate` | es/wrapped_keyring.go:141-180 | success re-wraps every key and switches; failure leaves the wrapper, and every blob untouched or re-wrapped, and over readable blobs comes from a call made for one of the subjects |
| `KeyRings.RotationKeepsAnswers` | es/wrapped_keyring.go:141-180 | after a rotation that succeeds every subject, forgotten ones included, gets the answer it got before, unless the new label fits no frame |
| `KeyRings.NoKeyLost` | es/wrapped_keyring.go:141-180 | after one that fails every key still opens under the old or the new wrapper |
| `KeyRings.RerunConvergesIff` | es/wrapped_keyring.go:135-163 | running it again can succeed only if every blob still opens, if and only if the re-wrapped ones carry the old label and unwrap under it; with two labels, if none carries the new one |
| `RotationRuns.ForgottenReturnsIffWritten` | es/wrapped_keyring.go:152-175 | over any run of a rotation, forgets and puts a forgotten key is stored again at some moment if and only if the rotation writes a subject forgotten since it was read and not put since |
| `RotationRuns.AtRiskIffInWindow` | es/wrapped_keyring.go:152-175 | one is stored, or in hand to be written next, at some moment if and only if a Forget fell between the read and the write of its subject |
| `RotationRuns.StepSettledIff` | es/wrapped_keyring.go:152-175 | no other single step can put one at risk |
| `RotationRuns.HarmlessIff` | es/wrapped_keyring.go:108-180 | between two labels a step keeps every caller's key where the rotation needs it exactly when it is no Forget in that window and no put that comes too late or contradicts the key in hand |
| `RotationRuns.KeysSafeIffHarmless` | es/wrapped_keyring.go:108-180 | and so does a whole run, exactly when all its steps are such |
| `RotationRuns.AnswersWhileSafe` | es/wrapped_keyring.go:82-180 | in such a run every subject's key is what was last put before and after the rotation; meanwhile exactly the subjects whose turn is over cannot be read |
| `RotationRuns.RotationRunsToEnd` | es/wrapped_keyring.go:141-180 | left to itself a rotation over keys that can all be re-wrapped, any number in any order, runs to its end and leaves the store as one call of Rotate is proved to |
| `RotationRuns.ForgottenKeyComesBack` | es/wrapped_keyring.go:152-175 | a run, for any ring of one key, in which a forgotten key is back for good |
| `RotationRuns.LatePutIsStranded` | es/wrapped_keyring.go:146-179 | a run in which a key put after the listing cannot be read once the rotation is done |
| `RotationRuns.StoppedRotationCannotRerun` | es/wrapped_keyring.go:135-163 | a rotation stopped at its second subject after which no rotation succeeds |
| `RotationRuns.TheyAllHappen` | es/wrapped_keyring.go:141-180 | wrappers and a key for which those three runs exist |
| `Export.Group` | es/pii_lookup.go:90-105 | distinct keys in first-seen order, each with exactly its own events in order |
| `Export.FindGroup` | es/pii_lookup.go:91-102 | a new key opens an empty group at the end; a known one finds its group |
| `Export.Export` | es/pii_lookup.go:84-108 | the subject's opened events so grouped, or the lookup's error |
| `Export.KeysAreDistinct` | es/pii_lookup.go:88-102 | no key has two groups |
| `Export.KeysInFirstSeenOrder` | es/pii_lookup.go:88-102 | each group's key is that of an event before which exactly the earlier groups had opened |
| `Export.NothingLostOrDoubled` | es/pii_lookup.go:90-105 | every event is in the groups, all together, as often as it was found |
| `Export.GroupsAscend` | es/pii_lookup.go:46-54 | each group is in ascending version order when its stream is |
| `Export.ExportOfAnyRunAscends` | es/pii_lookup.go:46-54 | which it is after any interleaving of clients |
| `TenantScope.BoundTenantWins` | es/tenant_store.go:54-58 | whatever the caller passed, the resolved tenant is the bound one |
| `TenantScope.ReadsStayInScope` | es/tenant_store.go:66-89 | a scoped read returns only the tenant's own or shared events |
| `TenantScope.CommitStaysInTenantIff` | es/tenant_store.go:61-63 | a commit lands wholly in the bound tenant if and only if no event names another |
| `TenantScope.ForeignEventEscapes` | es/tenant_store.go:61-63 | an event of tenant 2 committed through a store bound to tenant 1 stays tenant 2's, invisible to tenant 1 |
| `TenantScope.TenantScopedStore.Commit` | es/tenant_store.go:61-63 | commits as the wrapped store does under the bound tenant |
| `TenantScope.TenantScopedStore.Load` | es/tenant_store.go:66-68 | loads under the bound tenant, whatever the options |
| `TenantScope.TenantScopedStore.FetchAfter` | es/tenant_store.go:71-73 | fetches under the bound tenant, whatever the options |
| `TenantScope.TenantScopedStore.FetchByPiiID` | es/tenant_store.go:83-89 | looks up under the bound tenant, whatever the options |

## Left out

- MemStore.Store.Commit: does not model the sends to live subscribers, which are steps of `LiveStream`, nor the wrap-around of the 64-bit event counter.
- Notifier.EventNotifier.Subscribe: channels are numbers and a set of closed ones; blocking on one is not modelled.
- Dispatcher.EventDispatcher.Dispatch: a reactor is started or not; what its goroutine does is not modelled.
- Aggregate.AggregateRoot.RecordThat: event ids, schema versions, times, actors and metadata are not kept, and marshalling does not fail.
- Aggregate.Load: the error text and the wrapped cause are reduced to three kinds.
- PgCommit.VersionsContiguous: batches carry the versions after the expected one, as RecordThat numbers them; the actor and PII column checks before the transaction are not modelled.
- Events.DomainEvent.constructor: event ids, schema versions, times, actors and metadata are not kept.
- Cursor.Drain: each fetch sees one snapshot of the table; LISTEN/NOTIFY, which decides when a drain starts, is not modelled.
- Pii.Seal: a payload of JSON null is taken as an empty object, and a key whose storing fails is not stored.
- Shredding.EveryReadAnswers: states the runs that seal nothing for a subject already shredded; `Shredding.ReadsExactly` states all.
- SealedLedger.BookIsSerial: likewise; in other runs the log may not be readable at all (`ErasureRace.TwoClientsLoseTheAccount`).
- LedgerErasure.BookSurvivesErasure: that histories replay is a hypothesis here; `SealedLedger.BookIsSerial` derives it from the clients' run.
- SealedLedger.LoadIsSerialIffClear: a client's aggregate is kept without the holder's name and email, which no command looks at.
- RotationRuns.KeysSafeIffHarmless: one rotation at a time, reading the wrapper in force atomically.
- StreamAll of the sealed and the tenant-scoped store: each event is opened, or the stream scoped, as by FetchAfter.
- Optional-interface checks of the wrappers (`ErrPiiLookupUnsupported`), checkpoints, the event registry's own functions, the leader lock and the console notifier: each is a delegation or a lookup with nothing to keep.
- SQL text, migrations, row-level security, tenant bypass, row scanning and connections: database plumbing.
- Real AES-GCM, SHA-256 and Base64, and JSON text with its key order and whitespace.
- es/dsar.go: field copying around a clock reading.
- The user example's commands: the account's are modelled, and are the richer of the two.
- Liveness: a stalled consumer can block Commit, and retries have no fairness.
