# Authorization and revocation of tunnels: a Dafny model

The system has two parties. The control plane keeps users, SSH keys, reserved names and TCP ports, a
global generation counter, an index of live tunnels and an outbox in one database. A patched sish asks it
before every bind, reports every tunnel, and keeps a registry with generation barriers behind one lock. The
outbox worker carries revocations to sish, and key files to the directory sish reads, at least once each.

The project models that protocol and the code around it, and proves what holds over every run.

| file | content |
|---|---|
| `Hostnames.dfy` | names and the four places that convert them |
| `Tables.dfy` | the database, the rights in it, and the transactions that change rights, as functions |
| `Lifecycle.dfy`, `Fields.dfy` | connect, disconnect and snapshot on the index |
| `Ordering.dfy` | lifecycle events in any order |
| `Registry.dfy` | sish's registry: critical sections as functions, and the class that carries them out |
| `Coordination.dfy`, `Steps.dfy` | both parties, the net between them, and the invariant, as one transition system; what each step does |
| `Safety.dfy` | every step keeps the invariant |
| `Theorems.dfy`, `Releases.dfy`, `Marks.dfy`, `Reach.dfy`, `Draining.dfy` | what follows for every run; when the holder of a name is shut out; which rows and which tunnels a revocation reaches; that the system can always settle |
| `Mirror.dfy`, `Synchronizer.dfy`, `Closings.dfy`, `Staleness.dfy`, `Events.dfy` | the index follows the registry, one fetch after the other; what a snapshot leaves closed; how current the index is; event numbers never clash and order does not matter |
| `Store.dfy` | the store class: one method per SQL transaction, statement by statement, with rollback |
| `KeyFiles.dfy` | the key directory and the class that writes it |
| `Replay.dfy`, `Pending.dfy`, `Worker.dfy` | the outbox as a log of key file events, all of it and what is pending; the worker that delivers it |
| `Service.dfy`, `Rollback.dfy` | the order in which the service changes database and files; the rollback of a new key |
| `Telemetry.dfy` | security counters from sish to the database |
| `Buckets.dfy`, `RateLimit.dfy`, `Connections.dfy`, `Addresses.dfy`, `Visits.dfy` | the limiters of the control plane and of sish |

## How the protocol is modelled

A step of `Coordination` is one database transaction or one critical section of the registry lock.
Everything between them travels: a posted callback, a snapshot or a disconnect may arrive late, in any
order, repeatedly or never. A registration is two steps, the callback posted while the lock is held
(`Begin`) and the insertion (`Finish`), so that transactions fall between them; the callback may commit
although sish gives up (`Abandon`). A disconnect is sent, handled (barriers and collection), cleaned up one
tunnel at a time, answered, and only then can its item be completed. sish may restart at any time with a new
source and empty registry. `Run` ranges over all sequences of such steps from an empty database.

The classes work on the same functions: `Store` and `TunnelRegistry` methods promise exactly the functions
the steps are made of. Database statements and file operations may fail at any point in the classes; an early
return of a transaction rolls back. An object whose surroundings never fail is `reliable`; the methods promise
that without such failures they do their work, and that every other error has the cause it names.

Hypotheses:

- sish requires the control plane: a refused bind does not continue.
- The bound TCP port is the requested one (`compose.yml:55-56`).
- Row ids are never reused (AUTOINCREMENT).
- Tunnel ids, event ids and source ids are fresh random values, so a tunnel id belongs to one source and one
  registration; the snapshot upsert at `app/internal/store/hardening.go:612` does not rewrite the
  identity columns and depends on it.
- The service hands the transactions the row's own name and owner, and only normalized labels; the methods
  of `KeyService.Service` establish this.
- The base domain is configured in normalized form.

## Where a promise fails

- A name that is released and reserved again can be shut out by the late delivery of its own release, because
  reserving a name takes no generation; TCP ports are safe. `Releases.NameBarredExactlyWhen` gives the exact
  condition, `Theorems.RereservedNameAfter` the steps from any run, `Theorems.RereservedNameRun` a run.
- A telemetry batch with more than 1000000 events of one type is refused by the handler, kept by sish, and blocks
  all later batches until sish restarts: `Telemetry.CutSticksExactlyWhen`, `Telemetry.StuckForever`,
  `Telemetry.OverflowingBatchSticks`.
- The sweep of the connection limiter forgets blocks longer than ten minutes:
  `Visits.SweepKeepsBlocksExactly`.
- The worker writes a key file without looking whether the key is still enabled:
  `KeyService.DeliveryFailsClosedExactly`. A write that failed and is retried after the removal behind it has been
  delivered leaves the file of a disabled key until something else concerns that key or a reconcile runs.
  `Pending.PendingReplayExactly` gives the exact condition, `Pending.RetriedWriteRun` a run.
- An enable writes the file before the key is on, so one that fails or is cut short can leave the file of a disabled
  key. All its failures are harmless exactly if the key was authorized before: `KeyService.EnableFailsClosedExactly`;
  `KeyService.FailedEnableOpens` is the failure that is not, `Pending.FailedEnableRun` a run.
- The rollback of `AddKey` deletes the row, or switches the key off, without a disconnect. What sish serves stays
  covered exactly if every tunnel served with the key is already selected by a newer uncompleted disconnect, and
  the index stays backed exactly if no live row is held by it: `Rollback.TakingBackIsSafeExactlyWhen`.
  `Rollback.LateRollbackRun` is a run in which neither holds.
- Were two fetches of the active tunnels to overlap around a restart of sish, the running process could be
  retired: `Synchronizer.RetiredExactlyWhen`, `Synchronizer.OverlapRetires`. With the one synchronizer there is it
  never is: `Synchronizer.RunningIsNeverRetired`.

## Model

| member | source | states |
|---|---|---|
| `Theorems.JointSafety` | sish/patches/control-plane.patch:439-455 | At every moment of every run, each tunnel in the registry, or acknowledged and about to enter it, holds its right in the database at that moment, or an uncompleted outbox disconnect that is newer than the tunnel selects it |
| `Theorems.DrainedMeansEntitled` | app/internal/service/outbox.go:59-68 | In every run, once every disconnect of the outbox is completed, everything sish serves holds its right |
| `Theorems.QuiesceIsPermanent` | sish/patches/control-plane.patch:539-582 | Once a sish process has answered a disconnect of generation g, no later state of that process serves or registers a matching tunnel of generation g or older, whenever it was authorized |
| `Theorems.FreshTcpIsNeverBarred` | sish/patches/control-plane.patch:404-406 | A TCP principal authorized at generation g is barred in no later state whose generation is still g, however late disconnects arrive, and no port disconnect of the outbox closes its tunnel |
| `Releases.NameBarredExactlyWhen` | sish/patches/control-plane.patch:404-406 | For a name the same fails exactly when the running sish process has handled the disconnect of a release of that very name under the current generation |
| `Theorems.RereservedNameIsBarred` | app/internal/store/hardening.go:185-208 | From every sound state with a free lock: release a name, reserve it again, deliver the disconnect, and its holder is entitled to the name but barred from binding it |
| `Theorems.RereservedNameAfter` | app/internal/store/hardening.go:185-208 | So every run with a free lock in which somebody holds a name with a live key goes on, in four steps, to that state |
| `Theorems.RereservedNameRun` | app/internal/store/hardening.go:185-208 | A run of seven steps from an empty database that ends there |
| `Theorems.TwoPhaseAgreement` | app/internal/store/hardening.go:365-479 | The connect callback for the principal of an authorization is refused for its generation exactly in the later states whose generation is another than the one the authorization returned, and in none for want of the right |
| `Reach.TunnelsLeaveFor` | sish/patches/control-plane.patch:539-582 | In every run a tunnel leaves the registry only when its own bind ends, when sish stops, or for a disconnect whose item is about its key, its user or its name, or about its TCP port and not older: an item that revoked its right |
| `Reach.HandlesAllItHits` | sish/patches/control-plane.patch:556-575 | In every run a handled disconnect sets out to close exactly the tunnels served at that moment that its item is about |
| `Draining.CanDrain` | app/internal/service/outbox.go:49-70 | Every run can go on, without a change of rights or a restart, until every disconnect is completed; sish then serves exactly the tunnels whose key, user and name no item that was due is about, and no item for their port that is not older; all of it holds its right |
| `Draining.CanSettle` | app/internal/service/tunnels.go:39-50 | Every run that fetches one snapshot after the other can go on so that, besides, the index is synchronized and shows open exactly the tunnels sish serves, active and with their data |
| `Steps.BindsWereAuthorized` | sish/patches/control-plane.patch:404-435 | Every registration of a run was authorized by the control plane, found clear by sish after that, and clear when it begins |
| `Steps.CompletedIsFinal` | app/internal/store/hardening.go:711-725 | An outbox item that has been completed is never changed, sent or completed again in the run |
| `Steps.LifeRun` | sish/patches/control-plane.patch:439-477 | A run of twelve steps in which a tunnel is bound, served, ended and closed in the index |
| `Steps.BeginExactly` | sish/patches/control-plane.patch:439-451 | A bind counts once, posts its callback under that number and waits |
| `Steps.AnsweredExactly` | sish/patches/control-plane.patch:452-455 | An accepted callback acknowledges exactly the registration it belongs to |
| `Steps.RemovalExactly` | sish/patches/control-plane.patch:456-477 | A tunnel that ends leaves the registry, counts once, and if it was there its disconnect is posted under that number |
| `Theorems.LiveRowsAreBacked` | app/internal/store/hardening.go:113-332 | At every moment of every run each row shown as active or stale has an enabled key, an active user and a reservation of that user |
| `Marks.RowsLeaveWithTheirRight` | app/internal/store/hardening.go:113-332 | In every run a transaction marks as disconnecting exactly the active and stale rows whose right it takes and changes no other row; the one exception is the control plane's own tunnel when a user gives back a reservation of the same name |
| `Marks.RowsLeaveExactly` | app/internal/store/hardening.go:113-332 | The same for every sound database, in the fields of the rows |
| `Marks.LeavingRowsAreHunted` | app/internal/store/hardening.go:142-149 | At every moment of every run each disconnecting row has an outbox item that disconnects its own key, user, name or port and whose generation is greater than the row's |
| `Theorems.EveryNoteIsQueued` | app/internal/store/hardening.go:31-38 | In every run each transaction appends all the outbox items it queues, so the dedupe key swallows none |
| `Theorems.IndexIsCoherent` | app/internal/store/hardening.go:480-500 | At every moment of every run an open row has an open cursor between its own sequence and the last sequence, all cursors are of the adopted source, and every row describes the one registration its id was drawn for |
| `Staleness.StaleExactly` | app/internal/store/hardening.go:623-636 | A failed synchronization makes exactly the active rows stale, keeps all their data, all other rows and the cursors, and leaves the index unsynchronized |
| `Staleness.ActiveWasHeardSince` | app/internal/service/tunnels.go:39-50 | In every run, after a failed synchronization a row is active only if since then its connect has been accepted or a snapshot that lists it with its right |
| `Staleness.SyncedExactlyWhen` | app/internal/service/tunnels.go:39-50 | In every run the index is synchronized exactly if a snapshot has been accepted and no synchronization has failed since |
| `Closings.SnapshotsArePlain` | app/internal/store/hardening.go:541-622 | In every run an accepted snapshot leaves open exactly the listed tunnels that hold their right, except ids whose row, when it arrives, is closed and newer; such an id exists only if a disconnect of it newer than the snapshot was delivered before any sish process had been adopted |
| `Theorems.SnapshotsAreExact` | app/internal/store/hardening.go:541-622 | The same with the exception read from the index the loop starts from; and each tunnel left open is active at the snapshot's sequence, which is the last sequence |
| `Theorems.EpochsNeverRepeat` | app/internal/store/hardening.go:547-577 | Once the index has left a sish process it never follows it again, and while it follows one the last sequence only grows |
| `Theorems.EarlierProcessesChangeNothing` | app/internal/store/consistency_test.go:112-130 | Once the index has left a sish process, no connect, disconnect or snapshot of that process changes the database |
| `Synchronizer.IndexMirrorsRegistry` | app/internal/service/tunnels.go:39-50 | In every run that fetches one snapshot after the other, a snapshot taken with the lock free and reconciled on the spot is accepted and leaves open exactly the registry's tunnels that hold their right, with the registry's data |
| `Synchronizer.RunningIsNeverRetired` | app/cmd/control-plane/main.go:82-82 | With one synchronizer that reconciles a snapshot before it fetches the next, the running sish process is never retired, wherever sish restarts |
| `Synchronizer.RetiredExactlyWhen` | app/internal/store/hardening.go:571-577 | Without that order the running process is retired exactly if, since it started, the index left it for a snapshot of another process |
| `Synchronizer.OverlapRetires` | app/internal/service/tunnels.go:39-50 | A run of five steps, with two fetches that overlap around a restart, in which that happens |
| `Mirror.NumberedAlways` | sish/patches/control-plane.patch:403-403 | In every run nothing the running sish process has sent, and nothing the index holds of it, is ahead of the process's counter |
| `Events.NeverRefusedAsDuplicate` | app/internal/store/hardening.go:484-490 | In every run no posted lifecycle event is refused by the uniqueness of (source, sequence) |
| `Events.AnyOrderInRuns` | app/internal/store/consistency_test.go:95-110 | In every state of every run, any events one sish process has posted, delivered in any two orders with any repetitions, leave the same cursors and the same open rows |
| `Events.RunsMeetAgain` | app/internal/store/consistency_test.go:95-110 | Two runs that are in the same state and go on by delivering the same events of one process, in different orders and with repetitions, end with the same cursors and the same open rows |
| `Events.LatestWinsInRuns` | app/internal/store/hardening.go:480-531 | There the latest of a tunnel's events that count decides whether it ends open, unless the index is at or beyond it already |
| `Events.PostedSetting` | sish/patches/control-plane.patch:439-477 | What order independence asks for, distinct and free numbers, holds of all events posted in a run |
| `Safety.InvAlways` | sish/patches/control-plane.patch:404-582 | The invariant behind these results, on database, registry, messages in flight, deliveries and barriers, holds in every state of every run |
| `Safety.SafeStep` | app/internal/store/hardening.go:446-479 | Every step keeps each served tunnel either entitled or selected by an uncompleted newer disconnect |
| `Safety.QuietStep` | sish/patches/control-plane.patch:547-580 | Every step keeps the barriers of handled disconnects and the absence of the tunnels they had to close |
| `Hostnames.TrimSpaceTrims` | app/internal/service/service.go:75-75 | Trimming takes away the spaces around, all of them and nothing else |
| `Hostnames.CleanExactly` | sish/patches/control-plane.patch:393-395 | The clean-up of a host: no outer spaces, one final dot less, A to Z small, other ASCII characters kept |
| `Hostnames.NormalizedExactly` | app/internal/service/service.go:75-75 | The same for a reserved name, where no dot goes |
| `Hostnames.NormalizeSubdomain` | app/internal/service/service.go:74-88 | Accepts exactly the labels outside the reserved words and returns the trimmed, lower-cased name; tells the reserved words apart |
| `Hostnames.CanonicalHost` | app/internal/web/internal.go:89-107 | The scan returns the label and full name defined by `Canonical`, and nothing for any other host |
| `Hostnames.CanonicalExactly` | app/internal/web/internal.go:89-107 | It accepts exactly the clean forms of a label and of its full name, under a base domain that is not empty |
| `Hostnames.BoundariesAgree` | app/internal/service/outbox.go:116-122 | Label and full name are fixed points of `canonicalHost` and of sish's clean-up, the outbox rewrite yields the same full name, and the first-dot split recovers the label |
| `Hostnames.ReservationSurvivesBoundaries` | app/internal/service/service.go:74-88 | Every name reservation accepts passes all four boundaries unchanged |
| `Hostnames.ReleaseMatchesOneLabel` | app/internal/store/hardening.go:272-275 | The row filter of a name release selects the full name of that label and of no other |
| `Hostnames.FqdnInjective` | app/internal/web/internal.go:105-107 | Two labels never share a full name |
| `Tables.SoundKept` | app/internal/store/hardening.go:86-332 | Every transaction keeps the schema, the outbox bounds, and the rule that a right held now is newer than every queued item that revoked it |
| `Tables.NothingSwallowed` | app/internal/store/hardening.go:31-38 | No outbox item of a transaction meets an existing dedupe key |
| `Tables.RightKeptOrRevoked` | app/internal/store/hardening.go:113-332 | A right survives a transaction or the transaction takes a new generation, queues a disconnect of that right and marks its rows |
| `Tables.SameGenerationKeepsRights` | app/internal/store/hardening.go:39-43 | A transaction that leaves the generation alone takes no right away |
| `Tables.SchemaKept` | app/internal/store/hardening.go:86-332 | Uniqueness of fingerprints, names and ports, references and bounds are kept |
| `Lifecycle.MutationKeepsRights` | app/internal/store/hardening.go:113-332 | After every transaction each live row is still backed by rights |
| `Fields.ConnectChecked` | app/internal/store/hardening.go:446-479 | A connect is refused as stale exactly for another generation than the current, and for want of rows exactly if the right is not held |
| `Fields.ConnectInFields` | app/internal/store/hardening.go:480-505 | What an accepted new connect makes of events, cursors, rows and last sequence, field by field |
| `Fields.DisconnectInFields` | app/internal/store/hardening.go:506-540 | The same for a disconnect |
| `Fields.MessageRefused` | app/internal/store/hardening.go:428-444 | Both are refused exactly for a source that is missing, left or not followed, or for a number taken by another event; a known event is accepted without effect |
| `Fields.SnapshotRow` | app/internal/store/hardening.go:577-612 | What an accepted snapshot makes of each row: active at its number if listed with its right and not closed and newer, else closed at its number, or at zero if the index leaves the row's process |
| `Fields.SnapshotCursor` | app/internal/store/hardening.go:577-612 | The same for each cursor |
| `Fields.EntryInFields` | app/internal/store/hardening.go:587-612 | What the loop does for one listed tunnel |
| `Fields.SnapshotInFields` | app/internal/store/hardening.go:565-622 | The same for source, sequence, retired sources and events |
| `Fields.SnapshotRefused` | app/internal/store/hardening.go:551-570 | A snapshot is refused exactly without a source, if it is older than the index, or if its source has been left |
| `Lifecycle.ConnectKeepsIndex` | app/internal/store/hardening.go:480-500 | An accepted connect keeps rows, cursors and sources coherent |
| `Lifecycle.DisconnectKeepsIndex` | app/internal/store/hardening.go:515-531 | So does a disconnect |
| `Lifecycle.SnapshotKeepsIndex` | app/internal/store/hardening.go:571-612 | So does a snapshot, with a change of source or without |
| `Lifecycle.SnapshotIsExact` | app/internal/store/hardening.go:541-622 | After an accepted snapshot an id is open exactly if the snapshot lists a tunnel of it that holds its right and no newer closed row stands against it |
| `Ordering.LatestEventWins` | app/internal/store/hardening.go:480-531 | From any index that follows the source, events of that source in any order, with repetitions, leave a tunnel open exactly if its latest event that counts is a connect, unless the index is at or beyond that event: then nothing changes for the tunnel |
| `Ordering.OrderDoesNotMatter` | app/internal/store/consistency_test.go:95-110 | From any such index two orders of the same events leave the same cursor and the same open rows |
| `Registry.TunnelRegistry.Register` | sish/patches/control-plane.patch:439-455 | Inserts the tunnel exactly if no barrier stands and the connect was acknowledged; the sequence advances unless barred |
| `Registry.TunnelRegistry.Unregister` | sish/patches/control-plane.patch:456-477 | Removes the tunnel, advances the sequence in any case, reports whether an event is due; nothing without an id |
| `Registry.TunnelRegistry.CleanUp` | sish/patches/control-plane.patch:448-448 | The cleanup unregisters once or twice: the tunnel is gone and one or two sequence numbers are used |
| `Registry.TunnelRegistry.HostActive` | sish/patches/control-plane.patch:478-488 | True exactly if some tunnel carries the cleaned host |
| `Registry.TunnelRegistry.Collect` | sish/patches/control-plane.patch:556-575 | Raises the named barriers and lists, each once, exactly the tunnels of the named key, user or host and the TCP tunnels of the named port that are not newer |
| `Registry.TunnelRegistry.Disconnect` | sish/patches/control-plane.patch:539-582 | Afterwards exactly those tunnels are gone, the others are as they were, the barriers stand, and one or two sequence numbers per tunnel are used |
| `Registry.BarredExactlyBy` | sish/patches/control-plane.patch:404-406 | After any requests a principal is shut out exactly if one of them was about its key, user, host or port and not older than it |
| `Registry.ReachedBars` | sish/patches/control-plane.patch:404-406 | A barrier shuts out every principal it matches that is not newer |
| `Storage.Store.InsertKeyStatements` | app/internal/store/hardening.go:86-112 | Its statements one by one, any of which may fail, yield the mutation, its own error, or a database error |
| `Storage.Store.InsertKeyAtomic` | app/internal/store/hardening.go:86-112 | The transaction is the mutation or nothing: new row, new id, a write queued |
| `Storage.Store.SetKeyEnabledStatements` | app/internal/store/hardening.go:113-154 | Its statements one by one, any of which may fail, yield the mutation, its own error, or a database error |
| `Storage.Store.SetKeyEnabledAtomic` | app/internal/store/hardening.go:113-154 | The mutation or nothing: a change takes a generation and queues the file event; a disable also marks rows and queues the disconnect |
| `Storage.Store.DeleteKeyStatements` | app/internal/store/hardening.go:155-184 | Its statements one by one, any of which may fail, yield the mutation, its own error, or a database error |
| `Storage.Store.DeleteKeyAtomic` | app/internal/store/hardening.go:155-184 | The mutation or nothing: file event with the owner, disconnect, rows marked, row deleted |
| `Storage.Store.InsertSubdomainStatements` | app/internal/store/hardening.go:185-208 | Its statements one by one, any of which may fail, yield the mutation, its own error, or a database error |
| `Storage.Store.InsertSubdomainAtomic` | app/internal/store/hardening.go:185-208 | The mutation or nothing; no generation |
| `Storage.Store.DeleteSubdomainStatements` | app/internal/store/hardening.go:262-286 | Its statements one by one, any of which may fail, yield the mutation, its own error, or a database error |
| `Storage.Store.DeleteSubdomainAtomic` | app/internal/store/hardening.go:262-286 | The mutation or nothing: generation, rows of the name marked, disconnect queued |
| `Storage.Store.InsertTCPPortStatements` | app/internal/store/hardening.go:209-235 | Its statements one by one, any of which may fail, yield the mutation, its own error, or a database error |
| `Storage.Store.InsertTCPPortAtomic` | app/internal/store/hardening.go:209-235 | The mutation or nothing, with a new generation |
| `Storage.Store.DeleteTCPPortStatements` | app/internal/store/hardening.go:236-261 | Its statements one by one, any of which may fail, yield the mutation, its own error, or a database error |
| `Storage.Store.DeleteTCPPortAtomic` | app/internal/store/hardening.go:236-261 | The mutation or nothing: id and port must match |
| `Storage.Store.SetUserStatusStatements` | app/internal/store/hardening.go:287-335 | Its statements one by one, any of which may fail, yield the mutation, its own error, or a database error |
| `Storage.Store.SetUserStatusAtomic` | app/internal/store/hardening.go:287-335 | The mutation or nothing: a suspension marks rows and queues the disconnect, both directions queue a reconcile |
| `Tables.AuthorizesExactly` | app/internal/store/hardening.go:365-427 | In the tables: a fingerprint is authorized exactly as the owner of its enabled key, active and holding the reservation, or, if there is no such key, as the control plane's own principal for its own name |
| `Storage.Store.AuthorizeBind` | app/internal/store/hardening.go:365-427 | Accepts exactly the claims the database authorizes for the fingerprint, user keys before system keys, with the current generation |
| `Storage.NameCountIsOwnership` | app/internal/store/hardening.go:395-412 | The join counts one exactly if the user holds the name |
| `Storage.Store.ApplyTunnelConnect` | app/internal/store/hardening.go:446-505 | Statement by statement the connect of the specification, or nothing |
| `Storage.Store.ApplyTunnelDisconnect` | app/internal/store/hardening.go:506-540 | Statement by statement the disconnect of the specification, or nothing |
| `Storage.Store.SnapshotStatements` | app/internal/store/hardening.go:541-622 | Checks, sweep and loop statement by statement yield the snapshot of the specification, its own error or a database error |
| `Storage.Store.ReconcileActiveSnapshot` | app/internal/store/hardening.go:541-622 | They are committed as a whole or nothing changes |
| `Storage.Store.MarkTunnelSyncUnavailable` | app/internal/store/hardening.go:623-636 | No row is active any more and the index is unsynchronized, or the database refused and nothing happened |
| `Storage.Store.PendingOutbox` | app/internal/store/hardening.go:693-710 | Uncompleted items whose time has come, in id order, up to the limit and none of them later than one left out |
| `Storage.Store.CompleteOutbox` | app/internal/store/hardening.go:711-714 | Completes an item once; a second time finds no row |
| `Storage.Store.RetryOutbox` | app/internal/store/hardening.go:715-725 | Puts an uncompleted item back with its delay and leaves everything else |
| `Storage.BackoffDoubles` | app/internal/store/hardening.go:719-722 | The delay is one second, doubles with each of eight attempts, and then stays |
| `Storage.BackoffGrows` | app/internal/store/hardening.go:719-722 | It never shrinks and stays within five minutes |
| `Rollback.TakingBackIsSafeExactlyWhen` | app/internal/service/service.go:158-176 | Deleting a key, or switching it off, without a disconnect keeps the main safety property exactly if every tunnel served with it is already selected by a newer uncompleted disconnect, and the live rows backed exactly if none is held by it |
| `Rollback.LateRollbackRun` | app/internal/service/service.go:158-176 | A run of seven steps in which a tunnel is bound with a new key: taking the key back then, either way, leaves a served tunnel without right or disconnect and a live row without right |
| `Storage.Store.AuthorizedKeys` | app/internal/store/store.go:270-285 | Lists exactly the enabled keys of active users |
| `Storage.TunnelSynchronizer.Once` | app/internal/service/tunnels.go:39-50 | Accepts a snapshot exactly if it can be fetched and reconciled; otherwise the index is stale, unless the database refuses that too |
| `Storage.TunnelSynchronizer.SyncOnce` | app/internal/service/tunnels.go:52-59 | Only a failed fetch makes the index stale; a refused snapshot changes nothing; any other is accepted unless the database refuses |
| `KeyFiles.FilenameInjective` | app/internal/integration/pubkeys.go:20-22 | No two keys share a file |
| `KeyFiles.ManagedExactly` | app/internal/integration/pubkeys.go:16-22 | The pattern of managed names matches exactly the names written for positive ids |
| `KeyFiles.PublicKeyWriter.Write` | app/internal/integration/pubkeys.go:24-32 | Writes under the key's own name the key without outer spaces and a newline or, on an error, at most that; fails only for ids that are not positive or for the file system |
| `KeyFiles.PublicKeyWriter.Remove` | app/internal/integration/pubkeys.go:34-46 | Removes that one file, also if it is missing; on an error at most that |
| `KeyFiles.PublicKeyWriter.Reconcile` | app/internal/integration/pubkeys.go:48-79 | On success managed files are there exactly for the wanted keys, hold them, and all others are untouched; on an error anything in between; fails only for the file system |
| `KeyFiles.ContentExactly` | app/internal/integration/pubkeys.go:31-31 | The one text that holds a key; two keys have the same text exactly if they differ in outer spaces only |
| `Replay.ReplayConverges` | app/internal/service/outbox.go:71-109 | With the database standing still, delivering the log from any item on, in order, leaves each key file those items decide over present with its content exactly if the key is authorized, whatever the directory held, and every other managed file as it was |
| `Replay.ReplayYieldsKeys` | app/internal/service/outbox.go:71-109 | In the tables: after a replay a file it decides over is there exactly for an enabled key of an active user, and holds that key |
| `Replay.ConcernedKeysConverge` | app/internal/service/outbox.go:82-109 | This covers every key any of those items is about, deleted keys with the owner they had |
| `Replay.UnmanagedUntouched` | app/internal/integration/pubkeys.go:60-68 | No delivery touches a file outside the managed names |
| `Replay.SettledKept` | app/internal/store/hardening.go:86-332 | Every transaction keeps the log settled: each key event is the truth about its key or a later event concerns the key |
| `Replay.DeliverDecides` | app/internal/service/outbox.go:82-109 | One delivery sets exactly the files it decides over |
| `Replay.ListedIsWanted` | app/internal/integration/pubkeys.go:52-55 | What a reconciliation computes from the selected rows is what the rights want |
| `Pending.PendingReplayExactly` | app/internal/service/outbox.go:59-109 | With the database standing still, delivering what is pending in id order leaves a key file as the authorized keys want it exactly if the last pending event that decides over it is true of its key |
| `Pending.PendingReplayInRuns` | app/internal/service/outbox.go:59-109 | The same at every moment of every run |
| `Pending.RetriedWriteRun` | app/internal/service/outbox.go:59-91 | A run of four steps after which what is pending writes the file of a key that is off, and no pending event takes it away |
| `Worker.LogAlwaysConverges` | app/internal/service/outbox.go:71-109 | The same convergence at every moment of every run |
| `Worker.CleanDrainConverges` | app/internal/service/outbox.go:49-70 | A drain without failure over a pending tail that fits into it converges and completes exactly that tail |
| `Worker.OutboxWorker.Process` | app/internal/service/outbox.go:71-126 | A delivery without error has its full effect on the files or its request answered by sish; with an error at most in part; an error comes from the database, the file system or sish |
| `Worker.OutboxWorker.Drain` | app/internal/service/outbox.go:49-70 | Whatever fails: the log of attempts accounts for every change of the directory; exactly the items an attempt finished after a full delivery are completed; an item put back has one attempt more each time and is due after the delay for that number; sish is asked only for what pending items say. If the database does not refuse, each of the first 320 due items is tried exactly once, in id order; if nothing fails all of them are delivered and completed |
| `Worker.OutboxWorker.DrainBatch` | app/internal/service/outbox.go:59-68 | Every item of a batch is tried once, in order, whatever fails before it |
| `Worker.CompletedWasDelivered` | app/internal/service/outbox.go:49-70 | For each item completed there is an attempt of the log that turned the directory it found into what the item makes of it |
| `Worker.OutboxWorker.ProcessOnce` | app/internal/service/outbox.go:132-143 | The same for the first due item, which is put back when its delivery fails and left alone when its completion fails |
| `Worker.DueAfter` | app/internal/store/hardening.go:693-710 | Once the first due items are completed or put back, the others are due in the same order |
| `KeyService.RevocationFailsClosed` | app/internal/service/service.go:192-216 | A revocation that stops anywhere leaves no file for a key that is not authorized, if there was none before |
| `KeyService.Service.SetKeyEnabled` | app/internal/service/service.go:179-218 | A disable only ever passes through such moments, an enable only through moments at which the key is as it was with its file kept, gone or written, or on with its file written; an error leaves the database alone and at most this key's file changed; others are refused; every error has its cause |
| `KeyService.Service.DeleteKey` | app/internal/service/service.go:219-240 | The same for a deletion; only this file goes, success removes file and row; every error has its cause |
| `KeyService.Service.SetUserSuspended` | app/internal/service/service.go:328-364 | The same for a suspension with its loop over all keys: only files of that user go, on success all of them; admins are refused; lifting a suspension leaves the files between before and reconciled; every error has its cause |
| `KeyService.Service.AddKey` | app/internal/service/service.go:139-178 | Every moment stays closed, also through the rollback; an error changes at most the new key's row and file. It fails only for a cause that holds; if the file cannot be written, file and row are gone afterwards unless the database refuses, or, if the file cannot even be removed, the row stays |
| `KeyService.EnableFailsClosedExactly` | app/internal/service/service.go:192-216 | An enable that fails leaves a closed directory closed, whichever of its failures occurs, exactly if the key was authorized before the call |
| `KeyService.EnablingFailsClosedExactly` | app/internal/service/service.go:192-216 | For a key of an active user every moment of an enable, failed or not, is closed exactly if the key was on already |
| `KeyService.FailedEnableOpens` | app/internal/service/service.go:192-196 | For every key that is off: the write that reports an error after it has taken place leaves the directory open |
| `Pending.FailedEnableRun` | app/internal/service/service.go:192-196 | A run of three steps after which an enable that fails so opens an empty directory |
| `KeyService.DeliveryFailsClosedExactly` | app/internal/service/outbox.go:82-109 | Delivering an outbox event keeps the directory closed exactly unless it writes a key that exists and is not authorized |
| `KeyService.LateWriteIsOvertaken` | app/internal/store/hardening.go:113-150 | In a settled log such a write has a later item, completed or not, that concerns the same key |
| `KeyService.ReconciliationFailsClosed` | app/internal/service/service.go:127-133 | A reconciliation that stops anywhere keeps the directory closed |
| `KeyService.Service.ParseTCPPort` | app/internal/service/service.go:89-104 | Digits between outer spaces that name a public port, and nothing else |
| `KeyService.Service.ReserveSubdomain` | app/internal/service/service.go:241-278 | Success means a free, normalized, unreserved label that the user then holds; it fails only for a cause that holds: no active user, a word reserved, not a label, taken, a record in the DNS, or the database |
| `KeyService.Service.ReleaseSubdomain` | app/internal/service/service.go:311-327 | The transaction gets the row's own name, which is free afterwards; only the owner or an admin; every other error has its cause |
| `KeyService.Service.ReserveTCPPort` | app/internal/service/service.go:279-295 | Success means the user holds the port, under a new generation; it fails only for no active user, no public port, taken, or the database |
| `KeyService.Service.ReleaseTCPPort` | app/internal/service/service.go:296-309 | The port is free afterwards; only the owner or an admin; every other error has its cause |
| `Telemetry.CountsAreConserved` | sish/patches/control-plane.patch:599-632 | In every run, with restarts, lost and late messages and retention: everything counted is live, cut and not stored yet, stored in rows, dropped with them, or lost in a restart; what exceeds that was stored again after its id had been forgotten |
| `Telemetry.NothingLostOrCountedTwice` | sish/patches/control-plane.patch:599-632 | Without restart and without batches later than the retention, each event counted is in exactly one place: live, in the pending batch while that is not stored, in one row, or dropped with its row |
| `Telemetry.RecordedInFields` | app/internal/store/hardening.go:737-772 | A new batch: its id with the minute, its counts on top of the rows of that minute, and what is older than 90 days gone |
| `Telemetry.AcceptsExactly` | app/internal/web/internal.go:183-192 | The checks of the handler in numbers |
| `Telemetry.TotalAddAll` | app/internal/store/hardening.go:760-770 | Adding a batch to the rows adds exactly its counts to the totals |
| `Telemetry.TelemetryStore.AddBatch` | app/internal/store/hardening.go:737-772 | Stores a batch once, after retention, or changes nothing on any error |
| `Telemetry.SecurityCounters.Cut` | sish/patches/control-plane.patch:609-623 | Cuts exactly the positive counters unless a batch is pending |
| `Telemetry.SecurityCounters.Tick` | sish/patches/control-plane.patch:599-632 | A tick posts what is pending, or else exactly the positive counters, and keeps it pending unless it is acknowledged |
| `Telemetry.StuckForever` | app/internal/web/internal.go:183-192 | A pending batch the handler refuses stays pending, is never stored, and no other is cut, until sish restarts |
| `Telemetry.AcceptedCanBeDelivered` | app/internal/web/internal.go:183-197 | A batch the handler accepts can be posted, stored and dropped |
| `Telemetry.CutSticksExactlyWhen` | app/internal/web/internal.go:188-192 | The batch cut next is refused exactly if one of its counters has passed 1000000 |
| `Telemetry.OverflowingBatchSticks` | app/internal/web/internal.go:188-192 | A run that counts 1000001 events of one type, one at a time, and cuts: it is stuck |
| `RateLimits.RateLimiter.Allow` | app/internal/web/ratelimit.go:25-57 | The verdict and new entry are those of the key's bucket; no other entry changes; the table stays within its limit |
| `RateLimits.RateLimiter.Evict` | app/internal/web/ratelimit.go:58-73 | Idle keys go first, others only if that makes no room, and there is room afterwards |
| `RateLimits.JudgeExactly` | app/internal/web/ratelimit.go:35-57 | One request in numbers: verdict, level, strikes, and the length of a block |
| `RateLimits.PacedIsAccepted` | app/internal/web/ratelimit.go:38-46 | Whoever asks no faster than the refill, with a token to begin with, is never refused |
| `RateLimits.BurstIsAccepted` | app/internal/web/ratelimit.go:28-46 | Of a new key as many requests as the capacity holds are accepted, however fast they come |
| `RateLimits.AcceptedBound` | app/internal/web/ratelimit.go:38-46 | For a key that stays, any window of requests accepts at most the capacity and the refill in between |
| `RateLimits.BlockHolds` | app/internal/web/ratelimit.go:35-37 | Until a block ends nothing is accepted and the entry does not change |
| `RateLimits.BlocksAreEarned` | app/internal/web/ratelimit.go:44-54 | Every block is earned by five refusals of its own, strikes included |
| `RateLimits.SweepHarmlessExactly` | app/internal/web/ratelimit.go:58-63 | Forgetting an idle key never changes its level or next verdict if and only if the capacity is at most 600 times the refill |
| `RateLimits.ConfiguredSweepsHarmless` | app/internal/web/server.go:78-78 | The three configured limiters meet that condition |
| `Buckets.WindowBound` | app/internal/web/ratelimit.go:38-46 | The bound for any bucket whose level follows capacity and rate |
| `Visits.PacedIsLetIn` | sish/patches/control-plane.patch:712-736 | Whoever comes to sish no faster than the rate, and finds a place free, is always let in |
| `Visits.LetInBound` | sish/patches/control-plane.patch:712-736 | Applied to sish: in any history of an entry, connections or requests, any stretch lets in at most the burst and what flows in between |
| `Visits.SweepKeepsBlocksExactly` | sish/patches/control-plane.patch:699-704 | Over all histories, a sweep frees nobody from a block if and only if blocks are no longer than ten minutes |
| `Connections.AbuseState.AllowConnection` | sish/patches/control-plane.patch:677-745 | Keeps the accounting: an entry counts exactly its outstanding closures, at most the limit of its kind; the verdict is that of the entry; with blocks of at most ten minutes no blocked entry is dropped |
| `Connections.AbuseState.Release` | sish/patches/control-plane.patch:737-744 | The first call gives one place back to the closure's own entry, any other changes nothing |
| `Connections.AbuseState.SweptExactly` | sish/patches/control-plane.patch:699-704 | Room is looked for only among ten thousand entries, at the cost of exactly those without a connection that are older than ten minutes |
| `Connections.AbuseState.KeptSound` | sish/patches/control-plane.patch:699-704 | A sweep never drops an entry with a closure outstanding |
| `Connections.AbuseState.AllowRequest` | sish/patches/control-plane.patch:749-789 | The request bucket of the cleaned host and address, which takes no place and changes no other entry |
| `Addresses.PortSharesBucket` | sish/patches/control-plane.patch:749-754 | A host shares its bucket with the same host followed by a port |
| `Addresses.HostInBrackets` | sish/patches/control-plane.patch:385-391 | A host in brackets, as IPv6 addresses are written, is found whatever colons it has |
| `Addresses.HostBeforePort` | sish/patches/control-plane.patch:749-754 | A plain host is found in front of any plain port |
| `Connections.AdmitExactly` | sish/patches/control-plane.patch:712-736 | One attempt to connect in numbers, with its fifth refusal in a row blocking for as long as configured or else five minutes |
| `Connections.AskExactly` | sish/patches/control-plane.patch:763-789 | The same for a request, of which every tenth refusal blocks |
| `Connections.LimitsExactly` | sish/patches/control-plane.patch:686-698 | Which setting belongs to which kind of connection, none below one |
| `Connections.AdmitKeepsBounds` | sish/patches/control-plane.patch:712-736 | Violations stay below the limit, nothing is admitted while a block stands, a place is taken only if one is free |
| `Hostnames.LabelExactly` | app/internal/service/service.go:79-86 | A label in numbers |
| `Hostnames.OutboxHostOnce` | app/internal/service/outbox.go:116-122 | The outbox completes a bare name and leaves a full one as it is |
| `Hostnames.CanonicalIsLabel` | app/internal/web/internal.go:89-107 | Whatever `canonicalHost` returns is a label of sections 2.3.1 of RFC 1035 and 2.1 of RFC 1123 and that label's full name |
| `KeyFiles.BetweenMeans` | app/internal/integration/pubkeys.go:60-77 | Wherever a reconciliation stops, each file is as it was, removed because managed and not wanted, or written because wanted |
| `Lifecycle.RedeliveryChangesNothing` | app/internal/store/hardening.go:484-490 | An event id that was processed changes nothing when it comes again, accepted or refused |
| `Lifecycle.RetiredSourceRefused` | app/internal/store/hardening.go:428-444 | A retired source is refused by connect, disconnect and snapshot |

## Left out

- Audit mode, in which binds go on after a denial, and the `tunnel_id` selector, which sets no barrier.
- Registration of the control plane's own key and name (`EnsureSystemResources`): the system tables are fixed.
- Logins and sessions; creating a user stands for a first login. Audit rows, timestamps, source addresses.
- The plain key updates of `AddKey`'s rollback are in `Store` and `Service` but not steps of a run, because they
  change rights without a generation.
- Steps of the service interleaved with the outbox worker: the service methods hold the key lock and are taken
  one at a time; `KeyService.DeliveryFailsClosedExactly` says what a delivery in between can do.
- Replay.ReplayConverges: every item of the tail, completed or not, in id order and without failure; for what is
  pending alone it is `Pending.PendingReplayExactly`.
- Worker.OutboxWorker.Drain: the clock stands still during one drain.
- KeyService.Service.SetKeyEnabled: an enable is not closed all the way; `KeyService.EnablingFailsClosedExactly` says when.
- A disconnecting row is not kept until sish confirms it: the next snapshot closes it or, if it is listed and
  entitled, opens it again.
- Synchronizer.IndexMirrorsRegistry: for runs that fetch one snapshot after the other, as the one synchronizer
  does; `SyncOnce`, which has no caller, is a method of `Storage.TunnelSynchronizer` only.
- SQL text, JSON, collation and `LIKE`: names reach them as lower-case labels. Sub-second order of retry times.
- Case mapping beyond ASCII, the Kelvin sign and the dotted capital I, the characters that lower into a label.
- Sub-directories of the key directory, temporary files and file modes.
- Connection entries are kept under structured keys instead of joined strings; the counters they raise are part of
  the telemetry model only. The table has no size bound for request entries, as in the source.
- RateLimits.AcceptedBound: arithmetic over reals, without floating point rounding.
- Visits.LetInBound: times do not go back from one attempt to the next. The limiters of sish and of the control plane
  read the clock before they take their lock, so two attempts at nearly the same time may be entered in the other
  order; the bounds do not cover that.
- Draining.CanDrain: that going on is possible; nothing is claimed about when it happens.
- HTTP handlers, OAuth, cookies, the web interface, DNS and Discord clients, SSH key parsing, configuration and deployment.
