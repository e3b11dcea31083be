# Syna: verified model

Syna keeps directories of several devices in sync through one server that only ever sees sealed payloads. The server
gives every event a sequence number, refuses an update whose author has not seen the newest event of the path, keeps
snapshots, and prunes what no client needs any more. Clients keep an index of what they last saw at each path, catch up
over HTTP, are woken by a live stream, and resolve conflicts without losing local bytes. This project models these parts
in Dafny and proves what they promise. `dafny verify dfyconfig.toml` checks all of it.

## How the model is laid out

**One abstraction carries the server and the clients** (`Records`, `EventLog`): the append-only log of one workspace and
its fold, in which the last content event of a path wins and a root's history is cut where the root is added or removed.

**Server.** `Tables` holds the database as maps and sets. `EventTable`, `SnapshotTable`, `Retention` and
`WorkspacePurge` say what each transaction does. `ServerState` makes them the steps of a state machine that also
remembers every event ever accepted, the highest seq ever pruned and what each request listed. `SubmitProofs`,
`HorizonProofs`, `CountProofs` and `ServerInvariant` prove one invariant over all of its runs; `AcceptanceTheorems`,
`RetentionTheorems`, `FetchGaps`, `ObjectTheorems`, `SharedManifests` and `BootstrapReads` draw the conclusions.
`Origins` traces every row to the request that brought it, `RetentionEffects` says row by row what pruning and purging
take and what they may never take, and `CountLeaks` by how much a count may exceed its rows. `Store` is the server's
code itself: a class over the tables whose methods run the loops and statements of the source and are proved to take
exactly the steps of that machine.

**Clients.** `Clients` is one client's cursor, roots and index. `ClientProofs`, `ConsumeProofs`, `BootstrapProofs`,
`UploadProofs` and `SnapshotExactness` say what such a client knows about the log: an entry tagged t holds what the log
gave its path at t, and the index of a tracked root is not behind the cursor. `Replication` interleaves any number of
clients with the server; `ReplicationProofs`, `ReplicationInvariant` and `ReplicationTheorems` prove the invariant and
its consequences over every run. `RootDecisions` and `ClientSteps` say field by field what a bootstrap, one event and
one refusal change in a client. `Replays` follows one row through a replay; with it `BootstrapTheorems` says exactly
what a bootstrap reconstructs, and `BootstrapRuns` reaches the two cases in which it does not. `Follower`,
`BootstrapLoop` and `InitialSync` are the client's code with its loops, proved against the functions that these proofs
use, and `CatchUpTheorems` runs the catch-up loop against a server that moves on between two pages.

**Live stream.** `Hub` is the fan-out hub as a class; `Stream` the protocol of submit, hub, socket, reader and client.

**Byte-preserving recovery.** `Conflict`, `SnapshotMerge`, `ConflictNames` and `PurgeStaging` model a file system as a
map (or as sets of blob ids) on which any step may fail and, for purges, the process may stop between any two steps.

**Scanning and transfer.** `Rescan` and `Hints` model what a rescan submits and which index rows a merged hint covers;
`Chunks` and `Aad` model how file bytes are cut, sealed, checked and put together again.

## Modelling decisions

- A database transaction is one step. A submission or a snapshot and the floor recompute that follows its commit are one
  step together (in `Stream` the recompute may fail, and then the commit is never published), and a pruning pass is one
  completed step. Clocks, the moment a request arrives, lost answers, failing unlinks and the choice of files that are
  in the way are arbitrary parameters.
- Seals and digests are ideal: a seal opens only with its own key and additional data, equal digests mean equal bytes.
- A client's request and the use of its answer are one step of a replicated run. The head that a path conflict names is
  fetched by its seq, so other clients' steps in between could only remove it or raise the floor above it; in either
  case nothing is applied (`ClientSteps.FetchableIff`).
- In a replicated run a client consumes any event above its cursor such that whatever lies between was pruned. The pages
  of the source do exactly that (`RetentionTheorems.StoredIsLog`), at whatever moment they were read. Once a client has
  passed over pruned events no root of it counts as tracked any more.
- The bootstrap answer that a client of a replicated run loads is one moment's answer. The handler reads roots and head
  in two statements; `BootstrapReads` says exactly when its answer is nevertheless one moment's.
- A published snapshot's object id is new, as its blob is sealed under a fresh nonce.
- `tracked` and `mine` in `Clients.Client` are history: they never influence what a client does.

## Where code and documentation differ

The model follows the code in each case.

- docs/05-sync-protocol.md:208 wants a content event's base to equal the path's head. The code accepts any base that is
  not behind it (internal/server/db/events.go:105-111); `AcceptanceTheorems.ContentAcceptedIff` is the exact condition.
- docs/05-sync-protocol.md:273 says that the server does not omit retained events above the retained floor. That holds
  of the events it still stores, but the floor does not say which those are: it falls back to 0 when a root without a
  snapshot is added, also after pruning, and a fetch from there is answered although pruned events lie above the cursor.
  `FetchGaps.FetchCompleteIff` says exactly when a page is the whole log and `FetchGaps.GapIsReachable` gives a run in
  which it is not; at or above the bootstrap cursor it always is (`RetentionTheorems.RetentionHorizon`).

## Properties that fail, and when they hold

- Chunk references of snapshots are keyed by the snapshot object alone, so pruning one row can take another row's
  references: `SharedManifests.PruneKeepsManifestIff`. `SharedManifests.SharedManifestIsLost` is a run of the server
  after which a live root's snapshot names a chunk that nobody can download any more.
- A bootstrap reconstructs kind and content of a path unless the root came back without a snapshot, nothing was written
  to the path since, and the client still holds its earlier row: `BootstrapTheorems.BootstrapReconstructs`. A reachable
  system in which it does: `BootstrapRuns.StaleRowStays`.
- It reconstructs every field, a file's mode among them, unless moreover the path's last event is the client's own,
  above the snapshot and not above the client's row, nobody else wrote the path since the cursor, and the snapshot
  brings the row's content with other attributes: `BootstrapTheorems.ModeReconstructedIff`. A reachable system in which
  the mode is lost: `BootstrapRuns.ModeMayLag`.
- An id that an event lists twice is counted twice but has one row, so its count stays above its rows and no pruning
  pass ever takes the object, named or not, until the purge of some workspace recounts: `CountLeaks.SurplusMoves` and
  `CountLeaks.LeakedObjectStays`. Without repeated ids counts equal rows (`ObjectTheorems.CountsAreConserved`).
- After a path conflict one retry is accepted if and only if a fetch still brings the event that the refusal names:
  `ClientSteps.RetrySucceedsIff`. A refusal that names no event repeats itself.
- Applying a snapshot loses a local file if and only if a conflict copy that is needed has the name of a file with other
  bytes, since the rename does not look: `SnapshotMerge.EveryFileAccountedIff`, with a concrete loss in
  `SnapshotMerge.TakenNameLosesBytes`.
- After a remote put a rescan has nothing to say if and only if every directory above the path was there; one that the
  put had to make is echoed: `Rescan.RemotePutIsEchoedIffItMadeParents`, with a concrete echo in
  `Rescan.MadeParentIsEchoed`.
- A commit whose floor recompute fails is never published, and an idle client may stay behind the head
  (`Stream.LostPublicationStrands`). In any reachable state an idle client on a live stream that is left alone gets to
  the head if and only if it is there already or anything at all is pending for it, unless its channel overflows:
  `Stream.IdleReachesHeadIff`, for every phase `Stream.EndsAtHeadIff`. It always does when every commit is published
  (`Stream.AllPublishedMeansHead`, `Stream.NoLostWakeUpAtHead`), and after a loss at the next commit that is
  (`Stream.NextCommitHeals`).
- A bootstrap answer covers every active root, listed or announced by a root_add above the cursor, if and only if some
  root was active when the handler read the roots or none is when it reads the head: `BootstrapReads.NoRootIsMissedIff`.
  The run in which the first root is added in between: `BootstrapReads.RootAddedBetweenReadsIsMissed`.

## Model

| member | source | states |
|---|---|---|
| `Store.Store.SubmitEvent` | internal/server/db/events.go:19-221 | The whole transaction, branch by branch, leaves exactly the next state of the server machine, answers with the seq or the first refusal that applies, and keeps the server invariant |
| `Store.Store.Refuse` | internal/server/db/events.go:20-113 | The checks in their order: which refusal a submission gets, or none |
| `Store.Store.WriteRootOrHead` | internal/server/db/events.go:127-173 | A root_add resets the row and its snapshot columns, a root_remove closes it, both drop the root's heads; a content event replaces one head |
| `Store.Store.WriteEventRefs` | internal/server/db/events.go:175-182 | Reference rows are a set, yet every listed id raises its count as often as it is listed |
| `Store.Store.FetchEvents` | internal/server/db/events.go:239-301 | Resync below the floor, otherwise the stored events above the cursor in ascending order, at most `limit`, each with exactly the objects its rows name |
| `Store.Store.IncrementRef` | internal/server/db/refs.go:8-13 | Raises the count and clears the zero mark |
| `Store.Store.DecrementRef` | internal/server/db/refs.go:15-26 | Lowers the count down to zero at most and marks when zero was reached |
| `Store.Store.ComputeFloor` | internal/server/db/workspace.go:112-136 | The loop with 0 as sentinel computes 0 if some active root lacks a snapshot, else the least snapshot seq, else the head |
| `Store.Store.RecomputeRetainedFloor` | internal/server/db/workspace.go:112-139 | Writes that floor and nothing else |
| `Store.Store.AnswerBootstrap` | internal/server/api/bootstrap.go:25-60 | Whatever rows the first read found and whatever head the second: all rows are listed, and the cursor is their least contribution, or that head if there is no row |
| `Store.Store.Bootstrap` | internal/server/api/bootstrap.go:16-60 | Lists each active root once and hands out the least contribution, or the head if there is none, when nothing commits between its two reads |
| `Store.Store.SaveSnapshot` | internal/server/db/snapshots.go:13-94 | Checks, row inserts, latest pointer and floor recompute leave the next state of the server machine |
| `Store.Store.RefuseSnapshot` | internal/server/db/snapshots.go:20-57 | Which of the eight refusals a snapshot gets, or none |
| `Store.Store.WriteSnapshotRefs` | internal/server/db/snapshots.go:79-89 | Only reference rows that are new raise a count |
| `Store.Store.CreateWorkspace` | internal/server/db/workspace.go:17-62 | Creates a workspace with cursor and floor 0 if it does not exist |
| `Store.Store.PutObject` | internal/server/objectstore/store.go:28-89 | Afterwards the blob is stored, has a row that kept an earlier count, and is visible if the workspace exists; the server invariant holds |
| `Store.Store.PruneEvents` | internal/server/db/maintenance.go:47-84 | With the floors read up front, the nested loops take exactly the expired events and lower each reference once |
| `Store.Store.PruneSnapshots` | internal/server/db/maintenance.go:86-140 | The loop takes exactly the obsolete rows, with their own and their references' counts |
| `Store.Store.PruneObjects` | internal/server/db/maintenance.go:142-160 | Deletes exactly the objects whose count has been zero long enough |
| `Store.Store.CollectGarbage` | internal/server/admin/admin.go:62-74 | A completed pass, then the unlinking of the blobs it reports, some of which may fail |
| `Store.Store.DropWorkspaceRows` | internal/server/db/purge.go:69-116 | The ordered deletes remove everything the workspace owns and nothing another one needs |
| `Store.Store.RecountObjects` | internal/server/db/purge.go:118-131 | Rebuilds every count from the rows and keeps an earlier zero mark |
| `Store.Store.DeleteCandidates` | internal/server/db/purge.go:133-148 | Of the candidates exactly those that no row names any more are deleted |
| `Store.Store.PurgeWorkspace` | internal/server/db/purge.go:54-153 | The purge transaction and its blobs leave the next state of the server machine |
| `ServerInvariant.StepKeepsInv` | internal/server/db/events.go:115-197 | Every operation keeps keys, counts, folds of the log, floors and the pruning horizon |
| `ServerInvariant.ReachableStatesAreSound` | internal/server/db/migrations.go:1-110 | The server invariant holds in every state any run of operations can reach |
| `ServerInvariant.SubmitFloors` | internal/server/db/events.go:193-197 | The stored floor equals its definition after every submission, although content events never recompute it |
| `ServerInvariant.PrunedObjectsAreUnreferenced` | internal/server/db/maintenance.go:142-160 | What a pass deletes is named by no event, snapshot or manifest row that is left |
| `HorizonProofs.FloorBelowCursor` | internal/server/api/bootstrap.go:51-58 | The floor never exceeds the bootstrap cursor |
| `HorizonProofs.BoundedBelow` | internal/server/api/bootstrap.go:30-60 | The cursor is the greatest lower bound of the contributions of the active roots |
| `AcceptanceTheorems.ContentAcceptedIff` | internal/server/db/events.go:72-113 | A content event is accepted if and only if it is well-formed, its root is active in the log, a bound it carries names that incarnation, and no event on its path came after its base |
| `AcceptanceTheorems.MismatchNamesTheHead` | internal/server/db/events.go:97-112 | A path-head mismatch is the answer exactly when all but the base is right, and it names the path's head in the log, or 0 |
| `AcceptanceTheorems.RootAddAcceptedIff` | internal/server/db/events.go:41-55 | In every reachable state a root_add is accepted if and only if it names a root, the workspace exists and sees all references, the kind is a directory or a file, and the log has no active incarnation of the root |
| `AcceptanceTheorems.RootRemoveAcceptedIff` | internal/server/db/events.go:56-72 | Likewise a root_remove, if and only if the log has one and a bound it carries names it |
| `AcceptanceTheorems.SnapshotAcceptedIff` | internal/server/db/snapshots.go:20-57 | A snapshot is accepted if and only if its base lies in the log from the current root_add on, it is not older than the latest one, and the workspace sees all its objects |
| `AcceptanceTheorems.BoundLandsInItsIncarnation` | internal/server/db/events.go:66-90 | An event that names an incarnation lands in that incarnation only |
| `AcceptanceTheorems.RunKeepsOptimistic` | internal/server/db/events.go:92-112 | Over every run, every event of a log was in step with its path when it was appended |
| `AcceptanceTheorems.NothingBetweenBaseAndSeq` | internal/server/db/events.go:92-113 | In every reachable log no event lies on the same path and incarnation between an event's base and its seq |
| `Origins.AcceptedIsAppended` | internal/server/db/events.go:115-126 | An accepted submission appends one event with its own path, kind, base, payload, author and time to its workspace's log, stores it, and touches no other log |
| `Origins.EventsComeFromRequests` | internal/server/db/events.go:115-126 | Over every run each event of a log carries the fields of one accepted submission of that run |
| `Origins.RootsComeFromRootAdds` | internal/server/db/events.go:127-152 | Over every run each root row has the kind, descriptor and seq of one accepted root_add |
| `Origins.ActiveRowIsItsRootAdd` | internal/server/db/events.go:127-152 | For an active root it is the root_add that the log names as the current incarnation |
| `Origins.SaveIsRecorded` | internal/server/db/snapshots.go:59-89 | An accepted save leaves its row unless there is one, the pointer of its root alone, and every reference; nothing else changes |
| `Origins.SnapshotsComeFromSaves` | internal/server/db/snapshots.go:59-66 | Over every run each snapshot row records base, author and time of one accepted save |
| `Origins.PointersComeFromSaves` | internal/server/db/snapshots.go:67-73 | Over every run the object and base a root points to come from one accepted save for that root |
| `EventLog.HeadFollowsIncarnation` | internal/server/db/events.go:143-156 | A path's head is always an event of the root's current incarnation |
| `RetentionTheorems.StoredIsLog` | internal/server/db/maintenance.go:47-84 | Above everything pruned, the stored events are exactly the accepted ones |
| `RetentionTheorems.FetchIsComplete` | internal/server/db/events.go:254-300 | A fetch from at or above everything pruned is the next slice of the log, none missing |
| `RetentionTheorems.CursorNeverFallsBack` | internal/server/api/bootstrap.go:30-60 | Within one lifetime of a workspace its bootstrap cursor never decreases |
| `RetentionTheorems.RetentionHorizon` | internal/server/api/bootstrap.go:25-60 | Over every run the cursor a bootstrap hands out never falls back and is at or above floor and prunings; from it or from above, everything newer is stored and a fetch is the next slice of the log, never a resync |
| `RetentionTheorems.FetchMakesProgress` | internal/client/daemon/daemon.go:1537-1542 | Even below the horizon a fetch that asks for no resync brings an event whenever there is a newer one |
| `RetentionEffects.ResyncIff` | internal/server/db/events.go:246-256 | A fetch is answered with a resync if and only if every active root has a snapshot newer than the cursor and, where no root is active, the cursor is behind the head |
| `RetentionEffects.PruneTakesExactly` | internal/server/db/maintenance.go:47-140 | A pass takes an event if and only if the floor has reached it and its retention is over, a snapshot row if and only if its retention is over and its root is gone, removed or points elsewhere; everything else stays as it was |
| `RetentionEffects.PruneDeletesIff` | internal/server/db/maintenance.go:142-160 | Where counts equal rows it deletes an object if and only if it leaves no row that names it and the object has been without one long enough |
| `RetentionEffects.YoungEventsStay` | internal/server/db/maintenance.go:68-84 | Over every run an event younger than the retention of each pass is still stored |
| `RetentionEffects.CollectedWasUnused` | internal/server/db/maintenance.go:142-160 | Over every run whose clock does not run backwards nothing is collected that a row named within the zero-reference retention |
| `FetchGaps.FetchCompleteIff` | internal/server/db/events.go:254-263 | A fetch at or above the floor is complete if and only if the cursor is not below everything pruned |
| `FetchGaps.RootAddOpensGap` | internal/server/db/workspace.go:125-131 | Adding a root drops the floor to 0, below what was pruned |
| `FetchGaps.GapIsReachable` | internal/server/db/events.go:254-256 | A concrete run after which a fetch at the floor silently misses events |
| `BootstrapReads.LogGrows` | internal/server/db/events.go:115-187 | Over every run that does not purge a workspace its log only gets longer |
| `BootstrapReads.AnswerIsOneMomentsIff` | internal/server/api/bootstrap.go:16-25 | Whatever commits between the two reads, the answer is that of the first moment or of the second if and only if a root was active at the first read or none is at the second |
| `BootstrapReads.NoRootIsMissedIff` | internal/server/api/bootstrap.go:16-60 | Every root active at the second read is listed in its current incarnation or added above the cursor under exactly the same condition |
| `BootstrapReads.RootAddedBetweenReadsIsMissed` | internal/server/api/bootstrap.go:16-25 | A reachable run whose answer neither lists the first root nor leaves its root_add above the cursor |
| `ObjectTheorems.CollectionIsSafe` | internal/server/db/maintenance.go:66-160 | In every reachable state counts are at least the rows, and a pass deletes nothing that is named |
| `ObjectTheorems.CountsAreConserved` | internal/server/db/events.go:175-182 | Counts equal the rows over every run whose requests repeat no id |
| `ObjectTheorems.PurgeRestoresCounts` | internal/server/db/purge.go:118-131 | After a purge counts equal the rows again, whatever requests came before |
| `CountLeaks.SurplusMoves` | internal/server/db/events.go:175-182 | The surplus of a count over its rows grows by one for each repeated id of an accepted event, is cleared by a purge, and is otherwise conserved by every step |
| `CountLeaks.LeakedObjectStays` | internal/server/db/maintenance.go:142-160 | Over every run without a purge an object with a surplus is never collected, even once nothing names it |
| `RetentionEffects.PurgeTakesExactly` | internal/server/db/purge.go:69-116 | A purge leaves no row of its workspace and every row of all others |
| `RetentionEffects.PurgeDeletesIff` | internal/server/db/purge.go:118-148 | It deletes an object, row and blob, if and only if this workspace alone may name it and no manifest that survives lists it |
| `ObjectTheorems.EventRefsAreDownloadable` | internal/server/db/events.go:34-38 | Every reference of every stored event has a row, is visible to the workspace and has its blob |
| `ObjectTheorems.SnapshotsAreDownloadable` | internal/server/db/snapshots.go:50-89 | So do the latest snapshot of every active root and all chunks it was published with |
| `SharedManifests.PruneKeepsManifestIff` | internal/server/db/maintenance.go:110-140 | A surviving snapshot keeps its chunk references if and only if no expired row names the same object |
| `SharedManifests.SharedManifestIsLost` | internal/server/db/maintenance.go:86-160 | A run from the empty server after which a live root still points to its snapshot, but a chunk the publisher listed cannot be downloaded |
| `SharedManifests.PurgeKeepsSharedManifest` | internal/server/db/purge.go:82-94 | A purge, in contrast, keeps the references of a snapshot object another workspace uses |
| `Follower.Daemon.AdvanceLastSeq` | internal/client/state/db.go:248-255 | The cursor becomes the maximum |
| `Follower.Daemon.EventMaterializedLocally` | internal/client/daemon/daemon.go:1830-1863 | The loop over the entries decides whether an own event's effect is already local |
| `Follower.Daemon.EnsureRoot` | internal/client/daemon/daemon.go:1642-1736 | An active root of the same kind stays; any other becomes active or blocked |
| `Follower.Daemon.MarkRootRemoved` | internal/client/daemon/daemon.go:2184-2197 | The root is removed together with its entries |
| `Follower.Daemon.ApplyRemoteEvent` | internal/client/daemon/daemon.go:1738-1807 | The index effect of each event kind |
| `Follower.Daemon.ConsumeRemoteEvent` | internal/client/daemon/daemon.go:1809-1828 | Own materialized events are skipped, all others applied; the cursor moves either way |
| `Follower.Daemon.CatchUp` | internal/client/daemon/daemon.go:1519-1547 | Whatever the server answers, the loop replays the delivered pages in order and ends at the first answer that says so: at the head, with a resync, or with an error |
| `CatchUpTheorems.PagesAreSlice` | internal/client/daemon/daemon.go:1519-1547 | At or above the horizon all pages together are one slice of the log, while the log grows between two fetches |
| `CatchUpTheorems.WaitingPagesAreFull` | internal/client/daemon/daemon.go:1519-1547 | Every page that does not end the loop is as long as the limit the server granted it, at most the client's and lower where the server caps pages, so the loop ends once the log stops growing |
| `CatchUpTheorems.NeverWithoutProgress` | internal/client/daemon/daemon.go:1537-1542 | The "no progress" error cannot arise, pruned events below the cursor or not |
| `CatchUpTheorems.CatchUpAgrees` | internal/client/daemon/daemon.go:1519-1547 | A catch-up that ended at the head leaves every followed root equal, path by path, to the log its last page was read from |
| `BootstrapLoop.SnapshotRows` | internal/client/daemon/snapshot_apply.go:98-112 | Rows of a snapshot; a path it does not change keeps its earlier seq |
| `BootstrapLoop.RemoveUnlisted` | internal/client/daemon/daemon.go:1582-1596 | Local roots the server does not list are removed with their rows, all others stay |
| `BootstrapLoop.Bootstrap` | internal/client/daemon/daemon.go:1549-1599 | The two loops and the cursor reset rebuild the client state that the replication proofs use |
| `InitialSync.SubmitInitialRootEntries` | internal/client/daemon/initial_sync.go:28-159 | Whatever the server answers, the entries mirror the items up to the first that is not accepted, each at the seq of its answer; their chunks are collected, and that item is reported if it met a conflict |
| `InitialSync.WriteEntries` | internal/client/state/db.go:380-395 | Replaces the root's rows by the collected ones |
| `InitialSync.StillMatches` | internal/client/daemon/daemon.go:680-697 | The eligibility comparison: as many rows as entries, and every entry unchanged |
| `InitialSync.BuildInitialSnapshot` | internal/client/daemon/initial_sync.go:161-183 | The payload and its base, the seq of the last entry; nothing for an empty upload |
| `ConsumeProofs.ConsumeKeepsClient` | internal/client/daemon/daemon.go:1809-1863 | Consuming the next event keeps the index true of the log and not behind the cursor, skipped own events included |
| `ConsumeProofs.ConsumeKeepsEntries` | internal/client/applier/applier.go:84-92 | Even over a gap every entry tagged t holds what the log gave its path at t |
| `BootstrapProofs.RebuildKeepsClient` | internal/client/daemon/daemon.go:1549-1599 | Loading a bootstrap keeps every entry true and leaves every reloaded root's index not behind the new, older cursor |
| `UploadProofs.ConsumeKeepsAdding` | internal/client/daemon/daemon.go:567-569 | While an upload reconciles, everything consumed of the incarnation has left a mark on the index |
| `SnapshotExactness.OnlyUploads` | internal/client/daemon/daemon.go:680-697 | If the comparison succeeds, the incarnation holds nothing but the uploaded events up to the cursor |
| `SnapshotExactness.EligibleSnapshotIsExact` | internal/client/daemon/daemon.go:590-612 | An eligible snapshot is the fold of its incarnation up to its base, written by one author |
| `ReplicationInvariant.ActionKeepsSys` | internal/client/daemon/daemon.go:1917-2107 | Every action of any client or of the server keeps the invariant of the replicated system |
| `ReplicationInvariant.ReachableSystemsAreSound` | internal/client/daemon/daemon.go:1288-1370 | The invariant holds for any number of clients in any interleaving |
| `ReplicationTheorems.NoSilentOverwrite` | internal/client/daemon/daemon.go:1991-2100 | Whenever a content event is accepted, its author's index and the log agree on the path's content just before it, even with a base ahead of the head |
| `ReplicationTheorems.UploadOverwritesNothing` | internal/client/daemon/initial_sync.go:73-159 | An initial upload is only accepted at paths that hold nothing |
| `ReplicationTheorems.InitialSnapshotExactness` | internal/client/daemon/daemon.go:520-612 | For every interleaving, an accepted initial snapshot is the fold of its incarnation up to its base, with a single author |
| `ReplicationTheorems.SnapshotsStayExact` | internal/server/db/snapshots.go:37-49 | At any later time the snapshot an active root points to is still exactly that fold |
| `ReplicationTheorems.Converged` | internal/client/daemon/daemon.go:1519-1547 | A caught-up client's index of a tracked root is the fold of the log, path by path |
| `ReplicationTheorems.CaughtUpClientsAgree` | internal/client/daemon/daemon.go:1519-1547 | Two caught-up clients agree on every path |
| `ReplicationTheorems.KeepsFollowing` | internal/client/daemon/daemon.go:1809-1863 | A client at or above the horizon keeps tracking a root through everything but its removal, a blocked re-creation or a new bootstrap |
| `RootDecisions.BootstrapDecides` | internal/client/daemon/daemon.go:1612-1735 | After a bootstrap a listed root is live if and only if it was live with that kind or its target is free, and blocked with its rows untouched otherwise; an unlisted root is removed with its rows |
| `RootDecisions.BootstrapLoads` | internal/client/daemon/snapshot_apply.go:57-215 | In every reachable state the cursor becomes the least contribution, a live root records its snapshot's base, and its rows are the snapshot's entries with the seqs they keep or take |
| `RootDecisions.RootAddDecides` | internal/client/daemon/daemon.go:1738-1780 | A delivered root_add decides in the same way, unless it is the client's own and its root is live, and changes no row |
| `RootDecisions.BlockedRootIsLeftAlone` | internal/client/daemon/daemon.go:1789-1793 | Over every run no event and no rescan changes a row of a blocked root until a bootstrap, a root_add or a local add decides anew; it can only be removed |
| `ClientSteps.ContentDecides` | internal/client/daemon/daemon.go:1809-1863 | A delivered content event of a live root becomes the row of its path unless the client wrote it and already covers it; nothing else changes |
| `ClientSteps.RemovalDecides` | internal/client/daemon/daemon.go:1781-1788 | A delivered root_remove leaves the root removed without rows, and all other roots and rows alone |
| `ClientSteps.SubmissionDecides` | internal/client/daemon/daemon.go:1991-2100 | A live root's submission goes into the log with its author, value and the row's seq as base exactly if it is accepted, and with a heard answer into the row at its new seq; a refused one leaves the server alone |
| `ClientSteps.UploadDecides` | internal/client/daemon/initial_sync.go:73-159 | An upload's item goes into the log with base 0 exactly if it is accepted, and with a heard answer into the collected entries |
| `ClientSteps.FetchableIff` | internal/client/daemon/daemon.go:2109-2126 | The page from just below a seq holds its event if and only if the event is stored and above the retained floor |
| `ClientSteps.RetrySucceedsIff` | internal/client/daemon/daemon.go:1965-1975 | After a path conflict the next submission for the path is accepted if and only if that event could be fetched, and then the row is that event |
| `BootstrapTheorems.ReconstructedIff` | internal/client/daemon/snapshot_apply.go:88-201 | For any sound log, every listed unblocked root, removed above the cursor or not, and every field: snapshot plus replay ends with what the log holds if and only if the row is not an earlier incarnation's and no own head was skipped over another value |
| `BootstrapTheorems.ContentReconstructedIff` | internal/client/daemon/daemon.go:1549-1601 | Kind and content alone fail only for a row of an earlier incarnation |
| `BootstrapTheorems.FullReplayIsExact` | internal/client/daemon/daemon.go:1738-1863 | A client that never wrote and replays the incarnation from its root_add has the log in every field |
| `BootstrapTheorems.ReplayReconstructs` | internal/client/daemon/daemon.go:1549-1601 | A root with a snapshot, one held empty and one followed past the cursor come back at every path |
| `BootstrapTheorems.FollowedRootsComeBack` | internal/client/daemon/daemon.go:1549-1601 | In every reachable state none of these has a row left behind |
| `BootstrapTheorems.LeftBehindIsOld` | internal/client/daemon/daemon.go:1642-1661 | A row left behind carries a seq below the root's current root_add |
| `BootstrapTheorems.BootstrapReconstructs` | internal/client/daemon/daemon.go:1549-1601 | In every reachable state that equals replaying the root's whole incarnation, in kind and content, if and only if no row of an earlier incarnation is left behind |
| `BootstrapTheorems.ModeReconstructedIff` | internal/client/daemon/snapshot_apply.go:193-201 | In every reachable state the exact condition under which all fields, the mode among them, are reconstructed |
| `BootstrapRuns.ModeMayLag` | internal/client/daemon/snapshot_apply.go:193-201 | A run of eight actions after which a bootstrap gives a file its old mode, unlike the log |
| `BootstrapRuns.StaleRowStays` | internal/client/daemon/daemon.go:1642-1661 | A run of five actions after which a bootstrap keeps a file that the log no longer has |
| `Hub.Broker.Subscribe` | internal/server/hub/hub.go:30-48 | Refused exactly at the limit, otherwise one empty open channel joins |
| `Hub.Broker.Unsubscribe` | internal/server/hub/hub.go:50-66 | Leaves one workspace once; a channel is closed at most once |
| `Hub.Broker.Publish` | internal/server/hub/hub.go:68-85 | Every subscriber of the workspace gets the message or is closed and leaves; nobody else is touched |
| `Hub.NothingSkipped` | internal/server/hub/hub.go:68-85 | Over any publishes and takes, what was taken plus what waits is all that was published, in order, while the channel is open, and a prefix of it once closed |
| `Hub.ClosedIffTooFarBehind` | internal/server/hub/hub.go:71-84 | A subscription ends if and only if its socket once fell more than 32 messages behind |
| `Stream.NextKeepsInv` | internal/server/api/websocket.go:27-77 | Every step of submit, hub, socket, reader and client keeps news of the head on its way |
| `Stream.NoLostWakeUp` | internal/client/daemon/daemon.go:1325-1437 | While a stream is alive and its client idle behind the last commit that is published at all, a publication, message or notification is pending |
| `Stream.FanOutInOrder` | internal/server/api/events.go:80-109 | What is in flight to a client is in commit order, each message at most once |
| `Stream.DeliveryCatchesUp` | internal/client/daemon/daemon.go:1459-1491 | Left alone, delivery ends after boundedly many steps with the cursor at or above the last published commit or a dead stream |
| `Stream.LostPublicationStrands` | internal/server/api/events.go:85-105 | A run in which a failed floor recompute leaves an idle client behind the head with nothing on its way |
| `Stream.EndsAtHeadIff` | internal/client/daemon/daemon.go:1325-1491 | Left alone in any sound state, a client's stream survives if and only if it was alive and has room for the message about to be published; then the cursor ends at the head if and only if it was there or anything was left that makes the client look |
| `Stream.IdleReachesHeadIff` | internal/client/daemon/daemon.go:1325-1437 | In every reachable state an idle client of a live stream ends at the head if and only if it is there or a publication, message or notification is pending, whichever commit that is about |
| `Stream.AllPublishedMeansHead` | internal/server/api/events.go:85-105 | In a run in which no floor recompute fails the last published commit is the head |
| `Stream.NoLostWakeUpAtHead` | internal/client/daemon/daemon.go:1325-1437 | In such a run news of the head itself is pending for every idle live client behind it, and delivery brings every client to the head or ends its stream |
| `Stream.NextCommitHeals` | internal/server/api/events.go:85-105 | From any reachable state the next published commit brings every live client to the head |
| `Conflict.Resolver.Resolve` | internal/client/daemon/conflict.go:26-141 | For every combination of failing steps and races the file's bytes are at every moment at their path, at a conflict copy or in the staging file. A call that succeeds has done what the fetched head asks for: kept the file over a deletion, taken the seq of equal content, resubmitted a newer edit on top of the head, or put the head into row and path and the bytes at a copy that was accepted. Without a failed step, a bootstrap, a refusal or five taken names it succeeds, and nothing else on disk changes but the copies' names |
| `Conflict.Resolver.RestoreReplacing` | internal/client/daemon/conflict.go:143-159 | Puts the staged bytes back over whatever the path became, or reports that it could not |
| `Conflict.Resolver.RestoreNewerLocalEdit` | internal/client/daemon/conflict.go:167-208 | Exactly over the last synced content the local edit goes back and is submitted with the head's seq as its base |
| `Conflict.Resolver.UploadConflictCopy` | internal/client/daemon/conflict.go:92-140 | Names are tried in turn, each with the seq of its row as base, until one is accepted; of a file root the copy stays local; it ends otherwise only by a failure, a refusal, a bootstrap or five conflicts |
| `Conflict.Resolver.WriteConflictCopy` | internal/client/daemon/conflict.go:285-361 | Once renamed into place the copy holds the staged bytes |
| `Conflict.Resolver.HeadAllowsRetry` | internal/client/daemon/conflict.go:243-256 | Retry exactly over a missing or deleted head; equal exactly if the hashes are |
| `ConflictNames.DeviceShort` | internal/client/daemon/conflict.go:379-391 | A device's short name is 1 to 16 lower-case letters, digits and dashes |
| `ConflictNames.DeviceShortIsItsWords` | internal/client/daemon/conflict.go:379-391 | It is the first 16 characters of the name's lower-case words joined by dashes, or says device if there are none |
| `ConflictNames.ConflictNameIsInjective` | internal/client/daemon/conflict.go:363-377 | A conflict name gives back the file name and the mark it was made from |
| `ConflictNames.ConflictPathsNeverCollide` | internal/client/daemon/conflict.go:363-377 | Distinct paths, or distinct seconds, never share a conflict copy |
| `SnapshotMerge.Merger.ApplySnapshot` | internal/client/daemon/snapshot_apply.go:57-215 | Whatever fails, every local file is still there, at its conflict copy, or was exactly what had been synced, as long as needed copy names are free. A successful call has made every directory, put the snapshot's bytes or the newer local ones at every file, kept everything else, loses a file if and only if a copy's name was taken, and leaves exactly the snapshot's entries as rows, field by field; without a failed step it fails only if a node of the wrong kind is in the way |
| `SnapshotMerge.SnapshotLands` | internal/client/daemon/snapshot_apply.go:71-187 | What every path holds after a fault-free call, in terms of the disk, rows and entries before it |
| `SnapshotMerge.Merger.MergeFile` | internal/client/daemon/snapshot_apply.go:99-187 | The three-way decision for one file |
| `SnapshotMerge.StepAccounts` | internal/client/daemon/snapshot_apply.go:117-133 | One entry's merge loses no other file and no earlier conflict copy |
| `SnapshotMerge.EveryFileAccountedIff` | internal/client/daemon/snapshot_apply.go:88-187 | Over a whole fault-free call every local file is accounted for if and only if no diverged entry's copy name is held by a file with other bytes |
| `SnapshotMerge.TakenNameLosesBytes` | internal/client/daemon/snapshot_apply.go:322-325 | A concrete loss when the conflict copy's name is taken |
| `PurgeStaging.Admin.StagePurgeObjects` | internal/server/admin/admin.go:173-215 | On success every candidate's blob is durably aside; otherwise every blob with a row is still somewhere |
| `PurgeStaging.Admin.RestoreStagedObject` | internal/server/admin/admin.go:235-259 | Brings one blob back or leaves it staged; never loses it |
| `PurgeStaging.Admin.PurgeWorkspace` | internal/server/admin/admin.go:76-126 | Stopped or failed anywhere, rows keep their blobs, blobs without a row stay out of the store, and no blob outside the candidates moves; it fails only if a step does |
| `PurgeStaging.Admin.RecoverPurgeStaging` | internal/server/admin/admin.go:128-171 | A completed recovery leaves no staging, and every row that had a blob has it in the store |
| `PurgeStaging.Admin.PurgeSurvivesCrashes` | internal/server/admin/admin.go:76-171 | A purge that stops anywhere and any number of recoveries that may stop too end, as soon as one completes, with the store that was there minus exactly the blobs whose rows the purge deleted |
| `Rescan.Index.RescanRootHint` | internal/client/daemon/daemon.go:1917-2107 | A conflict-free rescan submits each changed path under the hint once, with the seq of its row, and leaves the rows accordingly |
| `Rescan.NothingDueIffSettled` | internal/client/daemon/daemon.go:2000-2052 | Nothing is submitted for a path if and only if index and disk agree up to a directory's mtime |
| `Rescan.RescanSettles` | internal/client/daemon/daemon.go:1941-2101 | Afterwards index and scan agree under the hint and the rest is untouched |
| `Rescan.RescanRecordsTheScan` | internal/client/daemon/daemon.go:1941-2101 | Field by field: no live row where nothing was found, a file's hash, mode and mtime and a directory's mode and mtime where something was |
| `Rescan.SubmittedIff` | internal/client/daemon/daemon.go:1941-2052 | A path is submitted if and only if the kind, a file's hash, mode or mtime, or a directory's mode differs or the rescan is forced, and no rule expects exactly that; with the scanned value and the row's seq |
| `Rescan.SeqMovesIffSubmitted` | internal/client/daemon/daemon.go:1979-2101 | A row's seq moves if and only if its path was submitted, and rows outside the hint stay |
| `Rescan.RescanIsFixpoint` | internal/client/daemon/daemon.go:1941-2101 | A repeated rescan submits nothing |
| `Rescan.RemotePutIsEchoedIffItMadeParents` | internal/client/applier/applier.go:94-181 | After a materialized remote put a rescan has nothing to submit if and only if every directory above the path that the hint covers was already there |
| `Rescan.MadeParentIsEchoed` | internal/client/applier/applier.go:280-292 | A put of a/b.txt into an empty root: the next rescan submits exactly a |
| `Hints.MergeRescanHints` | internal/client/daemon/daemon.go:2646-2666 | The loop computes the common leading components |
| `Hints.MergeIsLongestCommonAncestor` | internal/client/daemon/daemon.go:2646-2666 | An ancestor of both hints and below every other common ancestor |
| `Hints.MergeCommutes` | internal/client/daemon/daemon.go:2646-2666 | The order of two notifications does not matter |
| `Hints.MergeAssociates` | internal/client/daemon/daemon.go:2646-2666 | Nor does the grouping of three |
| `Hints.MergeIsIdempotent` | internal/client/daemon/daemon.go:2646-2666 | A repeated notification changes nothing |
| `Hints.CoveredIffAncestor` | internal/client/daemon/daemon.go:2682-2689 | The string-prefix filter agrees with the component order |
| `Hints.MergeAllCovers` | internal/client/daemon/daemon.go:1873-1888 | What any merged notification covered, the final hint covers |
| `Chunks.UploadFile` | internal/client/uploader/uploader.go:33-94 | Chunks of 1 to 4 MiB, full but for the last, whose concatenation is the file, each sealed for its place |
| `Chunks.CapAdmitsExactly` | internal/common/crypto/crypto.go:236-241 | The download cap admits exactly the blobs of at most the declared size |
| `Chunks.DownloadFile` | internal/client/applier/applier.go:106-147 | The receiver's loop and its checks |
| `Chunks.AcceptedIff` | internal/client/applier/applier.go:106-147 | A download is accepted if and only if every chunk has an allowed size, fits its cap, opens at its place and has that size, and size and digest of the whole are the payload's; it then is the chunks' bytes |
| `Chunks.RoundTrip` | internal/client/applier/applier.go:106-147 | A file of any length comes back byte for byte |
| `Chunks.NothingElseIsAccepted` | internal/client/applier/applier.go:140-147 | Whatever a server answers, nothing but the uploaded bytes is accepted |
| `Chunks.ChunksCannotBeSpliced` | internal/common/crypto/crypto.go:251-253 | A chunk that opens at one place, position and size opens at no other |
| `Aad.JoinIsInjective` | internal/common/crypto/crypto.go:263-272 | Joining NUL-free parts loses nothing, not even their number |
| `Aad.BlobAadIsInjective` | internal/common/crypto/crypto.go:251-253 | Workspace, root, path, index and size can be read back |
| `Aad.DomainsAreSeparate` | internal/common/crypto/crypto.go:251-261 | Blob, event and snapshot data never coincide |

## Left out

- ReplicationTheorems.Converged: and the other statements about replicated indexes compare the kind of an entry and the content hash of a file, because rescans refresh directory mtimes silently and a bootstrap may lose a mode (`BootstrapTheorems.ModeReconstructedIff`).
- BootstrapTheorems.BootstrapReconstructs: and its companions are about roots the client does not block; a blocked root is not materialized at all.
- ReplicationTheorems.NoSilentOverwrite: is about submissions of rescans and conflict resolutions of one workspace within one lifetime; a workspace that is purged and created again is a new system.
- ObjectTheorems.SnapshotsAreDownloadable: assumes that no root publishes as its snapshot an object that another root published; without it the promise fails (`SharedManifests`).
- SnapshotMerge.Merger.ApplySnapshot: says nothing about a local file when a needed conflict copy has the name of a path that the same snapshot brings; files are compared by bytes, not by mode.
- SnapshotMerge.EveryFileAccountedIff: likewise assumes that needed copy names are not paths of the snapshot, and that no directory entry meets a local file, which fails the call.
- Follower.Daemon.CatchUp: takes the answers of successive fetches as its input; a fetch that fails in transport ends it like an unknown workspace. `CatchUpTheorems` assumes the client at or above what was pruned when each page was read; below, a page may have gaps (`FetchGaps`).
- Follower.Daemon.EnsureRoot: does not model the staging of a reactivated root or the rejection of forged descriptors, which change files and log lines, not the index.
- BootstrapLoop.Bootstrap: assumes that no listed root or snapshot is rejected as forged; the code would skip that root and go on.
- Store.Store.PutObject: states the state that an upload ends in, not the order of its three writes; a crash between them is not modelled.
- Conflict.Resolver.Resolve: says what a success has done for an item at the place its relative path names, as every scan gives it; assumes that the user leaves the file alone during the resolution and that remote events are well-formed, so an applied head is never rejected as forged.
- PurgeStaging.Admin.PurgeSurvivesCrashes: assumes that the admin command runs alone and that a commit that reports an error did not happen.
- Hints.MergeRescanHints: takes normalized hints; cleaning a path is a foreign call.
- Rescan.Index.RescanRootHint: covers rescans without a path conflict, and leaves out the catch-up that follows the last submission; a conflict is one of the steps of `Replication` and the subject of `Conflict`, the catch-up that of `Follower`.
- HTTP parsing and status codes, WebSocket framing, heartbeats and timeouts, the Unix-socket RPC, the command line, progress reports and installation: input and output.
- Ciphers, hashes, key derivation, signatures and session tokens: foreign calls.
- A crash inside a pruning pass, and two floor recomputes that race each other: transactions are single steps.
- Symbolic links, permissions, directory trees below a removed directory and the watcher: the file system is a flat map.
- What a live remote event does to a local file that changed since the last scan: the code overwrites it.
- The order in which a bootstrap lists roots and an initial upload walks the scan: the proofs hold for every order.
- Retrying blocked roots with a snapshot and a per-root catch-up, staged roots' disk side, a bootstrap that fails half-way, and the recovery of an interrupted initial upload beyond its index effect.
- Session and device tables, workspace limits, pending-operation queues, warnings, backoff and status assembly: easy members.
