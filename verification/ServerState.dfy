/**
  The server as a state machine: the database, the store's blobs, and a history of everything that was
  ever accepted. The invariant ties every table to a fold of that history.
*/
module ServerState {
  import opened Records
  import opened EventLog
  import opened Tables
  import EventTable
  import SnapshotTable
  import Retention
  import WorkspacePurge

  /**
    `logs` holds every event a workspace accepted in its current lifetime, `pruned` the highest seq a
    pruning pass took from it, `refs` and `manifests` the object ids its requests listed.
  */
  datatype World = World(
    db: Db,
    blobs: set<ObjectId>,
    logs: map<WorkspaceId, seq<Event>>,
    pruned: map<WorkspaceId, int>,
    refs: map<int, set<ObjectId>>,
    manifests: map<SnapshotKey, set<ObjectId>>)

  const EMPTY_WORLD: World := World(EMPTY_DB, {}, map[], map[], map[], map[])

  datatype Step =
    | CreateWorkspace(ws: WorkspaceId)
    | Upload(ws: WorkspaceId, obj: ObjectId, at: Time)
    | SubmitEvent(ws: WorkspaceId, device: DeviceId, req: EventTable.Request, at: Time)
    | SaveSnapshot(ws: WorkspaceId, device: DeviceId, snap: SnapshotTable.Request, at: Time)
    | Prune(at: Time, retention: int, zeroRetention: int, unlinked: set<ObjectId>)
    | Purge(ws: WorkspaceId, at: Time)

  function SetOf<T>(s: seq<T>): set<T> {
    set x | x in s
  }

  ghost function AfterCreate(w: World, ws: WorkspaceId): World {
    if ws in w.db.workspaces then w
    else w.(db := WorkspacePurge.Created(w.db, ws), logs := w.logs[ws := []], pruned := w.pruned[ws := 0])
  }

  /** The blob is linked into the store before its row is written. */
  ghost function AfterUpload(w: World, ws: WorkspaceId, o: ObjectId, at: Time): World {
    w.(db := WorkspacePurge.Associated(WorkspacePurge.Stored(w.db, o, at), ws, o), blobs := w.blobs + {o})
  }

  ghost function AfterSubmit(w: World, ws: WorkspaceId, device: DeviceId, req: EventTable.Request, at: Time): World {
    var (outcome, db) := EventTable.Submit(w.db, ws, device, req, at);
    if outcome.Refused? || ws !in w.logs then w.(db := db)
    else w.(db := db,
            logs := w.logs[ws := w.logs[ws] + [EventTable.NewEvent(w.db, ws, device, req, at)]],
            refs := w.refs[outcome.seqno := SetOf(req.refs)])
  }

  ghost function AfterSave(w: World, ws: WorkspaceId, device: DeviceId, req: SnapshotTable.Request, at: Time): World {
    var (refusal, db) := SnapshotTable.Save(w.db, ws, device, req, at);
    var key := (ws, req.root, req.obj);
    if refusal.Some? then w.(db := db)
    else w.(db := db,
            manifests := w.manifests[key := SetOf(req.refs) + (if key in w.db.snapshots && key in w.manifests
                then w.manifests[key] else {})])
  }

  function Max(a: int, b: int): int {
    if a < b then b else a
  }

  ghost function HighestPruned(w: World, ws: WorkspaceId, gone: set<int>): int
    requires ws in w.pruned
  {
    var mine := set s | s in gone && s in w.db.events && w.db.events[s].ws == ws;
    Max(w.pruned[ws], Highest(mine))
  }

  ghost function Highest(s: set<int>): (m: int)
    ensures forall x | x in s :: x <= m
    ensures s != {} ==> m in s
    ensures s == {} ==> m == 0
  {
    if s == {} then 0
    else
      var negated := set x | x in s :: -x;
      assert -Pick(s) in negated;
      var m := -Least(negated);
      assert forall x | x in s :: -x in negated;
      m
  }

  /** Blobs of pruned objects are unlinked afterwards; a failing unlink is ignored. */
  ghost function AfterPrune(w: World, at: Time, retention: int, zeroRetention: int, unlinked: set<ObjectId>): World {
    var gone := Retention.ExpiredEvents(w.db, at - retention);
    w.(db := Retention.Prune(w.db, at, retention, zeroRetention),
       blobs := w.blobs - (Retention.PrunedObjects(w.db, at, retention, zeroRetention) * unlinked),
       pruned := map ws | ws in w.pruned :: HighestPruned(w, ws, gone))
  }

  ghost function AfterPurge(w: World, ws: WorkspaceId, at: Time): World {
    if ws !in w.db.workspaces then w
    else
      var db := WorkspacePurge.Purged(w.db, ws, WorkspacePurge.Candidates(w.db, ws), at);
      w.(db := db,
         blobs := w.blobs - (w.db.objects.Keys - db.objects.Keys),
         logs := w.logs - {ws},
         pruned := w.pruned - {ws},
         manifests := map k | k in w.manifests && k.0 != ws :: w.manifests[k])
  }

  ghost function Next(w: World, step: Step): World {
    match step
    case CreateWorkspace(ws) => AfterCreate(w, ws)
    case Upload(ws, o, at) => AfterUpload(w, ws, o, at)
    case SubmitEvent(ws, device, req, at) => AfterSubmit(w, ws, device, req, at)
    case SaveSnapshot(ws, device, snap, at) => AfterSave(w, ws, device, snap, at)
    case Prune(at, retention, zeroRetention, unlinked) => AfterPrune(w, at, retention, zeroRetention, unlinked)
    case Purge(ws, at) => AfterPurge(w, ws, at)
  }

  ghost function Run(w: World, steps: seq<Step>): World
    decreases |steps|
  {
    if steps == [] then w else Next(Run(w, steps[..|steps| - 1]), steps[|steps| - 1])
  }

  /** The states a server that starts empty can get into. */
  ghost predicate Reachable(w: World) {
    exists steps :: w == Run(EMPTY_WORLD, steps)
  }

  /** Keys and foreign keys. */
  ghost predicate KeysOk(db: Db) {
    && 1 <= db.nextSeq
    && (forall ws | ws in db.workspaces :: 0 <= db.workspaces[ws].current < db.nextSeq)
    && (forall k | k in db.roots :: k.0 in db.workspaces)
    && (forall k | k in db.heads :: k.0 in db.workspaces)
    && (forall s | s in db.events :: db.events[s].seqno == s && db.events[s].ws in db.workspaces && 1 <= s < db.nextSeq)
    && (forall v | v in db.visible :: v.0 in db.workspaces && v.1 in db.objects)
  }

  /** Everything an event or snapshot row names is stored and visible to the row's workspace. */
  ghost predicate NamesOk(db: Db) {
    && (forall r | r in db.eventRefs :: r.0 in db.events && (db.events[r.0].ws, r.1) in db.visible)
    && (forall k | k in db.snapshots :: k.0 in db.workspaces && (k.0, k.2) in db.visible)
    && (forall r | r in db.snapshotRefs :: r.1 in db.objects)
  }

  ghost predicate CountsOk(db: Db) {
    forall o | o in db.objects :: References(db, o) <= db.objects[o].refCount
  }

  ghost predicate CountsExact(db: Db) {
    forall o | o in db.objects :: References(db, o) == db.objects[o].refCount
  }

  ghost predicate LogOk(w: World, ws: WorkspaceId)
    requires ws in w.logs && ws in w.db.workspaces
  {
    var log := w.logs[ws];
    && Increasing(log) && Disciplined(log)
    && Latest(log) == w.db.workspaces[ws].current
    && (forall e | e in log :: e.ws == ws && 1 <= e.seqno)
  }

  ghost predicate LogsOk(w: World) {
    && w.logs.Keys == w.db.workspaces.Keys
    && w.pruned.Keys == w.db.workspaces.Keys
    && (forall ws | ws in w.logs :: LogOk(w, ws))
  }

  /** The roots table is the fold of the log, and its snapshot columns stay inside the incarnation. */
  ghost predicate RootOk(w: World, ws: WorkspaceId, root: RootId)
    requires ws in w.logs && ws in w.db.workspaces
  {
    && (IsActive(w.db, ws, root) <==> Incarnation(w.logs[ws], root).Some?)
    && ((ws, root) in w.db.roots ==>
          var row := w.db.roots[(ws, root)];
          && 1 <= row.created <= w.db.workspaces[ws].current
          && (row.removed.None? ==> Incarnation(w.logs[ws], root) == Some(row.created))
          && (row.snapshot.Some? <==> row.snapshotSeq.Some?)
          && (row.removed.Some? ==> row.snapshot.None?)
          && (row.snapshotSeq.Some? ==> row.created <= row.snapshotSeq.value <= w.db.workspaces[ws].current))
  }

  ghost predicate RootsOk(w: World)
    requires LogsOk(w)
  {
    forall ws, root | ws in w.logs :: RootOk(w, ws, root)
  }

  function HeadOf(e: Event): HeadRow {
    HeadRow(EventTable.EntryKindOf(e.kind), e.seqno, e.kind.Delete?)
  }

  /** The path_heads table is the fold of the log: the last content event of the current incarnation. */
  ghost predicate HeadsOk(w: World) {
    forall ws, root, path | ws in w.logs ::
      var head := Head(w.logs[ws], root, path);
      ((ws, root, path) in w.db.heads <==> head.Some?)
      && (head.Some? ==> w.db.heads[(ws, root, path)] == HeadOf(head.value))
  }

  /** The events table is the log minus what a pruning pass took, none of it above `pruned`. */
  ghost predicate EventsOk(w: World)
    requires LogsOk(w)
  {
    && (forall ws, e | ws in w.logs && e in w.logs[ws] && w.pruned[ws] < e.seqno ::
          e.seqno in w.db.events && w.db.events[e.seqno] == e)
    && (forall s | s in w.db.events :: w.db.events[s].ws in w.logs && w.db.events[s] in w.logs[w.db.events[s].ws])
  }

  ghost predicate FloorsOk(db: Db) {
    forall ws | ws in db.workspaces :: db.workspaces[ws].floor == RetainedFloor(db, ws)
  }

  ghost predicate HorizonOk(w: World)
    requires LogsOk(w)
  {
    forall ws | ws in w.logs :: 0 <= w.pruned[ws] <= BootstrapAfter(w.db, ws)
  }

  ghost predicate Inv(w: World) {
    && KeysOk(w.db) && NamesOk(w.db) && CountsOk(w.db)
    && LogsOk(w) && RootsOk(w) && HeadsOk(w) && EventsOk(w)
    && FloorsOk(w.db) && HorizonOk(w)
    && w.db.objects.Keys <= w.blobs
  }
}
