/** Saving a snapshot: the transaction behind the snapshot endpoint, followed by the floor recompute. */
module SnapshotTable {
  import opened Records
  import opened Tables
  import EventTable

  datatype Request = Request(root: RootId, base: int, obj: ObjectId, refs: seq<ObjectId>)

  datatype Refusal =
    | UnknownRoot
    | RootRemoved
    | PredatesIncarnation
    | StaleSnapshot
    | UnknownWorkspace
    | BeyondHead
    | MissingObject
    | MissingObjectRef(obj: ObjectId)

  function Check(db: Db, ws: WorkspaceId, req: Request): Option<Refusal> {
    if (ws, req.root) !in db.roots then Some(UnknownRoot)
    else
      var row := db.roots[(ws, req.root)];
      if row.removed.Some? then Some(RootRemoved)
      else if req.base < row.created then Some(PredatesIncarnation)
      else if row.snapshotSeq.Some? && req.base < row.snapshotSeq.value then Some(StaleSnapshot)
      else if ws !in db.workspaces then Some(UnknownWorkspace)
      else if req.base > db.workspaces[ws].current then Some(BeyondHead)
      else if !IsVisible(db, ws, req.obj) then Some(MissingObject)
      else
        var missing := EventTable.FirstMissing(db, ws, req.refs);
        if missing.Some? then Some(MissingObjectRef(missing.value)) else None
  }

  /** Only rows that are really new raise a count: the snapshot's own, and one per new reference. */
  function Raise(db: Db, ws: WorkspaceId, req: Request, o: ObjectId): nat {
    (if o == req.obj && (ws, req.root, req.obj) !in db.snapshots then 1 else 0)
    + (if o in req.refs && (req.obj, o) !in db.snapshotRefs then 1 else 0)
  }

  function Committed(db: Db, ws: WorkspaceId, device: DeviceId, req: Request, now: Time): Db
    requires (ws, req.root) in db.roots
  {
    var key := (ws, req.root, req.obj);
    db.(snapshots := if key in db.snapshots then db.snapshots
                     else db.snapshots[key := SnapshotRow(req.base, device, now)],
        roots := db.roots[(ws, req.root) :=
                   db.roots[(ws, req.root)].(snapshot := Some(req.obj), snapshotSeq := Some(req.base))],
        objects := map o | o in db.objects ::
                     if Raise(db, ws, req, o) == 0 then db.objects[o]
                     else db.objects[o].(refCount := db.objects[o].refCount + Raise(db, ws, req, o), zeroRefAt := None),
        snapshotRefs := db.snapshotRefs + (set o | o in req.refs :: (req.obj, o)))
  }

  ghost function Save(db: Db, ws: WorkspaceId, device: DeviceId, req: Request, now: Time): (Option<Refusal>, Db) {
    var refusal := Check(db, ws, req);
    if refusal.Some? then (refusal, db)
    else (None, WithFloor(Committed(db, ws, device, req, now), ws))
  }
}
