/** Purging a workspace from the database, and admitting workspaces and objects to it. */
module WorkspacePurge {
  import opened Records
  import opened Tables

  /** Objects that only this workspace may name: the candidates for deletion. */
  ghost function Candidates(db: Db, ws: WorkspaceId): set<ObjectId> {
    set o | o in db.objects && (ws, o) in db.visible && forall v | v in db.visible && v.1 == o :: v.0 == ws
  }

  ghost function SharedSnapshotObjects(db: Db, ws: WorkspaceId): set<ObjectId> {
    set k | k in db.snapshots && k.0 != ws :: k.2
  }

  ghost function OwnSnapshotObjects(db: Db, ws: WorkspaceId): set<ObjectId> {
    set k | k in db.snapshots && k.0 == ws :: k.2
  }

  ghost function WithoutWorkspace(db: Db, ws: WorkspaceId): Db {
    var orphaned := OwnSnapshotObjects(db, ws) - SharedSnapshotObjects(db, ws);
    db.(eventRefs := (set r | r in db.eventRefs && !(r.0 in db.events && db.events[r.0].ws == ws)),
        events := map s | s in db.events && db.events[s].ws != ws :: db.events[s],
        snapshotRefs := (set r | r in db.snapshotRefs && r.0 !in orphaned),
        snapshots := map k | k in db.snapshots && k.0 != ws :: db.snapshots[k],
        heads := map k | k in db.heads && k.0 != ws :: db.heads[k],
        roots := map k | k in db.roots && k.0 != ws :: db.roots[k],
        visible := (set v | v in db.visible && v.0 != ws),
        workspaces := map w | w in db.workspaces && w != ws :: db.workspaces[w])
  }

  /** Every count is rebuilt from the rows, for all objects of all workspaces. */
  ghost function Recounted(db: Db, now: Time): Db {
    db.(objects := map o | o in db.objects ::
          var n := References(db, o);
          ObjectRow(n,
                    if n != 0 then None
                    else if db.objects[o].zeroRefAt.Some? then db.objects[o].zeroRefAt else Some(now),
                    db.objects[o].createdAt))
  }

  ghost function Unreferenced(db: Db, o: ObjectId): bool {
    (forall v | v in db.visible :: v.1 != o) && References(db, o) == 0
  }

  ghost function Deletable(db: Db, candidates: set<ObjectId>): set<ObjectId> {
    set o | o in candidates && o in db.objects && Unreferenced(db, o)
  }

  ghost function Purged(db: Db, ws: WorkspaceId, candidates: set<ObjectId>, now: Time): Db {
    var next := Recounted(WithoutWorkspace(db, ws), now);
    next.(objects := map o | o in next.objects && o !in Deletable(next, candidates) :: next.objects[o])
  }

  /** Creating a workspace that does not exist yet. */
  function Created(db: Db, ws: WorkspaceId): Db {
    if ws in db.workspaces then db else db.(workspaces := db.workspaces[ws := WorkspaceRow(0, 0)])
  }

  /** Storing an object: an existing row keeps its count. */
  function Stored(db: Db, o: ObjectId, now: Time): Db {
    if o in db.objects then db else db.(objects := db.objects[o := ObjectRow(0, Some(now), now)])
  }

  /** Making a stored object visible to an existing workspace. */
  function Associated(db: Db, ws: WorkspaceId, o: ObjectId): Db {
    if ws in db.workspaces && o in db.objects then db.(visible := db.visible + {(ws, o)}) else db
  }
}
