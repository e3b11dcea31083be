/**
  A completed pruning pass: expired events up to each workspace's floor, then snapshots nothing
  points to any more, then objects whose count reached zero long enough ago.
*/
module Retention {
  import opened Records
  import opened Tables

  /** Lowering a count k times, one at a time, stops at zero. */
  function Lowered(row: ObjectRow, k: nat, now: Time): ObjectRow {
    if k == 0 then row
    else ObjectRow(if row.refCount > k then row.refCount - k else 0,
                   if row.refCount <= k then Some(now) else row.zeroRefAt,
                   row.createdAt)
  }

  ghost function ExpiredEvents(db: Db, cutoff: Time): set<int> {
    set s | s in db.events && db.events[s].ws in db.workspaces
            && s <= db.workspaces[db.events[s].ws].floor && db.events[s].createdAt <= cutoff
  }

  ghost function RefsFrom(db: Db, seqs: set<int>, o: ObjectId): set<int> {
    set s | s in seqs && (s, o) in db.eventRefs
  }

  ghost function WithoutEvents(db: Db, seqs: set<int>, now: Time): Db {
    db.(events := map s | s in db.events && s !in seqs :: db.events[s],
        eventRefs := (set r | r in db.eventRefs && r.0 !in seqs),
        objects := map o | o in db.objects :: Lowered(db.objects[o], |RefsFrom(db, seqs, o)|, now))
  }

  /** A snapshot row is obsolete when its root is gone or removed, or points to another snapshot. */
  predicate Obsolete(db: Db, k: SnapshotKey) {
    (k.0, k.1) in db.roots ==>
      var row := db.roots[(k.0, k.1)];
      row.removed.Some? || (row.snapshot.Some? && row.snapshot.value != k.2)
  }

  ghost function ExpiredSnapshots(db: Db, cutoff: Time): set<SnapshotKey> {
    set k | k in db.snapshots && db.snapshots[k].createdAt <= cutoff && Obsolete(db, k)
  }

  ghost function ObjectsOf(keys: set<SnapshotKey>): set<ObjectId> {
    set k | k in keys :: k.2
  }

  ghost function RowsNaming(keys: set<SnapshotKey>, o: ObjectId): set<SnapshotKey> {
    set k | k in keys && k.2 == o
  }

  ghost function RefsFromSnapshots(db: Db, objs: set<ObjectId>, o: ObjectId): set<ObjectId> {
    set s | s in objs && (s, o) in db.snapshotRefs
  }

  ghost function WithoutSnapshots(db: Db, keys: set<SnapshotKey>, now: Time): Db {
    db.(snapshots := map k | k in db.snapshots && k !in keys :: db.snapshots[k],
        snapshotRefs := (set r | r in db.snapshotRefs && r.0 !in ObjectsOf(keys)),
        objects := map o | o in db.objects ::
                     Lowered(db.objects[o], |RowsNaming(keys, o)| + |RefsFromSnapshots(db, ObjectsOf(keys), o)|, now))
  }

  function ZeroSince(row: ObjectRow): Time {
    if row.zeroRefAt.Some? then row.zeroRefAt.value else row.createdAt
  }

  ghost function ExpiredObjects(db: Db, cutoff: Time): set<ObjectId> {
    set o | o in db.objects && db.objects[o].refCount == 0 && ZeroSince(db.objects[o]) <= cutoff
  }

  /** Deleting an object row takes its visibility rows with it. */
  ghost function WithoutObjects(db: Db, gone: set<ObjectId>): Db {
    db.(objects := map o | o in db.objects && o !in gone :: db.objects[o],
        visible := (set v | v in db.visible && v.1 !in gone))
  }

  ghost function AfterEvents(db: Db, now: Time, retention: int): Db {
    WithoutEvents(db, ExpiredEvents(db, now - retention), now)
  }

  ghost function AfterSnapshots(db: Db, now: Time, retention: int): Db {
    var next := AfterEvents(db, now, retention);
    WithoutSnapshots(next, ExpiredSnapshots(next, now - retention), now)
  }

  ghost function Prune(db: Db, now: Time, retention: int, zeroRetention: int): Db {
    var next := AfterSnapshots(db, now, retention);
    WithoutObjects(next, ExpiredObjects(next, now - zeroRetention))
  }

  /** The ids the pass reports, whose blobs the caller then removes from the store. */
  ghost function PrunedObjects(db: Db, now: Time, retention: int, zeroRetention: int): set<ObjectId> {
    ExpiredObjects(AfterSnapshots(db, now, retention), now - zeroRetention)
  }
}
