/**
  The server database as a value: one map or set per table, and the derived quantities that several
  operations share. A transaction is a function from one database to the next.
*/
module Tables {
  import opened Records

  datatype WorkspaceRow = WorkspaceRow(current: int, floor: int)

  datatype RootRow = RootRow(
    kind: RootKind,
    descriptor: Payload,
    created: int,
    removed: Option<int>,
    snapshot: Option<ObjectId>,
    snapshotSeq: Option<int>)

  datatype EntryKind = DirEntry | FileEntry | DeleteEntry
  datatype HeadRow = HeadRow(kind: EntryKind, seqno: int, deleted: bool)
  datatype SnapshotRow = SnapshotRow(base: int, author: DeviceId, createdAt: Time)
  datatype ObjectRow = ObjectRow(refCount: int, zeroRefAt: Option<Time>, createdAt: Time)

  type RootKey = (WorkspaceId, RootId)
  type HeadKey = (WorkspaceId, RootId, PathId)
  type SnapshotKey = (WorkspaceId, RootId, ObjectId)

  datatype Db = Db(
    nextSeq: int,
    workspaces: map<WorkspaceId, WorkspaceRow>,
    roots: map<RootKey, RootRow>,
    heads: map<HeadKey, HeadRow>,
    events: map<int, Event>,
    eventRefs: set<(int, ObjectId)>,
    snapshots: map<SnapshotKey, SnapshotRow>,
    snapshotRefs: set<(ObjectId, ObjectId)>,
    objects: map<ObjectId, ObjectRow>,
    visible: set<(WorkspaceId, ObjectId)>)

  const EMPTY_DB: Db := Db(1, map[], map[], map[], map[], {}, map[], {}, map[], {})

  ghost predicate IsActive(db: Db, ws: WorkspaceId, root: RootId) {
    (ws, root) in db.roots && db.roots[(ws, root)].removed.None?
  }

  ghost function ActiveRoots(db: Db, ws: WorkspaceId): set<RootKey> {
    set k | k in db.roots && k.0 == ws && db.roots[k].removed.None?
  }

  ghost function Pick<T>(s: set<T>): (x: T)
    requires s != {}
    ensures x in s
  {
    var x :| x in s;
    x
  }

  ghost function Least(s: set<int>): (m: int)
    requires s != {}
    ensures m in s && forall x | x in s :: m <= x
  {
    var x := Pick(s);
    var rest := s - {x};
    if rest == {} then
      assert forall y | y in s :: y == x by { forall y | y in s ensures y == x { assert y !in rest; } }
      x
    else
      var m := Least(rest);
      assert forall y | y in s :: y == x || y in rest;
      if x < m then x else m
  }

  lemma LeastIsUnique(s: set<int>, m: int)
    requires m in s && forall x | x in s :: m <= x
    ensures s != {} && Least(s) == m
  {}

  ghost function SnapshotSeqs(db: Db, ws: WorkspaceId): set<int> {
    set k | k in ActiveRoots(db, ws) && db.roots[k].snapshotSeq.Some? :: db.roots[k].snapshotSeq.value
  }

  /**
    The retained floor: the workspace head when no root is active, nothing when some active root has
    no snapshot to start from, and otherwise the oldest of the latest snapshots.
  */
  ghost function RetainedFloor(db: Db, ws: WorkspaceId): int
    requires ws in db.workspaces
  {
    if ActiveRoots(db, ws) == {} then db.workspaces[ws].current
    else if exists k | k in ActiveRoots(db, ws) :: db.roots[k].snapshotSeq.None? then 0
    else
      var k :| k in ActiveRoots(db, ws);
      assert db.roots[k].snapshotSeq.value in SnapshotSeqs(db, ws);
      Least(SnapshotSeqs(db, ws))
  }

  /** Where replay must start for one root: its latest snapshot, or just before the root was added. */
  function Contribution(row: RootRow): int {
    if row.snapshotSeq.Some? then row.snapshotSeq.value else row.created - 1
  }

  ghost function Contributions(db: Db, ws: WorkspaceId): set<int> {
    set k | k in ActiveRoots(db, ws) :: Contribution(db.roots[k])
  }

  /** The cursor a bootstrap response tells the client to replay from. */
  ghost function BootstrapAfter(db: Db, ws: WorkspaceId): int
    requires ws in db.workspaces
  {
    if ActiveRoots(db, ws) == {} then db.workspaces[ws].current
    else
      var k :| k in ActiveRoots(db, ws);
      assert Contribution(db.roots[k]) in Contributions(db, ws);
      Least(Contributions(db, ws))
  }

  ghost function ActiveRows(db: Db, ws: WorkspaceId): map<RootKey, RootRow> {
    map k | k in ActiveRoots(db, ws) :: db.roots[k]
  }

  ghost function RowContributions(rows: map<RootKey, RootRow>): set<int> {
    set k | k in rows :: Contribution(rows[k])
  }

  /** The cursor of a bootstrap response that lists these rows and knows this head. */
  ghost function CursorFrom(rows: map<RootKey, RootRow>, current: int): int {
    if rows == map[] then current
    else
      var k :| k in rows;
      assert Contribution(rows[k]) in RowContributions(rows);
      Least(RowContributions(rows))
  }

  ghost function WithFloor(db: Db, ws: WorkspaceId): Db
    requires ws in db.workspaces
  {
    db.(workspaces := db.workspaces[ws := db.workspaces[ws].(floor := RetainedFloor(db, ws))])
  }

  predicate IsVisible(db: Db, ws: WorkspaceId, obj: ObjectId) {
    (ws, obj) in db.visible
  }

  /** The rows that count as references to an object. */
  ghost function EventRefsTo(db: Db, obj: ObjectId): set<int> {
    set r | r in db.eventRefs && r.1 == obj :: r.0
  }

  ghost function SnapshotsOf(db: Db, obj: ObjectId): set<SnapshotKey> {
    set k | k in db.snapshots && k.2 == obj
  }

  ghost function SnapshotRefsTo(db: Db, obj: ObjectId): set<ObjectId> {
    set r | r in db.snapshotRefs && r.1 == obj :: r.0
  }

  ghost function References(db: Db, obj: ObjectId): nat {
    |EventRefsTo(db, obj)| + |SnapshotsOf(db, obj)| + |SnapshotRefsTo(db, obj)|
  }
}
