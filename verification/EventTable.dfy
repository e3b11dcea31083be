/** Submitting and fetching events: the transactions behind POST and GET of the event endpoint. */
module EventTable {
  import opened Records
  import opened Tables

  /** A submission. Empty ids stand for absent ones, as on the wire; `bound` is root_created_seq. */
  datatype Request = Request(
    root: RootId,
    path: PathId,
    kind: EventType,
    rootKind: RootKind,
    base: Option<int>,
    bound: Option<int>,
    payload: Payload,
    refs: seq<ObjectId>)

  datatype Refusal =
    | RootIdRequired
    | UnsupportedEventType
    | UnknownWorkspace
    | MissingObjectRef(obj: ObjectId)
    | RootKindRequired
    | RootAlreadyActive
    | UnknownRoot
    | RootAlreadyRemoved
    | PathAndBaseRequired
    | RootRemoved
    | IncarnationMismatch(current: int)
    | PathHeadMismatch(current: int)

  datatype Outcome = Accepted(seqno: int) | Refused(why: Refusal)

  /** The first reference the workspace may not name. */
  function FirstMissing(db: Db, ws: WorkspaceId, refs: seq<ObjectId>): (r: Option<ObjectId>)
    ensures r.None? <==> forall o | o in refs :: IsVisible(db, ws, o)
  {
    if refs == [] then None
    else if !IsVisible(db, ws, refs[0]) then Some(refs[0])
    else FirstMissing(db, ws, refs[1..])
  }

  function CheckRootAdd(db: Db, ws: WorkspaceId, req: Request): Option<Refusal> {
    if !req.rootKind.DirRoot? && !req.rootKind.FileRoot? then Some(RootKindRequired)
    else if (ws, req.root) in db.roots && db.roots[(ws, req.root)].removed.None? then Some(RootAlreadyActive)
    else None
  }

  function CheckRootRemove(db: Db, ws: WorkspaceId, req: Request): Option<Refusal> {
    if (ws, req.root) !in db.roots then Some(UnknownRoot)
    else
      var row := db.roots[(ws, req.root)];
      if req.bound.Some? && req.bound.value != row.created then Some(IncarnationMismatch(row.created))
      else if row.removed.Some? then Some(RootAlreadyRemoved)
      else None
  }

  function CheckContent(db: Db, ws: WorkspaceId, req: Request): Option<Refusal> {
    if req.path.text == "" || req.base.None? then Some(PathAndBaseRequired)
    else if (ws, req.root) !in db.roots then Some(UnknownRoot)
    else
      var row := db.roots[(ws, req.root)];
      if row.removed.Some? then Some(RootRemoved)
      else if req.bound.Some? && req.bound.value != row.created then Some(IncarnationMismatch(row.created))
      else if (ws, req.root, req.path) !in db.heads then
        if req.base.value != 0 then Some(PathHeadMismatch(0)) else None
      else
        // A base ahead of the head is fine: the path has not changed since that baseline.
        var head := db.heads[(ws, req.root, req.path)].seqno;
        if head > req.base.value then Some(PathHeadMismatch(head)) else None
  }

  function Check(db: Db, ws: WorkspaceId, req: Request): Option<Refusal> {
    if req.root.text == "" then Some(RootIdRequired)
    else if req.kind.Unsupported? then Some(UnsupportedEventType)
    else if ws !in db.workspaces then Some(UnknownWorkspace)
    else
      var missing := FirstMissing(db, ws, req.refs);
      if missing.Some? then Some(MissingObjectRef(missing.value))
      else match req.kind
        case RootAdd => CheckRootAdd(db, ws, req)
        case RootRemove => CheckRootRemove(db, ws, req)
        case _ => CheckContent(db, ws, req)
  }

  function NewEvent(db: Db, ws: WorkspaceId, device: DeviceId, req: Request, now: Time): Event {
    Event(db.nextSeq, ws, req.root, if req.path.text == "" then None else Some(req.path), req.kind,
          req.base, device, req.payload, now)
  }

  function EntryKindOf(kind: EventType): EntryKind {
    match kind
    case DirPut => DirEntry
    case FilePut => FileEntry
    case _ => DeleteEntry
  }

  function RootsAfter(db: Db, ws: WorkspaceId, req: Request): map<RootKey, RootRow> {
    match req.kind
    case RootAdd => db.roots[(ws, req.root) := RootRow(req.rootKind, req.payload, db.nextSeq, None, None, None)]
    case RootRemove =>
      if (ws, req.root) in db.roots then
        db.roots[(ws, req.root) := db.roots[(ws, req.root)].(removed := Some(db.nextSeq), snapshot := None,
            snapshotSeq := None)]
      else db.roots
    case _ => db.roots
  }

  function HeadsAfter(db: Db, ws: WorkspaceId, req: Request): map<HeadKey, HeadRow> {
    if req.kind.RootAdd? || req.kind.RootRemove? then
      map k | k in db.heads && !(k.0 == ws && k.1 == req.root) :: db.heads[k]
    else
      db.heads[(ws, req.root, req.path) := HeadRow(EntryKindOf(req.kind), db.nextSeq, req.kind.Delete?)]
  }

  /** Every listed id raises the count, a repeated one as often as it is repeated. */
  function ObjectsReferencedBy(objects: map<ObjectId, ObjectRow>, refs: seq<ObjectId>): map<ObjectId, ObjectRow> {
    map o | o in objects ::
      if o in refs then objects[o].(refCount := objects[o].refCount + multiset(refs)[o], zeroRefAt := None)
      else objects[o]
  }

  /** The tables a committed submission leaves, before the retained floor is looked at. */
  function Committed(db: Db, ws: WorkspaceId, device: DeviceId, req: Request, now: Time): Db
    requires ws in db.workspaces
  {
    var s := db.nextSeq;
    db.(nextSeq := s + 1,
        events := db.events[s := NewEvent(db, ws, device, req, now)],
        roots := RootsAfter(db, ws, req),
        heads := HeadsAfter(db, ws, req),
        eventRefs := db.eventRefs + (set o | o in req.refs :: (s, o)),
        objects := ObjectsReferencedBy(db.objects, req.refs),
        workspaces := db.workspaces[ws := db.workspaces[ws].(current := s)])
  }

  ghost function Submitted(db: Db, ws: WorkspaceId, device: DeviceId, req: Request, now: Time): Db
    requires Check(db, ws, req).None?
  {
    var next := Committed(db, ws, device, req, now);
    if req.kind.RootAdd? || req.kind.RootRemove? then WithFloor(next, ws) else next
  }

  ghost function Submit(db: Db, ws: WorkspaceId, device: DeviceId, req: Request, now: Time): (Outcome, Db) {
    var refusal := Check(db, ws, req);
    if refusal.Some? then (Refused(refusal.value), db)
    else (Accepted(db.nextSeq), Submitted(db, ws, device, req, now))
  }

  datatype Fetched = NoWorkspace | ResyncRequired(floor: int) | Page(events: seq<Event>, current: int)

  /** The stored seqs a fetch may return. */
  ghost function Stored(db: Db, ws: WorkspaceId, after: int): set<int>
    requires ws in db.workspaces
  {
    set s | s in db.events && db.events[s].ws == ws && after < s <= db.workspaces[ws].current
  }

  /** The events of a set of stored seqs in ascending order, at most `limit` of them. */
  ghost function Ascending(db: Db, seqs: set<int>, limit: nat): seq<Event>
    requires forall s | s in seqs :: s in db.events
    decreases limit
  {
    if seqs == {} || limit == 0 then []
    else [db.events[Least(seqs)]] + Ascending(db, seqs - {Least(seqs)}, limit - 1)
  }

  ghost function Fetch(db: Db, ws: WorkspaceId, after: int, limit: nat): Fetched {
    if ws !in db.workspaces then NoWorkspace
    else if after < db.workspaces[ws].floor then ResyncRequired(db.workspaces[ws].floor)
    else Page(Ascending(db, Stored(db, ws, after), limit), db.workspaces[ws].current)
  }
}
