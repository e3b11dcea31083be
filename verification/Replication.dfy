/**
  Any number of clients and the server, as interleaved steps within one lifetime of a workspace. A
  client's step happens at the moment its request reaches the server; answers may be lost.
*/
module Replication {
  import opened Records
  import opened EventLog
  import opened Tables
  import opened ServerState
  import opened Clients
  import opened ClientProofs
  import opened ConsumeProofs
  import opened BootstrapProofs
  import opened UploadProofs
  import opened SnapshotExactness
  import ET = EventTable
  import ST = SnapshotTable

  /** A snapshot blob that some client uploaded and the server accepted, by its object id. */
  datatype Published = Published(root: RootId, snapshot: Snapshot)

  datatype System = System(
    world: World,
    ws: WorkspaceId,
    clients: map<DeviceId, Client>,
    published: map<ObjectId, Published>)

  datatype Action =
    /** A server step that writes nothing into this workspace's log or snapshots. */
    | Foreign(step: Step)
    /** Some device removes a root on the server. */
    | RemoveRemote(device: DeviceId, root: RootId, bound: Option<int>, at: Time)
    /** A device drops a root from its own state. */
    | RemoveLocal(device: DeviceId, root: RootId)
    /**
      A rescan or conflict resolution submits what it found at a path, with the index's seq as base.
      `heard` says whether the answer arrives. On a path conflict the head is fetched and applied,
      unless a fetch no longer brings it.
    */
    | Submit(device: DeviceId, root: RootId, path: PathId, value: Content, bound: Option<int>, refs: seq<ObjectId>,
        at: Time, heard: bool)
    /** A rescan refreshes the mtime of a directory row without telling anyone. */
    | Touch(device: DeviceId, root: RootId, path: PathId, mtime: int)
    /** Catch-up consumes one event. */
    | Consume(device: DeviceId, e: Event, blocked: bool)
    | Bootstrap(device: DeviceId, occupied: set<RootId>, staged: set<RootId>)
    | AddStart(device: DeviceId, root: RootId, kind: RootKind, home: string, at: Time)
    | UploadNext(device: DeviceId, path: PathId, value: Content, refs: seq<ObjectId>, at: Time, heard: bool)
    | UploadEnd(device: DeviceId, complete: bool)
    | Publish(device: DeviceId, obj: ObjectId, refs: seq<ObjectId>, at: Time)
    | AddEnd(device: DeviceId)

  ghost predicate IsForeign(step: Step, ws: WorkspaceId) {
    match step
    case SubmitEvent(v, _, _, _) => v != ws
    case SaveSnapshot(v, _, _, _) => v != ws
    case Purge(v, _) => v != ws
    case _ => true
  }

  function KindOf(value: Content): EventType {
    match value
    case Gone => Delete
    case Dir(_, _) => DirPut
    case File(_, _, _, _) => FilePut
  }

  function ContentRequest(root: RootId, path: PathId, value: Content, base: int, bound: Option<int>,
                          refs: seq<ObjectId>): ET.Request {
    ET.Request(root, path, KindOf(value), DirRoot, Some(base), bound, Body(value), refs)
  }

  function AddRequest(root: RootId, kind: RootKind, home: string): ET.Request {
    ET.Request(root, PathId(""), RootAdd, kind, None, None, Descriptor(kind, home), [])
  }

  function RemoveRequest(root: RootId, bound: Option<int>): ET.Request {
    ET.Request(root, PathId(""), RootRemove, DirRoot, None, bound, Descriptor(DirRoot, ""), [])
  }

  ghost function Log(s: System): seq<Event>
    requires s.ws in s.world.logs
  {
    s.world.logs[s.ws]
  }

  ghost function Submitted(s: System, device: DeviceId, req: ET.Request, at: Time): System {
    s.(world := AfterSubmit(s.world, s.ws, device, req, at))
  }

  ghost predicate Accepts(s: System, req: ET.Request) {
    ET.Check(s.world.db, s.ws, req).None?
  }

  function WithClient(s: System, device: DeviceId, c: Client): System {
    s.(clients := s.clients[device := c])
  }

  /** The root is mid-upload: nothing else touches the client's state. */
  predicate IsUploading(c: Client) {
    c.adding.Some? && c.adding.value.phase.Uploading?
  }

  /** A fetch from just below the seq brings the event: it is stored, and above the retained floor. */
  ghost predicate Fetchable(s: System, seqno: int) {
    && s.ws in s.world.db.workspaces && s.world.db.workspaces[s.ws].floor < seqno
    && seqno in s.world.db.events && s.world.db.events[seqno].ws == s.ws
  }

  /** A refused submission: the conflicting head, if it can be fetched, replaces the index row. */
  ghost function AfterConflict(s: System, c: Client, refusal: ET.Refusal): Client {
    if refusal.PathHeadMismatch? && Fetchable(s, refusal.current)
    then Applied(c, s.world.db.events[refusal.current], false)
    else c
  }

  ghost function AfterContent(s: System, device: DeviceId, root: RootId, path: PathId, value: Content,
                              bound: Option<int>, refs: seq<ObjectId>, at: Time, heard: bool): System
    requires device in s.clients
  {
    var c := s.clients[device];
    var req := ContentRequest(root, path, value, IndexTag(c, root, path), bound, refs);
    if !IsLive(c, root) || c.adding.Some? then s
    else if Accepts(s, req) then
      var next := Submitted(s, device, req, at);
      if heard then WithClient(next, device, WithEntry(c, root, path, Entry(value, s.world.db.nextSeq))) else next
    else if heard then WithClient(s, device, AfterConflict(s, c, ET.Check(s.world.db, s.ws, req).value))
    else s
  }

  ghost function AfterTouch(s: System, device: DeviceId, root: RootId, path: PathId, mtime: int): System
    requires device in s.clients
  {
    var c := s.clients[device];
    if !IsLive(c, root) || (root, path) !in c.index || !c.index[(root, path)].value.Dir? || c.adding.Some? then s
    else
      var row := c.index[(root, path)];
      WithClient(s, device, WithEntry(c, root, path, Entry(Dir(row.value.mode, mtime), row.tag)))
  }

  /** Catch-up hands over events in order; what it leaves out, a pruning pass had taken. */
  ghost predicate Delivers(s: System, c: Client, e: Event) {
    && s.ws in s.world.logs && s.ws in s.world.pruned
    && e in Log(s) && c.cursor < e.seqno
    && (forall f | f in Log(s) && c.cursor < f.seqno < e.seqno :: f.seqno <= s.world.pruned[s.ws])
  }

  /** After a gap no root is known to follow the log any more. */
  ghost function AfterConsume(s: System, device: DeviceId, e: Event, blocked: bool): System
    requires device in s.clients
  {
    var c := s.clients[device];
    if IsUploading(c) || !Delivers(s, c, e) then s
    else
      var next := Consumed(c, device, e, blocked);
      WithClient(s, device, if IsNext(Log(s), c.cursor, e) then next else next.(tracked := {}, mine := {}))
  }

  ghost function ActiveIds(db: Db, ws: WorkspaceId): set<RootId> {
    set k | k in ActiveRoots(db, ws) :: k.1
  }

  ghost function ListedRow(s: System, root: RootId): Listed
    requires (s.ws, root) in s.world.db.roots
  {
    var row := s.world.db.roots[(s.ws, root)];
    Listed(row.kind, row.created,
           if row.snapshot.Some? && row.snapshot.value in s.published
               then Some(s.published[row.snapshot.value].snapshot) else None)
  }

  ghost function Listing(s: System): map<RootId, Listed> {
    map r | r in ActiveIds(s.world.db, s.ws) :: ListedRow(s, r)
  }

  ghost function AfterBootstrap(s: System, device: DeviceId, blocked: set<RootId>, staged: set<RootId>): System
    requires device in s.clients
  {
    var c := s.clients[device];
    if IsUploading(c) || s.ws !in s.world.db.workspaces || s.ws !in s.world.logs then s
    else
      var after := BootstrapAfter(s.world.db, s.ws);
      WithClient(s, device, Rebuilt(c, device, Listing(s), after, blocked, staged, Replaced(Log(s), Listing(s), after)))
  }

  /** The root is recorded as active first; only an accepted root_add starts an upload. */
  ghost function AfterStart(s: System, device: DeviceId, root: RootId, kind: RootKind, home: string, at: Time): System
    requires device in s.clients
  {
    var c := s.clients[device];
    var req := AddRequest(root, kind, home);
    if c.adding.Some? || (root in c.roots && !c.roots[root].state.Removed?) then s
    else if Accepts(s, req) then
      WithClient(Submitted(s, device, req, at), device, Started(c, root, kind, s.world.db.nextSeq))
    else
      WithClient(s, device, c.(roots := c.roots[root := LocalRoot(kind, Active, 0)], tracked := c.tracked - {root},
          mine := c.mine - {root}))
  }

  ghost function AfterEntry(s: System, device: DeviceId, path: PathId, value: Content, refs: seq<ObjectId>, at: Time,
                            heard: bool): System
    requires device in s.clients
  {
    var c := s.clients[device];
    if !IsUploading(c) || value.Gone? then s
    else
      var a := c.adding.value;
      var req := ContentRequest(a.root, path, value, 0, Some(a.created), refs);
      if !Accepts(s, req) then s
      else
        var next := Submitted(s, device, req, at);
        if heard
        then WithClient(next, device, c.(adding := Some(a.(entries := a.entries
            + [Uploaded(path, value, s.world.db.nextSeq)]))))
        else next
  }

  ghost function AfterUploadEnd(s: System, device: DeviceId, complete: bool): System
    requires device in s.clients
  {
    var c := s.clients[device];
    if !IsUploading(c) then s
    else
      var a := c.adding.value;
      WithClient(s, device, Collected(c, a).(adding := if complete then Some(a.(phase := Reconciling)) else None))
  }

  ghost function SnapshotRequest(a: Adding, obj: ObjectId, refs: seq<ObjectId>): ST.Request
    requires a.entries != []
  {
    ST.Request(a.root, a.entries[|a.entries| - 1].seqno, obj, refs)
  }

  /**
    Catch-up has returned, so the cursor is past every uploaded event, and the index still equals what
    was uploaded. A snapshot object id is new: its blob is sealed with a fresh nonce.
  */
  ghost function AfterPublish(s: System, device: DeviceId, obj: ObjectId, refs: seq<ObjectId>, at: Time): System
    requires device in s.clients
  {
    var c := s.clients[device];
    if c.adding.None? || obj in s.published || !Eligible(c, c.adding.value) then s
    else
      var a := c.adding.value;
      var req := SnapshotRequest(a, obj, refs);
      var next := WithClient(s, device, c.(adding := None)).(world := AfterSave(s.world, s.ws, device, req, at));
      if ST.Check(s.world.db, s.ws, req).None?
      then next.(published := s.published[obj := Published(a.root, InitialSnapshot(device, a))])
      else next
  }

  ghost function Acted(s: System, action: Action): System
    requires action.Foreign? || action.RemoveRemote? || action.device in s.clients
  {
    match action
    case Foreign(step) => if IsForeign(step, s.ws) then s.(world := ServerState.Next(s.world, step)) else s
    case RemoveRemote(device, root, bound, at) => Submitted(s, device, RemoveRequest(root, bound), at)
    case RemoveLocal(device, root) =>
      if IsUploading(s.clients[device]) then s else WithClient(s, device, MarkedRemoved(s.clients[device], root))
    case Submit(device, root, path, value, bound, refs, at, heard) =>
      AfterContent(s, device, root, path, value, bound, refs, at, heard)
    case Touch(device, root, path, mtime) => AfterTouch(s, device, root, path, mtime)
    case Consume(device, e, blocked) => AfterConsume(s, device, e, blocked)
    case Bootstrap(device, occupied, staged) => AfterBootstrap(s, device, occupied, staged)
    case AddStart(device, root, kind, home, at) => AfterStart(s, device, root, kind, home, at)
    case UploadNext(device, path, value, refs, at, heard) => AfterEntry(s, device, path, value, refs, at, heard)
    case UploadEnd(device, complete) => AfterUploadEnd(s, device, complete)
    case Publish(device, obj, refs, at) => AfterPublish(s, device, obj, refs, at)
    case AddEnd(device) =>
      if IsUploading(s.clients[device]) then s else WithClient(s, device, s.clients[device].(adding := None))
  }

  ghost function Step(s: System, action: Action): System {
    if action.Foreign? || action.RemoveRemote? || action.device in s.clients then Acted(s, action) else s
  }

  ghost function Run(s: System, actions: seq<Action>): System
    decreases |actions|
  {
    if actions == [] then s else Step(Run(s, actions[..|actions| - 1]), actions[|actions| - 1])
  }

  function Fresh(devices: set<DeviceId>): map<DeviceId, Client> {
    map d | d in devices :: NEW_CLIENT
  }

  /** A new workspace and any number of devices that know nothing yet. */
  ghost function Initial(ws: WorkspaceId, devices: set<DeviceId>): System {
    System(AfterCreate(EMPTY_WORLD, ws), ws, Fresh(devices), map[])
  }

  /** The states any number of new devices can get into with a new workspace, in any interleaving. */
  ghost predicate Reachable(s: System) {
    exists ws, devices, actions :: s == Run(Initial(ws, devices), actions)
  }
}
