/** Every action keeps the invariant of the replicated system. */
module ReplicationProofs {
  import opened Records
  import opened EventLog
  import opened Tables
  import opened ServerState
  import opened Clients
  import opened ClientProofs
  import opened ConsumeProofs
  import opened BootstrapProofs
  import opened UploadProofs
  import opened SnapshotExactness
  import opened Replication
  import opened SubmitProofs
  import opened HorizonProofs
  import opened ServerInvariant
  import opened AcceptanceTheorems
  import ET = EventTable
  import ST = SnapshotTable
  import Retention
  import WorkspacePurge

  ghost function RowOf(w: World, ws: WorkspaceId, root: RootId): Option<RootRow> {
    if (ws, root) in w.db.roots then Some(w.db.roots[(ws, root)]) else None
  }

  /** A snapshot a root points to was published for it, with the base the row says, and is exact. */
  ghost predicate RowSnapshotOk(log: seq<Event>, published: map<ObjectId, Published>, root: RootId, row: RootRow) {
    row.removed.None? && row.snapshot.Some? ==>
      && row.snapshot.value in published
      && var p := published[row.snapshot.value];
         p.root == root && Some(p.snapshot.base) == row.snapshotSeq && SnapshotOk(log, root, row.created, p.snapshot)
  }

  ghost predicate SnapshotsOk(s: System)
    requires s.ws in s.world.logs
  {
    forall root | RowOf(s.world, s.ws, root).Some? ::
      RowSnapshotOk(Log(s), s.published, root, RowOf(s.world, s.ws, root).value)
  }

  /** While a client is still adding a root, nobody has published a snapshot of that incarnation. */
  ghost predicate Unpublished(s: System, c: Client)
    requires s.ws in s.world.logs
  {
    c.adding.Some? && Incarnation(Log(s), c.adding.value.root) == Some(c.adding.value.created) ==>
      var row := RowOf(s.world, s.ws, c.adding.value.root);
      row.Some? && row.value.snapshotSeq.None?
  }

  ghost predicate PeerOk(s: System, device: DeviceId, c: Client)
    requires s.ws in s.world.logs
  {
    && ClientOk(Log(s), device, c) && AddingOk(Log(s), device, c)
    && (c.adding.Some? ==> 1 <= c.adding.value.created)
    && Unpublished(s, c)
  }

  ghost predicate WorldOk(s: System) {
    Inv(s.world) && AllOptimistic(s.world) && s.ws in s.world.logs
  }

  ghost predicate SysInv(s: System) {
    && s.ws in s.world.logs && WorldOk(s) && SnapshotsOk(s)
    && (forall d | d in s.clients :: PeerOk(s, d, s.clients[d]))
  }

  // ---- what the server invariant says about this workspace

  lemma ReadWorld(s: System)
    requires WorldOk(s)
    ensures SoundLog(Log(s)) && Optimistic(Log(s))
    ensures s.ws in s.world.db.workspaces && Latest(Log(s)) == s.world.db.workspaces[s.ws].current
    ensures Latest(Log(s)) < s.world.db.nextSeq && 1 <= s.world.db.nextSeq
    ensures s.ws in s.world.pruned
    ensures forall e | e in Log(s) :: 1 <= e.seqno && e.ws == s.ws
  {
    hide RootsOk, HeadsOk, EventsOk, FloorsOk, HorizonOk, Optimistic, NamesOk, CountsOk, Increasing, Disciplined;
    assert LogOk(s.world, s.ws);
  }

  lemma ReadRow(s: System, root: RootId)
    requires WorldOk(s)
    ensures var row := RowOf(s.world, s.ws, root);
            && (Incarnation(Log(s), root).Some? <==> row.Some? && row.value.removed.None?)
            && (row.Some? ==>
                  && 1 <= row.value.created <= Latest(Log(s))
                  && (row.value.removed.None? ==> Incarnation(Log(s), root) == Some(row.value.created))
                  && (row.value.snapshot.Some? <==> row.value.snapshotSeq.Some?)
                  && (row.value.removed.Some? ==> row.value.snapshot.None?)
                  && (row.value.snapshotSeq.Some? ==>
                      row.value.created <= row.value.snapshotSeq.value <= Latest(Log(s))))
  {
    hide HeadsOk, EventsOk, FloorsOk, HorizonOk, Optimistic, NamesOk, CountsOk, Increasing, Disciplined, Incarnation;
    assert LogOk(s.world, s.ws);
    assert RootOk(s.world, s.ws, root);
  }

  /** The cursor a bootstrap hands out, against the rows it is the minimum of. */
  lemma ReadCursor(s: System, root: RootId)
    requires WorldOk(s)
    ensures s.ws in s.world.db.workspaces && s.ws in s.world.pruned
    ensures 0 <= s.world.pruned[s.ws] <= BootstrapAfter(s.world.db, s.ws) <= Latest(Log(s))
    ensures var row := RowOf(s.world, s.ws, root);
            row.Some? && row.value.removed.None? ==> BootstrapAfter(s.world.db, s.ws) <= Contribution(row.value)
  {
    hide HeadsOk, EventsOk, FloorsOk, Optimistic, NamesOk, CountsOk, BootstrapAfter, SoundLog, RootsOk, LogsOk;
    hide Contribution, KeysOk;
    ReadWorld(s);
    var db := s.world.db;
    BoundedBelow(db, s.ws, BootstrapAfter(db, s.ws));
    if RowOf(s.world, s.ws, root).Some? && RowOf(s.world, s.ws, root).value.removed.None? {
      assert (s.ws, root) in ActiveRoots(db, s.ws);
    }
    if ActiveRoots(db, s.ws) != {} {
      var k := Pick(ActiveRoots(db, s.ws));
      ReadRow(s, k.1);
      ContributionBelow(db.roots[k], Latest(Log(s)));
    }
  }

  lemma ContributionBelow(row: RootRow, current: int)
    requires row.created <= current && (row.snapshotSeq.Some? ==> row.snapshotSeq.value <= current)
    ensures Contribution(row) <= current
  {}

  // ---- the log grows

  /** The workspace's log got one more event, and its rows changed as that submission says. */
  ghost predicate Grew(s: System, next: System, device: DeviceId, req: ET.Request, at: Time) {
    && WorldOk(s) && WorldOk(next) && s.ws in s.world.logs && next.ws in next.world.logs && Accepts(s, req)
    && next.ws == s.ws && next.clients == s.clients && next.published == s.published
    && Log(next) == Log(s) + [ET.NewEvent(s.world.db, s.ws, device, req, at)]
    && Latest(Log(s)) < s.world.db.nextSeq && 1 <= s.world.db.nextSeq
    && next.world.db.roots == ET.RootsAfter(s.world.db, s.ws, req)
  }

  lemma SubmittedGrows(s: System, device: DeviceId, req: ET.Request, at: Time)
    requires WorldOk(s) && Accepts(s, req)
    ensures Grew(s, Submitted(s, device, req, at), device, req, at)
  {
    hide Inv, ET.Check, AfterSubmit, ET.RootsAfter, ET.NewEvent, Optimistic, SoundLog, AllOptimistic;
    ReadWorld(s);
    StepKeepsInv(s.world, Step.SubmitEvent(s.ws, device, req, at));
    StepKeepsOptimistic(s.world, Step.SubmitEvent(s.ws, device, req, at));
    SubmitFields(s.world, s.ws, device, req, at);
  }

  lemma GrowRowSnapshot(log: seq<Event>, e: Event, published: map<ObjectId, Published>, root: RootId, row: RootRow)
    requires RowSnapshotOk(log, published, root, row) && Latest(log) < e.seqno
    ensures RowSnapshotOk(log + [e], published, root, row)
  {
    hide Latest, ValueAt, SnapshotValue;
    if row.removed.None? && row.snapshot.Some? {
      var s := published[row.snapshot.value].snapshot;
      LatestSnoc(log, e);
      forall path ensures SnapshotValue(s, path) == ValueAt(log + [e], root, path, s.base) {
        assert SnapshotValue(s, path) == ValueAt(log, root, path, s.base);
        ValueAtIsStable(log, e, root, path, s.base);
      }
    }
  }

  /** A submission leaves a row as it was, or leaves one without a snapshot. */
  lemma RowsAfter(s: System, next: System, device: DeviceId, req: ET.Request, at: Time, root: RootId)
    requires Grew(s, next, device, req, at)
    ensures var row := RowOf(next.world, next.ws, root);
            || row == RowOf(s.world, s.ws, root)
            || (row.Some? && row.value.snapshot.None? && row.value.snapshotSeq.None?)
    ensures RowOf(s.world, s.ws, root).Some? ==> RowOf(next.world, next.ws, root).Some?
  {
    hide WorldOk, ET.Check;
  }

  lemma GrowSnapshots(s: System, next: System, device: DeviceId, req: ET.Request, at: Time)
    requires Grew(s, next, device, req, at) && SnapshotsOk(s)
    ensures SnapshotsOk(next)
  {
    hide WorldOk, Latest, SnapshotOk, ET.RootsAfter, RowOf;
    forall root | RowOf(next.world, next.ws, root).Some?
      ensures RowSnapshotOk(Log(next), next.published, root, RowOf(next.world, next.ws, root).value)
    {
      RowsAfter(s, next, device, req, at, root);
      if RowOf(next.world, next.ws, root) == RowOf(s.world, s.ws, root) {
        GrowRowSnapshot(Log(s), ET.NewEvent(s.world.db, s.ws, device, req, at), s.published, root,
            RowOf(s.world, s.ws, root).value);
      }
    }
  }

  lemma GrowUnpublished(s: System, next: System, device: DeviceId, req: ET.Request, at: Time, me: DeviceId, c: Client)
    requires Grew(s, next, device, req, at) && Unpublished(s, c) && AddingOk(Log(s), me, c) && Increasing(Log(s))
    ensures Unpublished(next, c)
  {
    hide WorldOk, Latest, ET.RootsAfter, RowOf, OwnAdd, UploadedOk, PhaseOk, Incarnation, Increasing;
    if c.adding.Some? && Incarnation(Log(next), c.adding.value.root) == Some(c.adding.value.created) {
      GrowIncarnation(Log(s), ET.NewEvent(s.world.db, s.ws, device, req, at), me, c.adding.value);
      RowsAfter(s, next, device, req, at, c.adding.value.root);
    }
  }

  lemma GrowPeer(s: System, next: System, device: DeviceId, req: ET.Request, at: Time, me: DeviceId, c: Client)
    requires Grew(s, next, device, req, at) && PeerOk(s, me, c)
    ensures PeerOk(next, me, c)
  {
    hide WorldOk, Latest, TrackedOk, AddingOk, Unpublished, SoundLog, Optimistic;
    ReadWorld(s);
    var e := ET.NewEvent(s.world.db, s.ws, device, req, at);
    GrowKeepsClient(Log(s), e, me, c);
    assert Increasing(Log(s)) by { SoundIncreases(Log(s)); }
    GrowKeepsAdding(Log(s), e, me, c);
    GrowUnpublished(s, next, device, req, at, me, c);
  }

  lemma GrowKeepsSys(s: System, next: System, device: DeviceId, req: ET.Request, at: Time)
    requires SysInv(s) && Grew(s, next, device, req, at)
    ensures SysInv(next)
  {
    hide WorldOk, SnapshotsOk, PeerOk, Latest;
    GrowSnapshots(s, next, device, req, at);
    forall d | d in next.clients ensures PeerOk(next, d, next.clients[d]) {
      GrowPeer(s, next, device, req, at, d, s.clients[d]);
    }
  }

  // ---- the server moves elsewhere

  /** The workspace's log, rows and lifetime are what they were. */
  ghost predicate SameWorkspace(s: System, next: System) {
    && WorldOk(s) && WorldOk(next) && s.ws in s.world.logs && next.ws in next.world.logs
    && next.ws == s.ws && next.clients == s.clients && next.published == s.published
    && Log(next) == Log(s)
    && (forall root :: RowOf(next.world, next.ws, root) == RowOf(s.world, s.ws, root))
  }

  lemma SameWorkspaceKeepsSys(s: System, next: System)
    requires SysInv(s) && SameWorkspace(s, next)
    ensures SysInv(next)
  {
    hide WorldOk, RowOf, RowSnapshotOk, ClientOk, AddingOk, Incarnation;
    forall d | d in next.clients ensures PeerOk(next, d, next.clients[d]) {
      assert PeerOk(s, d, s.clients[d]);
    }
  }

  lemma LogKeys(w: World)
    requires Inv(w)
    ensures w.logs.Keys == w.db.workspaces.Keys
  {}

  lemma ForeignSubmit(w: World, v: WorkspaceId, device: DeviceId, req: ET.Request, at: Time, ws: WorkspaceId)
    requires Inv(w) && v != ws && ws in w.logs
    ensures var next := AfterSubmit(w, v, device, req, at);
            ws in next.logs && next.logs[ws] == w.logs[ws] && forall root :: RowOf(next, ws, root) == RowOf(w, ws, root)
  {
    hide Inv, ET.Check, AfterSubmit;
    if ET.Check(w.db, v, req).None? {
      CheckedExists(w.db, v, req);
      LogKeys(w);
      SubmitFields(w, v, device, req, at);
    } else {
      RefusedSubmit(w, v, device, req, at);
    }
  }

  lemma ForeignSave(w: World, v: WorkspaceId, device: DeviceId, req: ST.Request, at: Time, ws: WorkspaceId)
    requires v != ws && ws in w.logs
    ensures var next := AfterSave(w, v, device, req, at);
            ws in next.logs && next.logs[ws] == w.logs[ws] && forall root :: RowOf(next, ws, root) == RowOf(w, ws, root)
  {
    hide ST.Check, AfterSave, ST.Raise;
    if ST.Check(w.db, v, req).None? {
      SaveFields(w, v, device, req, at);
    } else {
      RefusedSave(w, v, device, req, at);
    }
  }

  lemma ForeignPurge(w: World, v: WorkspaceId, at: Time, ws: WorkspaceId)
    requires v != ws && ws in w.logs
    ensures var next := AfterPurge(w, v, at);
            ws in next.logs && next.logs[ws] == w.logs[ws] && forall root :: RowOf(next, ws, root) == RowOf(w, ws, root)
  {
    hide WorkspacePurge.Purged, WorkspacePurge.Candidates;
    if v in w.db.workspaces {
      PurgeFields(w.db, v, WorkspacePurge.Candidates(w.db, v), at);
    }
  }

  lemma ForeignLeavesWorkspace(s: System, step: Step)
    requires WorldOk(s) && IsForeign(step, s.ws)
    ensures SameWorkspace(s, s.(world := ServerState.Next(s.world, step)))
  {
    hide Inv, AfterSubmit, AfterSave, AfterPurge, AllOptimistic, Retention.Prune, HighestPruned;
    hide Retention.PrunedObjects;
    var w := s.world;
    StepKeepsInv(w, step);
    StepKeepsOptimistic(w, step);
    match step
    case CreateWorkspace(v) => LogKeys(w);
    case Upload(v, o, at) =>
    case SubmitEvent(v, device, req, at) => ForeignSubmit(w, v, device, req, at, s.ws);
    case SaveSnapshot(v, device, snap, at) => ForeignSave(w, v, device, snap, at, s.ws);
    case Prune(at, retention, zeroRetention, unlinked) => PruneFields(w, at, retention, zeroRetention);
    case Purge(v, at) => ForeignPurge(w, v, at, s.ws);
  }

  // ---- one client moves

  lemma ClientMoves(s: System, device: DeviceId, c: Client)
    requires SysInv(s) && PeerOk(s, device, c)
    ensures SysInv(WithClient(s, device, c))
  {
    hide Inv, AllOptimistic, RowOf, RowSnapshotOk, ClientOk, AddingOk, Incarnation;
    var next := WithClient(s, device, c);
    forall d | d in next.clients ensures PeerOk(next, d, next.clients[d]) {
      assert d != device ==> PeerOk(s, d, s.clients[d]);
    }
  }

  /** Replacing one row of a live root by one that is true and not behind. */
  lemma RowKeepsClient(log: seq<Event>, me: DeviceId, c: Client, root: RootId, path: PathId, entry: Entry)
    requires ClientOk(log, me, c) && IsLive(c, root) && EntryOk(log, (root, path), entry)
    requires root in c.tracked ==> Ahead(log, root, path, entry.value, Bound(c, root))
    ensures ClientOk(log, me, WithEntry(c, root, path, entry))
  {
    hide EntryOk, Ahead, Latest;
    var next := WithEntry(c, root, path, entry);
    forall r | r in next.tracked ensures TrackedOk(log, me, next, r) {
      assert TrackedOk(log, me, c, r);
      forall p ensures Ahead(log, r, p, IndexValue(next, r, p), Bound(next, r)) {
        assert Ahead(log, r, p, IndexValue(c, r, p), Bound(c, r));
      }
    }
  }

  lemma BoundBelowLatest(log: seq<Event>, me: DeviceId, c: Client, root: RootId)
    requires ClientOk(log, me, c) && root in c.tracked
    ensures Bound(c, root) <= Latest(log)
  {
    hide IndexAhead, EntryOk, Latest;
    assert TrackedOk(log, me, c, root);
  }

  /** An accepted submission whose answer arrived. */
  lemma HeardKeepsPeer(s: System, me: DeviceId, c: Client, e: Event, path: PathId)
    requires s.ws in s.world.logs && WorldOk(s) && PeerOk(s, me, c) && c.adding.None? && IsLive(c, e.root)
    requires e in Log(s) && e.seqno == Latest(Log(s)) && IsContent(e) && e.path == Some(path)
    ensures PeerOk(s, me, WithEntry(c, e.root, path, Entry(Written(e), e.seqno)))
  {
    hide WorldOk, SoundLog, Optimistic, Latest, TrackedOk, EntryOk, EntriesOk, Ahead;
    ReadWorld(s);
    SoundIncreases(Log(s));
    OwnSeqEntryOk(Log(s), e);
    if e.root in c.tracked {
      BoundBelowLatest(Log(s), me, c, e.root);
      OwnSeqAhead(Log(s), e, Bound(c, e.root));
    }
    RowKeepsClient(Log(s), me, c, e.root, path, Entry(Written(e), e.seqno));
  }

  /** A submission passed its checks: it lands in the incarnation it names and is well-formed. */
  lemma AcceptedEvent(s: System, device: DeviceId, root: RootId, path: PathId, value: Content, base: int,
                      bound: Option<int>, refs: seq<ObjectId>, at: Time)
    requires WorldOk(s) && Accepts(s, ContentRequest(root, path, value, base, bound, refs))
    ensures var e := ET.NewEvent(s.world.db, s.ws, device, ContentRequest(root, path, value, base, bound, refs), at);
            && e.seqno == s.world.db.nextSeq && e.root == root && e.path == Some(path) && e.author == device
            && e.base == Some(base) && IsContent(e) && Written(e) == value
    ensures bound.Some? ==> Incarnation(Log(s), root) == bound
    ensures NotBehind(Log(s), root, path, base)
  {
    hide Inv, Incarnation, Head, ET.FirstMissing, AllOptimistic, Written;
    var req := ContentRequest(root, path, value, base, bound, refs);
    assert path.text != "" by { CheckedContent(s.world.db, s.ws, req); }
    AcceptedIsOptimistic(s.world, s.ws, device, req, at);
    if bound.Some? {
      BoundLandsInItsIncarnation(s.world, s.ws, req);
    }
    WrittenIsValue(ET.NewEvent(s.world.db, s.ws, device, req, at), value);
  }

  lemma CheckedContent(db: Db, ws: WorkspaceId, req: ET.Request)
    requires ET.Check(db, ws, req).None? && (req.kind.DirPut? || req.kind.FilePut? || req.kind.Delete?)
    ensures req.path.text != ""
  {
    hide ET.FirstMissing;
  }

  lemma WrittenIsValue(e: Event, value: Content)
    requires e.kind == KindOf(value) && e.payload == Body(value)
    ensures Written(e) == value
  {}

  lemma LastInLog(log: seq<Event>, e: Event)
    ensures e in log + [e]
  {
    assert (log + [e])[|log|] == e;
  }

  lemma AcceptedKeepsSys(s: System, device: DeviceId, root: RootId, path: PathId, value: Content, bound: Option<int>,
                         refs: seq<ObjectId>, at: Time, heard: bool)
    requires SysInv(s) && device in s.clients && IsLive(s.clients[device], root) && s.clients[device].adding.None?
    requires Accepts(s, ContentRequest(root, path, value, IndexTag(s.clients[device], root, path), bound, refs))
    ensures SysInv(AfterContent(s, device, root, path, value, bound, refs, at, heard))
  {
    hide WorldOk, SnapshotsOk, PeerOk, Latest, AfterSubmit, Accepts, ContentRequest, Written, ET.NewEvent;
    var c := s.clients[device];
    var base := IndexTag(c, root, path);
    var req := ContentRequest(root, path, value, base, bound, refs);
    var next := Submitted(s, device, req, at);
    SubmittedGrows(s, device, req, at);
    GrowKeepsSys(s, next, device, req, at);
    if heard {
      var e := ET.NewEvent(s.world.db, s.ws, device, req, at);
      AcceptedEvent(s, device, root, path, value, base, bound, refs, at);
      LastInLog(Log(s), e);
      LatestSnoc(Log(s), e);
      HeardKeepsPeer(next, device, c, e, path);
      ClientMoves(next, device, WithEntry(c, root, path, Entry(value, s.world.db.nextSeq)));
    }
  }

  lemma WholeLog(log: seq<Event>, root: RootId, path: PathId)
    ensures HeadAt(log, root, path, Latest(log)) == Head(log, root, path)
  {}

  lemma MismatchNamesHead(db: Db, ws: WorkspaceId, req: ET.Request)
    requires ET.Check(db, ws, req).Some? && ET.Check(db, ws, req).value.PathHeadMismatch?
    ensures var h := ET.Check(db, ws, req).value.current;
            h == 0 || ((ws, req.root, req.path) in db.heads && db.heads[(ws, req.root, req.path)].seqno == h)
  {
    hide ET.FirstMissing;
  }

  lemma ReadHead(s: System, root: RootId, path: PathId)
    requires WorldOk(s)
    ensures (s.ws, root, path) in s.world.db.heads ==>
              Head(Log(s), root, path).Some? && Head(Log(s), root, path).value.seqno ==
                  s.world.db.heads[(s.ws, root, path)].seqno
  {
    hide RootsOk, FloorsOk, HorizonOk, NamesOk, CountsOk, Head, KeysOk, EventsOk, LogOk, AllOptimistic;
  }

  lemma ReadStored(s: System, h: int)
    requires WorldOk(s) && h in s.world.db.events && s.world.db.events[h].ws == s.ws
    ensures s.world.db.events[h] in Log(s) && s.world.db.events[h].seqno == h && h != 0
  {
    hide RootsOk, FloorsOk, HorizonOk, NamesOk, CountsOk, HeadsOk, LogOk, AllOptimistic;
  }

  /** The head a conflict names, fetched by its seq, is the head of the log. */
  lemma ConflictingHead(s: System, req: ET.Request)
    requires s.ws in s.world.logs && WorldOk(s)
    requires ET.Check(s.world.db, s.ws, req).Some? && ET.Check(s.world.db, s.ws, req).value.PathHeadMismatch?
    requires var h := ET.Check(s.world.db, s.ws, req).value.current;
             h in s.world.db.events && s.world.db.events[h].ws == s.ws
    ensures var e := s.world.db.events[ET.Check(s.world.db, s.ws, req).value.current];
            Head(Log(s), req.root, req.path) == Some(e) && e in Log(s)
  {
    hide WorldOk, ET.Check, Head, SoundLog, Optimistic;
    var h := ET.Check(s.world.db, s.ws, req).value.current;
    MismatchNamesHead(s.world.db, s.ws, req);
    ReadHead(s, req.root, req.path);
    ReadStored(s, h);
    HeadIsInLog(Log(s), req.root, req.path);
    ReadWorld(s);
    SoundIncreases(Log(s));
    UniqueSeq(Log(s), s.world.db.events[h]);
  }

  /** The conflicting head is applied: the index row now is the head of the log. */
  lemma HeadKeepsClient(log: seq<Event>, me: DeviceId, c: Client, e: Event, path: PathId)
    requires SoundLog(log) && ClientOk(log, me, c) && 1 <= e.seqno && IsLive(c, e.root)
    requires Head(log, e.root, path) == Some(e) && e in log && IsContent(e) && e.path == Some(path)
    ensures ClientOk(log, me, Applied(c, e, false))
  {
    hide Disciplined, Increasing, Latest, TrackedOk, EntriesOk, EntryOk, Head;
    OwnSeqEntryOk(log, e);
    if e.root in c.tracked {
      BoundBelowLatest(log, me, c, e.root);
      WholeLog(log, e.root, path);
      assert Digest(ValueAt(log, e.root, path, Latest(log))) == Digest(Written(e));
    }
    RowKeepsClient(log, me, c, e.root, path, Entry(Written(e), e.seqno));
  }

  lemma ConflictKeepsSys(s: System, device: DeviceId, root: RootId, path: PathId, value: Content, bound: Option<int>,
                         refs: seq<ObjectId>, at: Time, heard: bool)
    requires SysInv(s) && device in s.clients && IsLive(s.clients[device], root) && s.clients[device].adding.None?
    requires !Accepts(s, ContentRequest(root, path, value, IndexTag(s.clients[device], root, path), bound, refs))
    ensures SysInv(AfterContent(s, device, root, path, value, bound, refs, at, heard))
  {
    hide WorldOk, SnapshotsOk, Latest, ET.Check, Applied, ClientOk, AddingOk, SoundLog, Optimistic;
    var c := s.clients[device];
    var req := ContentRequest(root, path, value, IndexTag(c, root, path), bound, refs);
    var refusal := ET.Check(s.world.db, s.ws, req).value;
    assert PeerOk(s, device, c);
    if heard && refusal.PathHeadMismatch? && Fetchable(s, refusal.current) {
      var e := s.world.db.events[refusal.current];
      ConflictingHead(s, req);
      HeadIsInLog(Log(s), root, path);
      ReadWorld(s);
      HeadKeepsClient(Log(s), device, c, e, path);
      AppliedRow(c, e);
      assert AddingOk(Log(s), device, Applied(c, e, false)) by { NoAdding(Log(s), device, Applied(c, e, false)); }
      ClientMoves(s, device, Applied(c, e, false));
    } else if heard {
      ClientMoves(s, device, c);
    }
  }

  lemma AppliedRow(c: Client, e: Event)
    ensures Applied(c, e, false).adding == c.adding
  {}

  lemma NoAdding(log: seq<Event>, me: DeviceId, c: Client)
    requires c.adding.None?
    ensures AddingOk(log, me, c)
  {}

  lemma TouchKeepsSys(s: System, device: DeviceId, root: RootId, path: PathId, mtime: int)
    requires SysInv(s) && device in s.clients
    ensures SysInv(AfterTouch(s, device, root, path, mtime))
  {
    hide WorldOk, SnapshotsOk, Latest, ClientOk, AddingOk;
    var c := s.clients[device];
    assert PeerOk(s, device, c);
    if IsLive(c, root) && (root, path) in c.index && c.index[(root, path)].value.Dir? && c.adding.None? {
      var row := c.index[(root, path)];
      TouchKeepsClient(Log(s), device, c, root, path, mtime);
      var next := WithEntry(c, root, path, Entry(Dir(row.value.mode, mtime), row.tag));
      NoAdding(Log(s), device, next);
      ClientMoves(s, device, next);
    }
  }

  lemma TouchKeepsClient(log: seq<Event>, me: DeviceId, c: Client, root: RootId, path: PathId, mtime: int)
    requires ClientOk(log, me, c) && (root, path) in c.index && c.index[(root, path)].value.Dir?
    ensures var row := c.index[(root, path)];
            ClientOk(log, me, WithEntry(c, root, path, Entry(Dir(row.value.mode, mtime), row.tag)))
  {
    hide ValueAt, Latest;
    var row := c.index[(root, path)];
    var value := Dir(row.value.mode, mtime);
    var next := WithEntry(c, root, path, Entry(value, row.tag));
    assert Digest(value) == Digest(row.value);
    forall k | k in next.index ensures EntryOk(log, k, next.index[k]) {
      assert EntryOk(log, k, c.index[k]);
    }
    forall r | r in next.tracked ensures TrackedOk(log, me, next, r) {
      assert TrackedOk(log, me, c, r);
      TouchKeepsAhead(log, c, next, r);
    }
  }

  lemma TouchKeepsAhead(log: seq<Event>, c: Client, next: Client, root: RootId)
    requires IndexAhead(log, c, root) && Bound(next, root) == Bound(c, root)
    requires forall path :: Digest(IndexValue(next, root, path)) == Digest(IndexValue(c, root, path))
    ensures IndexAhead(log, next, root)
  {
    hide ValueAt, Latest, Digest, IndexValue;
    forall path ensures Ahead(log, root, path, IndexValue(next, root, path), Bound(next, root)) {
      assert Ahead(log, root, path, IndexValue(c, root, path), Bound(c, root));
    }
  }

  // ---- catch-up

  lemma NextAboveCreated(s: System, c: Client, e: Event)
    requires WorldOk(s) && Delivers(s, c, e) && Unpublished(s, c)
    ensures c.adding.Some? && Incarnation(Log(s), c.adding.value.root) == Some(c.adding.value.created) ==>
              IsNextAbove(Log(s), c.cursor, c.adding.value.created, e)
  {
    hide WorldOk, RowOf, Incarnation;
    if c.adding.Some? {
      ReadRow(s, c.adding.value.root);
      ReadCursor(s, c.adding.value.root);
    }
  }

  lemma ForgetTracking(log: seq<Event>, me: DeviceId, c: Client)
    requires EntriesOk(log, c)
    ensures ClientOk(log, me, c.(tracked := {}, mine := {}))
    ensures AddingOk(log, me, c) ==> AddingOk(log, me, c.(tracked := {}, mine := {}))
  {
    hide EntryOk, Latest, OwnAdd, UploadedOk, Incarnation;
    var next := c.(tracked := {}, mine := {});
    assert forall r, created | Seen(log, c, r, created) :: Seen(log, next, r, created);
  }

  lemma ConsumeKeepsSys(s: System, device: DeviceId, e: Event, blocked: bool)
    requires SysInv(s) && device in s.clients
    ensures SysInv(AfterConsume(s, device, e, blocked))
  {
    hide WorldOk, SnapshotsOk, Latest, TrackedOk, EntriesOk, OwnAdd, UploadedOk, PhaseOk, SoundLog, Optimistic;
    hide Consumed, Incarnation, RowOf;
    var c := s.clients[device];
    assert PeerOk(s, device, c);
    if !IsUploading(c) && Delivers(s, c, e) {
      ReadWorld(s);
      SoundIncreases(Log(s));
      NextAboveCreated(s, c, e);
      var next := Consumed(c, device, e, blocked);
      ConsumeKeepsAddingField(c, device, e, blocked);
      ConsumeKeepsAdding(Log(s), device, c, e, blocked);
      if IsNext(Log(s), c.cursor, e) {
        ConsumeKeepsClient(Log(s), device, c, e, blocked);
        ClientMoves(s, device, next);
      } else {
        ConsumeKeepsEntries(Log(s), device, c, e, blocked);
        ForgetTracking(Log(s), device, next);
        ClientMoves(s, device, next.(tracked := {}, mine := {}));
      }
    }
  }

  // ---- bootstrap

  lemma ListedIsOk(s: System, root: RootId)
    requires s.ws in s.world.logs && WorldOk(s) && SnapshotsOk(s) && root in Listing(s)
    ensures ListedOk(Log(s), root, Listing(s)[root], BootstrapAfter(s.world.db, s.ws))
    ensures RowOf(s.world, s.ws, root).Some?
    ensures RowOf(s.world, s.ws, root).value.snapshotSeq.None? ==> Listing(s)[root].snapshot.None?
  {
    hide WorldOk, BootstrapAfter, SnapshotOk, Incarnation, Latest;
    ReadRow(s, root);
    ReadCursor(s, root);
    assert RowSnapshotOk(Log(s), s.published, root, RowOf(s.world, s.ws, root).value);
  }

  lemma BootstrapKeepsSys(s: System, device: DeviceId, blocked: set<RootId>, staged: set<RootId>)
    requires SysInv(s) && device in s.clients
    ensures SysInv(AfterBootstrap(s, device, blocked, staged))
  {
    hide WorldOk, SnapshotsOk, Latest, ClientOk, AddingOk, SoundLog, Optimistic, Incarnation, RowOf, BootstrapAfter;
    hide Listing, Rebuilt, Replaced, ListedOk;
    var c := s.clients[device];
    assert PeerOk(s, device, c);
    if !IsUploading(c) && s.ws in s.world.db.workspaces {
      var after := BootstrapAfter(s.world.db, s.ws);
      ReadWorld(s);
      forall r | r in Listing(s)
        ensures ListedOk(Log(s), r, Listing(s)[r], after)
        ensures RowOf(s.world, s.ws, r).Some? && (RowOf(s.world, s.ws, r).value.snapshotSeq.None? ==>
                Listing(s)[r].snapshot.None?)
      {
        ListedIsOk(s, r);
      }
      ReadCursor(s, RootId(""));
      assert ListingOk(Log(s), Listing(s), after);
      var next := Rebuilt(c, device, Listing(s), after, blocked, staged, Replaced(Log(s), Listing(s), after));
      RebuildKeepsClient(Log(s), device, c, Listing(s), after, blocked, staged);
      RebuildKeepsAdding(Log(s), device, c, Listing(s), after, blocked, staged, Replaced(Log(s), Listing(s), after));
      RebuiltAdding(c, device, Listing(s), after, blocked, staged, Replaced(Log(s), Listing(s), after));
      ClientMoves(s, device, next);
    }
  }

  lemma RebuiltAdding(c: Client, me: DeviceId, listing: map<RootId, Listed>, after: int, blocked: set<RootId>,
                      staged: set<RootId>, replaced: set<RootId>)
    ensures Rebuilt(c, me, listing, after, blocked, staged, replaced).adding == c.adding
  {
    hide RebuiltIndex, RebuiltRoots;
  }

  // ---- adding a root

  lemma AcceptedAdd(s: System, device: DeviceId, root: RootId, kind: RootKind, home: string, at: Time)
    requires WorldOk(s) && Accepts(s, AddRequest(root, kind, home))
    ensures var e := ET.NewEvent(s.world.db, s.ws, device, AddRequest(root, kind, home), at);
            e.seqno == s.world.db.nextSeq && e.root == root && e.kind.RootAdd? && e.author == device
  {
    hide Inv, AllOptimistic;
  }

  lemma AddedRow(s: System, root: RootId, kind: RootKind, home: string)
    ensures var roots := ET.RootsAfter(s.world.db, s.ws, AddRequest(root, kind, home));
            (s.ws, root) in roots && roots[(s.ws, root)].snapshotSeq.None?
  {}

  lemma StartKeepsSys(s: System, device: DeviceId, root: RootId, kind: RootKind, home: string, at: Time)
    requires SysInv(s) && device in s.clients
    ensures SysInv(AfterStart(s, device, root, kind, home, at))
  {
    hide WorldOk, SnapshotsOk, Latest, SoundLog, Optimistic, Incarnation, AfterSubmit, Accepts, AddRequest, Started;
    hide AddingOk, TrackedOk, EntryOk, ET.NewEvent, ET.RootsAfter;
    var c := s.clients[device];
    var req := AddRequest(root, kind, home);
    assert PeerOk(s, device, c);
    if c.adding.Some? || (root in c.roots && !c.roots[root].state.Removed?) {
    } else if Accepts(s, req) {
      var next := Submitted(s, device, req, at);
      var e := ET.NewEvent(s.world.db, s.ws, device, req, at);
      SubmittedGrows(s, device, req, at);
      GrowKeepsSys(s, next, device, req, at);
      assert PeerOk(next, device, c);
      AcceptedAdd(s, device, root, kind, home, at);
      AddedRow(s, root, kind, home);
      LastInLog(Log(s), e);
      ReadWorld(next);
      StartKeepsClient(Log(next), device, c, e, kind);
      StartedAdding(c, root, kind, e.seqno);
      ClientMoves(next, device, Started(c, root, kind, s.world.db.nextSeq));
    } else {
      var next := c.(roots := c.roots[root := LocalRoot(kind, Active, 0)], tracked := c.tracked - {root},
          mine := c.mine - {root});
      UntrackKeepsClient(Log(s), device, c, next, root);
      NoAdding(Log(s), device, next);
      ClientMoves(s, device, next);
    }
  }

  lemma StartedAdding(c: Client, root: RootId, kind: RootKind, created: int)
    ensures Started(c, root, kind, created).adding == Some(Adding(root, created, [], Uploading))
  {}

  /** Whatever happens to an untracked root, the others are unaffected. */
  lemma UntrackKeepsClient(log: seq<Event>, me: DeviceId, c: Client, next: Client, root: RootId)
    requires ClientOk(log, me, c)
    requires next.cursor == c.cursor && next.tracked == c.tracked - {root} && next.mine == c.mine - {root}
    requires forall k | k in next.index ::
             k in c.index && next.index[k] == c.index[k]
             && (k.0 == root ==> root in next.roots && !next.roots[root].state.Removed?)
    requires forall k | k in c.index && k.0 != root :: k in next.index
    requires forall r | r in c.roots && r != root :: r in next.roots && next.roots[r] == c.roots[r]
    ensures ClientOk(log, me, next)
  {
    hide EntryOk, Latest, Ahead;
    forall r | r in next.tracked ensures TrackedOk(log, me, next, r) {
      assert TrackedOk(log, me, c, r);
      SameIndexAhead(log, c, next, r);
    }
  }

  lemma RemoveKeepsSys(s: System, device: DeviceId, root: RootId)
    requires SysInv(s) && device in s.clients && !IsUploading(s.clients[device])
    ensures SysInv(WithClient(s, device, MarkedRemoved(s.clients[device], root)))
  {
    hide WorldOk, SnapshotsOk, Latest, EntryOk, TrackedOk, Incarnation, RowOf, OwnAdd, UploadedOk, IsUploading;
    var c := s.clients[device];
    assert PeerOk(s, device, c);
    var next := MarkedRemoved(c, root);
    if root in c.roots {
      UntrackKeepsClient(Log(s), device, c, next, root);
    }
    RemovalKeepsAdding(Log(s), device, c, root);
    ClientMoves(s, device, next);
  }

  lemma RemovalKeepsAdding(log: seq<Event>, me: DeviceId, c: Client, root: RootId)
    requires AddingOk(log, me, c) && !IsUploading(c)
    ensures AddingOk(log, me, MarkedRemoved(c, root))
    ensures MarkedRemoved(c, root).adding == c.adding
  {
    hide OwnAdd, UploadedOk, Incarnation;
    if c.adding.Some? && c.adding.value.root != root {
      var next := MarkedRemoved(c, root);
      assert forall created :: Seen(log, c, c.adding.value.root, created) ==>
             Seen(log, next, c.adding.value.root, created);
    }
  }
}
