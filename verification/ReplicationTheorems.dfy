/**
  What replication promises, for any number of clients and any interleaving of their steps: nothing is
  overwritten unseen, initial snapshots are exact, and caught-up clients agree.
*/
module ReplicationTheorems {
  import opened Records
  import opened EventLog
  import opened Tables
  import opened ServerState
  import opened Clients
  import opened ClientProofs
  import opened ConsumeProofs
  import opened BootstrapProofs
  import opened UploadProofs
  import opened SnapshotExactness
  import opened Replication
  import opened ReplicationProofs
  import opened ReplicationInvariant
  import opened Replays
  import opened AcceptanceTheorems
  import ET = EventTable
  import ST = SnapshotTable

  // ---- no silent overwrite

  /** What the author believes the path to hold is what it does hold just before the event. */
  ghost predicate SawTheHead(log: seq<Event>, c: Client, root: RootId, path: PathId) {
    Digest(IndexValue(c, root, path)) == Digest(ValueAt(log, root, path, Latest(log)))
  }

  lemma NotBehindSawTheHead(log: seq<Event>, c: Client, root: RootId, path: PathId)
    requires SoundLog(log) && EntriesOk(log, c) && (forall e | e in log :: 1 <= e.seqno)
    requires NotBehind(log, root, path, IndexTag(c, root, path))
    ensures SawTheHead(log, c, root, path)
  {
    hide Disciplined, Increasing, Head, Latest;
    WholeLog(log, root, path);
    var tag := IndexTag(c, root, path);
    if Head(log, root, path).Some? {
      HeadIsInLog(log, root, path);
      HeadStays(log, root, path, tag);
      assert EntryOk(log, (root, path), c.index[(root, path)]);
    } else {
      TagsArePositive(log, c, root, path);
    }
  }

  lemma TagsArePositive(log: seq<Event>, c: Client, root: RootId, path: PathId)
    requires EntriesOk(log, c) && IndexTag(c, root, path) < 1
    ensures IndexValue(c, root, path) == Gone
  {
    hide ValueAt, Latest;
    assert (root, path) in c.index ==> EntryOk(log, (root, path), c.index[(root, path)]);
  }

  /**
    Whenever the server accepts a content event from a rescan or a conflict resolution, the author's
    index and the log agree on the path's content just before it, even though the base the author sent
    may be ahead of the path's head.
  */
  lemma NoSilentOverwrite(s: System, device: DeviceId, root: RootId, path: PathId, value: Content, bound: Option<int>,
                          refs: seq<ObjectId>)
    requires Replication.Reachable(s) && device in s.clients
    requires Accepts(s, ContentRequest(root, path, value, IndexTag(s.clients[device], root, path), bound, refs))
    ensures s.ws in s.world.logs && SawTheHead(Log(s), s.clients[device], root, path)
  {
    hide Replication.Reachable, WorldOk, SnapshotsOk, AddingOk, Unpublished, Accepts, ContentRequest, NotBehind;
    hide SoundLog, Optimistic, EntriesOk, TrackedOk, SawTheHead;
    var c := s.clients[device];
    ReachableSystemsAreSound(s);
    assert PeerOk(s, device, c);
    ReadWorld(s);
    AcceptedEvent(s, device, root, path, value, IndexTag(c, root, path), bound, refs, 0);
    NotBehindSawTheHead(Log(s), c, root, path);
  }

  /** An initial upload only ever writes to paths that hold nothing. */
  lemma UploadOverwritesNothing(s: System, device: DeviceId, path: PathId, value: Content, refs: seq<ObjectId>)
    requires Replication.Reachable(s) && device in s.clients && IsUploading(s.clients[device])
    requires var a := s.clients[device].adding.value;
             Accepts(s, ContentRequest(a.root, path, value, 0, Some(a.created), refs))
    ensures s.ws in s.world.logs
    ensures ValueAt(Log(s), s.clients[device].adding.value.root, path, Latest(Log(s))) == Gone
  {
    hide Replication.Reachable, WorldOk, SnapshotsOk, Accepts, ContentRequest, SoundLog, Optimistic, Head, Latest;
    hide PeerOk;
    var a := s.clients[device].adding.value;
    ReachableSystemsAreSound(s);
    ReadWorld(s);
    AcceptedEvent(s, device, a.root, path, value, 0, Some(a.created), refs, 0);
    WholeLog(Log(s), a.root, path);
    if Head(Log(s), a.root, path).Some? {
      HeadIsInLog(Log(s), a.root, path);
    }
  }

  // ---- initial snapshot exactness

  /**
    For every interleaving of peer events with an initial upload: a snapshot the server accepts is the
    fold of the incarnation's events up to its base, and every event up to there has the same author.
  */
  lemma InitialSnapshotExactness(s: System, device: DeviceId, obj: ObjectId, refs: seq<ObjectId>)
    requires Replication.Reachable(s) && device in s.clients && s.clients[device].adding.Some?
    requires Eligible(s.clients[device], s.clients[device].adding.value)
    requires ST.Check(s.world.db, s.ws, SnapshotRequest(s.clients[device].adding.value, obj, refs)).None?
    ensures s.ws in s.world.logs
    ensures var a := s.clients[device].adding.value;
            Incarnation(Log(s), a.root) == Some(a.created)
                && SnapshotOk(Log(s), a.root, a.created, InitialSnapshot(device, a))
  {
    hide Replication.Reachable, WorldOk, SnapshotsOk, PeerOk, Eligible, ST.Check, SnapshotRequest, SnapshotOk;
    hide Incarnation, InitialSnapshot;
    ReachableSystemsAreSound(s);
    AcceptedSnapshotIsExact(s, device, obj, refs);
  }

  /** And it stays exact: at any later time the snapshot an active root points to still is that fold. */
  lemma SnapshotsStayExact(s: System, root: RootId)
    requires Replication.Reachable(s)
    requires IsActive(s.world.db, s.ws, root) && s.world.db.roots[(s.ws, root)].snapshot.Some?
    ensures var row := s.world.db.roots[(s.ws, root)];
            && s.ws in s.world.logs && row.snapshot.value in s.published
            && SnapshotOk(Log(s), root, row.created, s.published[row.snapshot.value].snapshot)
            && Some(s.published[row.snapshot.value].snapshot.base) == row.snapshotSeq
  {
    hide Replication.Reachable, WorldOk, PeerOk, SnapshotOk;
    ReachableSystemsAreSound(s);
    assert RowSnapshotOk(Log(s), s.published, root, RowOf(s.world, s.ws, root).value);
  }

  // ---- convergence

  /** The index of a root, path by path, is the fold of the log. */
  ghost predicate Agrees(log: seq<Event>, c: Client, root: RootId) {
    forall path :: Digest(IndexValue(c, root, path)) == Digest(ValueAt(log, root, path, Latest(log)))
  }

  lemma CaughtUpAgrees(log: seq<Event>, me: DeviceId, c: Client, root: RootId)
    requires ClientOk(log, me, c) && root in c.tracked && c.cursor == Latest(log)
    ensures Agrees(log, c, root)
  {
    hide Latest, ValueAt, EntryOk;
    assert TrackedOk(log, me, c, root);
    BoundBelowLatest(log, me, c, root);
    forall path ensures Digest(IndexValue(c, root, path)) == Digest(ValueAt(log, root, path, Latest(log))) {
      assert Ahead(log, root, path, IndexValue(c, root, path), Bound(c, root));
    }
  }

  /** A client whose cursor has reached the head holds, at every path of a tracked root, the path's last event. */
  lemma Converged(s: System, device: DeviceId, root: RootId)
    requires Replication.Reachable(s) && device in s.clients && s.ws in s.world.db.workspaces
    requires root in s.clients[device].tracked && s.clients[device].cursor == s.world.db.workspaces[s.ws].current
    ensures s.ws in s.world.logs && Agrees(Log(s), s.clients[device], root)
  {
    hide Replication.Reachable, WorldOk, SnapshotsOk, AddingOk, Unpublished, SoundLog, Optimistic, ClientOk, Agrees;
    ReachableSystemsAreSound(s);
    ReadWorld(s);
    assert PeerOk(s, device, s.clients[device]);
    CaughtUpAgrees(Log(s), device, s.clients[device], root);
  }

  /** Two caught-up clients agree on every path. */
  lemma CaughtUpClientsAgree(s: System, d: DeviceId, d': DeviceId, root: RootId, path: PathId)
    requires Replication.Reachable(s) && d in s.clients && d' in s.clients && s.ws in s.world.db.workspaces
    requires root in s.clients[d].tracked && root in s.clients[d'].tracked
    requires s.clients[d].cursor == s.clients[d'].cursor == s.world.db.workspaces[s.ws].current
    ensures Digest(IndexValue(s.clients[d], root, path)) == Digest(IndexValue(s.clients[d'], root, path))
  {
    hide Replication.Reachable;
    Converged(s, d, root);
    Converged(s, d', root);
  }

  /** At or above everything pruned, catch-up passes over no event. */
  lemma NoGapAboveHorizon(s: System, c: Client, e: Event)
    requires Delivers(s, c, e) && s.world.pruned[s.ws] <= c.cursor
    ensures IsNext(Log(s), c.cursor, e)
  {}

  /** The actions of a client that can end its following of a root. */
  ghost predicate Disturbs(action: Action, device: DeviceId, root: RootId) {
    match action
    case RemoveLocal(d, r) => d == device && r == root
    case Consume(d, e, blocked) => d == device && e.root == root && (e.kind.RootRemove? || blocked)
    case Bootstrap(d, _, _) => d == device
    case AddStart(d, r, _, _, _) => d == device && r == root
    case _ => false
  }

  ghost predicate Follows(s: System, device: DeviceId, root: RootId) {
    device in s.clients && root in s.clients[device].tracked
  }

  lemma StepFollows(s: System, action: Action, device: DeviceId, root: RootId)
    requires SysInv(s) && Follows(s, device, root)
    requires s.ws in s.world.pruned && s.world.pruned[s.ws] <= s.clients[device].cursor
    requires !Disturbs(action, device, root)
    ensures Follows(Replication.Step(s, action), device, root)
  {
    hide SysInv, AfterContent, AfterTouch, AfterConsume, AfterBootstrap, AfterStart, AfterEntry, AfterUploadEnd;
    hide AfterPublish, Submitted, MarkedRemoved, ServerState.Next;
    match action
    case Foreign(step) =>
    case RemoveRemote(d, r, bound, at) => SubmittedTracks(s, d, RemoveRequest(r, bound), at);
    case RemoveLocal(d, r) => if d == device { RemovalTracks(s.clients[d], r, root); }
    case Submit(d, r, path, value, bound, refs, at, heard) =>
      if d in s.clients { SubmitTracks(s, d, r, path, value, bound, refs, at, heard, device, root); }
    case Touch(d, r, path, mtime) => if d in s.clients { TouchTracks(s, d, r, path, mtime, device, root); }
    case Consume(d, e, blocked) => if d in s.clients { ConsumeTracks(s, d, e, blocked, device, root); }
    case Bootstrap(d, occupied, staged) => if d in s.clients { BootstrapTracks(s, d, occupied, staged, device, root); }
    case AddStart(d, r, kind, home, at) => if d in s.clients { StartTracks(s, d, r, kind, home, at, device, root); }
    case UploadNext(d, path, value, refs, at, heard) =>
      if d in s.clients { EntryTracks(s, d, path, value, refs, at, heard, device, root); }
    case UploadEnd(d, complete) => if d in s.clients { UploadEndTracks(s, d, complete, device, root); }
    case Publish(d, obj, refs, at) => if d in s.clients { PublishTracks(s, d, obj, refs, at, device, root); }
    case AddEnd(d) =>
  }

  /**
    A client that stays at or above the horizon keeps following its roots, whatever the other clients and
    the server do; only the root's own removal or a new bootstrap starts it over.
  */
  lemma KeepsFollowing(s: System, action: Action, device: DeviceId, root: RootId)
    requires Replication.Reachable(s) && Follows(s, device, root)
    requires s.ws in s.world.pruned && s.world.pruned[s.ws] <= s.clients[device].cursor
    requires !Disturbs(action, device, root)
    ensures Follows(Replication.Step(s, action), device, root)
  {
    hide Replication.Reachable, SysInv, Replication.Step, Disturbs;
    ReachableSystemsAreSound(s);
    StepFollows(s, action, device, root);
  }

  lemma SubmittedTracks(s: System, d: DeviceId, req: ET.Request, at: Time)
    ensures Submitted(s, d, req, at).clients == s.clients
  {
    hide AfterSubmit;
  }

  lemma TouchTracks(s: System, d: DeviceId, r: RootId, path: PathId, mtime: int, device: DeviceId, root: RootId)
    requires Follows(s, device, root) && d in s.clients
    ensures Follows(AfterTouch(s, d, r, path, mtime), device, root)
  {}

  lemma ConsumeTracks(s: System, d: DeviceId, e: Event, blocked: bool, device: DeviceId, root: RootId)
    requires SysInv(s) && Follows(s, device, root) && d in s.clients
    requires s.ws in s.world.pruned && s.world.pruned[s.ws] <= s.clients[device].cursor
    requires d == device ==> !(e.root == root && (e.kind.RootRemove? || blocked))
    ensures Follows(AfterConsume(s, d, e, blocked), device, root)
  {
    hide WorldOk, SnapshotsOk, AddingOk, Unpublished, ClientOk, Consumed, IsNext;
    var c := s.clients[d];
    if d == device && !IsUploading(c) && Delivers(s, c, e) {
      assert PeerOk(s, device, c);
      NoGapAboveHorizon(s, c, e);
      StaysTracked(Log(s), device, c, e, blocked, root);
    }
  }

  lemma BootstrapTracks(s: System, d: DeviceId, occupied: set<RootId>, staged: set<RootId>, device: DeviceId,
                        root: RootId)
    requires Follows(s, device, root) && d in s.clients && d != device
    ensures Follows(AfterBootstrap(s, d, occupied, staged), device, root)
  {
    hide Rebuilt, Listing, BootstrapAfter, Replaced;
  }

  lemma EntryTracks(s: System, d: DeviceId, path: PathId, value: Content, refs: seq<ObjectId>, at: Time, heard: bool,
                    device: DeviceId, root: RootId)
    requires Follows(s, device, root) && d in s.clients
    ensures Follows(AfterEntry(s, d, path, value, refs, at, heard), device, root)
  {
    hide Accepts, AfterSubmit, ContentRequest;
  }

  lemma UploadEndTracks(s: System, d: DeviceId, complete: bool, device: DeviceId, root: RootId)
    requires Follows(s, device, root) && d in s.clients
    ensures Follows(AfterUploadEnd(s, d, complete), device, root)
  {
    hide UploadedIndex;
  }

  lemma PublishTracks(s: System, d: DeviceId, obj: ObjectId, refs: seq<ObjectId>, at: Time, device: DeviceId,
                      root: RootId)
    requires Follows(s, device, root) && d in s.clients
    ensures Follows(AfterPublish(s, d, obj, refs, at), device, root)
  {
    hide Eligible, AfterSave, ST.Check;
    if s.clients[d].adding.Some? && Eligible(s.clients[d], s.clients[d].adding.value) {
      ReadEligible(s.clients[d], s.clients[d].adding.value);
    }
  }

  lemma ConflictTracks(s: System, c: Client, req: ET.Request)
    requires s.ws in s.world.logs && WorldOk(s) && ET.Check(s.world.db, s.ws, req).Some?
    ensures AfterConflict(s, c, ET.Check(s.world.db, s.ws, req).value).tracked == c.tracked
  {
    hide WorldOk, ET.Check, Head;
    var refusal := ET.Check(s.world.db, s.ws, req).value;
    if refusal.PathHeadMismatch? && Fetchable(s, refusal.current) {
      ConflictingHead(s, req);
      HeadIsInLog(Log(s), req.root, req.path);
    }
  }

  lemma SubmitTracks(s: System, d: DeviceId, r: RootId, path: PathId, value: Content, bound: Option<int>,
                     refs: seq<ObjectId>, at: Time, heard: bool, device: DeviceId, root: RootId)
    requires SysInv(s) && d in s.clients && Follows(s, device, root)
    ensures Follows(AfterContent(s, d, r, path, value, bound, refs, at, heard), device, root)
  {
    hide WorldOk, SnapshotsOk, PeerOk, Accepts, AfterSubmit, AfterConflict, ContentRequest;
    var c := s.clients[d];
    var req := ContentRequest(r, path, value, IndexTag(c, r, path), bound, refs);
    if IsLive(c, r) && c.adding.None? && !Accepts(s, req) {
      RefusedIsRefused(s, req);
      ConflictTracks(s, c, req);
    }
  }

  lemma RefusedIsRefused(s: System, req: ET.Request)
    requires !Accepts(s, req)
    ensures ET.Check(s.world.db, s.ws, req).Some?
  {
    hide ET.Check;
  }

  lemma RemovalTracks(c: Client, removed: RootId, root: RootId)
    requires root in c.tracked && removed != root
    ensures root in MarkedRemoved(c, removed).tracked
  {}

  lemma StartTracks(s: System, d: DeviceId, r: RootId, kind: RootKind, home: string, at: Time, device: DeviceId,
                    root: RootId)
    requires Follows(s, device, root) && d in s.clients && !(d == device && r == root)
    ensures Follows(AfterStart(s, d, r, kind, home, at), device, root)
  {
    hide Accepts, AfterSubmit, AddRequest;
  }
}
