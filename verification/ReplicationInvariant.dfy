/** The remaining actions of an initial upload, and the invariant over every run. */
module ReplicationInvariant {
  import opened Records
  import opened EventLog
  import opened Tables
  import opened ServerState
  import opened Clients
  import opened ClientProofs
  import opened ConsumeProofs
  import opened BootstrapProofs
  import opened UploadProofs
  import opened SnapshotExactness
  import opened Replication
  import opened ReplicationProofs
  import opened ServerInvariant
  import opened AcceptanceTheorems
  import ET = EventTable
  import ST = SnapshotTable

  // ---- uploading entries

  /** The incarnation is the one the upload names, so nothing of a later one lies before the new event. */
  lemma UploadInside(log: seq<Event>, e: Event, a: Adding, u: Uploaded)
    requires Increasing(log) && Incarnation(log, a.root) == Some(a.created)
    requires IsContent(e) && Latest(log) < e.seqno == u.seqno
    ensures InsideIncarnation(log + [e], a, u)
  {
    hide Incarnation, Latest, Increasing;
    forall x | x in log + [e] && x.root == a.root && IsLifecycle(x) ensures x.seqno <= a.created {
      assert x in log;
      IncarnationIsLast(log, a.root, x);
    }
  }

  lemma CreatedBefore(log: seq<Event>, root: RootId)
    requires Increasing(log) && Incarnation(log, root).Some?
    ensures Incarnation(log, root).value <= Latest(log)
  {
    IncarnationIsInLog(log, root);
  }

  lemma EntriesBefore(log: seq<Event>, me: DeviceId, a: Adding)
    requires Increasing(log) && UploadedOk(log, me, a)
    ensures forall i | 0 <= i < |a.entries| :: a.entries[i].seqno <= Latest(log)
  {
    hide Latest, Increasing, InsideIncarnation;
    forall i | 0 <= i < |a.entries| ensures a.entries[i].seqno <= Latest(log) {
      var u := a.entries[i];
      assert u in a.entries;
      var f :| f in log && IsUpload(f, me, a, u);
      LatestBounds(log, f);
    }
  }

  lemma UploadKeepsPeer(s: System, next: System, device: DeviceId, path: PathId, value: Content, refs: seq<ObjectId>,
                        at: Time, c: Client)
    requires IsUploading(c) && !value.Gone?
    requires var a := c.adding.value;
             Grew(s, next, device, ContentRequest(a.root, path, value, 0, Some(a.created), refs), at)
    requires PeerOk(s, device, c) && PeerOk(next, device, c)
    ensures var a := c.adding.value;
            PeerOk(next, device, c.(adding := Some(a.(entries := a.entries
                + [Uploaded(path, value, s.world.db.nextSeq)]))))
  {
    hide WorldOk, Latest, SoundLog, Optimistic, Incarnation, Accepts, ContentRequest, ET.NewEvent, ET.RootsAfter;
    hide EntriesOk, TrackedOk, RowOf, PhaseOk;
    var a := c.adding.value;
    var req := ContentRequest(a.root, path, value, 0, Some(a.created), refs);
    var e := ET.NewEvent(s.world.db, s.ws, device, req, at);
    var u := Uploaded(path, value, s.world.db.nextSeq);
    ReadWorld(s);
    SoundIncreases(Log(s));
    AcceptedEvent(s, device, a.root, path, value, 0, Some(a.created), refs, at);
    CreatedBefore(Log(s), a.root);
    LastInLog(Log(s), e);
    UploadInside(Log(s), e, a, u);
    EntriesBefore(Log(s), device, a);
    assert IsUpload(e, device, a, u);
    UploadKeepsAdding(Log(next), device, c, e, u);
    var c' := c.(adding := Some(a.(entries := a.entries + [u])));
    AddingLeavesClient(Log(next), device, c, c');
  }

  lemma AddingLeavesClient(log: seq<Event>, me: DeviceId, c: Client, next: Client)
    requires ClientOk(log, me, c) && next == c.(adding := next.adding)
    ensures ClientOk(log, me, next)
  {
    hide EntryOk, Latest, Ahead;
    forall r | r in next.tracked ensures TrackedOk(log, me, next, r) {
      assert TrackedOk(log, me, c, r);
      SameIndexAhead(log, c, next, r);
    }
  }

  lemma UploadKeepsSys(s: System, device: DeviceId, path: PathId, value: Content, refs: seq<ObjectId>, at: Time,
                       heard: bool)
    requires SysInv(s) && device in s.clients
    ensures SysInv(AfterEntry(s, device, path, value, refs, at, heard))
  {
    hide WorldOk, SnapshotsOk, PeerOk, Latest, AfterSubmit, Accepts, ContentRequest;
    var c := s.clients[device];
    if IsUploading(c) && !value.Gone? {
      var a := c.adding.value;
      var req := ContentRequest(a.root, path, value, 0, Some(a.created), refs);
      if Accepts(s, req) {
        var next := Submitted(s, device, req, at);
        SubmittedGrows(s, device, req, at);
        GrowKeepsSys(s, next, device, req, at);
        if heard {
          UploadKeepsPeer(s, next, device, path, value, refs, at, c);
          ClientMoves(next, device, c.(adding := Some(a.(entries := a.entries
              + [Uploaded(path, value, s.world.db.nextSeq)]))));
        }
      }
    }
  }

  lemma UploadEndKeepsSys(s: System, device: DeviceId, complete: bool)
    requires SysInv(s) && device in s.clients
    ensures SysInv(AfterUploadEnd(s, device, complete))
  {
    hide WorldOk, SnapshotsOk, Latest, SoundLog, Optimistic, Incarnation, ClientOk, AddingOk, RowOf, UploadedIndex;
    var c := s.clients[device];
    assert PeerOk(s, device, c);
    if IsUploading(c) {
      var a := c.adding.value;
      ReadWorld(s);
      SoundIncreases(Log(s));
      CollectKeepsClient(Log(s), device, c);
      var done := Collected(c, a).(adding := if complete then Some(a.(phase := Reconciling)) else None);
      AddingLeavesClient(Log(s), device, Collected(c, a), done);
      if complete {
        CollectKeepsAdding(Log(s), device, c);
      } else {
        NoAdding(Log(s), device, done);
      }
      ClientMoves(s, device, done);
    }
  }

  lemma AddEndKeepsSys(s: System, device: DeviceId)
    requires SysInv(s) && device in s.clients
    ensures SysInv(WithClient(s, device, s.clients[device].(adding := None)))
  {
    hide WorldOk, SnapshotsOk, Latest, Incarnation, ClientOk, AddingOk, RowOf;
    var c := s.clients[device];
    assert PeerOk(s, device, c);
    AddingLeavesClient(Log(s), device, c, c.(adding := None));
    NoAdding(Log(s), device, c.(adding := None));
    ClientMoves(s, device, c.(adding := None));
  }

  // ---- publishing the snapshot

  lemma AcceptedBase(s: System, a: Adding, obj: ObjectId, refs: seq<ObjectId>)
    requires a.entries != [] && ST.Check(s.world.db, s.ws, SnapshotRequest(a, obj, refs)).None?
    ensures var row := RowOf(s.world, s.ws, a.root);
            row.Some? && row.value.removed.None? && row.value.created <= a.entries[|a.entries| - 1].seqno
  {
    hide ET.FirstMissing;
  }

  /** A snapshot is only accepted into the incarnation its entries were uploaded to. */
  lemma PublishedIntoItsIncarnation(log: seq<Event>, me: DeviceId, a: Adding, created: int)
    requires Increasing(log) && OwnAdd(log, me, a) && UploadedOk(log, me, a) && a.entries != []
    requires Incarnation(log, a.root) == Some(created) && created <= a.entries[|a.entries| - 1].seqno
    ensures created == a.created
  {
    hide Increasing, Incarnation;
    var f :| f in log && f.seqno == a.created && f.kind.RootAdd? && f.root == a.root && f.author == me;
    IncarnationIsLast(log, a.root, f);
    var e := CreatedEvent(log, a.root);
    var u := a.entries[|a.entries| - 1];
    assert u in a.entries;
    assert InsideIncarnation(log, a, u);
  }

  /** Whatever interleaving led here: an accepted initial snapshot is exact and has a single author. */
  lemma AcceptedSnapshotIsExact(s: System, device: DeviceId, obj: ObjectId, refs: seq<ObjectId>)
    requires SysInv(s) && device in s.clients && s.clients[device].adding.Some?
    requires Eligible(s.clients[device], s.clients[device].adding.value)
    requires ST.Check(s.world.db, s.ws, SnapshotRequest(s.clients[device].adding.value, obj, refs)).None?
    ensures var a := s.clients[device].adding.value;
            && Incarnation(Log(s), a.root) == Some(a.created)
            && SnapshotOk(Log(s), a.root, a.created, InitialSnapshot(device, a))
  {
    hide WorldOk, SnapshotsOk, Latest, SoundLog, Optimistic, Incarnation, TrackedOk, EntryOk, ST.Check, Eligible;
    hide OwnAdd, UploadedOk, PhaseOk, SnapshotOk, RowOf;
    var c := s.clients[device];
    var a := c.adding.value;
    assert PeerOk(s, device, c);
    ReadWorld(s);
    SoundIncreases(Log(s));
    ReadEligible(c, a);
    AcceptedBase(s, a, obj, refs);
    ReadRow(s, a.root);
    PublishedIntoItsIncarnation(Log(s), device, a, RowOf(s.world, s.ws, a.root).value.created);
    EligibleSnapshotIsExact(Log(s), device, c, a);
  }

  lemma ReadEligible(c: Client, a: Adding)
    requires Eligible(c, a)
    ensures a.entries != [] && c.adding == Some(a)
  {}

  /** The published world: only the root's snapshot columns differ. */
  ghost predicate PublishedWorld(s: System, next: System, a: Adding, obj: ObjectId, base: int) {
    && WorldOk(s) && WorldOk(next) && s.ws in s.world.logs && next.ws in next.world.logs
    && next.ws == s.ws && Log(next) == Log(s)
    && RowOf(s.world, s.ws, a.root).Some?
    && (forall root :: RowOf(next.world, next.ws, root) ==
          if root == a.root then Some(RowOf(s.world, s.ws, root).value.(snapshot := Some(obj),
              snapshotSeq := Some(base)))
          else RowOf(s.world, s.ws, root))
  }

  lemma SaveIsPublished(s: System, device: DeviceId, a: Adding, obj: ObjectId, refs: seq<ObjectId>, at: Time,
                        next: System)
    requires s.ws in s.world.logs && WorldOk(s) && a.entries != [] && next.ws == s.ws
    requires ST.Check(s.world.db, s.ws, SnapshotRequest(a, obj, refs)).None?
    requires next.world == AfterSave(s.world, s.ws, device, SnapshotRequest(a, obj, refs), at)
    ensures PublishedWorld(s, next, a, obj, a.entries[|a.entries| - 1].seqno)
  {
    hide Inv, AllOptimistic, ST.Check, AfterSave, ST.Raise;
    var req := SnapshotRequest(a, obj, refs);
    StepKeepsInv(s.world, Step.SaveSnapshot(s.ws, device, req, at));
    StepKeepsOptimistic(s.world, Step.SaveSnapshot(s.ws, device, req, at));
    SaveFields(s.world, s.ws, device, req, at);
  }

  lemma PublishKeepsSnapshots(s: System, next: System, a: Adding, obj: ObjectId, base: int, me: DeviceId)
    requires SysInv(s) && PublishedWorld(s, next, a, obj, base) && obj !in s.published
    requires a.entries != [] && base == InitialSnapshot(me, a).base
    requires next.published == s.published[obj := Published(a.root, InitialSnapshot(me, a))]
    requires Incarnation(Log(s), a.root) == Some(a.created)
             && SnapshotOk(Log(s), a.root, a.created, InitialSnapshot(me, a))
    ensures SnapshotsOk(next)
  {
    hide WorldOk, PeerOk, SnapshotOk, Incarnation, RowOf, InitialSnapshot, Latest;
    ReadRow(s, a.root);
    forall root | RowOf(next.world, next.ws, root).Some?
      ensures RowSnapshotOk(Log(next), next.published, root, RowOf(next.world, next.ws, root).value)
    {
      if root != a.root {
        assert RowSnapshotOk(Log(s), s.published, root, RowOf(s.world, s.ws, root).value);
      }
    }
  }

  lemma SoleUploader(log: seq<Event>, a: Adding, me: DeviceId, b: Adding, peer: DeviceId)
    requires Increasing(log) && OwnAdd(log, me, a) && OwnAdd(log, peer, b) && a.created == b.created
    ensures me == peer
  {
    hide Increasing;
    var f :| f in log && f.seqno == a.created && f.kind.RootAdd? && f.root == a.root && f.author == me;
    UniqueSeq(log, f);
  }

  lemma PublishKeepsPeer(s: System, next: System, a: Adding, obj: ObjectId, base: int, me: DeviceId, peer: DeviceId,
                         c: Client)
    requires s.ws in s.world.logs && PublishedWorld(s, next, a, obj, base) && PeerOk(s, peer, c)
    requires OwnAdd(Log(s), me, a) && Incarnation(Log(s), a.root) == Some(a.created)
    requires peer != me || c.adding.None?
    ensures PeerOk(next, peer, c)
  {
    hide WorldOk, ClientOk, Incarnation, RowOf, OwnAdd, UploadedOk, PhaseOk, SoundLog, Optimistic, Latest;
    ReadWorld(s);
    SoundIncreases(Log(s));
    if c.adding.Some? && c.adding.value.root == a.root && c.adding.value.created == a.created {
      SoleUploader(Log(s), a, me, c.adding.value, peer);
    }
  }

  lemma PublishKeepsSys(s: System, device: DeviceId, obj: ObjectId, refs: seq<ObjectId>, at: Time)
    requires SysInv(s) && device in s.clients
    ensures SysInv(AfterPublish(s, device, obj, refs, at))
  {
    hide WorldOk, SnapshotsOk, Latest, ST.Check, AfterSave, Eligible, SnapshotOk, ClientOk, RowOf, Incarnation;
    hide SnapshotRequest, InitialSnapshot;
    var c := s.clients[device];
    if c.adding.Some? && obj !in s.published && Eligible(c, c.adding.value) {
      var a := c.adding.value;
      var next := AfterPublish(s, device, obj, refs, at);
      AddEndKeepsSys(s, device);
      var ended := WithClient(s, device, c.(adding := None));
      ReadEligible(c, a);
      var req := SnapshotRequest(a, obj, refs);
      if ST.Check(s.world.db, s.ws, req).None? {
        AcceptedSnapshotIsExact(s, device, obj, refs);
        SaveIsPublished(s, device, a, obj, refs, at, next);
        InitialBase(device, a);
        PublishKeepsSnapshots(s, next, a, obj, a.entries[|a.entries| - 1].seqno, device);
        assert PeerOk(s, device, c);
        forall d | d in next.clients ensures PeerOk(next, d, next.clients[d]) {
          assert PeerOk(ended, d, next.clients[d]);
          PeerOfWorld(ended, s, d, next.clients[d]);
          PublishKeepsPeer(s, next, a, obj, a.entries[|a.entries| - 1].seqno, device, d, next.clients[d]);
        }
      } else {
        RefusedSave(s.world, s.ws, device, req, at);
      }
    }
  }

  lemma InitialBase(me: DeviceId, a: Adding)
    requires a.entries != []
    ensures InitialSnapshot(me, a).base == a.entries[|a.entries| - 1].seqno
  {}

  lemma PeerOfWorld(s: System, next: System, peer: DeviceId, c: Client)
    requires s.ws in s.world.logs && next.ws == s.ws && next.world == s.world && PeerOk(s, peer, c)
    ensures PeerOk(next, peer, c)
  {
    hide ClientOk, AddingOk, Incarnation;
  }

  // ---- every action, every run

  lemma SubmitKeepsSys(s: System, device: DeviceId, root: RootId, path: PathId, value: Content, bound: Option<int>,
                       refs: seq<ObjectId>, at: Time, heard: bool)
    requires SysInv(s) && device in s.clients
    ensures SysInv(AfterContent(s, device, root, path, value, bound, refs, at, heard))
  {
    hide SysInv, Accepts, ContentRequest, Submitted, AfterConflict;
    var c := s.clients[device];
    if IsLive(c, root) && c.adding.None? {
      if Accepts(s, ContentRequest(root, path, value, IndexTag(c, root, path), bound, refs)) {
        AcceptedKeepsSys(s, device, root, path, value, bound, refs, at, heard);
      } else {
        ConflictKeepsSys(s, device, root, path, value, bound, refs, at, heard);
      }
    }
  }

  lemma RemoteRemovalKeepsSys(s: System, device: DeviceId, root: RootId, bound: Option<int>, at: Time)
    requires SysInv(s)
    ensures SysInv(Submitted(s, device, RemoveRequest(root, bound), at))
  {
    hide WorldOk, SnapshotsOk, PeerOk, ET.Check, AfterSubmit;
    var req := RemoveRequest(root, bound);
    if Accepts(s, req) {
      SubmittedGrows(s, device, req, at);
      GrowKeepsSys(s, Submitted(s, device, req, at), device, req, at);
    } else {
      RefusedSubmit(s.world, s.ws, device, req, at);
    }
  }

  lemma ForeignKeepsSys(s: System, step: Step)
    requires SysInv(s) && IsForeign(step, s.ws)
    ensures SysInv(s.(world := ServerState.Next(s.world, step)))
  {
    hide WorldOk, SnapshotsOk, PeerOk, ServerState.Next;
    ForeignLeavesWorkspace(s, step);
    SameWorkspaceKeepsSys(s, s.(world := ServerState.Next(s.world, step)));
  }

  lemma ActionKeepsSys(s: System, action: Action)
    requires SysInv(s)
    ensures SysInv(Replication.Step(s, action))
  {
    hide SysInv, AfterContent, AfterTouch, AfterConsume, AfterBootstrap, AfterStart, AfterEntry, AfterUploadEnd;
    hide AfterPublish, Submitted, MarkedRemoved, WithClient, ServerState.Next;
    if action.Foreign? || action.RemoveRemote? || action.device in s.clients {
      match action
      case Foreign(step) => if IsForeign(step, s.ws) { ForeignKeepsSys(s, step); }
      case RemoveRemote(device, root, bound, at) => RemoteRemovalKeepsSys(s, device, root, bound, at);
      case RemoveLocal(device, root) => if !IsUploading(s.clients[device]) { RemoveKeepsSys(s, device, root); }
      case Submit(device, root, path, value, bound, refs, at, heard) =>
        SubmitKeepsSys(s, device, root, path, value, bound, refs, at, heard);
      case Touch(device, root, path, mtime) => TouchKeepsSys(s, device, root, path, mtime);
      case Consume(device, e, blocked) => ConsumeKeepsSys(s, device, e, blocked);
      case Bootstrap(device, occupied, staged) => BootstrapKeepsSys(s, device, occupied, staged);
      case AddStart(device, root, kind, home, at) => StartKeepsSys(s, device, root, kind, home, at);
      case UploadNext(device, path, value, refs, at, heard) => UploadKeepsSys(s, device, path, value, refs, at, heard);
      case UploadEnd(device, complete) => UploadEndKeepsSys(s, device, complete);
      case Publish(device, obj, refs, at) => PublishKeepsSys(s, device, obj, refs, at);
      case AddEnd(device) => if !IsUploading(s.clients[device]) { AddEndKeepsSys(s, device); }
    }
  }

  lemma {:induction false} RunKeepsSys(s: System, actions: seq<Action>)
    requires SysInv(s)
    ensures SysInv(Replication.Run(s, actions))
    decreases |actions|
  {
    hide SysInv, Replication.Step;
    if actions != [] {
      var n := |actions| - 1;
      RunKeepsSys(s, actions[..n]);
      ActionKeepsSys(Replication.Run(s, actions[..n]), actions[n]);
    }
  }

  lemma NewClientIsSound(me: DeviceId)
    ensures ClientOk([], me, NEW_CLIENT) && AddingOk([], me, NEW_CLIENT)
  {}

  lemma InitialIsSound(ws: WorkspaceId, devices: set<DeviceId>)
    ensures SysInv(Initial(ws, devices))
  {
    hide Inv, ClientOk, AddingOk, Optimistic;
    var s := Initial(ws, devices);
    EmptyIsSound();
    StepKeepsInv(EMPTY_WORLD, Step.CreateWorkspace(ws));
    assert AllOptimistic(EMPTY_WORLD);
    StepKeepsOptimistic(EMPTY_WORLD, Step.CreateWorkspace(ws));
    forall d | d in s.clients ensures PeerOk(s, d, s.clients[d]) {
      NewClientIsSound(d);
    }
  }

  /** Every state that any number of clients can reach, in any interleaving, is sound. */
  lemma ReachableSystemsAreSound(s: System)
    requires Replication.Reachable(s)
    ensures SysInv(s)
  {
    hide SysInv, Replication.Run, Initial;
    var ws, devices, actions :| s == Replication.Run(Initial(ws, devices), actions);
    InitialIsSound(ws, devices);
    RunKeepsSys(Initial(ws, devices), actions);
  }
}
