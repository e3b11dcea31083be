/**
  Two runs after which a bootstrap does not reconstruct a path: one leaves a row of an earlier incarnation
  behind, the other puts an old mode back and then takes the client's own change of it for materialized.
*/
module BootstrapRuns {
  import opened Records
  import opened EventLog
  import opened Tables
  import opened ServerState
  import opened Clients
  import opened ClientProofs
  import opened ConsumeProofs
  import opened BootstrapProofs
  import opened UploadProofs
  import opened SnapshotExactness
  import opened Replication
  import opened ReplicationProofs
  import opened ReplicationInvariant
  import opened SubmitProofs
  import opened HorizonProofs
  import opened ServerInvariant
  import opened AcceptanceTheorems
  import opened Replays
  import opened BootstrapTheorems
  import ET = EventTable
  import ST = SnapshotTable
  import WorkspacePurge

  const HOME_WORKSPACE: WorkspaceId := WorkspaceId("w")
  const LAPTOP: DeviceId := DeviceId("laptop")
  const PEER: DeviceId := DeviceId("peer")
  const DOCS: RootId := RootId("docs")
  const SCRIPT: PathId := PathId("script")
  const PLAIN: Content := File("h", 1, 0x1A4, 0)
  const EXECUTABLE: Content := File("h", 1, 0x1ED, 0)
  const PAYLOAD: ObjectId := ObjectId("snapshot")

  ghost function Start(): System {
    Initial(HOME_WORKSPACE, {LAPTOP, PEER})
  }

  /** The laptop adds the root and uploads its only file. */
  const UPLOAD_RUN: seq<Action> := [
    AddStart(LAPTOP, DOCS, DirRoot, "docs", 0),
    UploadNext(LAPTOP, SCRIPT, PLAIN, [], 0, true),
    UploadEnd(LAPTOP, true)]

  /** Somebody removes the root and the peer adds it again. */
  const STALE_RUN: seq<Action> := UPLOAD_RUN + [
    RemoveRemote(PEER, DOCS, None, 0),
    AddStart(PEER, DOCS, DirRoot, "docs", 0)]

  /** The laptop catches up, publishes its snapshot, and then makes the file executable. */
  const CHMOD_RUN: seq<Action> := UPLOAD_RUN + [
    Consume(LAPTOP, ADDED, false),
    Consume(LAPTOP, WRITTEN, false),
    Foreign(Step.Upload(HOME_WORKSPACE, PAYLOAD, 0)),
    Publish(LAPTOP, PAYLOAD, [], 0),
    Submit(LAPTOP, DOCS, SCRIPT, EXECUTABLE, None, [], 0, true)]

  const ADDED: Event := Event(1, HOME_WORKSPACE, DOCS, None, RootAdd, None, LAPTOP, Descriptor(DirRoot, "docs"), 0)
  const WRITTEN: Event := Event(2, HOME_WORKSPACE, DOCS, Some(SCRIPT), FilePut, Some(0), LAPTOP, Body(PLAIN), 0)
  const REMOVED: Event := Event(3, HOME_WORKSPACE, DOCS, None, RootRemove, None, PEER, Descriptor(DirRoot, ""), 0)
  const READDED: Event := Event(4, HOME_WORKSPACE, DOCS, None, RootAdd, None, PEER, Descriptor(DirRoot, "docs"), 0)
  const CHMOD: Event := Event(3, HOME_WORKSPACE, DOCS, Some(SCRIPT), FilePut, Some(2), LAPTOP, Body(EXECUTABLE), 0)

  lemma RunSnoc(s: System, actions: seq<Action>, action: Action)
    ensures Replication.Run(s, actions + [action]) == Replication.Step(Replication.Run(s, actions), action)
  {
    hide Replication.Step;
    assert (actions + [action])[..|actions|] == actions;
  }

  /** What every state of the two runs has in common: its log, and no root but the one. */
  ghost predicate Stands(s: System, log: seq<Event>) {
    && SysInv(s) && s.ws == HOME_WORKSPACE && s.ws in s.world.logs && Log(s) == log
    && s.world.db.nextSeq == |log| + 1
    && (forall k | k in s.world.db.roots :: k == (HOME_WORKSPACE, DOCS))
    && LAPTOP in s.clients && PEER in s.clients
  }

  lemma StartStands()
    ensures Stands(Start(), []) && Start().clients[LAPTOP] == NEW_CLIENT && Start().clients[PEER] == NEW_CLIENT
    ensures Start().published == map[] && Start().world.db.roots == map[]
  {
    hide SysInv;
    InitialIsSound(HOME_WORKSPACE, {LAPTOP, PEER});
  }

  /** An accepted submission on the root appends one event. */
  lemma SubmissionStands(s: System, log: seq<Event>, device: DeviceId, req: ET.Request, at: Time)
    requires Stands(s, log) && Accepts(s, req) && req.root == DOCS
    ensures var next := Submitted(s, device, req, at);
            Grew(s, next, device, req, at) && Stands(next, log + [ET.NewEvent(s.world.db, s.ws, device, req, at)])
  {
    hide WorldOk, SnapshotsOk, PeerOk, ET.Check, AfterSubmit, ET.NewEvent, Grew;
    var next := Submitted(s, device, req, at);
    SubmittedGrows(s, device, req, at);
    GrowKeepsSys(s, next, device, req, at);
    SubmitFields(s.world, s.ws, device, req, at);
  }

  /** Only the client of one device moved. */
  lemma ClientStands(s: System, log: seq<Event>, device: DeviceId, c: Client)
    requires Stands(s, log) && SysInv(WithClient(s, device, c))
    ensures Stands(WithClient(s, device, c), log)
  {
    hide SysInv;
  }

  function AddedBy(device: DeviceId, seqno: int): Event {
    Event(seqno, HOME_WORKSPACE, DOCS, None, RootAdd, None, device, Descriptor(DirRoot, "docs"), 0)
  }

  ghost predicate RowIs(s: System, created: int, snapshot: Option<ObjectId>, snapshotSeq: Option<int>) {
    && (s.ws, DOCS) in s.world.db.roots
    && var row := s.world.db.roots[(s.ws, DOCS)];
       row.created == created && row.removed.None? && row.snapshot == snapshot && row.snapshotSeq == snapshotSeq
  }

  lemma AddIsAccepted(s: System, log: seq<Event>)
    requires Stands(s, log) && Incarnation(log, DOCS).None?
    ensures Accepts(s, AddRequest(DOCS, DirRoot, "docs"))
  {
    hide Inv, SnapshotsOk, PeerOk, AllOptimistic, Incarnation;
    ReadWorld(s);
    ReadRow(s, DOCS);
  }

  /** A device that knows nothing yet adds the root. */
  lemma AddStands(s: System, log: seq<Event>, device: DeviceId)
    requires Stands(s, log) && Incarnation(log, DOCS).None?
    requires (device == LAPTOP || device == PEER) && s.clients[device] == NEW_CLIENT
    ensures var next := AfterStart(s, device, DOCS, DirRoot, "docs", 0);
            && Stands(next, log + [AddedBy(device, |log| + 1)])
            && next.clients == s.clients[device := Started(NEW_CLIENT, DOCS, DirRoot, |log| + 1)]
            && next.published == s.published && RowIs(next, |log| + 1, None, None)
  {
    hide WorldOk, SnapshotsOk, PeerOk, ET.Check, AfterSubmit, Incarnation, Accepts, Started;
    var req := AddRequest(DOCS, DirRoot, "docs");
    AddIsAccepted(s, log);
    SubmissionStands(s, log, device, req, 0);
    StartKeepsSys(s, device, DOCS, DirRoot, "docs", 0);
    var started := Started(NEW_CLIENT, DOCS, DirRoot, |log| + 1);
    ClientStands(Submitted(s, device, req, 0), log + [AddedBy(device, |log| + 1)], device, started);
  }

  /** A content event of the laptop on the script. */
  function ScriptEvent(seqno: int, base: int, value: Content): Event {
    Event(seqno, HOME_WORKSPACE, DOCS, Some(SCRIPT), KindOf(value), Some(base), LAPTOP, Body(value), 0)
  }

  lemma ScriptIsAccepted(s: System, log: seq<Event>, value: Content, base: int, bound: Option<int>)
    requires Stands(s, log) && Incarnation(log, DOCS).Some? && (bound.Some? ==> bound == Incarnation(log, DOCS))
    requires NotBehind(log, DOCS, SCRIPT, base)
    ensures Accepts(s, ContentRequest(DOCS, SCRIPT, value, base, bound, []))
  {
    hide Inv, SnapshotsOk, PeerOk, AllOptimistic, Incarnation, NotBehind, ET.Check;
    ReadWorld(s);
    ContentAcceptedIff(s.world, s.ws, ContentRequest(DOCS, SCRIPT, value, base, bound, []));
  }

  lemma ScriptStands(s: System, log: seq<Event>, value: Content, base: int, bound: Option<int>)
    requires Stands(s, log) && Incarnation(log, DOCS).Some? && (bound.Some? ==> bound == Incarnation(log, DOCS))
    requires NotBehind(log, DOCS, SCRIPT, base)
    ensures var req := ContentRequest(DOCS, SCRIPT, value, base, bound, []);
            var next := Submitted(s, LAPTOP, req, 0);
            && Accepts(s, req) && Stands(next, log + [ScriptEvent(|log| + 1, base, value)])
            && next.clients == s.clients && next.published == s.published && next.world.db.roots == s.world.db.roots
  {
    hide WorldOk, SnapshotsOk, PeerOk, ET.Check, AfterSubmit, Incarnation, Accepts, NotBehind, SysInv;
    var req := ContentRequest(DOCS, SCRIPT, value, base, bound, []);
    ScriptIsAccepted(s, log, value, base, bound);
    SubmissionStands(s, log, LAPTOP, req, 0);
    assert ET.NewEvent(s.world.db, s.ws, LAPTOP, req, 0) == ScriptEvent(|log| + 1, base, value);
  }

  // ---- the upload

  const UPLOADING: Adding := Adding(DOCS, 1, [Uploaded(SCRIPT, PLAIN, 2)], Reconciling)

  /** The laptop's state once its upload has been recorded. */
  ghost predicate HasUploaded(c: Client, cursor: int) {
    && c.cursor == cursor && c.roots == map[DOCS := LocalRoot(DirRoot, Active, 0)]
    && c.index == map[(DOCS, SCRIPT) := Entry(PLAIN, 2)] && c.adding == Some(UPLOADING)
  }

  lemma UploadFirst()
    ensures var s := Replication.Run(Start(), UPLOAD_RUN[..1]);
            && Stands(s, [ADDED]) && s.clients[LAPTOP] == Started(NEW_CLIENT, DOCS, DirRoot, 1)
            && s.clients[PEER] == NEW_CLIENT && s.published == map[] && RowIs(s, 1, None, None)
  {
    hide Replication.Run, Replication.Step, Stands, AfterStart, Started, Start, RowIs, Incarnation, SysInv, Log;
    StartStands();
    ReadClients(Start(), []);
    assert Incarnation([], DOCS).None? by { NothingAdded(); }
    AddStands(Start(), [], LAPTOP);
    UploadSteps();
    RunSnoc(Start(), [], AddStart(LAPTOP, DOCS, DirRoot, "docs", 0));
    NothingRun(Start());
    StepAdds(Start(), LAPTOP);
    assert [] + [AddedBy(LAPTOP, 1)] == [ADDED];
  }

  lemma NothingAdded()
    ensures Incarnation([], DOCS).None?
  {}

  lemma UploadSteps()
    ensures UPLOAD_RUN[..1] == [] + [AddStart(LAPTOP, DOCS, DirRoot, "docs", 0)]
  {}

  lemma NothingRun(s: System)
    ensures Replication.Run(s, []) == s
  {}

  lemma ReadClients(s: System, log: seq<Event>)
    requires Stands(s, log)
    ensures LAPTOP in s.clients && PEER in s.clients && s.ws == HOME_WORKSPACE && s.ws in s.world.logs && Log(s) == log
    ensures SysInv(s)
  {}

  lemma UploadSecond()
    ensures var s := Replication.Run(Start(), UPLOAD_RUN[..2]);
            && Stands(s, [ADDED, WRITTEN])
            && s.clients[LAPTOP] ==
               Started(NEW_CLIENT, DOCS, DirRoot, 1).(adding := Some(UPLOADING.(phase := Uploading)))
            && s.clients[PEER] == NEW_CLIENT && s.published == map[] && RowIs(s, 1, None, None)
  {
    hide Replication.Run, SysInv, AfterSubmit, Accepts, ContentRequest, Initial;
    UploadFirst();
    var s := Replication.Run(Start(), UPLOAD_RUN[..1]);
    assert UPLOAD_RUN[..2] == UPLOAD_RUN[..1] + [UPLOAD_RUN[1]];
    RunSnoc(Start(), UPLOAD_RUN[..1], UPLOAD_RUN[1]);
    ScriptStands(s, [ADDED], PLAIN, 0, Some(1));
    ActionKeepsSys(s, UPLOAD_RUN[1]);
    assert [ADDED] + [ScriptEvent(2, 0, PLAIN)] == [ADDED, WRITTEN];
    assert [] + UPLOADING.entries == UPLOADING.entries;
  }

  lemma UploadThird()
    ensures var s := Replication.Run(Start(), UPLOAD_RUN);
            && Stands(s, [ADDED, WRITTEN]) && HasUploaded(s.clients[LAPTOP], 0)
            && s.clients[PEER] == NEW_CLIENT && s.published == map[] && RowIs(s, 1, None, None)
  {
    hide Replication.Run, SysInv, Initial;
    UploadSecond();
    var s := Replication.Run(Start(), UPLOAD_RUN[..2]);
    assert UPLOAD_RUN == UPLOAD_RUN[..2] + [UPLOAD_RUN[2]];
    RunSnoc(Start(), UPLOAD_RUN[..2], UPLOAD_RUN[2]);
    ActionKeepsSys(s, UPLOAD_RUN[2]);
    OneRow();
  }

  lemma OneRow()
    ensures UploadedIndex(map[], DOCS, [Uploaded(SCRIPT, PLAIN, 2)]) == map[(DOCS, SCRIPT) := Entry(PLAIN, 2)]
    ensures UploadedContents([Uploaded(SCRIPT, PLAIN, 2)]) == map[SCRIPT := PLAIN]
  {
    var entries := [Uploaded(SCRIPT, PLAIN, 2)];
    assert entries[..0] == [];
    assert UploadedIndex(map[], DOCS, []) == map[];
  }

  lemma RunIsReachable(actions: seq<Action>)
    ensures Replication.Reachable(Replication.Run(Start(), actions))
  {
    hide Replication.Run, Initial;
  }

  // ---- a row of an earlier incarnation

  lemma RemovalIsAccepted(s: System, log: seq<Event>)
    requires Stands(s, log) && RowIs(s, 1, None, None)
    ensures Accepts(s, RemoveRequest(DOCS, None))
  {
    hide Inv, SnapshotsOk, PeerOk, AllOptimistic;
    ReadWorld(s);
  }

  lemma RemovalStands(s: System, log: seq<Event>)
    requires Stands(s, log) && RowIs(s, 1, None, None) && |log| == 2
    ensures var next := Submitted(s, PEER, RemoveRequest(DOCS, None), 0);
            Stands(next, log + [REMOVED]) && next.clients == s.clients
  {
    hide SysInv, AfterSubmit, ET.Check, RowIs;
    RemovalIsAccepted(s, log);
    SubmissionStands(s, log, PEER, RemoveRequest(DOCS, None), 0);
  }

  lemma StaleLog()
    ensures Incarnation([ADDED, WRITTEN, REMOVED], DOCS).None?
    ensures Head([ADDED, WRITTEN, REMOVED, READDED], DOCS, SCRIPT).None?
  {}

  lemma StaleSteps()
    ensures STALE_RUN[..4] == UPLOAD_RUN + [RemoveRemote(PEER, DOCS, None, 0)]
    ensures STALE_RUN == STALE_RUN[..4] + [AddStart(PEER, DOCS, DirRoot, "docs", 0)]
  {}

  lemma StepRemoves(s: System)
    ensures Replication.Step(s, RemoveRemote(PEER, DOCS, None, 0)) == Submitted(s, PEER, RemoveRequest(DOCS, None), 0)
  {
    hide Submitted;
  }

  lemma StepAdds(s: System, device: DeviceId)
    requires device in s.clients
    ensures Replication.Step(s, AddStart(device, DOCS, DirRoot, "docs", 0)) ==
            AfterStart(s, device, DOCS, DirRoot, "docs", 0)
  {
    hide AfterStart;
  }

  lemma StaleFirst()
    ensures var s := Replication.Run(Start(), STALE_RUN[..4]);
            && Stands(s, [ADDED, WRITTEN, REMOVED]) && s.clients == Replication.Run(Start(), UPLOAD_RUN).clients
  {
    hide *;
    UploadThird();
    var s := Replication.Run(Start(), UPLOAD_RUN);
    StaleSteps();
    RunSnoc(Start(), UPLOAD_RUN, RemoveRemote(PEER, DOCS, None, 0));
    StepRemoves(s);
    RemovalStands(s, [ADDED, WRITTEN]);
    assert [ADDED, WRITTEN] + [REMOVED] == [ADDED, WRITTEN, REMOVED];
  }

  lemma StaleSecond()
    ensures var s := Replication.Run(Start(), STALE_RUN);
            && Stands(s, [ADDED, WRITTEN, REMOVED, READDED]) && HasUploaded(s.clients[LAPTOP], 0)
            && RowIs(s, 4, None, None)
  {
    hide Replication.Run, Replication.Step, Stands, AfterStart, Start, HasUploaded, RowIs, Submitted, Started;
    hide Incarnation, Log, SysInv;
    UploadThird();
    StaleFirst();
    var s := Replication.Run(Start(), STALE_RUN[..4]);
    StaleSteps();
    RunSnoc(Start(), STALE_RUN[..4], AddStart(PEER, DOCS, DirRoot, "docs", 0));
    ReadClients(s, [ADDED, WRITTEN, REMOVED]);
    StepAdds(s, PEER);
    assert Incarnation([ADDED, WRITTEN, REMOVED], DOCS).None? by { StaleLog(); }
    AddStands(s, [ADDED, WRITTEN, REMOVED], PEER);
    assert [ADDED, WRITTEN, REMOVED] + [AddedBy(PEER, 4)] == [ADDED, WRITTEN, REMOVED, READDED];
  }

  lemma OnlyRoot(s: System, log: seq<Event>, created: int, snapshot: Option<ObjectId>, snapshotSeq: Option<int>)
    requires Stands(s, log) && RowIs(s, created, snapshot, snapshotSeq)
    ensures s.ws in s.world.db.workspaces
    ensures BootstrapAfter(s.world.db, s.ws) == Contribution(s.world.db.roots[(s.ws, DOCS)])
    ensures Listing(s).Keys == {DOCS} && Listing(s)[DOCS] == ListedRow(s, DOCS)
  {
    hide SysInv;
    ReadWorldOf(s);
    var k := (s.ws, DOCS);
    assert k in ActiveRoots(s.world.db, s.ws);
    assert ActiveRoots(s.world.db, s.ws) == {k};
    assert Contributions(s.world.db, s.ws) == {Contribution(s.world.db.roots[k])};
    assert ActiveIds(s.world.db, s.ws) == {DOCS} by { assert k.1 in ActiveIds(s.world.db, s.ws); }
  }

  lemma ReadWorldOf(s: System)
    requires SysInv(s)
    ensures s.ws in s.world.db.workspaces
  {
    hide SnapshotsOk, PeerOk, WorldOk;
    ReadWorld(s);
  }

  /**
    The laptop reconnects after the root was removed and added again, with nothing written to it since. It
    keeps the file that the log no longer has.
  */
  lemma StaleRowStays()
    ensures var s := Replication.Run(Start(), STALE_RUN);
            && Replication.Reachable(s) && Reloadable(s, LAPTOP, {}, DOCS)
            && IndexValue(RebuiltByReplay(s, LAPTOP, {}, {}, DOCS), DOCS, SCRIPT).File?
            && ValueAt(Log(s), DOCS, SCRIPT, Latest(Log(s))) == Gone
  {
    hide Replication.Run, Stands, Initial, HasUploaded, RowIs, BootstrapAfter, Listing, LeftBehind, RebuiltByReplay,
         LoadedValue;
    hide Replication.Reachable, Latest;
    StaleSecond();
    RunIsReachable(STALE_RUN);
    var s := Replication.Run(Start(), STALE_RUN);
    StaleIsLeftBehind(s);
    KeepsWhatWasLoaded(s, LAPTOP, {}, {}, DOCS, SCRIPT);
  }

  lemma StaleIsLeftBehind(s: System)
    requires Stands(s, [ADDED, WRITTEN, REMOVED, READDED]) && HasUploaded(s.clients[LAPTOP], 0)
             && RowIs(s, 4, None, None)
    ensures Reloadable(s, LAPTOP, {}, DOCS)
    ensures LeftBehind(Log(s), s.clients[LAPTOP], Listing(s)[DOCS], BootstrapAfter(s.world.db, s.ws), DOCS, SCRIPT)
    ensures LoadedValue(s.clients[LAPTOP], Listing(s)[DOCS], DOCS, SCRIPT) == PLAIN
    ensures ValueAt(Log(s), DOCS, SCRIPT, Latest(Log(s))) == Gone
  {
    hide SysInv, BootstrapAfter, Listing, Head;
    var log := [ADDED, WRITTEN, REMOVED, READDED];
    ReadWorldOf(s);
    OnlyRoot(s, log, 4, None, None);
    StaleLog();
  }

  // ---- an old mode put back

  lemma ChmodSteps()
    ensures CHMOD_RUN[..4] == UPLOAD_RUN + [Consume(LAPTOP, ADDED, false)]
    ensures CHMOD_RUN[..5] == CHMOD_RUN[..4] + [Consume(LAPTOP, WRITTEN, false)]
    ensures CHMOD_RUN[..6] == CHMOD_RUN[..5] + [Foreign(Step.Upload(HOME_WORKSPACE, PAYLOAD, 0))]
    ensures CHMOD_RUN[..7] == CHMOD_RUN[..6] + [Publish(LAPTOP, PAYLOAD, [], 0)]
    ensures CHMOD_RUN == CHMOD_RUN[..7] + [Submit(LAPTOP, DOCS, SCRIPT, EXECUTABLE, None, [], 0, true)]
  {}

  /** The laptop's own events are materialized: only the cursor moves. */
  lemma ConsumeStands(s: System, cursor: int, e: Event)
    requires Stands(s, [ADDED, WRITTEN]) && HasUploaded(s.clients[LAPTOP], cursor)
    requires (cursor == 0 && e == ADDED) || (cursor == 1 && e == WRITTEN)
    ensures var next := Replication.Step(s, Consume(LAPTOP, e, false));
            && Stands(next, [ADDED, WRITTEN]) && HasUploaded(next.clients[LAPTOP], cursor + 1)
            && next.published == s.published && next.world == s.world
  {
    hide SysInv, IsNext;
    ActionKeepsSys(s, Consume(LAPTOP, e, false));
    ReadPruned(s);
    assert e == [ADDED, WRITTEN][cursor];
    assert Delivers(s, s.clients[LAPTOP], e);
  }

  lemma ReadPruned(s: System)
    requires SysInv(s)
    ensures s.ws in s.world.pruned
  {
    hide SnapshotsOk, PeerOk, WorldOk;
    ReadWorld(s);
  }

  lemma BlobStands(s: System)
    requires Stands(s, [ADDED, WRITTEN]) && HasUploaded(s.clients[LAPTOP], 2) && RowIs(s, 1, None, None)
    ensures var next := Replication.Step(s, Foreign(Step.Upload(HOME_WORKSPACE, PAYLOAD, 0)));
            && Stands(next, [ADDED, WRITTEN]) && HasUploaded(next.clients[LAPTOP], 2) && RowIs(next, 1, None, None)
            && next.published == s.published && IsVisible(next.world.db, next.ws, PAYLOAD)
  {
    hide SysInv, HasUploaded, AfterUpload;
    ActionKeepsSys(s, Foreign(Step.Upload(HOME_WORKSPACE, PAYLOAD, 0)));
    ReadWorldOf(s);
    UploadFields(s.world, HOME_WORKSPACE, PAYLOAD, 0);
    UploadIsVisible(s.world, HOME_WORKSPACE, PAYLOAD, 0);
  }

  lemma UploadIsVisible(w: World, ws: WorkspaceId, o: ObjectId, at: Time)
    requires ws in w.db.workspaces
    ensures IsVisible(AfterUpload(w, ws, o, at).db, ws, o)
  {}

  lemma UploadIsEligible(c: Client)
    requires HasUploaded(c, 2)
    ensures Eligible(c, UPLOADING)
    ensures InitialSnapshot(LAPTOP, UPLOADING) == Snapshot(2, map[SCRIPT := PLAIN], LAPTOP)
  {
    OneRow();
    assert (set k | k in c.index && k.0 == DOCS) == {(DOCS, SCRIPT)};
  }

  lemma SnapshotIsAccepted(s: System)
    requires Stands(s, [ADDED, WRITTEN]) && RowIs(s, 1, None, None) && IsVisible(s.world.db, s.ws, PAYLOAD)
    ensures ST.Check(s.world.db, s.ws, SnapshotRequest(UPLOADING, PAYLOAD, [])).None?
  {
    hide Inv, SnapshotsOk, PeerOk, AllOptimistic;
    ReadWorld(s);
  }

  lemma PublishStands(s: System)
    requires Stands(s, [ADDED, WRITTEN]) && HasUploaded(s.clients[LAPTOP], 2) && RowIs(s, 1, None, None)
    requires s.published == map[] && IsVisible(s.world.db, s.ws, PAYLOAD)
    ensures var next := Replication.Step(s, Publish(LAPTOP, PAYLOAD, [], 0));
            && Stands(next, [ADDED, WRITTEN]) && RowIs(next, 1, Some(PAYLOAD), Some(2))
            && next.clients[LAPTOP] == s.clients[LAPTOP].(adding := None)
            && next.published == map[PAYLOAD := Published(DOCS, Snapshot(2, map[SCRIPT := PLAIN], LAPTOP))]
  {
    hide SysInv, AfterSave, Eligible, InitialSnapshot, ST.Check;
    ActionKeepsSys(s, Publish(LAPTOP, PAYLOAD, [], 0));
    UploadIsEligible(s.clients[LAPTOP]);
    SnapshotIsAccepted(s);
    SaveFields(s.world, s.ws, LAPTOP, SnapshotRequest(UPLOADING, PAYLOAD, []), 0);
  }

  lemma ChmodLog()
    ensures Incarnation([ADDED, WRITTEN], DOCS) == Some(1)
    ensures NotBehind([ADDED, WRITTEN], DOCS, SCRIPT, 2)
    ensures Head([ADDED, WRITTEN, CHMOD], DOCS, SCRIPT) == Some(CHMOD)
  {
    assert [ADDED, WRITTEN][..1] == [ADDED];
  }

  lemma ChmodStands(s: System)
    requires Stands(s, [ADDED, WRITTEN]) && RowIs(s, 1, Some(PAYLOAD), Some(2))
    requires HasUploaded(s.clients[LAPTOP].(adding := Some(UPLOADING)), 2) && s.clients[LAPTOP].adding.None?
    ensures var next := Replication.Step(s, Submit(LAPTOP, DOCS, SCRIPT, EXECUTABLE, None, [], 0, true));
            && Stands(next, [ADDED, WRITTEN, CHMOD]) && RowIs(next, 1, Some(PAYLOAD), Some(2))
            && next.published == s.published && next.clients[LAPTOP].adding.None?
            && (DOCS, SCRIPT) in next.clients[LAPTOP].index
            && next.clients[LAPTOP].index[(DOCS, SCRIPT)] == Entry(EXECUTABLE, 3)
  {
    hide SysInv, AfterSubmit, Accepts, ContentRequest, NotBehind, Incarnation, Head;
    ActionKeepsSys(s, Submit(LAPTOP, DOCS, SCRIPT, EXECUTABLE, None, [], 0, true));
    ChmodLog();
    ScriptStands(s, [ADDED, WRITTEN], EXECUTABLE, 2, None);
    assert [ADDED, WRITTEN] + [ScriptEvent(3, 2, EXECUTABLE)] == [ADDED, WRITTEN, CHMOD];
  }

  lemma ChmodFirst()
    ensures var s := Replication.Run(Start(), CHMOD_RUN[..6]);
            && Stands(s, [ADDED, WRITTEN]) && HasUploaded(s.clients[LAPTOP], 2) && RowIs(s, 1, None, None)
            && s.published == map[] && IsVisible(s.world.db, s.ws, PAYLOAD)
  {
    hide Replication.Run, Replication.Step, Initial, HasUploaded, IsVisible, SysInv;
    UploadThird();
    ChmodSteps();
    var s := Replication.Run(Start(), UPLOAD_RUN);
    RunSnoc(Start(), UPLOAD_RUN, Consume(LAPTOP, ADDED, false));
    ConsumeStands(s, 0, ADDED);
    var s' := Replication.Step(s, Consume(LAPTOP, ADDED, false));
    RunSnoc(Start(), CHMOD_RUN[..4], Consume(LAPTOP, WRITTEN, false));
    ConsumeStands(s', 1, WRITTEN);
    RunSnoc(Start(), CHMOD_RUN[..5], Foreign(Step.Upload(HOME_WORKSPACE, PAYLOAD, 0)));
    BlobStands(Replication.Step(s', Consume(LAPTOP, WRITTEN, false)));
  }

  lemma ChmodSecond()
    ensures var s := Replication.Run(Start(), CHMOD_RUN);
            && Stands(s, [ADDED, WRITTEN, CHMOD]) && RowIs(s, 1, Some(PAYLOAD), Some(2))
            && s.clients[LAPTOP].adding.None?
            && s.published == map[PAYLOAD := Published(DOCS, Snapshot(2, map[SCRIPT := PLAIN], LAPTOP))]
            && (DOCS, SCRIPT) in s.clients[LAPTOP].index
            && s.clients[LAPTOP].index[(DOCS, SCRIPT)] == Entry(EXECUTABLE, 3)
  {
    hide Replication.Run, Replication.Step, Initial, IsVisible, SysInv, RowIs;
    ChmodFirst();
    ChmodSteps();
    var s := Replication.Run(Start(), CHMOD_RUN[..6]);
    RunSnoc(Start(), CHMOD_RUN[..6], Publish(LAPTOP, PAYLOAD, [], 0));
    PublishStands(s);
    RunSnoc(Start(), CHMOD_RUN[..7], Submit(LAPTOP, DOCS, SCRIPT, EXECUTABLE, None, [], 0, true));
    ChmodStands(Replication.Step(s, Publish(LAPTOP, PAYLOAD, [], 0)));
  }

  lemma ChmodIsKeptOld(s: System)
    requires Stands(s, [ADDED, WRITTEN, CHMOD]) && RowIs(s, 1, Some(PAYLOAD), Some(2)) && s.clients[LAPTOP].adding.None?
    requires s.published == map[PAYLOAD := Published(DOCS, Snapshot(2, map[SCRIPT := PLAIN], LAPTOP))]
    requires (DOCS, SCRIPT) in s.clients[LAPTOP].index
             && s.clients[LAPTOP].index[(DOCS, SCRIPT)] == Entry(EXECUTABLE, 3)
    ensures Reloadable(s, LAPTOP, {}, DOCS)
    ensures KeptOld(Log(s), LAPTOP, s.clients[LAPTOP], Listing(s)[DOCS], BootstrapAfter(s.world.db, s.ws), false, DOCS,
            SCRIPT)
    ensures LoadedValue(s.clients[LAPTOP], Listing(s)[DOCS], DOCS, SCRIPT) == PLAIN
    ensures ValueAt(Log(s), DOCS, SCRIPT, Latest(Log(s))) == EXECUTABLE
  {
    hide SysInv, BootstrapAfter, Listing, Head;
    ReadWorldOf(s);
    OnlyRoot(s, [ADDED, WRITTEN, CHMOD], 1, Some(PAYLOAD), Some(2));
    ChmodLog();
  }

  /**
    A file's mode is not reconstructed: the snapshot brings its own mode but keeps the seq of a row whose
    content it matches, so the laptop's own later chmod counts as materialized and is skipped.
  */
  lemma ModeMayLag()
    ensures var s := Replication.Run(Start(), CHMOD_RUN);
            && Replication.Reachable(s) && Reloadable(s, LAPTOP, {}, DOCS)
            && IndexValue(RebuiltByReplay(s, LAPTOP, {}, {}, DOCS), DOCS, SCRIPT) == PLAIN
            && ValueAt(Log(s), DOCS, SCRIPT, Latest(Log(s))) == EXECUTABLE
  {
    hide Replication.Run, Stands, Initial, RowIs, BootstrapAfter, Listing, KeptOld, RebuiltByReplay, LoadedValue;
    hide Replication.Reachable, Latest, ValueAt;
    ChmodSecond();
    RunIsReachable(CHMOD_RUN);
    var s := Replication.Run(Start(), CHMOD_RUN);
    ChmodIsKeptOld(s);
    KeepsWhatWasLoaded(s, LAPTOP, {}, {}, DOCS, SCRIPT);
  }
}
